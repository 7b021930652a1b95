/** The part of a pandas DataFrame that the pipeline uses: a row index (the
    dates, in order), an ordered list of column names and one column of cells
    per name. `Table` is its value; `Frame` is the mutable object that
    `df.copy()`, `df[name] = values` and `df.dropna()` act on
    (src/features.py:9, 12, 17, 20-21, 30-31). */
module Frames {
  import opened Series

  datatype Table = Table(index: seq<int>, names: seq<string>, data: map<string, Column>)

  /** The frame invariant: the names are exactly the keys, each once, and
      every column has one cell per row. */
  predicate WellFormed(t: Table) {
    && (forall c :: c in t.data ==> c in t.names)
    && (forall i :: 0 <= i < |t.names| ==> t.names[i] in t.data)
    && (forall i, j :: 0 <= i < j < |t.names| ==> t.names[i] != t.names[j])
    && (forall c :: c in t.data ==> |t.data[c]| == |t.index|)
  }

  /** Column order after assigning `xs` one by one: an assignment to a new
      name appends it, one to an existing name keeps its position. */
  function AppendNew(names: seq<string>, xs: seq<string>): seq<string>
    decreases |xs|
  {
    if xs == [] then names
    else AppendNew(if xs[0] in names then names else names + [xs[0]], xs[1..])
  }

  /** `df[name] = col`: replaces the column if it exists, else appends it. */
  function WithColumn(t: Table, name: string, col: Column): (r: Table)
    requires WellFormed(t) && |col| == |t.index|
    ensures WellFormed(r) && r.index == t.index
    ensures r.names == AppendNew(t.names, [name])
  {
    Table(t.index, if name in t.names then t.names else t.names + [name], t.data[name := col])
  }

  lemma {:induction false} AppendNewFresh(names: seq<string>, xs: seq<string>)
    requires forall i, j :: 0 <= i < j < |xs| ==> xs[i] != xs[j]
    requires forall i :: 0 <= i < |xs| ==> xs[i] !in names
    ensures AppendNew(names, xs) == names + xs
    decreases |xs|
  {
    if xs != [] {
      AppendNewFresh(names + [xs[0]], xs[1..]);
      assert names + [xs[0]] + xs[1..] == names + xs;
    }
  }

  lemma {:induction false} AppendNewConcat(names: seq<string>, xs: seq<string>, ys: seq<string>)
    ensures AppendNew(names, xs + ys) == AppendNew(AppendNew(names, xs), ys)
    decreases |xs|
  {
    if xs != [] {
      assert (xs + ys)[1..] == xs[1..] + ys;
      AppendNewConcat(if xs[0] in names then names else names + [xs[0]], xs[1..], ys);
    } else {
      assert xs + ys == ys;
    }
  }

  // ------------------------------------------------------------- dropna

  /** Row `i` has a value in every column. */
  predicate RowComplete(t: Table, i: nat)
    requires WellFormed(t) && i < |t.index|
  {
    forall c :: c in t.data ==> t.data[c][i].Some?
  }

  /** The complete rows at positions `lo` and after, in increasing order. */
  function CompleteRows(t: Table, lo: nat): (ps: seq<nat>)
    requires WellFormed(t) && lo <= |t.index|
    ensures forall j :: 0 <= j < |ps| ==> lo <= ps[j] < |t.index| && RowComplete(t, ps[j])
    ensures forall i :: lo <= i < |t.index| && RowComplete(t, i) ==> i in ps
    ensures forall j, k :: 0 <= j < k < |ps| ==> ps[j] < ps[k]
    decreases |t.index| - lo
  {
    if lo == |t.index| then []
    else (if RowComplete(t, lo) then [lo] else []) + CompleteRows(t, lo + 1)
  }

  /** The cells of `s` at positions `ps`, in that order. */
  function Pick<T>(s: seq<T>, ps: seq<nat>): (r: seq<T>)
    requires forall j :: 0 <= j < |ps| ==> ps[j] < |s|
    ensures |r| == |ps|
  {
    seq(|ps|, j requires 0 <= j < |ps| => s[ps[j]])
  }

  /** `df.dropna()`: the rows with a value in every column, in their order,
      with their index labels; the columns stay as they are. */
  function Trim(t: Table): (r: Table)
    requires WellFormed(t)
    ensures WellFormed(r) && r.names == t.names && r.data.Keys == t.data.Keys
  {
    var ps := CompleteRows(t, 0);
    Table(Pick(t.index, ps), t.names, map c | c in t.data :: Pick(t.data[c], ps))
  }

  function Range(lo: nat, hi: nat): (r: seq<nat>)
    ensures |r| == if lo <= hi then hi - lo else 0
    ensures forall j :: 0 <= j < |r| ==> r[j] == lo + j
    decreases hi - lo
  {
    if lo >= hi then [] else [lo] + Range(lo + 1, hi)
  }

  /** When exactly the rows from position `m` on are complete, the complete
      rows from `lo` on are `max(lo, m) .. n-1`. */
  lemma {:induction false} CompleteRowsFrom(t: Table, lo: nat, m: nat)
    requires WellFormed(t) && lo <= |t.index|
    requires forall i :: 0 <= i < |t.index| ==> (RowComplete(t, i) <==> i >= m)
    ensures CompleteRows(t, lo) == Range(if lo < m then m else lo, |t.index|)
    decreases |t.index| - lo
  {
    if lo < |t.index| {
      CompleteRowsFrom(t, lo + 1, m);
    }
  }

  /** `dropna` on a frame whose incomplete rows are exactly the first `m`
      keeps the suffix from row `m` of the index and of every column, in order. */
  lemma TrimDropsPrefix(t: Table, m: nat)
    requires WellFormed(t) && m <= |t.index|
    requires forall i :: 0 <= i < |t.index| ==> (RowComplete(t, i) <==> i >= m)
    ensures Trim(t).index == t.index[m..]
    ensures forall c :: c in t.data ==> Trim(t).data[c] == t.data[c][m..]
  {
    CompleteRowsFrom(t, 0, m);
    var ps := CompleteRows(t, 0);
    PickSuffix(t.index, m);
    forall c | c in t.data
      ensures Trim(t).data[c] == t.data[c][m..]
    {
      assert Trim(t).data[c] == Pick(t.data[c], ps);
      PickSuffix(t.data[c], m);
    }
  }

  lemma PickSuffix<T>(s: seq<T>, m: nat)
    requires m <= |s|
    ensures Pick(s, Range(m, |s|)) == s[m..]
  {
  }

  // -------------------------------------------------------------- frames

  /** A DataFrame object; the builders mutate a copy of it in place. */
  class Frame {
    var index: seq<int>
    var names: seq<string>
    var data: map<string, Column>

    function View(): Table
      reads this
    {
      Table(index, names, data)
    }

    ghost predicate Valid()
      reads this
    {
      WellFormed(View())
    }

    constructor (t: Table)
      requires WellFormed(t)
      ensures Valid() && View() == t
    {
      index, names, data := t.index, t.names, t.data;
    }

    /** `df.copy()`: a new frame with the same contents. */
    method Copy() returns (f: Frame)
      requires Valid()
      ensures fresh(f) && f.Valid() && f.View() == View()
    {
      f := new Frame(View());
    }

    /** `df[name] = values`. */
    method Assign(name: string, values: Column)
      requires Valid() && |values| == |index|
      modifies this
      ensures Valid() && View() == WithColumn(old(View()), name, values)
    {
      if name !in names {
        names := names + [name];
      }
      data := data[name := values];
    }

    /** `df.dropna()`: a new frame holding only the complete rows. */
    method DropNa() returns (f: Frame)
      requires Valid()
      ensures fresh(f) && f.Valid() && f.View() == Trim(View())
    {
      f := new Frame(Trim(View()));
    }
  }
}
