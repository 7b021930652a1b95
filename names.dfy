/** Column names of the derived features: `f"{col}_lag_{lag}"`,
    `f"{col}_roll_mean_{w}"` and `f"{col}_roll_std_{w}"` (src/features.py:12, 20-21),
    with Python's decimal formatting of an integer written out. */
module ColumnNames {

  predicate IsDigit(ch: char) {
    '0' <= ch <= '9'
  }

  /** No character of `s` is an underscore. */
  predicate NoUnderscore(s: string) {
    forall i :: 0 <= i < |s| ==> s[i] != '_'
  }

  /** A name that does not end in a decimal digit: no derived name is one. */
  predicate PlainName(s: string) {
    |s| == 0 || !IsDigit(s[|s| - 1])
  }

  function DigitChar(d: nat): (ch: char)
    requires d < 10
    ensures IsDigit(ch)
  {
    ('0' as int + d) as char
  }

  /** Decimal representation of a natural number, as `str(n)` writes it. */
  function NatToString(n: nat): (s: string)
    ensures |s| >= 1 && (n >= 10 <==> |s| >= 2)
    ensures forall i :: 0 <= i < |s| ==> IsDigit(s[i])
  {
    if n < 10 then [DigitChar(n)] else NatToString(n / 10) + [DigitChar(n % 10)]
  }

  /** Decimal representation of an integer, with a leading minus when negative. */
  function IntToString(k: int): (s: string)
    ensures |s| >= 1 && IsDigit(s[|s| - 1]) && NoUnderscore(s)
    ensures k < 0 <==> s[0] == '-'
  {
    if k < 0 then "-" + NatToString(-k) else NatToString(k)
  }

  lemma {:induction false} NatToStringInjective(a: nat, b: nat)
    requires NatToString(a) == NatToString(b)
    ensures a == b
  {
    if a >= 10 && b >= 10 {
      var sa, sb := NatToString(a / 10), NatToString(b / 10);
      assert NatToString(a) == sa + [DigitChar(a % 10)];
      assert NatToString(b) == sb + [DigitChar(b % 10)];
      assert sa == NatToString(a)[..|NatToString(a)| - 1];
      assert sb == NatToString(b)[..|NatToString(b)| - 1];
      NatToStringInjective(a / 10, b / 10);
      assert DigitChar(a % 10) == NatToString(a)[|NatToString(a)| - 1];
    } else if a < 10 && b < 10 {
      assert DigitChar(a) == NatToString(a)[0];
    }
  }

  /** Distinct integers are written differently, so distinct lags give distinct names. */
  lemma IntToStringInjective(a: int, b: int)
    requires IntToString(a) == IntToString(b)
    ensures a == b
  {
    if a < 0 {
      assert NatToString(-a) == IntToString(a)[1..];
      assert NatToString(-b) == IntToString(b)[1..];
      NatToStringInjective(-a, -b);
    } else {
      NatToStringInjective(a, b);
    }
  }

  /** The three kinds of derived column, each built from a base column and an integer. */
  datatype Feature =
    | Lag(col: string, k: int)
    | RollMean(col: string, w: int)
    | RollStd(col: string, w: int)
  {
    function Tag(): string {
      match this
      case Lag(_, _) => "_lag_"
      case RollMean(_, _) => "_roll_mean_"
      case RollStd(_, _) => "_roll_std_"
    }

    function Param(): int {
      match this
      case Lag(_, k) => k
      case RollMean(_, w) => w
      case RollStd(_, w) => w
    }

    /** The column the source writes this feature to. */
    function Name(): string {
      col + Tag() + IntToString(Param())
    }
  }

  /** In `a + p + s`, the last underscore is the last character of `p`. */
  lemma TagEndsBeforeNumber(a: string, p: string, s: string)
    requires |p| > 0 && p[|p| - 1] == '_' && NoUnderscore(s)
    ensures (a + p + s)[|a + p + s| - |s| - 1] == '_'
    ensures forall i :: |a + p + s| - |s| <= i < |a + p + s| ==> (a + p + s)[i] != '_'
  {
    var x := a + p + s;
    forall i | |x| - |s| <= i < |x|
      ensures x[i] != '_'
    {
      assert x[i] == s[i - |a + p|];
    }
  }

  /** Splitting `x` as `prefix + tag + number` is unique when the tag ends in '_'
      and the number has no '_'. */
  lemma SplitAtLastUnderscore(a: string, p: string, s: string, b: string, q: string, u: string)
    requires a + p + s == b + q + u
    requires |p| > 0 && p[|p| - 1] == '_' && |q| > 0 && q[|q| - 1] == '_'
    requires NoUnderscore(s) && NoUnderscore(u)
    ensures s == u && a + p == b + q
  {
    var x := a + p + s;
    TagEndsBeforeNumber(a, p, s);
    TagEndsBeforeNumber(b, q, u);
    assert |s| == |u|;
    assert s == x[|a + p|..];
    assert u == (b + q + u)[|b + q|..];
    assert a + p == x[..|a + p|];
    assert b + q == (b + q + u)[..|b + q|];
  }

  /** No two distinct features write the same column. */
  lemma NameInjective(f: Feature, g: Feature)
    requires f.Name() == g.Name()
    ensures f == g
  {
    var p, q := f.Tag(), g.Tag();
    SplitAtLastUnderscore(f.col, p, IntToString(f.Param()), g.col, q, IntToString(g.Param()));
    IntToStringInjective(f.Param(), g.Param());
    var x := f.col + p;
    assert x == g.col + q;
    assert x[|x| - 2] == p[|p| - 2] && x[|x| - 2] == q[|q| - 2];
    assert p == q;
    assert f.col == x[..|x| - |p|] == g.col;
  }

  /** A derived name always ends in a digit, so it never equals a plain name. */
  lemma NameNotPlain(f: Feature)
    ensures !PlainName(f.Name())
  {
    var d := IntToString(f.Param());
    assert f.Name()[|f.Name()| - 1] == d[|d| - 1];
  }
}
