/** What the feature pipeline of src/features.py produces: which columns it
    writes and with which values, when it fails, that it never looks ahead,
    and which rows survive the final `dropna`. */
module PipelineProperties {
  import opened Series
  import opened Frames
  import opened ColumnNames
  import opened Features

  /** Every base column named by `fs` is a plain name (does not end in a
      digit), so no derived column can overwrite one. */
  predicate PlainBases(fs: seq<Feature>) {
    forall j :: 0 <= j < |fs| ==> PlainName(fs[j].col)
  }

  // ============================================================ folds

  /** Running `fs + gs` is running `fs`, then `gs` on its result. */
  lemma {:induction false} BuildAppend(t: Table, fs: seq<Feature>, gs: seq<Feature>)
    requires WellFormed(t)
    ensures Build(t, fs + gs) == match Build(t, fs)
                                 case Err(e) => Err(e)
                                 case Ok(t1) => Build(t1, gs)
    decreases |fs|
  {
    if fs == [] {
      assert fs + gs == gs;
    } else {
      assert (fs + gs)[0] == fs[0] && (fs + gs)[1..] == fs[1..] + gs;
      if Check(t, fs[0]) == None {
        BuildAppend(Apply(t, fs[0]), fs[1..], gs);
      }
    }
  }

  /** Writing a derived column leaves the outcome of the checks on plain
      base columns as it was. */
  lemma CheckAfterApply(t: Table, f: Feature, g: Feature)
    requires WellFormed(t) && Check(t, f) == None && PlainName(g.col)
    ensures Check(Apply(t, f), g) == Check(t, g)
  {
    NameNotPlain(f);
  }

  /** A builder fails exactly when some feature's column is missing from the
      INPUT frame or its window is invalid, and it reports the first such
      feature in loop order. */
  lemma {:induction false} BuildErrors(t: Table, fs: seq<Feature>)
    requires WellFormed(t) && PlainBases(fs)
    ensures Build(t, fs).Err? <==> FirstFailure(t, fs).Some?
    ensures Build(t, fs).Err? ==> Build(t, fs).error == FirstFailure(t, fs).value
    decreases |fs|
  {
    if fs != [] && Check(t, fs[0]) == None {
      var t1 := Apply(t, fs[0]);
      forall j | 0 <= j < |fs| - 1
        ensures Check(t1, fs[1..][j]) == Check(t, fs[1..][j])
      {
        CheckAfterApply(t, fs[0], fs[1..][j]);
      }
      FirstFailureSame(t, t1, fs[1..]);
      BuildErrors(t1, fs[1..]);
    }
  }

  lemma {:induction false} FirstFailureSame(t: Table, u: Table, fs: seq<Feature>)
    requires forall j :: 0 <= j < |fs| ==> Check(u, fs[j]) == Check(t, fs[j])
    ensures FirstFailure(u, fs) == FirstFailure(t, fs)
    decreases |fs|
  {
    if fs != [] {
      FirstFailureSame(t, u, fs[1..]);
    }
  }

  /** `c` is the name of a column some feature of `fs` writes. */
  ghost predicate Writes(fs: seq<Feature>, c: string) {
    exists j :: 0 <= j < |fs| && fs[j].Name() == c
  }

  lemma WritesCons(fs: seq<Feature>, c: string)
    requires fs != []
    ensures Writes(fs, c) <==> fs[0].Name() == c || Writes(fs[1..], c)
  {
    if Writes(fs[1..], c) {
      var k :| 0 <= k < |fs[1..]| && fs[1..][k].Name() == c;
      assert fs[k + 1].Name() == c;
    }
  }

  /** After the first assignment of a failure-free run, the rest of the run
      is failure-free too. */
  lemma StepOk(t: Table, fs: seq<Feature>)
    requires WellFormed(t) && PlainBases(fs) && fs != []
    requires FirstFailure(t, fs) == None
    ensures Check(t, fs[0]) == None
    ensures PlainBases(fs[1..]) && FirstFailure(Apply(t, fs[0]), fs[1..]) == None
    ensures Build(t, fs) == Build(Apply(t, fs[0]), fs[1..])
  {
    assert fs[0] in fs;
    var t1 := Apply(t, fs[0]);
    forall j | 0 <= j < |fs| - 1
      ensures Check(t1, fs[1..][j]) == Check(t, fs[1..][j])
    {
      CheckAfterApply(t, fs[0], fs[1..][j]);
    }
    FirstFailureSame(t, t1, fs[1..]);
  }

  lemma FeatureNamesCons(fs: seq<Feature>)
    requires fs != []
    ensures FeatureNames(fs) == [fs[0].Name()] + FeatureNames(fs[1..])
  {
  }

  /** When no check fails, a builder succeeds; its frame has the input's
      rows, and its columns are the input's in their order, with each new
      name appended on its first write. */
  lemma {:induction false} BuildNames(t: Table, fs: seq<Feature>)
    requires WellFormed(t) && PlainBases(fs)
    requires FirstFailure(t, fs) == None
    ensures Build(t, fs).Ok?
    ensures Build(t, fs).value.index == t.index
    ensures Build(t, fs).value.names == AppendNew(t.names, FeatureNames(fs))
    decreases |fs|
  {
    if fs != [] {
      StepOk(t, fs);
      var f, rest := fs[0], fs[1..];
      var t1 := Apply(t, f);
      BuildNames(t1, rest);
      FeatureNamesCons(fs);
      AppendNewConcat(t.names, [f.Name()], FeatureNames(rest));
    }
  }

  /** The columns of a builder's frame are the input's and the features'. */
  lemma {:induction false} BuildKeys(t: Table, fs: seq<Feature>)
    requires WellFormed(t) && PlainBases(fs)
    requires FirstFailure(t, fs) == None
    ensures Build(t, fs).Ok?
    ensures forall c :: c in Build(t, fs).value.data <==> c in t.data || Writes(fs, c)
    decreases |fs|
  {
    if fs != [] {
      StepOk(t, fs);
      var f, rest := fs[0], fs[1..];
      BuildKeys(Apply(t, f), rest);
      forall c
        ensures Writes(fs, c) <==> f.Name() == c || Writes(rest, c)
      {
        WritesCons(fs, c);
      }
    }
  }

  /** Each derived column holds its feature's rule applied to the base
      column of the INPUT frame: later writes never change a base column. */
  lemma {:induction false} BuildValues(t: Table, fs: seq<Feature>)
    requires WellFormed(t) && PlainBases(fs)
    requires FirstFailure(t, fs) == None
    ensures Build(t, fs).Ok?
    ensures forall j :: 0 <= j < |fs| ==>
      && fs[j].Name() in Build(t, fs).value.data
      && fs[j].col in t.data && WindowOk(fs[j])
      && Build(t, fs).value.data[fs[j].Name()] == Rule(fs[j], t.data[fs[j].col])
    decreases |fs|
  {
    if fs != [] {
      StepOk(t, fs);
      var f, rest := fs[0], fs[1..];
      var t1 := Apply(t, f);
      BuildValues(t1, rest);
      BuildKeys(t1, rest);
      NameNotPlain(f);
      var r := Build(t1, rest).value;
      forall j | 0 <= j < |fs|
        ensures fs[j].Name() in r.data && fs[j].col in t.data && WindowOk(fs[j])
        ensures r.data[fs[j].Name()] == Rule(fs[j], t.data[fs[j].col])
      {
        if j > 0 {
          assert fs[j] == rest[j - 1];
          assert fs[j] in fs;
        } else if Writes(rest, f.Name()) {
          var k :| 0 <= k < |rest| && rest[k].Name() == f.Name();
          NameInjective(rest[k], f);
        } else {
          BuildKeeps(t1, rest);
        }
      }
    }
  }

  /** A column no feature writes keeps its values. */
  lemma {:induction false} BuildKeeps(t: Table, fs: seq<Feature>)
    requires WellFormed(t) && PlainBases(fs)
    requires FirstFailure(t, fs) == None
    ensures Build(t, fs).Ok?
    ensures forall c :: c in t.data && !Writes(fs, c) ==>
      c in Build(t, fs).value.data && Build(t, fs).value.data[c] == t.data[c]
    decreases |fs|
  {
    if fs != [] {
      StepOk(t, fs);
      var f, rest := fs[0], fs[1..];
      BuildKeeps(Apply(t, f), rest);
      forall c
        ensures Writes(fs, c) <==> f.Name() == c || Writes(rest, c)
      {
        WritesCons(fs, c);
      }
    }
  }

  // ====================================================== loop orders

  lemma {:induction false} LagsOfMembers(col: string, lags: seq<int>, f: Feature)
    ensures f in LagsOf(col, lags) <==> f.Lag? && f.col == col && f.k in lags
    decreases |lags|
  {
    if lags != [] {
      LagsOfMembers(col, lags[1..], f);
      assert lags == [lags[0]] + lags[1..];
    }
  }

  /** `create_lag_features(df, cols, lags)` writes exactly one column per
      (column, lag) pair. */
  lemma {:induction false} LagFeaturesMembers(cols: seq<string>, lags: seq<int>, f: Feature)
    ensures f in LagFeatures(cols, lags) <==> f.Lag? && f.col in cols && f.k in lags
    decreases |cols|
  {
    if cols != [] {
      LagsOfMembers(cols[0], lags, f);
      LagFeaturesMembers(cols[1..], lags, f);
      assert cols == [cols[0]] + cols[1..];
    }
  }

  lemma {:induction false} RollsOfMembers(col: string, windows: seq<int>, f: Feature)
    ensures f in RollsOf(col, windows) <==> !f.Lag? && f.col == col && f.w in windows
    decreases |windows|
  {
    if windows != [] {
      RollsOfMembers(col, windows[1..], f);
      assert windows == [windows[0]] + windows[1..];
    }
  }

  /** `create_rolling_features(df, cols, windows)` writes exactly one mean
      and one spread column per (column, window) pair. */
  lemma {:induction false} RollingFeaturesMembers(cols: seq<string>, windows: seq<int>, f: Feature)
    ensures f in RollingFeatures(cols, windows) <==> !f.Lag? && f.col in cols && f.w in windows
    decreases |cols|
  {
    if cols != [] {
      RollsOfMembers(cols[0], windows, f);
      RollingFeaturesMembers(cols[1..], windows, f);
      assert cols == [cols[0]] + cols[1..];
    }
  }

  // ======================================================== distinctness

  /** No element occurs twice. */
  predicate Distinct<T(==)>(xs: seq<T>) {
    forall i, j :: 0 <= i < j < |xs| ==> xs[i] != xs[j]
  }

  lemma DistinctConcat<T>(a: seq<T>, b: seq<T>)
    requires Distinct(a) && Distinct(b)
    requires forall x :: x in a ==> x !in b
    ensures Distinct(a + b)
  {
    var ab := a + b;
    forall i, j | 0 <= i < j < |ab| ensures ab[i] != ab[j] {
      if j < |a| {
        assert ab[i] == a[i] && ab[j] == a[j];
      } else if i >= |a| {
        assert ab[i] == b[i - |a|] && ab[j] == b[j - |a|];
      } else {
        assert ab[i] == a[i] && ab[j] == b[j - |a|];
        assert a[i] in a && b[j - |a|] in b;
      }
    }
  }

  lemma DistinctTail<T>(xs: seq<T>)
    requires xs != [] && Distinct(xs)
    ensures Distinct(xs[1..]) && xs[0] !in xs[1..]
  {
    forall i, j | 0 <= i < j < |xs[1..]| ensures xs[1..][i] != xs[1..][j] {
      assert xs[1..][i] == xs[i + 1] && xs[1..][j] == xs[j + 1];
    }
  }

  /** Distinct lags give distinct lag features of one column. */
  lemma {:induction false} LagsOfDistinct(col: string, lags: seq<int>)
    requires Distinct(lags)
    ensures Distinct(LagsOf(col, lags))
    decreases |lags|
  {
    if lags != [] {
      DistinctTail(lags);
      LagsOfDistinct(col, lags[1..]);
      LagsOfMembers(col, lags[1..], Lag(col, lags[0]));
      DistinctConcat([Lag(col, lags[0])], LagsOf(col, lags[1..]));
    }
  }

  /** `create_lag_features` writes no column twice when the columns and
      the lags are each distinct. */
  lemma {:induction false} LagFeaturesDistinct(cols: seq<string>, lags: seq<int>)
    requires Distinct(cols) && Distinct(lags)
    ensures Distinct(LagFeatures(cols, lags))
    decreases |cols|
  {
    if cols != [] {
      DistinctTail(cols);
      LagsOfDistinct(cols[0], lags);
      LagFeaturesDistinct(cols[1..], lags);
      forall f | f in LagsOf(cols[0], lags) ensures f !in LagFeatures(cols[1..], lags) {
        LagsOfMembers(cols[0], lags, f);
        LagFeaturesMembers(cols[1..], lags, f);
      }
      DistinctConcat(LagsOf(cols[0], lags), LagFeatures(cols[1..], lags));
    }
  }

  lemma {:induction false} RollsOfDistinct(col: string, windows: seq<int>)
    requires Distinct(windows)
    ensures Distinct(RollsOf(col, windows))
    decreases |windows|
  {
    if windows != [] {
      var w := windows[0];
      DistinctTail(windows);
      RollsOfDistinct(col, windows[1..]);
      RollsOfMembers(col, windows[1..], RollMean(col, w));
      RollsOfMembers(col, windows[1..], RollStd(col, w));
      DistinctConcat([RollMean(col, w), RollStd(col, w)], RollsOf(col, windows[1..]));
    }
  }

  /** `create_rolling_features` writes no column twice when the columns
      and the windows are each distinct. */
  lemma {:induction false} RollingFeaturesDistinct(cols: seq<string>, windows: seq<int>)
    requires Distinct(cols) && Distinct(windows)
    ensures Distinct(RollingFeatures(cols, windows))
    decreases |cols|
  {
    if cols != [] {
      DistinctTail(cols);
      RollsOfDistinct(cols[0], windows);
      RollingFeaturesDistinct(cols[1..], windows);
      forall f | f in RollsOf(cols[0], windows) ensures f !in RollingFeatures(cols[1..], windows) {
        RollsOfMembers(cols[0], windows, f);
        RollingFeaturesMembers(cols[1..], windows, f);
      }
      DistinctConcat(RollsOf(cols[0], windows), RollingFeatures(cols[1..], windows));
    }
  }

  /** Distinct features write distinct columns. */
  lemma NamesDistinct(fs: seq<Feature>)
    requires Distinct(fs)
    ensures Distinct(FeatureNames(fs))
  {
    var ns := FeatureNames(fs);
    forall i, j | 0 <= i < j < |ns| ensures ns[i] != ns[j] {
      if ns[i] == ns[j] {
        NameInjective(fs[i], fs[j]);
      }
    }
  }

  // =========================================================== pipeline

  /** The features a configuration asks for, in the order the two builders
      write them. */
  function Planned(cfg: Config): seq<Feature> {
    LagFeatures(cfg.cols, cfg.lags) + RollingFeatures(cfg.cols, cfg.windows)
  }

  /** No base column of the configuration ends in a digit. */
  predicate PlainConfig(cfg: Config) {
    forall c :: c in cfg.cols ==> PlainName(c)
  }

  lemma PlannedPlain(cfg: Config)
    requires PlainConfig(cfg)
    ensures PlainBases(LagFeatures(cfg.cols, cfg.lags))
    ensures PlainBases(RollingFeatures(cfg.cols, cfg.windows))
    ensures PlainBases(Planned(cfg))
  {
    var fs1, fs2 := LagFeatures(cfg.cols, cfg.lags), RollingFeatures(cfg.cols, cfg.windows);
    forall j | 0 <= j < |fs1| ensures PlainName(fs1[j].col) {
      LagFeaturesMembers(cfg.cols, cfg.lags, fs1[j]);
    }
    forall j | 0 <= j < |fs2| ensures PlainName(fs2[j].col) {
      RollingFeaturesMembers(cfg.cols, cfg.windows, fs2[j]);
    }
  }

  lemma {:induction false} FirstFailureAppend(t: Table, fs: seq<Feature>, gs: seq<Feature>)
    ensures FirstFailure(t, fs + gs) == if FirstFailure(t, fs).Some? then FirstFailure(t, fs) else FirstFailure(t, gs)
    decreases |fs|
  {
    if fs == [] {
      assert fs + gs == gs;
    } else {
      assert (fs + gs)[0] == fs[0] && (fs + gs)[1..] == fs[1..] + gs;
      FirstFailureAppend(t, fs[1..], gs);
    }
  }

  lemma WritesAppend(fs: seq<Feature>, gs: seq<Feature>, c: string)
    ensures Writes(fs + gs, c) <==> Writes(fs, c) || Writes(gs, c)
  {
    if Writes(fs + gs, c) {
      var k :| 0 <= k < |fs + gs| && (fs + gs)[k].Name() == c;
      if k >= |fs| {
        assert gs[k - |fs|].Name() == c;
      }
    }
    if Writes(gs, c) {
      var k :| 0 <= k < |gs| && gs[k].Name() == c;
      assert (fs + gs)[k + |fs|].Name() == c;
    }
    if Writes(fs, c) {
      var k :| 0 <= k < |fs| && fs[k].Name() == c;
      assert (fs + gs)[k].Name() == c;
    }
  }

  /** A plain name is never written by a builder. */
  lemma PlainNotWritten(fs: seq<Feature>, c: string)
    requires PlainName(c)
    ensures !Writes(fs, c)
  {
    forall j | 0 <= j < |fs| ensures fs[j].Name() != c {
      NameNotPlain(fs[j]);
    }
  }

  /** The checks of plain-named features give the same outcome on a
      builder's output as on its input. */
  lemma BuildKeepsChecks(t: Table, fs: seq<Feature>, g: Feature)
    requires WellFormed(t) && PlainBases(fs) && FirstFailure(t, fs) == None
    requires PlainName(g.col)
    ensures Build(t, fs).Ok? && Check(Build(t, fs).value, g) == Check(t, g)
  {
    BuildKeys(t, fs);
    PlainNotWritten(fs, g.col);
  }

  /** `FeatureTable`'s intermediate frames when no check fails: the lag
      builder succeeds on the input, the rolling builder on its output. */
  lemma Stages(t: Table, cfg: Config)
    requires WellFormed(t) && PlainConfig(cfg)
    requires FirstFailure(t, Planned(cfg)) == None
    ensures PlainBases(LagFeatures(cfg.cols, cfg.lags))
    ensures PlainBases(RollingFeatures(cfg.cols, cfg.windows))
    ensures FirstFailure(t, LagFeatures(cfg.cols, cfg.lags)) == None
    ensures Build(t, LagFeatures(cfg.cols, cfg.lags)).Ok?
    ensures FirstFailure(Build(t, LagFeatures(cfg.cols, cfg.lags)).value, RollingFeatures(cfg.cols, cfg.windows)) == None
    ensures FirstFailure(t, RollingFeatures(cfg.cols, cfg.windows)) == None
  {
    var fs1, fs2 := LagFeatures(cfg.cols, cfg.lags), RollingFeatures(cfg.cols, cfg.windows);
    PlannedPlain(cfg);
    FirstFailureAppend(t, fs1, fs2);
    BuildErrors(t, fs1);
    var t1 := Build(t, fs1).value;
    forall j | 0 <= j < |fs2| ensures Check(t1, fs2[j]) == Check(t, fs2[j]) {
      BuildKeepsChecks(t, fs1, fs2[j]);
    }
    FirstFailureSame(t, t1, fs2);
  }

  /** When no check fails, `FeatureTable` is the label assignment on the
      rolling builder's output. */
  lemma FeatureTableOk(t: Table, cfg: Config)
    requires WellFormed(t) && PlainConfig(cfg)
    requires FirstFailure(t, Planned(cfg)) == None && Price in t.data
    ensures Build(t, LagFeatures(cfg.cols, cfg.lags)).Ok?
    ensures var t1 := Build(t, LagFeatures(cfg.cols, cfg.lags)).value;
      && Build(t1, RollingFeatures(cfg.cols, cfg.windows)).Ok?
      && var t2 := Build(t1, RollingFeatures(cfg.cols, cfg.windows)).value;
      && Price in t2.data && t2.data[Price] == t.data[Price]
      && FeatureTable(t, cfg) == Ok(WithColumn(t2, Label, TargetUp(t2.data[Price])))
  {
    var fs1, fs2 := LagFeatures(cfg.cols, cfg.lags), RollingFeatures(cfg.cols, cfg.windows);
    Stages(t, cfg);
    var t1 := Build(t, fs1).value;
    BuildErrors(t1, fs2);
    PricePlain();
    BuildKeeps(t, fs1);
    BuildKeeps(t1, fs2);
    PlainNotWritten(fs1, Price);
    PlainNotWritten(fs2, Price);
  }

  lemma PricePlain()
    ensures PlainName(Price) && PlainName(Label)
  {
  }

  /** `prepare_features` raises exactly when one of the builders' checks
      fails on the input frame (a missing column or a window below 1, the
      first in loop order) or the input has no `price` column. */
  lemma FeatureTableErrors(t: Table, cfg: Config)
    requires WellFormed(t) && PlainConfig(cfg)
    ensures FeatureTable(t, cfg).Err? <==> FirstFailure(t, Planned(cfg)).Some? || Price !in t.data
    ensures FeatureTable(t, cfg).Err? ==>
      FeatureTable(t, cfg).error
      == if FirstFailure(t, Planned(cfg)).Some? then FirstFailure(t, Planned(cfg)).value else MissingColumn(Price)
    ensures Prepare(t, cfg).Err? <==> FeatureTable(t, cfg).Err?
    ensures Prepare(t, cfg).Err? ==> Prepare(t, cfg).error == FeatureTable(t, cfg).error
  {
    var fs1, fs2 := LagFeatures(cfg.cols, cfg.lags), RollingFeatures(cfg.cols, cfg.windows);
    PlannedPlain(cfg);
    FirstFailureAppend(t, fs1, fs2);
    BuildErrors(t, fs1);
    if Build(t, fs1).Ok? {
      var t1 := Build(t, fs1).value;
      forall j | 0 <= j < |fs2| ensures Check(t1, fs2[j]) == Check(t, fs2[j]) {
        BuildKeepsChecks(t, fs1, fs2[j]);
      }
      FirstFailureSame(t, t1, fs2);
      BuildErrors(t1, fs2);
      if Build(t1, fs2).Ok? {
        PricePlain();
        BuildKeys(t, fs1);
        BuildKeys(t1, fs2);
        PlainNotWritten(fs1, Price);
        PlainNotWritten(fs2, Price);
      }
    }
  }

  lemma {:induction false} FeatureNamesAppend(fs: seq<Feature>, gs: seq<Feature>)
    ensures FeatureNames(fs + gs) == FeatureNames(fs) + FeatureNames(gs)
    decreases |fs|
  {
    if fs == [] {
      assert fs + gs == gs;
    } else {
      assert (fs + gs)[1..] == fs[1..] + gs;
      FeatureNamesAppend(fs[1..], gs);
    }
  }

  /** Before `dropna`, the pipeline's frame has the input's rows; its
      columns are the input's, then each planned feature's, then
      `target_up`, each new name appended on first write. */
  lemma FeatureTableShape(t: Table, cfg: Config)
    requires WellFormed(t) && PlainConfig(cfg)
    requires FirstFailure(t, Planned(cfg)) == None && Price in t.data
    ensures FeatureTable(t, cfg).Ok?
    ensures FeatureTable(t, cfg).value.index == t.index
    ensures FeatureTable(t, cfg).value.names == AppendNew(t.names, FeatureNames(Planned(cfg)) + [Label])
    ensures forall c :: c in FeatureTable(t, cfg).value.data <==> c in t.data || c == Label || Writes(Planned(cfg), c)
  {
    var fs1, fs2 := LagFeatures(cfg.cols, cfg.lags), RollingFeatures(cfg.cols, cfg.windows);
    FeatureTableOk(t, cfg);
    Stages(t, cfg);
    var t1 := Build(t, fs1).value;
    BuildNames(t, fs1);
    BuildNames(t1, fs2);
    BuildKeys(t, fs1);
    BuildKeys(t1, fs2);
    FeatureNamesAppend(fs1, fs2);
    AppendNewConcat(t.names, FeatureNames(fs1), FeatureNames(fs2));
    AppendNewConcat(t.names, FeatureNames(fs1) + FeatureNames(fs2), [Label]);
    forall c ensures Writes(Planned(cfg), c) <==> Writes(fs1, c) || Writes(fs2, c) {
      WritesAppend(fs1, fs2, c);
    }
  }

  /** A lag column is not overwritten by the rolling builder. */
  lemma LagValue(t: Table, cfg: Config, f: Feature)
    requires WellFormed(t) && PlainConfig(cfg)
    requires FirstFailure(t, Planned(cfg)) == None && Price in t.data
    requires f in LagFeatures(cfg.cols, cfg.lags)
    ensures FeatureTable(t, cfg).Ok?
    ensures f.col in t.data && WindowOk(f) && f.Name() in FeatureTable(t, cfg).value.data
    ensures FeatureTable(t, cfg).value.data[f.Name()] == Rule(f, t.data[f.col])
  {
    var fs1, fs2 := LagFeatures(cfg.cols, cfg.lags), RollingFeatures(cfg.cols, cfg.windows);
    FeatureTableOk(t, cfg);
    Stages(t, cfg);
    PricePlain();
    var t1 := Build(t, fs1).value;
    BuildValues(t, fs1);
    BuildKeeps(t1, fs2);
    NameNotPlain(f);
    var j :| 0 <= j < |fs1| && fs1[j] == f;
    LagFeaturesMembers(cfg.cols, cfg.lags, f);
    forall k | 0 <= k < |fs2| ensures fs2[k].Name() != f.Name() {
      RollingFeaturesMembers(cfg.cols, cfg.windows, fs2[k]);
      if fs2[k].Name() == f.Name() {
        NameInjective(fs2[k], f);
      }
    }
  }

  /** The rolling builder reads base columns the lag builder left alone. */
  lemma RollValue(t: Table, cfg: Config, f: Feature)
    requires WellFormed(t) && PlainConfig(cfg)
    requires FirstFailure(t, Planned(cfg)) == None && Price in t.data
    requires f in RollingFeatures(cfg.cols, cfg.windows)
    ensures FeatureTable(t, cfg).Ok?
    ensures f.col in t.data && WindowOk(f) && f.Name() in FeatureTable(t, cfg).value.data
    ensures FeatureTable(t, cfg).value.data[f.Name()] == Rule(f, t.data[f.col])
  {
    var fs1, fs2 := LagFeatures(cfg.cols, cfg.lags), RollingFeatures(cfg.cols, cfg.windows);
    FeatureTableOk(t, cfg);
    Stages(t, cfg);
    PricePlain();
    var t1 := Build(t, fs1).value;
    BuildValues(t1, fs2);
    BuildKeeps(t, fs1);
    NameNotPlain(f);
    var j :| 0 <= j < |fs2| && fs2[j] == f;
    PlannedPlain(cfg);
    PlainNotWritten(fs1, f.col);
  }

  /** Before `dropna`, each planned feature's column holds its rule applied
      to its base column of the INPUT frame, and `target_up` is computed
      from the input's `price`. */
  lemma FeatureTableValues(t: Table, cfg: Config)
    requires WellFormed(t) && PlainConfig(cfg)
    requires FirstFailure(t, Planned(cfg)) == None && Price in t.data
    ensures FeatureTable(t, cfg).Ok?
    ensures forall f :: f in Planned(cfg) ==>
      && f.col in t.data && WindowOk(f) && f.Name() in FeatureTable(t, cfg).value.data
      && FeatureTable(t, cfg).value.data[f.Name()] == Rule(f, t.data[f.col])
    ensures Label in FeatureTable(t, cfg).value.data
    ensures FeatureTable(t, cfg).value.data[Label] == TargetUp(t.data[Price])
  {
    var fs1, fs2 := LagFeatures(cfg.cols, cfg.lags), RollingFeatures(cfg.cols, cfg.windows);
    FeatureTableOk(t, cfg);
    Stages(t, cfg);
    PricePlain();
    var t1 := Build(t, fs1).value;
    BuildKeeps(t, fs1);
    BuildKeeps(t1, fs2);
    BuildKeys(t, fs1);
    PlainNotWritten(fs1, Price);
    PlainNotWritten(fs2, Price);
    forall f | f in Planned(cfg)
      ensures f.col in t.data && WindowOk(f) && f.Name() in FeatureTable(t, cfg).value.data
      ensures FeatureTable(t, cfg).value.data[f.Name()] == Rule(f, t.data[f.col])
    {
      if f in fs1 {
        LagValue(t, cfg, f);
      } else {
        RollValue(t, cfg, f);
      }
    }
  }

  /** What the pipeline frame `r` holds before `dropna`, for input `t`:
      the input's rows; the input's columns in order, then each planned
      feature's, then `target_up`, each appended on first write; each
      planned feature's rule applied to its base column of the input;
      the label computed from the input's `price`; every other input
      column unchanged. */
  ghost predicate Output(t: Table, cfg: Config, r: Table) {
    && WellFormed(t) && WellFormed(r) && r.index == t.index
    && r.names == AppendNew(t.names, FeatureNames(Planned(cfg)) + [Label])
    && (forall c :: c in r.data <==> c in t.data || c == Label || Writes(Planned(cfg), c))
    && (forall f :: f in Planned(cfg) ==>
          f.col in t.data && WindowOk(f) && f.Name() in r.data && r.data[f.Name()] == Rule(f, t.data[f.col]))
    && Price in t.data && Label in r.data && r.data[Label] == TargetUp(t.data[Price])
    && (forall c :: c in t.data && c != Label && !Writes(Planned(cfg), c) ==> r.data[c] == t.data[c])
  }

  /** A configuration that repeats no column, lag or window writes each
      column once, and never `target_up`. */
  lemma PlannedNamesDistinct(cfg: Config)
    requires Distinct(cfg.cols) && Distinct(cfg.lags) && Distinct(cfg.windows)
    ensures Distinct(FeatureNames(Planned(cfg)) + [Label])
  {
    PlannedDistinct(cfg);
    NamesDistinct(Planned(cfg));
    LabelNotDerived(Planned(cfg));
    DistinctConcat(FeatureNames(Planned(cfg)), [Label]);
  }

  /** Lag and window features never coincide, so the planned list repeats
      nothing when its parts do not. */
  lemma PlannedDistinct(cfg: Config)
    requires Distinct(cfg.cols) && Distinct(cfg.lags) && Distinct(cfg.windows)
    ensures Distinct(Planned(cfg))
  {
    var fs1, fs2 := LagFeatures(cfg.cols, cfg.lags), RollingFeatures(cfg.cols, cfg.windows);
    LagFeaturesDistinct(cfg.cols, cfg.lags);
    RollingFeaturesDistinct(cfg.cols, cfg.windows);
    forall f | f in fs1 ensures f !in fs2 {
      LagFeaturesMembers(cfg.cols, cfg.lags, f);
      RollingFeaturesMembers(cfg.cols, cfg.windows, f);
    }
    DistinctConcat(fs1, fs2);
  }

  /** No feature writes `target_up`. */
  lemma LabelNotDerived(fs: seq<Feature>)
    ensures forall c :: c in FeatureNames(fs) ==> c != Label
  {
    var ns := FeatureNames(fs);
    forall c | c in ns ensures c != Label {
      var j :| 0 <= j < |ns| && ns[j] == c;
      NameNotPlain(fs[j]);
    }
  }

  /** When the configuration repeats no column, lag or window and the input
      has none of the columns the pipeline writes, the output keeps the
      input's columns in order and appends every feature column, in the
      order the loops write them, then `target_up`; `dropna` keeps them. */
  lemma PrepareColumns(t: Table, cfg: Config)
    requires WellFormed(t) && PlainConfig(cfg)
    requires FirstFailure(t, Planned(cfg)) == None && Price in t.data
    requires Distinct(cfg.cols) && Distinct(cfg.lags) && Distinct(cfg.windows)
    requires forall f :: f in Planned(cfg) ==> f.Name() !in t.data
    requires Label !in t.data
    ensures Prepare(t, cfg).Ok?
    ensures Prepare(t, cfg).value.names == t.names + FeatureNames(Planned(cfg)) + [Label]
  {
    var xs := FeatureNames(Planned(cfg)) + [Label];
    PlannedNamesDistinct(cfg);
    NamesFresh(t, Planned(cfg));
    AppendNewFresh(t.names, xs);
    FeatureTableShape(t, cfg);
  }

  lemma NamesFresh(t: Table, fs: seq<Feature>)
    requires WellFormed(t) && Label !in t.data
    requires forall f :: f in fs ==> f.Name() !in t.data
    ensures forall i :: 0 <= i < |FeatureNames(fs) + [Label]| ==> (FeatureNames(fs) + [Label])[i] !in t.names
  {
    var xs := FeatureNames(fs) + [Label];
    forall i | 0 <= i < |xs| ensures xs[i] !in t.names {
      if i < |fs| {
        assert xs[i] == fs[i].Name() && fs[i] in fs;
      }
    }
  }

  /** When no check fails and `price` is present, `prepare_features`
      succeeds up to `dropna` and its frame is the one `Output` describes. */
  lemma FeatureTableSpec(t: Table, cfg: Config)
    requires WellFormed(t) && PlainConfig(cfg)
    requires FirstFailure(t, Planned(cfg)) == None && Price in t.data
    ensures FeatureTable(t, cfg).Ok? && Output(t, cfg, FeatureTable(t, cfg).value)
  {
    FeatureTableShape(t, cfg);
    FeatureTableValues(t, cfg);
    FeatureTableKeeps(t, cfg);
  }

  /** Every other input column, `promotion` among them, comes out of the
      pipeline with its values unchanged. */
  lemma FeatureTableKeeps(t: Table, cfg: Config)
    requires WellFormed(t) && PlainConfig(cfg)
    requires FirstFailure(t, Planned(cfg)) == None && Price in t.data
    ensures FeatureTable(t, cfg).Ok?
    ensures forall c :: c in t.data && c != Label && !Writes(Planned(cfg), c) ==>
      c in FeatureTable(t, cfg).value.data && FeatureTable(t, cfg).value.data[c] == t.data[c]
  {
    var fs1, fs2 := LagFeatures(cfg.cols, cfg.lags), RollingFeatures(cfg.cols, cfg.windows);
    FeatureTableOk(t, cfg);
    Stages(t, cfg);
    var t1 := Build(t, fs1).value;
    BuildKeeps(t, fs1);
    BuildKeeps(t1, fs2);
    forall c ensures Writes(Planned(cfg), c) <==> Writes(fs1, c) || Writes(fs2, c) {
      WritesAppend(fs1, fs2, c);
    }
  }

  // ======================================================== no lookahead

  /** With non-negative lags, a lag or window cell at row `i` reads only base
      rows `0..i`: it is the same for any two base columns that agree there,
      however many rows follow. */
  lemma RuleCausal(f: Feature, s1: Column, s2: Column, i: nat)
    requires WindowOk(f) && (f.Lag? ==> f.k >= 0)
    requires i < |s1| && i < |s2|
    requires forall j :: 0 <= j <= i ==> s1[j] == s2[j]
    ensures Rule(f, s1)[i] == Rule(f, s2)[i]
  {
    if !f.Lag? {
      assert Window(s1, i, f.w) == Window(s2, i, f.w);
      if f.RollStd? {
        assert RollingVariance(s1, f.w)[i] == RollingVariance(s2, f.w)[i];
      }
    }
  }

  /** Both frames have a row `i`, and the cells of rows `0..i` agree in every
      column of `a` outside `except`, which `b` has too. The frames may have
      different numbers of rows. */
  predicate AgreeUpTo(a: Table, b: Table, i: int, except: set<string>) {
    && i < |a.index| && i < |b.index|
    && (forall c :: c in a.data && c !in except ==> c in b.data)
    && (forall c, j ::
          (c in a.data && c !in except && c in b.data && 0 <= j <= i && j < |a.data[c]| && j < |b.data[c]|)
          ==> a.data[c][j] == b.data[c][j])
  }

  /** A column the features do not write keeps its input cells, so it
      agrees up to row `i` when the inputs do. */
  lemma KeptCellCausal(t1: Table, t2: Table, r1: Table, r2: Table, cfg: Config, i: nat, c: string, j: nat)
    requires Output(t1, cfg, r1) && Output(t2, cfg, r2)
    requires t1.data.Keys == t2.data.Keys
    requires AgreeUpTo(t1, t2, i, {})
    requires c in r1.data && c != Label && j <= i
    requires !Writes(Planned(cfg), c)
    ensures c in r2.data && j < |r1.data[c]| && j < |r2.data[c]| && r1.data[c][j] == r2.data[c][j]
  {
    assert c in t1.data && c in t2.data;
    assert |t1.data[c]| == |t1.index| && |t2.data[c]| == |t2.index|;
  }

  /** A feature cell at row `j <= i` agrees when the base columns agree up
      to row `i`. */
  lemma DerivedCellCausal(t1: Table, t2: Table, r1: Table, r2: Table, i: nat, f: Feature, j: nat)
    requires WellFormed(t1) && WellFormed(t2)
    requires WindowOk(f) && (f.Lag? ==> f.k >= 0)
    requires f.col in t1.data && f.Name() in r1.data && r1.data[f.Name()] == Rule(f, t1.data[f.col])
    requires f.col in t2.data && f.Name() in r2.data && r2.data[f.Name()] == Rule(f, t2.data[f.col])
    requires AgreeUpTo(t1, t2, i, {}) && j <= i
    ensures j < |r1.data[f.Name()]| && j < |r2.data[f.Name()]|
    ensures r1.data[f.Name()][j] == r2.data[f.Name()][j]
  {
    AgreeColumn(t1, t2, i, f.col);
    RuleCausal(f, t1.data[f.col], t2.data[f.col], j);
  }

  lemma OutputFeature(t: Table, cfg: Config, r: Table, f: Feature)
    requires Output(t, cfg, r) && f in Planned(cfg)
    ensures f.col in t.data && WindowOk(f) && f.Name() in r.data
    ensures r.data[f.Name()] == Rule(f, t.data[f.col]) && |t.data[f.col]| == |t.index|
  {
  }

  lemma AgreeColumn(a: Table, b: Table, i: int, c: string)
    requires WellFormed(a) && WellFormed(b)
    requires AgreeUpTo(a, b, i, {}) && c in a.data
    ensures c in b.data && i < |a.data[c]| && i < |b.data[c]|
    ensures forall j :: 0 <= j <= i ==> a.data[c][j] == b.data[c][j]
  {
  }

  /** One cell of pipeline frames `r1`, `r2` built from inputs that agree up
      to row `i`: every column but `target_up` agrees up to row `i`. */
  lemma CellCausal(t1: Table, t2: Table, r1: Table, r2: Table, cfg: Config, i: nat, c: string, j: nat)
    requires Output(t1, cfg, r1) && Output(t2, cfg, r2)
    requires forall k :: k in cfg.lags ==> k >= 0
    requires t1.data.Keys == t2.data.Keys
    requires AgreeUpTo(t1, t2, i, {})
    requires c in r1.data && c != Label && j <= i
    ensures c in r2.data && j < |r1.data[c]| && j < |r2.data[c]| && r1.data[c][j] == r2.data[c][j]
  {
    if Writes(Planned(cfg), c) {
      var fs := Planned(cfg);
      var k :| 0 <= k < |fs| && fs[k].Name() == c;
      var f := fs[k];
      OutputFeature(t1, cfg, r1, f);
      OutputFeature(t2, cfg, r2, f);
      if f.Lag? {
        LagsNonNegative(cfg, f);
      }
      DerivedCellCausal(t1, t2, r1, r2, i, f, j);
    } else {
      KeptCellCausal(t1, t2, r1, r2, cfg, i, c, j);
    }
  }

  lemma LagsNonNegative(cfg: Config, f: Feature)
    requires forall k :: k in cfg.lags ==> k >= 0
    requires f in Planned(cfg) && f.Lag?
    ensures f.k >= 0
  {
    LagFeaturesMembers(cfg.cols, cfg.lags, f);
    RollingFeaturesMembers(cfg.cols, cfg.windows, f);
  }

  /** Two inputs with the same columns that agree on rows `0..i`, whatever
      rows follow and however many, give pipeline frames that agree on rows
      `0..i` in every lag and window column and every kept column, and on
      rows `0..i-1` of `target_up`: only the label of row `i` reads a later
      row. */
  lemma NoLookahead(t1: Table, t2: Table, cfg: Config, i: nat)
    requires WellFormed(t1) && WellFormed(t2) && PlainConfig(cfg)
    requires forall k :: k in cfg.lags ==> k >= 0
    requires t1.data.Keys == t2.data.Keys
    requires AgreeUpTo(t1, t2, i, {})
    requires FirstFailure(t1, Planned(cfg)) == None && Price in t1.data
    ensures FeatureTable(t1, cfg).Ok? && FeatureTable(t2, cfg).Ok?
    ensures AgreeUpTo(FeatureTable(t1, cfg).value, FeatureTable(t2, cfg).value, i, {Label})
    ensures AgreeUpTo(FeatureTable(t1, cfg).value, FeatureTable(t2, cfg).value, i - 1, {})
  {
    forall f | f in Planned(cfg) ensures Check(t2, f) == Check(t1, f) { }
    FirstFailureSame(t1, t2, Planned(cfg));
    FeatureTableSpec(t1, cfg);
    FeatureTableSpec(t2, cfg);
    OutputNoLookahead(t1, t2, FeatureTable(t1, cfg).value, FeatureTable(t2, cfg).value, cfg, i);
  }

  /** Inputs with the same columns give pipeline frames with the same
      columns. */
  lemma OutputKeys(t1: Table, t2: Table, r1: Table, r2: Table, cfg: Config)
    requires Output(t1, cfg, r1) && Output(t2, cfg, r2)
    requires t1.data.Keys == t2.data.Keys
    ensures r1.data.Keys == r2.data.Keys
  {
  }

  /** Inputs with the same columns and rows give pipeline frames with the
      same columns and rows. */
  lemma OutputSameKeys(t1: Table, t2: Table, r1: Table, r2: Table, cfg: Config)
    requires Output(t1, cfg, r1) && Output(t2, cfg, r2)
    requires t1.data.Keys == t2.data.Keys && |t1.index| == |t2.index|
    ensures r1.data.Keys == r2.data.Keys
    ensures forall c :: c in r1.data ==> |r1.data[c]| == |r2.data[c]|
  {
    OutputKeys(t1, t2, r1, r2, cfg);
  }

  lemma OutputCausal(t1: Table, t2: Table, r1: Table, r2: Table, cfg: Config, i: nat)
    requires Output(t1, cfg, r1) && Output(t2, cfg, r2)
    requires forall k :: k in cfg.lags ==> k >= 0
    requires t1.data.Keys == t2.data.Keys
    requires AgreeUpTo(t1, t2, i, {})
    ensures AgreeUpTo(r1, r2, i, {Label})
  {
    OutputKeys(t1, t2, r1, r2, cfg);
    forall c, j | c in r1.data && c !in {Label} && c in r2.data && 0 <= j <= i
        && j < |r1.data[c]| && j < |r2.data[c]|
      ensures r1.data[c][j] == r2.data[c][j]
    {
      CellCausal(t1, t2, r1, r2, cfg, i, c, j);
    }
  }

  lemma OutputNoLookahead(t1: Table, t2: Table, r1: Table, r2: Table, cfg: Config, i: nat)
    requires Output(t1, cfg, r1) && Output(t2, cfg, r2)
    requires forall k :: k in cfg.lags ==> k >= 0
    requires t1.data.Keys == t2.data.Keys
    requires AgreeUpTo(t1, t2, i, {})
    ensures r1.data.Keys == r2.data.Keys
    ensures AgreeUpTo(r1, r2, i, {Label}) && AgreeUpTo(r1, r2, i - 1, {})
  {
    OutputKeys(t1, t2, r1, r2, cfg);
    OutputCausal(t1, t2, r1, r2, cfg, i);
    assert |t1.data[Price]| == |t1.index| && |t2.data[Price]| == |t2.index|;
    LabelCausal(r1, r2, t1.data[Price], t2.data[Price], i);
  }

  /** Two frames that agree up to row `i` outside `target_up`, and whose
      labels come from prices agreeing on rows `0..i`, agree on every column
      up to row `i - 1`: the label of an earlier row reads the next row's
      price, which both have. */
  lemma LabelCausal(r1: Table, r2: Table, p1: Column, p2: Column, i: nat)
    requires AgreeUpTo(r1, r2, i, {Label})
    requires Label in r1.data && r1.data.Keys == r2.data.Keys
    requires r1.data[Label] == TargetUp(p1) && r2.data[Label] == TargetUp(p2)
    requires i < |p1| && i < |p2| && forall j :: 0 <= j <= i ==> p1[j] == p2[j]
    ensures AgreeUpTo(r1, r2, i - 1, {})
  {
    forall c, j | c in r1.data && c in r2.data && 0 <= j <= i - 1 && j < |r1.data[c]| && j < |r2.data[c]|
      ensures r1.data[c][j] == r2.data[c][j]
    {
      if c == Label {
        TargetUpLocal(p1, p2, j);
      }
    }
  }

  // ============================================================= dropna

  /** Every column of `t` has a value on every row. */
  predicate AllComplete(t: Table) {
    forall c :: c in t.data ==> Complete(t.data[c])
  }

  /** The lag parameters are at most `m`, which is one of them. */
  predicate MaxLag(lags: seq<int>, m: nat) {
    m in lags && forall k :: k in lags ==> 0 <= k <= m
  }

  /** On a complete input, a row of the pipeline frame from row `m` on has a
      value in every column: lags of at most `m` rows reach back inside the
      input, the window columns are defined from the first row on, and
      `target_up` is never NaN. */
  lemma RowCompleteAfter(t: Table, cfg: Config, r: Table, m: nat, i: nat)
    requires Output(t, cfg, r) && AllComplete(t) && MaxLag(cfg.lags, m)
    requires m <= i < |t.index|
    ensures RowComplete(r, i)
  {
    forall c | c in r.data ensures r.data[c][i].Some? {
      if c == Label {
        TargetUpSpec(t.data[Price], i);
      } else if Writes(Planned(cfg), c) {
        var fs := Planned(cfg);
        var k :| 0 <= k < |fs| && fs[k].Name() == c;
        DerivedCellDefined(t, cfg, r, m, fs[k], i);
      }
    }
  }

  lemma DerivedCellDefined(t: Table, cfg: Config, r: Table, m: nat, f: Feature, i: nat)
    requires Output(t, cfg, r) && AllComplete(t) && MaxLag(cfg.lags, m)
    requires f in Planned(cfg) && m <= i < |t.index|
    ensures f.Name() in r.data && r.data[f.Name()][i].Some?
  {
    var s := t.data[f.col];
    match f
    case Lag(_, k) =>
      LagFeaturesMembers(cfg.cols, cfg.lags, f);
      RollingFeaturesMembers(cfg.cols, cfg.windows, f);
    case RollMean(_, w) =>
      RollingMeanDefined(s, w, i);
    case RollStd(_, w) =>
      RollingStdSpec(s, w, i);
  }

  /** Before row `m`, the lag-`m` column of the first base column is NaN. */
  lemma RowIncompleteBefore(t: Table, cfg: Config, r: Table, m: nat, i: nat)
    requires Output(t, cfg, r) && MaxLag(cfg.lags, m) && cfg.cols != []
    requires i < m && i < |t.index|
    ensures !RowComplete(r, i)
  {
    var f := Lag(cfg.cols[0], m);
    LagFeaturesMembers(cfg.cols, cfg.lags, f);
    assert f in Planned(cfg);
    assert r.data[f.Name()][i] == None;
  }

  /** On a complete input whose largest lag is `m`, `dropna` removes
      exactly the first `m` rows of the pipeline frame (all of them when
      there are fewer) and keeps the rest, in order, with their index
      labels: `max(0, n - m)` rows remain. */
  lemma PrepareDropsWarmup(t: Table, cfg: Config, m: nat)
    requires WellFormed(t) && PlainConfig(cfg) && AllComplete(t)
    requires FirstFailure(t, Planned(cfg)) == None && Price in t.data
    requires MaxLag(cfg.lags, m) && cfg.cols != []
    ensures FeatureTable(t, cfg).Ok? && Prepare(t, cfg).Ok?
    ensures var n := |t.index|;
      var d := if m <= n then m else n;
      var r, p := FeatureTable(t, cfg).value, Prepare(t, cfg).value;
      && p.index == t.index[d..] && |p.index| == n - d
      && p.names == r.names
      && p.data.Keys == r.data.Keys
      && forall c :: c in r.data ==> p.data[c] == r.data[c][d..]
  {
    CompleteFrom(t, cfg, m);
    var r := FeatureTable(t, cfg).value;
    var d := if m <= |t.index| then m else |t.index|;
    TrimDropsPrefix(r, d);
  }

  /** On a complete input, the pipeline frame's complete rows are exactly
      those from row `min(m, n)` on. */
  lemma CompleteFrom(t: Table, cfg: Config, m: nat)
    requires WellFormed(t) && PlainConfig(cfg) && AllComplete(t)
    requires FirstFailure(t, Planned(cfg)) == None && Price in t.data
    requires MaxLag(cfg.lags, m) && cfg.cols != []
    ensures FeatureTable(t, cfg).Ok?
    ensures var r := FeatureTable(t, cfg).value;
      && WellFormed(r) && r.index == t.index
      && forall i :: 0 <= i < |r.index| ==> (RowComplete(r, i) <==> i >= m)
  {
    FeatureTableSpec(t, cfg);
    var r := FeatureTable(t, cfg).value;
    forall i | 0 <= i < |r.index| ensures RowComplete(r, i) <==> i >= m {
      if i >= m {
        RowCompleteAfter(t, cfg, r, m, i);
      } else {
        RowIncompleteBefore(t, cfg, r, m, i);
      }
    }
  }

  /** After `dropna`, a planned feature's column is its rule applied to the
      input's base column, from row `min(m, n)` on. */
  lemma PreparedFeature(t: Table, cfg: Config, m: nat, f: Feature)
    requires WellFormed(t) && PlainConfig(cfg) && AllComplete(t)
    requires FirstFailure(t, Planned(cfg)) == None && Price in t.data
    requires MaxLag(cfg.lags, m) && cfg.cols != []
    requires f in Planned(cfg)
    ensures Prepare(t, cfg).Ok? && f.col in t.data && WindowOk(f)
    ensures var d := if m <= |t.index| then m else |t.index|;
      f.Name() in Prepare(t, cfg).value.data
      && Prepare(t, cfg).value.data[f.Name()] == Rule(f, t.data[f.col])[d..]
  {
    FeatureTableSpec(t, cfg);
    PrepareDropsWarmup(t, cfg, m);
  }

  /** After `dropna`, `target_up` is the label of the input's `price`,
      from row `min(m, n)` on. */
  lemma PreparedLabel(t: Table, cfg: Config, m: nat)
    requires WellFormed(t) && PlainConfig(cfg) && AllComplete(t)
    requires FirstFailure(t, Planned(cfg)) == None && Price in t.data
    requires MaxLag(cfg.lags, m) && cfg.cols != []
    ensures Prepare(t, cfg).Ok?
    ensures var d := if m <= |t.index| then m else |t.index|;
      Label in Prepare(t, cfg).value.data
      && Prepare(t, cfg).value.data[Label] == TargetUp(t.data[Price])[d..]
  {
    FeatureTableSpec(t, cfg);
    PrepareDropsWarmup(t, cfg, m);
  }

  /** On row `j` after `dropna` (input row `j + m`), the lag-`k` column of
      a base column holds the input's value on row `j + m - k`. */
  lemma PreparedLagCell(t: Table, cfg: Config, m: nat, c: string, k: int, j: nat)
    requires WellFormed(t) && PlainConfig(cfg) && AllComplete(t)
    requires FirstFailure(t, Planned(cfg)) == None && Price in t.data
    requires MaxLag(cfg.lags, m) && cfg.cols != []
    requires Lag(c, k) in Planned(cfg) && j + m < |t.index|
    ensures Prepare(t, cfg).Ok? && c in t.data && 0 <= k <= m
    ensures |Prepare(t, cfg).value.index| == |t.index| - m && j < |t.index| - m
    ensures Lag(c, k).Name() in Prepare(t, cfg).value.data
    ensures Prepare(t, cfg).value.data[Lag(c, k).Name()][j] == t.data[c][j + m - k]
  {
    LagFeaturesMembers(cfg.cols, cfg.lags, Lag(c, k));
    RollingFeaturesMembers(cfg.cols, cfg.windows, Lag(c, k));
    PreparedFeature(t, cfg, m, Lag(c, k));
    var p := Prepare(t, cfg).value;
    assert |p.data[Lag(c, k).Name()]| == |p.index|;
    var s := t.data[c];
    assert Rule(Lag(c, k), s)[j + m] == s[j + m - k];
  }

  /** On row `j` after `dropna` (input row `j + m`), `target_up` is 1
      exactly when the input has a next row with a strictly higher price,
      and 0 otherwise. */
  lemma PreparedLabelCell(t: Table, cfg: Config, m: nat, j: nat)
    requires WellFormed(t) && PlainConfig(cfg) && AllComplete(t)
    requires FirstFailure(t, Planned(cfg)) == None && Price in t.data
    requires MaxLag(cfg.lags, m) && cfg.cols != []
    requires j + m < |t.index|
    ensures Prepare(t, cfg).Ok? && Label in Prepare(t, cfg).value.data
    ensures |Prepare(t, cfg).value.index| == |t.index| - m && j < |t.index| - m
    ensures var up := Prepare(t, cfg).value.data[Label][j];
      var price := t.data[Price];
      && (up == Some(1.0) || up == Some(0.0))
      && (up == Some(1.0) <==> j + m + 1 < |t.index| && price[j + m + 1].value > price[j + m].value)
  {
    PreparedLabel(t, cfg, m);
    var p := Prepare(t, cfg).value;
    assert |p.data[Label]| == |p.index|;
    TargetUpSuffix(t.data[Price], p.data[Label], m, j);
  }

  /** After `dropna`, an input column that no feature overwrites is the
      input column from row `min(m, n)` on. */
  lemma PreparedKept(t: Table, cfg: Config, m: nat, c: string)
    requires WellFormed(t) && PlainConfig(cfg) && AllComplete(t)
    requires FirstFailure(t, Planned(cfg)) == None && Price in t.data
    requires MaxLag(cfg.lags, m) && cfg.cols != []
    requires c in t.data && c != Label && !Writes(Planned(cfg), c)
    ensures Prepare(t, cfg).Ok?
    ensures var d := if m <= |t.index| then m else |t.index|;
      c in Prepare(t, cfg).value.data
      && Prepare(t, cfg).value.data[c] == t.data[c][d..]
  {
    FeatureTableSpec(t, cfg);
    PrepareDropsWarmup(t, cfg, m);
  }

  // ============================================================= errors

  /** The first of `cols` missing from `t`, as the `KeyError` it raises. */
  function FirstMissing(t: Table, cols: seq<string>): (r: Option<FeatureError>)
    ensures r == None <==> forall c :: c in cols ==> c in t.data
    ensures r.Some? ==> r.value.MissingColumn? && r.value.name in cols && r.value.name !in t.data
  {
    if cols == [] then None
    else if cols[0] !in t.data then Some(MissingColumn(cols[0]))
    else FirstMissing(t, cols[1..])
  }

  lemma {:induction false} LagsOfFailure(t: Table, c: string, lags: seq<int>)
    requires lags != []
    ensures FirstFailure(t, LagsOf(c, lags)) == if c in t.data then None else Some(MissingColumn(c))
    decreases |lags|
  {
    if c in t.data && lags[1..] != [] {
      LagsOfFailure(t, c, lags[1..]);
    }
  }

  /** With at least one lag, the lag builder reports the first base column
      missing from the frame. */
  lemma {:induction false} LagFailure(t: Table, cols: seq<string>, lags: seq<int>)
    requires lags != []
    ensures FirstFailure(t, LagFeatures(cols, lags)) == FirstMissing(t, cols)
    decreases |cols|
  {
    if cols != [] {
      LagsOfFailure(t, cols[0], lags);
      FirstFailureAppend(t, LagsOf(cols[0], lags), LagFeatures(cols[1..], lags));
      LagFailure(t, cols[1..], lags);
    }
  }

  /** With at least one lag and only valid windows, a configuration fails
      exactly on the first base column missing from the input. */
  lemma PlannedFailure(t: Table, cfg: Config)
    requires cfg.lags != [] && forall w :: w in cfg.windows ==> w >= 1
    ensures FirstFailure(t, Planned(cfg)) == FirstMissing(t, cfg.cols)
  {
    var fs1, fs2 := LagFeatures(cfg.cols, cfg.lags), RollingFeatures(cfg.cols, cfg.windows);
    FirstFailureAppend(t, fs1, fs2);
    LagFailure(t, cfg.cols, cfg.lags);
    if FirstMissing(t, cfg.cols) == None {
      forall f | f in fs2 ensures Check(t, f) == None {
        RollingFeaturesMembers(cfg.cols, cfg.windows, f);
      }
    }
  }
}
