/** The feature pipeline of src/features.py: lag columns, trailing-window
    columns, the `target_up` label and the final `dropna`.

    Each builder works on a copy of its input frame and assigns one new
    column per (column, lag) or (column, window) pair, in loop order. The
    specification of that sequence of assignments is `Build`, a fold over the
    list of `Feature`s in the order the loops visit them; the methods are
    proved equal to it, and the lemmas state what it produces. */
module Features {
  import opened Series
  import opened Frames
  import opened ColumnNames

  /** The exceptions the builders can raise: pandas' `KeyError` for a
      missing column and its `ValueError` for a window below
      `min_periods=1`. */
  datatype FeatureError = MissingColumn(name: string) | InvalidWindow(window: int)

  datatype Result<T> = Ok(value: T) | Err(error: FeatureError)

  /** Which columns get lag and window features, and with which lags and
      window widths. */
  datatype Config = Config(cols: seq<string>, lags: seq<int>, windows: seq<int>)

  /** The configuration `prepare_features` fixes (src/features.py:26-28). */
  const Default: Config := Config(["price", "volume", "sentiment"], [1, 2, 3], [3, 7])
  const Price: string := "price"
  const Label: string := "target_up"

  // ------------------------------------------------------- loop orders

  /** Features written by the inner loop of `create_lag_features` for `col`. */
  function LagsOf(col: string, lags: seq<int>): (r: seq<Feature>)
    ensures |r| == |lags|
    decreases |lags|
  {
    if lags == [] then [] else [Lag(col, lags[0])] + LagsOf(col, lags[1..])
  }

  /** Features written by `create_lag_features(df, cols, lags)`, in order. */
  function LagFeatures(cols: seq<string>, lags: seq<int>): (r: seq<Feature>)
    ensures |r| == |cols| * |lags|
    decreases |cols|
  {
    if cols == [] then []
    else
      assert |cols| * |lags| == |lags| + (|cols| - 1) * |lags|;
      LagsOf(cols[0], lags) + LagFeatures(cols[1..], lags)
  }

  /** Features written by the inner loop of `create_rolling_features` for
      `col`: the mean, then the standard deviation, per window. */
  function RollsOf(col: string, windows: seq<int>): (r: seq<Feature>)
    ensures |r| == 2 * |windows|
    decreases |windows|
  {
    if windows == [] then []
    else [RollMean(col, windows[0]), RollStd(col, windows[0])] + RollsOf(col, windows[1..])
  }

  /** Features written by `create_rolling_features(df, cols, windows)`, in order. */
  function RollingFeatures(cols: seq<string>, windows: seq<int>): (r: seq<Feature>)
    ensures |r| == 2 * |cols| * |windows|
    decreases |cols|
  {
    if cols == [] then []
    else
      assert 2 * |cols| * |windows| == 2 * |windows| + 2 * (|cols| - 1) * |windows|;
      RollsOf(cols[0], windows) + RollingFeatures(cols[1..], windows)
  }

  /** The columns `fs` writes, one per feature, in order. */
  function FeatureNames(fs: seq<Feature>): (r: seq<string>)
    ensures |r| == |fs| && forall j :: 0 <= j < |fs| ==> r[j] == fs[j].Name()
    decreases |fs|
  {
    if fs == [] then []
    else
      var rest := FeatureNames(fs[1..]);
      assert forall j :: 1 <= j < |fs| ==> fs[j] == fs[1..][j - 1];
      [fs[0].Name()] + rest
  }

  // ------------------------------------------------ one assignment

  predicate WindowOk(f: Feature) {
    f.Lag? || f.w >= 1
  }

  /** The exception raised when the builder reaches `f` on frame `t`, if any:
      `df[col]` is read first, then the window is validated. */
  function Check(t: Table, f: Feature): (r: Option<FeatureError>)
    ensures r == None <==> f.col in t.data && WindowOk(f)
    ensures f.col !in t.data ==> r == Some(MissingColumn(f.col))
    ensures f.col in t.data && !WindowOk(f) ==> r == Some(InvalidWindow(f.w))
  {
    if f.col !in t.data then Some(MissingColumn(f.col))
    else if !WindowOk(f) then Some(InvalidWindow(f.w))
    else None
  }

  /** The column rule that computes feature `f` from its base column `s`. */
  function Rule(f: Feature, s: Column): (r: Column)
    requires WindowOk(f)
    ensures |r| == |s|
  {
    match f
    case Lag(_, k) => Shift(s, k)
    case RollMean(_, w) => RollingMean(s, w)
    case RollStd(_, w) => RollingStd(s, w)
  }

  /** `df[f.Name()] = <rule>(df[f.col])`. */
  function Apply(t: Table, f: Feature): (r: Table)
    requires WellFormed(t) && Check(t, f) == None
    ensures WellFormed(r) && r.index == t.index
  {
    WithColumn(t, f.Name(), Rule(f, t.data[f.col]))
  }

  /** The assignments of `fs`, one after another; the first exception stops
      the builder. */
  function Build(t: Table, fs: seq<Feature>): (r: Result<Table>)
    requires WellFormed(t)
    ensures r.Ok? ==> WellFormed(r.value) && r.value.index == t.index
    decreases |fs|
  {
    if fs == [] then Ok(t)
    else match Check(t, fs[0])
      case Some(e) => Err(e)
      case None => Build(Apply(t, fs[0]), fs[1..])
  }

  /** Reference for the builders' errors, read off the INPUT frame: the
      first feature whose column is missing or whose window is invalid. */
  function FirstFailure(t: Table, fs: seq<Feature>): (r: Option<FeatureError>)
    ensures r == None <==> forall f :: f in fs ==> Check(t, f) == None
    decreases |fs|
  {
    if fs == [] then None
    else if Check(t, fs[0]).Some? then Check(t, fs[0])
    else FirstFailure(t, fs[1..])
  }

  // ------------------------------------------------------ pipeline spec

  /** `create_lag_features`, `create_rolling_features` and the label
      assignment of `prepare_features` (src/features.py:27-30). */
  function FeatureTable(t: Table, cfg: Config): (r: Result<Table>)
    requires WellFormed(t)
    ensures r.Ok? ==> WellFormed(r.value) && r.value.index == t.index
  {
    match Build(t, LagFeatures(cfg.cols, cfg.lags))
    case Err(e) => Err(e)
    case Ok(t1) =>
      match Build(t1, RollingFeatures(cfg.cols, cfg.windows))
      case Err(e) => Err(e)
      case Ok(t2) =>
        if Price !in t2.data then Err(MissingColumn(Price))
        else Ok(WithColumn(t2, Label, TargetUp(t2.data[Price])))
  }

  /** `prepare_features` (src/features.py:25-32), with its configuration as
      a parameter. */
  function Prepare(t: Table, cfg: Config): (r: Result<Table>)
    requires WellFormed(t)
    ensures r.Ok? ==> WellFormed(r.value)
  {
    match FeatureTable(t, cfg)
    case Err(e) => Err(e)
    case Ok(t3) => Ok(Trim(t3))
  }

  // ======================================================== unfolding

  lemma BuildStep(t: Table, f: Feature, rest: seq<Feature>)
    requires WellFormed(t) && Check(t, f) == None
    ensures Build(t, [f] + rest) == Build(Apply(t, f), rest)
  {
    assert ([f] + rest)[1..] == rest;
  }

  lemma BuildStop(t: Table, f: Feature, rest: seq<Feature>)
    requires WellFormed(t) && Check(t, f).Some?
    ensures Build(t, [f] + rest) == Err(Check(t, f).value)
  {
  }

  lemma LagFeaturesStep(cols: seq<string>, i: nat, lags: seq<int>)
    requires i < |cols|
    ensures LagFeatures(cols[i..], lags) == LagsOf(cols[i], lags) + LagFeatures(cols[i + 1..], lags)
  {
    assert cols[i..][1..] == cols[i + 1..];
  }

  lemma LagsOfStep(col: string, lags: seq<int>, j: nat, tail: seq<Feature>)
    requires j < |lags|
    ensures LagsOf(col, lags[j..]) + tail == [Lag(col, lags[j])] + (LagsOf(col, lags[j + 1..]) + tail)
  {
    assert lags[j..][1..] == lags[j + 1..];
  }

  lemma RollingFeaturesStep(cols: seq<string>, i: nat, windows: seq<int>)
    requires i < |cols|
    ensures RollingFeatures(cols[i..], windows)
      == RollsOf(cols[i], windows) + RollingFeatures(cols[i + 1..], windows)
  {
    assert cols[i..][1..] == cols[i + 1..];
  }

  lemma RollsOfStep(col: string, windows: seq<int>, j: nat, tail: seq<Feature>)
    requires j < |windows|
    ensures RollsOf(col, windows[j..]) + tail
      == [RollMean(col, windows[j])] + ([RollStd(col, windows[j])] + (RollsOf(col, windows[j + 1..]) + tail))
  {
    assert windows[j..][1..] == windows[j + 1..];
  }

  /** One pass of the inner loop of `create_lag_features`. */
  lemma LagStep(t: Table, col: string, lags: seq<int>, j: nat, tail: seq<Feature>)
    requires WellFormed(t) && j < |lags|
    ensures col !in t.data ==> Build(t, LagsOf(col, lags[j..]) + tail) == Err(MissingColumn(col))
    ensures col in t.data ==>
      Build(t, LagsOf(col, lags[j..]) + tail)
      == Build(WithColumn(t, col + "_lag_" + IntToString(lags[j]), Shift(t.data[col], lags[j])),
               LagsOf(col, lags[j + 1..]) + tail)
  {
    var f := Lag(col, lags[j]);
    LagsOfStep(col, lags, j, tail);
    if col in t.data {
      BuildStep(t, f, LagsOf(col, lags[j + 1..]) + tail);
    }
  }

  /** One pass of the inner loop of `create_rolling_features`. */
  lemma RollStep(t: Table, col: string, windows: seq<int>, j: nat, tail: seq<Feature>)
    requires WellFormed(t) && j < |windows|
    ensures col !in t.data ==> Build(t, RollsOf(col, windows[j..]) + tail) == Err(MissingColumn(col))
    ensures col in t.data && windows[j] < 1 ==>
      Build(t, RollsOf(col, windows[j..]) + tail) == Err(InvalidWindow(windows[j]))
    ensures col in t.data && windows[j] >= 1 ==>
      var w := windows[j];
      var t1 := WithColumn(t, col + "_roll_mean_" + IntToString(w), RollingMean(t.data[col], w));
      Build(t, RollsOf(col, windows[j..]) + tail)
      == Build(WithColumn(t1, col + "_roll_std_" + IntToString(w), RollingStd(t1.data[col], w)),
               RollsOf(col, windows[j + 1..]) + tail)
  {
    var w := windows[j];
    var mean, std := RollMean(col, w), RollStd(col, w);
    var rest := RollsOf(col, windows[j + 1..]) + tail;
    RollsOfStep(col, windows, j, tail);
    if col in t.data && w >= 1 {
      BuildStep(t, mean, [std] + rest);
      var t1 := Apply(t, mean);
      BuildStep(t1, std, rest);
    }
  }

  // ========================================================== methods

  /** `create_lag_features(df, cols, lags)` (src/features.py:8-13). */
  method CreateLagFeatures(df: Frame, cols: seq<string>, lags: seq<int>) returns (r: Result<Frame>)
    requires df.Valid()
    ensures unchanged(df)
    ensures r.Ok? ==> fresh(r.value) && r.value.Valid()
    ensures r.Ok? ==> Build(df.View(), LagFeatures(cols, lags)) == Ok(r.value.View())
    ensures r.Err? ==> Build(df.View(), LagFeatures(cols, lags)) == Err(r.error)
  {
    var out := df.Copy();
    for i := 0 to |cols|
      invariant fresh(out) && out.Valid()
      invariant Build(df.View(), LagFeatures(cols, lags)) == Build(out.View(), LagFeatures(cols[i..], lags))
    {
      var col := cols[i];
      LagFeaturesStep(cols, i, lags);
      for j := 0 to |lags|
        invariant fresh(out) && out.Valid()
        invariant Build(df.View(), LagFeatures(cols, lags))
          == Build(out.View(), LagsOf(col, lags[j..]) + LagFeatures(cols[i + 1..], lags))
      {
        var lag := lags[j];
        LagStep(out.View(), col, lags, j, LagFeatures(cols[i + 1..], lags));
        if col !in out.data {
          return Err(MissingColumn(col));
        }
        out.Assign(col + "_lag_" + IntToString(lag), Shift(out.data[col], lag));
      }
      assert lags[|lags|..] == [];
      assert LagsOf(col, lags[|lags|..]) + LagFeatures(cols[i + 1..], lags) == LagFeatures(cols[i + 1..], lags);
    }
    return Ok(out);
  }

  /** `create_rolling_features(df, cols, windows)` (src/features.py:16-22). */
  method CreateRollingFeatures(df: Frame, cols: seq<string>, windows: seq<int>) returns (r: Result<Frame>)
    requires df.Valid()
    ensures unchanged(df)
    ensures r.Ok? ==> fresh(r.value) && r.value.Valid()
    ensures r.Ok? ==> Build(df.View(), RollingFeatures(cols, windows)) == Ok(r.value.View())
    ensures r.Err? ==> Build(df.View(), RollingFeatures(cols, windows)) == Err(r.error)
  {
    var out := df.Copy();
    for i := 0 to |cols|
      invariant fresh(out) && out.Valid()
      invariant Build(df.View(), RollingFeatures(cols, windows))
        == Build(out.View(), RollingFeatures(cols[i..], windows))
    {
      var col := cols[i];
      RollingFeaturesStep(cols, i, windows);
      for j := 0 to |windows|
        invariant fresh(out) && out.Valid()
        invariant Build(df.View(), RollingFeatures(cols, windows))
          == Build(out.View(), RollsOf(col, windows[j..]) + RollingFeatures(cols[i + 1..], windows))
      {
        var w := windows[j];
        RollStep(out.View(), col, windows, j, RollingFeatures(cols[i + 1..], windows));
        if col !in out.data {
          return Err(MissingColumn(col));
        }
        if w < 1 {
          return Err(InvalidWindow(w));
        }
        out.Assign(col + "_roll_mean_" + IntToString(w), RollingMean(out.data[col], w));
        out.Assign(col + "_roll_std_" + IntToString(w), RollingStd(out.data[col], w));
      }
      assert windows[|windows|..] == [];
      assert RollsOf(col, windows[|windows|..]) + RollingFeatures(cols[i + 1..], windows)
        == RollingFeatures(cols[i + 1..], windows);
    }
    return Ok(out);
  }

  /** The body of `prepare_features` (src/features.py:27-32) for a given
      configuration. */
  method RunPipeline(df: Frame, cfg: Config) returns (r: Result<Frame>)
    requires df.Valid()
    ensures unchanged(df)
    ensures r.Ok? ==> fresh(r.value) && r.value.Valid() && Prepare(df.View(), cfg) == Ok(r.value.View())
    ensures r.Err? ==> Prepare(df.View(), cfg) == Err(r.error)
  {
    var lagged := CreateLagFeatures(df, cfg.cols, cfg.lags);
    if lagged.Err? {
      return Err(lagged.error);
    }
    var rolled := CreateRollingFeatures(lagged.value, cfg.cols, cfg.windows);
    if rolled.Err? {
      return Err(rolled.error);
    }
    var out := rolled.value;
    if Price !in out.data {
      return Err(MissingColumn(Price));
    }
    out.Assign(Label, TargetUp(out.data[Price]));
    var trimmed := out.DropNa();
    return Ok(trimmed);
  }

  /** `prepare_features(df)` (src/features.py:25-32). */
  method PrepareFeatures(df: Frame) returns (r: Result<Frame>)
    requires df.Valid()
    ensures unchanged(df)
    ensures r.Ok? ==> fresh(r.value) && r.value.Valid() && Prepare(df.View(), Default) == Ok(r.value.View())
    ensures r.Err? ==> Prepare(df.View(), Default) == Err(r.error)
  {
    r := RunPipeline(df, Default);
  }
}
