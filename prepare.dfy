/** `prepare_features` with the configuration it fixes: base columns
    `price`, `volume` and `sentiment`, lags 1, 2 and 3, windows 3 and 7
    (src/features.py:25-32). */
module PrepareFeaturesSpec {
  import opened Series
  import opened Frames
  import opened ColumnNames
  import opened Features
  import opened PipelineProperties

  lemma DefaultConfig()
    ensures PlainConfig(Default) && MaxLag(Default.lags, 3) && Default.cols != []
  {
  }

  lemma LagsOfThree(c: string, a: int, b: int, d: int)
    ensures LagsOf(c, [a, b, d]) == [Lag(c, a), Lag(c, b), Lag(c, d)]
  {
    var lags := [a, b, d];
    assert lags[1..] == [b, d] && [b, d][1..] == [d] && [d][1..] == [];
    assert LagsOf(c, [d]) == [Lag(c, d)];
    assert LagsOf(c, [b, d]) == [Lag(c, b), Lag(c, d)];
  }

  lemma RollsOfTwo(c: string, a: int, b: int)
    ensures RollsOf(c, [a, b]) == [RollMean(c, a), RollStd(c, a), RollMean(c, b), RollStd(c, b)]
  {
    var windows := [a, b];
    assert windows[1..] == [b] && [b][1..] == [];
    assert RollsOf(c, [b]) == [RollMean(c, b), RollStd(c, b)];
  }

  lemma LagFeaturesThree(x: string, y: string, z: string, lags: seq<int>)
    ensures LagFeatures([x, y, z], lags) == LagsOf(x, lags) + LagsOf(y, lags) + LagsOf(z, lags)
  {
    var cols := [x, y, z];
    assert cols[1..] == [y, z] && [y, z][1..] == [z] && [z][1..] == [];
    assert LagFeatures([z], lags) == LagsOf(z, lags);
    assert LagFeatures([y, z], lags) == LagsOf(y, lags) + LagsOf(z, lags);
  }

  lemma RollingFeaturesThree(x: string, y: string, z: string, windows: seq<int>)
    ensures RollingFeatures([x, y, z], windows) == RollsOf(x, windows) + RollsOf(y, windows) + RollsOf(z, windows)
  {
    var cols := [x, y, z];
    assert cols[1..] == [y, z] && [y, z][1..] == [z] && [z][1..] == [];
    assert RollingFeatures([z], windows) == RollsOf(z, windows);
    assert RollingFeatures([y, z], windows) == RollsOf(y, windows) + RollsOf(z, windows);
  }

  /** The features of `prepare_features`, in the order its loops write them. */
  lemma DefaultFeatures()
    ensures LagFeatures(Default.cols, Default.lags) == [
      Lag("price", 1), Lag("price", 2), Lag("price", 3),
      Lag("volume", 1), Lag("volume", 2), Lag("volume", 3),
      Lag("sentiment", 1), Lag("sentiment", 2), Lag("sentiment", 3)]
    ensures RollingFeatures(Default.cols, Default.windows) == [
      RollMean("price", 3), RollStd("price", 3), RollMean("price", 7), RollStd("price", 7),
      RollMean("volume", 3), RollStd("volume", 3), RollMean("volume", 7), RollStd("volume", 7),
      RollMean("sentiment", 3), RollStd("sentiment", 3), RollMean("sentiment", 7), RollStd("sentiment", 7)]
  {
    LagFeaturesThree("price", "volume", "sentiment", [1, 2, 3]);
    LagsOfThree("price", 1, 2, 3);
    LagsOfThree("volume", 1, 2, 3);
    LagsOfThree("sentiment", 1, 2, 3);
    RollingFeaturesThree("price", "volume", "sentiment", [3, 7]);
    RollsOfTwo("price", 3, 7);
    RollsOfTwo("volume", 3, 7);
    RollsOfTwo("sentiment", 3, 7);
  }

  lemma SmallNumbers()
    ensures IntToString(1) == "1" && IntToString(2) == "2" && IntToString(3) == "3"
    ensures IntToString(7) == "7"
  {
  }

  lemma NamesOfLags(c: string, n1: string, n2: string, n3: string)
    requires n1 == c + "_lag_1" && n2 == c + "_lag_2" && n3 == c + "_lag_3"
    ensures FeatureNames([Lag(c, 1), Lag(c, 2), Lag(c, 3)]) == [n1, n2, n3]
  {
    SmallNumbers();
    assert c + "_lag_" + "1" == c + "_lag_1";
    assert c + "_lag_" + "2" == c + "_lag_2";
    assert c + "_lag_" + "3" == c + "_lag_3";
  }

  lemma NamesOfRolls(c: string, n1: string, n2: string, n3: string, n4: string)
    requires n1 == c + "_roll_mean_3" && n2 == c + "_roll_std_3"
    requires n3 == c + "_roll_mean_7" && n4 == c + "_roll_std_7"
    ensures FeatureNames([RollMean(c, 3), RollStd(c, 3), RollMean(c, 7), RollStd(c, 7)]) == [n1, n2, n3, n4]
  {
    SmallNumbers();
    assert c + "_roll_mean_" + "3" == c + "_roll_mean_3";
    assert c + "_roll_std_" + "3" == c + "_roll_std_3";
    assert c + "_roll_mean_" + "7" == c + "_roll_mean_7";
    assert c + "_roll_std_" + "7" == c + "_roll_std_7";
  }

  // The default names one base column at a time: each literal comparison is
  // kept in a proof of its own so that the default-name lemmas stay small.

  lemma PriceLagNames()
    ensures FeatureNames([Lag("price", 1), Lag("price", 2), Lag("price", 3)])
      == ["price_lag_1", "price_lag_2", "price_lag_3"]
  {
    NamesOfLags("price", "price_lag_1", "price_lag_2", "price_lag_3");
  }

  lemma PriceRollNames()
    ensures FeatureNames([RollMean("price", 3), RollStd("price", 3), RollMean("price", 7), RollStd("price", 7)])
      == ["price_roll_mean_3", "price_roll_std_3", "price_roll_mean_7", "price_roll_std_7"]
  {
    NamesOfRolls("price", "price_roll_mean_3", "price_roll_std_3", "price_roll_mean_7", "price_roll_std_7");
  }

  lemma VolumeLagNames()
    ensures FeatureNames([Lag("volume", 1), Lag("volume", 2), Lag("volume", 3)])
      == ["volume_lag_1", "volume_lag_2", "volume_lag_3"]
  {
    NamesOfLags("volume", "volume_lag_1", "volume_lag_2", "volume_lag_3");
  }

  lemma VolumeRollNames()
    ensures FeatureNames([RollMean("volume", 3), RollStd("volume", 3), RollMean("volume", 7), RollStd("volume", 7)])
      == ["volume_roll_mean_3", "volume_roll_std_3", "volume_roll_mean_7", "volume_roll_std_7"]
  {
    NamesOfRolls("volume", "volume_roll_mean_3", "volume_roll_std_3", "volume_roll_mean_7", "volume_roll_std_7");
  }

  lemma SentimentLagNames()
    ensures FeatureNames([Lag("sentiment", 1), Lag("sentiment", 2), Lag("sentiment", 3)])
      == ["sentiment_lag_1", "sentiment_lag_2", "sentiment_lag_3"]
  {
    NamesOfLags("sentiment", "sentiment_lag_1", "sentiment_lag_2", "sentiment_lag_3");
  }

  lemma SentimentRollNames()
    ensures FeatureNames([RollMean("sentiment", 3), RollStd("sentiment", 3), RollMean("sentiment", 7), RollStd("sentiment", 7)])
      == ["sentiment_roll_mean_3", "sentiment_roll_std_3", "sentiment_roll_mean_7", "sentiment_roll_std_7"]
  {
    NamesOfRolls("sentiment", "sentiment_roll_mean_3", "sentiment_roll_std_3", "sentiment_roll_mean_7", "sentiment_roll_std_7");
  }

  lemma NamesOfThree(a: seq<Feature>, b: seq<Feature>, c: seq<Feature>, na: seq<string>, nb: seq<string>, nc: seq<string>)
    requires FeatureNames(a) == na && FeatureNames(b) == nb && FeatureNames(c) == nc
    ensures FeatureNames(a + b + c) == na + nb + nc
  {
    FeatureNamesAppend(a + b, c);
    FeatureNamesAppend(a, b);
  }

  /** The nine lag columns, in the order `create_lag_features` adds them. */
  lemma DefaultLagNames()
    ensures FeatureNames(LagFeatures(Default.cols, Default.lags))
      == ["price_lag_1", "price_lag_2", "price_lag_3"]
       + ["volume_lag_1", "volume_lag_2", "volume_lag_3"]
       + ["sentiment_lag_1", "sentiment_lag_2", "sentiment_lag_3"]
  {
    LagFeaturesThree("price", "volume", "sentiment", [1, 2, 3]);
    LagsOfThree("price", 1, 2, 3);
    LagsOfThree("volume", 1, 2, 3);
    LagsOfThree("sentiment", 1, 2, 3);
    PriceLagNames();
    VolumeLagNames();
    SentimentLagNames();
    NamesOfThree([Lag("price", 1), Lag("price", 2), Lag("price", 3)],
      [Lag("volume", 1), Lag("volume", 2), Lag("volume", 3)],
      [Lag("sentiment", 1), Lag("sentiment", 2), Lag("sentiment", 3)],
      ["price_lag_1", "price_lag_2", "price_lag_3"],
      ["volume_lag_1", "volume_lag_2", "volume_lag_3"],
      ["sentiment_lag_1", "sentiment_lag_2", "sentiment_lag_3"]);
  }

  /** The twelve window columns, in the order `create_rolling_features`
      adds them. */
  lemma DefaultRollNames()
    ensures FeatureNames(RollingFeatures(Default.cols, Default.windows))
      == ["price_roll_mean_3", "price_roll_std_3", "price_roll_mean_7", "price_roll_std_7"]
       + ["volume_roll_mean_3", "volume_roll_std_3", "volume_roll_mean_7", "volume_roll_std_7"]
       + ["sentiment_roll_mean_3", "sentiment_roll_std_3", "sentiment_roll_mean_7", "sentiment_roll_std_7"]
  {
    RollingFeaturesThree("price", "volume", "sentiment", [3, 7]);
    RollsOfTwo("price", 3, 7);
    RollsOfTwo("volume", 3, 7);
    RollsOfTwo("sentiment", 3, 7);
    PriceRollNames();
    VolumeRollNames();
    SentimentRollNames();
    NamesOfThree([RollMean("price", 3), RollStd("price", 3), RollMean("price", 7), RollStd("price", 7)],
      [RollMean("volume", 3), RollStd("volume", 3), RollMean("volume", 7), RollStd("volume", 7)],
      [RollMean("sentiment", 3), RollStd("sentiment", 3), RollMean("sentiment", 7), RollStd("sentiment", 7)],
      ["price_roll_mean_3", "price_roll_std_3", "price_roll_mean_7", "price_roll_std_7"],
      ["volume_roll_mean_3", "volume_roll_std_3", "volume_roll_mean_7", "volume_roll_std_7"],
      ["sentiment_roll_mean_3", "sentiment_roll_std_3", "sentiment_roll_mean_7", "sentiment_roll_std_7"]);
  }

  // ======================================================== the pipeline

  /** `prepare_features` raises `KeyError` exactly when `price`, `volume`
      or `sentiment` is missing, naming the first missing one in that order;
      its lags and windows are all valid. */
  lemma PrepareFeaturesErrors(t: Table)
    requires WellFormed(t)
    ensures Prepare(t, Default).Ok? <==> "price" in t.data && "volume" in t.data && "sentiment" in t.data
    ensures Prepare(t, Default).Err? ==>
      Prepare(t, Default).error == MissingColumn(
        if "price" !in t.data then "price" else if "volume" !in t.data then "volume" else "sentiment")
  {
    DefaultConfig();
    FeatureTableErrors(t, Default);
    PlannedFailure(t, Default);
    var cols := Default.cols;
    assert cols[1..] == ["volume", "sentiment"] && cols[1..][1..] == ["sentiment"] && cols[1..][1..][1..] == [];
    assert FirstMissing(t, ["sentiment"]) == if "sentiment" in t.data then None else Some(MissingColumn("sentiment"));
  }

  /** A frame `prepare_features` accepts: well formed, with the three base columns. */
  predicate HasBases(t: Table) {
    WellFormed(t) && "price" in t.data && "volume" in t.data && "sentiment" in t.data
  }

  /** On an input with the base columns, no lag or window check fails. */
  lemma DefaultChecksPass(t: Table)
    requires HasBases(t)
    ensures FirstFailure(t, Planned(Default)) == None
  {
    PlannedFailure(t, Default);
    var cols := Default.cols;
    assert cols[1..] == ["volume", "sentiment"] && cols[1..][1..] == ["sentiment"] && cols[1..][1..][1..] == [];
    assert FirstMissing(t, ["sentiment"]) == None;
  }

  /** On a complete input of `n` rows with the base columns,
      `prepare_features` keeps the input's rows `3 .. n-1`, in order and
      with their index labels: `max(0, n - 3)` rows. */
  lemma PrepareFeaturesRows(t: Table)
    requires HasBases(t) && AllComplete(t)
    ensures Prepare(t, Default).Ok?
    ensures var n := |t.index|;
      && Prepare(t, Default).value.index == t.index[(if n < 3 then n else 3)..]
      && |Prepare(t, Default).value.index| == (if n < 3 then 0 else n - 3)
  {
    DefaultConfig();
    DefaultChecksPass(t);
    PrepareDropsWarmup(t, Default, 3);
  }

  lemma DefaultLagPlanned(c: string, k: int)
    requires c == "price" || c == "volume" || c == "sentiment"
    requires 1 <= k <= 3
    ensures Lag(c, k) in Planned(Default)
  {
    assert c in Default.cols && k in Default.lags;
    LagFeaturesMembers(Default.cols, Default.lags, Lag(c, k));
  }

  /** The lag columns of a base column are the base column shifted down
      by `k` rows, from input row 3 on: output row `j` holds input row
      `j + 3 - k`. */
  lemma PrepareFeaturesLag(t: Table, c: string, k: int)
    requires HasBases(t) && AllComplete(t)
    requires c == "price" || c == "volume" || c == "sentiment"
    requires 1 <= k <= 3
    ensures Prepare(t, Default).Ok? && c in t.data
    ensures var d := if |t.index| < 3 then |t.index| else 3;
      var p := Prepare(t, Default).value;
      Lag(c, k).Name() in p.data && p.data[Lag(c, k).Name()] == Shift(t.data[c], k)[d..]
  {
    DefaultConfig();
    DefaultChecksPass(t);
    DefaultLagPlanned(c, k);
    PreparedFeature(t, Default, 3, Lag(c, k));
  }

  /** The window columns of a base column are its rolling mean and its
      rolling dispersion from input row 3 on. */
  lemma PrepareFeaturesRoll(t: Table, c: string, w: int)
    requires HasBases(t) && AllComplete(t)
    requires c in Default.cols && w in Default.windows
    ensures Prepare(t, Default).Ok? && c in t.data
    ensures var d := if |t.index| < 3 then |t.index| else 3;
      var p := Prepare(t, Default).value;
      && RollMean(c, w).Name() in p.data && p.data[RollMean(c, w).Name()] == RollingMean(t.data[c], w)[d..]
      && RollStd(c, w).Name() in p.data && p.data[RollStd(c, w).Name()] == RollingStd(t.data[c], w)[d..]
  {
    DefaultConfig();
    DefaultChecksPass(t);
    RollingFeaturesMembers(Default.cols, Default.windows, RollMean(c, w));
    RollingFeaturesMembers(Default.cols, Default.windows, RollStd(c, w));
    PreparedFeature(t, Default, 3, RollMean(c, w));
    PreparedFeature(t, Default, 3, RollStd(c, w));
  }

  /** On output row `j` (input row `j + 3`), `target_up` is 1 exactly
      when there is a next row and its price is strictly higher, and 0
      otherwise: on the last row it is 0. */
  lemma PrepareFeaturesLabel(t: Table, j: nat)
    requires HasBases(t) && AllComplete(t)
    requires j + 3 < |t.index|
    ensures Prepare(t, Default).Ok? && j < |Prepare(t, Default).value.index|
    ensures Label in Prepare(t, Default).value.data
    ensures var up := Prepare(t, Default).value.data[Label][j];
      && (up == Some(1.0) || up == Some(0.0))
      && (up == Some(1.0) <==>
            j + 4 < |t.index| && t.data["price"][j + 4].value > t.data["price"][j + 3].value)
  {
    DefaultConfig();
    DefaultChecksPass(t);
    PrepareFeaturesRows(t);
    PreparedLabelCell(t, Default, 3, j);
  }

  /** Every input column that is not a feature or label name, such as
      `promotion`, comes out as its input column from row 3 on. */
  lemma PrepareFeaturesKeeps(t: Table, c: string)
    requires HasBases(t) && AllComplete(t)
    requires c in t.data && c != Label && !Writes(Planned(Default), c)
    ensures Prepare(t, Default).Ok?
    ensures var d := if |t.index| < 3 then |t.index| else 3;
      c in Prepare(t, Default).value.data && Prepare(t, Default).value.data[c] == t.data[c][d..]
  {
    DefaultConfig();
    DefaultChecksPass(t);
    PreparedKept(t, Default, 3, c);
  }

  lemma DefaultDistinct()
    ensures Distinct(Default.cols) && Distinct(Default.lags) && Distinct(Default.windows)
  {
  }

  lemma PlannedNames(cfg: Config, a: seq<string>, b: seq<string>)
    requires FeatureNames(LagFeatures(cfg.cols, cfg.lags)) == a
    requires FeatureNames(RollingFeatures(cfg.cols, cfg.windows)) == b
    ensures FeatureNames(Planned(cfg)) == a + b
  {
    FeatureNamesAppend(LagFeatures(cfg.cols, cfg.lags), RollingFeatures(cfg.cols, cfg.windows));
  }

  /** The twenty-one feature columns, in the order they are written. */
  lemma DefaultPlannedNames()
    ensures FeatureNames(Planned(Default)) ==
      ["price_lag_1", "price_lag_2", "price_lag_3"]
      + ["volume_lag_1", "volume_lag_2", "volume_lag_3"]
      + ["sentiment_lag_1", "sentiment_lag_2", "sentiment_lag_3"]
      + (["price_roll_mean_3", "price_roll_std_3", "price_roll_mean_7", "price_roll_std_7"]
      + ["volume_roll_mean_3", "volume_roll_std_3", "volume_roll_mean_7", "volume_roll_std_7"]
      + ["sentiment_roll_mean_3", "sentiment_roll_std_3", "sentiment_roll_mean_7", "sentiment_roll_std_7"])
  {
    DefaultLagNames();
    DefaultRollNames();
    PlannedNames(Default,
      ["price_lag_1", "price_lag_2", "price_lag_3"]
      + ["volume_lag_1", "volume_lag_2", "volume_lag_3"]
      + ["sentiment_lag_1", "sentiment_lag_2", "sentiment_lag_3"],
      ["price_roll_mean_3", "price_roll_std_3", "price_roll_mean_7", "price_roll_std_7"]
      + ["volume_roll_mean_3", "volume_roll_std_3", "volume_roll_mean_7", "volume_roll_std_7"]
      + ["sentiment_roll_mean_3", "sentiment_roll_std_3", "sentiment_roll_mean_7", "sentiment_roll_std_7"]);
  }

  /** On an input that has none of the derived columns and no `target_up`,
      the output's columns are the input's, in order, then the nine lag
      columns, the twelve window columns and `target_up`. */
  lemma PrepareFeaturesColumns(t: Table)
    requires HasBases(t) && Label !in t.data
    requires forall f :: f in Planned(Default) ==> f.Name() !in t.data
    ensures Prepare(t, Default).Ok?
    ensures Prepare(t, Default).value.names == t.names
      + (["price_lag_1", "price_lag_2", "price_lag_3"]
      + ["volume_lag_1", "volume_lag_2", "volume_lag_3"]
      + ["sentiment_lag_1", "sentiment_lag_2", "sentiment_lag_3"]
      + (["price_roll_mean_3", "price_roll_std_3", "price_roll_mean_7", "price_roll_std_7"]
      + ["volume_roll_mean_3", "volume_roll_std_3", "volume_roll_mean_7", "volume_roll_std_7"]
      + ["sentiment_roll_mean_3", "sentiment_roll_std_3", "sentiment_roll_mean_7", "sentiment_roll_std_7"]))
      + ["target_up"]
  {
    DefaultConfig();
    DefaultChecksPass(t);
    DefaultDistinct();
    PrepareColumns(t, Default);
    DefaultPlannedNames();
  }
}
