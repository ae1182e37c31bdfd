/** The moving correlation between two instruments, computed as a market feature.

    The feature reads three required parameters (`featureName`, `instrumentId1`,
    `instrumentId2`), returns 0 when either instrument is unknown to the
    instrument manager or when either instrument's history of the named feature
    is empty, and otherwise reads `period` and returns the last value of the
    rolling correlation of the two histories over that window. The rolling
    correlation itself is supplied as a function; the instrument manager and
    its lookback store are plain values. */
module CrossInstrumentCorrelation {
  import opened Values

  /** What the computation can raise. */
  datatype FeatureError =
    | KeyError(key: string)                 // a parameter missing from featureParams
    | UnknownFeatureKey(feature: ParamValue) // no history stored under that feature name
    | ColumnKeyError(column: ParamValue)     // no column for that instrument in the history table
    | IndexError                             // taking the last element of an empty series

  /** An instrument known to the instrument manager. */
  datatype Instrument = Instrument(instrumentId: ParamValue, instrumentType: string)

  /** A history table of one feature: instrument id to its column of past values. */
  type FeatureDf = map<ParamValue, seq<real>>

  /** The lookback store of instrument features: feature name to its table. */
  datatype LookbackInstrumentFeatures = LookbackInstrumentFeatures(frames: map<ParamValue, FeatureDf>) {
    /** The history table of a feature; a name never written raises. */
    function GetFeatureDf(feature: ParamValue): (r: Result<FeatureDf, FeatureError>)
      ensures feature in frames <==> r.Success?
      ensures r.Success? ==> r.value == frames[feature]
      ensures r.Failure? ==> r.error == UnknownFeatureKey(feature)
    {
      if feature in frames then Success(frames[feature]) else Failure(UnknownFeatureKey(feature))
    }
  }

  /** The instrument manager, as far as this feature uses it. */
  datatype InstrumentManager = InstrumentManager(
    instruments: map<ParamValue, Instrument>,
    lookbackInstrumentFeatures: LookbackInstrumentFeatures)
  {
    /** The instrument with that id, or `None` when there is none (not an error). */
    function GetInstrument(instrumentId: ParamValue): (r: Option<Instrument>)
      ensures r.Some? <==> instrumentId in instruments
      ensures r.Some? ==> r.value == instruments[instrumentId]
    {
      if instrumentId in instruments then Some(instruments[instrumentId]) else None
    }
  }

  /** The rolling correlation: for a window (as given in the params) and two
      columns, the series of correlations. Its numerics are not modelled. */
  type RollingCorrelation = (ParamValue, seq<real>, seq<real>) -> seq<real>

  /** The three parameters read on every path are present. */
  predicate HasRequiredParams(featureParams: ConfigDict)
  {
    "featureName" in featureParams && "instrumentId1" in featureParams && "instrumentId2" in featureParams
  }

  /** Both referenced instruments are known to the manager. */
  predicate BothInstrumentsExist(featureParams: ConfigDict, instrumentManager: InstrumentManager)
    requires HasRequiredParams(featureParams)
  {
    && instrumentManager.GetInstrument(featureParams["instrumentId1"]).Some?
    && instrumentManager.GetInstrument(featureParams["instrumentId2"]).Some?
  }

  /** The computation gets as far as the rolling correlation: both instruments
      exist, the feature's table holds both columns and neither column is empty.
      Only on this path is `period` read. */
  predicate ReachesCorrelation(featureParams: ConfigDict, instrumentManager: InstrumentManager)
  {
    && HasRequiredParams(featureParams)
    && BothInstrumentsExist(featureParams, instrumentManager)
    && var df := instrumentManager.lookbackInstrumentFeatures.GetFeatureDf(featureParams["featureName"]);
    && df.Success?
    && featureParams["instrumentId1"] in df.value
    && featureParams["instrumentId2"] in df.value
    && |df.value[featureParams["instrumentId1"]]| >= 1
    && |df.value[featureParams["instrumentId2"]]| >= 1
  }

  /** The feature's value for the market at one update. The update number, the
      time, the feature key and the current market features are accepted and
      not used. The Python integer 0 returned on the default paths is 0.0 here. */
  function ComputeForMarket(
    updateNum: int, time: int, featureParams: ConfigDict, featureKey: string,
    currentMarketFeatures: map<string, real>, instrumentManager: InstrumentManager,
    rollingCorr: RollingCorrelation): (r: Result<real, FeatureError>)
    // The required parameters are read first, in this order, on every path.
    ensures "featureName" !in featureParams ==> r == Failure(KeyError("featureName"))
    ensures "featureName" in featureParams && "instrumentId1" !in featureParams ==>
              r == Failure(KeyError("instrumentId1"))
    ensures "featureName" in featureParams && "instrumentId1" in featureParams && "instrumentId2" !in featureParams ==>
              r == Failure(KeyError("instrumentId2"))
    // An unknown instrument gives 0, whichever of the two it is.
    ensures HasRequiredParams(featureParams) && !BothInstrumentsExist(featureParams, instrumentManager) ==>
              r == Success(0.0)
    // Both instruments exist: the history table and both columns must be there.
    ensures HasRequiredParams(featureParams) && BothInstrumentsExist(featureParams, instrumentManager) ==>
              var table := instrumentManager.lookbackInstrumentFeatures.frames;
              var feature := featureParams["featureName"];
              var id1, id2 := featureParams["instrumentId1"], featureParams["instrumentId2"];
              && (feature !in table ==> r == Failure(UnknownFeatureKey(feature)))
              && (feature in table && id1 !in table[feature] ==> r == Failure(ColumnKeyError(id1)))
              && (feature in table && id1 in table[feature] && id2 !in table[feature] ==>
                    r == Failure(ColumnKeyError(id2)))
              && (&& feature in table && id1 in table[feature] && id2 in table[feature]
                  && (|table[feature][id1]| == 0 || |table[feature][id2]| == 0)
                  ==> r == Success(0.0))
    // Only the correlation path reads `period`; its result is the last correlation.
    ensures ReachesCorrelation(featureParams, instrumentManager) ==>
              var df := instrumentManager.lookbackInstrumentFeatures.frames[featureParams["featureName"]];
              var x, y := df[featureParams["instrumentId1"]], df[featureParams["instrumentId2"]];
              && ("period" !in featureParams ==> r == Failure(KeyError("period")))
              && ("period" in featureParams ==>
                    var series := rollingCorr(featureParams["period"], x, y);
                    && (|series| == 0 ==> r == Failure(IndexError))
                    && (|series| > 0 ==> r == Success(series[|series| - 1])))
    // Off the correlation path, a result that is not an error is always 0.
    ensures r.Success? && !ReachesCorrelation(featureParams, instrumentManager) ==> r.value == 0.0
  {
    if "featureName" !in featureParams then Failure(KeyError("featureName"))
    else
      var feature := featureParams["featureName"];
      if "instrumentId1" !in featureParams then Failure(KeyError("instrumentId1"))
      else
        var instrumentId1 := featureParams["instrumentId1"];
        var instrument1 := instrumentManager.GetInstrument(instrumentId1);
        if "instrumentId2" !in featureParams then Failure(KeyError("instrumentId2"))
        else
          var instrumentId2 := featureParams["instrumentId2"];
          var instrument2 := instrumentManager.GetInstrument(instrumentId2);
          if instrument1.None? || instrument2.None? then Success(0.0)
          else
            var lookbackInstrumentFeatures := instrumentManager.lookbackInstrumentFeatures;
            match lookbackInstrumentFeatures.GetFeatureDf(feature)
            case Failure(e) => Failure(e)
            case Success(df) =>
              if instrumentId1 !in df then Failure(ColumnKeyError(instrumentId1))
              else
                var x := df[instrumentId1];
                if instrumentId2 !in df then Failure(ColumnKeyError(instrumentId2))
                else
                  var y := df[instrumentId2];
                  if |x| < 1 || |y| < 1 then Success(0.0)
                  else if "period" !in featureParams then Failure(KeyError("period"))
                  else
                    var series := rollingCorr(featureParams["period"], x, y);
                    if |series| == 0 then Failure(IndexError) else Success(series[|series| - 1])
  }

  /** A missing `featureName`, `instrumentId1` or `instrumentId2` raises
      whatever the instruments and their histories are, so also on the paths
      that would otherwise give 0. */
  lemma MissingRequiredParamAlwaysRaises(
    updateNum: int, time: int, featureParams: ConfigDict, featureKey: string,
    currentMarketFeatures: map<string, real>, instrumentManager: InstrumentManager,
    rollingCorr: RollingCorrelation)
    ensures !HasRequiredParams(featureParams) <==>
              ComputeForMarket(updateNum, time, featureParams, featureKey, currentMarketFeatures,
                               instrumentManager, rollingCorr).Failure?
              && ComputeForMarket(updateNum, time, featureParams, featureKey, currentMarketFeatures,
                                  instrumentManager, rollingCorr).error in
                   {KeyError("featureName"), KeyError("instrumentId1"), KeyError("instrumentId2")}
  {
  }

  /** When either instrument is unknown the result is 0 and does not depend on
      the lookback store: the store is never consulted. */
  lemma AbsentInstrumentIgnoresLookback(
    updateNum: int, time: int, featureParams: ConfigDict, featureKey: string,
    currentMarketFeatures: map<string, real>, instruments: map<ParamValue, Instrument>,
    store1: LookbackInstrumentFeatures, store2: LookbackInstrumentFeatures,
    rollingCorr: RollingCorrelation)
    requires HasRequiredParams(featureParams)
    requires featureParams["instrumentId1"] !in instruments || featureParams["instrumentId2"] !in instruments
    ensures ComputeForMarket(updateNum, time, featureParams, featureKey, currentMarketFeatures,
                             InstrumentManager(instruments, store1), rollingCorr) == Success(0.0)
    ensures ComputeForMarket(updateNum, time, featureParams, featureKey, currentMarketFeatures,
                             InstrumentManager(instruments, store1), rollingCorr)
         == ComputeForMarket(updateNum, time, featureParams, featureKey, currentMarketFeatures,
                             InstrumentManager(instruments, store2), rollingCorr)
  {
  }

  /** `period` matters only on the correlation path: removing it changes the
      outcome exactly when the computation gets that far. */
  lemma PeriodReadOnlyWhenCorrelating(
    updateNum: int, time: int, featureParams: ConfigDict, featureKey: string,
    currentMarketFeatures: map<string, real>, instrumentManager: InstrumentManager,
    rollingCorr: RollingCorrelation)
    requires "period" in featureParams
    ensures ComputeForMarket(updateNum, time, featureParams - {"period"}, featureKey, currentMarketFeatures,
                             instrumentManager, rollingCorr) == Failure(KeyError("period"))
        <==> ReachesCorrelation(featureParams, instrumentManager)
    ensures !ReachesCorrelation(featureParams, instrumentManager) ==>
              (ComputeForMarket(updateNum, time, featureParams - {"period"}, featureKey, currentMarketFeatures,
                                instrumentManager, rollingCorr)
               == ComputeForMarket(updateNum, time, featureParams, featureKey, currentMarketFeatures,
                                   instrumentManager, rollingCorr))
  {
  }

  /** The update number, the time, the feature key and the current market
      features do not influence the result. */
  lemma IgnoresUnusedArguments(
    updateNum1: int, time1: int, featureKey1: string, currentMarketFeatures1: map<string, real>,
    updateNum2: int, time2: int, featureKey2: string, currentMarketFeatures2: map<string, real>,
    featureParams: ConfigDict, instrumentManager: InstrumentManager, rollingCorr: RollingCorrelation)
    ensures ComputeForMarket(updateNum1, time1, featureParams, featureKey1, currentMarketFeatures1,
                             instrumentManager, rollingCorr)
         == ComputeForMarket(updateNum2, time2, featureParams, featureKey2, currentMarketFeatures2,
                             instrumentManager, rollingCorr)
  {
  }

  /** On the correlation path the two columns come from the one table named by
      `featureName`, in the order instrumentId1, instrumentId2: swapping the
      instrument ids swaps the arguments of the correlation. */
  lemma CorrelatesColumnsOfOneTable(
    updateNum: int, time: int, featureParams: ConfigDict, featureKey: string,
    currentMarketFeatures: map<string, real>, instrumentManager: InstrumentManager,
    rollingCorr: RollingCorrelation)
    requires ReachesCorrelation(featureParams, instrumentManager) && "period" in featureParams
    ensures
      var table := instrumentManager.lookbackInstrumentFeatures.frames[featureParams["featureName"]];
      var swapped := featureParams["instrumentId1" := featureParams["instrumentId2"]]
                                  ["instrumentId2" := featureParams["instrumentId1"]];
      var series := rollingCorr(featureParams["period"],
                                table[featureParams["instrumentId2"]], table[featureParams["instrumentId1"]]);
      ComputeForMarket(updateNum, time, swapped, featureKey, currentMarketFeatures, instrumentManager, rollingCorr)
        == if |series| == 0 then Failure(IndexError) else Success(series[|series| - 1])
  {
  }
}
