/** The configuration object of a backtest run.

    A run is configured by subclassing `TradingSystemParameters` and overriding
    some of its hook methods. Here the subclass is described by an `Overrides`
    value: each hook is `Some(v)` when the subclass overrides it to return `v`,
    and `None` when the base class's default applies. The constructor turns the
    feature-config dictionaries returned by the hooks into config records, once;
    the two getters then only read the stored tables. */
module TradingSystemParameters {
  import opened Values

  /** The instrument types are strings such as the stock, future and option
      constants; any string may be used as a key by a subclass. */
  type InstrumentType = string

  /** A config record for an instrument feature, built from its dictionary
      (`featureId`, optional `featureKey`, optional `params`). How the record
      reads the dictionary is not part of this model, so the record keeps it. */
  datatype InstrumentFeatureConfig = InstrumentFeatureConfig(configDict: ConfigDict)

  /** A config record for a market feature, built from its dictionary. */
  datatype MarketFeatureConfig = MarketFeatureConfig(configDict: ConfigDict)

  /** A data parser supplied by a subclass; its behaviour is outside the model. */
  datatype DataParser = DataParser(name: string)

  /** Raised by a hook that has no default. */
  datatype ParameterError = NotImplementedError

  /** What a subclass returns from each overridable hook; `None` means the hook
      is not overridden. The update frequency is a whole number of seconds. */
  datatype Overrides = Overrides(
    dataParser: Option<DataParser>,
    frequencyOfFeatureUpdatesSeconds: Option<int>,
    instrumentFeatureConfigDicts: Option<map<InstrumentType, seq<ConfigDict>>>,
    marketFeatureConfigDicts: Option<seq<ConfigDict>>,
    lookbackSize: Option<int>)

  /** The base class itself: no hook overridden. */
  const NoOverrides := Overrides(None, None, None, None, None)

  /** Default number of feature updates kept as history. */
  const DefaultLookbackSize := 500

  /** Default interval between feature updates, in seconds (one minute). */
  const DefaultFrequencyOfFeatureUpdatesSeconds := 60

  /** One instrument feature config per dictionary, in the same order. */
  function InstrumentConfigs(dicts: seq<ConfigDict>): (configs: seq<InstrumentFeatureConfig>)
    ensures |configs| == |dicts|
    ensures forall i :: 0 <= i < |dicts| ==> configs[i] == InstrumentFeatureConfig(dicts[i])
  {
    if dicts == [] then [] else [InstrumentFeatureConfig(dicts[0])] + InstrumentConfigs(dicts[1..])
  }

  /** One market feature config per dictionary, in the same order. */
  function MarketConfigs(dicts: seq<ConfigDict>): (configs: seq<MarketFeatureConfig>)
    ensures |configs| == |dicts|
    ensures forall i :: 0 <= i < |dicts| ==> configs[i] == MarketFeatureConfig(dicts[i])
  {
    if dicts == [] then [] else [MarketFeatureConfig(dicts[0])] + MarketConfigs(dicts[1..])
  }

  class TradingSystemParameters {
    /** The hooks as the subclass defines them. */
    const hooks: Overrides

    /** Instrument type to its feature configs. */
    var instrumentFeatureConfigs: map<InstrumentType, seq<InstrumentFeatureConfig>>

    /** The market feature configs, in declaration order. */
    var marketFeatureConfigs: seq<MarketFeatureConfig>

    /** The stored tables are the ones built from the hooks' dictionaries. */
    ghost predicate Valid()
      reads this
    {
      && instrumentFeatureConfigs.Keys == GetInstrumentFeatureConfigDicts().Keys
      && (forall t :: t in instrumentFeatureConfigs ==>
            instrumentFeatureConfigs[t] == InstrumentConfigs(GetInstrumentFeatureConfigDicts()[t]))
      && marketFeatureConfigs == MarketConfigs(GetMarketFeatureConfigDicts())
    }

    /** Builds the instrument table entry by entry, one entry per instrument
        type the hook returns, then the market config list. */
    constructor (hooks: Overrides)
      ensures this.hooks == hooks
      ensures Valid()
      ensures instrumentFeatureConfigs.Keys == GetInstrumentFeatureConfigDicts().Keys
    {
      this.hooks := hooks;
      instrumentFeatureConfigs := map[];
      marketFeatureConfigs := [];
      new;
      var dicts := GetInstrumentFeatureConfigDicts();
      var pending := dicts.Keys;
      while pending != {}
        invariant pending <= dicts.Keys
        invariant instrumentFeatureConfigs.Keys == dicts.Keys - pending
        invariant forall t :: t in instrumentFeatureConfigs ==>
                    instrumentFeatureConfigs[t] == InstrumentConfigs(dicts[t])
        decreases pending
      {
        var instrumentType :| instrumentType in pending;
        instrumentFeatureConfigs := instrumentFeatureConfigs[instrumentType := InstrumentConfigs(dicts[instrumentType])];
        pending := pending - {instrumentType};
      }
      marketFeatureConfigs := MarketConfigs(GetMarketFeatureConfigDicts());
    }

    /** The data parser hook has no default: unless overridden it raises. */
    function GetDataParser(): (r: Result<DataParser, ParameterError>)
      ensures hooks.dataParser.None? <==> r == Failure(NotImplementedError)
      ensures hooks.dataParser.Some? ==> r == Success(hooks.dataParser.value)
    {
      match hooks.dataParser
      case None => Failure(NotImplementedError)
      case Some(parser) => Success(parser)
    }

    /** Seconds between feature updates: 60 unless overridden. */
    function GetFrequencyOfFeatureUpdates(): (seconds: int)
      ensures hooks.frequencyOfFeatureUpdatesSeconds.None? ==> seconds == 60
      ensures hooks.frequencyOfFeatureUpdatesSeconds.Some? ==>
                seconds == hooks.frequencyOfFeatureUpdatesSeconds.value
    {
      match hooks.frequencyOfFeatureUpdatesSeconds
      case None => DefaultFrequencyOfFeatureUpdatesSeconds
      case Some(s) => s
    }

    /** Instrument type to config dictionaries: empty unless overridden. */
    function GetInstrumentFeatureConfigDicts(): (dicts: map<InstrumentType, seq<ConfigDict>>)
      ensures hooks.instrumentFeatureConfigDicts.None? ==> dicts == map[]
      ensures hooks.instrumentFeatureConfigDicts.Some? ==>
                dicts == hooks.instrumentFeatureConfigDicts.value
    {
      match hooks.instrumentFeatureConfigDicts
      case None => map[]
      case Some(d) => d
    }

    /** Market feature config dictionaries: empty unless overridden. */
    function GetMarketFeatureConfigDicts(): (dicts: seq<ConfigDict>)
      ensures hooks.marketFeatureConfigDicts.None? ==> dicts == []
      ensures hooks.marketFeatureConfigDicts.Some? ==> dicts == hooks.marketFeatureConfigDicts.value
    {
      match hooks.marketFeatureConfigDicts
      case None => []
      case Some(d) => d
    }

    /** Number of feature updates kept as history: 500 unless overridden. */
    function GetLookbackSize(): (size: int)
      ensures hooks.lookbackSize.None? ==> size == 500
      ensures hooks.lookbackSize.Some? ==> size == hooks.lookbackSize.value
    {
      match hooks.lookbackSize
      case None => DefaultLookbackSize
      case Some(n) => n
    }

    /** The feature configs for an instrument type: one per dictionary the hook
        gave for that type, in order; none for a type the hook does not name. */
    function GetFeatureConfigsForInstrumentType(instrumentType: InstrumentType): (configs: seq<InstrumentFeatureConfig>)
      reads this
      requires Valid()
      ensures instrumentType !in GetInstrumentFeatureConfigDicts() ==> configs == []
      ensures instrumentType in GetInstrumentFeatureConfigDicts() ==>
                && |configs| == |GetInstrumentFeatureConfigDicts()[instrumentType]|
                && forall i :: 0 <= i < |configs| ==>
                     configs[i] == InstrumentFeatureConfig(GetInstrumentFeatureConfigDicts()[instrumentType][i])
    {
      if instrumentType in instrumentFeatureConfigs then instrumentFeatureConfigs[instrumentType] else []
    }

    /** The market feature configs: one per market dictionary, in order. */
    function GetMarketFeatureConfigs(): (configs: seq<MarketFeatureConfig>)
      reads this
      requires Valid()
      ensures |configs| == |GetMarketFeatureConfigDicts()|
      ensures forall i :: 0 <= i < |configs| ==>
                configs[i] == MarketFeatureConfig(GetMarketFeatureConfigDicts()[i])
    {
      marketFeatureConfigs
    }
  }

  /** With no hook overridden, every instrument type has no feature configs,
      there are no market feature configs, 500 updates are kept, features are
      updated every 60 seconds and asking for the data parser raises. */
  lemma DefaultsGiveNoFeatures(p: TradingSystemParameters)
    requires p.Valid() && p.hooks == NoOverrides
    ensures forall t :: p.GetFeatureConfigsForInstrumentType(t) == []
    ensures p.GetMarketFeatureConfigs() == []
    ensures p.GetLookbackSize() == 500 && p.GetFrequencyOfFeatureUpdates() == 60
    ensures p.GetDataParser() == Failure(NotImplementedError)
  {
  }

  /** Building the parameters from any hooks and then looking up an instrument
      type gives exactly the configs built from that type's dictionaries, or
      nothing for an unknown type; the market configs follow the market hook. */
  lemma LookupAfterConstruction(p: TradingSystemParameters, t: InstrumentType)
    requires p.Valid()
    ensures p.GetFeatureConfigsForInstrumentType(t) ==
              if t in p.GetInstrumentFeatureConfigDicts()
              then InstrumentConfigs(p.GetInstrumentFeatureConfigDicts()[t])
              else []
    ensures p.GetMarketFeatureConfigs() == MarketConfigs(p.GetMarketFeatureConfigDicts())
  {
  }
}
