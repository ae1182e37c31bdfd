# Backtester feature configuration and cross-instrument correlation, in Dafny

This project models two pieces of the auquantoolbox backtester.

- `TradingSystemParameters` (module `TradingSystemParameters`) is the object a
  user subclasses to configure a backtest run. Its hook methods supply:
  - the feature-config dictionaries per instrument type and for the market,
  - the lookback size,
  - the feature-update frequency,
  - the data parser.

  Each hook the subclass does not override keeps its default: no instrument
  features, no market features, 500 updates of history, one update every 60
  seconds, and a data parser that raises `NotImplementedError`. In the model a
  subclass is an `Overrides` value. Each hook is `Some(v)` when overridden and
  `None` when the default applies. The constructor fills the instrument table
  one instrument type at a time. Each entry holds one config record per
  dictionary, in order. The constructor then builds the market config list.
  The two getters are functions, so they cannot change the stored tables.
- `MovingInstrumentCorrelationFeature.computeForMarket` (module
  `CrossInstrumentCorrelation`) is a pure decision procedure. It reads the
  `featureName`, `instrumentId1` and `instrumentId2` parameters, in that order.
  It returns 0 when either instrument is unknown. Otherwise it takes both
  instruments' columns from the one history table named by `featureName`. It
  returns 0 when either column is empty. Otherwise it reads `period` and
  returns the last value of the rolling correlation. The rolling correlation is
  passed in as a function. The instrument manager and its lookback store are
  plain values: a map of instruments, and a map from feature name to a table
  that maps instrument id to a column.

Files: `values.dfy` (shared `Option`, `Result`, parameter values),
`trading_system_parameters.dfy`, `crossinstrument_correlation_feature.dfy`.

The code reads `period` only on the path that computes the correlation
(backtester/features/crossInstrument_correlation_feature.py:22). So a missing
`period` is not an error when an instrument is unknown or a column is empty
(`PeriodReadOnlyWhenCorrelating`).

## Model

| member | source | states |
|---|---|---|
| `TradingSystemParameters.InstrumentConfigs` | backtester/trading_system_parameters.py:15 | one instrument feature config per dictionary, same length, the i-th built from the i-th dictionary |
| `TradingSystemParameters.MarketConfigs` | backtester/trading_system_parameters.py:16 | one market feature config per dictionary, same length, the i-th built from the i-th dictionary |
| `TradingSystemParameters.TradingSystemParameters.constructor` | backtester/trading_system_parameters.py:11-16 | after construction the table's key set equals the key set of the instrument-config hook, each entry is the configs of that type's dictionaries, and the market list is built from the market hook (the object invariant `Valid`) |
| `TradingSystemParameters.TradingSystemParameters.GetDataParser` | backtester/trading_system_parameters.py:25-27 | raises `NotImplementedError` exactly when the hook is not overridden, else gives the overriding parser |
| `TradingSystemParameters.TradingSystemParameters.GetFrequencyOfFeatureUpdates` | backtester/trading_system_parameters.py:35-36 | 60 seconds unless overridden |
| `TradingSystemParameters.TradingSystemParameters.GetInstrumentFeatureConfigDicts` | backtester/trading_system_parameters.py:63-64 | the empty dictionary unless overridden |
| `TradingSystemParameters.TradingSystemParameters.GetMarketFeatureConfigDicts` | backtester/trading_system_parameters.py:73-74 | the empty list unless overridden |
| `TradingSystemParameters.TradingSystemParameters.GetLookbackSize` | backtester/trading_system_parameters.py:108-109 | 500 unless overridden |
| `TradingSystemParameters.TradingSystemParameters.GetFeatureConfigsForInstrumentType` | backtester/trading_system_parameters.py:115-119 | for a type the hook does not name, the empty sequence; for a named type, exactly one config per dictionary supplied for it, in the same order; reads the object and changes nothing |
| `TradingSystemParameters.TradingSystemParameters.GetMarketFeatureConfigs` | backtester/trading_system_parameters.py:121-122 | one config per market dictionary, in the hook's order; reads the object and changes nothing |
| `TradingSystemParameters.DefaultsGiveNoFeatures` | backtester/trading_system_parameters.py:63-74 | with no hook overridden, every instrument-type lookup is empty, the market list is empty, the lookback size is 500, the frequency 60 s and the data parser raises |
| `TradingSystemParameters.LookupAfterConstruction` | backtester/trading_system_parameters.py:12-16 | a lookup after construction gives exactly the configs built from that type's dictionaries, or none for an unknown type; the market list is exactly the configs built from the market dictionaries |
| `CrossInstrumentCorrelation.LookbackInstrumentFeatures.GetFeatureDf` | backtester/features/crossInstrument_correlation_feature.py:16-18 | the history table of a feature name; a name never written raises `UnknownFeatureKey` |
| `CrossInstrumentCorrelation.InstrumentManager.GetInstrument` | backtester/features/crossInstrument_correlation_feature.py:10-12 | the instrument with that id, or absence (not an error) when there is none |
| `CrossInstrumentCorrelation.ComputeForMarket` | backtester/features/crossInstrument_correlation_feature.py:7-22 | a missing `featureName`, `instrumentId1`, `instrumentId2` raises `KeyError` in that order; an unknown instrument (either one) gives 0; then a missing table or column raises; an empty column gives 0; then a missing `period` raises; otherwise the result is the last element of the correlation of the two columns; any non-error result off the correlation path is 0 |
| `CrossInstrumentCorrelation.MissingRequiredParamAlwaysRaises` | backtester/features/crossInstrument_correlation_feature.py:8-12 | the result is a `KeyError` for one of the three required keys if and only if one of them is missing, whatever the instruments and histories |
| `CrossInstrumentCorrelation.AbsentInstrumentIgnoresLookback` | backtester/features/crossInstrument_correlation_feature.py:13-16 | if either instrument is absent the result is 0 and is the same for any two lookback stores: the store is not consulted |
| `CrossInstrumentCorrelation.PeriodReadOnlyWhenCorrelating` | backtester/features/crossInstrument_correlation_feature.py:13-22 | removing `period` makes the computation raise `KeyError("period")` if and only if it reaches the correlation; off that path the result is unchanged |
| `CrossInstrumentCorrelation.IgnoresUnusedArguments` | backtester/features/crossInstrument_correlation_feature.py:7-22 | the result is the same for any `updateNum`, `time`, `featureKey` and `currentMarketFeatures` |
| `CrossInstrumentCorrelation.CorrelatesColumnsOfOneTable` | backtester/features/crossInstrument_correlation_feature.py:16-22 | on the correlation path, both columns come from the one table named by `featureName`; swapping the two instrument ids swaps the arguments of the correlation |

## Left out

- The rolling-correlation numerics (`rolling(period).corr`) are not modelled. They are floating-point library code, including the NaN values for windows shorter than `period` and the error pandas raises for an invalid window. They are a function-valued parameter. Taking the last element of an empty series is modelled as `IndexError`. With pandas the series has the length of the first column, so that case does not arise there.
- The numeric type: the Python integer 0 returned on the default paths and the float correlation are both `real` here.
- `getExecutionSystem` and `getOrderPlacer` are not modelled. They construct objects whose code is not part of this model.
- `getPrediction` is not modelled. It is a user hook that returns 0.0.
- `timedelta` is not modelled. The update frequency is a whole number of seconds.
- On Python 3, `map` at lines 15-16 returns a one-shot iterator. The model stores finite sequences, so a second read sees the same configs.
- Python iterates the instrument-type dictionary in insertion order. The model iterates the key set in an unspecified order. The resulting table is the same, because it is a dictionary.
- `InstrumentFeatureConfig` and `MarketFeatureConfig` are not part of this model. Each is a record that keeps the dictionary it was built from. This is a choice of representation. The real records read `featureId`, an optional `featureKey` that falls back to `featureId`, and optional `params`, so two different dictionaries may give equal configs. The model promises one config per dictionary, in order, and nothing about reading the dictionary back.
- A history table is a map from instrument id to a column, so the model admits columns of different lengths. The source takes both columns from one DataFrame, which gives them the same index and length. Tables with columns of different lengths exist only in the model.
- The instrument manager, the lookback store and the feature manager are not part of this model beyond the two lookups the feature uses. Their histories are given as finite maps.
- The test file for the lower Bollinger band feature is not modelled. The feature it tests is not part of this model.
- The unreachable `return None` after `raise NotImplementedError` in `getDataParser` has no counterpart.
