# SMC strategy backtester — a Dafny model

This project models the core of a browser-based backtester for "smart money
concepts" (SMC) trading strategies. It covers five things:

- **Detectors.** Market structure shift, order block, fair value gap,
  breaker block and liquidity sweep. Each one reads a price series at an
  index and may propose a long or short entry. The stop is placed at a
  structural level, and the take-profit at twice the stop distance.
- **Resolver.** It settles an opened trade by scanning the points after its
  entry. The first touch of the take-profit wins; the first touch of the
  stop loses. If neither is touched, the last point decides the outcome,
  unless the last price stays within a tenth of the stop distance of the
  entry; then the trade stays pending.
- **Simulation driver.** It walks the series from index 15, while at least
  five points remain after the current one. It opens at most 30 trades,
  drops pending ones, and skips five points after every trade it keeps.
  When fetching fails, `getMarketData` falls back to a flat series, also
  modelled.
- **Mock data window.** `fetchMockPriceData` chooses a window of a stored
  template series, moves it in time to end at the user's end time, and
  filters it to the requested range. When nothing can be taken, it falls
  back to emergency data. The bar length of each timeframe is modelled too.
- **User interface arithmetic.**
  - the statistics panel: win rate, gross profit and loss, averages, profit
    factor;
  - the date-range checks and point-count limits of `runTest`;
  - the lookback-duration formatter and the start-time clamp of the control
    panel;
  - the price-decimals lookup.

Prices are mathematical reals and must be positive, because the detectors
divide by them. Timestamps are integers in milliseconds.

The detectors are specified as functions (`Detectors.Detect` and one
function per detector). Each step that the source runs as a loop is a
method proved equal to its function:

- the order-block backward search;
- the forward scan;
- the driver loop;
- the data-window steps;
- the duration formatter.

The properties are proved as lemmas about those functions:

- **Signal shape.** Every signal enters at the current point, is bracketed
  by its stop and target, and keeps risk:reward 2.
- **Causality.** Four detectors are causal.
- **Order-block look-ahead.** A concrete counterexample shows the order
  block is not causal.
- **Resolution.** A trade settles at the first touch; a kept trade's profit
  agrees with its outcome.
- **Driver.** The output is capped at 30 trades and entries are spaced at
  least six points apart. The scan misses no trade it could take. Trades
  come out in entry order. A flat or fallback series yields no trade.
- **Data window.** The window never holds more points than requested. A
  window taken from a non-empty template selection stays inside the
  requested time range; emergency data ends at the user's end time but
  ignores an explicit start. The final trim never cuts anything.
- **Statistics.** They add up on a simulation's output.
- **Run planning.** It keeps within 90 days and 1000 points.
- **Formatting.** The formatter's text reads back to the numbers it prints,
  and the minute fallbacks can never show.

Two details of the order-block detector are modelled as the code has them.
It reads points after the current index: the confirming move after a
candidate candle is looked for in the three points that follow it, so a
candidate just before index `i` is confirmed by points up to `i + 2`
(services/simulationService.ts:110). `DetectorFacts.OrderBlockReadsAhead`
exhibits two series that agree up to index 15 yet disagree about the signal
at 15. The confirming move must be strictly more than 0.3%.

## Model

| member | source | states |
|---|---|---|
| `Types.PriceDecimals` | types.ts:122-144 | Five decimals exactly for the two currency pairs and two for every other instrument; the fallback arm (3 for JPY, else 4) cannot be reached |
| `Series.MaxPrice` | services/simulationService.ts:54 | The window maximum is at least every price in the window |
| `Series.MinPrice` | services/simulationService.ts:55 | The window minimum is at most every price in the window |
| `Series.MaxPriceAttained` | services/simulationService.ts:238 | Some point of the window carries the maximum, as `Math.max` over a non-empty slice does |
| `Series.MinPriceAttained` | services/simulationService.ts:239 | Some point of the window carries the minimum |
| `Series.MaxDependsOnWindowOnly` | services/simulationService.ts:303 | The maximum depends only on the prices inside the window |
| `Series.MinDependsOnWindowOnly` | services/simulationService.ts:304 | The minimum depends only on the prices inside the window |
| `Detectors.ObCandle` | services/simulationService.ts:107-118 | The order-block candle is the highest index in the last ten with a pull-back and a confirming move after it; when none is found, no index in range qualifies |
| `Detectors.FindOrderBlockCandle` | services/simulationService.ts:106-118 | The backward search loop returns that candle's index, or -1 when there is none |
| `Detectors.DetectOrderBlockSide` | services/simulationService.ts:97-181 | One side of the order block (momentum test, backward search, retest of the ±0.1% zone) gives the side's specified signal |
| `Detectors.DetectOrderBlock` | services/simulationService.ts:89-183 | The bullish side runs first and a bearish match overwrites it |
| `Detectors.DetectSignal` | services/simulationService.ts:58-333 | The strategy switch gives the selected detector's signal |
| `DetectorFacts.MarketStructureShiftWellFormed` | services/simulationService.ts:59-87 | A shift signal enters at the current point, is bracketed by stop and target, and has its target at twice the stop distance |
| `DetectorFacts.ObSideWellFormed` | services/simulationService.ts:89-183 | The same for either order-block side |
| `DetectorFacts.FairValueGapWellFormed` | services/simulationService.ts:185-228 | The same for the fair-value-gap signal |
| `DetectorFacts.BreakerBlockWellFormed` | services/simulationService.ts:230-293 | The same for the breaker signal |
| `DetectorFacts.LiquiditySweepWellFormed` | services/simulationService.ts:295-330 | The same for the sweep signal |
| `DetectorFacts.DetectedSignalWellFormed` | services/simulationService.ts:336-338 | Every detector's signal already passes the driver's sanity check |
| `DetectorFacts.LiquiditySweepStopAtSweepCandle` | services/simulationService.ts:305-326 | The sweep stop is exactly the sweep candle's price; the signal is short exactly when that candle broke the previous high |
| `DetectorFacts.MarketStructureShiftStopAtSwing` | services/simulationService.ts:60-81 | The shift stop is the ten-point swing low for a long and the swing high for a short |
| `DetectorFacts.BreakerSwingIndexAlwaysFound` | services/simulationService.ts:242-252 | The `findIndex(...) > -1` guards of the breaker always hold |
| `DetectorFacts.DetectorIsCausal` | services/simulationService.ts:44 | Shift, gap, breaker and sweep give the same answer on two series that agree up to the current index |
| `DetectorFacts.MarketStructureShiftIsCausal` | services/simulationService.ts:59-87 | The shift detector only reads points up to the current index |
| `DetectorFacts.MarketStructureShiftFromInputs` | services/simulationService.ts:51-62 | The shift signal depends only on the current, previous and 15-back points and on the swing extremes |
| `DetectorFacts.FairValueGapIsCausal` | services/simulationService.ts:185-228 | The gap detector only reads the last three points |
| `DetectorFacts.LiquiditySweepIsCausal` | services/simulationService.ts:295-330 | The sweep detector only reads points up to the current index |
| `DetectorFacts.LiquiditySweepFromInputs` | services/simulationService.ts:300-308 | The sweep signal depends only on the last two points and the extremes of the ten before them |
| `DetectorFacts.BreakerBlockIsCausal` | services/simulationService.ts:230-293 | The breaker detector only reads points up to the current index |
| `DetectorFacts.BreakerBlockFromInputs` | services/simulationService.ts:235-275 | The breaker signal depends only on the current point and four window extremes |
| `DetectorFacts.FlatObSide` | services/simulationService.ts:98-102 | On a flat series the order block never sees a 0.4% move and stays silent |
| `DetectorFacts.FlatBreaker` | services/simulationService.ts:248-275 | On a flat series nothing breaks a swing extreme and the breaker stays silent |
| `DetectorFacts.FlatSeriesNoSignal` | services/simulationService.ts:58-333 | No detector fires on a series at one constant price |
| `DetectorFacts.OrderBlockReadsAhead` | services/simulationService.ts:110-111 | Two series equal up to index 15 give an order-block signal at 15 and none: the confirmation reads points after the current index |
| `Resolver.ScanFrom` | services/simulationService.ts:350-385 | The scan never changes the trade's levels, direction or profit; with points left it always records an exit |
| `Resolver.WithProfit` | services/simulationService.ts:387-389 | Profit is exit minus entry for a long and entry minus exit for a short, set only when there is an exit |
| `Resolver.ResolveTrade` | services/simulationService.ts:350-389 | The forward loop with its breaks, and the profit step, give the specified resolution |
| `Resolver.ScanStopsAtFirstTouch` | services/simulationService.ts:350-378 | The scan stops at the first point touching a level; the take-profit wins a tie |
| `Resolver.ScanWithoutTouch` | services/simulationService.ts:379-384 | With no touch, the last point closes the trade by the end-of-series rule |
| `Resolver.ResolutionAtFirstTouch` | services/simulationService.ts:350-378 | A trade settles at its first touching point, exiting at the touched level with that level's outcome |
| `Resolver.ResolutionWithoutTouch` | services/simulationService.ts:379-384 | An untouched trade exits at the last point's price and time with the end-of-series outcome |
| `Resolver.ResolutionAtLastPoint` | services/simulationService.ts:350-389 | A trade opened at the last point has nothing to scan and stays as opened |
| `Resolver.SettledProfitMatchesOutcome` | services/simulationService.ts:350-389 | A bracketed trade with a later point settles so that a win earns at most the target distance, a loss loses at most the stop distance, and a pending trade is within a tenth of the stop distance |
| `Resolver.ResolutionExitsLater` | services/simulationService.ts:350-384 | The exit time is that of a point after the entry |
| `Simulation.SettleSignal` | services/simulationService.ts:336-394 | The sanity check, forward scan and pending test give the specified acceptance |
| `Simulation.RunFrom` | services/simulationService.ts:42-397 | The driver only ever appends to its trade log |
| `Simulation.TryIndex` | services/simulationService.ts:42-336 | One loop pass yields the offer at that index while fewer than 30 trades exist, else nothing |
| `Simulation.GenerateSimulatedTrades` | services/simulationService.ts:34-399 | The driver loop returns exactly the specified trades |
| `Simulation.OfferIsAccepted` | services/simulationService.ts:336-394 | A trade the driver would keep enters at the current point, is bracketed at risk:reward 2, is not pending, and its profit matches its outcome |
| `Simulation.AllOffersValid` | services/simulationService.ts:336-394 | The same holds at every index |
| `Simulation.AppendFillValid` | services/simulationService.ts:391-394 | Taking a valid offer six or more indices after the last fill, below the cap of 30, keeps the log valid |
| `Simulation.RunFromValid` | services/simulationService.ts:42-394 | The loop keeps the log within 30 entries, valid, and spaced at least six indices apart |
| `Simulation.SimulationFillsValid` | services/simulationService.ts:34-399 | The output holds at most 30 valid trades, each with five points after its entry and at least six points from the next |
| `Simulation.ShortSeriesHasNoTrades` | services/simulationService.ts:36-42 | A series of at most 20 points yields no trade |
| `Simulation.RunFromComplete` | services/simulationService.ts:42-394 | An index the loop can take is an entry, within the five points skipped after one, or the log is full |
| `Simulation.SimulationIsComplete` | services/simulationService.ts:42-394 | Every index with a keepable trade is taken, skipped by the cooldown, or met after the cap of 30 |
| `Simulation.RunFromTakesOffers` | services/simulationService.ts:42-394 | The loop only ever records, at an index, the offer made at that index |
| `Simulation.SimulationTakesOffers` | services/simulationService.ts:42-394 | Each kept trade, from index 15 on, is exactly what the loop body produces at its entry index |
| `Simulation.SimulatedTradesInEntryOrder` | services/simulationService.ts:42-392 | On a series in time order the trades come out in entry-time order |
| `Simulation.FlatSeriesHasNoTrades` | services/simulationService.ts:34-399 | A constant-price series yields no trade for any strategy |
| `Simulation.FallbackSeries` | services/simulationService.ts:20-25 | The fallback holds exactly the requested number of points |
| `Simulation.FallbackSeriesShape` | services/simulationService.ts:20-25 | The fallback is hourly at price 1, starts at the explicit start or ends at the user's end |
| `Simulation.FallbackSeriesHasNoTrades` | services/simulationService.ts:17-25 | The fallback series never yields a trade |
| `MockData.IntervalMs` | services/mockFinancialDataAPI.ts:13-23 | Every bar is a positive whole number of minutes, at most a day |
| `MockData.IntervalsNest` | services/mockFinancialDataAPI.ts:13-23 | Each timeframe's bar is a whole multiple of the next shorter one |
| `MockData.EmergencyData` | services/mockFinancialDataAPI.ts:182-186 | Emergency data holds exactly the requested number of points |
| `MockData.EmergencyDataShape` | services/mockFinancialDataAPI.ts:182-186 | Emergency data ends at the user's end and advances one interval per point |
| `MockData.FirstIndexAtOrAfter` | services/mockFinancialDataAPI.ts:205 | The first template index at or after the target time, or -1 when every point is earlier |
| `MockData.ExplicitStartIndex` | services/mockFinancialDataAPI.ts:202-208 | The window start stays inside the template |
| `MockData.TimeShifted` | services/mockFinancialDataAPI.ts:228-234 | The shift keeps the number of points |
| `MockData.Filter` | services/mockFinancialDataAPI.ts:238-241 | The kept points all pass the test and come from the input; every passing point is kept |
| `MockData.TrimToCount` | services/mockFinancialDataAPI.ts:249-257 | With an explicit start the first min(length, n) points are kept, otherwise the last min(length, n); without an explicit start a count of 0 keeps every point, as `slice(-0)` does |
| `MockData.FetchMockPriceData` | services/mockFinancialDataAPI.ts:188-257 | The steps with their reassignments give the specified window |
| `MockData.SelectionWithoutStart` | services/mockFinancialDataAPI.ts:212-216 | Without an explicit start the window is the latest min(n, template length) points |
| `MockData.SelectionWithStart` | services/mockFinancialDataAPI.ts:197-210 | With an explicit start the window begins at the first template point at or after the start, moved to the template clock, or else at the latest n points |
| `MockData.SelectionSize` | services/mockFinancialDataAPI.ts:194-216 | The window holds at most n points; it is empty exactly when the template is empty or n is 0 |
| `MockData.TimeShiftKeepsShape` | services/mockFinancialDataAPI.ts:228-234 | The shifted window ends at the user's end and keeps prices and the gaps between neighbours |
| `MockData.FetchedDataInRange` | services/mockFinancialDataAPI.ts:236-257 | A template window yields at most n points, none after the user's end and none before an explicit start |
| `MockData.TrimNeverCuts` | services/mockFinancialDataAPI.ts:243-257 | The final trim never removes a point |
| `MockData.EmptySelectionGivesEmergencyData` | services/mockFinancialDataAPI.ts:188-222 | An empty template or a request for zero points gives exactly n emergency points |
| `MockData.SortedTemplateKeepsWholeWindow` | services/mockFinancialDataAPI.ts:212-238 | For a template in time order and no explicit start, nothing is filtered out |
| `Results.CountOutcome` | components/ResultsDisplay.tsx:18-19 | The count is the number of times the outcome occurs among the trades' outcomes; it never exceeds the number of trades and is zero exactly when no trade has that outcome |
| `Results.GrossLoss` | components/ResultsDisplay.tsx:28 | The gross loss is never negative |
| `Results.WinRate` | components/ResultsDisplay.tsx:20 | With trades, the win rate times the total is 100 times the wins. It lies in 0..100, is 0 exactly when there are no trades or no wins, and is 100 when all trades win |
| `Results.ProfitFactorOf` | components/ResultsDisplay.tsx:33 | The factor is infinite exactly for profit without loss; otherwise it times the gross loss gives the gross profit, or it is 0 with no loss |
| `Results.Average` | components/ResultsDisplay.tsx:30-31 | An average times its count gives the sum; it is 0 for no items |
| `Results.ComputeStats` | components/ResultsDisplay.tsx:17-33 | Every figure is its own function of the trades: the counts of wins and losses, the win rate, the total, gross profit and gross loss, the averages as gross figures over counts, and the profit factor. Wins and losses stay within the total and the gross loss is non-negative |
| `Results.CountsPartition` | components/ResultsDisplay.tsx:17-19 | Wins, losses and pending trades make up all trades |
| `Results.TotalProfitSplits` | components/ResultsDisplay.tsx:22-28 | The total profit is the sum of the per-outcome profits |
| `Results.GrossLossIsNegatedLossProfit` | components/ResultsDisplay.tsx:28 | With no positive loss profit, the gross loss is the negated loss profit |
| `Results.GrossProfitPositive` | components/ResultsDisplay.tsx:27 | With positive win profits, any win makes the gross profit positive |
| `Results.SimulatedStats` | components/ResultsDisplay.tsx:17-33 | On a simulation's output: at most 30 trades, wins and losses make up all, total profit equals gross profit minus gross loss, and a win makes the gross profit positive |
| `SimulatorPage.EstimatedPoints` | pages/SimulatorPage.tsx:74 | The estimate is at least 1, and that many bars of the interval just cover the lookback |
| `SimulatorPage.PointsAreUnique` | pages/SimulatorPage.tsx:74-86 | Only one bar count covers a lookback that way |
| `SimulatorPage.LookbackStart` | pages/SimulatorPage.tsx:60-62 | The start after the cut is at most 90 days back, never earlier than the request, and equals the request when that is within 90 days |
| `SimulatorPage.PlanRun` | pages/SimulatorPage.tsx:54-87 | Each error happens exactly under its condition. A plan ends now and has 1 to 1000 points matching its lookback. A start more than 90 days back is moved to exactly 90 days back. If that start gives at most 1000 points it is kept; otherwise the start is 999 bars before now, with 1000 points |
| `ControlPanel.NatToString` | components/ControlPanel.tsx:34-37 | A number prints as a non-empty digit string that starts with 0 only for the number 0 |
| `ControlPanel.NatToStringRoundTrip` | components/ControlPanel.tsx:34-37 | Reading the printed digits back gives the number |
| `ControlPanel.NatToStringInjective` | components/ControlPanel.tsx:34-37 | Different numbers print differently |
| `ControlPanel.TrimStart` | components/ControlPanel.tsx:40-46 | Trimming the start leaves a suffix that does not start with a space |
| `ControlPanel.TrimEnd` | components/ControlPanel.tsx:40-46 | Trimming the end leaves a prefix that does not end with a space |
| `ControlPanel.FormatMillisecondsToDhms` | components/ControlPanel.tsx:22-47 | The floors, conditional appends, trim and fallback give the specified duration text |
| `ControlPanel.TrimBuiltText` | components/ControlPanel.tsx:32-46 | The built text is never empty after trimming; only the space after the days is dropped when the hours are omitted |
| `ControlPanel.DurationTextParts` | components/ControlPanel.tsx:25-38 | The text shows the whole hours below a day, otherwise whole days and the remaining hours, omitting zero hours |
| `ControlPanel.SubHourShowsZeroHours` | components/ControlPanel.tsx:40-44 | Anything under an hour, even under a minute, shows as "0 小時": the minute fallbacks never show |
| `ControlPanel.DurationTextIsTrimmed` | components/ControlPanel.tsx:40-46 | The text is never empty and has no surrounding spaces |
| `ControlPanel.ClampStartTimestamp` | components/ControlPanel.tsx:95-101 | Below the minimum gives the minimum, above the maximum the maximum, otherwise unchanged; within the bounds when they are ordered |

## Left out

- **Asynchrony, React state and messages.** Promises, `setTimeout`, React
  state and effects, console warnings and user-facing message strings are
  left out. The model is synchronous, and its results are returned values.
- **Current time.** `runTest` reads the clock; the model takes the current
  time as a parameter (`SimulatorPage.PlanRun`).
- **Store contents.** The random generators that fill the mock data store
  (services/mockFinancialDataAPI.ts:27-162) are left out. The template series
  is an input of `MockData.FetchMockPriceData`.
- **Emergency prices.** The random emergency prices and their rounding with
  `toFixed` are a price function parameter.
- **The reject path.** The rejection for an instrument without a store entry
  (services/mockFinancialDataAPI.ts:174-177) is left out, because every
  instrument has one. Nothing connects the fetch to the fallback of
  `getMarketData`. `Simulation.FallbackSeries` models that fallback on its own.
- **Trade identity and text.** The trade `id` (built from the clock and a
  random number), the explanation text, `formatTimeForExplanation` and price
  formatting with `toFixed` are left out.
- **Number types.** Prices are exact reals, not IEEE doubles; no rounding is
  modelled. Positive prices are assumed, because the detectors divide by
  prices. The requested point count is a natural number.
- **Unused sorts.** The unused `recentHighs`/`recentLows` sorts
  (services/simulationService.ts:49-50) have no effect and are left out.
- **Always-true guards.** The detectors are specified for indices from 15,
  where the driver calls them. Their length guards always hold there and are
  left out (services/simulationService.ts:62, 91, 95, 236, 297, 301). The
  guard `i < 17` of the breaker (:232) is kept.
- **Unreachable fallback arms.** The `default` arms of `getPriceDecimals` and
  `getTimeframeIntervalMs` cannot be reached for the closed enumerations.
  They have no counterpart in the model.
- **runTest after planning.** `runTest`'s work after planning (fetching,
  re-counting, running the driver, setting messages) is not modelled beyond
  the pieces modelled on their own.
- **ResultsDisplay.** For an empty trade list the source shows a notice
  instead of statistics. `Results.ComputeStats` computes the figures for
  every list, with all counts 0. The rendering of the table is left out.
- **ControlPanel.** The `datetime-local` parsing and formatting, and the
  period display, are left out. `ControlPanel.Trim` removes spaces only, the
  only whitespace the formatter produces.
- **Order-block causality.** No causality is claimed for the order block. It
  reads later points, as `DetectorFacts.OrderBlockReadsAhead` shows.
- **The final trim.** The trim branch of `fetchMockPriceData`
  (services/mockFinancialDataAPI.ts:249-257) is modelled as written,
  including JavaScript's `slice(-0)`, which keeps every point when the count
  is 0 and there is no explicit start. `MockData.TrimNeverCuts` shows that
  the trim never removes anything, and a count of 0 never reaches it, since
  it leaves the template selection empty and emergency data is returned.
- `MockData.Filter`: its contract states which points are kept, not that
  their order is preserved. The order is given by its definition, and
  `MockData.FilterKeepsAll` covers the case where every point passes.
