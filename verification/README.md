# Verified models of the trading platform's simulators and safety components

These Dafny modules model the platform's event-driven backtests, its streaming and resumable data
pipelines, its caches, and its stateful risk, news and supervision components, and prove what each of
them keeps over every input or every run. Prices, money, R-multiples and scores are `real`; bar indices,
days and clock readings are `int`. A clock reading is a parameter of the step that takes it, and clocks
never run backwards. Code that changes state step by step is a class or a loop with invariants, proved
against a function on values; the properties are lemmas about those functions.

| file | models |
|---|---|
| `Core.dfy`, `Bars.dfy` | options, sums, per-day books, bounded products; bars, sides and touch tests |
| `ExitReplay.dfy` | the partial / breakeven / target exit machine that replays a trade in R |
| `ProfessionalBacktest.dfy` | the separately written cash version of the same machine, sizing, gates, journal and equity |
| `Discovery.dfy` | the two cursor simulators of strategy discovery, proved alike and free of look-ahead |
| `ModelBacktest.dfy` | the model backtest and its risk limits over whole runs |
| `TripleBarrier.dfy` | first-touch labels |
| `MinuteAggregation.dfy` | one-pass minute aggregation, re-aggregation, and loading several files |
| `HistoryDownload.dfy` | the append-then-checkpoint download with crashes and restarts |
| `Mistakes.dfy` | the mistake patterns' store, the analyzer's cache, and its penalties |
| `NewsGate.dfy` | the cached news gate against a live calendar |
| `SlidingWindow.dfy`, `HftRisk.dfy`, `ServiceManager.dfy` | pruned windows, order rates, the circuit breaker, service restarts |
| `CrisisDetector.dfy`, `GeopoliticalRisk.dfy` | crises raised, followed and escalated; regional scores, decay and alerts |
| `StopManager.dfy`, `MarketHours.dfy` | trailing stops; open tests and next openings |
| `KillSwitch.dfy`, `RiskEngine.dfy` | the latch and its audit trail; signal validation with drawdown and daily limits |
| `Drawdown.dfy` | running-peak drawdown, equity curves, and reshuffled trades |

## Where the code differs from what is said about it

The models follow the code. These differences are proved, with the exact condition where one is named.

- A professional backtest trade that ends with the data keeps its exit at its entry bar, so the run goes
  on inside it: a trade opens while an earlier position is still held exactly when no bar ever ends that
  position (`ProfessionalBacktest.OverlapOnlyAfterDataEnd`, with a run in `OverlapHappens`).
- Whatever the replay of a trade will earn, the professional backtest reports the replayed R exactly when there is
  no commission and the leverage cap does not bind (`ProfessionalBacktest.ReportedRIsReplayed`, with a trade in
  `ProfessionalBacktest.LeverageShrinksR`).
- `run_spec` skips weekend entry bars and `run_market_spec` skips wide spreads; with equal fixed costs they
  plan the same trade exactly when these two filters agree (`Discovery.SimulatorsPlanAlike`), and have the same
  candidates, and so the same run, exactly when they agree on every cursor (`Discovery.SimulatorsRunAlike`).
- Loading several minute files keeps the last record of a bucket, so a bucket split over files loses the
  earlier part: loading is a group-by exactly when only one file has minutes of the bucket
  (`MinuteAggregation.LoadIsGroupByIffUnsplit`, with two files in `MinuteAggregation.SplitBucketLosesAFile`).
- Right-closed resampling of raw minutes differs from the loader's buckets exactly on boundary minutes
  (`MinuteAggregation.ConventionsDifferOnBoundaries`).
- The download does not resume from every crash: one between truncating and writing the checkpoint leaves a
  file that stops every later launch (`HistoryDownload.TornIsReachable`, `HistoryDownload.TornIsForever`).
  After any run a missing minute can still be stored exactly while the checkpoint is readable
  (`HistoryDownload.ResumesIffReadable`).
- A resolved mistake pattern is said to return when five losses recur. Detection counts all losses of its
  window, also those from before the resolution: it keeps the rule exactly unless the window holds five
  losses of which fewer than five are new (`Mistakes.ResolvedPatternReturns`, with a list of losses in
  `Mistakes.OldLossesReviveIt`).
- The news gate sees an event up to one check interval, less a tick, late (`NewsGate.SlackIsTight`), and a
  later provider's duplicate can silence a high-impact event (`NewsGate.LastDuplicateDecides`).
- Re-enabling high-frequency trading forgets no activation, although it resets the reported count
  (`HftRisk.ReEnablingForgetsNothing`, `HftRisk.HftRiskManager.ReEnableHft`).
- A service marked FAILED can run again, because a handler that wakes up does not look at the status: it
  starts again exactly when a start is begun or a handler that had gone to sleep wakes
  (`ServiceManager.FailedStartsAgain`, with a run in `ServiceManager.FailedIsNotFinal`).
- Crises take sentiments of -0.7 and below, where the documentation says below -0.7: the two differ exactly on
  high-impact articles at -0.7 (`CrisisDetector.ThresholdQualifies`, with a run in
  `CrisisDetector.ThresholdRaises`), and a crisis has only documented triggers exactly when none of them is at
  -0.7 (`CrisisDetector.TriggersAreDocumented`).
- A crisis keeps its region in lower case and compares it with the article's region as written: its own region's
  articles settle it exactly when one of them recovers or comes late and the region is written in lower case
  (`CrisisDetector.OwnRegionSettles`, with a run in `CrisisDetector.EuropeIsMissed`).
- The decay rate is said to be non-negative and its setter keeps it so, but the constructor does not: decay
  keeps factors in range exactly for rates that are not negative (`GeopoliticalRisk.DecayKeepsSound`, with a run
  in `GeopoliticalRisk.NegativeRateOverflows`).
- Regional alerts use the raw score and reports the rounded one: they differ exactly on [69.5, 70)
  (`GeopoliticalRisk.ReportedHighFromHalf`).
- The open tests leave the hours documented beside them exactly on Fridays, when forex is open for the minute from
  21:00 and gold for the hour from 23:00 (`MarketHours.HoursDepartOnFridays`). The class overview's hours for oil
  are others again (`MarketHours.OilDepartsFromOverview`).
- The drawdown monitor kills at 15% and above, where its list of checks says above 15%: the two differ exactly at
  the threshold (`RiskEngine.KillDepartsAtThreshold`).
- The running-peak drawdown is not always the deepest drop. At a point it covers every earlier point exactly
  when the point is not negative, or no earlier positive level differs from the peak
  (`Drawdown.CoveredIffFits`, `Drawdown.PointDrawdownIsDeepest`). The reported maximum is the maximum over all
  pairs exactly when no negative point has a positive level before it, or one of those that have drops at least as
  steeply from its least positive level as any other and has no other positive level before it
  (`Drawdown.MaxDrawdownIsDeepest`). `Drawdown.NegativeEquityDropsMore` is a curve that fails it.

## Model

| member | source | states |
|---|---|---|
| `ExitReplay.ReplayBars` | src/research/professional_diagnostics.py:179-229 | the bar loop pays exactly the fills of the declared path (first ending bar, partial before it) and stops on its bar with its reason |
| `ExitReplay.ReplayExit` | src/research/professional_diagnostics.py:154-229 | a replay is the declared outcome of policy and bars; a zero risk distance is reported as invalid |
| `ExitReplay.PathSumIsEarned` | src/research/professional_diagnostics.py:183-229 | the running sum of fills is R before cost minus cost per risk on the closed weight |
| `ExitReplay.CostIsLinear` | src/research/professional_diagnostics.py:183-229 | cost moves neither exit bar nor reason and enters R linearly through the fraction closed |
| `ExitReplay.RIsBounded` | src/research/professional_diagnostics.py:183-229 | with the partial level between -1 R and the target, R lies between -1 - cost/risk and max(0, target - cost/risk) |
| `ExitReplay.NoLookAhead` | src/research/professional_diagnostics.py:183-229 | bars after the exit change nothing |
| `ExitReplay.ShortMirrorsLong` | src/research/professional_diagnostics.py:160-229 | a short on the mirrored price axis has the same bar, reason and R as the long |
| `ProfessionalBacktest.InTrade` | src/research/professional_backtest.py:139-183 | the in-trade loop takes the declared path, with the reason names mapped as in the diagnostics |
| `ProfessionalBacktest.CashIsReplayed` | src/research/professional_backtest.py:139-183 | cash over a path is units times risk distance times replayed R |
| `ProfessionalBacktest.RunTrade` | src/research/professional_backtest.py:117-183 | for all bars and any units, a trade ends on the replay's bar, for its reason, with cash = units * risk * R |
| `ProfessionalBacktest.OpenAndClose` | src/research/professional_backtest.py:117-207 | one pass books the trade priced through its replay, sized by risk and capped by leverage, less commission |
| `ProfessionalBacktest.Run` | src/research/professional_backtest.py:75-208 | the run's trades are the journal of gates and decisions, and its equity curve follows them |
| `ProfessionalBacktest.CurveIsConserved` | src/research/professional_backtest.py:184-207 | every point of the curve is the initial equity plus the profits so far |
| `ProfessionalBacktest.OverlapOnlyAfterDataEnd` | src/research/professional_backtest.py:137-208 | a trade is entered while an earlier position is held if and only if no bar from its entry on ends that position |
| `ProfessionalBacktest.OverlapHappens` | src/research/professional_backtest.py:155-208 | a run in which the second trade opens inside the first |
| `ProfessionalBacktest.DailyCapHolds` | src/research/professional_backtest.py:93-101 | no day signals more trades than the cap |
| `ProfessionalBacktest.EveryTradePassesTheGate` | src/research/professional_backtest.py:93-137 | every trade answers a decision, is priced on the equity its predecessors left, and its day was above the loss floor of that equity |
| `ProfessionalBacktest.TradeLossIsBounded` | src/research/professional_backtest.py:126-190 | no trade loses more than its units by risk times risk distance, cost and commission per unit |
| `ProfessionalBacktest.DailyLossIsBounded` | src/research/professional_backtest.py:93-190 | after any trade opened on non-negative equity its day is above the loss floor less that worst loss |
| `ProfessionalBacktest.ReportedRIsReplayed` | src/research/professional_backtest.py:126-190 | whatever the replay earns, the reported R is the replayed one if and only if there is no commission and leverage does not bind; for a given replay, if and only if what leverage kept out would have earned the negative of the commission |
| `ProfessionalBacktest.LeverageShrinksR` | src/research/professional_backtest.py:126-190 | with the default leverage a trade whose replay earns 1.5 R is reported with 1.2 R |
| `Discovery.HoldToBarrier` | src/research/strategy_discovery.py:180-199 | the barrier loop finds the first touch, stop before target, or the last close |
| `Discovery.SpecTrade` | src/research/strategy_discovery.py:139-205 | one pass of `run_spec`, its filters in order, yields the cursor's candidate unless the day is closed |
| `Discovery.MarketTrade` | src/research/market_timeframe_research.py:101-168 | one pass of `run_market_spec` yields the cursor's candidate unless the day is closed |
| `Discovery.RunSpec` | src/research/strategy_discovery.py:121-212 | a run takes exactly the simulated candidates from its first bar |
| `Discovery.RunMarketSpec` | src/research/market_timeframe_research.py:67-175 | the same for the market simulator |
| `Discovery.SimulatorsPlanAlike` | src/research/market_timeframe_research.py:101-135 | with equal fixed costs both plan the same setup if and only if their private filters agree |
| `Discovery.SimulatorsRunAlike` | src/research/market_timeframe_research.py:67-175 | with equal fixed costs both simulators have the same candidates if and only if their private filters agree on every cursor, and then return the same trades from any start |
| `Discovery.SharedCandidates` | src/research/strategy_discovery.py:139-212 | on a shared prefix a candidate is the same in a longer series, or was cut by the shorter end |
| `Discovery.NoLookAhead` | src/research/strategy_discovery.py:121-212 | for both simulators a longer series reproduces every trade whose holding period fits, and the whole run up to one cut-off last trade |
| `Discovery.TradesAreDisjoint` | src/research/strategy_discovery.py:139-212 | trades are in range and pairwise disjoint in bars |
| `Discovery.WorstTrade` | src/research/strategy_discovery.py:166-205 | R is at least -1 - cost/stop, with equality if and only if stopped out |
| `Discovery.CandidatesAreBounded` | src/research/market_timeframe_research.py:113-168 | in both simulators every candidate has a positive stop, its own cost per side, and R of at least -1 - cost/stop |
| `Discovery.DailyLimitsHold` | src/research/strategy_discovery.py:147-151 | over any candidates with R of at least -1 - c: at most three trades per signal day, and every day above -6 R less 1 R less c |
| `Discovery.RunsKeepDailyLimits` | src/research/strategy_discovery.py:121-212 | both runs, with k bounding cost per stop distance: at most three trades per signal day, and every day above -6 R minus one worst trade of -1 R - k |
| `ModelBacktest.HoldToBarrier` | src/research/backtest.py:144-161 | the barrier loop exits at the first touch, stop first, or at the horizon's close |
| `ModelBacktest.OpenQuote` | src/research/backtest.py:115-164 | entry with observed or fixed spread, barriers from the signal bar's ATR, exit with the other side's cost |
| `ModelBacktest.RunModelBacktest` | src/research/backtest.py:99-193 | the run ends with the journal of all quotes and limits and the initial equity plus its profits, and raises if and only if a quote of that journal has a zero entry or stop distance |
| `ModelBacktest.SaneRunsFinish` | src/research/backtest.py:134-141 | with positive ATRs and stop multiple, and prices above costs, no run raises |
| `ModelBacktest.JournalOpensFromReplay` | src/research/backtest.py:99-176 | every trade was opened from the book that its predecessors alone produce |
| `ModelBacktest.ReplayedIsFolded` | src/research/backtest.py:167-176 | the running counters are the folds of the journal: equity, day's pnl, day's trades, latest straight losses |
| `ModelBacktest.EveryTradeKeepsTheLimits` | src/research/backtest.py:103-114 | before every trade its day is above the loss cap, below the trade limit, and has fewer than the maximum of straight losses |
| `ModelBacktest.TradesNeverOverlap` | src/research/backtest.py:99-193 | a trade is entered after the bar that closed any earlier one |
| `ModelBacktest.WorstMove` | src/research/backtest.py:135-164 | a trade gives up at most its stop and the exit's cost, exactly that when stopped out |
| `ModelBacktest.TradeLossIsBounded` | src/research/backtest.py:138-167 | no trade loses more than its risked cash and friction |
| `ModelBacktest.EquityStaysPositive` | src/research/backtest.py:138-167 | while that is less than the whole equity, equity stays positive over the whole run |
| `ModelBacktest.DailyLossIsBounded` | src/research/backtest.py:103-170 | after any trade its day is above the daily cap less one worst trade |
| `TripleBarrier.FirstTouch` | src/research/training.py:56-73 | label 1 if and only if the upper barrier is touched on a bar before any that touches the lower, or neither is and the close is higher |
| `TripleBarrier.AddLabels` | src/research/training.py:36-75 | every row gets its label, or none where ATR or horizon is missing |
| `TripleBarrier.LabelsArePrefixStable` | src/research/training.py:47-73 | a label depends on its row and the bars of its horizon only |
| `TripleBarrier.LabelsAreMonotone` | src/research/training.py:47-73 | labels are monotone in the stop multiple and antitone in the target multiple |
| `MinuteAggregation.LabelsCompose` | src/research/market_timeframe_research.py:46-54 | a bucket's label falls into the right-closed coarse bin of its minutes |
| `MinuteAggregation.ConventionsDifferOnBoundaries` | src/research/market_timeframe_research.py:46-54 | the two conventions agree on a minute if and only if it is not on a boundary |
| `MinuteAggregation.ReadFile` | src/research/market_timeframe_research.py:219-241 | the reader loop yields the stream of flushed buckets |
| `MinuteAggregation.FoldIsFirstMaxMinLastSum` | src/research/market_timeframe_research.py:229-239 | a record is first, max, min, last and sum of its minutes |
| `MinuteAggregation.StreamIsGroupBy` | src/research/market_timeframe_research.py:225-241 | on ordered minutes every record folds exactly its bucket's minutes |
| `MinuteAggregation.EveryBucketIsRecorded` | src/research/market_timeframe_research.py:225-241 | a bucket has a record if and only if it has minutes |
| `MinuteAggregation.IncreasingIffInOrder` | src/research/market_timeframe_research.py:225-241 | buckets strictly increase if and only if the minutes' buckets never go back |
| `MinuteAggregation.VolumeIsConserved` | src/research/market_timeframe_research.py:225-241 | no volume is lost or invented, in any order |
| `MinuteAggregation.AggregationComposes` | src/research/market_timeframe_research.py:46-54 | re-aggregating 15-minute records in right-closed bins equals aggregating the minutes |
| `MinuteAggregation.LoadMinutes` | src/research/market_timeframe_research.py:218-244 | loading keeps the last record of every bucket over all files |
| `MinuteAggregation.FileLoadsAsGroupBy` | src/research/market_timeframe_research.py:218-244 | one ordered file loads as its group-by |
| `MinuteAggregation.LoadIsGroupByIffUnsplit` | src/research/market_timeframe_research.py:242-244 | several ordered files with positive volumes load as a group-by on a bucket if and only if one file alone has minutes of it |
| `MinuteAggregation.SplitBucketLosesAFile` | src/research/market_timeframe_research.py:218-244 | of two files with a minute each of one bucket only the second is loaded |
| `HistoryDownload.WindowFitsInReply` | scripts/download_twelve_data_history.py:21-111 | a three-day window has at most 4321 minutes, below the reply's cap, so nothing is cut |
| `HistoryDownload.WindowIsComplete` | scripts/download_twelve_data_history.py:184-200 | a window keeps each server minute of [from, to) once and nothing else |
| `HistoryDownload.Downloader.AppendRows` | scripts/download_twelve_data_history.py:160-175 | appends all rows, or a prefix when the process dies |
| `HistoryDownload.Downloader.SaveCheckpoint` | scripts/download_twelve_data_history.py:152-158 | truncates and rewrites the checkpoint; dying between leaves it torn |
| `HistoryDownload.Downloader.Download` | scripts/download_twelve_data_history.py:177-209 | one launch is one session of fetch, append, checkpoint steps under any crash point |
| `HistoryDownload.EveryRunIsAccounted` | scripts/download_twelve_data_history.py:145-209 | over all launches the stored rows are the covered minutes plus one batch per crash |
| `HistoryDownload.CheckpointIsSound` | scripts/download_twelve_data_history.py:145-209 | below the checkpoint every minute is stored, once if no crash caught it, and never more than 1 + crashes times |
| `HistoryDownload.WindowsFinishOrCrash` | scripts/download_twelve_data_history.py:177-209 | a launch covers up to its end or leaves exactly one orphaned batch |
| `HistoryDownload.FinishedRunCovers` | scripts/download_twelve_data_history.py:177-209 | a launch that finishes leaves all of [start, end) stored |
| `HistoryDownload.TornIsForever` | scripts/download_twelve_data_history.py:145-158 | after a torn checkpoint no launch changes the disk |
| `HistoryDownload.TornIsReachable` | scripts/download_twelve_data_history.py:152-209 | the first launch, dying between truncating and writing its first checkpoint, ends torn |
| `HistoryDownload.ResumesIffReadable` | scripts/download_twelve_data_history.py:145-209 | after any launches and crashes, a server minute still missing can be stored by later launches if and only if the checkpoint is not torn |
| `Mistakes.EveryRunKeepsStoreOk` | src/learning/mistake_analyzer.py:232-309 | every run keeps one pattern per classification, its prices, and progress below 20 while active |
| `Mistakes.MistakeAnalyzer.DetectPatterns` | src/learning/mistake_analyzer.py:232-309 | detection changes the store as specified and keeps the cache mirroring its active patterns |
| `Mistakes.MistakeAnalyzer.UpdateResolutionProgress` | src/learning/mistake_analyzer.py:411-471 | progress is counted, reset or completed per matching pattern; the cache still mirrors |
| `Mistakes.MistakeAnalyzer.ReactivatePattern` | src/learning/mistake_analyzer.py:473-527 | reactivation sets the harsher prices and the cache still mirrors |
| `Mistakes.MistakeAnalyzer.LoadPatternsOnStartup` | src/learning/mistake_analyzer.py:529-541 | a load makes the cache the store's active patterns |
| `Mistakes.MistakeAnalyzer.GetConfidencePenalty` | src/learning/mistake_analyzer.py:366-386 | the accumulator loop is the penalty of the cached patterns the signal hits |
| `Mistakes.MistakeAnalyzer.GetSizeReductionFactor` | src/learning/mistake_analyzer.py:388-407 | the same for the product of size factors |
| `Mistakes.MistakeDatabase.FindPattern` | src/learning/mistake_database.py:249-263 | a pattern of that classification and status is found if and only if there is one |
| `Mistakes.MistakeDatabase.UpdatePattern` | src/learning/mistake_database.py:231-247 | changes the one pattern with the identifier, none if it is unknown |
| `Mistakes.MistakeDatabase.StoreRecord` | src/learning/mistake_database.py:146-160 | appends one record |
| `Mistakes.MistakeDatabase.GetRecordsByClassification` | src/learning/mistake_database.py:162-181 | selects the records of a classification from a time on, in order |
| `Mistakes.MistakeDatabase.GetActivePatterns` | src/learning/mistake_database.py:183-192 | selects the active patterns in order |
| `Mistakes.MistakeDatabase.CreatePattern` | src/learning/mistake_database.py:214-229 | appends one pattern |
| `Mistakes.RestartIsTransparent` | src/learning/mistake_analyzer.py:366-407 | a mirroring cache and a fresh load penalise every signal alike |
| `Mistakes.LoadMirrors` | src/learning/mistake_analyzer.py:529-541 | a load at any point mirrors the store |
| `Mistakes.PenaltyIsCounted` | src/learning/mistake_analyzer.py:366-407 | penalty is 20 and 30 points per base and reactivated hit, and the factor depends on those counts only |
| `Mistakes.PenaltyIsBounded` | src/learning/mistake_analyzer.py:366-407 | penalty at most 180 and factor at least 1/64 |
| `Mistakes.ResolvedPatternReturns` | src/learning/mistake_analyzer.py:267-280 | a pattern resolved at a time returns whenever five losses recur after it; detection keeps that rule if and only if, where the window holds five losses, five of them are new |
| `Mistakes.DetectionRevives` | src/learning/mistake_analyzer.py:232-309 | detection of all classes revives a resolved pattern if and only if the window holds five losses of its class, at the harsher prices, and else leaves it as it was |
| `Mistakes.OldLossesReviveIt` | src/learning/mistake_analyzer.py:267-280 | five losses before the resolution and none after: the next detection in their window revives the pattern |
| `NewsGate.FreeNewsSafetyLayer.Refresh` | src/news/free_news_safety.py:347-389 | a refresh is skipped inside the check interval, otherwise replaces calendar, headlines and availability |
| `NewsGate.FreeNewsSafetyLayer.Evaluate` | src/news/free_news_safety.py:285-333 | the decision's branches in order, on the refreshed cache |
| `NewsGate.RunIsFaithful` | src/news/free_news_safety.py:347-389 | over every run whose answering providers are exact, outages included, an available cache holds exactly the true events of its last refresh's range |
| `NewsGate.GateIsSound` | src/news/free_news_safety.py:301-389 | outages included: blocks from one check interval (less a tick) into an event's window to its end, names a window only inside one, and blocks while no calendar answered |
| `NewsGate.OutagesBlock` | src/news/free_news_safety.py:301-389 | a run whose only provider raises is such a run, whatever events there are, and blocks |
| `NewsGate.SlackIsTight` | src/news/free_news_safety.py:349-358 | for every instant of the slack there is a run that allows trading in it |
| `NewsGate.LastDuplicatesDecide` | src/news/free_news_safety.py:557-558 | on arbitrary answers a window is named if and only if some last duplicate is high-impact and in its window |
| `NewsGate.LastDuplicateDecides` | src/news/free_news_safety.py:557-558 | two providers' copies block if and only if the later one is high-impact |
| `SlidingWindow.SlidingWindowCounter.Record` | src/risk/hft_risk.py:83-86 | appends a reading and prunes; the kept list stays the full history's window |
| `SlidingWindow.SlidingWindowCounter.Count` | src/risk/hft_risk.py:88-96 | counts the full history in the half-open window that ends now |
| `SlidingWindow.SinceSince` | src/risk/hft_risk.py:93-96 | pruning twice is pruning at the later cutoff |
| `SlidingWindow.AdmitKeepsBounded` | src/risk/hft_risk.py:401-440 | admitting below the maximum at a check keeps every window bounded |
| `HftRisk.HftRiskManager.CheckRateLimit` | src/risk/hft_risk.py:401-440 | allowed if and only if both full-history counts are below their maxima; a refusal is recorded |
| `HftRisk.HftRiskManager.RecordOrder` | src/risk/hft_risk.py:359-369 | appends to the global, the instrument's and the total history, and to no other; every counter records at one clock reading and prunes at the next |
| `HftRisk.EveryRunKeepsLimits` | src/risk/hft_risk.py:359-440 | if orders are recorded right after allowed checks, every half-open second holds at most the maxima, overall and per instrument |
| `HftRisk.HftRiskManager.UpdatePnl` | src/risk/hft_risk.py:207-238 | the pruned window's sum is the last minute of the full history, and a breach activates an inactive breaker |
| `HftRisk.HftRiskManager.IsHftAllowed` | src/risk/hft_risk.py:294-321 | allowed if and only if not disabled and any halt has served its minute, which releases it |
| `HftRisk.HftRiskManager.ActivateCircuitBreaker` | src/risk/hft_risk.py:240-287 | records the activation, counts those of its hour, and disables when it is the third |
| `HftRisk.HftRiskManager.DeactivateCircuitBreaker` | src/risk/hft_risk.py:289-292 | releases the halt and nothing else |
| `HftRisk.HftRiskManager.ReEnableHft` | src/risk/hft_risk.py:323-330 | releases halt and disablement, resets the reported count and keeps the activation history |
| `HftRisk.EscalationIsExact` | src/risk/hft_risk.py:240-287 | without re-enabling, disabled if and only if three activations ever fell within an hour |
| `HftRisk.ReEnablingForgetsNothing` | src/risk/hft_risk.py:265-333 | after re-enabling the next activation disables if and only if two came within the hour before |
| `HftRisk.HaltsAreServed` | src/risk/hft_risk.py:207-321 | without manual steps activations are at least a minute apart |
| `HftRisk.NoTradingDuringAHalt` | src/risk/hft_risk.py:294-321 | trading is allowed only a full minute after every activation |
| `ServiceManager.Services.HandleServiceError` | src/core/service_manager.py:230-290 | counts the closed window, then fails the service or records a restart and sleeps |
| `ServiceManager.Services.WakeHandler` | src/core/service_manager.py:287-301 | after the delay the handler begins a start only if the manager is active |
| `ServiceManager.Services.Register` | src/core/service_manager.py:103-127 | a registration replaces the last one and starts with an empty history |
| `ServiceManager.Services.BeginStartService` | src/core/service_manager.py:139-158 | a start begins if and only if the service is registered and startable |
| `ServiceManager.Services.FinishStartService` | src/core/service_manager.py:159-170 | a start ends RUNNING or FAILED on the registration it began with |
| `ServiceManager.Services.FinishStopService` | src/core/service_manager.py:196-204 | a stop ends STOPPED on the registration it began with |
| `ServiceManager.Services.SetActive` | src/core/service_manager.py:206-223 | starting and stopping all services set the active flag |
| `ServiceManager.GrantedIsExact` | src/core/service_manager.py:254-279 | a restart is granted if and only if granting it keeps every window within the limit |
| `ServiceManager.RestartsStayBounded` | src/core/service_manager.py:254-279 | under every interleaving any closed window holds at most the maximum of restarts of a service |
| `ServiceManager.HandlersRespectShutdown` | src/core/service_manager.py:221-301 | after a shutdown no sleeping handler starts anything |
| `ServiceManager.FailedStartsAgain` | src/core/service_manager.py:225-301 | over every run that neither shuts down nor re-registers, a FAILED service starts again if and only if a start is begun or a handler that had gone to sleep wakes |
| `ServiceManager.FailedIsNotFinal` | src/core/service_manager.py:258-301 | under every policy with an attempt: one error more than there are attempts fails a new service, and an earlier error's handler then runs it again |
| `CrisisDetector.Detector.EvaluateArticle` | src/news/crisis_detector.py:117-162 | follow active crises, then track, prune and raise at most one crisis |
| `CrisisDetector.GroupsAreShared` | src/news/crisis_detector.py:381-421 | two articles share a group if and only if their folded regions or asset classes agree, or neither names any; empty names count as absent |
| `CrisisDetector.Detector.CheckPersistence` | src/news/crisis_detector.py:164-212 | escalates an overdue active crisis unless the given or tracked sentiments recovered, which resolves it |
| `CrisisDetector.Detector.CheckActiveCrises` | src/news/crisis_detector.py:309-379 | every active, unescalated, relevant crisis tracks the article, and is resolved or escalated |
| `CrisisDetector.Detector.CheckConditions` | src/news/crisis_detector.py:257-307 | the loop over keys raises a crisis for the first ripe one |
| `CrisisDetector.Detector.Prune` | src/news/crisis_detector.py:466-472 | the loop drops old articles from the front only |
| `CrisisDetector.Detector.ResolveCrisis` | src/news/crisis_detector.py:214-233 | deactivates the crisis and removes its key and tracked sentiments |
| `CrisisDetector.EveryRunIsConsistent` | src/news/crisis_detector.py:117-379 | over every run grouping keys and active crises are in bijection, and tracked sentiments are at most -0.3 |
| `CrisisDetector.TrackedDataNeverRecovers` | src/news/crisis_detector.py:196-212 | on tracked data a persistence check escalates every overdue crisis: its recovery branch is unreachable |
| `CrisisDetector.WindowIsHistory` | src/news/crisis_detector.py:466-479 | the window of the pruned deque is the window of the full history, in whatever order articles arrive |
| `CrisisDetector.RaisedByThreeArticles` | src/news/crisis_detector.py:257-307 | a crisis is raised if and only if the article qualifies and one of its keys, free of active crises, has three qualifying articles in the full history's window |
| `CrisisDetector.EveryCrisisWasRaised` | src/news/crisis_detector.py:257-307 | every crisis of every run was raised by the three or more articles of one window that share its key |
| `CrisisDetector.WindowMembers` | src/news/crisis_detector.py:402-421 | those articles qualify, carry the key, and arrived no more than ten minutes before the selection |
| `CrisisDetector.ThresholdQualifies` | src/news/crisis_detector.py:144-147 | the code's test and the documented one differ if and only if a high-impact article is exactly at -0.7 |
| `CrisisDetector.TriggersAreDocumented` | src/news/crisis_detector.py:144-307 | over every run a crisis has only triggers below -0.7 if and only if none is at -0.7 |
| `CrisisDetector.ThresholdRaises` | src/news/crisis_detector.py:144-307 | three articles at exactly -0.7 raise a crisis without a documented trigger |
| `CrisisDetector.FirstDecisionIsFinal` | src/news/crisis_detector.py:336-379 | the first relevant article that recovers or comes 30 minutes or more after the start decides between resolution and escalation |
| `CrisisDetector.FateFollowsArticles` | src/news/crisis_detector.py:309-379 | a crisis's fate over any article run depends on the later articles alone |
| `CrisisDetector.OwnRegionSettles` | src/news/crisis_detector.py:309-379 | over any run of its own region's articles a crisis changes if and only if it is open, one of them recovers or comes late, and the region is written in lower case |
| `CrisisDetector.EuropeIsMissed` | src/news/crisis_detector.py:257-379 | three severe articles on "Europe" raise a crisis that no run of articles on "Europe" settles |
| `GeopoliticalRisk.GeopoliticalRiskScorer.ProcessArticle` | src/news/geopolitical_risk.py:284-328 | adds the clamped, weighted contribution, caps factor and score, and checks the threshold |
| `GeopoliticalRisk.GeopoliticalRiskScorer.ApplyDecay` | src/news/geopolitical_risk.py:343-382 | the loop decays every region with a positive score once |
| `GeopoliticalRisk.GeopoliticalRiskScorer.CheckThresholdCrossing` | src/news/geopolitical_risk.py:500-572 | a crossing of 70 sets the flag and queues one alert |
| `GeopoliticalRisk.GeopoliticalRiskScorer.SetRegionScore` | src/news/geopolitical_risk.py:424-446 | clamps the score, spreads it evenly over the factors, and checks the threshold |
| `GeopoliticalRisk.GeopoliticalRiskScorer.ResetRegion` | src/news/geopolitical_risk.py:448-461 | clears a known region and checks the threshold |
| `GeopoliticalRisk.GeopoliticalRiskScorer.DispatchPendingEvents` | src/news/geopolitical_risk.py:467-495 | without a bus the queue stays; with one it is emptied, and the loop delivers in order what the bus accepts |
| `GeopoliticalRisk.DecayKeepsSound` | src/news/geopolitical_risk.py:149-180 | a rate keeps every level's factors in range and its score their capped sum if and only if it is not negative |
| `GeopoliticalRisk.NegativeRateOverflows` | src/news/geopolitical_risk.py:149-380 | with any negative rate, four severe articles and a decay take a factor above 100 |
| `GeopoliticalRisk.NewIsSteady` | src/news/geopolitical_risk.py:105-170 | a new scorer satisfies what every run keeps |
| `GeopoliticalRisk.EveryRunIsSteady` | src/news/geopolitical_risk.py:284-572 | over every run, with whatever non-negative rates are set: factors stay in [0, 100], scores are min(100, sum), and each region's alerts alternate, "above" last if and only if the score is at least 70 |
| `GeopoliticalRisk.DecayScales` | src/news/geopolitical_risk.py:362-371 | decay scales all factors by one share, keeping their proportions |
| `GeopoliticalRisk.DecayCuts` | src/news/geopolitical_risk.py:362-377 | each decay cuts the factor sum by at least min(rate, sum) |
| `GeopoliticalRisk.QuietRegionOnlyDecays` | src/news/geopolitical_risk.py:343-382 | whatever happens elsewhere, a quiet region decays once per decay |
| `GeopoliticalRisk.QuietRegionCalms` | src/news/geopolitical_risk.py:343-382 | a quiet region is at 0 once the rates of the decays since add up to its factors |
| `GeopoliticalRisk.ReportedHighFromHalf` | src/news/geopolitical_risk.py:215-251 | a region is reported high if and only if its score is at least 69.5 |
| `StopManager.TrailsByOneRisk` | src/risk/stop_manager.py:162-198 | a trailed stop is at least 1R behind its price and less than one step more, and never before entry |
| `StopManager.TrailingIsPathIndependent` | src/risk/stop_manager.py:137-210 | at a constant ATR, trailing over any prices is one update at their extreme |
| `StopManager.RunIsBest` | src/risk/stop_manager.py:137-340 | any interleaving of trailing and tightening, each call with its own price and ATR, ends at the best stop asked for |
| `StopManager.StopNeverRetreats` | src/risk/stop_manager.py:137-340 | no later stop is worse than an earlier one |
| `StopManager.OrderDoesNotMatter` | src/risk/stop_manager.py:137-340 | the same operations in any order end at the same stop |
| `StopManager.WideningRetreats` | src/risk/stop_manager.py:342-368 | widening retreats if and only if its distance is positive |
| `StopManager.TrailingUndoesWidening` | src/risk/stop_manager.py:137-368 | the next trailing update at the same price restores the stop |
| `StopManager.ShortMirrorsLong` | src/risk/stop_manager.py:137-340 | short positions are managed as long ones on the mirrored axis |
| `StopManager.InitialStopSetsRisk` | src/risk/stop_manager.py:70-95 | the initial stop is one risk distance, the ATR multiple, away on either side |
| `MarketHours.OpenIsScheduled` | src/config/market_hours.py:164-365 | the open tests are the weekly schedule, class by class |
| `MarketHours.HoursDepartOnFridays` | src/config/market_hours.py:247-365 | the open tests differ from the documented hours if and only if it is Friday and forex is in the minute from 21:00 or gold in the hour from 23:00 |
| `MarketHours.OilDepartsFromOverview` | src/config/market_hours.py:101-109 | oil's test differs from the overview's hours if and only if it is in a daily break from Monday to Thursday or in Sunday's last hour |
| `MarketHours.FindWeekday` | src/config/market_hours.py:406-415 | the search loop terminates at the least number of days to a weekday |
| `MarketHours.NextOpenIsOpen` | src/config/market_hours.py:195-532 | the next opening is not before now, and open |
| `MarketHours.NextOpenIsLeast` | src/config/market_hours.py:195-532 | no instant from now to the next opening is open |
| `MarketHours.Hours.GetNextOpen` | src/config/market_hours.py:195-226 | returns that least open instant for the instrument's class |
| `MarketHours.Hours.RegisterInstrument` | src/config/market_hours.py:155-162 | reclassifies one instrument and no other |
| `KillSwitch.KillSwitch.Activate` | src/risk/kill_switch.py:378-421 | records every trigger; the first one on an inactive switch activates it |
| `KillSwitch.KillSwitch.Deactivate` | src/risk/kill_switch.py:447-476 | a blank token is an error, otherwise accepted if and only if active for the minimum |
| `KillSwitch.KillSwitch.IsSignalAllowed` | src/risk/kill_switch.py:197-210 | signals pass if and only if the log's last activation has been released |
| `RiskEngine.EveryRunSeparatesActivations` | src/risk/kill_switch.py:378-476 | over every run of the engine any two activations have an accepted deactivation between them, at least the minimum after the first |
| `RiskEngine.NothingPassesAnActiveSwitch` | src/risk/risk_engine.py:241-256 | under every interleaving a signal is stopped if and only if the last activation is unreleased |
| `RiskEngine.AllowedStaysNearEveryPeak` | src/risk/drawdown_monitor.py:118-256 | an allowed signal has more than (1 - kill) of the starting equity and of every equity judged before it |
| `RiskEngine.DefaultsKeepTheirPromise` | src/risk/drawdown_monitor.py:70-256 | with the platform's settings that is more than 85% |
| `RiskEngine.KillIsExact` | src/risk/drawdown_monitor.py:236-256 | the switch is asked for if and only if equity is at most (1 - kill) of the peak |
| `RiskEngine.KillDepartsAtThreshold` | src/risk/drawdown_monitor.py:222-256 | the code and the documented test differ if and only if equity is exactly (1 - kill) of the peak |
| `RiskEngine.DailyRejectionIsExact` | src/risk/drawdown_monitor.py:140-270 | the daily limit rejects if and only if the losses closed on that day have reached it |
| `RiskEngine.DrawdownMonitor.CheckTradeAllowed` | src/risk/drawdown_monitor.py:222-294 | the checks in priority order, with their effects on peak and day |
| `RiskEngine.DrawdownMonitor.UpdateOnTradeClose` | src/risk/drawdown_monitor.py:165-179 | a loss counts on its day, and reaching the limit sets the flag |
| `RiskEngine.DrawdownMonitor.UpdateEquity` | src/risk/drawdown_monitor.py:118-125 | the peak is the maximum of equities seen |
| `RiskEngine.SignalValidator.ValidateSignal` | src/risk/risk_engine.py:209-483 | the first failing check decides; only a drawdown kill changes the switch |
| `Drawdown.NoPairDropsMore` | src/backtesting/metrics.py:93-113 | on non-negative equity no pair of points drops more than the running-peak drawdown |
| `Drawdown.SomePairDropsThat` | src/backtesting/metrics.py:93-113 | some pair drops exactly that much |
| `Drawdown.NegativeEquityDropsMore` | src/backtesting/metrics.py:106-113 | a curve below zero on which a pair drops more |
| `Drawdown.CoveredIffFits` | src/backtesting/metrics.py:93-113 | a pair drops at most the later point's running-peak drawdown if and only if the later point is not negative, the earlier not positive, or the earlier is the peak |
| `Drawdown.PointDrawdownIsDeepest` | src/backtesting/metrics.py:93-113 | every pair of the curve is so covered if and only if every pair meets that condition |
| `Drawdown.MaxDrawdownIsDeepest` | src/backtesting/metrics.py:93-113 | the reported maximum is at least the drop over every pair if and only if no negative point has a positive level before it, or one that has is the deepest of them and has one positive level only before it |
| `Drawdown.EquityCurve` | src/backtesting/metrics.py:173-185 | the loop builds the curve of partial sums |
| `Drawdown.FinalEquityIgnoresOrder` | src/backtesting/monte_carlo.py:93-107 | every permutation of the trades ends at the same equity |
| `Drawdown.DrawdownIsBounded` | src/backtesting/monte_carlo.py:109-113 | every permutation's drawdown is at most gross loss over initial equity |
| `Drawdown.Shuffle` | src/backtesting/monte_carlo.py:93-113 | the simulation fills both arrays with the shared return and each path's own bounded drawdown |
| `Drawdown.ProfitIsCertain` | src/backtesting/monte_carlo.py:115-119 | the probability of profit is 1 if the trades sum to a profit and 0 otherwise |
| `Drawdown.ProfitProbability` | src/backtesting/monte_carlo.py:93-119 | so whatever the shuffles, the simulation reports one of the two |

## Left out

- Rounding of floats and Decimals: all arithmetic is exact, except where the code truncates or rounds itself.
- HTTP, retries, gzip, CSV and zip reading, provider payload parsing, Redis, SQLAlchemy and file splitting by
  year: server data, stored rows, published events and fetch results are inputs or sequences.
- Indicators, signal builders, sentiment scoring and model probabilities: signals, ATR, spreads, probabilities
  and headline scores are inputs, as are the results of the exposure, risk-reward and sizing checks.
- Case folding and name patterns: a name comes with its lower-case form, and the instrument classifier is a
  parameter; a blank token is one of ASCII white space.
- Random identifiers: crises and patterns are numbered in the order of creation.
- Reports, counters of rejected candidates, Sharpe ratio, win rate, profit factor, percentiles, trade
  durations, audit texts, log lines and notifications.
- `src/research/legacy_backtest.py` is not part of this model; it is a weaker copy of the same loop.
- Concurrency inside one step: a step is what runs between two awaits, and the kill switch's lock covers one
  such step and its publishing. Cancellation of a service's monitoring task is not modelled.
- Publishing of alerts and of escalations: a crisis escalation sets its flag; that a later escalation replaces
  an event still waiting for dispatch is not modelled.
- Clocks that run backwards: every run lemma takes monotone readings, also of wall clocks.
- ModelBacktest.TradeLossIsBounded: like the other bounds on losses it needs positive ATRs, prices above costs and
  sane bars; the run itself and its limits need none of them.
- HistoryDownload.Downloader.AppendRows: a crash leaves a prefix of the rows. That rows go to one compressed file a
  year, and that a crash can tear the last row or the compressed stream, is not modelled.
- ServiceManager.Services.SetActive: the loops of `start_all` and `stop_all` appear as the separate steps of each
  service's start and stop, which may come in any order, not as one operation.
- RiskEngine.SignalValidator.ValidateSignal: the exposure, risk-reward and sizing checks arrive as their results, and the
  list of size reductions as whether the drawdown asks for one.
- CrisisDetector.Detector.EvaluateArticle: an article is what the crisis logic reads of it; a name carries its lower-case
  form, and headline, source and category are absent.
- RiskEngine.AllowedStaysNearEveryPeak: needs a positive starting equity, because with no positive peak the code
  reports no drawdown at all.
- Drawdown.NoPairDropsMore: is stated where the later point is not negative; `Drawdown.CoveredIffFits` has the
  exact condition.
- MarketHours.Hours.GetNextOpen: instants are UTC microseconds, so the conversion from local times is not modelled.
- Rolling rejection rates, HFT trade size checks, take-profit ladders, portfolio and VIX triggers, closing of
  positions with retries, and the crisis response are not part of this model.
