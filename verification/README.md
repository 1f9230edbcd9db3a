# A verified model of the shadow-trading core

The repository watches the market read-only, decides what a frozen option strategy
would have done, simulates the trade, and keeps append-only evidence of everything.
This project models that core in Dafny and proves what holds for every year, every
history, every run and every stored record. Money and prices are exact reals, instants
are whole microseconds, a missing value is `None`, and files are values, sequences and
maps. `dafny verify dfyconfig.toml` checks it.

**The exchange calendar.** `Calendar` has proleptic Gregorian dates, the weekday rules
and the anonymous Easter algorithm; `MarketDays` the closures, half days and searches.
Easter is shown to be the first Sunday after the ecclesiastical full moon, and to agree
with an independent formulation (golden number, solar and lunar equations).

**The decision, written twice.** `Indicators` and `Features` hold the backtest path
(running totals) and the live path (recomputation), `Regime` the market regime and the
breakout signal, `BarSet` the provenance checks, `BarMerge` and `UniverseEvaluation` the
evaluation of vaulted snapshots. The two paths agree, averages stay inside their prices,
nothing looks ahead, and the whole decision commutes with every affine change of prices
(`Symmetry`): a positive scale changes nothing, a reflection swaps bullish with bearish
and call with put. What the values are is stated apart from the code that computes them:
an average by its weights, a session's price by the bars of that session alone, a window
by the positions of its bars.

**The session and its money.** `SafetyConfig`, `OpeningRisk`, `TradeManagement` and
`ShadowPipeline` are the risk chain, with every reason spelled out in `OpeningReasons`
and `CandidateReasons`; `SessionLog`, `SampleGate`, `ShadowRunner` and `ShadowSession`
the recorder, gate, runner and controller as classes over one abstract session. Every
run keeps recorder, runner and gates coupled, trades at most once, and loses at most the
stage's premium ceiling plus friction. `SessionSteps` says of every single request what
it logs and what it leaves, in numbers. `LeftoverExample` takes the shipped
configuration, policy and example snapshot through a concrete run.

**Independent readers.** `LogText` and `SessionText` hold the text of a stored line and
what cutting a file into lines makes of it. `ShadowReview`, `ShadowExperiment` and
`Performance` replay the logs, and `ReviewCounts` shows that every figure they give is a
count over the lines of those logs; `ReviewedRuns` ties them to the controller: whatever
the sessions of a day were asked, review and report succeed exactly if no line separator
was logged, and then agree with the sessions and lose no money on the way.

**The observation protocol.** `Schedule` and `Watchdog` cover slots, acknowledgements,
incidents and their maintenance over whole histories (`WatchdogRecords` what each step
writes, field by field), `ObservationDay` any history of prepared days, planned fires,
workers and watchdog ticks, each at its own clock reading; `Trajectory`, `TrajectoryDay`
and `EodReport` the pilot slots, the trajectories they leave, and the adjudicator that
replays them; `TrajectoryEvidence` says which answer each recorded event was read from,
and `TrajectoryExamples` shows two concrete days. `Ordering` has text order and
directory listings, `Stamps` the text of timestamps.

## What the proofs found

- A log line keeps U+0085, U+2028 and U+2029 as they are, and both readers cut files at
  them (`SessionText.StoredEvent`). One such character in a logged text (the id of a
  rejected sample, a symbol, the reason of an ending, the strategy version or session id)
  stops the review and the report of the whole day, and nothing else does
  (`ReviewedRuns.EveryDayReviews`, `ReviewedRuns.EveryReportReads`). Requests free of them
  are enough (`ReviewedRuns.PlainIsUnbroken`); a quote id that ends in U+2028 fails under
  any settings (`ReviewedRuns.SeparatorStopsReview`).
- Some manifests stop the watchdog's tick, which is not caught: no run listed behind one
  is scanned, so a missed run can vanish although malformed manifests are meant to fail
  closed. They are the ones that are JSON but no object, or nested too deep for the parser;
  that have a file name the host refuses; that have times beyond the host's calendar; or
  whose acknowledgement is nested too deep (`Watchdog.HaltsIff`). An overdue run that no
  other expectation names gets its incident exactly when no such manifest is its own or
  listed before it (`Watchdog.MissedRunIsFiledIff`). An empty list
  (`Watchdog.StoppedTickFilesNothing`) and an active run of the last minute of the year
  9999 (`Watchdog.OverflowFilesNothing`) hide a missed run altogether.
- An incident file that is not valid UTF-8, or nested too deep, does not block, as other
  unreadable ones do: it stops the listing, and retiring, resolving and archiving stop at
  such a file with the files in front of it done
  (`Watchdog.WatchdogStore.UnresolvedIncidentIds`, `Watchdog.MaintenanceClearsIff`).
- A candidate is admitted by its minute but closed by the clock: opened `early` after its
  minute an hour before the last slot, it is closed by that slot exactly when the slot
  starts at least as late (`TrajectoryDay.KnifeEdge`, and over a whole day
  `TrajectoryExamples.LagDecides`; five seconds suffice in
  `TrajectoryExamples.AdmittedButMissed`).
- A refresh asks for the six lowest instrument ids. Answered exactly as asked, an open
  trajectory is observed exactly when fewer than six open instruments come before its own
  (`TrajectoryDay.StarvedIff`); `TrajectoryExamples.StarvedMorning` is a day with seven.
- After an error a session keeps its pending limit exactly when no fill of it was logged
  (`ShadowSession.HoldingsOverRuns`), and a quote that then meets the limit is noted as a
  fill before its line is refused. Limit and fill are held side by side exactly when some
  accepted quote met a limit left over in error (`ShadowSession.LeftoversIff`);
  `LeftoverExample.LeftoversAfterError` is such a run of the shipped example.
- A pilot-mode session that never decided to enter carries no pilot mark, so without
  authorization it is counted as an unauthorized session (`ShadowExperiment.PilotIff`).
- The self-arming worker's comment says that slots after an early close are not
  registered. They are, so every slot from 10:23 on is always reported missed
  (`ObservationDay.HalfDayAlwaysMisses`), and the one at 10:03 unless its fire was planned
  before 10:00 (`ObservationDay.HalfDayStartsIff`).
- One candidate per symbol a day rests on chains that name their own symbol: a symbol is
  tried again later in the day exactly while no recorded candidate carries it as its
  underlying (`TrajectoryDay.DayOpensIff`, `TrajectoryDay.TriedAgainIff`).
- Archiving a resolved incident whose expectation is still active lets the next tick
  recreate it (`Watchdog.ArchivedIsRecreatedIff`), and archiving the recreated one replaces
  the earlier record, although the script's text promises to keep it (`Watchdog.ArchiveReplaces`).
- Maintenance silences and clears a name exactly when all that calls for it is reached and
  past the cutoff (`Watchdog.MaintenanceClearsIff`), and then for good unless the run is
  registered again (`Watchdog.MaintenanceIsFinal`). Registered again, its incident comes
  back exactly when the registration alarms and the tick reaches it
  (`Watchdog.RegistrationReopensIff`, `Watchdog.MaintenanceIsUndone`).

## Model

| member | source | states |
|---|---|---|
| Calendar.OrdinalOrder | monitoring/market_calendar.py:133-144 | Date order is ordinal order, so the day-by-day searches move through all dates in sequence |
| Calendar.NthWeekdayIff | monitoring/market_calendar.py:21-26 | The n-th weekday of a month is the one date with that weekday in the n-th seven days |
| Calendar.LastWeekdayIff | monitoring/market_calendar.py:28-36 | The last weekday of a month is the one date with that weekday in its last seven days |
| Calendar.EasterIsSunday | monitoring/market_calendar.py:47-63 | The computed Easter is a valid date and a Sunday, for every year |
| Calendar.EasterIsFirstSundayAfterMoon | monitoring/market_calendar.py:47-63 | Easter lies in March 22 to April 25 and is the first Sunday strictly after the corrected full moon |
| Calendar.EasterMatchesClavius | monitoring/market_calendar.py:47-63 | The anonymous algorithm agrees in every year with the golden-number formulation |
| MarketDays.GoodFridayFacts | monitoring/market_calendar.py:66-67 | Good Friday is a Friday of the same year, two days before Easter |
| MarketDays.MarketHolidays | monitoring/market_calendar.py:70-91 | The set built step by step is the table of closures with the New Year exception |
| MarketDays.HolidayIff | monitoring/market_calendar.py:38-44 | A date is a closure of a year exactly when its own month, day and weekday say so |
| MarketDays.TenClosures | monitoring/market_calendar.py:70-91 | Ten closures a year, nine when January 1 is a Saturday, all on weekdays of that year |
| MarketDays.ClosuresApart | monitoring/market_calendar.py:70-91 | No two closures are within three days of each other |
| MarketDays.OpenWithinFour | monitoring/market_calendar.py:94-100 | Every date has a trading day within four days after it and within four before it |
| MarketDays.NextMarketOpenDate | monitoring/market_calendar.py:133-137 | The search ends within four days at the least later trading day |
| MarketDays.PreviousMarketOpenDate | monitoring/market_calendar.py:140-144 | The search ends within four days at the greatest earlier trading day |
| MarketDays.SearchesAreInverse | monitoring/market_calendar.py:133-144 | Each search has one answer, and on trading days searching back from the next one returns to the day, and the other way round |
| MarketDays.EarlyCloseIff | monitoring/market_calendar.py:103-118 | The half days are the Friday after Thanksgiving and, Monday to Thursday, December 24 and July 3 |
| Indicators.ExponentialMovingAverage | research/universe_features.py:127-136 | The loop computes the average: the plain mean of the first period, and from then on two parts of the new close to period minus one of the average before, in period plus one |
| Indicators.EmaSeries | strategy/deterministic_features.py:67-80 | The list written in place holds the average of every prefix, with the same weights; only a non-positive period fails |
| Indicators.EmaSeed | strategy/deterministic_features.py:73-74 | The average of exactly one period is its plain mean |
| Indicators.EmaNext | strategy/deterministic_features.py:75-78 | One more close v makes it (2v + (period - 1) times the average before) / (period + 1) |
| Indicators.AveragesAreUnique | research/universe_features.py:127-136 | These two weights determine every average |
| Indicators.VwapIsWeighted | research/universe_features.py:145-152 | The price times the total volume is the sum over the bars of a third of high, low and close, times volume |
| Indicators.CumulativeVwap | strategy/deterministic_features.py:83-95 | The running totals give the volume-weighted price of every prefix |
| Indicators.EmaBounds | strategy/deterministic_features.py:67-80 | An average lies between the least and the greatest of its closes |
| Indicators.VwapBounds | research/universe_features.py:139-152 | With positive volume the price lies between the lowest low and the highest high |
| Features.ValidateRawBars | strategy/deterministic_features.py:27-64 | Accepts exactly one-symbol, complete, exact, disjoint, ordered, priced bars; otherwise reports the first fault of the first bad bar |
| Features.BuildLocalFeatures | strategy/deterministic_features.py:98-153 | Fails exactly on unsound bars, and else yields the confirmation bars and the newest signal inputs |
| Features.BacktestBarsRead | strategy/deterministic_features.py:98-153 | The backtest path yields its newest bars, as many as confirmations are asked for, each with its own times and the price and averages of the history up to it |
| Features.DeriveFeatures | research/universe_features.py:155-203 | Reads the signal inputs off the bars by position: the newest close and volume, the price of the newest session alone, extremes and mean volume of the bars just before the newest, and averages over 9 and 20 bars; with count, newest time, and a code per group left unknown; fails exactly when a lookback below one leaves no bar |
| Features.PositiveLookbacks | research/universe_features.py:155-203 | With lookbacks of at least one it never fails, and its inputs are those of the signal |
| Features.RollingIndicatorBars | research/universe_features.py:224-264 | Each built bar carries its own close and times, the price of its own session up to it, and the averages of the history up to it |
| Features.SessionDayIs | research/universe_features.py:139-144 | A session is a calendar day in the offset its bars are stamped with |
| Features.OtherSessionsAreIgnored | research/universe_features.py:139-144 | A bar of another session, wherever it stands, does not change the session price |
| Features.OwnSessionOnly | research/universe_features.py:139-152 | However many sessions a window has, the price is that of the newest one alone |
| Common.LastNAt | research/universe_features.py:178-189 | The last n elements are those at the last n positions, in order |
| Features.SessionVwapIsCumulative | research/universe_features.py:139-152 | Within one session the recomputed price is the cumulative one |
| Features.PathsAgree | research/universe_features.py:127-264 | Backtest and live path produce the same newest values and the same confirmation bars, up to provenance |
| Features.SameDecision | strategy/deterministic_features.py:67-153 | On single-session prices both paths reach the same regime and the same call, put or no trade |
| Features.NoLookahead | strategy/deterministic_features.py:98-153 | Later bars cannot change the indicators of an earlier backtest bar |
| Features.NoLiveLookahead | research/universe_features.py:224-264 | Later bars cannot change the indicators of an earlier live bar |
| Regime.DetermineMarketRegime | strategy/market_regime.py:137-179 | The loops over groups and symbols compute the regime and its reasons |
| Regime.RegimeIff | strategy/market_regime.py:126-179 | A direction is reached exactly when every reference symbol has enough bars that all point that way |
| Regime.RegimeReasons | strategy/market_regime.py:137-179 | A day without a direction names every refusing reference symbol with its own cause, or else that the symbols disagree |
| Regime.SignalIff | strategy/underlying_signal.py:36-100 | A call or put is signalled exactly on a volume-confirmed close beyond the range, with the market |
| Regime.SignalReasons | strategy/underlying_signal.py:36-100 | Each reason against a signal is given exactly when it stands, stage by stage |
| Symmetry.EmaImage | research/universe_features.py:127-136 | Averages follow every affine change of prices |
| Symmetry.VwapImage | research/universe_features.py:139-152 | Volume-weighted prices follow every affine change, highs and lows swapping under reflection |
| Symmetry.ExtremesImage | research/universe_features.py:155-203 | The breakout window follows every affine change |
| Symmetry.SignalImage | strategy/underlying_signal.py:72-100 | Reflected inputs give the opposite signal, scaled ones the same |
| Symmetry.DecisionSymmetry | strategy/market_regime.py:126-179 | The whole decision is unchanged by scaling and reversed by reflection, from bars to signal |
| BarSet.ValidateBarSet | strategy/market_regime.py:79-123 | Reports each reason once and exactly when it applies, with the allowed lag or else an interval and the receipt delay; fails exactly when two consecutive ends of a symbol cannot be compared |
| BarSet.FaultyIff | strategy/market_regime.py:37-76 | Each fault of a single bar, on its own terms |
| BarSet.StaleIff | strategy/market_regime.py:108-122 | A symbol is stale exactly when its newest end, read in the host zone if it has none, lies further back than the lag |
| BarSet.NoReasonsIff | strategy/market_regime.py:37-123 | Silent exactly on complete, exact, closed bars, increasing within each symbol, whose newest ends are fresh |
| BarMerge.BarAccumulator.MergeBars | research/universe_evaluation.py:55-61 | Folds one snapshot into the held bars of every symbol |
| BarMerge.MergedAt | research/universe_evaluation.py:55-61 | Merged bars are in time order; held bars win at each time, and repetitions inside one snapshot survive |
| BarMerge.MergeIsIdempotent | research/universe_evaluation.py:55-61 | Folding the same snapshot again changes nothing |
| BarMerge.FirstSnapshotWins | research/universe_evaluation.py:107-109 | Over many snapshots the earliest one with bars at a time supplies them |
| UniverseEvaluation.EvaluateSnapshot | research/universe_evaluation.py:64-228 | Fails without snapshots or receipt times; else judges at the oldest receipt, with exactly its violations, regime, decisions and qualified symbols |
| UniverseEvaluation.HistoryAt | research/universe_evaluation.py:107-130 | A symbol is judged on exactly the merged bars that had closed at the receipt, if the universe wants it |
| UniverseEvaluation.SymbolReads | research/universe_evaluation.py:168-181 | The inputs of its signal are read off that history by position |
| UniverseEvaluation.QualifiedIff | research/universe_evaluation.py:123-201 | A symbol qualifies exactly if a snapshot lists it, the universe wants it, no violation stands, and it breaks out the way both reference symbols move |
| UniverseEvaluation.OnlyFourViolations | research/universe_evaluation.py:123-157 | On bars built here only missing, duplicate, out-of-order and stale are possible |
| UniverseEvaluation.DisorderIffDuplicate | research/universe_evaluation.py:123-157 | A symbol's bars are out of order exactly when two of them are duplicates |
| UniverseEvaluation.AdmissibleIsSound | research/universe_evaluation.py:107-157 | An admissible evaluation rests on complete, ordered, fresh bars that had closed before every receipt |
| SafetyConfig.HardCeilings | risk/startup_guard.py:47-240 | Every accepted configuration obeys the hard ceilings and has a complete friction model |
| SafetyConfig.SafeIff | risk/startup_guard.py:47-240 | A configuration is accepted exactly if it meets every single requirement; otherwise the first one in order that it misses is reported |
| SafetyConfig.ShadowOverride | strategy/shadow_pipeline.py:234-237 | Forcing shadow mode waives the two live-capability requirements and no other |
| OpeningRisk.EvaluateOpeningOrder | risk/validator.py:30-260 | Reports every violation exactly when it applies, once, and approves only without any |
| OpeningReasons.ViolatesIff | risk/validator.py:30-260 | Each of the reasons, on its own terms and in plain numbers, whatever the configuration |
| OpeningReasons.DayIs | risk/validator.py:205-206 | The exchange day of a clock reading, an unzoned one read in the zone of the host |
| OpeningRisk.ApprovedIff | risk/validator.py:30-260 | An order is approved exactly if configuration, contract, account, premium and quote are each good, in numbers |
| OpeningRisk.ApprovedIsAffordable | risk/validator.py:160-197 | An approved premium is under the stage ceiling, 75 in stage one and 120 always, and covered by settled cash |
| OpeningRisk.ApprovedIsTimely | risk/validator.py:111-231 | An approved order is flat, in the window, on a fresh valid quote, 7 to 21 days from expiry |
| TradeManagement.EntryLimitIsFloor | strategy/trade_management.py:21-35 | The limit is the greatest whole number of ticks not above three quarters of the spread, and never passes the ask |
| TradeManagement.ExitIff | strategy/trade_management.py:44-80 | A position is held exactly while nothing asks for its exit; every exit is at the bid |
| ShadowPipeline.EvaluateShadowCandidate | strategy/shadow_pipeline.py:63-287 | Stops at the first refusing stage with exactly its reasons; fails exactly on incomparable bar ends or a signalled contract at a zero price |
| ShadowPipeline.EntryIff | strategy/shadow_pipeline.py:63-287 | An entry is simulated exactly when no stage refuses |
| CandidateReasons.ObjectsIff | strategy/shadow_pipeline.py:135-205 | Each objection to a contract is raised exactly when there is cause for it, in plain numbers |
| ShadowPipeline.EnteredIff | strategy/shadow_pipeline.py:63-287 | A call (put) is entered exactly on sound bars, a rising (falling) market and symbol, a near contract on that side with a fresh quote off its earnings, an acceptable order at the limit, and an activated strategy |
| ShadowPipeline.DecisionSays | strategy/shadow_pipeline.py:63-287 | The status, regime, direction, limit, premium and marks of every decision, by how far the evaluation got |
| ShadowPipeline.PilotMark | strategy/shadow_pipeline.py:268-287 | A pilot entry, and nothing else, carries the no-evidence mark |
| ShadowPipeline.EntryIsBounded | strategy/shadow_pipeline.py:195-287 | An entry buys in the signalled direction under the ask, with its premium under the stage ceiling |
| SessionLog.ShadowSessionRecorder.Append | journal/shadow_recorder.py:105-138 | Appends one line with the next sequence and state, or refuses and changes nothing |
| LogText.StoredLine | journal/shadow_recorder.py:123-136 | A stored line comes back whole exactly if no quoted text has a line separator, else in one more piece than it has separators, the first of which ends inside a string |
| LogText.TextReadsBack | journal/shadow_recorder.py:123-136 | What is written between the quotes of a string is read back as the text that was logged, up to the closing quote |
| SessionText.StoredEvent | journal/shadow_review.py:97 | The stored text of an event is cut into as many lines as its logged texts have separators, and one |
| SessionLog.AtMostOneTrade | journal/shadow_recorder.py:74-103 | A session enters, fills and exits at most once, in that order, and ends at most once |
| SessionLog.LossBound | strategy/shadow_runner.py:240-258 | A recorded exit loses at most the stage ceiling plus friction |
| SessionLog.SnapshotDiscipline | strategy/shadow_runner.py:215-239 | Every logged snapshot is within 80 and 130 percent of the fill, under an hour, and on a fresh quote |
| SampleGate.ReadOnlySampleGate.Evaluate | monitoring/shadow_sampling.py:30-64 | The verdict of the remembered ids and newest source is that of the whole accepted history |
| SampleGate.AcceptedIff | monitoring/shadow_sampling.py:30-64 | Accepts exactly the identified, zoned samples that keep ids unique, sources increasing and ages in range |
| SampleGate.GravestIsGiven | monitoring/shadow_sampling.py:30-64 | A rejected sample is given the gravest cause that stands against it |
| SampleGate.AdmitDisciplined | monitoring/shadow_sampling.py:61-63 | Whatever is offered, the accepted samples stay disciplined and are never rewritten |
| ShadowRunner.ShadowRunner.Evaluate | strategy/shadow_runner.py:80-126 | Logs a genuine decision, and for an entry sets the limit and logs it as working |
| ShadowRunner.ShadowRunner.ObserveEntry | strategy/shadow_runner.py:128-162 | Resolves the entry as its specification says, including the partial effects when the line is refused; `SessionSteps.EntryQuoteResolves` says what that is |
| ShadowRunner.ShadowRunner.ObservePosition | strategy/shadow_runner.py:180-261 | Manages the position as its specification says, including the refused line; `SessionSteps.PositionResolves` says what that is |
| ShadowRunner.DecisionCoupled | strategy/shadow_runner.py:80-126 | A decision keeps runner and log coupled |
| ShadowRunner.EntryQuoteCoupled | strategy/shadow_runner.py:128-162 | An entry quote keeps runner and log coupled |
| ShadowRunner.PositionCoupled | strategy/shadow_runner.py:180-261 | A position observation keeps runner and log coupled |
| ShadowSession.ShadowSessionController.ProcessDecisionSnapshot | strategy/shadow_session.py:57-73 | Gates the sample, then decides; a rejected sample ends the session in error |
| ShadowSession.ShadowSessionController.ProcessEntryQuote | strategy/shadow_session.py:75-96 | Gates the quote, then resolves the pending limit, with the results that `SessionSteps.EntryQuoteResolves` spells out |
| ShadowSession.ShadowSessionController.ProcessPositionObservation | strategy/shadow_session.py:98-112 | Gates the observation, then manages the position, with the results that `SessionSteps.PositionResolves` spells out |
| ShadowSession.ShadowSessionController.FinishDay | strategy/shadow_session.py:114-133 | Completes, abandons the pending limit, or refuses while a position is open |
| ShadowSession.RunsAreCoherent | strategy/shadow_session.py:28-133 | Every run keeps the log sound, the runner coupled to it, and every channel disciplined |
| SessionSteps.EntryQuoteResolves | strategy/shadow_runner.py:128-162 | An accepted quote on a pending entry fills exactly at an ask above zero and at or under the limit, ends the session unfilled exactly if it does not and has timed out, and otherwise leaves limit and log alone |
| SessionSteps.EntryQuoteElsewhere | strategy/shadow_runner.py:128-162 | In any other state an accepted entry quote logs nothing |
| SessionSteps.RejectionEndsSession | strategy/shadow_session.py:45-54 | A rejected sample is logged with its cause and ends a live session in error |
| SessionSteps.DecisionIsLogged | strategy/shadow_runner.py:80-126 | An accepted decision is logged whole; an entry, and only an entry, sets its limit and waits |
| SessionSteps.FinishEnds | strategy/shadow_session.py:114-133 | Finishing abandons a pending limit, completes a waiting session, and changes nothing else |
| SessionSteps.MinutesHeld | strategy/shadow_runner.py:194-196 | Holding time is m minutes exactly from m until m + 1 times sixty seconds after the fill |
| SessionSteps.PositionResolves | strategy/shadow_runner.py:180-261 | What each accepted observation does to an open position: held, sold at its bid with the friction charged, or handed over, each with its cause and its record |
| SessionSteps.PositionElsewhere | strategy/shadow_runner.py:180-184 | Without an open position an accepted observation logs nothing |
| SessionSteps.FilledAtReceipt | strategy/shadow_runner.py:137-151 | Over every run an open position was filled by one accepted quote, at its receipt |
| SessionSteps.HeldUnderAnHour | strategy/shadow_runner.py:194-231 | Over every run a position still open was last observed less than 3600 seconds after that receipt |
| SessionSteps.HourEndsPosition | strategy/shadow_runner.py:194-261 | Over every run an observation from 3600 seconds on never leaves the position open |
| ShadowSession.HoldingsOverRuns | strategy/shadow_runner.py:80-261 | What every state holds over every run; a failed session holds nothing exactly if it never worked a limit, and its limit exactly if no fill was logged |
| ShadowSession.NextDoubles | strategy/shadow_runner.py:128-162 | One request brings limit and fill together exactly when an accepted quote meets a limit left over in error, and nothing parts them again |
| ShadowSession.LeftoversIff | strategy/shadow_runner.py:137-151 | Over any run limit and fill are held side by side exactly when some request was such a quote |
| ShadowSession.LossOverRuns | strategy/shadow_runner.py:137-257 | Over every run an exit is the only one and loses at most the ceiling plus friction |
| ShadowSession.SnapshotsOverRuns | strategy/shadow_runner.py:186-231 | Over every run only positions worth holding are logged as held |
| ShadowSession.LogsOnlyGrow | journal/shadow_recorder.py:105-138 | No later request rewrites a line or an accepted sample |
| ShadowSession.TerminalIsFinal | journal/shadow_recorder.py:96-97 | A complete or failed session logs nothing more |
| LeftoverExample.LeftoversAfterError | strategy/shadow_runner.py:137-151 | From a new session: start, the shipped example, a stale quote and one at 0.46 leave an error with limit and fill at 0.47 |
| LeftoverExample.ExampleEnters | config/shadow_input.example.json:1-106 | Under the shipped configuration and policy the example snapshot is a pilot entry at 47 cents |
| LeftoverExample.ConfigIsSafe | config/safety.toml:1-62 | The shipped configuration passes every check of the guard on its shadow copy |
| ShadowReview.ReviewShadowDay | journal/shadow_review.py:72-150 | Succeeds exactly on readable logs, with the tally of their lines |
| ReviewCounts.ReadableLines | journal/shadow_review.py:94-104 | A file can be read exactly if its lines are objects numbered from one, with payloads and priced exits |
| ReviewCounts.DayIsCounted | journal/shadow_review.py:94-150 | Every figure of a review is a count over the lines of its files: each kind, status, reason and code, the money, the files that end complete, and an error for each that does not end |
| ReviewCounts.EligibleIff | journal/shadow_review.py:56-62 | A day is evidence exactly if it has sessions, all ended, none with an error, a broken hard rule or a pilot decision |
| ShadowReview.ReadableIff | journal/shadow_review.py:94-104 | A writer's log stops the review exactly if one of its lines quotes a line separator |
| ShadowReview.TerminalIsState | journal/shadow_review.py:125-143 | Of a log nowhere cut, the reader's terminal flag is the writer's final state |
| ShadowReview.ReviewAgrees | journal/shadow_review.py:94-150 | Sound logs pass the review exactly if nowhere cut; then completed plus errors is all sessions, and exits, fills, entries and net are theirs |
| ShadowReview.NetOfTrade | journal/shadow_review.py:130-133 | A session's net is its exit bid against its limit less friction, or nothing |
| ShadowReview.PilotsReadBack | journal/shadow_review.py:119-122 | Pilot decisions are counted exactly where a pilot session decided to enter |
| ReviewedRuns.NextAdds | strategy/shadow_session.py:46-54 | The lines a request adds are free of separators exactly if the texts it has logged are: a rejected id, a decision's symbol and reasons, or the reason of an ending |
| ReviewedRuns.RunUnbrokenIff | strategy/shadow_runner.py:97-113 | So it is for the whole log of any run |
| ReviewedRuns.EveryDayReviews | journal/shadow_review.py:94-150 | Whatever a day's sessions were asked, its review succeeds exactly if none had a line separator logged, and then agrees with them |
| ReviewedRuns.EveryReportReads | journal/shadow_experiment.py:99-104 | The report reads any series of such days exactly under the same condition |
| ReviewedRuns.PlainIsUnbroken | execution/shadow_input.py:110-112 | Requests, headers and reference symbols free of separators have none logged |
| ReviewedRuns.SeparatorStopsReview | strategy/shadow_session.py:46-54 | Under any settings a stale quote with an id ending in U+2028 is logged and stops the review |
| ReviewedRuns.DayLossBound | journal/shadow_review.py:130-133 | A day's reviewed loss, no separator having been logged, is at most the ceiling plus friction per exit |
| ShadowExperiment.BuildShadowExperimentReport | journal/shadow_experiment.py:59-156 | Succeeds exactly on readable, timed logs and nonzero capital, with the aggregates of the counted trades |
| ReviewCounts.ReportCounts | journal/shadow_experiment.py:83-156 | Every figure of the report is a count over the lines of the logs it read, and every gate compares its own figure with its own threshold |
| ShadowExperiment.ReportConserves | journal/shadow_experiment.py:93-128 | Under authorization the net and the quarantined pilot results add up to the daily reviews |
| ShadowExperiment.UnauthorizedCountsNothing | journal/shadow_experiment.py:113-121 | Without authorization nothing counts and the gates do not all pass |
| ShadowExperiment.WrittenDayReadable | journal/shadow_experiment.py:99-104 | A day's sound logs are read by the report exactly if nowhere cut |
| ShadowExperiment.PilotIff | journal/shadow_experiment.py:99-114 | Of a log nowhere cut, a session reads as a pilot's exactly when a pilot session decided to enter |
| ShadowExperiment.TradedPilotIsQuarantined | journal/shadow_experiment.py:99-114 | A traded session is quarantined exactly when it ran in pilot mode |
| ShadowExperiment.SummaryAgrees | research/evaluation.py:43-65 | The report and the performance summary agree, whatever the starting capital |
| Performance.MaximumDrawdown | journal/shadow_experiment.py:130-136 | The running-peak loop finds the deepest fall of equity from any earlier level |
| Performance.DrawdownIsDetermined | research/evaluation.py:53-59 | The drawdown depends on the results alone |
| Performance.GrossNet | research/evaluation.py:48-52 | Gross profit less gross loss is the net result |
| Performance.NetOfChronological | journal/shadow_experiment.py:123-128 | Sorting the trades moves no money |
| Performance.ChronologicalIsStable | journal/shadow_experiment.py:123 | Trades of one moment keep their order |
| Performance.SummarizePerformance | research/evaluation.py:43-65 | Net, expectancy, win rate, profit factor and drawdown of the trades in time order |
| Performance.ChronologicalSplit | research/evaluation.py:27-40 | Three consecutive parts that make up all trades in time order, with a test set that is never empty |
| Schedule.DailySlotsAreWellSpaced | monitoring/daily_schedule.py:12-43 | Any two slots of the day are more than ten minutes apart |
| Schedule.TableIs | monitoring/daily_schedule.py:12-43 | A canary twenty minutes before the opening, the gate five minutes after it, a sample every twenty minutes from 7:03 to 12:43, the summary five minutes after the close |
| Schedule.WindowsAre | scripts/launchd_shadow_worker.py:117-148 | Fresh is within 180 seconds of the slot's own minute, a planned fire within 300, on either side |
| Schedule.ResolveSlot | scripts/launchd_shadow_worker.py:117-148 | Unhinted it accepts exactly within 180 seconds of a slot; a hint names the slot and keeps the freshness |
| Schedule.PlanFire | scripts/self_arming_worker.py:86-119 | Runs exactly on an open session within 300 seconds of a slot, and names that slot |
| Schedule.AcceptancesAgree | scripts/launchd_shadow_worker.py:117-148 | All acceptances of one fire mean the same slot |
| Schedule.PlannedHintNamesSlot | scripts/self_arming_worker.py:112-119 | The planned hint, read as the host language reads numbers, is exactly the planned slot |
| Schedule.RunIdsAreDistinct | monitoring/daily_schedule.py:52-60 | Different slots, on any days, never share a run id |
| Ordering.ListFiles | monitoring/scheduler_watchdog.py:172 | The files of a directory, each once, by name in code-point order |
| Ordering.ListingIsUnique | monitoring/scheduler_watchdog.py:43 | A directory has one such listing |
| Watchdog.AlarmIff | monitoring/scheduler_health.py:71-112 | Pending and healthy are judged exactly on a missing and on a timely, matching acknowledgement whose times the host's calendar holds |
| WatchdogRecords.VerdictIff | monitoring/scheduler_health.py:71-112 | Every verdict is given exactly when it is the right one; the check fails exactly beyond the calendar or the parser |
| Watchdog.WatchdogStore.RegisterExpectedRun | monitoring/scheduler_watchdog.py:71-90 | Stores the expectation over any earlier one, or refuses the id, its time or its file name |
| Watchdog.WatchdogStore.WriteStartAck | monitoring/scheduler_health.py:42-68 | Stores the acknowledgement, or refuses the id, its times or its file name |
| WatchdogRecords.RecordsWritten | monitoring/scheduler_watchdog.py:71-90 | What a registration and an acknowledgement store, when they are refused, and that nothing else changes |
| Watchdog.WatchdogStore.CheckExpectedRun | monitoring/scheduler_watchdog.py:103-155 | Files an alarming verdict once and never rewrites one, or reports what stops it |
| Watchdog.WatchdogStore.ScanExpectedRuns | monitoring/scheduler_watchdog.py:158-218 | One tick over the expectation files by name; it stops exactly at the first one that halts it, with its error, keeping the incidents filed so far |
| Watchdog.WatchdogStore.UnresolvedIncidentIds | monitoring/scheduler_watchdog.py:23-60 | The names of the unresolved incidents in file order, repetitions included; fails exactly if some incident file is not text or nested too deep |
| Watchdog.BlocksIff | monitoring/scheduler_watchdog.py:38-60 | A name blocks exactly when some incident without a recorded resolution is shown under it |
| Watchdog.WatchdogStore.RetireExpectations | scripts/retire_stale_expectations.py:41-65 | Retires exactly the active expectations before the cutoff that are listed before any file that halts it (not text, nested too deep, or a day off the calendar), and counts them if there is none |
| Watchdog.WatchdogStore.ResolveIncidents | scripts/retire_stale_expectations.py:68-117 | Resolves exactly the open, dated incidents before the cutoff that are listed before any file that halts it, and counts them if there is none |
| Watchdog.WatchdogStore.ArchiveResolvedIncidents | scripts/cleanup_expired_incidents.py:37-67 | Moves exactly the resolved incidents listed before any file that is not text or nested too deep, and counts them if there is none |
| WatchdogRecords.RetireWrites | scripts/retire_stale_expectations.py:41-65 | Retiring changes the status of a reached active expectation before the cutoff, and nothing else |
| WatchdogRecords.ResolveWrites | scripts/retire_stale_expectations.py:68-117 | Resolving documents a reached open incident of a day before the cutoff, and nothing else |
| WatchdogRecords.IncidentDayIs | scripts/retire_stale_expectations.py:88-104 | An incident belongs to the day in its run id, else to that of its detection |
| WatchdogRecords.StampedDayIs | scripts/retire_stale_expectations.py:93-104 | The day stamped in a run id is that of its first dash-separated part of eight digits, if these are a date |
| WatchdogRecords.MaintenanceHaltsIff | scripts/retire_stale_expectations.py:41-117 | What stops each maintenance script, spelled out |
| WatchdogRecords.ArchiveMoves | scripts/cleanup_expired_incidents.py:37-67 | Archiving moves the reached resolved incidents unchanged, and nothing else |
| Watchdog.TickIff | monitoring/scheduler_watchdog.py:158-218 | After a tick an incident is on file exactly if it was before, or an expectation that the tick reached calls for it |
| WatchdogRecords.TickRecords | monitoring/scheduler_watchdog.py:103-218 | A new incident is that of the first reached expectation that calls for it, with run, time, verdict and no resolution |
| Watchdog.TickKeepsIncidents | monitoring/scheduler_watchdog.py:132-155 | A tick never removes or rewrites an incident, and an unresolved one is among the names that block wherever they can be listed |
| Watchdog.NoMissedRunVanishes | monitoring/scheduler_watchdog.py:103-218 | After a tick every overdue expectation that it reached has an incident |
| Watchdog.MissedRunIsFiledIff | monitoring/scheduler_watchdog.py:103-218 | An overdue run named by one expectation and not on file yet is filed exactly when no manifest that halts the tick is its own or listed before it |
| Watchdog.HaltsIff | monitoring/scheduler_watchdog.py:172-217 | What halts a tick: JSON that is no object, nesting too deep, a refused file name, a too deep acknowledgement, or times beyond the host's calendar, and nothing else |
| Watchdog.FirstStopsAll | monitoring/scheduler_watchdog.py:172-217 | If the manifest listed first halts it, a tick files nothing |
| Watchdog.StoppedTickFilesNothing | monitoring/scheduler_watchdog.py:172-186 | An empty list stored under an earlier name hides a missed run altogether |
| Watchdog.OverflowFilesNothing | monitoring/scheduler_health.py:86-87 | So does an active expectation of the last minute of the year 9999 |
| Watchdog.EvidenceIsKept | scripts/cleanup_expired_incidents.py:37-67 | No history loses an incident from both the active and the archived records |
| Watchdog.UnresolvedStaysBlocking | monitoring/scheduler_watchdog.py:23-60 | Without a resolution an incident stays for ever, unchanged, and among the names that block wherever they can be listed |
| Watchdog.MaintenanceClearsIff | scripts/retire_stale_expectations.py:41-117 | Retire, resolve and archive silence and clear a name exactly when it is recoverable, and then its resolved record is archived |
| Watchdog.MaintenanceIsFinal | scripts/retire_stale_expectations.py:41-117 | After retire, resolve and archive nothing recreates the incident short of a new registration |
| Watchdog.RegistrationReopensIff | monitoring/scheduler_watchdog.py:71-90 | A cleared incident of a run registered again returns exactly when the registration alarms and the tick reaches it |
| Watchdog.MaintenanceIsUndone | monitoring/scheduler_watchdog.py:71-90 | After any maintenance, registering the run without an acknowledgement and ticking past its grace, with nothing to halt the tick, brings the incident back |
| Watchdog.ArchivedIsRecreatedIff | scripts/cleanup_expired_incidents.py:37-67 | Archiving alone lets the next tick recreate it exactly if an expectation still calls for it |
| Watchdog.ArchiveReplaces | scripts/cleanup_expired_incidents.py:55-61 | A record archived under a name used before replaces the earlier one |
| ObservationDay.RegisterDay | scripts/self_arming_worker.py:122-138 | Registers every slot of the day with its own time |
| ObservationDay.PlanAndRegister | scripts/self_arming_worker.py:176-196 | Registers the day exactly when the fire goes ahead, and names the planned slot in its hint |
| ObservationDay.StartWork | scripts/launchd_shadow_worker.py:520-545 | Starts exactly on a fresh slot, the hinted one if there is a hint, and acknowledges that slot |
| ObservationDay.Fire | scripts/self_arming_worker.py:176-206 | With a clock reading each, wrapper and worker start exactly the slot that was planned on an open session and is fresh when the worker begins |
| ObservationDay.RunTick | scripts/watchdog_tick.py:85-97 | Registers the day it runs on if the market is open, and scans |
| ObservationDay.RegistersIff | scripts/self_arming_worker.py:86-138 | A day is registered by its preparation, by a fire on an open session (on a half day before 10:00) within 300 seconds of a slot, by a tick on a trading day, and by nothing else |
| ObservationDay.StartsIff | scripts/launchd_shadow_worker.py:117-148 | A worker starts a slot exactly within 180 seconds of it, and a hinted one only the slot of its hint |
| ObservationDay.ExpectedIff | monitoring/collection_observer.py:189-212 | A run has an expectation exactly when its day was registered |
| ObservationDay.AcksOfHistory | scripts/launchd_shadow_worker.py:520-545 | After any history a run is acknowledged exactly when one of its own workers was fresh |
| ObservationDay.VerdictOfHistory | monitoring/scheduler_health.py:10-14 | A run is healthy exactly when a worker started it, and missed exactly when none did and 180 seconds passed |
| ObservationDay.IncidentsOfHistory | monitoring/scheduler_watchdog.py:158-218 | Over any history a run has an incident exactly when some tick found it registered, not started and past its grace |
| ObservationDay.MissedIff | monitoring/scheduler_watchdog.py:158-218 | If clocks never go back, exactly when no worker ever started it and some tick came past its grace with its day registered |
| ObservationDay.HalfDayStartsIff | scripts/self_arming_worker.py:97-100 | On a half day the workers the wrapper launches can start exactly the slots under five minutes behind the close |
| ObservationDay.HalfDayAlwaysMisses | scripts/self_arming_worker.py:97-138 | On a half day every slot from five minutes behind the close on is always reported missed |
| ObservationDay.StampedDayIsDay | scripts/retire_stale_expectations.py:92-104 | The day in a run id is read back as the day it was scheduled for |
| ObservationDay.MaintenanceClearsDay | scripts/retire_stale_expectations.py:41-117 | Past the cutoff, maintenance clears any day's incidents for good and keeps their records |
| Trajectory.LastPilotSlotIsLast | monitoring/daily_schedule.py:45-49 | The last pilot slot of the table is 12:43 |
| Trajectory.OpenRefreshTargets | research/trajectory_recorder.py:299-323 | Finds exactly the unrejected, unclosed trajectories, with the observation each is due |
| Trajectory.NearestTheMoney | research/trajectory_recorder.py:121-158 | The first nearest contract of the wanted kind with a strike and an ask, or none |
| Trajectory.FirstSix | scripts/deterministic_slots.py:350-353 | The ids asked for are those with fewer than six before them |
| Trajectory.TrajectoryStore.Refresh | scripts/deterministic_slots.py:344-378 | Asks for the six lowest open instruments, writes one observation for each open trajectory whose quote is in the answer, and counts them |
| Trajectory.TrajectoryStore.OpenCandidate | scripts/deterministic_slots.py:428-486 | Opens the selected contract, adds its one window quote and names the trajectory, or does nothing |
| Trajectory.TrajectoryStore.RunPilotSample | scripts/deterministic_slots.py:344-486 | Refreshes with those six asked for, then opens at most three, only if the horizon is observable and the evaluation admits them, and names what it opened in order |
| TrajectoryDay.OpenedIsNearest | scripts/deterministic_slots.py:440-452 | The opened contract is on the signal's side and no other is nearer |
| TrajectoryDay.OpenedIff | scripts/deterministic_slots.py:411-486 | A slot opens exactly the trajectories that its selected symbols call for, each with a candidate read off its chain and a window quote read off its probe |
| TrajectoryDay.SelectedAreStrongest | scripts/deterministic_slots.py:411-423 | No symbol left out had a higher ratio, and none is left out below the cap |
| TrajectoryDay.LabelsIff | strategy/policy_labels.py:39-46 | A label is recorded exactly when its threshold is cleared |
| TrajectoryDay.SlotKeepsDay | scripts/deterministic_slots.py:344-486 | A slot keeps every trajectory sane and opens at most three, one per symbol not open that day |
| TrajectoryDay.DaysAreSane | research/trajectory_recorder.py:197-323 | Over any slots each trajectory has one candidate and at most one close, last and not before its horizon, one per symbol |
| TrajectoryDay.DayOpensIff | scripts/deterministic_slots.py:394-399 | Over any slots a symbol counts as open exactly when some slot recorded a candidate that carries it |
| TrajectoryDay.TriedAgainIff | scripts/deterministic_slots.py:411-423 | Within the cap a qualified symbol is tried again exactly while no recorded candidate carries it |
| TrajectoryDay.ClosedIsFinal | research/trajectory_recorder.py:311-313 | Nothing is recorded after the close |
| TrajectoryDay.ObservedIff | scripts/deterministic_slots.py:344-378 | On an open trajectory a slot records exactly the quote it was answered with: its bid, ask, mark and times on the candidate's contract, as a close from sixty minutes on, and nothing else |
| TrajectoryEvidence.ObservationIsRead | research/trajectory_recorder.py:232-262 | An observation has the bid, ask, mark, receipt and source of the answer, and everything else from its candidate |
| TrajectoryEvidence.OpeningIsRead | research/trajectory_recorder.py:161-229 | A candidate has the prices of its chain quote, its ask as the limit, 60 seconds to fill and 60 minutes to run |
| TrajectoryEvidence.WindowQuoteIsRead | scripts/deterministic_slots.py:165-225 | The window quote has the prices of the probe for the candidate contract |
| TrajectoryEvidence.DueIff | research/trajectory_recorder.py:299-323 | A trajectory is due exactly when its first candidate was not rejected and nothing closed it: for its close from the horizon on, for a quote before |
| TrajectoryEvidence.OpensIff | scripts/deterministic_slots.py:428-468 | A symbol opens exactly when it has labels, a direction, a price, and a nearest eligible contract that is named |
| TrajectoryEvidence.LabelsForIff | scripts/deterministic_slots.py:430-435 | Its labels are those whose thresholds its reported ratio clears |
| TrajectoryEvidence.TiesKeepOrder | scripts/deterministic_slots.py:411-417 | Among symbols of one ratio those listed first are tried first |
| TrajectoryEvidence.AdmittedIff | scripts/deterministic_slots.py:141-162 | Candidates are admitted exactly up to the end of the minute an hour before 12:43 |
| TrajectoryDay.DayIsRead | research/trajectory_recorder.py:161-262 | Over any slots every recorded event was read off an answer that one of them got |
| TrajectoryDay.ClosesIff | research/trajectory_recorder.py:299-323 | A slot closes a trajectory exactly when it starts at or after the horizon and the probe returned its quote |
| TrajectoryDay.DayClosesIff | research/trajectory_recorder.py:299-323 | A trajectory open after some slots ends the day closed exactly when a later slot was answered with its quote at or after its horizon |
| TrajectoryDay.KnifeEdge | scripts/deterministic_slots.py:141-162 | At the last slot closing depends on the launch lags alone |
| TrajectoryExamples.LagDecides | scripts/deterministic_slots.py:141-162 | A whole day, every probe answered as asked, closes its candidate exactly when the last slot was launched no earlier in its minute |
| TrajectoryExamples.AdmittedButMissed | scripts/deterministic_slots.py:154-162 | A day whose candidate of 11:43:05 is still open after the last slot at 12:43:00 |
| TrajectoryDay.Starved | scripts/deterministic_slots.py:350-365 | Behind six others nothing is recorded, even of a partial answer |
| TrajectoryDay.StarvedIff | scripts/deterministic_slots.py:350-365 | Answered exactly as asked, an open trajectory is observed exactly when fewer than six open instruments come before its own |
| TrajectoryExamples.StarvedMorning | scripts/deterministic_slots.py:350-365 | A morning with seven instruments open, all probes answered, on which the last one is not observed |
| EodReport.SameFriction | scripts/eod_report.py:98-105 | The report charges what the runner charges |
| EodReport.ReconstructTrade | scripts/eod_report.py:197-283 | The outcome, fill, exit and money of one trajectory's events |
| EodReport.FilledIff | scripts/eod_report.py:246-270 | Filled exactly when a later quote received within 65 seconds had an ask at or under the limit, and then at the ask of the earliest such quote |
| EodReport.OutcomeIff | scripts/eod_report.py:230-283 | Every outcome is reported exactly when it is the right one, and money only of a trade that was exited |
| EodReport.WindowReads | scripts/eod_report.py:131-194 | What an audit window says of a quote on either clock, in seconds |
| EodReport.FirstOfKind | scripts/eod_report.py:204-207 | The events of a kind are taken in order, the first candidate and the first close deciding |
| EodReport.OrderIsIrrelevant | scripts/eod_report.py:253-264 | The order of the events does not change the trade |
| EodReport.SaneIsRecorded | research/trajectory_recorder.py:270-279 | What the recorder leaves has the distinct times that the order theorem needs |
| EodReport.AuditFillWindows | scripts/eod_report.py:131-194 | One window for each priced quote of the first unrejected candidate, in order, and the number of those that diverge |
| EodReport.AuditAgrees | scripts/eod_report.py:131-194 | The adjudicated fill is the audit's receipt-clock verdict on quotes after the candidate |
| EodReport.DayAuditAgrees | scripts/eod_report.py:131-194 | So it is for every trajectory that any day of slots recorded |
| EodReport.DivergenceIsConservative | scripts/eod_report.py:162-185 | Where the clocks diverge the quote came past the receipt window and did not fill |
| EodReport.DayTradesAreBounded | scripts/eod_report.py:197-283 | Over any slots an exited trade was bought at an ask some slot was answered with, at or under the recorded one, sold at a bid some later refresh was answered with, and loses at most that ask and friction |
| Stamps.TextOrderIsTimeOrder | journal/shadow_experiment.py:123 | UTC timestamps sort as text exactly as their instants do, with or without microseconds |

## Left out

- SafetyConfig: values of the wrong type in the configuration file, and not-a-number; each key is missing or has its declared type.
- OpeningRisk: the zone database; the exchange's and the host's UTC offsets at the clock reading are inputs, and so is every unknown value.
- Features.RollingIndicatorBars: confirmation counts below one, for which the original builds no bars; the versioned policy pins them.
- Features.PathsAgree: rounding of decimal division; arithmetic is exact.
- MarketDays.NextMarketOpenDate: the overflow beyond the last date the host language can represent.
- BarMerge.BarAccumulator.MergeBars: the order of symbols in the dictionary.
- ShadowPipeline.EvaluateShadowCandidate: missing keys in the strategy policy, which stop the original with an error.
- SessionLog.ShadowSessionRecorder.Append: the scan for sensitive keys, which the fixed keys of the runner's payloads never meet; failures of the file system; and text that cannot be encoded (a lone surrogate in a sample id), which makes the original fail although the transition is allowed.
- SampleGate.ReadOnlySampleGate.Evaluate: ages are compared in whole microseconds.
- ShadowRunner.ShadowRunner.Evaluate: the other fields of a logged decision (option type, strike, expiration, regime, direction): enumerated values, numbers and dates, which quote no text.
- ShadowRunner.ShadowRunner.ObservePosition: the record that a manual-intervention line also carries; the model logs its reason.
- ShadowReview.ReviewShadowDay: the order of the rendered counts, and lines that are JSON but not objects, which count as unreadable.
- ShadowExperiment.BuildShadowExperimentReport: the original sorts `recorded_at` as text, the model by instant; the recorder writes UTC, where both agree (`Stamps.TextOrderIsTimeOrder`), other offsets are not modelled. The directory listing: days and files come in listing order, and the authorization record is a flag.
- Watchdog.WatchdogStore.ScanExpectedRuns: the alert file written beside a new incident, letters outside ASCII in run ids, run ids in a manifest that name another directory, and failures of the file system other than a refused file name.
- Watchdog.WatchdogStore.ResolveIncidents: the documented root cause and the name of the person recording it.
- Watchdog.WatchdogStore.RetireExpectations: the dry-run switch of the maintenance scripts, which reports and changes nothing.
- ObservationDay.Fire: process, lock and child handling, clock changes within a session, and a canary started by hand.
- ObservationDay.MissedIff: days outside the years 1000 to 9998, whose stamps are not padded or whose deadlines leave the host's calendar; the disk takes the names of the runs in the table.
- ObservationDay.HalfDayStartsIff: it relies on workers beginning on the day their fire was planned.
- Schedule.ResolveSlot: which of two slots at one minute a hint names (the table has none); digits and blanks outside ASCII in hints, which the host language would also read.
- Trajectory.TrajectoryStore.RunPilotSample: the summary receipt, the calibration trade, and the waiting inside the fill window, which is one optional probe; symbols are upper case as in the universe file.
- TrajectoryDay.DaysAreSane: it relies on receipts not preceding the slot that asked for them, on chains that name their own symbol (without which see `TrajectoryDay.DayOpensIff`), and on a duplicate-free list of qualified symbols.
- EodReport.ReconstructTrade: the original sorts `quote_received_at` as text, the model by instant, which agree on the recorder's UTC stamps; timestamps that cannot be parsed, which the recorder does not write.
- Live order execution, its guards, order state and cash ledger: small tables and one-step checks.
- Market-data collection, authorization transport, dashboards, documents, command line and schedules of the host: no decision logic of their own.
- Randomized and statistical analysis (bootstrap, validation power, cost wall): floating point and randomness.
