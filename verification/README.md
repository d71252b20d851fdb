# Verification models of the trading-research scripts

A Dafny model of the self-contained algorithms under `scripts/`: the loops that fetch, repair and store price
history, the trade simulators that judge a strategy on it, the backtest loop and its statistics, and the text and list
surgery of the quality tools. The live engine (guard, kill switch, paper trader, strategies), the venues and the
databases' own engines are outside the scripts modelled; they appear as functions or parameters about which only what
a statement says is assumed.

Beside the specification function of each loop stand laws that do not name it: what a run does is also said in terms of
bars, ticks, lines, requests and numbers alone.

Prices, spreads and P&L are `real`, times are `int` (milliseconds or seconds as in the source), tables are maps held
by a class. Code that changes state is a class or a loop proved equal to a specification function; the properties are
then proved about that function, for every input and every run.

| file | source | subject |
|---|---|---|
| `BinanceFetch.dfy` | `scripts/fetch_binance_history_2yr.py` | backward paging, retries, checkpoints, resume |
| `Backfill.dfy` | `scripts/backfill_bars_to_timescaledb.py` | backward chunks into an insert-if-absent table, resume point |
| `BarRepair.dfy` | `scripts/fetch_binance_history_2yr.py` | longest gap-free segment, zero-volume repair |
| `GateStudy.dfy`, `Positions.dfy`, `StrategyCalls.dfy` | `scripts/gate_loosening_study.py` | the single-position simulator, and what its strategy is asked |
| `LboStress.dfy` | `scripts/lbo_cost_stress.py` | the simulator with costs, compared over two runs |
| `TickBars.dfy` | `scripts/import_ticks.py`, `scripts/aggregate_ticks_to_bars.py`, `scripts/compare_tick_quality.py` | ticks to bars, three ways |
| `SpreadEvents.dfy` | `scripts/ftmo_broker_validation.py` | spread widening detector |
| `StripDates.dfy` | `scripts/deadline_owner_check.py` | removing untagged dates from a document |
| `BarImport.dfy` | `scripts/import_ctrader_bars.py` | guarded upsert transaction |
| `BlendHarness.dfy`, `HarnessTrace.dfy`, `BlendStats.dfy` | `scripts/backtest_blend_harness.py` | event loop, the record of its calls, and statistics |
| `QualityGate.dfy`, `TscBatches.dfy` | `scripts/builder_quality_gate.py` | baseline diff, batching, TypeScript grouping, the TypeScript check in batches |
| `LevelStudy.dfy` | `scripts/backtest_q2_lod_hod_stop_rate.py` | day groups, global indices, trades |
| `SwingStudy.dfy` | `scripts/backtest_q1_3_to_1_rr.py` | swing points, outcomes, rates |
| `LossClassifier.dfy` | `scripts/categorize_losses.py` | loss categories |
| `Sorting.dfy`, `Reals.dfy`, `Texts.dfy`, `Wrappers.dfy` | Python's `sorted`, `max`, `min`, `abs`, `round` and white space, optional values | shared |

## Where the code does less than it says

The code is modelled as written. Each point names the lemmas that show the failing case and, where one is given, the
exact condition.

- **Resume is not clean from every checkpoint.** `scripts/fetch_binance_history_2yr.py:17` promises it. A checkpoint
  written inside the loop, and the final one after a short page, hold the new bars with the old cursor, so resuming
  repeats exactly one page (`ResumeBehind`). Also when newer bars have come in between, a resume is clean exactly when
  the stored cursor stands just before the first stored bar, or nothing is accepted: a cap is reached already or the
  first page is not answered (`ResumeIsCleanExactlyWhenAligned`).
- **Backfill can skip the older of two bars closer than one period** (`SpacingIsNeeded`): every run on an honest API
  that does not fail covers its window exactly when, of any two venue bars in it closer than one period, the older is
  in the table already (`CoversExactlyWhenCloseOnesAreStored`). A run that fails stores everything above a cut and
  nothing at or below it (`FailedRunHasCut`); a failed first session does leave a hole (`FailedSessionLeavesAHole`),
  and since a session resumes from the newest stored bar, no later session ever fills it (`FirstHoleIsPermanent`,
  `HolesArePermanent`, `ResumeFillsOnlyTheFuture`).
- **A position can make 4 risk units or lose more than one** when it is opened on the very last bar, because the forced
  close uses that bar unbounded (`LastBarCanPayMore`, `LastBarCanLoseMore`); elsewhere it can do neither, whatever its
  signal (`PositionBounds`). It happens exactly when that bar closes four times as far from the entry as the distance
  the size is computed on, or further against it than that distance (`BoundsFailExactlyWhen`). Exits after `k` partials
  book `1 + k/3` of the quantity (`QuantityIsOverbooked`).
- **More slippage can raise the net result**: the entry is shifted but the size is not, which widens the targets
  (`SlippagePaysFullTargets`); at all costs some sound run nets more (`SlippageCanRaiseTheNet`). Runs that slip
  differently can differ by any amount in either direction (`SlippageDecidesNothing`), so one set of costs never nets
  more than another on any sound run exactly when both slip alike and its fees are at least as high
  (`NeverNetsMoreExactlyWhen`). A run is sound when its bars are valid and every signal enters within its bar with a
  stop on the right side.
- **A copy of a gate with an empty session set lets more bars through**, unless the gate lets none through anyway
  (`CopyIsFaithfulExactlyWhenSessionsNotEmpty`).
- **The minute bucket is the epoch bucket only for timeframes that divide the hour**
  (`BucketsAgreeExactlyWhenSixtyDivides`).
- **The column `spread_pips` has two units**: the price average of `generate_bars` and the pips of
  `aggregate_symbol_timeframe` agree on a row exactly when its spread is zero (`SpreadColumnsAgreeExactlyWhenZero`).
- **A forced rebuild without ticks deletes the bars and builds none** (`BarStore.AggregateSymbolTimeframe`).
- **Dates can take an unterminated last line with them** (`UnterminatedDateVanishes`): exactly when it has an untagged
  date, nothing but white space outside its untagged dates and, if there is one only, nothing but blanks after it
  (`LinesAreKeptExactlyUnlessLastVanishes`, `LineVanishesExactlyWhen`).
- **The row-count assertion of the importer cannot see lost rows** (`AssertionFiresExactlyOnOvergrowth`), and never
  fires on a true upsert (`ImportAppliesExactlyWhen`).
- **The H1 bar of the same second is in the window of an M15 evaluation.** Bars are stamped by opening time, so on
  three of four quarter hours the window holds an unfinished H1 bar (`WindowIsFinishedExactlyWhen`).
- **Without costs the strategies are shown a spread that is not quoted** (`SpreadIsQuotedExactlyWhen`).
- **A duplicate fingerprint can hide a blocking finding** (`DuplicateHidesABlocker`, `NothingIsMissedExactlyWhen`),
  and a finding outside the added lines does not block although the docstring of `_classify_findings` counts it as new
  (`OutsideAddedIsInformational`).
- **Batching is not invisible to the TypeScript check** (`TscDependsOnBatches`), although it is to every additive check
  (`TransparentExactlyWhenAdditive`). Given batches name every TypeScript file once exactly when each of them has a
  TypeScript file and some root or a scoped configuration (`NamesEachOnceExactlyWhen`). Their rows are those of a single
  pass, whatever the compiler answers, exactly when there is one batch, or they are such batches and, without a scoped
  configuration, no root has files in two of them (`AgreesAlwaysExactlyWhen`).
- **3:1 is booked only when one bar jumps straight to the third target** (`ThreeToOneIsOneBar`). The reported rates
  need not sum to one (`RoundedRatesMissOne`); they do exactly when as many are rounded up as whole percents are left
  over (`ReportedRatesSumToOneExactlyWhen`). The bar of 60 percent is compared with the rounded rate: above 59.5 percent
  a study passes, below it fails, and at 59.5 the rounding of the binary value decides (`PassesExactlyWhen`).
- **One line can stop an import**: a readable date with an infinite volume, or with prices on a day beyond the year
  9999, raises out of the reader, and so do exactly the files with such a line (`ReadingRaisesExactlyWhen`).
- **The confidence floor of the classifier is never reached** (`ConfidenceRange`).

## Model

| member | source | states |
|---|---|---|
| BinanceFetch.HonestPoll | scripts/fetch_binance_history_2yr.py:530-615 | on a venue that answers with the newest bars before the cursor, an accepted page is exactly the newest page, and an answered empty page means that nothing older exists |
| BinanceFetch.PollIsFirstAnswer | scripts/fetch_binance_history_2yr.py:530-615 | on any venue, of eight requests at most for a page the first that is answered or brings a ban decides, and eight others give the page up |
| BinanceFetch.TurnOnPage | scripts/fetch_binance_history_2yr.py:617-658 | an empty page ends the run and changes nothing; any other is put in front of the bars and stored with the old cursor; fewer than 1000 bars end the run, and a full page moves the cursor to just before its first bar |
| BinanceFetch.RunIsBounded | scripts/fetch_binance_history_2yr.py:508-548 | on any venue whatever, a page costs one checkpoint and at most eight requests, and no run goes past the page cap |
| BinanceFetch.WindowRun | scripts/fetch_binance_history_2yr.py:508-658 | a run whose cursor excludes exactly what it holds of a window of the history grows that window to the left at every checkpoint: nothing missed, nothing repeated |
| BinanceFetch.FirstRun | scripts/fetch_binance_history_2yr.py:508-693 | at every checkpoint of a first run the bars are a suffix of the history; stopped on a short or empty page they are all of it; stopped on its caps it has reached one; a run that gave up holds a suffix; its pages are its checkpoints but one |
| BinanceFetch.ResumeAfterCap | scripts/fetch_binance_history_2yr.py:653-691 | resuming the final snapshot of a capped run with larger caps is the larger run: same bars, pages, requests and checkpoints but for the extra final one |
| BinanceFetch.FirstRunSnapshots | scripts/fetch_binance_history_2yr.py:633-691 | each checkpoint inside the loop is one page behind its bars; the final one is behind exactly after a short page and aligned otherwise |
| BinanceFetch.ResumeBehind | scripts/fetch_binance_history_2yr.py:483-498 | resuming a snapshot one page behind repeats exactly that page, or accepts nothing and changes nothing |
| BinanceFetch.ResumeAligned | scripts/fetch_binance_history_2yr.py:483-498 | resuming an aligned snapshot keeps the bars a suffix of the history, and all of it when the venue is exhausted |
| BinanceFetch.ResumeAlignedLater | scripts/fetch_binance_history_2yr.py:483-498 | with newer bars at the venue, an aligned snapshot goes on to the left of the old history and never sees the newer ones; an empty one begins afresh |
| BinanceFetch.ResumeBehindIsNotAscending | scripts/fetch_binance_history_2yr.py:483-498 | a resume whose cursor lets in a bar already held is ascending if and only if a cap is reached already or the first page is not answered |
| BinanceFetch.RepeatedPageIsNotAscending | scripts/fetch_binance_history_2yr.py:627-630 | a slice of the history put in front of bars no newer than its last is never a strictly ascending history |
| BinanceFetch.ResumeIsCleanExactlyWhenAligned | scripts/fetch_binance_history_2yr.py:633-643 | for every snapshot of a first run, any newer bars since and every way of resuming it: strictly ascending bars if and only if the stored cursor stands just before the first bar, a cap is reached already or the first page is not answered |
| BinanceFetch.PairFetcher.PollPage | scripts/fetch_binance_history_2yr.py:522-615 | the retry loop answers with the first accepted page, an exhausted history or a give-up, at the request number the specification says |
| BinanceFetch.PairFetcher.FetchPage | scripts/fetch_binance_history_2yr.py:508-658 | one turn changes bars, pages, cursor and checkpoint as the specified page turn does |
| BinanceFetch.PairFetcher.SaveState | scripts/fetch_binance_history_2yr.py:633-643 | a checkpoint stores bars, pages and the cursor as they stand, and nothing else changes |
| BinanceFetch.PairFetcher.FetchOnePair | scripts/fetch_binance_history_2yr.py:452-693 | the whole loop with its final snapshot ends in exactly the state of the specified run |
| Backfill.UpsertKeeps | scripts/backfill_bars_to_timescaledb.py:85-117 | inserting a page never alters a stored row; every time of the page is there afterwards, and a row that was not there before has, field by field, the prices and the volume of the first bar of the page that opens at its time, and closes one period later |
| Backfill.RequestIsFirstAnswer | scripts/backfill_bars_to_timescaledb.py:161-186 | on any API, of five requests at most for a chunk the first that is not rate limited decides, and five rate limits give the chunk up |
| Backfill.RunKeepsRows | scripts/backfill_bars_to_timescaledb.py:158-245 | for any API behaviour a run drops and alters no row, and attempts at least as many rows as it adds |
| Backfill.HonestTurn | scripts/backfill_bars_to_timescaledb.py:158-239 | one turn stores only venue bars of the window, and everything above the next cursor, or the whole window when it stops without failing, if of two close bars the older is stored already |
| Backfill.RunCovers | scripts/backfill_bars_to_timescaledb.py:158-245 | when of any two venue bars of the window closer than one period the older is stored already, a run that does not fail leaves every venue bar with from < t <= now in the table; only such bars are added, each with its own prices |
| Backfill.OnGridIsSpaced | scripts/backfill_bars_to_timescaledb.py:226-239 | opening times on the period grid meet that condition, whatever is stored |
| Backfill.SpacingIsNeeded | scripts/backfill_bars_to_timescaledb.py:226-239 | if two bars are closer than one period, some honest API that never fails makes the run leave the older one out |
| Backfill.CoversExactlyWhenCloseOnesAreStored | scripts/backfill_bars_to_timescaledb.py:158-239 | on every honest API every run that does not fail covers (from, now] if and only if, of any two venue bars in it closer than one period, the older is in the table before |
| Backfill.FailedRunHasCut | scripts/backfill_bars_to_timescaledb.py:180-185 | under the same condition a failed run has a cut: every venue bar above it is stored and nothing at or below it was added |
| Backfill.FailedSessionLeavesAHole | scripts/backfill_bars_to_timescaledb.py:140-185 | on any venue a first session that is answered one page and then fails ends without the older bar |
| Backfill.HolesArePermanent | scripts/backfill_bars_to_timescaledb.py:140-150 | over any number of later sessions, failing or not, nothing older than the newest stored bar is ever added |
| Backfill.FirstHoleIsPermanent | scripts/backfill_bars_to_timescaledb.py:140-185 | the hole of that failed session is never filled by any later session on an honest API |
| Backfill.ResumeFillsOnlyTheFuture | scripts/backfill_bars_to_timescaledb.py:140-150 | after a resumed session that does not fail, a venue bar up to now is stored if and only if it was stored before or is newer than the newest stored one; old rows are kept and new ones have the bar's own prices |
| Backfill.FirstSessionStores | scripts/backfill_bars_to_timescaledb.py:140-245 | with nothing stored before, a session that does not fail stores every venue bar of the lookback with its own prices, and nothing outside it |
| Backfill.BarTable.GetLatestBarTs | scripts/backfill_bars_to_timescaledb.py:71-82 | the largest stored opening time, and none exactly for an empty slice |
| Backfill.BarTable.UpsertBars | scripts/backfill_bars_to_timescaledb.py:85-117 | the table becomes the old one with the absent rows inserted; the answer is the number attempted |
| Backfill.BarTable.GetTrendbars | scripts/backfill_bars_to_timescaledb.py:161-182 | a chunk's requests: only rate limiting is retried, at most five times |
| Backfill.BarTable.FetchChunk | scripts/backfill_bars_to_timescaledb.py:158-239 | one turn of the loop moves table, cursor and counters as specified and reports why it stops |
| Backfill.BarTable.PageBackwards | scripts/backfill_bars_to_timescaledb.py:157-245 | the loop terminates for every API and ends as the specified run |
| Backfill.BarTable.BackfillSymbolPeriod | scripts/backfill_bars_to_timescaledb.py:120-250 | one session from its resume point leaves the table of the specified session |
| BarRepair.FindGaps | scripts/fetch_binance_history_2yr.py:186-200 | exactly the indices whose step exceeds the tolerance, ascending |
| BarRepair.GapFreeExactlyWhen | scripts/fetch_binance_history_2yr.py:186-200 | without a gap means that no step between neighbours exceeds the threshold |
| BarRepair.CutSegments | scripts/fetch_binance_history_2yr.py:212-221 | the segments tile the list and break at exactly the gaps |
| BarRepair.PickLongest | scripts/fetch_binance_history_2yr.py:223-226 | the first of the longest segments |
| BarRepair.TrimKeepLongestSegment | scripts/fetch_binance_history_2yr.py:156-246 | the result is gap-free and at least as long as every gap-free contiguous slice of the input, the first such |
| BarRepair.LongestRunIsUnique | scripts/fetch_binance_history_2yr.py:223-226 | that property determines the result |
| BarRepair.TrimIsIdempotent | scripts/fetch_binance_history_2yr.py:156-246 | what was kept is its own longest gap-free run |
| BarRepair.TrimZeroVolumeBars | scripts/fetch_binance_history_2yr.py:278-351 | the repair loop yields exactly the specified bars |
| BarRepair.RepairKeeps | scripts/fetch_binance_history_2yr.py:281-351 | length, times and bars that traded are kept, every repaired bar gets a positive volume, valid bars stay valid |
| BarRepair.RepairedBarIs | scripts/fetch_binance_history_2yr.py:281-351 | the repaired bar field by field in the script's three cases, with a millionth of the same bar's volume and a billionth at least |
| BarRepair.AllPositiveExactlyWhenNoneNegative | scripts/fetch_binance_history_2yr.py:281-351 | all volumes are positive afterwards if and only if no input volume was negative |
| BarRepair.FlatFillIsFromLastTradedBar | scripts/fetch_binance_history_2yr.py:283-291 | a repaired bar after a traded one is flat at the close of the last bar that traded in the input, never of a repaired one |
| BarRepair.RepairKeepsCadence | scripts/fetch_binance_history_2yr.py:273-276 | the same steps are gaps before and after, so the same segment is the longest |
| BarRepair.RepairIsIdempotent | scripts/fetch_binance_history_2yr.py:249-351 | repairing twice is repairing once |
| GateStudy.Precompute | scripts/gate_loosening_study.py:113-145 | the label arrays hold, bar by bar, the labels of the 101-bar window and of the hour, and nothing of later bars |
| GateStudy.CopyIsFaithfulExactlyWhenSessionsNotEmpty | scripts/gate_loosening_study.py:58-65 | a plain copy lets the same bars through if and only if the session set is absent or not empty, or the gate lets none through for want of regimes or of an ADX range |
| GateStudy.ManagePosition | scripts/gate_loosening_study.py:187-217 | stop first, up to three targets, then the 50-bar timeout: the position and its bookings as specified |
| GateStudy.RunVariant | scripts/gate_loosening_study.py:181-248 | the loop's ledger is the bookings of the specified positions, in order |
| GateStudy.RunIsItsCalls | scripts/gate_loosening_study.py:181-239 | for every strategy and after any number of bars: it was asked exactly on the open bars on which no position was held, in order, each time with the last 300 bars; and the positions are exactly the signals it fired; open bars are spelled out from the last 101 bars, the regimes, the ADX range and the hour |
| GateStudy.PositionsAreTheSignals | scripts/gate_loosening_study.py:181-248 | the positions a whole run books for are its fired signals, each entered on the bar of its call |
| GateStudy.EveryPositionIsSized | scripts/gate_loosening_study.py:230-239 | every position of every run has side, entry and stop of its signal, and a size that makes 50 of the signal's distance, or of 0.0001 when that is larger |
| GateStudy.RunShape | scripts/gate_loosening_study.py:185-239 | after every run the open position is live and every finished one is done: legal bookings, bars in order, at most fifty of them |
| GateStudy.PartialPaysExactlyWhenStopIsFar | scripts/gate_loosening_study.py:198-209 | a target pays rm times a third of RISK if and only if the stop is at least 0.0001 from the entry |
| GateStudy.PositionBounds | scripts/gate_loosening_study.py:181-247 | with valid bars and any signals: one to three bookings over at most fifty bars; opened before the last bar, at most RISK lost and less than 4 RISK made; opened on it, the mark of its close |
| GateStudy.BoundsFailExactlyWhen | scripts/gate_loosening_study.py:181-247 | with valid bars and any signals, more than RISK is lost, or 4 RISK or more made, if and only if the position is opened on the last bar and its close moves against the entry by more than the sizing distance, or for it by four times that |
| GateStudy.LastBarCanPayMore | scripts/gate_loosening_study.py:240-247 | a one-bar run that books 18 RISK |
| GateStudy.LastBarCanLoseMore | scripts/gate_loosening_study.py:240-247 | a one-bar run with a sound signal that loses 4 RISK |
| GateStudy.QuantityIsOverbooked | scripts/gate_loosening_study.py:193-217 | with k targets and another exit a position books the whole quantity and k thirds more |
| GateStudy.NoLookahead | scripts/gate_loosening_study.py:113-248 | two series that agree on k bars, labels included, leave the same state after k bars |
| GateStudy.ClosedOnlyGrows | scripts/gate_loosening_study.py:185-239 | a finished position is never altered by later bars |
| GateStudy.TruncationKeepsFinishedPositions | scripts/gate_loosening_study.py:185-247 | cutting the series keeps every position finished by then, and changes at most the one still open |
| LboStress.ManagePosition | scripts/lbo_cost_stress.py:92-147 | the position machine with the cost shares 0.5, 0.3 and 0.5, as specified |
| LboStress.RunLbo | scripts/lbo_cost_stress.py:80-190 | the ledger is the bookings of the specified positions |
| LboStress.RunIsItsCalls | scripts/lbo_cost_stress.py:88-181 | at any costs and for every strategy: it was asked exactly on the London bars with an ADX from 15 to 30 on which no position was held, in order, each time with all bars so far; and the positions are exactly the signals it fired |
| LboStress.PositionsAreTheSignals | scripts/lbo_cost_stress.py:80-190 | the positions a whole run books for are its fired signals, each entered on the bar of its call |
| LboStress.EveryPositionIsSized | scripts/lbo_cost_stress.py:164-181 | every position has side and stop of its signal, an entry a tenth of the slippage worse, and the size of the signal's own distance |
| LboStress.CostsOnlySubtract | scripts/lbo_cost_stress.py:80-190 | at any slippage the state after any number of bars is that of the run without spread and commission, with every booking charged |
| LboStress.EpisodesAreCharged | scripts/lbo_cost_stress.py:80-190 | the same positions as at the same slippage without fees, each booking lowered by its share of the fees |
| LboStress.DearerRunBooksLess | scripts/lbo_cost_stress.py:72-190 | two runs that slip alike: same signals, entries, sizes and exits on the same bars, each booking lower in the one with the higher fees, strictly when they differ |
| LboStress.NetNeverRises | scripts/lbo_cost_stress.py:72-190 | so at the same slippage the net never rises with the fees |
| LboStress.ChargedShare | scripts/lbo_cost_stress.py:99-147 | every position is charged between 0.5 and 1.1 of one round turn, by the number of targets taken |
| LboStress.FreeRunIsVariant | scripts/lbo_cost_stress.py:80-190 | on the same signals and gate the cost-free run finishes exactly the positions of `run_variant` |
| LboStress.FullTargetTotal | scripts/lbo_cost_stress.py:105-181 | what a position with all three targets makes, from signal distance, slippage and size |
| LboStress.SlippagePaysFullTargets | scripts/lbo_cost_stress.py:164-181 | of two positions on one signal with all three targets taken, the one that slips more makes 0.02 times the quantity more per unit of slippage |
| LboStress.SlippageCanRaiseTheNet | scripts/lbo_cost_stress.py:80-190 | for all costs and every higher slippage, some two-bar run of valid bars and sound signals nets more |
| LboStress.SlippageDecidesNothing | scripts/lbo_cost_stress.py:80-190 | two costs that slip differently differ on some two-bar sound run by any given amount, in either direction, whatever their fees |
| LboStress.NeverNetsMoreExactlyWhen | scripts/lbo_cost_stress.py:72-190 | one set of costs nets no more than another on every run of valid bars and sound signals if and only if both slip alike and its fees of a round turn are at least as high |
| TickBars.RowsAreGroupBy | scripts/import_ticks.py:140-156 | merging each tick into the last row is the group-by: one row a bucket, first, max, min, last and count of the bucket's ticks |
| TickBars.AscendingIsOrdered | scripts/import_ticks.py:140-156 | buckets follow time, negative times included |
| TickBars.VolumesSumToTicks | scripts/import_ticks.py:150-150 | bar volumes sum to the number of ticks |
| TickBars.RowsAreValid | scripts/aggregate_ticks_to_bars.py:156-167 | open and close lie between low and high whenever each tick's own prices do, for bid bars and for mid bars over bid and ask |
| TickBars.BucketsNest | scripts/import_ticks.py:138-154 | a bucket of the smaller timeframe lies in one bucket of a larger one that it divides |
| TickBars.RollUpAgrees | scripts/import_ticks.py:127-156 | for any ticks and any two timeframes of which one divides the other, rolling small bars up equals aggregating directly |
| TickBars.TableIs | scripts/aggregate_ticks_to_bars.py:140-170 | the group-by by bucket is one row for each bar that has a tick, in time order, each over exactly the stretch of ticks between its start and its end |
| TickBars.LiveBars | scripts/compare_tick_quality.py:531-551 | for ticks in any order, one entry for each part of an hour that has a tick, with first, highest, lowest and last midpoint of its ticks |
| TickBars.BucketsAgreeExactlyWhenSixtyDivides | scripts/compare_tick_quality.py:535-539 | the minute bucket is the epoch bucket for all times if and only if the timeframe divides 60 minutes |
| TickBars.LiveBarsAreTheRows | scripts/compare_tick_quality.py:531-551 | for ordered ticks and such a timeframe the dictionary holds exactly the bars of the group-by |
| TickBars.SpreadPipsIsAverage | scripts/aggregate_ticks_to_bars.py:165-165 | the spread column is the average of the row's own ticks in pips |
| TickBars.PipSizeExactlyWhen | scripts/aggregate_ticks_to_bars.py:50-56 | a pip is a hundredth exactly for symbols that contain XAU, XAG or JPY, and a ten-thousandth for the others |
| TickBars.SpreadColumnsAgreeExactlyWhenZero | scripts/import_ticks.py:151-151 | the spread column of the one script equals that of the other if and only if the spread is zero |
| TickBars.BarStore.BuiltIsGroupBy | scripts/aggregate_ticks_to_bars.py:139-169 | over a valid tick table what is built is the group-by of the symbol's ticks |
| TickBars.BarStore.GenerateBars | scripts/import_ticks.py:117-156 | a slice is skipped without ticks, rebuilt or appended to; the new rows are, bar by bar, first, highest, lowest and last bid of the ticks from its start up to its end, their number and their summed spread |
| TickBars.BarStore.AggregateSymbolTimeframe | scripts/aggregate_ticks_to_bars.py:99-179 | kept when present unless forced; otherwise, bar by bar, first and last midpoint, highest ask and lowest bid of the ticks from its start up to its end, their number and their summed spread |
| SpreadEvents.DetectPair | scripts/ftmo_broker_validation.py:298-331 | the in-event loop emits exactly the specified events of one pair |
| SpreadEvents.RunsAreTheLongRuns | scripts/ftmo_broker_validation.py:302-331 | the reported stretches are exactly the maximal runs at or above the threshold that a lower sample closes and that last long enough, in order, disjoint, each once |
| SpreadEvents.EventsMeetTheSpecification | scripts/ftmo_broker_validation.py:310-331 | each event begins at its run's first sample, lasts to the closing one and peaks at the run's maximum |
| SpreadEvents.ClosingSampleIsNoPeak | scripts/ftmo_broker_validation.py:308-310 | folding the closing sample into the peak never changes it |
| SpreadEvents.GroupByPair | scripts/ftmo_broker_validation.py:281-284 | pairs in order of appearance, each with its samples in order |
| SpreadEvents.DetectSpreadEvents | scripts/ftmo_broker_validation.py:267-333 | for every pair whatever: with at least three samples and a positive median of its first twenty spreads, its events are in order exactly one for each maximal stretch of samples at least threshold times that baseline which a narrower sample closes after at least the minimum duration, with start, duration, peak and condition; every other pair has none; pairs follow each other as they first appear |
| SpreadEvents.DetectionIs | scripts/ftmo_broker_validation.py:268-340 | the same of the specified detection, for every pair |
| SpreadEvents.PairsAreIndependent | scripts/ftmo_broker_validation.py:286-331 | the events reported for a pair are those of its own samples |
| StripDates.StripDateToken | scripts/deadline_owner_check.py:314-369 | the four-way strip of one token, as specified |
| StripDates.StripTokenNonSpace | scripts/deadline_owner_check.py:338-369 | one strip removes exactly the token, up to white space |
| StripDates.StripTokenIs | scripts/deadline_owner_check.py:333-369 | one strip of any line, exactly: between two words one space takes the place of the token and of all white space around it; behind the last word only the line break stays; before the first word nothing does; and of a line without a word what follows the blanks after the token |
| StripDates.StripTokenWords | scripts/deadline_owner_check.py:313-369 | the words left are those before the token and those after it |
| StripDates.FindLandsOnHit | scripts/deadline_owner_check.py:389-394 | looking from one column early lands on the hit itself, because a date is not one character repeated |
| StripDates.StillPlaced | scripts/deadline_owner_check.py:388-395 | stripping the rightmost hit leaves the others where their columns say |
| StripDates.StripLineNonSpace | scripts/deadline_owner_check.py:386-396 | what is left of a line is, up to white space, the line with exactly its hits cut out |
| StripDates.StripLineWords | scripts/deadline_owner_check.py:386-396 | a stripped line has the words of the line with a blank in the place of each date: none is glued to another and none is split |
| StripDates.StripLineTerminated | scripts/deadline_owner_check.py:359-369 | a stripped line keeps its line break and gains none |
| StripDates.DateSurvives | scripts/deadline_owner_check.py:386-396 | a date that no hit overlaps survives verbatim |
| StripDates.StripUntagged | scripts/deadline_owner_check.py:372-397 | the loop over lines and hits gives the specified lines |
| StripDates.TokenVanishesExactlyWhen | scripts/deadline_owner_check.py:338-369 | one strip leaves nothing of an unterminated line if and only if nothing but white space stands before the token and nothing but blanks after it |
| StripDates.LineVanishesExactlyWhen | scripts/deadline_owner_check.py:386-396 | the dates of an unterminated line take all of it if and only if there are some, nothing but white space stands outside them and, when there is one only, nothing but blanks after it |
| StripDates.LinesAreKeptExactlyUnlessLastVanishes | scripts/deadline_owner_check.py:372-397 | for any text the stripped document reads as its stripped lines one for one, without the last exactly when that one vanishes |
| StripDates.TerminatedTextKeepsItsLines | scripts/deadline_owner_check.py:372-397 | newline-terminated text loses no line |
| StripDates.StripConserves | scripts/deadline_owner_check.py:372-397 | for any text the lines stay one for one but for a last one that vanishes, each loses exactly its untagged dates up to white space and has the words of the line with a blank for each of them, and a line without one is unchanged |
| StripDates.TaggedDateSurvives | scripts/deadline_owner_check.py:381-384 | in any text every tagged date survives verbatim in its line |
| StripDates.SplitJoin | scripts/deadline_owner_check.py:379-397 | splitting undoes joining for terminated lines |
| StripDates.UnterminatedDateVanishes | scripts/deadline_owner_check.py:367-369 | text that does not end in a line break can lose its last line |
| BarImport.ReadCsvRows | scripts/import_ctrader_bars.py:190-236 | the rows staged are those of the readable lines in range, in order; nothing is returned when a line raises |
| BarImport.ReadingRaisesExactlyWhen | scripts/import_ctrader_bars.py:190-225 | reading a file raises if and only if some line has a readable date and an infinite volume, or prices on a day beyond the year 9999 |
| BarImport.OnlySecondsAreStaged | scripts/import_ctrader_bars.py:124-236 | a row is staged if and only if it is in range and some line with a readable date says it; a number above the threshold is dropped, or read as milliseconds when they are allowed |
| BarImport.UpsertOverrides | scripts/import_ctrader_bars.py:560-579 | for distinct keys every staged row is there with its own open, high, low, close and volume, no spread, and the old holdout flag or none; all other rows are untouched |
| BarImport.PreflightExactlyWhen | scripts/import_ctrader_bars.py:239-315 | the pre-flight passes if and only if some row is staged and the earliest staged one lies at most 3, 5, 15, 30 or 60 minutes, one candle, before the earliest row there is |
| BarImport.UpsertCounts | scripts/import_ctrader_bars.py:580-586 | the slice grows by exactly the number of new keys |
| BarImport.TrueUpsertIsApplied | scripts/import_ctrader_bars.py:585-597 | for distinct keys the row counts of a true upsert report the new keys as inserted and the others as updated, never a rollback |
| BarImport.AssertionFiresExactlyOnOvergrowth | scripts/import_ctrader_bars.py:585-594 | the row-count assertion fires if and only if the slice grew by more rows than were staged |
| BarImport.SecondImportChangesNothing | scripts/import_ctrader_bars.py:239-298 | after an upsert the same rows pass the pre-flight, have no new key and change nothing |
| BarImport.ImportAppliesExactlyWhen | scripts/import_ctrader_bars.py:425-618 | with the true upsert an import is applied, with new keys inserted and the others updated, if and only if whitelists, file, rows, pre-flight, mode and distinct keys allow it; it is never rolled back |
| BarImport.ImportLeaves | scripts/import_ctrader_bars.py:425-618 | after an applied import every line that stands for a second in range has its own prices in the slice, and every other row is an old one, unchanged |
| BarImport.SecondImportIsIdle | scripts/import_ctrader_bars.py:425-618 | the same import on the slice it left is applied again, inserts nothing and leaves the slice as it is |
| BarImport.MarketDb.ImportCsv | scripts/import_ctrader_bars.py:425-638 | only an applied import changes the bars, and only this slice; a dry run, a failed guard, a rollback and a line or a statement that raises leave them as they were; the staging table and the log entry of each outcome |
| BarImport.MarketDb.Apply | scripts/import_ctrader_bars.py:554-638 | the transaction: an applied statement's slice is kept, a row count that does not add up is rolled back and logged |
| BarImport.LogTells | scripts/import_ctrader_bars.py:525-636 | one log entry exactly for a dry run, an applied import and a rollback, failed for the last alone and with row counts for an applied one alone |
| BlendHarness.StreamIsChronological | scripts/backtest_blend_harness.py:1099-1104 | the stream is a permutation of both bar lists in time order, H1 before M15 at equal times |
| BlendHarness.StreamKeepsEachSeries | scripts/backtest_blend_harness.py:1099-1104 | each timeframe's bars are in the stream in their loaded order |
| BlendHarness.Harness.StoreBar | scripts/backtest_blend_harness.py:1115-1123 | the timeframe's store gets the bar and keeps its last 500; the other store is untouched |
| BlendHarness.Harness.TrackedRoute | scripts/backtest_blend_harness.py:1071-1082 | exactly the position ids that routing opened are attributed to the strategy that routed |
| BlendHarness.Harness.HandleEvent | scripts/backtest_blend_harness.py:1115-1230 | one turn of the loop, in the order store, reprice, gate, evaluate, guard, kill switch |
| BlendHarness.Harness.Drive | scripts/backtest_blend_harness.py:1099-1230 | the merged and sorted stream is driven to the state of the specified run |
| BlendHarness.EveryRunIsOrderly | scripts/backtest_blend_harness.py:1115-1225 | whatever the strategies, trader and guards do: a prefix of the events is handled, all of them unless the loop halts; the processed count omits the halting bar; each store always equals the last 500 bars seen of its timeframe |
| BlendHarness.EveryRunIsReasoned | scripts/backtest_blend_harness.py:1155-1218 | over every run each strategy is asked once and in turn on every handled event whose repriced world the gate lets through, and none on any other; the loop ends at the first event after whose trading the guard or the kill switch fires, and only there |
| HarnessTrace.RunIsRecorded | scripts/backtest_blend_harness.py:1114-1232 | for all parties: the calls of a run are one turn after the other, one for each handled bar: prices half the spread off the close, then the gate, then where it is open every strategy in turn with the same view, each proposal sent on before the next is asked, then the guard; and the run stops at the first turn whose guard or kill switch says so |
| BlendHarness.HaltIsFinal | scripts/backtest_blend_harness.py:1187-1218 | after a halt no later event has any effect |
| BlendHarness.GatedBarTradesNothing | scripts/backtest_blend_harness.py:1155-1176 | on a gated bar the turn is that of a harness without strategies |
| BlendHarness.ClosedGateRoutesNothing | scripts/backtest_blend_harness.py:1155-1176 | a run under a closed gate is the run without strategies and attributes nothing |
| BlendHarness.EveryRunAttributes | scripts/backtest_blend_harness.py:1068-1084 | over a whole run exactly the position ids that routing opened are attributed, each to the configured id of the strategy name that routed it, or to that name in small letters with underscores |
| BlendHarness.RunSeesOtherFrame | scripts/backtest_blend_harness.py:1092-1123 | at any bar of any run the other timeframe's window is exactly its last 500 bars up to the bar's second, that second included for M15 bars only |
| BlendHarness.WindowIsFinishedExactlyWhen | scripts/backtest_blend_harness.py:1092-1104 | the H1 window of an M15 evaluation holds only finished bars if and only if no H1 bar opened within the last 45 minutes |
| BlendHarness.SpreadIsQuotedExactlyWhen | scripts/backtest_blend_harness.py:1125-1142 | the quotes straddle the close; the spread shown to strategies is the quoted one exactly when costs are on and not negative, or off and the bar has none |
| BlendStats.MaxDrawdown | scripts/backtest_blend_harness.py:684-695 | the one pass computes the running-peak drawdown |
| BlendStats.DrawdownIsLargestFall | scripts/backtest_blend_harness.py:684-695 | which is the maximum of C_i - C_j over all i <= j, attained |
| BlendStats.HarnessAndStudyDrawdowns | scripts/gate_loosening_study.py:258-266 | the harness drawdown is the study's maxed with the deepest loss below zero |
| BlendStats.CurveEndsAtTotal | scripts/backtest_blend_harness.py:688-688 | the curve in closing order ends at the realised total |
| BlendStats.PerStrategy | scripts/backtest_blend_harness.py:697-704 | each strategy's trades, P&L and wins are those of its own trades, and no strategy is missing |
| BlendStats.TradesAreTheClosed | scripts/backtest_blend_harness.py:652-672 | the trades are those of the closed positions in their order, each with its profit less commission and its strategy or unknown |
| BlendStats.StrategiesAddUp | scripts/backtest_blend_harness.py:697-712 | the tallies of all strategies add up to all trades, the whole P&L and all wins |
| BlendStats.NothingOfTheBookIsLost | scripts/backtest_blend_harness.py:649-713 | realised trades and floating positions add up to the whole book, in number and in worth |
| BlendStats.ComputeStats | scripts/backtest_blend_harness.py:649-717 | gross profit less gross loss, the trade sum and the curve's end agree; wins and losses are disjoint and the win rate is their share; the factor exceeds one exactly when the net is positive; the drawdown is the largest fall; the final balance is the starting one and the whole book |
| QualityGate.ClassifyFindings | scripts/builder_quality_gate.py:407-472 | the three lists hold, in whatever order sets yield, exactly one finding for each blocking, informational and fixed fingerprint |
| QualityGate.EveryFingerprintOnce | scripts/builder_quality_gate.py:438-463 | new and informational partition the current fingerprints |
| QualityGate.BlockersAreNewAndAdded | scripts/builder_quality_gate.py:449-463 | a blocking finding is current, absent from the baseline and on an added line |
| QualityGate.BlockingIsMonotone | scripts/builder_quality_gate.py:438-463 | a larger baseline or fewer added lines never add a blocker |
| QualityGate.NothingIsMissedExactlyWhen | scripts/builder_quality_gate.py:436-463 | every new fingerprint seen on an added line blocks if and only if no such finding is followed by a last duplicate off the added lines |
| QualityGate.UniqueFingerprintsAreComplete | scripts/builder_quality_gate.py:436-463 | with unique current fingerprints every new finding on an added line blocks |
| QualityGate.DuplicateHidesABlocker | scripts/builder_quality_gate.py:436-436 | two findings with one fingerprint, the first on an added line: nothing blocks |
| QualityGate.OutsideAddedIsInformational | scripts/builder_quality_gate.py:455-463 | a last finding of its fingerprint off the added lines is informational, never blocking |
| QualityGate.ChunkPaths | scripts/builder_quality_gate.py:1663-1688 | the batches flatten to the input, all full but the last; a size below one is refused |
| QualityGate.ChunkedApply | scripts/builder_quality_gate.py:1691-1720 | the rows of the batches in order; nothing for no items |
| QualityGate.TransparentExactlyWhenAdditive | scripts/builder_quality_gate.py:1696-1703 | batched and single pass agree for every list and size if and only if the check is additive |
| QualityGate.CheckTsc | scripts/builder_quality_gate.py:1116-1279 | the rows of the three modes, orphans first and roots in order of first appearance |
| QualityGate.TsFilesCount | scripts/builder_quality_gate.py:1143-1150 | every file ending in .ts or .tsx counts as often as it is given, and no other |
| TscBatches.RowsAreInOrder | scripts/builder_quality_gate.py:1200-1279 | each TypeScript file has one row with what the compiler says of all files of its root; files without a root first, roots as they first appear, files of one root in the order given |
| QualityGate.OneRowPerFile | scripts/builder_quality_gate.py:1223-1279 | with some root or a scoped configuration, exactly one row a TypeScript file, as multisets |
| QualityGate.RootRowsAreRight | scripts/builder_quality_gate.py:1249-1277 | a row carries what the compiler said of all files of the file's own root |
| QualityGate.TscDependsOnBatches | scripts/builder_quality_gate.py:1691-1720 | at every batch size some list gets one row in a single pass and two in batches |
| TscBatches.NamesEachOnceExactlyWhen | scripts/builder_quality_gate.py:1691-1720 | for any given batches the rows name every TypeScript file once, counting repetitions, if and only if every batch has a TypeScript file and some root or a scoped configuration |
| TscBatches.NamedRows | scripts/builder_quality_gate.py:1223-1279 | the rows of such a batch are, in some order, one for each of its files with what the compiler said of the file's root |
| TscBatches.AgreesAlwaysExactlyWhen | scripts/builder_quality_gate.py:1691-1720 | for any given batches the rows are those of a single pass in some order, for every compiler, if and only if there is one batch, or all are such batches and, without a scoped configuration, no root has files in two |
| LevelStudy.GroupByDay | scripts/backtest_q2_lod_hod_stop_rate.py:77-100 | ascending days, each with its bars in order, its lowest low and highest high at their first index |
| LevelStudy.ConcatAscends | scripts/backtest_q2_lod_hod_stop_rate.py:77-100 | the concatenated day groups are in date order whatever the input |
| LevelStudy.IndexInRange | scripts/backtest_q2_lod_hod_stop_rate.py:268-272 | every global entry index is a bar of the list |
| LevelStudy.IndicesAgreeExactlyWhenDatesAscend | scripts/backtest_q2_lod_hod_stop_rate.py:268-272 | the global index finds the day's own k-th bar for all days and bars if and only if the dates never go back |
| LevelStudy.SimulateTrade | scripts/backtest_q2_lod_hod_stop_rate.py:103-195 | the trade ends on the first later bar of the holding window that touches a level, at the stop when it touches both, else stays open; price, slippage and hit type |
| LevelStudy.TradeInPrices | scripts/backtest_q2_lod_hod_stop_rate.py:103-210 | the same in prices and pips: at most 48 bars, the target rr times the risk away, slippage in pips beyond the stop and exact up to two |
| LevelStudy.TradeIsUnique | scripts/backtest_q2_lod_hod_stop_rate.py:103-195 | that description has one result |
| LevelStudy.MirrorKeepsTrade | scripts/backtest_q2_lod_hod_stop_rate.py:103-210 | on negated prices with high and low swapped, the opposite trade ends on the same bar, for the same reason, with the same slippage |
| LevelStudy.FindEntry | scripts/backtest_q2_lod_hod_stop_rate.py:253-300 | the day's entry: the first bar after the set-up, before bar 20, that closes outside it, when both ranges qualify |
| LevelStudy.EntryExactlyWhen | scripts/backtest_q2_lod_hod_stop_rate.py:253-300 | a day has an entry if and only if the day before spans 30 pips, it has six bars, its first four span 5 to 50 pips and a bar before the 21st closes outside them; side, stop and risk of that entry |
| LevelStudy.Analyze | scripts/backtest_q2_lod_hod_stop_rate.py:246-300 | one trade an entry, in order, each simulated from its global index |
| LevelStudy.TradesStartAtBreakouts | scripts/backtest_q2_lod_hod_stop_rate.py:268-300 | when dates never go back every trade starts at the bar that broke out of its own day, and no day is traded twice |
| SwingStudy.DetectSwingPoints | scripts/backtest_q1_3_to_1_rr.py:47-80 | the flag loops compute the specified points |
| SwingStudy.SwingsAreComplete | scripts/backtest_q1_3_to_1_rr.py:47-80 | the points are exactly the swing highs and the swing lows that are not also highs, ascending |
| SwingStudy.SameKindIsSpaced | scripts/backtest_q1_3_to_1_rr.py:53-57 | two highs, or two lows, lie more than lookback bars apart |
| SwingStudy.MirrorExactlyWhenNoOutsideSwing | scripts/backtest_q1_3_to_1_rr.py:59-78 | turning the chart upside down turns the points upside down if and only if no bar is a high and a low at once |
| SwingStudy.EvaluateTradeOutcome | scripts/backtest_q1_3_to_1_rr.py:156-188 | the outcome is the grade of the first touching bar of the window alone; none when no bar touches |
| SwingStudy.GradeInPrices | scripts/backtest_q1_3_to_1_rr.py:168-186 | what one bar's high and low give against the targets, the farthest first, and then the stop |
| SwingStudy.OutcomeIsUnique | scripts/backtest_q1_3_to_1_rr.py:156-188 | that description has one outcome |
| SwingStudy.ThreeToOneIsOneBar | scripts/backtest_q1_3_to_1_rr.py:166-186 | L3 if and only if the very first touching bar reaches the third target |
| SwingStudy.MirrorKeepsOutcome | scripts/backtest_q1_3_to_1_rr.py:156-188 | a long on the mirrored chart ends as the short does, and the reverse |
| SwingStudy.TallyOutcomes | scripts/backtest_q1_3_to_1_rr.py:242-292 | every formation has its own fate: no entry bar, a stop on the wrong side, no level touched within 96 bars, or the outcome against a stop one and a half ranges off and targets at one, two and three times the risk; the tally counts the fates, the ratios are their rewards in order, and both add up |
| SwingStudy.RatesAgree | scripts/backtest_q1_3_to_1_rr.py:191-224 | the four rates of closed trades sum to one before rounding and to one give or take 0.02 after it, however ties are rounded, and the 3:1 hit rate is the L3 rate |
| SwingStudy.AverageIsOverWinners | scripts/backtest_q1_3_to_1_rr.py:208-213 | the average reward is over the trades that reached a target at all |
| SwingStudy.NothingClosedIsZero | scripts/backtest_q1_3_to_1_rr.py:191-203 | without a closed trade every rate is zero |
| SwingStudy.ReportedRatesSumToOneExactlyWhen | scripts/backtest_q1_3_to_1_rr.py:215-222 | the four reported rates sum to one if and only if as many of them are rounded up as whole percents are left over |
| SwingStudy.RoundedRatesMissOne | scripts/backtest_q1_3_to_1_rr.py:217-224 | three trades whose reported rates sum to 0.99 |
| SwingStudy.PassesExactlyWhen | scripts/backtest_q1_3_to_1_rr.py:294-307 | the study passes if and only if the exact hit rate is above 0.595, or equals it and its binary value rounds up |
| LossClassifier.ConfidenceRange | scripts/categorize_losses.py:232-504 | every confidence lies in [0.625, 0.8], above the floor |
| LossClassifier.IsLossExactlyWhen | scripts/categorize_losses.py:172-185 | a trade is a loss when its outcome says so in words, and without words when its profit, or its P&L when no profit is given, is below minus one cent |
| LossClassifier.BadEntryExactlyWhen | scripts/categorize_losses.py:232-287 | fires at 0.8 if and only if the entry lies one and a half session spreads or more off the mean, whatever the pip size |
| LossClassifier.BadEntryRaisesExactlyWhen | scripts/categorize_losses.py:232-287 | raises if and only if there is an entry and a spread and the mean given reads as no number |
| LossClassifier.StopPlacementExactlyWhen | scripts/categorize_losses.py:290-317 | fires at 0.8 if and only if the stop lies within one average range of the entry |
| LossClassifier.WrongDirectionExactlyWhen | scripts/categorize_losses.py:320-368 | fires against the trend named, at 0.625 or beside an average at 0.8, and without a trend at 0.66 against the average; raises on an average that is no number |
| LossClassifier.NewsEventExactlyWhen | scripts/categorize_losses.py:371-395 | fires at 0.8 on the flag and at 0.695 on a list that is not empty |
| LossClassifier.SpreadWideningExactlyWhen | scripts/categorize_losses.py:398-424 | fires from twice the rolling average on, growing to 0.8 at four times |
| LossClassifier.SlippageExactlyWhen | scripts/categorize_losses.py:427-474 | fires at 0.73 if and only if the exit is at least one pip off the price its reason names |
| LossClassifier.LateExitExactlyWhen | scripts/categorize_losses.py:477-506 | fires at 0.66 if and only if a partial close gained and the trade lost more than one cent |
| LossClassifier.ToBoolExactlyWhen | scripts/categorize_losses.py:217-224 | which values set a flag, texts with white space around them included |
| LossClassifier.CategorizeTrade | scripts/categorize_losses.py:527-543 | the most confident heuristic, the earliest on ties; `other` if and only if none fires; an error if and only if a heuristic raises |
| LossClassifier.AnswerBeatsAll | scripts/categorize_losses.py:514-543 | no heuristic is more confident than the answer, and none earlier in the order is as confident |
| LossClassifier.AnswerIsUnique | scripts/categorize_losses.py:527-543 | that description has one answer |
| LossClassifier.DetectSkipped | scripts/categorize_losses.py:597-622 | the categories listed are exactly those whose fields no losing trade has |
| LossClassifier.AbsentIsSilent | scripts/categorize_losses.py:597-622 | the heuristic of a listed category is silent on every losing trade |
| LossClassifier.SkippedCountsNothing | scripts/categorize_losses.py:597-622 | so a category reported as skipped has count zero |
| LossClassifier.CountsSumToLosses | scripts/categorize_losses.py:560-583 | the category counts sum to the number of answers |
| LossClassifier.Summarize | scripts/categorize_losses.py:551-594 | one answer a losing trade, the counts of all categories, zero for skipped ones |
| Sorting.SortByCorrect | scripts/deadline_owner_check.py:389-389 | Python's sort, used throughout: a permutation in key order |
| Sorting.SortByStable | scripts/backtest_blend_harness.py:1104-1104 | and stable: elements with equal keys keep their order |

## Left out

- Float arithmetic, `NaN` and infinities, and rounding in reports other than the rates of the first study, whose ties are decided by a parameter; prices and P&L are exact reals, and so is the fetch cursor in milliseconds.
- Time zones, daylight saving, date parsing and regular expressions: times are numbers, calendar days are numbers, and date hits are given spans of a line.
- HTTP details beyond a page that is accepted, empty or given up: status codes, `Retry-After`, sleeps, the recorded first status.
- Hashes, provenance, audit dictionaries, logs, report rendering, argument parsing and file formats.
- The strategies, regime detector, paper trader, order routing, guard and kill switch: functions of the world, nothing claimed about their insides. An evaluation asks a fixed number of strategies in turn, each of which may change the world and route one signal.
- BlendHarness.EveryRunAttributes: assumes that the position book never forgets an id, because a reused id is attributed to its last opener.
- BlendStats.ComputeStats: `closed_at` texts are ranks, and amounts are not rounded.
- Backfill.RunCovers: assumes an API that answers with the newest bars of the window, since nothing is promised for one that hides bars.
- The database engines: an upsert is a map update, a group-by reads its ticks in time order, and a statement that raises is one more answer of the database.
- `BarImport`: column lookup in the CSV header and the schema migration are not modelled; prices are finite; a duplicate staged key is one way in which the statement raises.
- `StripDates`: line separators other than the newline, and the scan that finds and tags the dates.
- `SpreadEvents`: the median is a parameter, the trigger label is not modelled.
- `LossClassifier`: texts that read as an infinity or as not-a-number count as unreadable; only ASCII letters have a lower case; rationale and evidence texts.
- `SwingStudy`: formation search and the average true range are inputs of the tally.
- `QualityGate`: ruff, mypy, eslint, the compiler and git are inputs; the suffix and root of a file are given.
- `LevelStudy`: rates, the optimal buffer and the go or no-go verdict after the trades are simulated.
- File-level deduplication of tick imports, percentile interpolation, slippage and frequency statistics, the other promotion, audit and board scripts: not modelled.
