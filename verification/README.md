# SignalRankAI core: models and proofs

SignalRankAI ranks trading signals, paper-trades them for its users and executes some of them for
real. This project models the parts of its `core/` package whose behaviour is deterministic or a
protocol, and proves what they keep over every input and every run.

| files | what they model |
|---|---|
| `CandleEvidence`, `CandleLevels`, `CandleEngine`, `CandleReadings`, `CandleMirror`, `CandleLookAhead` | the candlestick evidence of `core/candle_evidence.py`: the record as a function, the loops that compute it, what each field says about prices and volumes, mirror symmetry between rising and falling markets, and the absence of look-ahead |
| `PaperSizing`, `PaperAccount`, `PaperReadings`, `PaperInvariants`, `PaperRisk`, `PaperCash`, `PaperTradingService` | the paper account of `core/paper_trading_service.py` and its position size (`core/paper_sizing.py`): what each step does to prices and amounts, money conservation, limits and settlement over every run, and the methods that change the account in place |
| `RedisStream`, `StreamProtocol`, `StreamAttempts`, `StreamAdmission`, `StreamExtremes`, `StreamDuplicates`, `RecoverableStream` | the consumer-group stream of `core/redis_streams.py`: Redis commands as atomic steps, producers and consumers interleaved command by command with crashes, and the client object with its calls run to the end |
| `LedgerBooks`, `FinancialLedger` | the append-only ledger of `core/financial_ledger.py`: posting, double entry, snapshots, replay |
| `PublicClaims` | the Wilson gate for public win-rate claims (`core/production_integrity.py`) |
| `ExecutionLifecycle` | the execution state machine (`core/execution_state_machine.py`) |
| `AccountPolicy`, `PolicyOrder` | the account admission policy (`core/account_policy.py`) and the order "at least as strict" |
| `Leases` | the Redis lease of `core/job_leases.py` and `core/execution_claims.py` |
| `CircuitBreaker` | the sliding-window breaker (`core/circuit_breaker.py`) |
| `RateLimiter` | the fixed-window limiter of `core/redis_state.py` |
| `Wrappers` | small types and arithmetic the others share |

Each component has a specification (functions and predicates), methods or a class in the shape of the
source that are proved to compute exactly that specification, and lemmas about the specification. What an
operation does to its inputs is also stated without the functions that compute it, in `CandleReadings`,
`PaperReadings` and the lemmas whose names end in `Exactly`.
Floats and Decimals are exact reals; ROUND_DOWN is written out. Clocks, ids, tokens, quotes, square
roots and the server's free choices (which stale messages a claim returns, how many rows a trim evicts)
are parameters. Texts are taken as already stripped and in one case.

Properties that the code has only under a condition are stated with the exact condition:

* A candle record is mirrored exactly when the candle is at least 1e-12 high and no wanted direction had
  to be broken by the tie rule for the nearest level (`CandleMirror.RecordMirrorsExactly`). The score of a
  candle without height does change (`CandleMirror.FlatCandleScoreChanges`), and the tie rule does decide
  (`CandleMirror.TieRuleIsNotMirrored`).
* Opening a paper position never overdraws the cash. Closing a short leaves negative cash exactly when
  buying back costs more than cash, reserve and sale proceeds (`PaperCash.ShortCloseOverdrawsExactly`), and a
  fresh account gets there in two steps (`PaperCash.ShortRunOverdraws`). Closing a long costs less than 1e-8
  of cash at any price (`PaperCash.LongMarkKeepsCash`).
* A reported size cap is always a real one exactly for tolerances of at least 1e-12
  (`PaperSizing.TrustedFromOneQuantumOn`).
* A double entry is left half done exactly when the credit leg's source had been used and the debit
  leg's had not (`LedgerBooks.TransferOutcome`). With transfers only, that cannot happen.
* A daily snapshot is off by exactly what stands ahead of an account's last entry of that day and is dated
  later (`FinancialLedger.SnapshotIsOffByWhatStandsAhead`). Under a forward clock that is nothing.
* Changing the weekly loss limit from hi to lo never admits more exactly when hi is zero, which switches the
  check off, or 0 < lo <= hi (`PolicyOrder.WeeklyTightensExactly`). "At least as strict" asks for just that.
* A pending stream row has attempts left as long as `fail` runs without interruption
  (`StreamAttempts.PendingRowsHaveAttemptsLeft`). With crashes inside it, any number of attempts is reached as
  soon as a row can be delivered (`StreamAttempts.InterruptedFailsUseThemUp`).
* The stream holds at most max_length + k - 1 rows with k producers, plus one for every XADD that timed out
  after it was executed and was sent again (`StreamAdmission.AdmissionBound`), and at most max_length + 2k - 1
  however much is sent twice (`StreamAdmission.LengthBound`). Both bounds are reached as soon as anybody gets
  in (`StreamExtremes.BoundIsReached`, `StreamExtremes.DoubleBoundIsReached`).
* Trimming takes a row away in some run exactly when max_length >= 1 and there are two producers, or one that
  sends an XADD twice (`StreamExtremes.RowsAreLostExactly`).
* Two stream rows can share an idempotency key as soon as anybody gets in; without an XADD sent twice, exactly
  when there are also two producers or room for two rows (`StreamDuplicates.KeysAreSharedExactly`). It takes an
  expired reservation, a lost reply or a resend (`StreamAdmission.AdmissionBound`).
* A bucket of the limiter lets through exactly min(answered calls, limit) if and only if no answer refused or
  no unanswered INCR took a place within the limit (`RateLimiter.BucketAdmitsExactly`). An INCR sent twice
  refuses the first call at limit 1 (`RateLimiter.ResentIncrRefusesTheFirst`). At most the limit gets through
  in any case.
* A second process joins a lease holder exactly when no lease is alive on the key, and then the holder
  has outstayed its own (`Leases.SecondEntryNeedsAnOverrun`). A SET NX sent twice lets nobody in and shuts the
  others out for exactly the lease it left behind (`Leases.SetTwiceShutsOut`).

The clients of the stream (core/redis_streams.py:104-116) and of leases and limiter
(core/redis_state.py:350-358) are built with `retry_on_timeout=True`, which makes redis-py 5.3.1 send a
timed-out command once more. Each command that does not mean the same when it is executed twice has a step or
an outcome of its own for that.

Where the code and its documentation disagree the model follows the code: the docstring of
`assess_candle_evidence` (core/candle_evidence.py:177-182) says that a following candle is used only when
it is final, but lines 271-274 also use it when yet another candle follows it.

## Model

| member | source | states |
|---|---|---|
| CandleEvidence.SortedIsAscendingPermutation | core/candle_evidence.py:264-268 | the order in which the volume median is taken: same values, ascending |
| CandleLevels.SupportIsNearestPivot | core/candle_evidence.py:157-165 | support is the highest pivot low at or below the close, or the lowest low of all valid rows when there is none |
| CandleLevels.ResistanceIsNearestPivot | core/candle_evidence.py:157-165 | resistance is the lowest pivot high at or above the close, or the highest high of all valid rows when there is none |
| CandleLevels.SupportBelowResistance | core/candle_evidence.py:142-165 | support never exceeds resistance, whatever the close |
| CandleEngine.TrueRangeScan | core/candle_evidence.py:126-139 | the loop gives the true range of each valid row against the last valid close before it |
| CandleEngine.PivotScan | core/candle_evidence.py:148-160 | the scan, which leaves out two rows at either end, finds exactly the pivots |
| CandleEngine.PastLevelScan | core/candle_evidence.py:142-165 | the scan with its fallbacks gives exactly the specified levels |
| CandleEngine.CollectBase | core/candle_evidence.py:318-329 | one answer for each of the four standing questions, one label for each yes, in order |
| CandleEngine.CollectEvidence | core/candle_evidence.py:318-337 | the number of yes answers equals the number of labels, and only answerable questions are counted |
| CandleEngine.CollectConflicts | core/candle_evidence.py:338-345 | each conflict label is there exactly when its conflict applies, and there are as many labels as conflicts |
| CandleEngine.AssessAt | core/candle_evidence.py:192-389 | the straight-line computation for a valid focus equals the specified record, whose every field CandleReadings states on prices and volumes |
| CandleEngine.AssessCandleEvidence | core/candle_evidence.py:168-389 | the whole call, including negative focus positions and all three refusals, equals the specification, of which CandleReadings states when it refuses and every field it returns |
| CandleMirror.ShapeMirrorsExceptClose | core/candle_evidence.py:192-217 | reflecting prices swaps wicks, direction, pressure and rejection and keeps every ratio |
| CandleMirror.CloseLocationMirrors | core/candle_evidence.py:193-211 | the close location is mirrored, and control swapped, exactly when the candle is at least 1e-12 high |
| CandleMirror.TrueRangesMirror | core/candle_evidence.py:126-139 | reflection leaves true ranges unchanged |
| CandleMirror.PastLevelsMirror | core/candle_evidence.py:142-165 | reflection swaps the two levels and mirrors them |
| CandleMirror.VerdictMirrors | core/candle_evidence.py:192-352 | score, percentage, labels, confirmation and state are unchanged and the levels swapped, for every wanted direction and every candle at least 1e-12 high |
| CandleMirror.RecordMirrorsExactly | core/candle_evidence.py:192-389 | the whole record is mirrored if and only if the candle is at least 1e-12 high and the tie rule was not used |
| CandleMirror.AssessMirrors | core/candle_evidence.py:168-389 | the same for a call on a whole sequence; refusals are the same on both sides |
| CandleMirror.FlatCandleScoreChanges | core/candle_evidence.py:193-211 | a flat candle scores 1 for a bearish request and 0 for the mirrored bullish one |
| CandleMirror.TieRuleIsNotMirrored | core/candle_evidence.py:235-246 | a concrete sequence that is its own mirror image and names the support both ways |
| CandleLookAhead.NoLookAhead | core/candle_evidence.py:219-298 | the result depends on the lookback window, the focus and, once settled, the next candle; on nothing older or later |
| CandleLookAhead.SettledEvidenceIsPermanent | core/candle_evidence.py:271-298 | no further candle changes the result for an overtaken position |
| CandleLookAhead.LastCandleIsPending | core/candle_evidence.py:177-182 | on the last candle the confirmation is always pending and nothing is confirmed or invalidated |
| CandleLookAhead.SelectionIsSound | core/candle_evidence.py:392-432 | which record is selected, that an invalidated one never is, and that confirmation is required exactly for the latest |
| CandleLookAhead.LiveTailIsInvisible | core/candle_evidence.py:399-417 | appending an unfinished candle to closed ones changes nothing |
| CandleLookAhead.LiveTailsAgree | core/candle_evidence.py:399-417 | two different unfinished tails give the same answer |
| CandleReadings.RefusedExactly | core/candle_evidence.py:183-191 | which of the three refusals is given, and exactly when: no candles, focus at or beyond the length in either direction, prices out of order |
| CandleReadings.NegativeFocusCountsBack | core/candle_evidence.py:185 | a focus of -k is the k-th candle from the end |
| CandleReadings.NextCandleDecides | core/candle_evidence.py:271-298 | the verdict of the next candle: a bullish reading is invalidated exactly by a close below the low of the focus, strong exactly above its high, confirmed exactly above the high or by a rising candle closing above its close and not below its low; the bearish counterpart; without a direction nothing is confirmed or invalidated; pending exactly without a usable next candle |
| CandleReadings.SharesOfTheHeight | core/candle_evidence.py:192-210 | direction and wanted direction, and body, wicks and close as shares of the height of the candle |
| CandleReadings.NamesOfTheRatios | core/candle_evidence.py:201-217 | every class, pressure, control and rejection with the range of ratios it stands for |
| CandleReadings.LooksBackExactly | core/candle_evidence.py:219-223 | a positive lookback n looks at the last n candles before the focus, or at all there are |
| CandleReadings.TrueRangesOfValidRows | core/candle_evidence.py:126-139 | one true range for each valid row: from the highest to the lowest of the row and the close of the valid row before it |
| CandleReadings.AverageRange | core/candle_evidence.py:221-222 | the average range times the number of valid rows among the last fourteen is the sum of their true ranges; without one it is the height of the focus |
| CandleReadings.LevelsFound | core/candle_evidence.py:142-223 | both levels exist exactly when a row looked at is valid, they are the nearest pivots or the extremes, and support does not exceed resistance |
| CandleReadings.StandsToTheLevel | core/candle_evidence.py:224-240 | which level is the nearest, its distance in average ranges, and exactly when the candle is at it |
| CandleReadings.PlaceInTheRange | core/candle_evidence.py:242-246 | the position of the close between the lowest low and the highest high, 0 below and 1 above, none without a range |
| CandleReadings.BreaksOut | core/candle_evidence.py:247-252 | a breakout is exactly a close beyond a level that the row before had not closed beyond |
| CandleReadings.ContextIsTheFirstThatHolds | core/candle_evidence.py:253-262 | breakout before level before quarter of the range |
| CandleReadings.VolumeAgainstTheMedian | core/candle_evidence.py:264-269 | the relative volume times the median of the positive volumes is the volume; unknown exactly without either; confirmed from 1.2 on |
| CandleReadings.AlignedExactly | core/candle_evidence.py:300-337 | every supporting label exactly under its condition, each once and in order |
| CandleReadings.ConflictingExactly | core/candle_evidence.py:303-345 | every conflict label exactly under its condition, each once and in order |
| CandleReadings.ScoreAndState | core/candle_evidence.py:347-352 | score and percentage from the numbers of labels and of questions asked, and when the state is confirmed or invalidated |
| CandleReadings.LooksAtTwoCandles | core/candle_evidence.py:399-415 | which two positions are assessed, with lookbacks 40 and 20, and when the call fails |
| CandleReadings.ReportsTheConfirmedOne | core/candle_evidence.py:416-431 | the previous record is reported exactly when it is confirmed; when the alignment is conflicting or supportive and when confirmation is still required |
| PaperSizing.QuantityWithinOneQuantum | core/paper_sizing.py:107-111 | the quantity is within 1e-12 below the smaller of the risk and the cash quantity |
| PaperSizing.NotionalWithinCaps | core/paper_sizing.py:104-112 | the notional exceeds neither the configured cap nor the fee-adjusted cash |
| PaperSizing.NeverOverdraws | core/paper_sizing.py:104-114 | notional plus fee never exceeds the cash |
| PaperSizing.RiskWithinRequest | core/paper_sizing.py:107-126 | the actual stop risk is at most the requested one, as an amount and as a percentage |
| PaperSizing.RefusedOnlyWhenNothingToBuy | core/paper_sizing.py:94-118 | after the input checks a refusal means a quantity of zero, that is a raw quantity below 1e-12 |
| PaperSizing.SizeIsSafe | core/paper_sizing.py:69-151 | what a successful size guarantees: positive quantity, total within cash, notional within its cap, leverage between 0 and 1 |
| PaperSizing.SizedAtCost | core/paper_sizing.py:111-112 | the notional is the quantity at the fill, less than 1e-8 below |
| PaperSizing.MonotoneInCash | core/paper_sizing.py:104-118 | more cash never buys less and never turns a success into a refusal |
| PaperSizing.CapReportIsHonest | core/paper_sizing.py:127-133 | when a cap is reported, and which of the two caps the reason names |
| PaperSizing.TrustedFromOneQuantumOn | core/paper_sizing.py:80-133 | "cap applied" implies that the cash quantity was binding for exactly the tolerances of at least 1e-12 |
| PaperSizing.TinyToleranceReportsAFalseCap | core/paper_sizing.py:127-133 | a concrete size with tolerance 0 where rounding alone is reported as a cap |
| PaperSizing.RefusedExactly | core/paper_sizing.py:94-105 | each input check with what it refuses, in order |
| PaperSizing.LargestAffordableQuantity | core/paper_sizing.py:107-113 | the quantity keeps the risk budget, the notional limit and, with the fee, the cash, and one quantum more would break one of the three |
| PaperSizing.FiguresExactly | core/paper_sizing.py:110-151 | every other figure of a size and what it is cut from, less than 1e-8 below: notional, fee, actual risk and its percentage, cash afterwards, leverage |
| PaperSizing.DecimalsExactly | core/paper_sizing.py:113-151 | all amounts are whole numbers of 1e-8 and the quantity of 1e-12 |
| PaperSizing.CapReportExactly | core/paper_sizing.py:127-133 | when a cap is reported, and the smaller of the two limits as its reason |
| PaperSizing.RoundingIsOdd | core/paper_sizing.py:113-123 | cutting decimals goes towards zero on both sides |
| PaperSizing.NoCashNoLeverage | core/paper_sizing.py:69-74 | the leverage of a size without cash is zero |
| PaperInvariants.TargetAndStopExclude | core/paper_trading_service.py:2319-2328 | no price reaches both the target and the stop of an open position |
| PaperInvariants.SettlementSign | core/paper_trading_service.py:2316-2346 | an unforced stop books r <= -1 and an unforced target a positive gross result |
| PaperInvariants.CreateEstablishesInv | core/paper_trading_service.py:237-265 | a new account satisfies the invariant |
| PaperInvariants.UpdateKeepsInv | core/paper_trading_service.py:424-462 | a settings change, accepted or refused, keeps it, also between the opening and the closing of a position |
| PaperInvariants.ResetKeepsInv | core/paper_trading_service.py:509-530 | a reset keeps it and starts the books anew |
| PaperInvariants.BuyFacts | core/paper_trading_service.py:1557-1849 | what a decision to buy has established: new signal, free asset, room in the class, stop and target on the two sides of the fill, both caps respected |
| PaperInvariants.OpeningNeverOverdraws | core/paper_trading_service.py:1903-1905 | cash after opening is at least zero, so the guard there never fires |
| PaperInvariants.BoughtKeepsInv | core/paper_trading_service.py:1850-1918 | the writes of an opening keep the invariant |
| PaperInvariants.OpenKeepsInv | core/paper_trading_service.py:1506-1979 | every way a candidate can end keeps it |
| PaperInvariants.MarkKeepsInv | core/paper_trading_service.py:2300-2356 | marking or settling a position keeps it, whatever the fee is by then |
| PaperInvariants.StepKeepsInv | core/paper_trading_service.py:424-2356 | every step keeps it |
| PaperInvariants.EveryReachableStateIsConserved | core/paper_trading_service.py:237-2356 | in every reachable state cash is the starting balance plus realised results less what open positions hold, and the ledger amounts since the last origin sum to the same with a correct running balance in each row |
| PaperInvariants.EquityIdentity | core/paper_trading_service.py:360-362 | equity is the starting balance plus realised and unrealised results less open entry fees |
| PaperInvariants.MarkingMovesEquity | core/paper_trading_service.py:2312-2338 | marking moves equity by the price change and the exit fee and nothing else |
| PaperInvariants.OpeningCostsTheFee | core/paper_trading_service.py:1850-1903 | opening lowers equity by exactly the entry fee |
| PaperInvariants.StepSettlesOnce | core/paper_trading_service.py:2300-2301 | a step other than a reset never touches a closed position |
| PaperInvariants.EachPositionSettlesAtMostOnce | core/paper_trading_service.py:2300-2301 | over a run without resets a position, once closed, stays as it is |
| PaperRisk.BuyingStaysWithin | core/paper_trading_service.py:1686-1849 | opening keeps the exposure, risk, asset and class limits |
| PaperRisk.MarkingStaysWithin | core/paper_trading_service.py:2312-2346 | marking and settling keep them |
| PaperRisk.StepStaysWithin | core/paper_trading_service.py:424-2356 | every step keeps them |
| PaperRisk.EveryReachableStateIsWithinLimits | core/paper_trading_service.py:1686-1849 | over every run under fixed limits: open notional and open stop risk within their share of the starting balance, one open position per asset, at most the cap per class |
| PaperRisk.OnePositionPerSignal | core/paper_trading_service.py:1558-1568 | between two resets a signal has at most one position, open or closed |
| PaperCash.PlainCandidateIsBought | core/paper_trading_service.py:1506-1979 | the conditions of an opening can be met together: a plain candidate, long or short, buys exactly one unit on a fresh account |
| PaperCash.ShortCloseOverdrawsExactly | core/paper_trading_service.py:2312-2337 | exactly when closing a short leaves negative cash |
| PaperCash.ShortRunOverdraws | core/paper_trading_service.py:2312-2337 | a run from a fresh account of 1000 that ends with cash at -900 |
| PaperCash.LongProceeds | core/paper_trading_service.py:2312-2337 | closing a long pays back more than -1e-8, whatever the price and the fee |
| PaperCash.LongMarkKeepsCash | core/paper_trading_service.py:2300-2337 | in every state with the invariant, marking a long lowers cash by less than 1e-8 |
| PaperCash.StepStaysSolvent | core/paper_trading_service.py:424-2356 | every step of a long-only account keeps cash short by less than 1e-8 for each of 100 places not taken by an open position |
| PaperCash.LongRunsStaySolvent | core/paper_trading_service.py:237-2356 | over every run that opens longs only, however long, cash is at least minus 1e-6 |
| PaperReadings.FilledAgainstTheTrader | core/paper_trading_service.py:1752-1753 | a long is filled above the quote and a short below it by price*(spread+slippage)/10000, so never in the trader's favour |
| PaperReadings.AimsAtTheChosenTarget | core/paper_trading_service.py:1755-1756 | the target is the one the settings ask for, or the last one |
| PaperReadings.SizedForTheStop | core/paper_trading_service.py:1754-1792 | the size is the one for the cash, the distance of the stop and the smaller risk percentage |
| PaperReadings.PricedExactly | core/paper_trading_service.py:1714-1846 | exactly when a priced candidate is deferred, skipped for each reason, or bought |
| PaperReadings.IgnoredExactly | core/paper_trading_service.py:1519-1594 | exactly when a candidate is not looked at, and when trading is switched off |
| PaperReadings.ObjectionsAre | core/paper_trading_service.py:1638-1702 | the condition behind each objection that needs no price, in the fields of account, candidate and profile |
| PaperReadings.TalliesOfOneMore | core/paper_trading_service.py:1608-1664 | what one position adds to the counts and the result of the day |
| PaperReadings.OpenedExactly | core/paper_trading_service.py:1850-1918 | every field of the new position, the cash and both ledger rows of an opening |
| PaperReadings.OtherwiseOnlyAnAttempt | core/paper_trading_service.py:1549-1945 | a candidate that is not bought leaves at most one row without money; a rejected transaction leaves nothing |
| PaperReadings.MarkedExactly | core/paper_trading_service.py:2300-2356 | what a quote changes while the position stays open, and every amount booked when it closes: profit, exit fee, net result, r as net result over stop risk, cash and ledger row |
| PaperReadings.UpdatedExactly | core/paper_trading_service.py:424-460 | a refused update changes nothing; an accepted one takes over every field, each cut to its own range |
| PaperReadings.ResetExactly | core/paper_trading_service.py:477-527 | refused exactly with an open position; otherwise a new start with the balance cut to 50 and 100 million |
| PaperTradingService.PaperTradingAccount.constructor | core/paper_trading_service.py:237-265 | the account row and its first ledger row |
| PaperTradingService.PaperTradingAccount.RecordAttempt | core/paper_trading_service.py:1253-1270 | an attempt adds one ledger row without money and changes nothing else |
| PaperAccount.SkipReasonIsFirst | core/paper_trading_service.py:1615-1702 | the cascade of price-free checks reports the first of the thirteen objections that holds, and nothing exactly when none does |
| PaperTradingService.PaperTradingAccount.FindSkipReason | core/paper_trading_service.py:1615-1702 | the reassigned reason ends as the first objection that holds, staleness before all others |
| PaperTradingService.PaperTradingAccount.PriceCandidate | core/paper_trading_service.py:1714-1849 | quote, geometry, size and caps lead to the specified decision; the fill of an order is the quote with spread and slippage against the trader |
| PaperTradingService.PaperTradingAccount.OpenCandidate | core/paper_trading_service.py:1506-1979 | the whole transaction equals the specified step; opened means cash at or above zero and one more position; rolled back means nothing changed; the appended position carries the quote and a fill with spread and slippage against the trader |
| PaperTradingService.PaperTradingAccount.MarkOne | core/paper_trading_service.py:2291-2362 | marking equals the specified step and returns whether the number of open positions fell |
| PaperTradingService.PaperTradingAccount.ResetAccount | core/paper_trading_service.py:469-531 | refused exactly while a position is open |
| PaperTradingService.PaperTradingAccount.UpdateSettings | core/paper_trading_service.py:393-463 | all changes or, when one cannot be read, none; that includes a list of classes that is not a list |
| PaperTradingService.PaperTradingAccount.CloseListed | core/paper_trading_service.py:2436-2477 | one listed position: closed at its price if it has one and nobody closed it before, otherwise untouched |
| PaperTradingService.PaperTradingAccount.CloseAllPositions | core/paper_trading_service.py:2364-2478 | whatever other workers do between its transactions: what could be priced is closed in the end, the counts add up and the last marks used are counted exactly; alone, what stays open is exactly what had no price |
| RedisStream.ExactlyOnePlace | core/redis_streams.py:176-330 | a row is in exactly one of: waiting, pending with one consumer, acknowledged, lost to trimming |
| RedisStream.TrimmingStopsAtTheLimit | core/redis_streams.py:181-193 | what trimming at XADD may evict: nothing, or rows as long as max_length stay |
| RedisStream.ClaimableExactly | core/redis_streams.py:243-268 | what a claim may do: take pending rows that are still there and drop pending rows that were trimmed |
| RedisStream.XAddKeeps | core/redis_streams.py:181-194 | adding with an approximate trim keeps every row in one place |
| RedisStream.XReadGroupKeeps | core/redis_streams.py:288-294 | so does reading, and what was read is pending |
| RedisStream.XAutoClaimKeeps | core/redis_streams.py:251-268 | so does claiming, also when rows were trimmed meanwhile |
| RedisStream.XAckKeeps | core/redis_streams.py:324-328 | so does acknowledging, and it acknowledges nothing else |
| StreamProtocol.ConsumerStepKeepsInv | core/redis_streams.py:209-388 | each command of a consumer, each exception and each crash keeps the invariant |
| StreamProtocol.ProducerStepKeepsInv | core/redis_streams.py:151-207 | so does each command of a producer |
| StreamProtocol.StepKeepsInv | core/redis_streams.py:151-388 | so does every step of the whole |
| StreamProtocol.Run | core/redis_streams.py:151-388 | the invariant holds after every sequence of steps |
| StreamProtocol.NoLoss | railway_main.py:1834-1900 | every row ever added is in exactly one place, an acknowledged row had its handler complete or has a dead letter with its payload, and only trimming loses a row |
| StreamAttempts.AtomicStepKeepsAttempts | core/redis_streams.py:357-388 | with fail uninterrupted, every step of the interleaved protocol, crashes, claims and resends included, leaves every pending row with attempts left |
| StreamAttempts.PendingRowsHaveAttemptsLeft | core/redis_streams.py:357-388 | over all such runs every pending row is below max_attempts, and every such run is a run of the whole protocol |
| StreamAttempts.AtomicRunsAreRuns | core/redis_streams.py:357-388 | the uninterrupted fail is its four commands one after the other, so such a run reaches only what the whole protocol reaches |
| StreamAttempts.InterruptedFailsUseThemUp | core/redis_streams.py:357-388 | with crashes inside fail a pending row reaches any number of attempts, if and only if a row can be added and delivered at all |
| StreamAdmission.ProducerStepBounded | core/redis_streams.py:176-194 | rows in the stream plus rows on their way stay below the limit plus the producers plus the XADDs sent twice |
| StreamAdmission.ProducerStepKeys | core/redis_streams.py:165-207 | a live reservation belongs to one producer or to one row, never to both |
| StreamAdmission.AdmissionBound | core/redis_streams.py:116-207 | with k producers never more than max_length + k - 1 rows and one per XADD sent twice; two rows share a key only after an expiry, a lost reply or a resend |
| StreamAdmission.LengthBound | core/redis_streams.py:116-194 | over every run never more than max_length + 2k - 1 rows, however much was sent twice |
| StreamAdmission.SingleProducerLosesNothing | core/redis_streams.py:176-194 | with one producer and no XADD sent twice nothing is ever trimmed, so every row waits, is pending or is acknowledged |
| StreamAdmission.LostReplyDuplicates | core/redis_streams.py:196-207 | after a lost XADD reply a retry puts the same event into the stream twice |
| StreamExtremes.BoundIsReached | core/redis_streams.py:176-194 | a run without resends reaches max_length + k - 1 rows, if and only if max_length >= 1 or k = 1 |
| StreamExtremes.DoubleBoundIsReached | core/redis_streams.py:116-194 | some run reaches max_length + 2k - 1 rows, if and only if max_length >= 1 |
| StreamExtremes.RowsAreLostExactly | core/redis_streams.py:116-194 | some run loses a row if and only if anybody gets in, and one without resends if and only if there are also two producers |
| StreamDuplicates.KeysAreSharedExactly | core/redis_streams.py:116-207 | some run puts two rows with one key into the stream if and only if anybody gets in, and one without resends if and only if there are also two producers or room for two rows |
| RedisStream.FailOnceKeeps | core/redis_streams.py:357-388 | one failure keeps every row in one place and acknowledges only with a dead letter |
| RecoverableStream.PoisonMessageIsDeadLettered | core/redis_streams.py:357-388 | a message that always fails is pending until failure number max_attempts, which acknowledges it with exactly one dead letter |
| RecoverableStream.DecodedExactly | core/redis_streams.py:209-226 | decoding gives exactly the decodable rows, in order, each with the payload it was added with and the attempts the hash counts, or 0 |
| RecoverableStream.WhatWasAddedIsRead | core/redis_streams.py:151-226 | the round trip: the payload added under an id is what any later read returns for that id, and it is returned whenever the row is among those read |
| RecoverableStream.Client.Enqueue | core/redis_streams.py:151-207 | every outcome with its exact condition, failures and a cancellation in the middle included; only a lost reply leaves a row behind and only a cancellation the reservation |
| RecoverableStream.Client.Decode | core/redis_streams.py:209-241 | a decodable row becomes a message with the payload of its row and the attempts of the hash or 0; any other is dead-lettered, with payload and key of the row, and acknowledged |
| RecoverableStream.Client.Fetch | core/redis_streams.py:243-297 | claimed rows if there are any, otherwise new ones, all pending with this consumer; trimmed rows leave the pending list |
| RecoverableStream.Client.DecodeAll | core/redis_streams.py:317-322 | the decodable rows in order; the rest are dead-lettered; every message has the payload of its row and the attempts of the hash or 0 |
| RecoverableStream.Client.Read | core/redis_streams.py:270-322 | claims or takes, then decodes: the decodable rows in order, still pending with the reader, the rest dead-lettered; every message has the payload of its row and the attempts of the hash or 0 |
| RecoverableStream.Client.Ack | core/redis_streams.py:324-330 | acknowledges exactly a pending message, whichever it is, and clears its attempts; justified exactly when its handler completed or it has a dead letter |
| RecoverableStream.Client.Fail | core/redis_streams.py:357-388 | the call that uses up the last attempt writes the dead letter and acknowledges; any other leaves the message pending |
| LedgerBooks.BalanceIsBooked | core/financial_ledger.py:114-115 | a balance is the sum of the account's entry amounts |
| LedgerBooks.PostKeepsBooks | core/financial_ledger.py:117-154 | posting keeps balances, running sums, unique ids and the source index in agreement with the entries |
| LedgerBooks.EachEventOnce | core/financial_ledger.py:131-153 | an entry id and a source event belong to one entry each |
| LedgerBooks.RefusedExactly | core/financial_ledger.py:129-149 | when a posting is refused and why, said through the entries already there |
| LedgerBooks.PostedExactly | core/financial_ledger.py:135-153 | the entry an accepted posting appends, field by field, its balance, and which sources count as applied then |
| LedgerBooks.TransferOutcome | core/financial_ledger.py:188-229 | exactly when a transfer goes through, when it changes nothing and when it is left half done |
| LedgerBooks.TransferMovesTheAmount | core/financial_ledger.py:188-229 | a transfer raises what is booked on the debit account by the amount, lowers the credit account by it and touches no other; between an account and itself it moves nothing; half done it has raised the debit account only |
| LedgerBooks.TransferEntries | core/financial_ledger.py:205-229 | the two entries of a transfer: opposite amounts, one correlation, one event with the two suffixes |
| LedgerBooks.TransferKeepsPairs | core/financial_ledger.py:188-229 | where debit and credit sources come in pairs a transfer is all or nothing and moves no imbalance |
| LedgerBooks.TransfersStayBalanced | core/financial_ledger.py:188-237 | after any run of transfers the imbalance is zero |
| LedgerBooks.AccountsHoldWhatWasMoved | core/financial_ledger.py:114-229 | over any run of transfers a balance is what was moved to the account less what was moved away |
| LedgerBooks.TransfersAreAtomic | core/financial_ledger.py:188-229 | after any run of transfers the credit leg cannot fail after the debit leg, and a repeated event is refused without a trace |
| LedgerBooks.HalfTransferIsPossible | core/financial_ledger.py:205-229 | a concrete ledger with a single posting in which a transfer stops half way |
| FinancialLedger.DayIs | core/financial_ledger.py:253-260 | an entry belongs to the day whose 86400 seconds hold its time |
| FinancialLedger.SnapshotIsOffByWhatStandsAhead | core/financial_ledger.py:253-260 | for any clock: the snapshot is the sum up to the day plus what stands ahead of the account's last such entry and is dated later |
| FinancialLedger.SnapshotIsSumUpToDay | core/financial_ledger.py:253-260 | under a forward clock the snapshot is the sum of the entries dated up to the day |
| FinancialLedger.BackwardClockMisreports | core/financial_ledger.py:253-260 | with two entries in the wrong order of dates the snapshot counts the later one |
| FinancialLedger.ReplayedBooks | core/financial_ledger.py:270-286 | replayed books are in order |
| FinancialLedger.OwnEntriesReplayInFull | core/financial_ledger.py:270-286 | a ledger's own entries replay completely, to the same balances and the same applied sources |
| FinancialLedger.Ledger.Balance | core/financial_ledger.py:114-115 | the balance is what was booked, zero for an unknown account |
| FinancialLedger.Ledger.Post | core/financial_ledger.py:117-154 | appends one entry that continues its account's sum, or refuses with the right reason and changes nothing |
| FinancialLedger.Ledger.Correct | core/financial_ledger.py:156-186 | a compensating entry on the original's account; the earlier entries stay; the counter counts successes |
| FinancialLedger.Ledger.PostDoubleEntry | core/financial_ledger.py:188-229 | debit then credit, with the exact outcome: the amount booked on the debit account, taken from the credit account, no other account touched; all or nothing where sources pair up |
| FinancialLedger.Ledger.DailySnapshot | core/financial_ledger.py:253-260 | the loop keeps each account's last balance up to the day |
| FinancialLedger.Ledger.RebuildFrom | core/financial_ledger.py:270-286 | fails exactly at an event that is new and cannot be posted, otherwise reports the number of replayed entries |
| PublicClaims.BoundIsWilson | core/production_integrity.py:217-227 | the bound L solves (p - L)^2 = z^2/n * L(1 - L), lies in [0, 1] unclamped and does not exceed p |
| PublicClaims.LowerRootsAreOrdered | core/production_integrity.py:217-227 | a higher rate with a smaller z^2/n has a bound at least as high |
| PublicClaims.BoundIsMonotone | core/production_integrity.py:217-227 | a rate at least as high over a sample at least as large never has a lower bound |
| PublicClaims.AllowedClaimsAreTrue | core/production_integrity.py:241-277 | an allowed claim has an observed win rate of at least the target and meets all three minima |
| PublicClaims.MoreWinsKeepTheClaim | core/production_integrity.py:241-277 | turning a loss into a win never withdraws a claim |
| PublicClaims.DecidedExactly | core/production_integrity.py:252-277 | the figures of a decision and exactly when each verdict is given |
| PublicClaims.ReportsTheWilsonBound | core/production_integrity.py:217-254 | the bound L reported for n results with win rate p solves (p - L)^2 = 1.96^2/n * L(1 - L) and lies between 0 and p |
| ExecutionLifecycle.NamesNormalize | core/execution_state_machine.py:41-50 | every state's own name normalises to that state |
| ExecutionLifecycle.NormalizedExactly | core/execution_state_machine.py:41-50 | the texts that stand for each state: its name and the words of providers, and no others |
| ExecutionLifecycle.EdgesFromBothSides | core/execution_state_machine.py:62-150 | the graph listed by the states that can be entered is the graph listed by the states that can be left |
| ExecutionLifecycle.TerminalHasNoEdge | core/execution_state_machine.py:52-150 | the terminal states are exactly those without an edge; every other one can fail |
| ExecutionLifecycle.EvaluatedExactly | core/execution_state_machine.py:165-218 | every outcome of a transition between two texts, and the position state that goes with the new state |
| ExecutionLifecycle.EveryMoveCosts | core/execution_state_machine.py:62-150 | every edge of the graph but the ones into reconciliation lowers the rank |
| ExecutionLifecycle.MovesAreBudgeted | core/execution_state_machine.py:62-150 | the budget over any accepted run |
| ExecutionLifecycle.BoundedLifecycle | core/execution_state_machine.py:62-150 | a run from RESERVED with r entries into reconciliation makes at most 7 + 5r moves |
| ExecutionLifecycle.BoundIsReached | core/execution_state_machine.py:62-150 | for every r some run makes exactly 7 + 5r |
| ExecutionLifecycle.TerminalAbsorbs | core/execution_state_machine.py:52-60 | a terminal state is never left |
| ExecutionLifecycle.NeverBackToEarly | core/execution_state_machine.py:62-150 | RESERVED, SUBMITTING and AMBIGUOUS are never entered again |
| ExecutionLifecycle.OpenNeedsReconciling | core/execution_state_machine.py:179-193 | an open position becomes pending again only through reconciling |
| ExecutionLifecycle.ClosedComesFromOpen | core/execution_state_machine.py:62-150 | CLOSED is entered only from an open or reconciling position |
| ExecutionLifecycle.ExecutionRow.Apply | core/execution_state_machine.py:221-263 | a refused transition changes no field; an accepted one sets every field as specified and leaves status and metadata consistent |
| AccountPolicy.StatusReasons | core/account_policy.py:485-497 | exactly the status and permission reasons that apply; permission is blocked exactly on paper, in an unknown mode, by hand with a read-only, signals or paper permission, and automatically without AUTO_EXECUTION |
| AccountPolicy.ModeReasons | core/account_policy.py:499-510 | exactly the account-mode reasons |
| AccountPolicy.PropReasons | core/account_policy.py:512-522 | exactly the PROP requirements that are missing |
| AccountPolicy.LimitReasons | core/account_policy.py:546-581 | exactly the daily, weekly and drawdown reasons that apply |
| AccountPolicy.LossReasons | core/account_policy.py:524-581 | exactly the loss reasons, with buffered limits and a positive weekly limit |
| AccountPolicy.MarketReasons | core/account_policy.py:583-590 | exactly the risk, leverage, spread and slippage reasons |
| AccountPolicy.QualityReasons | core/account_policy.py:591-596 | exactly the confidence, reward and position-count reasons |
| AccountPolicy.ScopeReasons | core/account_policy.py:598-616 | exactly the allow-list, window, news and weekend reasons |
| AccountPolicy.TradingWindowAllows | core/account_policy.py:418-445 | open exactly when there is no window or one covers the moment, also around midnight |
| AccountPolicy.HardRuleReasons | core/account_policy.py:338-404 | exactly the hard rules that find something |
| AccountPolicy.EvaluateAccountPolicy | core/account_policy.py:475-645 | the decision lists exactly the reasons of the table, each once, and allows exactly when there is none; automatic modes are allowed with AUTO_EXECUTION only; each limit reported is the lower of the account's own and, for PROP, the firm's less the buffer |
| AccountPolicy.AllowedNeedsPermission | core/account_policy.py:448-459 | what is allowed is no paper account and no unknown mode; automatic modes have AUTO_EXECUTION and manual confirmation has one of the three execution permissions |
| AccountPolicy.BlocksAsTabled | core/account_policy.py:338-616 | every reason blocks exactly under the condition one flat table gives it in the fields of policy and situation, losses without a division and hard rules by their findings |
| PolicyOrder.EffectiveLimitStricter | core/account_policy.py:462-472 | stricter limits and a larger buffer never give a higher effective limit |
| PolicyOrder.LossesBlock | core/account_policy.py:524-581 | a loss that blocks under the laxer limits blocks under the stricter ones |
| PolicyOrder.WindowsBlock | core/account_policy.py:418-445 | narrower windows are never open when wider ones are shut |
| PolicyOrder.RulesBlock | core/account_policy.py:338-404 | a hard rule that blocks is answered by a stricter rule that blocks |
| PolicyOrder.TighteningNeverAdmitsMore | core/account_policy.py:475-645 | what a policy at least as strict allows, the laxer one allows; the laxer one may have its weekly check off, and the stricter one may add a weekly limit of the firm |
| PolicyOrder.WorseIsNeverAdmitted | core/account_policy.py:475-645 | less equity, worse results, lower quality or more positions never turn a block into an allow |
| PolicyOrder.WeeklyTightensExactly | core/account_policy.py:509-568 | putting one weekly limit for another never admits more, over all acceptable policies and all situations, if and only if the other was zero or both are positive and the new one is no higher |
| Leases.StepKeepsInv | core/job_leases.py:76-98 | every step of the protocol keeps the lease invariant |
| Leases.EveryStateIsSafe | core/job_leases.py:76-98 | it holds after every sequence of steps |
| Leases.MutualExclusion | core/job_leases.py:76-98 | in every reachable state at most one process is inside and in time |
| Leases.LateReleaseIsHarmless | core/execution_claims.py:40-45 | a release, however late, never removes the lease of a holder in time |
| Leases.SecondEntryNeedsAnOverrun | core/job_leases.py:76-98 | a second process gets in exactly when no lease is alive, and then the first has overrun |
| Leases.OverrunLetsTwoIn | core/job_leases.py:76-98 | a run in which an overrun puts two processes inside |
| Leases.SetTwiceShutsOut | core/job_leases.py:76-86 | after a SET NX sent twice nobody is inside, and another process gets in exactly when the lease left behind has run out |
| Leases.LeaseLasts | core/job_leases.py:76-86 | a lease lasts as long as it was asked for and thirty seconds at least, to the second |
| Leases.HoldersAreKnown | core/job_leases.py:76-98 | in every reachable state a holder has a drawn token and entered no later than now |
| Leases.LeaseKey.TryAcquire | core/job_leases.py:76-86 | succeeds exactly when no lease is alive and the command was not sent twice; sets the key, for at least thirty seconds, exactly when no lease is alive |
| Leases.LeaseKey.Claim | core/execution_claims.py:72-80 | the first attempt before the deadline without a live lease decides: answered, it wins; sent twice, its own lease stays and only an attempt after that lease can still win; without such an attempt the key is left alone |
| Leases.LeaseKey.Release | core/execution_claims.py:40-45 | deletes exactly one's own live lease |
| CircuitBreaker.RecentOfRecent | core/circuit_breaker.py:24-27 | pruning earlier does not change what a later prune leaves |
| CircuitBreaker.FrontIsNotRecent | core/circuit_breaker.py:24-27 | dropping an old time from the front is filtering |
| CircuitBreaker.Breaker.Prune | core/circuit_breaker.py:24-27 | the queue becomes the full history filtered to the window |
| CircuitBreaker.Breaker.Allow | core/circuit_breaker.py:29-34 | refuses exactly while the latest trip since the last success is less than the open time ago |
| CircuitBreaker.Breaker.RecordSuccess | core/circuit_breaker.py:36-38 | forgets everything |
| CircuitBreaker.Breaker.RecordFailure | core/circuit_breaker.py:40-47 | trips exactly when the window holds at least the threshold of failures |
| RateLimiter.WindowMeetsTwoBuckets | core/redis_state.py:775-778 | an interval one window long meets two buckets at most |
| RateLimiter.PlacesAreShared | core/redis_state.py:775-806 | the places of a bucket go to calls let through and to unanswered executions, as they come, up to the limit |
| RateLimiter.BucketAdmitsExactly | core/redis_state.py:775-806 | exactly min(answered calls, limit) get through if and only if no answer refused or no unanswered execution took a place |
| RateLimiter.AnsweredBucketAdmitsExactly | core/redis_state.py:775-806 | when every command is executed once and answered, a bucket admits exactly as many calls as come, up to the limit |
| RateLimiter.ResentIncrRefusesTheFirst | core/redis_state.py:802-806 | at limit 1 an INCR sent twice refuses the first call of a bucket |
| RateLimiter.IntervalAdmitsAtMostTwice | core/redis_state.py:775-806 | any interval one window long admits twice the limit at most |
| RateLimiter.TwiceTheLimitIsReached | core/redis_state.py:775-806 | for every limit and window a burst gets twice the limit through within one second |
| RateLimiter.MemoryLimiter.Limited | core/redis_state.py:797-800 | the memory branch refuses exactly the calls beyond the limit of their bucket |
| RateLimiter.RedisLimiter.Incr | core/redis_state.py:802 | INCR on a live, expired or missing counter |
| RateLimiter.RedisLimiter.IncrUnanswered | core/redis_state.py:802 | an INCR executed without a reply in time counts, and nothing else changes |
| RateLimiter.RedisLimiter.Limited | core/redis_state.py:802-806 | an answer given while the bucket of the call is running refuses exactly when more than the limit has been executed in it, resends included; a lost EXPIRE gives no answer, and a counter outlives its bucket |

## Left out

- Rounding of the values that are only reported (`round(...)`), the summary texts and `attach_candle_evidence`.
- Float and Decimal rounding: values are exact reals; the Decimal context of 28 digits is not modelled.
- Candle fields that are not finite numbers are read as 0.0 by the program; the model starts after that. When a candle is final is an input.
- The square root of the Wilson bound is given as the non-negative root; nothing is said about `math.sqrt` itself.
- Two paper transactions at once: a step is one transaction under the account's row lock. Users, tiers, delivery evidence and quotes are inputs of a step.
- `mark_to_market` and the worker loops choose which steps happen and when; the proofs cover every choice.
- PaperTradingService.PaperTradingAccount.CloseAllPositions: no reset happens between its transactions, and how old a last mark may be is decided outside.
- Legacy positions with unusual status values, and `core/paper_ledger.py`.
- The cap on the dead-letter stream: "has a dead letter" means that one was written.
- RecoverableStream.PoisonMessageIsDeadLettered: counts calls of fail whose commands do not time out; an HINCRBY sent twice counts a failure twice, as in StreamProtocol.
- RecoverableStream.Client.Enqueue: its commands are executed once each; commands sent twice are steps of StreamProtocol.
- The time to live of the attempts hash appears as a step that empties it; XAUTOCLAIM follows Redis 7, which drops trimmed rows from the pending list.
- The ledger's `orphan_entries`, `entries_for_correlation`, `audit_range` and `fingerprint`, which only read, the random correlation id that stands in for a missing one, and the lower and upper casing of types and currencies.
- Validation of policy fields and rule configuration, time-zone conversion and the parsing of clock texts; a window part that cannot be read is an input.
- The PostgreSQL and in-process branches of leases, claims and limiter.
- Leases.LeaseKey.Claim: the waiting time between two attempts is in the clock readings it is given.
- RateLimiter.RedisLimiter.Limited: one window per limiter; the program's key holds the user and the bucket number but not the window, so limiters with different windows can meet in one counter. Callers and server share one clock; an INCR that arrives after its bucket has ended may find the counter forgotten, and of its answer nothing is said.
- RateLimiter.MemoryLimiter.Limited: the read cache that is written beside the counter is not modelled, since the limiter never reads it.
- The breaker registry and its snapshot.
- The rest of `core/redis_state.py`, the event buses, caches, routes and bot handlers.
