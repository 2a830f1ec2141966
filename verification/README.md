# Verified model of the betting bot's money and decision core

This project models two cores of the bot and proves properties of them. They share one money model: cents are `int`,
probabilities and fractions are `real`, times are Unix seconds (`int`).

**Bets and the bankroll ledger.** `Ledger` holds the two tables and the transactions on them, `Lifecycle` a step system in
which any number of placements, settlements, voids, manual bets, deposits and crashes interleave: each read, each
transaction commit and each call to the book is a step of its own. `ExactlyOnce` and `Conservation` prove what holds over
every run: one call per idempotency key behind a committed reservation, and where every cent of the balance comes from.
`Store` and `Settlement` are the database object, the placement orchestrator, the handlers and the settlement job as methods,
each proved to be a run of the step system or a closed form of the new state. `IdempotencyKeys` covers the two key formats.

**Decisions, calibration and replay.** `Odds`, `Sizing`, `LineShopping`, `Correlation`, `Circuit` and `Recommendations` are the
recommendation pipeline; `Calibration`, `CalibrationLaws`, `CalibrationPartition`,
`CalibrationReport` and `BacktestMetrics` the error reports
(`Grouping` holds the algebra of grouped sums they rest on); `RollingDrift` the alerts over two such reports;
`VirtualBankroll` the replay; `Outcomes` the re-evaluation of snapshots; `OddsLog` the deduplicated odds log. `Sorting` is
Go's `sort.SliceStable` as a function, `Counting` holds counts, sums and means over a list, `Reals`, `Text` and `Wrappers` are
shared helpers.

Loops of the program are loops here. Each is proved equal to a function (`Guard`, `Build`, `ReportOf`, `Replayed`, `Evaluate`,
`Deduped`, `DriftOf`, ...), and the results below are about those functions. What each operation promises is also stated apart
from its function, in counts, sums and comparisons of its own input: predicates such as `SettledByScore`, `IsPickFor`,
`StakesFractionalKelly`, `Reports`, `FollowsModel`, `ValuesClose` and `Alerts` are in the contracts of the methods.

Hypotheses that appear in statements are the ones the program relies on: closings read with the status check and at most one
closing per bet (`OneClosingBalances`; `BooksBalanceIff` needs neither), pairwise distinct row ids or (game, market) pairs for
order independence, strictly increasing capture times and an injective digest for the odds log. Where a property fails
without its hypothesis, the exact condition is stated beside a concrete failing input (`BooksBalanceIff`,
`ManualKeysCollideIff`, `DrawdownDominatesIff`, `LateDebitKeepsPeakIff`, `CappedStakeSurvivesIff`, `NewestIsCurrentIff`,
`ListingSucceedsIff`, `OnePriceAfterPollIff`, `GameWideLookupIff`).

Where the code and its comments disagree the model follows the code:

- The comment on `Place` (internal/execution/placement.go:50) lets a failed key through the idempotency check; the unique key of
  the bets table (migrations/022_create_bets.up.sql:5) then refuses the insert, so a failed key is never retried
  (`FailedKeyIsAbandoned`).
- `UpdateBetSettled` and `VoidBet` match placed rows only but report nothing, and their callers write the ledger entry
  regardless (`StaleCreditSign`, `DoubleSettlementPaysTwice`); `SettleBet` does not read the status at all.
- Snapshots may carry the sides over and under (migrations/025_allow_totals_sides_in_snapshots.up.sql:1-4), which the
  performance tracker refuses for the whole listing (`TotalsCannotBeEvaluated`, `ListingSucceedsIff`).
- The insert-if-changed statement compares with every stored row, not with the newest (`NewestIsCurrentIff`).

`dafny verify dfyconfig.toml` checks everything.

## Model

| member | source | states |
|---|---|---|
| `Lifecycle.StepKeepsInv` | internal/execution/placement.go:55-185 | every step of any in-flight operation (key check, first commit, call to the book, second commit, row read before a closing, closing commit, manual bet, deposit, crash) keeps the invariant: unique keys, sound rows, each operation in agreement with the tables, one call per key, statuses that match the book's answers |
| `Lifecycle.RunKeepsInv` | internal/execution/placement.go:55-185 | the same over whole runs of any number of interleaved operations |
| `Lifecycle.StepEvolves` | internal/store/bets.sql.go:822-889 | one step never removes a row, never changes a ticket, and moves a status only pending to placed or failed, placed to settled or voided; ledger and call log only grow |
| `Lifecycle.WhoChangesRow` | internal/store/bets.sql.go:822-889 | a row changes only by the second commit of its own placement or by a closing that finds it placed |
| `Lifecycle.InFlightBetStays` | internal/execution/placement.go:132-184 | while a placement is between its two commits nobody else changes its bet |
| `ExactlyOnce.StatusOnlyForward` | internal/store/bets.sql.go:822-889 | over any continuation of any state a row keeps its ticket, its status only moves forward, and a settled, failed or voided row is frozen |
| `ExactlyOnce.LogsOnlyGrow` | internal/store/bankroll.sql.go:77-100 | the ledger and the call log are append-only over every run |
| `ExactlyOnce.BookCalledAtMostOnce` | internal/execution/placement.go:58-130 | in every run, with any retries, duplicates and crashes, no idempotency key reaches the book twice |
| `ExactlyOnce.CallFollowsReservation` | internal/execution/placement.go:75-130 | whenever the book is called, that ticket's bet is already committed as pending, and its key's trail is exactly one unreleased reservation of the same stake |
| `ExactlyOnce.EveryBetIsReservedOnce` | internal/execution/placement.go:105-160 | in every run each key's trail is one reservation of its bet's stake, followed by one placement-failure release of the same stake exactly when the bet is failed; a key without a bet has no trail |
| `ExactlyOnce.AbandonedKeyNeverCalled` | internal/execution/placement.go:58-119 | once a key has a bet and nobody holds it (a crash left it pending, or it failed), no continuation ever calls the book with that key |
| `ExactlyOnce.FailedKeyIsAbandoned` | migrations/022_create_bets.up.sql:5 | every failed bet's key is in that position: the unique key refuses the retry that the status check lets through |
| `ExactlyOnce.AnswerDecidesBet` | internal/execution/placement.go:132-184 | a bet the book confirmed is never failed, and a bet it refused is never placed, settled or voided |
| `Conservation.StepMovesGap` | internal/server/bets.go:255-404 | every step changes balance - (deposits + settled profit - open stakes) by exactly what a stale closing credits, and by nothing otherwise |
| `Conservation.BalanceIsAccountedFor` | internal/store/bankroll.sql.go:13-16 | for every run: balance = deposits + sum of (payout - stake) over settled bets - stakes of pending and placed bets + stale credits |
| `Conservation.BooksBalanceIff` | internal/server/bets.go:312-404 | the books balance if and only if every committing closing finds its bet still placed or settles a loss; otherwise the ledger holds too much, never too little |
| `Conservation.OneClosingBalances` | internal/server/bets.go:312-404 | when every closing read checked the status and no bet has two committed closings, the books balance |
| `Conservation.StaleCreditSign` | internal/store/bets.sql.go:854-889 | a closing whose guarded update matches no row still writes its ledger entry: it credits a positive amount unless it settles a loss |
| `Store.Database.GetBetByIdempotencyKey` | internal/store/bets.sql.go:90-163 | finds the row holding the key, or reports none |
| `Store.Database.InsertBet` | internal/store/bets.sql.go:204-316 | appends the row with the given status exactly for a positive stake, a valid price, a known side and a key no row has, and writes nothing otherwise |
| `Store.Database.InsertBankrollEntry` | internal/store/bankroll.sql.go:77-121 | appends one entry to the ledger |
| `Store.Database.UpdateBetPlaced` | internal/store/bets.sql.go:838-852 | moves a pending row to placed with the external id; any other row stays as it is, silently |
| `Store.Database.UpdateBetFailed` | internal/store/bets.sql.go:822-836 | moves a pending row to failed; any other row stays as it is, silently |
| `Store.Database.UpdateBetSettled` | internal/store/bets.sql.go:854-878 | moves a placed row to settled with result and payout; any other row stays as it is, silently |
| `Store.Database.VoidBet` | internal/store/bets.sql.go:880-889 | moves a placed row to voided; any other row stays as it is, silently |
| `Store.PlacementOrchestrator.Place` | internal/execution/placement.go:55-185 | the two-transaction method leaves exactly the rows, entries and calls of an undisturbed placement, is a run of the step system, and reports existing, accepted or rejected accordingly |
| `Store.PlacementIsRun` | internal/execution/placement.go:58-184 | the five protocol steps of a placement that nobody disturbs add up to that closed form, for every database, ticket and answer |
| `Settlement.WorkerAgreesIff` | internal/worker/settlement_job.go:232-258 | over every acceptable ticket the worker decides as the settlement processor would if and only if the normalized market is h2h, the side is home or away and it is not a hockey tie; otherwise it declines |
| `Settlement.RulesCompareScores` | internal/worker/settlement_job.go:232-258 | over all tickets and scores the processor's and the worker's rules are the comparison of the backed side's score with the other's; the worker decides exactly normalized h2h tickets on home or away that are no hockey tie |
| `Settlement.GradeComparesScores` | internal/decision/performance.go:86-110 | over all markets, sides and scores the tracker's grade is that comparison for a market that trims to h2h, nothing for another market, and an error exactly for such a market with another side |
| `Settlement.TrackerAgreesIff` | internal/decision/performance.go:86-110 | over every acceptable ticket the performance tracker grades as the settlement processor would if and only if the market trims to exactly h2h and the side is home or away |
| `Settlement.ProcessorGradesTotalsAsAway` | internal/worker/settlement_job.go:232-258 | totals sides are declined by the worker and refused by the tracker, while the processor grades them as the away side |
| `Settlement.ClosingNetsOut` | internal/execution/settlement.go:73-113 | together with its reservation a winning bet nets stake times net price to half a cent, a losing one loses its stake, and a push or a void nets nothing |
| `Settlement.SettleOneBet` | internal/worker/settlement_job.go:189-216 | the shared settlement transaction: guarded update plus ledger entry, computed from the ticket as read |
| `Settlement.SettleBet` | internal/execution/settlement.go:32-70 | settles the bet value it is handed without looking at the row or its status; when that is the stored ticket it equals an unguarded read and commit of the step system |
| `Settlement.HandleBetsSettle` | internal/server/bets.go:300-360 | succeeds exactly for a known result on a placed bet; the row then shows that result and its payout, the ledger one settlement entry of that payout under its key; it is a guarded read and commit, keeps the books balanced, and otherwise changes nothing |
| `Settlement.HandleBetsVoid` | internal/server/bets.go:362-407 | succeeds exactly on a placed bet; the row is then voided and the ledger holds one release of exactly its stake; the books stay balanced, and otherwise nothing changes |
| `Settlement.HandleBetsCreate` | internal/server/bets.go:208-298 | succeeds exactly when price, stake and side are acceptable and the key is new; then appends a placed manual row and one reservation of its stake; equals the manual-bet step and keeps the books balanced |
| `Settlement.HandleBankrollDeposit` | internal/server/bankroll.go:55-80 | accepts exactly positive amounts, appends one deposit of the amount rounded to cents and raises the balance by it |
| `Settlement.RunAutoSettlement` | internal/worker/settlement_job.go:66-187 | row by row, said from the row and the scores: a placed bet, manual or not, whose game has a score, whose normalized market is h2h and normalized side home or away, and which is no hockey tie, ends settled with the result that compares its side's score with the other's and the payout of its ticket; every other row is unchanged; the new ledger entries are one settlement per changed row, in row order, with that row's result, payout and key; the books stay balanced and it is the run of its guarded reads and commits |
| `Settlement.JobIsRun` | internal/worker/settlement_job.go:66-216 | from any state, with anything else in flight, the job's guarded read and commit labels lead to exactly the rows and entries the job writes |
| `Settlement.JobExtendsRun` | internal/worker/settlement_job.go:66-216 | a job that starts in any reachable state only extends the run by those labels, so everything proved of runs holds after it |
| `Settlement.SettleListedBets` | internal/worker/settlement_job.go:125-187 | over a listing that may be stale, with any transactions failing, the loop writes what settling each listed row in turn writes |
| `Settlement.ListedIsRun` | internal/worker/settlement_job.go:125-216 | settling a listing is the run of the commits (or crashes) of operations that read those rows earlier, whatever happened to the table in between |
| `Settlement.DoubleSettlementPaysTwice` | internal/server/bets.go:312-357 | a concrete run: two settlements that both read the bet as placed credit the bankroll twice (3000 cents instead of 2000) |
| `IdempotencyKeys.ManualKeyParses` | internal/execution/idempotency.go:11-14 | with a colon-free market a printed manual key parses back to its game, market, book and minute |
| `IdempotencyKeys.ManualKeysCollideIff` | internal/execution/idempotency.go:11-14 | for all inputs two manual keys are equal if and only if game, minute and the joined "market:book" text are equal |
| `IdempotencyKeys.ColonInMarketCollides` | internal/execution/idempotency.go:11-14 | a concrete pair of different requests sharing one key when a market contains a colon |
| `IdempotencyKeys.AutoKeysSeparate` | internal/worker/placement_job.go:192-200 | auto keys are equal only for equal snapshot and game, and no auto key equals a manual key |
| `IdempotencyKeys.BuildInput` | internal/worker/placement_job.go:142-190 | succeeds exactly for the placeable snapshots (positive ids and stake, non-blank fields, a team side, valid odds, probabilities strictly inside (0,1), no negative edge) and yields a ticket the bets table accepts, under its own snapshot-scoped key |
| `IdempotencyKeys.SnapshotsGetTheirOwnKeys` | internal/worker/placement_job.go:142-200 | two different placeable snapshots never share a key |
| `Text.TrimMeans` | internal/worker/placement_job.go:142-163 | trimming takes off white space at both ends, all of it, and nothing else |
| `Text.LowerMeans` | internal/worker/placement_job.go:192-200 | lowering moves each ASCII capital to its place among the small letters and leaves every other character |
| `Odds.DecimalMonotone` | internal/decision/bankroll.go:260-268 | a larger American number is never a smaller decimal price, across the sign change |
| `Odds.ImpliedIsReciprocal` | internal/execution/clvcapture.go:16-21 | implied probability times decimal price is 1, and lies strictly between 0 and 1 |
| `Odds.MultiplierIsNetPrice` | internal/execution/settlement.go:90-97 | settlement and sizing price a bet alike: the winnings multiplier is the decimal price less 1 |
| `Odds.WinningsNearest` | internal/execution/settlement.go:90-98 | winnings are within half a cent of stake times net price, and never negative |
| `Odds.WinningsMonotone` | internal/execution/settlement.go:90-98 | on the same stake a larger American number never pays less |
| `Odds.KellyPositiveIffEdge` | internal/decision/bankroll.go:270-276 | for 0 < p < 1 and valid odds the raw Kelly fraction is below p, and positive exactly when p exceeds the implied probability |
| `Odds.KellyMonotone` | internal/decision/bankroll.go:270-276 | a better price never lowers the Kelly fraction |
| `Odds.KellyForm` | internal/decision/bankroll.go:270-276 | the fraction times the net price is p * d - 1, and it is p less (1 - p) over the net price |
| `Sizing.ResolveKellyPolicy` | internal/decision/kelly.go:31-71 | resolves exactly for fractions in [0,1] and a supported sport, or no sport and both overrides; positive overrides win, zero means the sport's default, and whatever resolves lies in (0,1] |
| `Sizing.EvaluateRecommendationStake` | internal/decision/bankroll.go:131-254 | fails only when no policy resolves; the raw fraction is Kelly's, the applied one raw times the policy's Kelly fraction, the capped one never above it or the maximum; the dollars are never more than half a cent above bankroll times the applied fraction, within half a cent of it up to the maximum and of bankroll times the maximum beyond when affordable, and all the available cents otherwise; every reason is given exactly when it applies; the whole result equals the closed form |
| `Sizing.SizingMeans` | internal/decision/bankroll.go:131-254 | in that result the cents are the granted ones and the fraction their share of the bankroll, the check passes exactly for an affordable positive stake, and sized, bankroll-insufficient and non-positive-edge appear exactly when they hold |
| `Sizing.FractionalKelly` | internal/decision/bankroll.go:182-246 | the same half-cent bounds for the sizing of any raw fraction, under any policy, bankroll and available cents |
| `Sizing.CheckAvailability` | internal/decision/availability.go:32-57 | fails exactly for negative input; passes exactly a positive stake that is available, and reports by how much a larger one falls short |
| `Sizing.StakeWithinAvailable` | internal/decision/bankroll.go:212-247 | the recommended cents are never negative and never exceed the available cents |
| `Sizing.OwnBankrollSuffices` | internal/decision/bankroll.go:198-232 | sized from any bankroll of at most the available dollars, the wanted cents never exceed the available ones: the insufficient-funds branch is unreachable despite rounding |
| `Sizing.LargerSizingBankrollCanExceed` | internal/decision/bankroll.go:212-232 | a concrete request where a larger sizing bankroll does hit that branch: 300 cents wanted, 299 granted |
| `Sizing.StakeMonotoneInOdds` | internal/decision/bankroll.go:131-254 | a better price never lowers the stake, through Kelly, both caps, rounding and the cap to available |
| `Sizing.StakeFractionNearCapped` | internal/decision/bankroll.go:183-246 | a funded stake is within half a cent of the capped Kelly fraction of the bankroll |
| `Sizing.RecommendStake` | internal/decision/bankroll.go:83-129 | the edge-based stake is a fraction of the bankroll in [0, max], zero without an edge, and fails exactly on a negative bankroll or an unresolvable policy |
| `Sizing.RecommendStakeMeans` | internal/decision/bankroll.go:100-128 | a positive edge stakes the edge, up to 1, times the policy's Kelly fraction, up to its maximum, of the bankroll |
| `LineShopping.EvaluateThreshold` | internal/decision/threshold.go:81-109 | fails exactly for a probability outside [0,1] or an unresolvable threshold; the edge is the distance between model and market, the side the one the model favours, and it passes exactly when the edge is positive and reaches the resolved threshold |
| `LineShopping.ResolveMinEdge` | internal/decision/threshold.go:51-79 | resolves exactly for an override in [0,1] and no sport or a supported one; a positive override wins, zero means the sport's published default or 2% |
| `LineShopping.ShopBestLine` | internal/decision/lineshopper.go:38-85 | fails exactly on an unsupported sport, no quotes, or a quote without a book or with an invalid price on either side; otherwise returns the first position of the largest home price, or away price for the away side, with that book and price |
| `LineShopping.ShopMeans` | internal/decision/lineshopper.go:58-82 | the shopped line is the first of the best prices quoted for its own side, from the book that quotes it |
| `LineShopping.BestIndex` | internal/decision/lineshopper.go:58-82 | the chosen position is at least as large as all others and strictly larger than all before it |
| `LineShopping.ShoppedLineIsBest` | internal/decision/lineshopper.go:58-82 | no other quote gives a larger decimal price, raw Kelly fraction, recommended stake, or winnings on the same stake |
| `Correlation.ResolvePolicy` | internal/decision/correlation.go:46-81 | resolves exactly the in-range overrides, zero meaning the default, always to a policy the guard accepts |
| `Correlation.ApplyCorrelationGuard` | internal/decision/correlation.go:83-153 | the loop over per-game and per-day maps decides exactly as reading exposure off the retained list does, and fails only for an invalid policy |
| `Correlation.GuardSplits` | internal/decision/correlation.go:94-153 | retained and dropped are an order-preserving split of the input |
| `Correlation.RetainedWithinCaps` | internal/decision/correlation.go:98-147 | for every input, every game's positive-stake picks and stake sum stay within the caps (plus 1e-12), and sport-day picks within theirs when set |
| `Correlation.RetainedCounts` | internal/decision/correlation.go:98-147 | counted pick by pick: for every sport and game the staked picks retained and the sum of their fractions, and for every sport and day of 86400 seconds the staked picks, are within the policy's numbers |
| `Correlation.VerdictCounts` | internal/decision/correlation.go:98-147 | what happens to the next item, read off those counts over what was retained before it: the first cap it would break is the reason it is dropped with, a negative fraction is invalid, no stake passes free, and otherwise it is retained |
| `Correlation.DroppedOnlyForCause` | internal/decision/correlation.go:98-147 | an item is dropped exactly when it stakes something and its fraction is invalid or would break a cap on top of what was retained before it |
| `Correlation.GuardIdempotent` | internal/decision/correlation.go:83-153 | running the guard on its own retained list drops nothing and changes nothing |
| `Circuit.EvaluateCircuitBreakers` | internal/decision/circuit.go:80-111 | fails exactly for a stop outside [0,1]; trips on any breached stop and reports all breaches, the first in daily, weekly, drawdown order |
| `Circuit.BreakersTripIff` | internal/decision/circuit.go:80-101 | each stop by itself trips exactly when it is set and the balance has lost at least its share of a positive day, week or peak balance; from a zero or negative one any fall trips it |
| `Circuit.TriggeredMeans` | internal/decision/circuit.go:80-111 | the triggered list is exactly the stops whose share of the day, week or peak balance has been lost, in that order |
| `Circuit.BreakerSplits` | internal/decision/circuit.go:113-147 | the guard is an order-preserving split of its input: with nothing breached everything stays, otherwise exactly the picks without a stake, and each item carries the reason why |
| `Circuit.MetricsMean` | internal/store/bankroll.sql.go:25-56 | the metrics are sums of ledger amounts: the current balance of all entries, the day and week starts of the entries dated before them, and the peak the largest running balance in time order |
| `Circuit.ApplyCircuitBreakerGuard` | internal/decision/circuit.go:113-147 | zero-stake picks always pass; staked picks pass exactly while nothing is tripped |
| `Circuit.TrippedEmitsNoStake` | internal/decision/circuit.go:119-147 | while any breaker is tripped no emitted recommendation has a stake |
| `Circuit.SortKeepsBalance` | internal/store/bankroll.sql.go:32-43 | ordering the ledger by time changes neither the balance nor the balance before any moment |
| `Circuit.DrawdownDominatesIff` | internal/store/bankroll.sql.go:25-56 | for every ledger and moment the loss since then is at most the drawdown if and only if the balance is not negative, or has not fallen since, or the balance then was the peak, or it was at most zero then and is below the peak now |
| `Circuit.DrawdownDominates` | internal/store/bankroll.sql.go:25-56 | with a non-negative balance the drawdown fraction is at least the loss since any earlier moment, the start of the day and of the week included |
| `Circuit.OverdrawnDailyExceedsDrawdown` | internal/decision/circuit.go:169-178 | a concrete overdrawn ledger outside that condition: total daily loss and no drawdown |
| `Circuit.LateDebitKeepsPeakIff` | internal/store/bankroll.sql.go:39-48 | a debit dated at any time leaves a positive peak where it was if and only if the history up to its date had reached that peak by itself; otherwise the peak falls |
| `Circuit.LateCreditKeepsPeak` | internal/store/bankroll.sql.go:39-48 | a credit dated at any time never lowers the peak |
| `Circuit.DrawdownStaysTrippedUnlessUndercut` | internal/decision/circuit.go:80-107 | in whatever order later rows are dated, while none is a debit dated before the peak was reached the peak never falls, and a tripped drawdown breaker still trips after any extension that leaves the balance no higher |
| `Circuit.AppendOrderSparesPeak` | internal/store/bankroll.sql.go:39-48 | a debit written in time order is always dated after the peak was reached |
| `Circuit.DrawdownStaysTripped` | internal/decision/circuit.go:80-107 | with timestamps in append order the peak never falls and a tripped drawdown breaker lasts while the balance is no higher |
| `Circuit.BackdatedEntryReleasesBreaker` | internal/store/bankroll.sql.go:39-48 | a concrete late debit dated before the peak: the peak falls and the breaker is released with the balance unchanged |
| `Recommendations.EvaluateCandidate` | internal/decision/recommendation.go:112-202 | per candidate: an error, nothing below the threshold, or exactly the specified recommendation |
| `Recommendations.BuildRecommendations` | internal/decision/recommendation.go:70-242 | fails exactly for unusable settings or a bad candidate, said field by field; there is one pick per candidate whose edge clears its threshold; every emitted item carries its candidate's own fields, side label, first best price and rank formula and stakes its share of Kelly to half a cent; the list is in rank, edge, fraction, odds, game and name order and within the pick, stake and day caps counted item by item; when the caller's non-zero metrics show a loss of a stop's share nothing is staked, and otherwise the breaker removes nothing the exposure guard kept |
| `Recommendations.ResolveMeans` | internal/decision/recommendation.go:71-111 | the configuration resolves exactly for fields in range, to the caps, the bankroll and the time it names; the breakers trip on the caller's own metrics, and never on the flat ones that replace all-zero metrics |
| `Recommendations.PickMeans` | internal/decision/recommendation.go:122-202 | the pick of a candidate: its own fields, the side the model is on under the market's label, the first best price for that side, the stake that price and side earn, and the rank |
| `Recommendations.EvaluateSucceedsIff` | internal/decision/recommendation.go:113-161 | a candidate fails exactly for a bad id, market, time, probability or threshold, or, once it clears its edge, for bad quotes or no sizing policy; it gives a pick exactly when it clears its edge |
| `Sorting.StableSortIsTheStableSort` | internal/decision/recommendation.go:204-229 | for any legitimate comparator the sort function is the one arrangement of its input that is sorted and keeps tied elements in their given order, so it is what sort.SliceStable returns by whatever algorithm |
| `Recommendations.PickOrderIsStrictWeak` | internal/decision/recommendation.go:204-229 | the eight-level comparator is a legitimate ordering: asymmetric, with transitive ties |
| `Recommendations.ComparatorIsTotal` | internal/decision/recommendation.go:204-229 | with one candidate per game and market it orders any two built recommendations |
| `Recommendations.BuildIgnoresInputOrder` | internal/decision/recommendation.go:70-242 | with one candidate per game and market, every permutation of the candidates builds the same list, or fails alike |
| `Recommendations.EmittedIsSorted` | internal/decision/recommendation.go:204-241 | the emitted list is in comparator order although both guards removed items after the sort |
| `Recommendations.EmittedWithinCaps` | internal/decision/recommendation.go:231-241 | the caps still hold for what the circuit breaker leaves |
| `Recommendations.BuildIsSound` | internal/decision/recommendation.go:70-242 | every item of a built list is the pick of some candidate, has a positive edge, stakes between zero and the available cents, and stakes nothing while a breaker is tripped |
| `Recommendations.PickBeatsItsPrice` | internal/decision/recommendation.go:122-202 | a pick is for the side the model favours, at the best price quoted for that side and from the book quoting it, and it stakes something only when the model's probability of that side beats the one implied by that very price |
| `Recommendations.DefaultSizingIsFunded` | internal/decision/recommendation.go:106-110 | with the sizing bankroll left at zero no candidate ever wants more than is available |
| `Recommendations.CappedStakeSurvivesIff` | internal/decision/correlation.go:124-131 | a lone pick capped at exactly the game's stake cap survives the guard if and only if rounding the capped dollars to cents did not lift them above the cap |
| `Recommendations.RoundedUpStakeIsDropped` | internal/decision/correlation.go:124-131 | a concrete default MLB pick on $100.17 that rounds up to $3.01 and is therefore dropped |
| `CalibrationReport.ComputeReport` | internal/decision/calibration.go:71-198 | fails exactly for a bucket count outside 0..20, zero meaning 10; settled rows are the wins and losses with a probability in [0,1], the observed rate the share of wins among them, expected rate, Brier score and average CLV the means of theirs, overall and in each bucket, whose rows are the slice of the ranking from b*n/k, rounded up, to the next; the ECE adds up each bucket's wins less its promised wins; a perfect forecast scores 0; and the in-place accumulation equals the specified report |
| `CalibrationReport.ReportMeans` | internal/decision/calibration.go:71-198 | the specified report says exactly that of its rows, for every row list and bucket count |
| `CalibrationReport.OverallTallies` | internal/decision/calibration.go:115-148 | a tally counts its wins and losses and sums their probabilities, squared misses and closing-line values |
| `CalibrationReport.BucketIsSlice` | internal/decision/calibration.go:115-121 | the tally of bucket b is the tally of its slice of the ranked rows |
| `CalibrationReport.RankedMeans` | internal/decision/calibration.go:88-100 | the ranking is the stable arrangement of the given rows with the best rank first and equal ranks by ascending id |
| `CalibrationReport.PerfectForecast` | internal/decision/calibration.go:133-188 | probability 1 for every win and 0 for every loss gives Brier score 0 and ECE 0 |
| `Calibration.Accumulate` | internal/decision/calibration.go:115-148 | one pass leaves in each bucket exactly the tally of its rows, and in the total the tally of all |
| `CalibrationLaws.ReportBounds` | internal/decision/calibration.go:150-188 | for every row list with a settled row: |observed - expected| <= ECE, ECE^2 <= Brier, and all of them lie in [0,1] |
| `CalibrationLaws.BucketGapBelowBrier` | internal/decision/calibration.go:150-164 | in every bucket the rates and the Brier score lie in [0,1] and gap^2 is at most the Brier score |
| `CalibrationLaws.EceMeaning` | internal/decision/calibration.go:172-188 | the reported ECE is the summed absolute bucket error over the settled count |
| `CalibrationLaws.FinerBucketsRefine` | internal/decision/calibration.go:117 | with c times as many buckets each coarse bucket is exactly c consecutive fine ones, for every row count |
| `CalibrationLaws.FewerBucketsLowerEce` | internal/decision/calibration.go:117-188 | a bucket count that divides another reports an ECE at most as large, for every row list |
| `CalibrationPartition.BucketIsInterval` | internal/decision/calibration.go:117 | each bucket is a contiguous interval of the ranked positions |
| `CalibrationPartition.BucketSizesEven` | internal/decision/calibration.go:115-120 | bucket sizes are the two integers around n/k |
| `CalibrationPartition.CountsAddUp` | internal/decision/calibration.go:115-170 | bucket counts add up to the row count, settled counts to the summary's |
| `CalibrationPartition.TallyRankRange` | internal/decision/calibration.go:221-228 | the tracked range is the least and greatest rank of the bucket's rows, absent when it is empty |
| `CalibrationPartition.EarlierBucketsRankHigher` | internal/decision/calibration.go:88-121 | the lowest rank of an earlier non-empty bucket is at least the highest rank of any later one |
| `CalibrationPartition.ReportIgnoresInputOrder` | internal/decision/calibration.go:88-100 | with distinct row ids every permutation of the input gives the same report |
| `BacktestMetrics.ExpectedCalibrationErrorContinuous` | internal/backtest/engine.go:1184-1216 | the binned loop computes the mean absolute bin total, and 0 for unusable inputs |
| `BacktestMetrics.ComputeCalibrationReport` | internal/backtest/engine.go:1157-1182 | over all outcomes: the mean of |predicted - closing|, the mean of its square, and the mean over all samples of the ten absolute bin totals of the clamped miss |
| `BacktestMetrics.ComputeOutcomeCalibrationReport` | internal/backtest/engine.go:765-806 | the same over exactly the graded outcomes, against 1 when the home team won or the total went over and 0 otherwise |
| `BacktestMetrics.NoErrorIffExact` | internal/backtest/engine.go:1157-1182 | such a report shows no mean error if and only if every prediction it measures equals its target |
| `BacktestMetrics.BinRange` | internal/backtest/engine.go:1194-1203 | every prediction falls in exactly one bin, whose range holds its clamped value; 1 falls in the last |
| `BacktestMetrics.ClampLipschitz` | internal/backtest/engine.go:1318-1326 | clamping to [0,1] never moves two numbers further apart |
| `BacktestMetrics.BinnedErrorBounds` | internal/backtest/engine.go:1184-1216 | for all inputs, also out of range, the binned error is at most the mean absolute error and at least the error of the clamped means |
| `BacktestMetrics.MetricsOrdered` | internal/backtest/engine.go:1157-1216 | ECE <= MAE and MAE^2 <= Brier for all inputs, and Brier <= MAE for inputs in [0,1] |
| `VirtualBankroll.ResolveConfig` | internal/backtest/virtual_bankroll.go:24-49 | resolves exactly for a positive start, fractions in [0,1], a non-negative minimum, and a supported sport or both or neither override; with a sport the resolved policy is fixed, without one nothing changes, and every supported sport then has a policy |
| `VirtualBankroll.Bankroll.RecommendStakeForSport` | internal/backtest/virtual_bankroll.go:64-85 | the stake on an edge from the current balance, nothing below the minimum |
| `VirtualBankroll.Bankroll.ApplyCLV` | internal/backtest/virtual_bankroll.go:88-99 | moves the balance by the stake times the price movement, by the whole balance when the stake exceeds it, never below zero |
| `VirtualBankroll.Play` | internal/backtest/engine.go:270-355 | one row: a failing row leaves the balance alone; otherwise the position is home exactly when the prediction is at least the opening, its edge their distance, its prices the row's own for home and their complements for away, its stake the edge's share of the balance under the resolved policy, nothing below the minimum |
| `VirtualBankroll.Replay` | internal/backtest/engine.go:265-425 | fails exactly for no rows, unusable settings or a bad row, said field by field; each outcome follows the model in that sense from the balance the one before left, the balance moves by stake times price movement, and a staked row gains if and only if the closing price moved from the opening towards the prediction |
| `VirtualBankroll.BalanceCompoundsWithin` | internal/backtest/engine.go:270-383 | after i rows the balance is within start * (1-m)^i and start * (1+m)^i, for any m bounding the rows' policies |
| `VirtualBankroll.ReplayIsTrace` | internal/backtest/virtual_bankroll.go:88-99 | neither the cap to the balance nor the clamp to zero ever takes effect: every row is booked at face value |
| `VirtualBankroll.BalanceIsStartPlusCLV` | internal/backtest/virtual_bankroll.go:88-99 | the final balance is the start plus every stake times its price movement, and never negative |
| `VirtualBankroll.ReplaySucceedsIff` | internal/backtest/engine.go:270-355 | past configuration a replay fails exactly on a row with an unsupported sport, a missing timestamp, a price outside [0,1], a failed prediction or a failed store; the sizing step itself never fails |
| `VirtualBankroll.ReplayIsSymmetric` | internal/backtest/engine.go:339-355 | swapping home and away throughout leaves every stake and every balance as it was, and swaps the sides except where the model agrees with the market |
| `Outcomes.BuildPerformanceRow` | internal/server/recommendations_performance.go:153-257 | the ordered overrides equal the closed form, and that form means: the closing value is the closing probability of the market, or of the stored row, less the model's probability of the recommended side; the result compares the side's final score with the other's, or stays what it was; status, settlement time, sources and notes follow from those |
| `Outcomes.SideProbability` | internal/decision/performance.go:112-125 | succeeds exactly for a probability in [0,1] and a side that normalizes to home or away; the two sides share 1 |
| `Outcomes.OutcomeTable.LatestOutcome` | internal/store/recommendation_performance.sql.go:139-155 | the newest row of the snapshot |
| `Outcomes.OutcomeTable.InsertOutcomeIfChanged` | internal/store/recommendation_performance.sql.go:15-50 | appends the row unless an equal row exists anywhere in the table, and refuses a price the table's check refuses |
| `Outcomes.HandlePerformance` | internal/server/recommendations_performance.go:96-121 | reading all latest outcomes before the first insert equals re-evaluating the snapshots one by one; it stops at the first failure, keeping what is written |
| `Outcomes.EvaluateIsIdempotent` | internal/server/recommendations_performance.go:153-257 | evaluating against one's own latest evaluation reproduces it exactly, for every market and every earlier row |
| `Outcomes.UnchangedMarketAppendsOnce` | internal/store/recommendation_performance.sql.go:15-50 | any number of re-evaluations against an unchanged market leaves what the first left: at most one new row |
| `Outcomes.SettledStaysSettled` | internal/server/recommendations_performance.go:199-217 | once the newest row is settled it stays settled over every sequence of markets and failures, and its result changes only to the grade of a later final score |
| `Outcomes.SettledIffGraded` | internal/server/recommendations_performance.go:153-257 | along a snapshot's whole history its newest row is settled if and only if some market graded it, and no settled row is followed by an unsettled one |
| `Outcomes.SettledResultWasGraded` | internal/decision/performance.go:86-110 | a settled result was read off the final score of some market of the history |
| `Outcomes.NewestIsCurrentIff` | internal/store/recommendation_performance.sql.go:15-50 | the newest row shows the current evaluation if and only if that row was not stored before or is already the newest |
| `Outcomes.ReturningPriceIsLost` | internal/store/recommendation_performance.sql.go:15-50 | a concrete history: a closing price that moves away and comes back is not recorded again |
| `Outcomes.ReevaluationSucceedsIff` | internal/server/recommendations_performance.go:153-257 | over any consistent table a re-evaluation succeeds if and only if the side is a team, the home probability is in [0,1], and the closing line, if there is one, has a probability in [0,1] and a valid price |
| `Outcomes.ListingSucceedsIff` | internal/server/recommendations_performance.go:96-121 | the listing succeeds if and only if that holds of every snapshot in it: one unusable snapshot fails it |
| `Outcomes.TotalsCannotBeEvaluated` | internal/decision/performance.go:112-125 | a snapshot with side over or under fails every evaluation, and the listing that contains it |
| `OddsLog.OddsHistory.GetLatestSnapshotHash` | internal/store/odds_history.sql.go:44-56 | returns the hash of some row of the series that no other row was captured after, or none exactly when the series has no row |
| `OddsLog.NewestIsLast` | internal/store/odds_history.sql.go:44-56 | in a log whose series are in time order that row is unique: the one written last |
| `OddsLog.PriceAsOfMeans` | internal/ingestion/oddspoller/dedup.go:3-5 | the price of a series as of a moment is that of its last row captured by then, and absent exactly when there is none |
| `OddsLog.RunPoll` | internal/ingestion/oddspoller/poller.go:119-161 | inserts plus skips equal the snapshots seen, nothing is removed, every row added is one of the poll's quotes with the poll's time and its own hash, the log left is one the lookups allow whatever they return on ties, and a chronological poll leaves exactly the deduplicated log |
| `OddsLog.RunPolls` | internal/ingestion/oddspoller/poller.go:72-167 | from any stored rows, any number of polls counts every snapshot and removes nothing, and whenever stored rows and quotes are in time order it leaves the deduplicated stream on top of what was stored |
| `OddsLog.OrderlyIsChronological` | internal/ingestion/oddspoller/poller.go:85-161 | strictly increasing capture times and one quote per series per poll put every series in time order |
| `OddsLog.LaterPollsContinue` | internal/ingestion/oddspoller/poller.go:85-161 | orderly polls later than everything stored continue a log in time order |
| `OddsLog.DedupKeepsPrices` | internal/ingestion/oddspoller/dedup.go:3-5 | at every moment every series has the same price in the deduplicated log as in the full one |
| `OddsLog.DedupIsDestutter` | internal/ingestion/oddspoller/dedup.go:3-5 | series by series the log is the full history with runs of equal prices collapsed to their first row |
| `OddsLog.PolledLogIsFaithful` | internal/ingestion/oddspoller/poller.go:119-161 | both together for the log the poller builds: same price at every moment, and consecutive rows of a series differ in price |
| `OddsLog.OnePriceAfterPollIff` | internal/store/odds_history.sql.go:44-56 | after a poll later than everything stored, the newest-first lookup of a series has one price if and only if the last stored row followed by the poll's quotes for the series changes price at most once, whatever the lookups inside the poll returned |
| `OddsLog.TiedQuotesAreAmbiguous` | internal/store/odds_history.sql.go:44-56 | the smallest poll outside that condition: two prices for a new series give two admissible answers |
| `OddsLog.DedupedShowsLastQuote` | internal/store/odds_history.sql.go:27-35 | the price in a newest row of the deduplicated log is the last one quoted for its own series |
| `OddsLog.GameWideLookupIff` | internal/store/odds_history.sql.go:27-35 | for every chronological hashed log the game-wide lookup on the deduplicated log shows a price the full log may show if and only if some newest row of the full log carries the last price quoted for the series found; so it is right whenever that series is among the newest quotes |
| `OddsLog.CrossBookNewestDiffers` | internal/store/odds_history.sql.go:27-35 | concrete polls outside that condition: a book that repeats its price loses its place, and the lookup shows another book's price |
| `RollingDrift.BuildRollingWindows` | internal/decision/calibration_alerts_rolling.go:49-77 | fails exactly on a missing anchor or counts out of range; otherwise builds the specified windows |
| `RollingDrift.WindowsAreAdjacentBlocks` | internal/decision/calibration_alerts_rolling.go:61-75 | baseline and current are adjacent disjoint blocks of the same number of whole days, the last ends on the anchor's day, and each window is the previous one moved by one day |
| `RollingDrift.ResolveThresholds` | internal/decision/calibration_alerts.go:247-287 | with zero meaning the default, resolves exactly when 0 < warn <= critical <= 1 for both measures, to those values |
| `RollingDrift.ResolveGuardrails` | internal/decision/calibration_alerts.go:224-245 | resolves exactly the non-negative settings, zero meaning 100 overall and 20 per bucket |
| `RollingDrift.EvaluateCalibrationDrift` | internal/decision/calibration_alerts.go:88-222 | fails exactly for unresolvable settings or reports with different buckets; deltas are current less baseline, overall and bucket by bucket; too few settled rows in a report or a bucket is a level of its own, and otherwise either measure alone reaching its critical or warning threshold raises the level; a reason is given exactly when it applies |
| `RollingDrift.ReasonsMatchLevel` | internal/decision/calibration_alerts.go:161-222 | reasons are never empty and say "within thresholds" exactly at level ok |
| `RollingDrift.SwapKeepsLevel` | internal/decision/calibration_alerts.go:152-222 | exchanging current and baseline never changes the level |
| `RollingDrift.LevelFollowsDistance` | internal/decision/calibration_alerts.go:187-212 | with enough samples equal reports are ok, and moving either measure further from the baseline never lowers the level |
| `RollingDrift.SecondSortIsIdentity` | internal/decision/calibration_alerts_rolling.go:84-99 | for any steps the second stable sort moves nothing |
| `RollingDrift.SortedStepsAscend` | internal/decision/calibration_alerts_rolling.go:84-99 | the sorted steps ascend by the current block's end, its start, the baseline's end and its start |
| `RollingDrift.EvaluateRollingDrift` | internal/decision/calibration_alerts_rolling.go:79-128 | result i is the drift of step i of the sorted steps; it fails exactly for no steps or a step that fails |
| `RollingDrift.PairRuns` | internal/server/recommendations_calibration_alerts_rolling.go:198-286 | for any steps, persisted run i holds the sorted step i together with its own drift |
| `RollingDrift.HandleRollingAlerts` | internal/server/recommendations_calibration_alerts_rolling.go:163-283 | fails exactly for input out of range or unresolvable settings; run i covers the whole days that end a given number of days before the anchor's day and the same number before those, reports the rows loaded for exactly these two blocks, and holds the drift from the one report to the other |

## Left out

- Floating point: rounding error, NaN and infinities; `real` arithmetic is exact, and `math.Round` is modelled exactly as half away from zero.
- Integer widths: cents, odds and counters are unbounded.
- HTTP parsing and rendering, templates, logging, configuration, job scheduling, the connection pool, and reads that fail: an operation that stops early is a crash step.
- A commit whose acknowledgement is lost: covered by a crash right after the commit step.
- Predictors and feature builders: the prediction of a replay row, failed or not, is a parameter, and so are whether it could be stored, the rows a request loads, the scores a job fetches and the book's answer.
- Odds, scores, stats and injury clients, importers, and the JSON parsing of closing payloads: the parsed score is a parameter.
- SHA-256: the digest of a series and price is a function parameter, assumed injective where a result needs it.
- Row ids, created_at of outcome rows and ties between equal created_at: rows are in insertion order and a bet's id is its position.
- `CLV` columns of bets, error messages, metadata and notes of bets and ledger entries, and closing-line capture of settlements.
- The ordering of stake reasons: the model keeps the set of reasons. The intermediate sizing fields of a recommendation are not carried through the pipeline.
- The printed correlation group key: the model keys exposure by the (sport, game) pair.
- `strings.ToLower` beyond ASCII letters.
- The auto-placement job's loop over snapshots and its counters, and the settlement job's grouping by sport and its filters on source and external id: bets are settled in row order, and scores are looked up by game.
- The summary averages of the performance listing and the CLV report of the backtest: means over a list.
- `RunOutcomeBacktest`, walk-forward folds and per-sport calibration artifacts of the backtest engine.
- Request and run-group hashes and the alert-run history listing.
- A bound on the total stake of a recommendation list and exactly-once placement per snapshot across the manual and automatic routes: the code promises neither.
- Upserts of games by the poller and the rollback of a failing poll: a poll either runs to its end or leaves no trace.
- HandleBetsSettle: assumes the stored rows are sound, which every run keeps (`RunKeepsInv`).
- HandleBetsVoid: assumes the stored rows are sound, which every run keeps (`RunKeepsInv`).
- HandlePerformance: assumes the listed snapshots are distinct, as rows of one query over the snapshots table are.
- DedupKeepsPrices: is about one series; queries across series are preserved only under the condition of `GameWideLookupIff`.
