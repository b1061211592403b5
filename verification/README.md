# Andy, verified

Andy is a chat assistant for personal finance. One inbound text is claimed, given to a language model that
buffers write commands, judged by a safety gate, committed in one database transaction (or parked until the
user answers yes), and answered through an outbound queue. Many serverless workers do this at once and any of
them may crash; cron jobs reap, reconcile, remind and redeliver beside them.

This project models that path and proves what it promises. The model has three layers.

* **Functions.** `Ledger`, `Memory`, `Inbox`, `Confirmations`, `Outbox` and `Flush` say what each statement and
  the whole flush do to the tables, failing branches included. `Tools`, `Policy` and `Service` say which writes
  the tools can buffer, how the gate judges them, and which batch each of the five service paths flushes.
* **Methods.** `Database` holds the tables as fields and updates them statement by statement, with a flush that
  loops over the intents and rolls back; `Inbound` is the service procedure and the delivery loop on top of it.
  Each method is proved equal to its function, and what `Inbound.Handle` does to the database is proved to be a
  run of the state machine below (`Stepping`).
* **Runs.** `Protocol` is the state machine: every statement outside a flush is one step, a flush is one step,
  and any number of workers, crashes, stale takeovers, cron jobs and clock ticks interleave freely. The model's
  tool calls, replies, keyword tables and send results are chosen by the environment. `Effects` says, table by
  table, what one event of a run does; on it `Safety`, `ExactlyOnce`, `Gate`, `AtMostOnce`, `LiveYes`, `Replies`
  and `RunLaws` prove their results for every event sequence from an empty database. `Witness` holds the runs
  and the inputs that show where less holds.

The remaining modules are smaller algorithms: money text, LIKE patterns, the calendar and recurring reminders,
the rate limiter, budget reactions.

## Main results

1. In every reachable state each goal's balance is the sum of its transactions, stored rows are lawfully
   categorised, the audit trail replays to exactly the live transactions, and no user holds a fact twice
   (`Safety.EveryReachableStateIsSafe`). So no flush trips the balance CHECK and the nightly repair is idle.
2. Commits of a message equal its reaped completed rows plus one if it is completed now; two commits of one
   message are more than three days apart; nothing that is not completed stays stuck (`ExactlyOnce`).
3. A row leaves the ledger only in a flush that consumes a confirmation open at that moment; any other flush has
   at most five ledger writes whose counted amounts stay below the threshold (`Gate`). Behind every consumed
   confirmation stands a bare yes that the same worker, still on the same message, read while that question was
   the sender's newest live one (`LiveYes`).
4. A parked batch is applied at most once, never once cancelled, consumed or reaped, and what is applied is what
   was parked (`AtMostOnce`); replaying it does to the ledger what flushing it at once would do (`Park`).
5. The tools' backward scan and the flush's run-time memory agree on every prefix of every batch the tools can
   build, so a same-turn correction always hits its own turn's row (`SameTurn`).
6. Reply rows and committed messages name the same keys, and the reply queue of every run obeys the queue's own
   laws (`Replies`, `Outbox`).
7. Every CHECK, length limit and unique index of the modelled tables holds in every reachable state. No step of a
   worker touches another user's part of the ledger, the conversation or the parked batches; a stored reply is
   touched exactly when the step works on the key it carries, whoever owns it (`RunLaws`). Undoing, editing back
   and deleting again restore what was there (`Undo`).

## Where the code does less than its comments say

Each comes with the exact condition and with an input or a run that shows it.

* The amount gate does not count goal edits or recurring items, although it is described as covering any single
  create or edit (`Policy.LargeAmountIsHeldIff`). Raising the rent to ₱50,000, the whole default threshold, is
  accepted by the tools and committed without a question (`Witness.ALargeRentIsNotHeld`).
* A confirmation's expiry does not bound when the batch is applied, only when the yes is read. `LiveYes.OnlyALiveYesConfirms`
  says when an application is in time: if and only if the clock advanced, between the reading of the yes and the
  flush, by less than what the question had left. `Witness.ALateYesIsApplied` is a run that applies one late.
* A recurring edit with a day but no cadence passes the tools unchecked; an out-of-range day then aborts the whole
  flush (`Bills.AcceptedEditFailsIff`, and `Bills.TheFortiethLosesTheLunch` for one such message).
* Reply keys of different messages collide beyond 186 characters or by trailing blanks (`Replies.KeysCollideIff`,
  `Replies.LongIdsCollide`), and a colliding key crosses users (`RunLaws.StepsTouchRepliesIff`):
  `Witness.CollidingKeyCrossesUsers` is a run of the system in which two users' messages are committed and the only
  reply row is the first user's, with the second user's words and phone in it.
* A message whose completed row was reaped can commit again, but its second answer is delivered only if the first was
  not: a commit's reply can be claimed if and only if no reply under its key was sent before
  (`Replies.CommitIsDeliverableIff`). `Witness.ASecondAnswerIsNeverSent` is a run in which the second answer only
  rewords the sent row.
* The attempt budget does not bound claims whose worker dies before settling. A reply is claimed more often than the
  budget if and only if a claim once took it, its attempts used up, from a worker that never settled it
  (`Outbox.AttemptBudget`, `Replies.AttemptLawApplies`); `Witness.ADeadReplyIsTakenForEver` is a run of the
  system with `n` such claims, for every `n`.
* The predicted budget spend misses money put into goals (`Budget.PredictionIsExactIff`, `Budget.ContributionIsMissed`).
* A contribution to another user's goal is accepted by the SQL and drifts that goal's balance; only the snapshot
  the tools draw from rules it out (`Goals.ContributionIsConservedIffOwned`, `Goals.ForeignContributionDrifts`).
* A rate-limit window longer than 24 hours can be reset by the daily reap (`RateLimit.LongWindowsCanBeReset`); up to
  24 hours it cannot (`RateLimit.AllowsAreCapped`).

## Model

| member | source | states |
|---|---|---|
| `Ledger.ApplyAllConcat` | crates/db/src/writes.rs:105-111 | flushing two batches one after the other in one transaction is flushing their concatenation, error included |
| `Ledger.FindLabel` | crates/db/src/writes.rs:915-931 | the row found has the label whatever its case; none found means no row has it |
| `Ledger.LikeLabels` | crates/db/src/writes.rs:932-949 | every row listed belongs to the user and matches the escaped pattern |
| `Evolution.ApplyEvolves` | crates/db/src/writes.rs:138-534 | no write reuses an id, changes a row's owner, kind, date or source, hands a goal over, or shortens the event log |
| `Evolution.BatchEvolves` | crates/db/src/writes.rs:77-132 | the same for a whole flush |
| `Evolution.BatchKeepsRows` | crates/db/src/writes.rs:138-534 | a batch without deletions removes no row of any table |
| `Goals.ContributionIsConservedIffOwned` | crates/db/src/writes.rs:190-246 | a committed contribution conserves the balances if and only if the goal is the contributor's own |
| `Goals.DeleteKeepsSound` | crates/db/src/writes.rs:536-604 | from conserved balances a deletion never fails and keeps them; an owned row disappears and its goal gets exactly its amount back, anything else changes nothing |
| `Goals.EditFailsExactlyWhen` | crates/db/src/writes.rs:606-687 | on conserved balances an edit of an owned row fails exactly when the amount is outside the column's range or the balance would leave the bigint; the non-negative CHECK never fires |
| `Goals.EditKeepsSound` | crates/db/src/writes.rs:632-687 | a committed edit keeps conservation: the row's goal moves by exactly the change of its amount and no other balance moves |
| `Goals.RemoveGoalKeepsSound` | crates/db/src/writes.rs:368-385 | deleting a goal cuts its links and leaves every other balance conserved |
| `Goals.InsertGoalKeepsSound` | crates/db/src/writes.rs:291-310 | a new goal starts at zero under a fresh id no transaction is linked to, and conservation holds |
| `Goals.ApplyKeepsSound` | crates/db/src/writes.rs:138-534 | every write keeps conservation, given that contributions name the user's own goals |
| `Goals.BatchKeepsSound` | crates/db/src/writes.rs:77-132 | so does every batch |
| `Goals.ReconcileFailsExactlyWhen` | crates/db/src/ops.rs:376-398 | the repair fails exactly when some goal's true sum does not fit its column |
| `Goals.ReconcileIsIdentityIffConserved` | crates/db/src/ops.rs:376-398 | it changes nothing and reports zero exactly when nothing drifted |
| `Goals.ReconcileRestores` | crates/db/src/ops.rs:376-398 | from any drift it restores the user's goals, touches nobody else's, and a second run is idle |
| `Goals.ForeignContributionDrifts` | crates/db/src/writes.rs:190-226 | a concrete contribution to another user's goal that commits and breaks conservation |
| `Audit.ApplyIsAudited` | crates/db/src/writes.rs:138-534 | after any write the replayed events are the live transactions, and each event's before image is what the replay held |
| `Audit.BatchIsAudited` | crates/db/src/writes.rs:705-732 | the same for every batch, with no condition on the writes |
| `Audit.EditIsAudited` | crates/db/src/writes.rs:606-703 | the event holds the row's amount, category and goal before and after and the moved balance, an edit that sets nothing logs nothing, and the trail stays exact |
| `Audit.DeleteIsAudited` | crates/db/src/writes.rs:536-604 | the event holds the whole row that disappears, its goal and the goal's balance after, and the trail stays exact |
| `Undo.UndoRestores` | crates/ai/src/finance_tools.rs:1075-1096 | an entry or contribution undone in the same turn restores every row and balance, and leaves two events |
| `Undo.EditBackRestores` | crates/db/src/writes.rs:606-703 | changing an amount and changing it back never fails and restores the row and its goal |
| `Undo.GoalRoundTrip` | crates/db/src/writes.rs:291-385 | a goal created and deleted leaves no trace |
| `Undo.BillRoundTrip` | crates/db/src/writes.rs:421-462 | a new recurring item removed by its label leaves no trace |
| `Constraints.BatchKeepsConstraints` | packages/db/migrations/0007_schema_hardening_checks.sql:4-10 | any batch of any writes keeps every CHECK and length limit of the ledger's tables, memories included, and the unique goal names and labels |
| `Constraints.UpsertKeepsBills` | packages/db/migrations/0009_schema_audit_0009.sql:55-56 | the upsert keeps labels unique whatever their case, and every stored item within its CHECKs |
| `Isolation.ApplyTouchesOwn` | crates/db/src/writes.rs:138-534 | on a sound ledger one write leaves every other user's transactions, goals, budgets, recurring items, memories, transfers and events as they were, the deletion cascade included |
| `Isolation.BatchTouchesOwn` | crates/db/src/writes.rs:77-132 | so does a batch of one user's writes |
| `ReadBack.LoggedIsLast` | crates/db/src/queries.rs:150-169 | an entry just logged is what the next snapshot shows as the last one |
| `ReadBack.CreatedIsListed` | crates/db/src/queries.rs:451-475 | a new goal joins the list behind every goal created before its flush, under its clipped name; a name the user already has adds nothing |
| `ReadBack.AddedIsListed` | crates/db/src/ops.rs:257-276 | a new item joins the list behind every item created before its flush; a known label updates in place and keeps its last reminder |
| `Memory.SaveThenForget` | crates/db/src/writes.rs:734-860 | a new fact saved and forgotten by the same words restores the store |
| `Memory.SaveTouchesOwn` | crates/db/src/writes.rs:734-792 | saving leaves other users' facts alone |
| `Memory.NormalizersAgree` | crates/shared/src/memory.rs:12-29 | the Rust normaliser and the SQL expression give the same text, and the compact form is the letters and digits in lower case |
| `Memory.SaveMeaning` | crates/db/src/writes.rs:734-792 | a save stores the fact if the user lacks it, and otherwise only strengthens the kind of the one row holding it |
| `Memory.ForgetMeaning` | crates/db/src/writes.rs:794-860 | forgetting removes exactly one row when some row's fact contains the query's, an equal fact first, and otherwise nothing |
| `Memory.StoreInvariant` | crates/db/src/writes.rs:734-860 | after any run of saves and forgets a user's facts are pairwise distinct |
| `Memory.StoredRankIsStrongest` | crates/shared/src/memory.rs:31-42 | a stored row comes from one save, and its rank is the minimum over all saves of that fact since |
| `Like.EscapeLikeIsPerCharacter` | crates/db/src/sql.rs:17-22 | the three replacements in sequence are one escape per character |
| `Like.EscapedPatternIsSubstring` | crates/db/src/queries.rs:410-425 | a LIKE matcher accepts the escaped, percent-wrapped query exactly when it is a substring |
| `Like.UnescapedPatternIsNotSubstring` | crates/db/src/sql.rs:17-22 | without the escape the law fails on a concrete query |
| `Bills.RecurringTargetMeaning` | crates/db/src/writes.rs:906-950 | an equal label wins, else the only label containing the query, else nothing is hit |
| `Bills.LikeLabelIsContainment` | crates/db/src/writes.rs:932-945 | the lowered escaped pattern matches exactly the labels containing the query in any case |
| `Bills.AcceptedEditFailsIff` | crates/ai/src/finance_tools.rs:1287-1319 | an edit the tools accepted violates the table's CHECKs if and only if it carries a day outside its column's range |
| `Bills.AcceptedItemFailsIff` | crates/ai/src/finance_tools.rs:1256-1285 | an added item is refused by the table if and only if one of its days is out of range |
| `Bills.TheToolsAcceptTheFortieth` | crates/ai/src/finance_tools.rs:1296-1317 | moving "Rent" to the 40th with no cadence is accepted, whatever the keyword tables |
| `Bills.TheFortiethLosesTheLunch` | crates/db/src/writes.rs:105-113 | flushed behind a good expense it fails the whole flush and stores neither, while the expense alone commits |
| `Bills.BadDayLosesTheWholeBatch` | crates/db/src/writes.rs:105-113 | wherever a write fails in a batch, nothing of the batch is applied |
| `Tools.ExpenseNeverIncome` | crates/shared/src/expense_category.rs:4-28 | whatever the keyword table and the note say, an expense is never categorised as income |
| `Tools.FindLastBuffered` | crates/ai/src/finance_tools.rs:1355-1393 | the loop over the reversed writes computes the backward scan |
| `Tools.FoundIsListed` | crates/ai/src/finance_tools.rs:1558-1586 | a goal found by name is one of the snapshot's goals |
| `Tools.AmountsAreLegal` | crates/ai/src/finance_tools.rs:1414-1416 | an amount a tool accepts lies between one centavo and the per-entry cap |
| `Tools.IntentIsOk` | crates/ai/src/finance_tools.rs:956-1096 | what one call buffers has the right kind and category, a goal of the snapshot, and a correction aimed by the scan |
| `Tools.BufferIsToolBuilt` | crates/ai/src/finance_tools.rs:387-443 | so does every write of every batch any sequence of calls can build |
| `Tools.WriteBuffer.Execute` | crates/ai/src/finance_tools.rs:406-430 | a call pushes the one write it stands for, or nothing when it is an error |
| `Tools.WriteBuffer.ExecuteAll` | crates/ai/src/finance_tools.rs:387-443 | a turn's calls leave exactly the specified buffer |
| `SameTurn.ScanMatchesRun` | crates/ai/src/finance_tools.rs:1355-1393 | after every prefix the scan finds an insert exactly when the flush remembers one, it is the same insert, its row is still there and is as described |
| `SameTurn.CorrectionsHitTheirTarget` | crates/db/src/writes.rs:247-290 | a same-turn edit or delete changes exactly the row its turn inserted; a historical one never touches a row of the turn |
| `SameTurn.ToolBuiltContributesToOwnGoals` | crates/ai/src/finance_tools.rs:1188-1203 | contributions built from a snapshot the ledger honours name only the user's own goals |
| `SameTurn.SnapshotFitsIsStable` | crates/api/src/service.rs:101-145 | a snapshot the ledger honours is honoured after any number of writes, so however late the batch is flushed |
| `Categories.PrefixCategorised` | crates/ai/src/finance_tools.rs:1040-1058 | a tool-built batch keeps Income the category of income rows only, and linked rows Savings/Goals expenses |
| `Categories.ToolBatchKeepsGood` | crates/db/src/writes.rs:77-132 | a tool-built batch takes a good ledger to a good ledger |
| `Categories.UnguardedEditBreaksTheLaw` | crates/db/src/writes.rs:650-674 | the flush alone would let an edit recategorise income: the tools' guard is needed |
| `Park.PartitionConserves` | crates/api/src/service.rs:175-176 | parked writes and turns together are the batch, and each is on its side |
| `Park.BookkeepingIsInvisible` | crates/db/src/writes.rs:396-424 | turns, replies and consumes never influence what a batch does to the ledger |
| `Park.ForgetCommutes` | crates/db/src/writes.rs:138-534 | the source message is only a label: running a batch and blanking sources is running it on blanked tables |
| `Park.ParkReplayEquivalence` | crates/api/src/service.rs:265-284 | parking and later replaying gives the tables and events of flushing at once, up to the credited message, and fails alike |
| `Park.ParkingFlushKeepsLedger` | crates/api/src/service.rs:188-208 | the flush that asks the question leaves the ledger alone |
| `Policy.Threshold` | crates/ai/src/policy.rs:36-44 | the effective threshold is always positive |
| `Policy.SafeIff` | crates/ai/src/policy.rs:237-304 | the exact condition for committing at once; the largest-amount check is implied by the total |
| `Policy.RejectIff` | crates/ai/src/policy.rs:252-261 | rejection happens exactly for a one-off memory |
| `Policy.VerdictIsMonotone` | crates/ai/src/policy.rs:237-304 | adding writes anywhere never makes the verdict milder |
| `Policy.VerdictIgnoresOrder` | crates/ai/src/policy.rs:237-304 | the verdict and its reason do not depend on the order of the writes |
| `Policy.VerdictIgnoresBookkeeping` | crates/ai/src/policy.rs:119-126 | bookkeeping never influences the verdict |
| `Policy.TotalIsCappedSum` | crates/ai/src/policy.rs:164-192 | the saturating fold is the plain sum of absolute amounts, capped once |
| `Policy.MaxIsLargest` | crates/ai/src/policy.rs:131-157 | the maximum is attained and bounds every counted amount |
| `Policy.LargeAmountIsHeldIff` | crates/ai/src/policy.rs:12-18 | a single large create or edit is held exactly when it is not a goal edit or a recurring item |
| `Witness.RaiseIsBuffered` | crates/ai/src/finance_tools.rs:1287-1319 | changing the item "Rent" to "₱50,000.00" is accepted for any user with that one item, and buffers exactly that edit |
| `Witness.ALargeRentIsNotHeld` | crates/ai/src/policy.rs:131-157 | its amount is the default threshold, the verdict on its turn is safe, and the plan is to commit it |
| `Service.RewriteAssistantTurns` | crates/api/src/service.rs:299-310 | in place, every assistant turn becomes what was sent and nothing else changes |
| `Service.PartitionTurns` | crates/api/src/service.rs:175-176 | the partition loop computes the stable split |
| `Service.PlanMeaning` | crates/api/src/service.rs:157-236 | parking stores exactly the tools' writes; a batch flushed without a question is that buffer judged safe, or changes no ledger row |
| `Service.ConfirmBatchEffects` | crates/api/src/service.rs:265-284 | a confirming batch consumes its one confirmation, runs exactly the stored writes and queues one reply |
| `Flush.PerformAllSplits` | crates/db/src/writes.rs:105-131 | the flush is the ledger's, the confirmations' and the queue's run side by side, stopping when one of them stops |
| `Flush.FlushOutcomes` | crates/db/src/writes.rs:77-132 | when a flush commits, and that superseded and failed flushes leave the database exactly as it was |
| `Inbox.ClaimableIff` | crates/db/src/queries.rs:71-100 | a claim succeeds exactly when the message is not completed and has no claim younger than two minutes |
| `Confirmations.LatestBelow` | crates/db/src/confirmations.rs:65-97 | the newest actionable question is found, and none only if there is none |
| `Confirmations.StatementsKeepValid` | crates/db/src/confirmations.rs:31-171 | every statement keeps at most one row per source message |
| `Applications.MovesAccount` | crates/db/src/confirmations.rs:122-171 | every statement keeps applications equal to consumed rows, stored or reaped |
| `Applications.DeadStaysDead` | crates/db/src/confirmations.rs:122-171 | a consumed, cancelled or reaped batch can never be applied again |
| `Applications.RequestsNeverChange` | crates/db/src/confirmations.rs:31-171 | nothing but the status of a stored request ever changes |
| `Outbox.FindKey` | crates/db/src/ops.rs:62-98 | the row found under a key carries it; none found means no row does |
| `Outbox.DueTargets` | crates/db/src/ops.rs:100-124 | at most fifty claimable rows are taken, and no older claimable row is passed over |
| `Outbox.RowSteps` | crates/db/src/ops.rs:64-181 | the transition system of one row under every statement |
| `Outbox.SentIsNeverLeft` | crates/db/src/ops.rs:126-142 | a delivered row stays delivered and is never claimed again |
| `Outbox.LeaseIsExclusive` | crates/db/src/ops.rs:72-90 | two claims with nothing settling the row between them are at least fifteen minutes apart |
| `Outbox.LeaseRunsOut` | crates/db/src/ops.rs:72-90 | a row being sent is claimable again exactly from the end of its lease |
| `Outbox.AttemptBudget` | crates/db/src/ops.rs:100-181 | without re-enqueues the counter is the number of claims, a waiting row has attempts left, claims beyond the budget are reclaims, and a row is claimed more often than its budget (a claim takes the counter above it) if and only if a claim reclaimed it with its attempts used up |
| `Outbox.RunFits` | packages/db/migrations/0013_outbound_messages.sql:16-17 | every stored reply is within the table's length limits |
| `Outbox.BackoffIsBounded` | crates/db/src/ops.rs:168-172 | the wait is between 30 seconds and an hour and grows with the attempts |
| `Outbox.FailureComesBackAfterBackoff` | crates/db/src/ops.rs:150-181 | a failed row is claimable again exactly if the error is retryable, attempts remain and the wait is over |
| `Outbox.StepKeepsKeysDistinct` | packages/db/migrations/0013_outbound_messages.sql:20-20 | no statement gives two rows one key |
| `Safety.EveryReachableStateIsSafe` | crates/api/src/service.rs:62-236 | in every run: balances conserved, categories lawful, trail exact, facts distinct, every waiting batch still admissible |
| `Safety.BalancesNeverNeedRepair` | crates/api/src/cron.rs:139-142 | in every run the nightly repair is idle and deletions never fail |
| `Safety.BatchKeepsLedger` | crates/db/src/writes.rs:77-132 | a flush of admissible writes with bookkeeping around them keeps the ledger |
| `Safety.LoadLastFits` | crates/db/src/queries.rs:150-169 | the last row as read is truly described: no income row is shown under another category |
| `RunLaws.ConstraintsAlwaysHold` | packages/db/migrations/0018_length_constraints.sql:1-27 | in every run every CHECK, length limit and unique index of the ledger, the parked batches and the reply queue holds |
| `RunLaws.StepsTouchOnlyTheirUser` | crates/api/src/service.rs:62-287 | in every run a step for one user leaves every other user's part of the ledger, the conversation and the parked batches as they were |
| `RunLaws.StepsTouchRepliesIff` | crates/db/src/writes.rs:879-895 | in every run a step touches a stored reply, whoever owns it, if and only if it commits under the key the row carries or delivers that key while it can be claimed |
| `Witness.CollidingKeysCross` | crates/db/src/writes.rs:862-904 | for any two messages with one key, whoever sends them, a run commits both and leaves one reply row: the first user's, with the second one's words and phone |
| `Witness.CollidingKeyCrossesUsers` | crates/db/src/writes.rs:879-895 | the same for two concrete messages of users 1 and 2 with ids of 187 characters: user 1's row ends up saying "yo" to user 2's phone |
| `ExactlyOnce.CommitsAreAccounted` | crates/db/src/writes.rs:110-131 | in every run commits equal reaped completed rows plus one if completed now |
| `ExactlyOnce.CommitsAreDaysApart` | crates/db/src/ops.rs:334-354 | two commits of one message are more than three days apart |
| `ExactlyOnce.AtMostOnceUntilReaped` | crates/db/src/queries.rs:71-100 | until a completed row is reaped a message commits at most once, exactly when it is completed |
| `ExactlyOnce.ClaimSucceedsIff` | crates/db/src/queries.rs:71-100 | which arriving worker gets a message |
| `ExactlyOnce.NothingIsStuck` | crates/db/src/queries.rs:76-86 | after any run a message that is not completed can be claimed two minutes later |
| `Gate.RowsLeaveOnlyByConsent` | crates/api/src/service.rs:158-284 | in every run a row disappears only in a flush consuming a confirmation open at that moment |
| `Gate.UnconfirmedFlushIsSmall` | crates/ai/src/policy.rs:263-301 | in every run a flush without a consume removes nothing, has at most five ledger writes and stays below the threshold |
| `Effects.NextMoves` | crates/api/src/service.rs:62-287 | from every reachable state an event moves each table only as listed: a commit is the flush of the batch its worker held, and but for a reminder's date nothing else touches the ledger |
| `Effects.ShapedEffects` | crates/api/src/service.rs:242-284 | a batch of any path consumes at most its one confirmation and queues exactly its reply |
| `Gate.FlushIgnoresTheExpiry` | crates/db/src/confirmations.rs:122-142 | whether a confirming flush commits does not depend on the time it runs |
| `LiveYes.OnlyALiveYesConfirms` | crates/api/src/service.rs:90-99 | in every run, what applies a parked batch is a worker that had read, still on the same message, a bare yes to that very question while it was live; the application is in time iff the clock has since advanced by less than what the question had left |
| `LiveYes.RowsLeaveOnlyByALiveYes` | crates/api/src/service.rs:240-284 | in every run a row leaves the ledger only behind such a yes |
| `Witness.LateYesCommits` | crates/db/src/confirmations.rs:65-142 | for any two such messages and any delay, a run that parks a batch, has the yes read before the expiry and commits after it |
| `Witness.ALateYesIsApplied` | crates/api/src/service.rs:240-284 | the same for the concrete messages "drop it" and "yes" |
| `Gate.ExpiryHidesTheQuestion` | crates/db/src/confirmations.rs:65-142 | in any book an open question is offered exactly while unexpired and not hidden by a newer live one, and can be consumed regardless |
| `AtMostOnce.ApplicationsAreAccounted` | crates/api/src/service.rs:253-284 | in every run each parked batch is applied at most once, and applications per source are reaped consumed rows plus a stored one |
| `AtMostOnce.AppliedAtMostOnce` | packages/db/migrations/0020_pending_confirmation_unique_source.sql:16-18 | double yeses and retries included, per source at most one application more than reaped rows |
| `AtMostOnce.NeverAppliedOnceDead` | crates/db/src/confirmations.rs:144-171 | after a no, a first yes or a reap nothing in any later run applies the batch |
| `AtMostOnce.WhatIsAppliedWasParked` | crates/api/src/service.rs:265-284 | a yes applies exactly the writes stored under the confirmation it consumes |
| `Replies.RowsMatchCommits` | crates/db/src/writes.rs:862-904 | in every run the stored reply keys are the keys of the committed messages |
| `Replies.ReplyExistsIffCommitted` | crates/api/src/service.rs:153-233 | for legal ids a reply row exists exactly when the message committed |
| `Replies.KeyForm` | crates/db/src/ops.rs:68-71 | what normalisation makes of a message's key |
| `Replies.KeysCollideIff` | crates/db/src/writes.rs:870-874 | two messages share a key exactly when their ids agree up to trailing blanks and 186 characters |
| `Replies.LongIdsCollide` | crates/db/src/writes.rs:870-874 | two different longer ids that share a key |
| `Replies.CommitIsDeliverableIff` | crates/db/src/writes.rs:879-895 | in every run, right after a commit its reply can be claimed if and only if no reply under its key was sent before |
| `Witness.ASecondAnswerIsNeverSent` | crates/db/src/ops.rs:334-354 | for any message without calls and any two answers, a run delivers the first, reaps the marker, commits the message again and leaves the second answer in the sent row |
| `Replies.QueueLawsApply` | crates/api/src/service.rs:330-349 | the reply queue of every run is a timely run of the queue, so its laws hold there |
| `Replies.AttemptLawApplies` | crates/db/src/ops.rs:64-124 | in every run a reply nothing re-enqueued is claimed more often than its budget iff a claim once took it, its attempts used up, from a dead worker |
| `Witness.ADeadReplyIsTakenForEver` | crates/api/src/cron.rs:58-64 | for every n a run of the system with no re-enqueue in which the daily job takes one reply n times |
| `Database.Database.FlushWrites` | crates/db/src/writes.rs:77-132 | the loop with rollback computes the specified database and outcome |
| `Database.Database.ApplyWriteIntent` | crates/db/src/writes.rs:138-534 | one intent changes the tables and the flush's memory as specified |
| `Database.Database.DeleteTransaction` | crates/db/src/writes.rs:536-604 | select, goal update, delete and event together are the specified deletion |
| `Database.Database.EditTransaction` | crates/db/src/writes.rs:606-703 | select, goal update, row update and event together are the specified edit |
| `Database.Database.ContributeToGoal` | crates/db/src/writes.rs:190-246 | insert, goal update and event together are the specified contribution |
| `Database.Database.DeleteGoalRow` | crates/db/src/writes.rs:368-385 | the two statements and the cascade together are the specified removal |
| `Database.Database.RememberFact` | crates/db/src/writes.rs:734-792 | the statement sequence is the specified save |
| `Database.Database.ForgetFact` | crates/db/src/writes.rs:794-860 | the statement sequence is the specified forget |
| `Database.Database.SaveReply` | crates/db/src/writes.rs:862-904 | the upsert is the specified enqueue |
| `Database.Database.ClaimSlot` | crates/db/src/queries.rs:71-100 | the upsert is the specified claim and reports it truly |
| `Database.Database.ReconcileGoalBalances` | crates/db/src/ops.rs:376-398 | the update is the specified repair and counts the repaired goals |
| `Database.Database.ClaimDueReplies` | crates/db/src/ops.rs:100-124 | claiming row after row is the specified claim of the oldest due rows |
| `Database.Database.MarkReplyFailed` | crates/db/src/ops.rs:150-181 | backoff or dead letter, exactly as specified, and only for a row being sent |
| `Inbound.Handle` | crates/api/src/service.rs:64-237 | the procedure, on any of its five paths, does what an undisturbed worker of the protocol does |
| `Inbound.DriveIsAlone` | crates/api/src/service.rs:64-237 | an undisturbed worker's steps add up to claim, route, and then the turn or the answered question, path by path |
| `Stepping.HandlingIsARun` | crates/api/src/service.rs:64-237 | from every reachable state that is a run of the protocol: an arrival, the worker's steps, a delivery |
| `Inbound.ResolvePending` | crates/api/src/service.rs:240-287 | an answer is used up exactly when a live question pends, and then cancels or confirms it as the protocol does |
| `Inbound.CommitAndReply` | crates/api/src/service.rs:333-349 | flush, and deliver only if it committed |
| `Inbound.DeliverDue` | crates/api/src/outbound.rs:198-216 | the loop settles every claimed row once and its two counters add up to them |
| `Inbound.DailyHygiene` | crates/api/src/cron.rs:131-177 | the job reaps, repairs and reaps in order, a failing repair skipped |
| `Inbound.HygieneIsThreeEvents` | crates/api/src/cron.rs:131-177 | on the tables that is three events of the protocol |
| `Inbound.SendReminders` | crates/api/src/cron.rs:256-279 | every due item is claimed and counted once and nothing else changes |
| `Inbound.SecondRunIsSilent` | crates/db/src/ops.rs:278-332 | a second run on the same day finds nothing due |
| `Money.ParsedIsLegal` | crates/shared/src/money.rs:34-104 | every accepted amount lies between one centavo and the per-entry cap |
| `Money.ParseFormat` | crates/shared/src/money.rs:34-129 | parsing the printed form of any legal amount gives it back |
| `Money.FormatIsInjective` | crates/shared/src/money.rs:107-129 | no two 64-bit amounts print alike |
| `Money.RoundingIsNearest` | crates/shared/src/money.rs:86-95 | rounding goes to a nearest centavo, halves to even |
| `Money.GroupThousands` | crates/shared/src/money.rs:119-129 | the pushing loop computes the grouped digits |
| `Money.ParseAmount` | crates/shared/src/money.rs:34-104 | the step-by-step editing of the text computes the specified parse |
| `Calendar.YearsAreGregorian` | crates/shared/src/time.rs:78-90 | counting months agrees with the Gregorian leap-year rule |
| `Calendar.YmdRoundTrip` | crates/shared/src/time.rs:78-90 | a day is the date made of its year, month and day of month |
| `Calendar.FromYmdRoundTrip` | crates/shared/src/time.rs:78-90 | a valid date gives a day with that year, month and day of month |
| `Calendar.BoundsAreTheMonth` | crates/shared/src/time.rs:78-90 | the bounds contain exactly the days of the month, whose length is the last day's number |
| `Calendar.WeeksPartition` | crates/shared/src/time.rs:116-120 | the week start is the Monday of the one week holding the day |
| `Reminders.DueIsInPeriod` | crates/db/src/ops.rs:278-308 | for every row the CHECKs admit, the computed due day is the clamped day of the month or the weekday of the Monday-based week |
| `Reminders.OneReminderPerPeriod` | crates/db/src/ops.rs:278-332 | each month or week gets exactly one reminder if some run went through on or after its due day, and none otherwise, overlapping runs included |
| `Reminders.LateRunStillReminds` | crates/db/src/ops.rs:288-307 | after any edits and upserts an item is due exactly from its due day to the end of the period, unless its last reminder came on or after that due day |
| `Reminders.ClaimIsTheStatement` | crates/db/src/ops.rs:310-332 | the claim in the run is the table's own statement |
| `RateLimit.RateLimiter.CheckAndIncrement` | crates/db/src/ratelimit.rs:22-54 | one upsert and the decision, as specified |
| `RateLimit.LiveCountersAreExact` | crates/db/src/ratelimit.rs:22-72 | the present window's counter is the number of its requests up to the column's maximum, reaps notwithstanding |
| `RateLimit.AllowsAreCapped` | crates/db/src/ratelimit.rs:22-72 | each window lets through exactly the smallest of its requests, the limit and the column's maximum |
| `RateLimit.BurstsAreBounded` | crates/db/src/ratelimit.rs:22-72 | any interval of one window's length sees at most twice the limit |
| `RateLimit.LongWindowsCanBeReset` | crates/api/src/cron.rs:160-162 | for every window above 24 hours, a run in which the reap resets a live counter |
| `Budget.PercentIsNearest` | crates/shared/src/percent.rs:13-29 | the percentage is a nearest whole one |
| `Budget.PercentIsOdd` | crates/shared/src/percent.rs:18-25 | halves go away from zero on both sides |
| `Budget.NearLineIsTrue` | crates/shared/src/budget.rs:48-56 | a near line shows 80 to 100 percent and exactly what is left |
| `Budget.ReactionsOverARun` | crates/shared/src/budget.rs:30-58 | over is said exactly once iff the limit is passed, near at most once, something iff a threshold is crossed |
| `Budget.JustLogged` | crates/api/src/service.rs:362-377 | the map holds exactly the categories the turn spent in this month, each with its sum |
| `Budget.FlushAddsUp` | crates/db/src/queries.rs:204-245 | after any flush, corrections included, the budget query reports the prediction plus exactly what the check does not see: goal money and what corrections take or bring |
| `Budget.PredictionIsExactIff` | crates/api/src/service.rs:382-393 | in a turn whose corrections are of other categories the prediction equals the query after the flush iff the budget is not Savings/Goals or nothing went into goals this month |
| `Budget.ContributionIsMissed` | crates/api/src/service.rs:362-393 | one expense and one contribution of a turn: the check sees 100, the query 150 |

## Left out

- HTTP routes, webhook authentication, the model and messaging clients, environment loading: input and output. The model's calls and replies and the provider's answers are arbitrary.
- The users table and phone normalisation: an input carries its user, and a phone passes the filter when it holds a digit.
- Argument decoding, date validation and the reply wording of tools: a call arrives parsed, a date that failed validation as absent, and an absent text as the empty one.
- Keyword tables for categories, the test for durable memories: arbitrary functions, so every result holds for any table.
- Unicode: texts are ASCII except for the peso sign and the dashes; case folding and blanks are the ASCII ones.
- Amounts wider than the decimal library's 96 bits and 28 places: their parse is an arbitrary value of the right type, on which no result depends.
- Wrap-around of the difference of two amounts in an edit: amounts the tools accept are far below it.
- Isolation inside a flush: a flush is one atomic step. The closing upsert justifies it for the completion marker; for goal balances, read without locks under read committed, it is an assumption.
- Time: one clock for the service and the database, except that cron jobs may use an older reading. `Inbound` handles a message in one instant.
- Ids are numbers that only grow, and one counter orders rows; random ids and ties of creation times are not modelled.
- ReadBack.CreatedIsListed: rows created in one flush share their creation time, and the order among them, by random id, is not modelled; the model lists them as they were written.
- ReadBack.AddedIsListed: the same holds for items added in one flush.
- The budget reaction's text in the protocol: an arbitrary suffix of the reply; the lines themselves are in `Budget`.
- `last_error`, `sent_at` and other columns no statement reads back; trimming the conversation history; nudges, weekly summaries and floating-point pacing.
- Read tools and the month overview: they change nothing.
- Replies.ReplyExistsIffCommitted: needs every committed id to be trimmed and at most 186 characters, because longer ids share keys; `Replies.RowsMatchCommits` is the form without the condition.
- RateLimit.AllowsAreCapped: needs a window of at most 24 hours, because a longer one can be reset, as `RateLimit.LongWindowsCanBeReset` shows.
- Outbox.AttemptBudget: is about rows nothing re-enqueues; a second flush under the same key starts a row waiting again with its counter kept.
- Budget.PredictionIsExactIff: its corrections are of other categories; for corrections of the same one `Budget.FlushAddsUp` gives the difference.
- Delivery to the phone is at least once: a crash between sending and marking repeats a message, and nothing here says otherwise.
