# Navi durable-state model

Navi keeps its durable state in SQLite tables that several drivers update concurrently. This
project models the small protocols over those tables, and the pure algorithms beside them, and
proves what they promise over every input and every run.

Tables are maps, a transaction is one step, and an operation that first reads a row and later
updates it behind a guard is two steps, with anything in between. The value modules give each
step as a function; the `...Theorems` modules prove what every run of steps keeps; the
`...Store` and class modules give the operations in place, each proved against its step.

| part | modules |
|---|---|
| shared values | `Values` |
| loop runs | `LoopContracts`, `LoopRuns`, `LoopRunTheorems`, `LoopRunRenewals`, `LoopRunStore` |
| effect journal and capability invocation | `Effects`, `EffectTheorems`, `EffectStore` |
| delivery outbox | `Outbox`, `OutboxTheorems`, `OutboxStore` |
| evolution and canary | `Evolution`, `EvolutionTheorems`, `EvolutionEngine`, `Canary` |
| JSON schema checker and normaliser | `JsonSchema`, `JsonSchemaTheorems`, `JsonSchemaLoops` |
| dynamic parameters | `Momentum` |
| model facts | `ModelFacts`, `ModelFactsTheorems` |
| connector dedup, goal events, cron | `Dedup`, `GoalEvents`, `GoalEventTheorems`, `Cron` |

## Conventions

- Clocks are arguments. They are positive and, where a theorem needs it, nondecreasing. Floats
  are reals, and `round` is any function with a bounded error.
- Owner names passed to claims are nonempty; ids and owners made with a uuid are fresh.
- JSON encoding is the identity. Exceptions are `Result` values carrying the exception class.
- The result of a SELECT whose order or limit matters is a parameter, constrained to what the
  query may return. Answers of the model, the transport, the audit log, the resource gateway
  and capability handlers are arbitrary values. Cancellation of a coroutine counts as a crash.

## What the proofs found

- Final rows of loop runs have two writers: retention, which empties checkpoint, children,
  locks and evidence, and `release_execution_lease` called with an empty owner, which has no
  terminal-state guard. A final row changes if and only if one of them comes by, and stop state,
  node, attempt, parent and lease are frozen for good (`LoopRunTheorems.FinalRowWrittenIff`,
  `LoopRunTheorems.FinalForever`).
- Lease renewal does not bump the version, so a transition that read the row before a renewal
  writes the old expiry back. The renewed expiry stands if and only if no such transition lands
  (`LoopRunRenewals.RenewalStandsIff`), and otherwise another owner can take the run early
  (`LoopRunRenewals.TakenEarlyIff`). Nothing but the expiry and `updated_at` can be lost this way.
- Retention deletes effect rows, settled ones included, so a key can run a second time after a
  purge of its loop run, and only then (`EffectTheorems.StartsNeedPurge`).
- A handler that raises never reaches `completed`: `fail` runs first, so `complete` raises
  (`EffectTheorems.RaisedNeverCompletes`). The branch of `reserve` that re-acquires a row is dead
  code.
- Normalising a schema can loosen it when an open object sits under `oneOf` or in an `if`
  condition; exactly when is `JsonSchemaTheorems.OneOfLoosensIff` and
  `JsonSchemaTheorems.ConditionalLoosensIff`. Without those keywords it only tightens.
- An interrupted apply settles even when the old and the new content are equal.
- The budget of projected facts covers string leaves only; keys and the two fixed marker
  dictionaries are free.
- A rollback of a parameter returns to just before the last change that recorded a previous
  value (`Momentum.RollbackReturns`). A gradient step records one only if none is stored, so
  after a set and some steps the rollback goes back past the set
  (`Momentum.FirstStepUndoneIff`, `Momentum.StepsUndonePastSet`).
- When a goal has at least `threshold` constraint events, every compaction writes a record and
  the next one finds the log too long again (`GoalEventTheorems.NextIsANoOpIff`).
- `mark_batch_projected` stamps the items of the batch in every channel, not only those of the
  channel that was handed the batch.
- Native dedup keys join their parts with colons. A key has a second reading if and only if a
  part holds a colon (`Dedup.SecondReadingIff`), and then two peers can share it.

## Model

| member | source | states |
|---|---|---|
| LoopContracts.DefaultEdgePays | src/navi/loop_contracts.py:667-709 | every node-to-node edge of the default graph lowers the rank PLAN 4, EXECUTE 3, EVALUATE 2, REFLECT 1, ESCALATE and PAUSE 0, or is one of the two moves to PLAN that consume an attempt |
| LoopRunTheorems.SameVersionSameRow | src/navi/loop_runs.py:203-229 | in every interleaving a row never disappears, its version never decreases, and two snapshots with one version agree up to lease expiry and `updated_at` |
| LoopRunTheorems.ReadCommitRefinesAtomic | src/navi/loop_runs.py:1142-1230 | read-then-commit operations leave the tables some sequence of atomic operations leaves, one per landed commit, each passing its checks on the row it overwrites; graph, checkpoint and lease expiry may be those of the earlier read |
| LoopRunTheorems.OneCommitPerVersion | src/navi/loop_runs.py:650-684 | of all drivers that read one version of a run at most one commit lands |
| LoopRunTheorems.OwnerHoldsLeaseAtCommit | src/navi/loop_runs.py:1174-1222 | when a transition naming an owner (or `fail_active_run`) lands, the row is still leased to that owner, though this was checked at the earlier read |
| LoopRunTheorems.HandoverNeedsRelinquish | src/navi/loop_runs.py:157-434 | between two different owners of a run lies an expiry, an explicit release by name, or a stop |
| LoopRunTheorems.ExclusiveExecution | src/navi/loop_runs.py:1174-1222 | transitions of two different owners on one run are separated by such an event |
| LoopRunTheorems.FinalRowWrittenIff | src/navi/loop_runs.py:356-367 | a step changes a final row if and only if it is a release naming the empty owner or a retention of the run; either bumps the version and keeps stop state, node, attempt, parent and lease |
| LoopRunTheorems.FinalForever | src/navi/retention.py:257-264 | over every run a final row keeps those columns for good, keeps checkpoint, children, locks and evidence but for retention, and is untouched if and only if neither writer came by |
| LoopRunTheorems.LeaseShapeOverRuns | src/navi/loop_runs.py:172-200 | over every run, an empty owner coincides with zero expiry, and final and waiting-approval rows hold no lease |
| LoopRunTheorems.BoundedWork | src/navi/loop_contracts.py:586-611 | if the spec of a run is the default graph, its non-stopping transitions number at most the rank spent, plus four per attempt consumed, plus four per reopening, whatever graphs other runs have |
| LoopRunRenewals.CommitMovesExpiryIff | src/navi/loop_runs.py:1181-1222 | a landing commit that neither stops the run nor changes its owner moves the expiry if and only if it is a non-stopping transition that read another one |
| LoopRunRenewals.RenewalStandsIff | src/navi/loop_runs.py:203-229 | after a renewal, while nothing stops the run or changes its lease on purpose, the owner stays and the renewed expiry stands if and only if no transition pending at the renewal with another expiry read has landed |
| LoopRunRenewals.TakenEarlyIff | src/navi/loop_runs.py:157-229 | another owner can claim the run before the renewed expiry if and only if such a transition has landed and the expiry it read has passed |
| LoopRunRenewals.RenewalCanBeLost | src/navi/loop_runs.py:203-229 | a run from the empty store on which that happens |
| LoopRunStore.Store.SaveSpec | src/navi/loop_runs.py:88-91 | saves a valid spec and nothing else; raises on an invalid one |
| LoopRunStore.Store.CreateRun | src/navi/loop_runs.py:103-145 | inserts the new row at version 0, attempt 1, unleased, with its spec; raises on an invalid spec |
| LoopRunStore.Store.WriteCheckpoint | src/navi/loop_runs.py:1098-1140 | stores a checkpoint exactly when the run exists and the id is new |
| LoopRunStore.Store.ClaimForExecution | src/navi/loop_runs.py:157-201 | leases a running (or, if allowed, paused) row that is free, own or expired, bumping its version; otherwise changes nothing and returns nothing |
| LoopRunStore.Store.RenewExecutionLease | src/navi/loop_runs.py:203-229 | extends only a live lease of the named owner, without bumping the version |
| LoopRunStore.Store.ClaimActiveForExecutionMode | src/navi/loop_runs.py:231-282 | leases exactly the oldest claimable rows of the mode up to the limit, and returns them as leased |
| LoopRunStore.Store.ReleaseExecutionLeasesForOwners | src/navi/loop_runs.py:298-354 | releases every running row of the owners and returns them, oldest first; empty names are ignored |
| LoopRunStore.Store.ReleaseExpiredExecutionLeases | src/navi/loop_runs.py:369-434 | releases exactly the rows that expired first, up to the limit, and returns them |
| LoopRunStore.Store.ReleaseExecutionLease | src/navi/loop_runs.py:356-367 | releases a row exactly when its owner is the one named |
| LoopRunStore.Store.RecoverOpenOrphans | src/navi/lifecycle_saga.py:247-277 | fails, one guarded UPDATE at a time, the listed old rows without a goal that still run, and reports all of them, spared ones included |
| LoopRunStore.Store.CompactOne | src/navi/retention.py:253-265 | empties the row of the run, bumps its version and deletes its checkpoints and the spec |
| LoopRunStore.Store.ChooseRetry | src/navi/loop_runs.py:545-555 | a pause without a typed retry gate is reopened as a resource pause |
| LoopRunStore.Store.TransitionAllowed | src/navi/loop_runs.py:1331-1353 | true exactly when some edge of the graph licenses the move |
| LoopRunStore.Store.BeginTransition | src/navi/loop_runs.py:1153-1180 | accepts or raises as the checks on the row, its checkpoint, graph and lease decide |
| LoopRunStore.Store.BeginRequest | src/navi/loop_runs.py:436-848 | the same for reopening, rejecting, cancelling, parking, delivering and failing, including the calls that find their work done |
| LoopRunStore.Store.CommitTransition | src/navi/loop_runs.py:1181-1230 | overwrites the row exactly when its version is the one read and returns the state read, moved on; raises RuntimeError otherwise |
| LoopRunStore.Store.CommitHalt | src/navi/loop_runs.py:632-684 | stops the run with the operation's own target and merged evidence exactly when the version (and for failing, the live lease) still holds, returning the state read, stopped; raises RuntimeError otherwise |
| LoopRunStore.Store.CommitReopen | src/navi/loop_runs.py:460-474 | reopens at the node the request and the evidence name, exactly when the version still holds, returning the state read, reopened; raises RuntimeError otherwise |
| EffectTheorems.AtMostOnce | src/navi/capabilities.py:423-582 | two invocations of one key whose handlers were started are the same invocation, unless retention deleted the row of the key |
| EffectTheorems.StartsNeedPurge | src/navi/retention.py:256 | over a whole run with crashes and expired leases, two handler calls of one key are by invocations whose acquisitions are separated by a purge of the key |
| EffectTheorems.ReservationsNeedPurge | src/navi/effect_journal.py:65-125 | a key held by one invocation is acquired by another only after a purge of it |
| EffectTheorems.HandlerStartsOnce | src/navi/capabilities.py:506-511 | the handler of a key that is never purged is called at most once |
| EffectTheorems.RaisedNeverCompletes | src/navi/capabilities.py:512-518 | in every interleaving an invocation whose handler raised never returns a result, nor is a row completed under its name |
| EffectTheorems.ResultsAgree | src/navi/effect_journal.py:65-100 | every result returned or replayed for an unpurged key is the one stored by the invocation that ran the handler |
| EffectTheorems.SettledUnlessPurged | src/navi/effect_journal.py:127-158 | a completed or uncertain row is still there unchanged if and only if retention has not deleted it |
| EffectTheorems.PurgeFrees | src/navi/retention.py:256 | a purged key is acquired by its next reservation |
| EffectTheorems.CompletedReplays | src/navi/effect_journal.py:65-80 | until a purge every later reservation of a completed key replays the stored result |
| EffectTheorems.AcquireOnlyInserts | src/navi/effect_journal.py:98-125 | a reservation is acquired only by inserting: the re-acquire branch is unreachable |
| EffectTheorems.HolderExcludesOthers | src/navi/effect_journal.py:81-97 | while one invocation holds an unpurged key, another invocation's reservation ends it without running |
| EffectStore.EffectJournal.Reserve | src/navi/effect_journal.py:52-125 | the outcome and the new table for every status of the row, lease expiry included |
| EffectStore.EffectJournal.Complete | src/navi/effect_journal.py:127-139 | completes and returns exactly when the caller still owns the active row, raises otherwise |
| EffectStore.EffectJournal.Fail | src/navi/effect_journal.py:141-150 | makes an owned active row uncertain, silently nothing otherwise |
| EffectStore.EffectJournal.Abandon | src/navi/effect_journal.py:152-158 | deletes an owned active row, nothing otherwise |
| EffectStore.EffectJournal.DeleteRun | src/navi/retention.py:256 | deletes exactly the rows of one loop run |
| EffectStore.TryReserve | src/navi/capabilities.py:423-455 | the reservation step of an invocation, as the step machine takes it |
| EffectStore.Admit | src/navi/capabilities.py:456-505 | a refused grant or audit entry gives the reservation back |
| EffectStore.CallAndCatch | src/navi/capabilities.py:506-528 | a raising handler fails the effect and becomes an error result |
| EffectStore.Settle | src/navi/capabilities.py:545-582 | audit completion before journal completion; a failed audit marks the effect uncertain |
| EffectStore.Invoke | src/navi/capabilities.py:423-602 | the end and the whole new journal of an uninterrupted call, for every answer of gateway, audit log and handler |
| JsonSchemaTheorems.NormalizeIdempotent | src/navi/json_utils.py:197-233 | normalising twice is normalising once, for every JSON value |
| JsonSchemaTheorems.VisitSharpens | src/navi/json_utils.py:44-164 | by induction over schema and value: with closed guards, normalising keeps every violation and adds only undeclared fields and `anyOf` lists they leave without a match |
| JsonSchemaTheorems.NormalizeTightens | src/navi/json_utils.py:197-233 | the same for whole schemas: a value without errors against the normalised schema has none against the original |
| JsonSchemaTheorems.PlainTightens | src/navi/json_utils.py:197-233 | in particular for every schema without `oneOf` and `if` |
| JsonSchemaTheorems.OneOfLoosensIff | src/navi/json_utils.py:87-95 | for any list of guarded branches, normalising turns a rejected value into an accepted one exactly when at least two branches accept it and closing leaves exactly one |
| JsonSchemaTheorems.ConditionalLoosensIff | src/navi/json_utils.py:96-102 | for a conditional with guarded parts, exactly when the condition accepts the value until it is closed, `then` rejects it, and the closed `else`, if any, accepts it |
| JsonSchemaTheorems.OneOfCanLoosen | src/navi/json_utils.py:87-95 | a schema and a value for which that happens |
| JsonSchemaTheorems.IfCanLoosen | src/navi/json_utils.py:96-102 | a schema and a value for which closing an `if` condition loosens |
| JsonSchemaLoops.SchemaErrors | src/navi/json_utils.py:44-68 | the list-filling checker reports exactly the violations of the declarative one, early return included |
| JsonSchemaLoops.ComposedErrors | src/navi/json_utils.py:71-103 | the same for `allOf`, `anyOf`, `oneOf` and `if` |
| JsonSchemaLoops.ObjectList | src/navi/json_utils.py:106-140 | the same for object keywords |
| JsonSchemaLoops.ArrayList | src/navi/json_utils.py:143-164 | the same for array keywords |
| JsonSchemaLoops.ScalarList | src/navi/json_utils.py:167-194 | the same for string and number keywords, the table of bounds included |
| JsonSchemaLoops.DuplicatesCollapse | src/navi/json_utils.py:160-163 | a list is longer than the set of its items exactly when two items are equal |
| JsonSchemaLoops.NormalizeJsonSchema | src/navi/json_utils.py:197-233 | the keyword-by-keyword rewriting of the copy gives the recursive rewriting |
| Outbox.ItemKeysDiffer | src/navi/delivery_outbox.py:110-160 | the text and the file item of one envelope have different keys |
| OutboxTheorems.AttemptBound | src/navi/delivery_outbox.py:287-489 | one worker a channel, each of which may crash anywhere: attempts never exceed the maximum plus the stale recoveries since enqueue or last requeue, and fewer retries than the maximum are scheduled |
| OutboxTheorems.BackoffBound | src/navi/delivery_outbox.py:700-722 | with base delays at most B the delays between requeues are each between a second and an hour and sum to at most both bounds |
| OutboxTheorems.SeriesIsClosed | src/navi/delivery_outbox.py:770-772 | the first of those bounds is B * (2^(max_attempts-1) - 1) |
| OutboxTheorems.DelaysSumToLess | src/navi/delivery_outbox.py:770-772 | the sum bound for any retries at increasing attempt numbers |
| OutboxTheorems.ContentFixed | src/navi/delivery_outbox.py:342-438 | identity and payload of a stored item never change, sent is absorbing, and a projected sent item is never written again |
| OutboxTheorems.FailedLeavesOnlyByRequeue | src/navi/delivery_outbox.py:412-438 | a failed item leaves that state exactly by an explicit requeue before its deadline |
| OutboxTheorems.EnqueueIsStep | src/navi/delivery_outbox.py:236-259 | an accepted envelope is one step of the machine the bounds are proved about, with brand-new rows; a refused one leaves the table as it was |
| OutboxTheorems.EnqueueNeverOverwrites | src/navi/delivery_outbox.py:236-259 | a conflicting enqueue changes nothing; any other leaves stored items alone and stores every requested one |
| OutboxTheorems.ProjectedOnce | src/navi/delivery_outbox.py:491-524 | a batch handed out as complete and then marked is never handed out again on its channel |
| OutboxStore.DeliveryOutboxStore.Enqueue | src/navi/delivery_outbox.py:236-259 | the row loop in its transaction: all new items or an error and nothing |
| OutboxStore.DeliveryOutboxStore.InsertItems | src/navi/delivery_outbox.py:244-258 | raises exactly on a conflicting key |
| OutboxStore.DeliveryOutboxStore.ClaimReady | src/navi/delivery_outbox.py:287-340 | exactly the most urgent, then oldest ready rows up to the limit become sending with one more attempt, and are returned in order |
| OutboxStore.DeliveryOutboxStore.FirstReady | src/navi/delivery_outbox.py:305-318 | the SELECT of one row: nothing when nothing is ready, otherwise a ready row no other precedes |
| OutboxStore.DeliveryOutboxStore.MarkSent | src/navi/delivery_outbox.py:342-372 | an open row becomes sent, nothing else changes |
| OutboxStore.DeliveryOutboxStore.ScheduleRetry | src/navi/delivery_outbox.py:374-397 | a sending row becomes pending after a nonnegative delay |
| OutboxStore.DeliveryOutboxStore.MarkFailed | src/navi/delivery_outbox.py:399-410 | an open row becomes failed |
| OutboxStore.DeliveryOutboxStore.BeginRequeue | src/navi/delivery_outbox.py:412-422 | the read: accepts an unexpired failed row and raises for every other |
| OutboxStore.DeliveryOutboxStore.CommitRequeue | src/navi/delivery_outbox.py:423-438 | the guarded update: restarts the row if it is still failed and raises RuntimeError otherwise |
| OutboxStore.DeliveryOutboxStore.RecoverStaleSending | src/navi/delivery_outbox.py:440-489 | exactly the stalest rows up to the limit become pending, attempts kept, and are returned |
| OutboxStore.DeliveryOutboxStore.MarkBatchProjected | src/navi/delivery_outbox.py:518-524 | stamps every unstamped item of the batch |
| OutboxStore.DeliveryOutboxStore.CompleteUnprojectedBatches | src/navi/delivery_outbox.py:491-516 | hands out only complete unprojected batches, each once with exactly its items, and all of them unless the limit cut the list |
| OutboxStore.GroupHolds | src/navi/delivery_outbox.py:504-507 | a group holds exactly the items of its batch |
| OutboxStore.Drain | src/navi/delivery_outbox.py:667-730 | recovery and the claim-deliver loop leave the table a session of the step machine leaves, report an outcome for every item picked, end early only by the loop's two ways of stopping, and leave the items of other channels' workers in their hands |
| OutboxStore.SessionIsRun | src/navi/delivery_outbox.py:676-730 | such a session is a run of the step machine the bounds are proved about |
| OutboxStore.Attempt | src/navi/delivery_outbox.py:679-729 | one pass: nothing to claim stops, otherwise one claim and one reaction |
| OutboxStore.Handle | src/navi/delivery_outbox.py:687-729 | expired, sent, retried or failed as deadline, answer and attempts decide; a rate limit after a retry stops the loop |
| EvolutionTheorems.InterruptedApplySettles | src/navi/evolution_engine.py:19-90 | an apply interrupted anywhere, before or after its claim and any number of times, and rerun ends applied (target equals after, one apply event with the pre-apply snapshot, an activation) or failed with the target as before, if and only if it is not an unclaimed proposal the rerun refuses; then nothing has happened |
| EvolutionTheorems.SettledIsStable | src/navi/evolution_engine.py:19-36 | further calls and crashes leave a settled apply as it is |
| EvolutionTheorems.UncertainNeedsOutsider | src/navi/evolution_engine.py:73-90 | `apply_uncertain` needs somebody else to write the target |
| EvolutionTheorems.ReconcileVerdict | src/navi/evolution_engine.py:73-90 | reconciling commits exactly a recorded new content and doubts exactly what is neither it nor the old one; it never writes the target |
| EvolutionTheorems.RollbackRestores | src/navi/evolution.py:331-393 | an interrupted and rerun rollback ends with the pre-apply target, the event stamped and the activation closed, and repeating it changes nothing |
| EvolutionEngine.Engine.ApplyProposal | src/navi/evolution_engine.py:19-71 | result and new state for every status of the proposal, as a run of the step machine |
| EvolutionEngine.Engine.ReconcileApplying | src/navi/evolution_engine.py:73-90 | applied, failed or uncertain as target and ledger decide |
| EvolutionEngine.Engine.ClaimAndApply | src/navi/evolution_engine.py:45-71 | claim, recheck, record, apply, commit: the snapshot is in the ledger before the target changes |
| EvolutionEngine.Engine.StartActivation | src/navi/evolution_experiments.py:245-277 | an activation is inserted once per event |
| EvolutionEngine.Engine.CommitApplied | src/navi/evolution.py:660-671 | an applying proposal becomes applied and bound to its event |
| EvolutionEngine.Engine.Rollback | src/navi/evolution_engine.py:92-107 | restores the recorded snapshot once; a second call only closes the activation |
| EvolutionEngine.Engine.RestoreTarget | src/navi/evolution.py:362-377 | target, event stamp and proposal status change together |
| Canary.DecidesOnceFromPrefix | src/navi/evolution_experiments.py:279-362 | the counters are the sums over the first min_observations valid observations, and the verdict is regressed exactly when that prefix's error rate exceeds the limit |
| Canary.ExperimentStore.StartActivation | src/navi/evolution_experiments.py:245-277 | an existing activation is kept; a new one starts with clamped settings |
| Canary.ExperimentStore.CountObservation | src/navi/evolution_experiments.py:288-343 | the counting transaction is one step of the counter and tells whether a rollback is due |
| Canary.ExperimentStore.CloseRollback | src/navi/evolution_experiments.py:344-359 | the closing transaction writes only a row that is still regressed |
| Canary.ExperimentStore.ObserveOutcome | src/navi/evolution_experiments.py:279-362 | an uninterrupted call: result and row for every observation and every answer of the rollback port |
| Canary.ExperimentStore.MarkActivationRolledBack | src/navi/evolution_experiments.py:379-395 | marks an existing activation and reports a missing one |
| Momentum.MomentumBounded | src/navi/dynamic_parameters.py:329-337 | over any run of gradient, EMA and plain set steps the bias-corrected momentum stays within e*b/(1-b) of the range of the gradients |
| Momentum.StoredBounded | src/navi/dynamic_parameters.py:329-349 | the stored momentum is bounded by the correction times the widened range |
| Momentum.CorrectionIsPower | src/navi/dynamic_parameters.py:332-335 | the bias correction follows the recurrence of the momentum, fed with ones |
| Momentum.DynamicParameterRegistry.Sync | src/navi/dynamic_parameters.py:213-232 | seeds once without overwriting, and reloads the cache only when it is empty or five seconds old |
| Momentum.DynamicParameterRegistry.GetValue | src/navi/dynamic_parameters.py:238-250 | the cached value or the default |
| Momentum.DynamicParameterRegistry.SetValue | src/navi/dynamic_parameters.py:252-267 | replaces value and metadata, reading the previous value only when the caller passed none |
| Momentum.DynamicParameterRegistry.ApplyGradient | src/navi/dynamic_parameters.py:316-361 | the new value is the rounded, clamped move along the corrected momentum of the stored metadata, which advances by one gradient step |
| Momentum.DynamicParameterRegistry.ApplyEma | src/navi/dynamic_parameters.py:363-389 | the new value is the rounded, clamped blend; momentum, step and any recorded previous value survive |
| Momentum.DynamicParameterRegistry.Rollback | src/navi/dynamic_parameters.py:269-282 | value and recorded previous value trade places, momentum and step are dropped |
| Momentum.RollbackTwice | src/navi/dynamic_parameters.py:269-282 | a second rollback brings value and previous value back; momentum and step stay dropped |
| Momentum.RollbackReturns | src/navi/dynamic_parameters.py:252-282 | over any run of sets, steps and rollbacks, a rollback returns the value from just before the last change that recorded one |
| Momentum.FirstStepUndoneIff | src/navi/dynamic_parameters.py:316-361 | after gradient or EMA steps a rollback returns the value before the first of them if and only if no other previous value was recorded when they began |
| Momentum.StepsUndonePastSet | src/navi/dynamic_parameters.py:252-282 | after a set and two steps the rollback goes back past the set |
| ModelFactsTheorems.BudgetBound | src/navi/model_facts.py:32-55 | the string leaves total at most the budget, one truncation frame and one character |
| ModelFactsTheorems.BudgetBoundIsTight | src/navi/text_utils.py:4-14 | a text and a budget that meet the bound |
| ModelFactsTheorems.TakeBound | src/navi/model_facts.py:19-29 | one hand-out overshoots the budget only by emptying it, and by at most a frame and a character |
| ModelFactsTheorems.ProjectSpends | src/navi/model_facts.py:57-110 | by induction over the value: overshoot happens at most once in a whole projection |
| ModelFactsTheorems.ShapeBound | src/navi/model_facts.py:57-110 | every projected list and dict has at most max_items entries without repeated keys, and containers nest at most max_depth deep |
| ModelFactsTheorems.NothingLostWithinLimits | src/navi/model_facts.py:32-55 | a value within every limit is projected leaf by leaf with nothing cut |
| ModelFacts.ProjectionBudget.TakeText | src/navi/model_facts.py:19-29 | hands out and deducts as the budget rule says |
| ModelFacts.ProjectInPlace | src/navi/model_facts.py:57-110 | the projection with the budget object threaded through in place |
| ModelFacts.ProjectModelFacts | src/navi/model_facts.py:32-55 | the projection under limits raised to at least one |
| Dedup.TableAgreesWithHistory | src/navi/connector_runtime.py:48-92 | with a nondecreasing clock the pruned table answers as the full history would |
| Dedup.AcceptedAfterSilence | src/navi/connector_runtime.py:48-92 | an accepted message follows at least ttl of silence on its key |
| Dedup.ConnectorIngressDeduplicator.CheckMessage | src/navi/connector_runtime.py:52-75 | a message is a duplicate exactly when its key was checked less than ttl ago, with the reason its kind of id gives |
| Dedup.TagTells | src/navi/connector_runtime.py:65-66 | the prefix of a key tells native ids from content digests |
| Dedup.SecondReadingIff | src/navi/connector_runtime.py:77-86 | a key can be read as four parts in a second way if and only if one of its parts holds a colon |
| Dedup.NativeKeysAgree | src/navi/connector_runtime.py:77-86 | where source, peer and sender hold no colon, two native keys agree exactly when all parts do |
| Dedup.KeysCanCollide | src/navi/connector_runtime.py:77-86 | two messages of different peers that share a key |
| GoalEventTheorems.ConstraintsSurvive | src/navi/goals.py:501-585 | after any mix of recording, (overlapping, aborted) compactions and purges the stored constraint events are exactly those written and not deleted with their goal |
| GoalEventTheorems.CountUnchanged | src/navi/goals.py:608-629 | a count over blocked and failed events reads the table as it would the whole history |
| GoalEventTheorems.StopDecisionUnchanged | src/navi/goals.py:728-762 | the stop decision at any time is the one the uncompacted history gives |
| GoalEventTheorems.EverythingIsTraced | src/navi/goals.py:507-585 | every event not deleted with its goal is stored or reached from a stored record of the goal by a chain of compactions that read it |
| GoalEventTheorems.CompactedLength | src/navi/goals.py:507-585 | a compaction nothing raced leaves the constraint events and one record |
| GoalEventTheorems.NextIsANoOpIff | src/navi/goals.py:507-511 | the next compaction is a no-op if and only if fewer constraint events than the threshold were kept |
| GoalEvents.GoalStore.RecordEvent | src/navi/goals.py:830-876 | inserts the event, or raises on a taken id |
| GoalEvents.GoalStore.BeginCompact | src/navi/goals.py:507-511 | leaves a log up to the threshold alone, and writes nothing |
| GoalEvents.GoalStore.FinishCompact | src/navi/goals.py:538-585 | one record in, exactly the routine events read before out |
| GoalEvents.GoalStore.Partition | src/navi/goals.py:516-532 | the constraint events in order and the ids of all others |
| GoalEvents.GoalStore.DeleteEach | src/navi/goals.py:580-583 | the delete loop removes exactly the listed ids |
| GoalEvents.GoalStore.DeleteGoal | src/navi/retention.py:228 | deletes exactly the events of one goal |
| GoalEvents.GoalStore.StopFactsNow | src/navi/goals.py:728-762 | timeout before retry ceiling, only while running |
| Cron.NextCronTime | src/navi/cron.py:6-20 | the earliest matching minute after the base within a year, unless an earlier minute fails to parse or none matches |
| Cron.ValidateCron | src/navi/cron.py:22-28 | accepts exactly five fields that all parse |
| Cron.ValidatedNeverRaises | src/navi/cron.py:6-28 | a validated expression never fails to parse during the search, and matches exactly where all five fields do |
| Cron.ParsedIsUsable | src/navi/cron.py:30-44 | a field that parses is nonempty and within its range |
| Cron.StepField | src/navi/cron.py:33-37 | a step field parses exactly for a positive step and means every step-th value of the range |
| Cron.ListField | src/navi/cron.py:38-44 | a list field parses exactly when each part is a number of the range, and means those numbers |
| Cron.SplitJoins | src/navi/cron.py:39 | the parts of a list joined by commas give the field back |
| Cron.WeeklyIsTotal | src/navi/cron.py:6-20 | with day and month "*" a validated schedule is found within 10080 minutes |
| Cron.WeekIsNeeded | src/navi/cron.py:6-20 | and no smaller bound would do: a single weekly slot asked for at its own minute comes a week later |

## Left out

- SQL text, schema migration, indexes, file locks, JSON encoding and the audit rows in `loop_events`: tables are maps and transactions are steps.
- HTTP API, CLI, diagnostics, auth, configuration, connector adapters and hooks: plumbing.
- Language model calls: a summary, plan or judgement is an arbitrary value.
- The permission, schema, workspace and approval checks before the reservation of `invoke`, approval settlement and the `after_capability` hook; the output-schema check is part of the arbitrary handler result.
- Queries that only list or count rows, among them `list_retryable_pauses`, whose limit can hide due rows: no completeness is claimed.
- Concurrent engines and several live outbox workers on one channel: settlement and attempt bounds are for crash and restart with one engine and one worker a channel.
- The legacy import of the outbox, supersession of items, and trimming of envelope texts.
- Which runs retention picks, and what it deletes outside loop runs, effects and goal events; it is modelled as possible at any time. Attaching traces.
- The calendar behind day and month, and time zones with daylight saving: `Cron` takes them as functions and counts local minutes.
- LoopRunTheorems.BoundedWork: for runs whose spec is the default graph; other graphs may loop without consuming attempts.
- LoopRunStore.Store.BeginRequest: the retry facts recorded by the two retrying reopen operations are one value, and the messages of exceptions are not modelled.
- LoopRunStore.Store.ClaimActiveForExecutionMode: the order of rows with equal timestamps is left open, as SQL leaves it.
- LoopRunStore.Store.SaveSpec: what `validate` checks is one verdict.
- LoopRunRenewals.RenewalStandsIff: between the renewal and the moment asked about, the run is not stopped and no release, claim or further renewal changes its lease.
- JsonSchemaLoops.SchemaErrors: violations are paths and rules; wording, order and multiplicity of messages are not captured, nor is the meaning of `pattern`, which is a parameter.
- JsonSchemaLoops.ComposedErrors: the same.
- JsonSchemaLoops.ObjectList: the same.
- JsonSchemaLoops.ArrayList: the same.
- JsonSchemaLoops.ScalarList: the same.
- JsonSchemaLoops.NormalizeJsonSchema: nodes are values, so aliasing inside the deep copy is not captured.
- JsonSchemaTheorems.NormalizeTightens: assumes the branches of `oneOf` and the condition of `if` are already normal; `OneOfLoosensIff` and `ConditionalLoosensIff` say exactly when it fails without.
- Momentum.MomentumBounded: the decay is one fixed b; reals stand for floats.
- Momentum.RollbackReturns: changes go through one registry; a second registry of the same table could hold a stale cache for five seconds.
- ModelFactsTheorems.BudgetBound: keys and the two marker dictionaries are not counted, as the code does not; the first redaction pass over the whole value has already happened.
- Dedup.ConnectorIngressDeduplicator.CheckMessage: a file that cannot be read, which raises, is not modelled.
- GoalEvents.GoalStore.FinishCompact: the acceptance, run id and trace id of events are carried along by the code and not modelled.
- Evolution assertion evaluators, experiment runs, fingerprints and target adapters: an adapter is any atomic one whose restore undoes its snapshot.
