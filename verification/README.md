# MemClaw: verified models of its stateful protocols and algorithms

MemClaw gives agents a shared long-term memory. A plugin runs on each node, services in the
cloud talk over Pub/Sub, and small self-contained algorithms guard what is stored. This
project models the parts of it whose correctness is not visible from any single function, and
proves what they promise, for every input, every run or every reachable state.

Check everything with `dafny verify dfyconfig.toml`.

## What is modelled

**The interview buffer** (`InterviewLog`, `InterviewNode`, `InterviewRuns`, `InterviewNumbering`,
`InterviewRounds`, `InterviewDrain`, `InterviewBuffer`).
A node keeps events in an append-only JSONL file until a server has interviewed it. The disk
is a list of lines, an unterminated tail and the value the sidecar reads as. Every write can
succeed, be rejected while the process lives, or be cut short by the death of the process.
`InterviewNode.Sound` is the inductive invariant: a file with events ends with the largest
number ever durable, a file without events is covered by the sidecar, and a seeded process
numbers above both. `InterviewRuns` puts a node and the interviewing server into one state
machine; `InterviewNumbering` says which numbers events get; `InterviewRounds` and `InterviewDrain` are about undisturbed interviews in such runs;
`InterviewBuffer.Buffer` is the module with its files and variables as fields.

Fault assumptions: only the death of the process tears a line or the sidecar; an append that
is rejected while the process lives wrote nothing; reading an existing file succeeds; a rename
is atomic; one window is in flight at a time and is read from the server's current cursor.

**The Pub/Sub bus** (`EventBus`, `EventBusSafety`, `EventBusHistory`, `EventBusTheorems`,
`EventBusFlush`, `EventBusEffects`, `EventBusRestart`, `EventBusObject`).
Asyncio interleaves only at `await`, so each stretch between awaits is one atomic step, and
work in an executor and its completion are steps of their own. Publish callers, `start()`,
`stop()`, pull loops, background closers and cancellations interleave freely. Two `start()`
calls never overlap, two `stop()` calls never overlap, and no topic is a broadcast topic.
`EventBusHistory` reads the model's history fields back as statements about the steps of a run;
`EventBusEffects` says what each step does, and `EventBusRestart` that the bus never gets stuck.

**Delivery and the handlers** (`Handlers`, `Delivery`). The lifecycle and suppression handlers,
with every awaited call free to return, raise or be cancelled, composed with the pull loop and
a broker that redelivers until an acknowledgement lands. That a message has left the
subscription then has an end-to-end meaning.

**Algorithms.** Luhn and IBAN checks (`Checksums`, `Iban`), overlap resolution and masking
(`Redaction`), the fenced-block splicer (`FencedBlock`, `BlockSplice`), the provider cache
(`Recency`, `ProviderCache`), settings merge and diff (`PathMaps`, `SettingsMerge`), HTTP retry
(`HttpRetry`) and the prompt's token budget (`TokenBudget`). `Common` holds what they share.

## Where the code does less than it says

Each of these is a lemma that exhibits the case, beside a lemma that says exactly when the
promise holds.

- `is_healthy` can be true while a topic has no live task: a pull task cancelled in the sleep
  after a transient error, or before its first step, is not recorded (`CancelledSleepIsInvisible`;
  exact condition, over the steps since the last completed `start()`, in `HealthyMeansPulling`).
- A client can be lost: cancelling `stop()` while its close call is still queued in the executor
  withdraws the call (`CancelledStopLeaks`; exact condition, over the steps of the run, in
  `ExactlyOneHolder`).
- A submitted publish can miss the flush: if `stop()` is cancelled while it drains the publish
  pool, a second `stop()` can flush the client first (`CancelledDrainLosesJobs`; exact condition,
  at every point of every run, in `FlushMissedIff`).
- The overlap resolver says it keeps the longer span; it keeps the earlier one
  (`ShorterCanWin`; exact condition for two spans in `LongerOfTwoKeptIff`, for any set of
  candidates in `LongerKeptIff`).
- An update that puts an empty dictionary over a value discards the value without any entry in
  the diff (`EmptyDictionaryErasesSilently`; exact condition in `UnchangedIff`).
- A second splice is not always a no-op: an opening marker without a closer, left standing before
  the block, makes the second splice swallow the text in between (`DanglingOpenerSwallowsText`;
  exact condition in `SecondSplice`). Two splices always settle.
- A fractional token budget can be exceeded by rounding (`FractionalBudgetExceeded`); the promise
  holds for all texts exactly if the fraction is below a quarter (`PromiseKeptIff`).

## Model

| member | source | states |
|---|---|---|
| `InterviewNode.SeedKeeps` | plugin/src/interview-buffer.ts:130-158 | seeding after a restart heals the tail, loses no readable event, and numbers above every number ever durable, at every point where it can fail |
| `InterviewNode.ReplaceKeeps` | plugin/src/interview-buffer.ts:160-168 | sidecar first, then rename: the invariant holds at every point at which either write can be rejected or killed |
| `InterviewNode.CutKeeps` | plugin/src/interview-buffer.ts:189-193 | a kill during an append adds the event exactly if its whole text reached the file |
| `InterviewNode.AppendKeeps` | plugin/src/interview-buffer.ts:174-212 | an append adds its event at the end, perhaps compacting to the newest half, or leaves the readable events alone; a returned number belongs to an added event |
| `InterviewNode.PruneKeeps` | plugin/src/interview-buffer.ts:231-248 | a prune removes all the committed events or none, exactly the committed ones if it returned, and keeps the invariant |
| `InterviewRuns.RunKeeps` | plugin/src/interview-buffer.ts:130-248 | the invariant of node and server holds after every run |
| `InterviewRuns.NumbersNeverRepeat` | plugin/src/interview-buffer.ts:130-248 | in every run of calls, kills and restarts, numbers strictly increase in the file and no two events ever readable share one |
| `InterviewNumbering.NumbersHaveNoGaps` | plugin/src/interview-buffer.ts:130-248 | unless an append was rejected by a process that lived on, the events ever readable are numbered 0, 1, 2 and so on, across kills, restarts, prunes and compactions |
| `InterviewNumbering.NumberGiven` | plugin/src/interview-buffer.ts:149-152 | after a restart an append gets the larger of the last readable number plus one and the sidecar value, otherwise the next number in memory |
| `InterviewNumbering.UndisturbedAppend` | plugin/src/interview-buffer.ts:174-212 | an undisturbed append returns the upcoming number, adds its event, and compacts exactly if the file then exceeds fifty million bytes |
| `InterviewNumbering.CompactionKeepsHalf` | plugin/src/interview-buffer.ts:194-209 | a compaction keeps the newest half of the events, rounded up |
| `InterviewNumbering.BytesCounted` | plugin/src/interview-buffer.ts:153-157 | a healed tail costs one byte, a line its text and one byte |
| `InterviewNumbering.RejectedWritesNothing` | plugin/src/interview-buffer.ts:141-148 | a rejected heal changes nothing and the call fails; a rejected line costs its number and nothing else |
| `InterviewNumbering.UnhealedAppendLosesBoth` | plugin/src/interview-buffer.ts:133-140 | without the heal, an append onto a torn tail would lose both events |
| `InterviewNumbering.ReturnedIsAcknowledged` | plugin/src/interview-buffer.ts:210 | a returned number is recorded as acknowledged |
| `InterviewRuns.LaterNumbersAreHigher` | plugin/src/interview-buffer.ts:61-69 | whatever happens after a point of a run, later events are numbered above its watermark and above everything durable then |
| `InterviewRuns.RunExtends` | plugin/src/interview-buffer.ts:174-248 | the server's cursor never falls and the log of durable events only grows |
| `InterviewRuns.AcknowledgedIsAccountedFor` | plugin/src/interview-buffer.ts:174-212 | an event whose append returned is in exactly one place: delivered, waiting on disk, or dropped by compaction |
| `InterviewRuns.QuietDropsNothing` | plugin/src/interview-buffer.ts:194-209 | only the size guard drops events |
| `InterviewRuns.EveryEventOnceInOrder` | plugin/src/heartbeat.ts:1104-1180 | without compaction, what the server holds followed by what waits on disk is exactly the log of events: none lost, repeated or reordered, even across kills between commit and prune |
| `InterviewRounds.RoundProgress` | plugin/src/heartbeat.ts:1130-1171 | one undisturbed interview from any reachable state delivers exactly the next window and removes exactly what the watermark covers |
| `InterviewDrain.RoundsDeliverEverything` | plugin/src/heartbeat.ts:1104-1180 | from any point of any run, as many undisturbed interviews as their windows need leave nothing waiting; after a quiet run the server then holds exactly the log |
| `InterviewRuns.RenameFirstReusesNumbers` | plugin/src/interview-buffer.ts:237-246 | with the order of the two writes exchanged, one kill makes a committed number be handed out again |
| `InterviewBuffer.ParseLines` | plugin/src/interview-buffer.ts:91-103 | the accumulating loop yields the parseable events in file order |
| `InterviewBuffer.Buffer.EnsureSeeded` | plugin/src/interview-buffer.ts:130-158 | the new state is that of the seeding step |
| `InterviewBuffer.Buffer.Append` | plugin/src/interview-buffer.ts:174-212 | the new state is that of the append step, and the invariant holds again on every path |
| `InterviewBuffer.Buffer.Read` | plugin/src/interview-buffer.ts:215-224 | returns the first events at or above the given number, in order |
| `InterviewBuffer.Buffer.Prune` | plugin/src/interview-buffer.ts:231-248 | keeps the invariant; if it returned, exactly the events above the committed number remain |
| `EventBusSafety.StepFlags` | common/events/pubsub.py:888-1111 | every step keeps the flags consistent: a running `stop()` is flagged, a subscriber implies a started bus, a started bus was entered in the current generation |
| `EventBusSafety.StepHeld` | common/events/pubsub.py:221-333 | every step moves a client from one holder to another, never to two or to none, except a withdrawn close |
| `EventBusSafety.StepPulling` | common/events/pubsub.py:657-820 | every step keeps one task per topic, ended exactly for a recorded reason, while the bus is started |
| `EventBusSafety.StepQueued` | common/events/pubsub.py:382-448 | every step keeps queued jobs bound to the installed publisher through a pool that `stop()` will drain first, and accounts for every submission |
| `EventBusTheorems.Reachable` | common/events/pubsub.py:71-1111 | all four invariants hold in every reachable state |
| `EventBusTheorems.ExactlyOneHolder` | common/events/pubsub.py:221-333 | in every interleaving a built client has at most one holder and is closed at most once; it has none exactly if some step of the run withdrew its queued close |
| `EventBusHistory.LeakedIff` | common/events/pubsub.py:969-1077 | a client is recorded as leaked exactly if some step cancelled a teardown coroutine while the close it awaited was still queued |
| `EventBusTheorems.GentleRunsNeverLeak` | common/events/pubsub.py:888-1111 | in runs without such a cancellation every built client has exactly one holder |
| `EventBusTheorems.CancelledStopLeaks` | common/events/pubsub.py:969-978 | a run in which a cancelled `stop()` leaves a built client without a holder |
| `EventBusTheorems.NeverOverwritten` | common/events/pubsub.py:288-333 | an installed client leaves its field only when `stop()` takes it out and queues its close |
| `EventBusEffects.PublishExact` | common/events/pubsub.py:221-256 | a `publish()` does nothing on a stopped bus, hands in exactly its message for an installed client, and otherwise starts to build a fresh one, remembering message and generation |
| `EventBusEffects.PublishResumesExact` | common/events/pubsub.py:282-333 | a resumed `publish()` hands in exactly its message, for the client it installs or finds, if no `stop()` began since; otherwise it hands in and installs nothing; a client not installed goes to a closer |
| `EventBusEffects.JobsMoveOn` | common/events/pubsub.py:444-448 | a queued job ends up once in its client, or withdrawn by its caller |
| `EventBusEffects.ConstructionEnds` | common/events/pubsub.py:254-281 | a construction yields a built client with the holder it had, or, if it fails, leaves nothing behind |
| `EventBusEffects.ClientsMoveOn` | common/events/pubsub.py:257-281 | a cancelled caller leaves its client to a closer, a closer queues the close of a built client, and a queued close runs once |
| `EventBusEffects.SubscribeExact` | common/events/pubsub.py:452-470 | a subscription before `start()` adds its topic at the end, once |
| `EventBusEffects.StartEntersExact` | common/events/pubsub.py:472-509 | `start()` is refused if started or in progress, done at once without subscriptions, and otherwise builds a fresh client for the current generation |
| `EventBusEffects.StartEndsExact` | common/events/pubsub.py:510-562 | a cancelled `start()` leaves its client to a closer; an aborted one ends when its client is closed |
| `EventBusEffects.TasksPoll` | common/events/pubsub.py:662-693 | a fresh task polls if the bus is up; errors make it sleep and poll again unless `stop()` is under way |
| `EventBusEffects.TasksFail` | common/events/pubsub.py:764-806 | a permanent error, or a cancellation inside the `try` outside a teardown, ends a task and records its topic; other cancellations end it unrecorded |
| `EventBusEffects.StopBeginsExact` | common/events/pubsub.py:888-978 | `stop()` raises the generation and both flags and queues the close of the subscriber first |
| `EventBusEffects.StopAdvancesIff` | common/events/pubsub.py:954-1077 | `stop()` moves on exactly when what it awaits is over |
| `EventBusEffects.TeardownOrder` | common/events/pubsub.py:954-1111 | subscriber, tasks, pull pool, publish pool, publisher, then the flags, which are reset only after a complete teardown |
| `EventBusEffects.StopCancelledExact` | common/events/pubsub.py:1033-1111 | a cancelled `stop()` goes to its `finally` block, or leaves it, and resets no flag |
| `EventBusRestart.StopCanComplete` | common/events/pubsub.py:888-1111 | from every reachable state, once what is awaited is over, a `stop()` runs to its end and leaves no client, pool, task or flag |
| `EventBusRestart.CanAlwaysRestart` | common/events/pubsub.py:472-578 | from every reachable state with subscriptions the bus can be stopped and started until every topic has a polling task of its own |
| `EventBusTheorems.StartAllOrNothing` | common/events/pubsub.py:472-578 | `start()` ends with one fresh task per topic on its client, or, exactly if a `stop()` began since or is under way, with no task, no subscriber and its client queued for close |
| `EventBusTheorems.NoResurrection` | common/events/pubsub.py:169-176 | outside a teardown, tasks exist only if no `stop()` began after their `start()` was entered |
| `EventBusTheorems.FlagsOnlyResurrects` | common/events/pubsub.py:528-562 | a run after which checking the flags without the generation installs tasks on a stopped bus, while the real check does not |
| `EventBusTheorems.HealthyMeansPulling` | common/events/pubsub.py:336-373 | on a healthy bus a topic has a live task on a live subscriber exactly if no step since the last completed `start()` cancelled its task outside its `try` |
| `EventBusRestart.HealthyIff` | common/events/pubsub.py:336-373 | a bus with subscriptions reports healthy exactly if it is started, not stopped, and no task ended except those cancelled unseen |
| `EventBusHistory.UnmarkedIff` | common/events/pubsub.py:783-820 | a topic's unrecorded end is exactly a cancellation outside the `try` since the last completed `start()` |
| `EventBusTheorems.CancelledSleepIsInvisible` | common/events/pubsub.py:783-820 | a run after which the bus reports healthy and its only task has ended |
| `EventBusTheorems.FlushedBeforeStop` | common/events/pubsub.py:1000-1032 | once a client's `stop()` is queued, every job ever submitted for it was enqueued in it or withdrawn by its caller, unless some step of the run cancelled the drain of its pool |
| `EventBusFlush.FlushMissedIff` | common/events/pubsub.py:1000-1032 | at every point of every run, a queued job whose client is installed can be overtaken by the client's `stop()`, with no further drain cancelled, exactly if the drain of its pool was cancelled before |
| `EventBusFlush.StepPools` | common/events/pubsub.py:382-394 | every step keeps pool numbers fresh, each queued job's client installed or retired, and the bus stopped with nothing to drain while a job is stranded in an abandoned pool |
| `EventBusHistory.AbandonedIff` | common/events/pubsub.py:1000-1009 | a pool is abandoned exactly if some step cancelled `stop()` while it drained that pool |
| `EventBusTheorems.NoSubmissionDuringStop` | common/events/pubsub.py:382-394 | no step submits a publish while `stop()` is in progress |
| `EventBusTheorems.CancelledDrainLosesJobs` | common/events/pubsub.py:1000-1032 | a run in which a submitted job is still queued after its client's `stop()` ran |
| `EventBusObject.PubSubEventBus.EnterPublish` | common/events/pubsub.py:221-256 | refines the step and keeps the invariant |
| `EventBusObject.PubSubEventBus.ResumePublish` | common/events/pubsub.py:282-333 | refines the step, keeps the invariant, and never replaces an installed publisher |
| `EventBusObject.PubSubEventBus.EnterStart` | common/events/pubsub.py:472-509 | refines the step and keeps the invariant |
| `EventBusObject.PubSubEventBus.ResumeStart` | common/events/pubsub.py:528-578 | refines the step; succeeds exactly if no `stop()` began or is under way, with the two end states that go with it |
| `EventBusObject.PubSubEventBus.BeginStop` | common/events/pubsub.py:888-978 | refines the step and raises the generation |
| `EventBusObject.PubSubEventBus.AdvanceStop` | common/events/pubsub.py:969-1104 | refines the step from each await of `stop()` to the next |
| `EventBusObject.SpawnAll` | common/events/pubsub.py:567-578 | the loop creates one scheduled task per topic, in order |
| `Handlers.RunAction` | common/events/lifecycle_handlers.py:157-268 | the sequence of calls, with its nested exception paths, is the handler run that the lemmas are about |
| `Handlers.LifecycleReturns` | common/events/lifecycle_handlers.py:157-268 | the handler returns only if the request was malformed, the gate reported a recent success, or the operation returned and the success row with its count was written |
| `Handlers.LifecycleReturnsIff` | common/events/lifecycle_handlers.py:157-268 | exactly when the handler returns, and exactly when it raises which error |
| `Handlers.RecentSuccessSkips` | common/events/lifecycle_handlers.py:182-224 | a recent success ends the request with a skip row and nothing else; the operation does not run |
| `Handlers.OpRunsIff` | common/events/lifecycle_handlers.py:226-268 | the operation runs exactly if the request is well-formed, the gate lets it through and the mark is not cancelled; once, between the in-progress row and the row that records its end |
| `Handlers.OpFailureSurfaces` | common/events/lifecycle_handlers.py:239-262 | a failed operation surfaces with its own error whether or not the failure row was written |
| `Handlers.HandleSuppressionChanged` | common/events/suppression_handlers.py:60-105 | the upsert loop, aborting at the first failure, is the handler run that the lemmas are about |
| `Handlers.SuppressionReturns` | common/events/suppression_handlers.py:60-105 | the handler returns only if every listed tenant was upserted |
| `Handlers.SuppressionStopsAtFirstFailure` | common/events/suppression_handlers.py:60-105 | tenants are upserted in order up to the first failure; the handler returns exactly if the event is malformed or every upsert went through |
| `Delivery.OwnMessagesAreNotForeign` | common/events/pubsub.py:630-655 | buses configured with the same environment, up to blanks around it, never drop each other's messages |
| `Delivery.ForeignIff` | common/events/pubsub.py:630-655 | a named bus treats a message as foreign exactly if it carries another non-empty name, whatever blanks its own configuration has |
| `Delivery.NoNameNoGuard` | common/events/pubsub.py:630-655 | a bus with no or a blank name treats nothing as foreign and stamps nothing |
| `Delivery.OtherNamesAreNeverDispatched` | common/events/pubsub.py:709-729 | over all runs, a message stamped with another environment's name is never handed to a handler |
| `Delivery.DispatchAll` | common/events/pubsub.py:840-886 | halts exactly if some handler was cancelled and acknowledges exactly if every handler returned |
| `Delivery.HaltedIff` | common/events/pubsub.py:783-806 | a batch is abandoned exactly if some handler is cancelled on one of its messages |
| `Delivery.AckedIff` | common/events/pubsub.py:706-737 | in a batch that is not abandoned, a message is acknowledged exactly if it was dropped or every handler returned |
| `Delivery.DispatchedIff` | common/events/pubsub.py:730-737 | every message that is not dropped is dispatched to all handlers |
| `Delivery.CycleHoldsIff` | common/events/pubsub.py:706-760 | after a pull cycle the broker holds exactly what it held, without the messages that succeeded and whose acknowledgement landed; an abandoned batch lets go of nothing |
| `Delivery.OpFailureIsNeverAcked` | common/events/lifecycle_handlers.py:239-262 | a dispatch in which a lifecycle operation failed is not acknowledged, whatever else happens in it |
| `Delivery.ProcessBatch` | common/events/pubsub.py:706-760 | the ack and nack lists of a fully processed batch partition it |
| `Delivery.Partition` | common/events/pubsub.py:706-760 | the same of the specification, for every batch |
| `Delivery.LeavesOnlyWhenDone` | common/events/pubsub.py:657-760 | over all runs with redelivery, failed acknowledgements and cancelled handlers, a message leaves the subscription only if foreign, undecodable, or dispatched to handlers that all returned and did what they owe |
| `Delivery.DroppedMeansUntouched` | common/events/pubsub.py:630-655 | no handler is ever run on a foreign or undecodable message |
| `Delivery.SuppressionReachesEveryTenant` | common/events/suppression_handlers.py:60-105 | once a well-formed suppression event is gone from the subscription, each listed tenant was stored with its action |
| `Checksums.CheckLuhn` | common/governance/pii_patterns.py:70-82 | the right-to-left loop accepts exactly 13 or more digits whose weighted sum is a multiple of ten |
| `Checksums.LuhnDetectsSubstitution` | common/governance/pii_patterns.py:70-82 | any single changed digit is detected, in a number of any length |
| `Checksums.LuhnTransposition` | common/governance/pii_patterns.py:70-82 | an adjacent transposition escapes exactly if the digits are equal or are 0 and 9 |
| `Checksums.LuhnWeight` | common/governance/pii_patterns.py:76-81 | the digit at an even distance from the right counts as it is, at an odd distance as the digit sum of its double |
| `Checksums.LuhnCheckDigit` | common/governance/pii_patterns.py:70-82 | every sequence of digits has exactly one check digit |
| `Checksums.DigitsAsWritten` | common/governance/pii_patterns.py:72 | digits are read as written, in order, and everything else is passed over |
| `Checksums.LuhnOkRejectsSubstitution` | common/governance/pii_patterns.py:70-82 | the validator rejects every value obtained from an accepted one by changing one digit, separators included |
| `Iban.CheckIban` | common/governance/pii_patterns.py:88-104 | the source's loop decides the declarative check |
| `Iban.HornerMod97` | common/governance/pii_patterns.py:104 | the digit-by-digit remainder equals that of the whole number |
| `Iban.CheckDigitsDecide` | common/governance/pii_patterns.py:88-104 | for every country and account, of the check digits 02 to 98 exactly the one that makes 98 with the remainder of the rest is accepted |
| `Iban.BlanksIgnored` | common/governance/pii_patterns.py:92 | blanks anywhere do not matter |
| `Iban.CaseIgnored` | common/governance/pii_patterns.py:92 | the case of a letter does not matter |
| `Iban.ChecksAsWritten` | common/governance/pii_patterns.py:92-104 | a number in capitals without blanks is checked as it stands |
| `Iban.SubstitutionDetected` | common/governance/pii_patterns.py:88-104 | one character replaced by another of its class changes the remainder, at every place and length |
| `Iban.TranspositionDetected` | common/governance/pii_patterns.py:88-104 | two unequal adjacent digits exchanged change the remainder, at every place and length of the rearranged string |
| `Iban.RejectsSubstitution` | common/governance/pii_patterns.py:88-104 | no accepted number stays accepted when one character changes within its class |
| `Iban.EndsExchanged` | common/governance/pii_patterns.py:88-104 | exchanging the one pair that the rearrangement parts escapes exactly if a power of ten is 1 modulo 97 |
| `Iban.PowersAreNotOne` | common/governance/pii_patterns.py:88-104 | no such power occurs within the length of an account number |
| `Iban.RejectsTransposition` | common/governance/pii_patterns.py:88-104 | no accepted number, as written, stays accepted when two unequal adjacent digits are exchanged, wherever they stand |
| `Redaction.ResolveOverlaps` | common/governance/pii_patterns.py:368-388 | the sort and greedy loop compute the resolution that the lemmas are about |
| `Redaction.SortedSpec` | common/governance/pii_patterns.py:377-380 | the ordering is an ordered permutation |
| `Redaction.ResolvedApart` | common/governance/pii_patterns.py:368-388 | kept findings are an ascending, disjoint selection of the candidates |
| `Redaction.ResolvedCoversStarts` | common/governance/pii_patterns.py:381-388 | each dropped candidate starts inside a kept one that the order places no later |
| `Redaction.ResolveIdempotent` | common/governance/pii_patterns.py:368-388 | resolving again changes nothing |
| `Redaction.MoreSevereKept` | common/governance/pii_patterns.py:377-380 | of two findings on one span the more severe is kept |
| `Redaction.FirstFoundKept` | common/governance/pii_patterns.py:377-380 | of two equally severe findings on one span the one found first is kept |
| `Redaction.TokensDiffer` | common/governance/pii_patterns.py:391-402 | tokens are marked, and distinct categories have distinct tokens |
| `Redaction.ShorterCanWin` | common/governance/pii_patterns.py:368-375 | a case in which the shorter span is kept and most of the longer one stays unmasked |
| `Redaction.LongerOfTwoKeptIff` | common/governance/pii_patterns.py:368-375 | of two overlapping spans the longer is kept exactly if it starts no later |
| `Redaction.LongerKept` | common/governance/pii_patterns.py:368-375 | if no candidate reaches into a longer one that starts later, whatever is dropped overlaps a kept span at least as long |
| `Redaction.LongerKeptIff` | common/governance/pii_patterns.py:368-375 | the resolver keeps the longer span, whichever of the candidates occur, exactly if none reaches into a longer one that starts later |
| `Redaction.Mask` | common/governance/pii_patterns.py:391-402 | right-to-left splicing of disjoint findings equals a left-to-right rebuild of gaps and tokens |
| `Redaction.SpliceIsRebuild` | common/governance/pii_patterns.py:391-402 | the same of the specification: text outside the spans survives, in order |
| `Redaction.ResolvedCanBeMasked` | common/governance/pii_patterns.py:341-365 | whatever the candidates, what a scan returns meets what masking assumes |
| `FencedBlock.FindFenceSpec` | plugin/src/educate.ts:574-580 | a fence is found exactly if some opener has a later closer; it runs from the first opener to the nearest closer |
| `FencedBlock.FindLegacyRange` | plugin/src/educate.ts:488-553 | the index loops compute the search that the lemmas are about |
| `FencedBlock.LegacyExact` | plugin/src/educate.ts:505-553 | the range found is exactly that of the first matching heading's section, cut from the rule above it, if it mentions the token |
| `FencedBlock.LegacyIsWholeLines` | plugin/src/educate.ts:531-540 | a legacy range starts at a line boundary and ends at one or at the end of the file |
| `FencedBlock.LinesAreTheText` | plugin/src/educate.ts:493-503 | the lines are the text between newlines, each found at its offset |
| `FencedBlock.MentionsText` | plugin/src/educate.ts:542-551 | the token is found wherever it stands, in any mix of case |
| `BlockSplice.KeepsTheRest` | plugin/src/educate.ts:561-646 | a splice changes nothing outside one fence, one legacy section, or the end of the file, where the shortest separator makes a blank line; it writes opener, text and closer on lines of their own |
| `BlockSplice.FoundWithItsText` | plugin/src/educate.ts:568-580 | what a splice wrote is what the next search finds: one fence of its version around exactly its text |
| `BlockSplice.SecondSplice` | plugin/src/educate.ts:574-610 | a second splice is a no-op exactly if the first left no opener of another version before its block |
| `BlockSplice.ClosedFilesSettleAtOnce` | plugin/src/educate.ts:561-646 | if every opener has a later closer, the second splice is a no-op |
| `BlockSplice.TwoSplicesSettle` | plugin/src/educate.ts:561-646 | every file is at a fixed point after two splices |
| `BlockSplice.ForcedRewriteIsStable` | plugin/src/educate.ts:580-610 | forcing a second rewrite of a fenced file reproduces it |
| `BlockSplice.UpgradesCompose` | plugin/src/educate.ts:561-646 | upgrading through an intermediate version gives what upgrading directly gives |
| `BlockSplice.DanglingOpenerSwallowsText` | plugin/src/educate.ts:574-610 | a file in which the second splice replaces user text together with a dangling opener |
| `Recency.NewestIff` | common/embedding/_registry.py:38-52 | an element is among the newest exactly if it was used and fewer others have been used since |
| `Recency.RecentIsByLastUse` | common/embedding/_registry.py:38-52 | the recency order is the order of last use |
| `ProviderCache.HistoryKeeps` | common/embedding/_registry.py:99-130 | after any history of requests the cache order is that of the 256 most recently used keys of valid requests |
| `ProviderCache.CachedIff` | common/embedding/_registry.py:53-130 | a key is cached exactly if a valid request used it and fewer than 256 other keys have been used since |
| `ProviderCache.HitsNeedNoValidation` | common/embedding/_registry.py:254-339 | skipping validation on a hit is invisible: every request fails exactly as validating it from scratch would, and otherwise gets a provider of its own configuration |
| `ProviderCache.ServedIff` | common/embedding/_registry.py:208-339 | served are exactly hosted OpenAI with dimensions or another endpoint without, truncating to 1024 or not at all; otherwise which problem is reported |
| `ProviderCache.ServedItsOwn` | common/embedding/_registry.py:254-266 | a served request gets a provider of exactly its own configuration |
| `ProviderCache.HitsReuse` | common/embedding/_registry.py:99-113 | a cached configuration is served by the provider in the cache, any other valid one by exactly one new provider |
| `ProviderCache.NothingClosedOutsideLoop` | common/embedding/_registry.py:123-129 | without a running event loop no close is ever scheduled |
| `ProviderCache.BuiltOnceKeptOnce` | common/embedding/_registry.py:104-129 | every provider built is cached or scheduled for close exactly once; only without a running loop can it instead be dropped |
| `ProviderCache.ServedIsOpen` | common/embedding/_registry.py:99-130 | a provider handed out is the newest in the cache and not scheduled for close |
| `ProviderCache.Registry.GetOrCreateProvider` | common/embedding/_registry.py:91-130 | the new cache and the provider are those of the specification |
| `ProviderCache.Registry.GetProvider` | common/embedding/_registry.py:254-339 | the new cache and the outcome are those of the specification |
| `SettingsMerge.DeepMerge` | common/organization_settings_merge.py:15-28 | the loop computes the recursive merge |
| `SettingsMerge.DiffSettings` | common/organization_settings_merge.py:31-50 | the loop computes the recursive diff under its prefix |
| `SettingsMerge.MergedLeaves` | common/organization_settings_merge.py:15-28 | the leaves of a merge are those of the update and the old ones whose path the update does not meet, with their values |
| `SettingsMerge.MergedPaths` | common/organization_settings_merge.py:15-28 | the paths of a merge are those of the update and the old ones the update does not meet, empty dictionaries included |
| `SettingsMerge.MergeIdempotent` | common/organization_settings_merge.py:15-28 | applying an update twice is applying it once |
| `SettingsMerge.DiffExact` | common/organization_settings_merge.py:31-50 | the diff has an entry at exactly the leaves of the update that differ from the old value, with both values |
| `SettingsMerge.DiffOfMerge` | common/organization_settings_merge.py:15-50 | diffing against the merged settings equals diffing against the update |
| `SettingsMerge.EntriesTellTheChange` | common/organization_settings_merge.py:15-50 | each entry holds the old and the merged value |
| `SettingsMerge.UnrecordedLeavesKeepTheirValue` | common/organization_settings_merge.py:15-50 | a leaf of the merged settings is unrecorded exactly if it kept its old value, absent counting as null |
| `SettingsMerge.UnchangedIff` | common/organization_settings_merge.py:15-50 | an update changes nothing exactly if its diff is empty and it puts no dictionary where there was none and no null where there was nothing |
| `SettingsMerge.EmptyDictionaryErasesSilently` | common/organization_settings_merge.py:42-47 | an empty dictionary over a value discards it with an empty diff |
| `SettingsMerge.FlatKeysAreFaithful` | common/organization_settings_merge.py:40-47 | as long as no key holds a dot, two paths never share a flat key |
| `HttpRetry.WithRetry` | common/http_retry.py:98-199 | ends at the first outcome not retryable at its index, within the larger budget; makes no call exactly if both budgets are below 1 |
| `HttpRetry.StopsOnce` | common/http_retry.py:135-195 | the stopping attempt exists and is unique for every outcome stream |
| `HttpRetry.DefaultPolicy` | common/http_retry.py:26-30 | under the policy for idempotent calls there are up to three attempts, another following exactly after a transient failure or a 502, 503 or 504 |
| `HttpRetry.ConnectBudgetIsUsed` | common/http_retry.py:128-144 | with a separate connection budget, all its attempts are made as long as connecting fails |
| `HttpRetry.ExtraAttemptsAfterConnectFailures` | common/http_retry.py:118-127 | attempts beyond the ordinary budget follow connection failures only |
| `HttpRetry.LoadIsBounded` | common/http_retry.py:118-127 | the server sees at most the ordinary budget of requests, however large the connection budget |
| `HttpRetry.WithConnectPhaseRetry` | common/http_retry.py:202-221 | nothing is sent on any attempt before the last, so the request is transmitted at most once |
| `TokenBudget.TrimSpec` | plugin/src/context-engine.ts:469-478 | a trimmed text is a prefix within the budget, whole exactly if it fits, else cut before the last newline past the middle, or at the limit if there is none |
| `TokenBudget.PromiseKeptIff` | plugin/src/context-engine.ts:927-1013 | a budget bounds every prompt's estimate (or the static section's does) exactly if its fraction is below a quarter of a token |
| `TokenBudget.StaysWithinBudget` | plugin/src/context-engine.ts:927-1013 | for every budget, the estimate is at most the budget rounded up, or that of the static section alone |
| `TokenBudget.WholeBudgets` | plugin/src/context-engine.ts:927-1013 | in particular, for a whole budget the estimate is at most the larger of the budget and the static section's |
| `TokenBudget.KeptWholeIff` | plugin/src/context-engine.ts:927-1013 | the recalled block is kept whole exactly if it fits beside the larger of a fifth of the budget and the static section |
| `TokenBudget.StaticIsNeverCut` | plugin/src/context-engine.ts:1004-1013 | only the recalled block is cut, and without a budget nothing is |
| `TokenBudget.FractionalBudgetExceeded` | plugin/src/context-engine.ts:465-478 | a fractional budget that the estimate exceeds |

## Left out

- Broadcast topics: the await that creates a broadcast subscription comes after the last generation check, so start/stop properties are stated for buses without such topics.
- Overlapping `start()` calls and overlapping `stop()` calls: outside what the bus's guards cover.
- Failures of an SDK close call itself, which the bus logs and counts; the model's close calls run.
- Interleavings between the handlers of one dispatch: their calls are recorded handler by handler.
- Batches are pulled one after another; flow control, pull timeouts and the backoff delays are not modelled.
- Interview events are a number, a body and a byte width: field truncation, the byte-level JSON syntax and numbers beyond 2^53 are not modelled.
- An append that fails part-way while the process lives (a full disk) is excluded by the fault assumptions.
- Digits and letters of the checksums are ASCII, and case is folded on ASCII only: other Unicode digits and case mappings are not modelled.
- The PII patterns, the regular-expression engine, the per-category filter and the entropy test: candidates are arbitrary non-empty spans.
- Fence markers are tokens; markers written with a line break inside, blocks whose own text holds a marker, the version hash and the one-shot backup file are not modelled.
- Settings values other than dictionaries and null are compared as texts: Python's equality between numbers and booleans is not modelled.
- The provider cache is modelled for requests with an API key; key lookup, platform fallback, the local and fake providers, environment parsing and concurrent misses across threads are not.
- Retry delays and jitter; exceptions are told apart by class only.
- The context engine's recall gating, recall cache, session buffers and trigger keywords: lookups and size caps that no other property here depends on.
- Embedding and LLM provider internals, database models, scripts, prompts and log routing.
