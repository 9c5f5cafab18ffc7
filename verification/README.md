# Cybersin: verified model of the tool gateway, session store, routing and prompt compiler

This project models the parts of Cybersin whose promises range over every run, and proves those promises.
The code it follows is Rust; the model is written in its terms: classes whose methods update their fields where the
Rust code updates tables and vectors, functions and datatypes where it computes values. `dafny verify dfyconfig.toml`
checks everything.

**The idempotent tool gateway** (`Ledger`, `GatewayMachine`, `GatewayOwnership`, `GatewayHistory`, `GatewayRuns`,
`GatewayKeys`, `GatewayFlags`, `GatewaySessions`, `GatewayScenario`, `GatewayOverlap`, `ToolGateway`). Any number of tasks run `call`,
`wait_for_resolution`, `approve`, `deny`, `dlq_retry` and `dlq_drop` against one table of calls. `GatewayMachine` gives each task a program counter and makes every awaited
storage operation, policy decision and executor call one step; the steps of different tasks interleave in any way. The one
hypothesis is that operator actions on the same call id do not overlap; `GatewayOverlap.OverlappingApprovalsBothExecute`
shows it cannot be dropped. The class `Gateway.ToolGateway` is the gateway's code, with other tasks running at every await.
Its state is always one the machine can reach (`Valid`), so the theorems over all runs hold of it. Each awaited statement is
a method that says exactly what it does to the table and that it is the next step of its task; each operation enters by
`Arrive`, is made of those statements, and promises that the machine's actions lead from the state it started in to the one
it ends in (`Leads`), with what became of its row.

**The event-sourced session store** (`StoreModel`, `StoreProofs`, `StateWrites`, `SessionLife`, `Mailboxes`, `PgMailbox`, `PgAppend`, `Blackboard`,
`SessionStore`, `SessionStatus`, `Orchestration`, `WorkerExits`, `OrchestrationSteps`). The append-only log, the materialized table,
checkpoints, compare-and-set versions, signals as mailboxes, and worker budgets. `StoreProofs`, `Mailboxes` and `Orchestration` speak of runs of operations that do not
overlap, because `set_state`, `cas_state`, `spawn` and `charge` span several statements; `Blackboard`, `PgMailbox`, `PgAppend`
and `OrchestrationSteps` are step machines under full interleaving, with transactions that may abort in the two for Postgres.
`OrchestrationSteps.ApartIsAtomic` carries what `Orchestration` proves over to interleaved runs in which operations on one
parent's books and on one worker's record are kept apart.

**Routing** (`Router`, `RouterProofs`, `RouterPrices`, `RouteCompiler`, `RouteCache`, `JsonText`, `RouteExecution`,
`RouteExecutionProofs`, `RouteOrder`, `RouteSpans`, `RouteExhaustion`, `RouteExecutor`). The compiler turns prompts, pinned models and prices into a
plan of cache, cascade and fallbacks; the executor runs a plan with retries, an allowlist and a degrade switch. The models, the judge and
the jitter are scripts that answer the n-th question; nothing is assumed of what they answer. Costs, confidences and
similarities are reals, delays are nanoseconds.

**The prompt compiler** (`Text`, `Ordering`, `Include`, `IncludeDocument`, `TypeGrammar`, `TypeSpelling`,
`Sorting`, `Passes`, `Pipeline`, `PassFacts`). Include expansion with its cycle check, the input-type grammar, and the pass pipeline with compression pinned by a lockfile.

## What the proofs turned up

- Call ids are spelled `tool:key`, so calls of two tools can share an id, exactly when one tool's name followed by a colon
  begins the other's (`Ledger.ToolsCollideIff`). The second insert then violates the primary key, which the
  `ON CONFLICT (tool, idem_key)` clause does not cover, and fails (`Ledger.ClashesIff`, `Ledger.ColonInToolNameClashes`).
- `append_event` is public, so an event of kind `state.set` can be appended without writing the table; replaying the log
  then gives a state the table does not hold (`StoreProofs.AppendCanPartLogAndTable`). Log and table stay in step exactly as
  long as nobody does that (`StoreProofs.RefinedThroughoutIff`). The direct appends in this repository use other kinds.
- After a call has succeeded, one kind of reply about it is not its value: a task that parked the call and has not yet
  returned still answers `Parked`. `GatewayHistory.ReplayStability` says exactly when.
- Calls without a key that overlap in one session can count the same number and be filed under one key; the second then
  reads as a replay of the first (`GatewayKeys.OverlappingUnkeyedCallsReplay`), as the source's own comment concedes. If they
  do not overlap and nobody supplies a key of that form, each is new (`GatewayKeys.UnkeyedCallsAreNew`).
- A drain that meets a signal that is not a mail fails, and the mails it had already taken are lost with it
  (`SessionStore.Postman.Drain` states what is consumed).
- Registering a parent a second time can put its ceiling below what is already allocated. The bound holds throughout a run
  exactly when no registration does so (`Orchestration.CeilingHoldsIff`, `Orchestration.ReRegisteringBreaksCeiling`). A
  negative ceiling counts as zero.
- Two overlapping compare-and-sets can reach the event log in the opposite order, so a replay would end with the older
  value (`Blackboard.OverlappingSwapsLogOutOfOrder`). The log follows the writes exactly when no client logs while the
  writer of an earlier value has yet to (`Blackboard.LogFollowsWritesIff`).
- `spawn` and `charge` do not keep themselves apart. Two spawns of one parent that both read the log before either writes
  to it allocate more than the ceiling, and two charges of one worker that both read its record are both accepted, while the
  record keeps only one (`OrchestrationSteps.OverlappingSpawnsExceedCeiling`, `OrchestrationSteps.OverlappingChargesOverspend`).
- A call sets the flag on its row before it suspends its session. If an operator decides on the call in between, the session
  ends suspended with no parked call left to decide (`GatewaySessions.SuspendedTooLate`). Every suspended session can be
  released throughout a run exactly when no task suspends one that late (`GatewaySessions.ReleasableThroughoutIff`).
- The budget pass puts every section into every plan, and `lint` warns of the sections that all plans evict: after the
  budget pass, with any target at all, it warns that every section never reaches a model
  (`PassFacts.LintWarnsOfEverySection`).
- Plain `Exhausted` does not mean that no call failed: an error that a retry overcomes is forgotten
  (`RouteExhaustion.RetriedErrorsAreForgotten`). Whatever the models answer, a failed execution reports plain exhaustion if and
  only if no call erred, exactly unless the policy allows a retry, some allowed candidate is tried, every one of them has a
  minimum, and no consulted cache holds an entry it serves unjudged (`RouteExhaustion.ExhaustionTellsIff`). All of that is
  known before the execution.

## Model

| member | source | states |
|---|---|---|
| GatewayOwnership.MutualExclusion | crates/cybersin-gateway/src/gateway.rs:95-184 | in every reachable state at most one task is in the executor for a (tool, key), and meanwhile the row is pending and not parked |
| GatewayOwnership.OneRowPerKey | crates/cybersin-runtime/src/storage.rs:1117-1157 | no run creates two rows for one (tool, key) |
| GatewayOwnership.PendingRowsHaveExactlyOneOwner | crates/cybersin-gateway/src/gateway.rs:295-326 | a pending, unparked row is in the hands of exactly one task, so waiters never wait on a row nobody will move |
| GatewayOwnership.RowsKeepShape | crates/cybersin-runtime/src/storage.rs:1178-1259 | over every run, succeeded iff a result is present, failed iff reason and retriable are, parked implies pending, dropped implies failed |
| GatewayOwnership.RunKeepsOwned | crates/cybersin-gateway/src/gateway.rs:332-428 | every run, any interleaving of calls and serialized operator actions, keeps the ownership invariant behind the theorems above |
| GatewayOwnership.StepClaims | crates/cybersin-runtime/src/storage.rs:1117-1157 | a task that comes to own a call in a step takes it from nobody: no other task owns it |
| GatewayOwnership.ClaimingPcs | crates/cybersin-gateway/src/gateway.rs:371-428 | a task comes to own a call only by an insert that found nothing, or by an operator's check of a parked or a dead row |
| GatewayRuns.OthersLeaveMine | crates/cybersin-gateway/src/gateway.rs:251-289 | whatever the others do, a task stays where it is, and the row and the invocations of a call in its charge are untouched |
| GatewayHistory.AttemptAccounting | crates/cybersin-gateway/src/gateway.rs:251-289 | a row's attempts equal its executor invocations, one ahead exactly while a task has counted and not yet invoked, and never exceed the class's budget times one plus the manual retries |
| GatewayHistory.CriticalRunsAtMostOnce | crates/cybersin-gateway/src/retry.rs:56-68 | a critical call nobody retried by hand is invoked at most once, parked and approved or not |
| GatewayHistory.OneWinner | crates/cybersin-gateway/src/gateway.rs:132-138 | exactly one insert per key succeeds, and a caller that lost never invokes the executor for any call |
| GatewayHistory.ReplayStability | crates/cybersin-gateway/src/gateway.rs:225-244 | once a call has succeeded with v, every later reply about it is v, except from one that parked it and had not returned, which says Parked |
| GatewayHistory.FailureStability | crates/cybersin-gateway/src/gateway.rs:396-428 | a failed outcome stays as it is in every continuation without a manual retry of it |
| GatewayHistory.OkRepliesAgree | crates/cybersin-gateway/src/gateway.rs:295-326 | any two successful replies about one call carry the same value, and the row still holds it |
| GatewayFlags.FailuresTellWhetherRetriable | crates/cybersin-gateway/src/gateway.rs:225-289 | in every reachable state the reply about a failed call tells its reason, and that it is retriable exactly if it was attempted and is not critical |
| GatewayFlags.OutcomeTellsRow | crates/cybersin-gateway/src/gateway.rs:225-244 | a reply from the table tells the row's state and is told by it, each of the four kinds, and none comes of a pending, unparked row |
| GatewayFlags.DropIsFinal | crates/cybersin-gateway/src/gateway.rs:412-428 | dropping only marks a dead call, and whatever anybody does after, its row never changes again |
| GatewayFlags.CriticalFailuresAreNotRetriable | crates/cybersin-gateway/src/gateway.rs:251-289 | in every reachable state a failed critical call, however it failed, is reported as not retriable |
| GatewayKeys.UnkeyedCallsAreNew | crates/cybersin-gateway/src/gateway.rs:186-209 | if a session's calls without a key do not overlap between counting and inserting and nobody supplies a key of that form, such a call never gets another's outcome: its insert wins, unless another tool's row spells its id, and then fails |
| GatewayKeys.KeylessCallsAreNumbered | crates/cybersin-gateway/src/gateway.rs:186-209 | if no call of a session brings a key and they do not overlap, their keys are session:1, session:2 and so on, one for each call made |
| GatewayKeys.OverlappingUnkeyedCallsReplay | crates/cybersin-gateway/src/gateway.rs:186-209 | two that both count before either inserts are given one key, and the second loses its insert |
| Ledger.ToolsCollideIff | crates/cybersin-gateway/src/gateway.rs:56-58 | calls of one tool share an id exactly when they share the key; calls of two tools can share one exactly when one name followed by a colon begins the other |
| Ledger.ClashesIff | crates/cybersin-runtime/src/storage.rs:1117-1157 | an insert violates the primary key exactly when another tool's row spells the same id, which takes such a pair of names |
| Ledger.ColonInToolNameClashes | crates/cybersin-runtime/src/storage.rs:1117-1157 | two different pairs share an id through a colon, and the second insert is refused |
| Ledger.InsertCounts | crates/cybersin-runtime/src/storage.rs:1271-1277 | the count of a session's calls starts at nothing, and a winning insert adds one to its session's and to no other |
| Ledger.StatementsKeepKeys | crates/cybersin-runtime/src/storage.rs:1167-1259 | no other statement changes a key or a session, and so a count |
| Ledger.DerivedKeysDiffer | crates/cybersin-gateway/src/gateway.rs:204-209 | a derived key tells its session and its number |
| GatewayOverlap.OverlappingApprovalsBothExecute | crates/cybersin-gateway/src/gateway.rs:332-344 | from the empty table, with nothing given up but the separation of operators, two approvals of one parked call reach the executor together |
| GatewayOverlap.ReachableIsLoose | crates/cybersin-gateway/src/gateway.rs:332-428 | every state reachable with operators kept apart is reachable without |
| Gateway.ToolGateway.AnswersAgree | crates/cybersin-gateway/src/gateway.rs:225-244 | in any state of the object, two values replied for one call are the same, and the table still holds it |
| Gateway.ToolGateway.NeverTwiceAtOnce | crates/cybersin-gateway/src/gateway.rs:95-184 | in any state of the object at most one task is in the executor for a call, whose row is pending and not parked |
| Gateway.ToolGateway.AttemptsAreCounted | crates/cybersin-gateway/src/gateway.rs:251-289 | in any state of the object a row's attempts are its invocations, one ahead while one is about to start, and within budget |
| Gateway.ToolGateway.Arrive | crates/cybersin-gateway/src/gateway.rs:95-102 | a task enters with a new id, an operator only if none is at work on the call; the world moves by that one action |
| Gateway.ToolGateway.Call | crates/cybersin-gateway/src/gateway.rs:95-184 | from any state, by actions of the machine only: refused arguments change nothing; a winner is in the history as the inserter and ends resolved, its row being the inserted one after at most the class's attempts with the outcome replied, or parked; a loser is in the history as such and replies what the row then stands for, or waits |
| Gateway.ToolGateway.CallWithKey | crates/cybersin-gateway/src/gateway.rs:110-184 | the same from the insert on; which of the three happens is what the table said then |
| Gateway.ToolGateway.DeriveKey | crates/cybersin-gateway/src/gateway.rs:186-209 | the key is the session and one more than its calls in the table at that moment; only the program counter moves |
| Gateway.ToolGateway.BeginToolCall | crates/cybersin-runtime/src/storage.rs:1117-1157 | one machine step: the table gains exactly the new row, or is unchanged and says whether key or id is taken; the history gains the insert or its loss |
| Gateway.ToolGateway.Replay | crates/cybersin-gateway/src/gateway.rs:225-244 | one step that only reads: the reply is the outcome the row stands for, and is in the history |
| Gateway.ToolGateway.Poll | crates/cybersin-gateway/src/gateway.rs:295-326 | one step that only reads: the outcome the row stands for, none yet, or not found |
| Gateway.ToolGateway.OutcomeForExistingRow | crates/cybersin-gateway/src/gateway.rs:225-244 | the reply is the outcome the row stands for when it is read, or the wait goes on |
| Gateway.ToolGateway.PollFor | crates/cybersin-gateway/src/gateway.rs:295-326 | each poll reads once; the reply is what the row stands for at the last of them, or still waiting |
| Gateway.ToolGateway.WaitForResolution | crates/cybersin-gateway/src/gateway.rs:295-326 | the same for a waiter that did not make the call |
| Gateway.ToolGateway.Admit | crates/cybersin-gateway/src/gateway.rs:140-184 | hooks decide in order and all before the deciding one allow: a rejection fails the row as replied, a demand for approval parks, and only if every hook allows does the executor run, with the row ending as replied |
| Gateway.ToolGateway.Evaluate | crates/cybersin-gateway/src/gateway.rs:149-151 | one step that touches neither table nor history; the decision chooses the next step |
| Gateway.ToolGateway.RejectCall | crates/cybersin-gateway/src/gateway.rs:152-161 | the row fails with that reason, not retriable, nothing else in the table moves, and the reply is in the history |
| Gateway.ToolGateway.SetParked | crates/cybersin-gateway/src/gateway.rs:162-169 | the row awaits approval under its own id, nothing else moves |
| Gateway.ToolGateway.SuspendSession | crates/cybersin-gateway/src/gateway.rs:170-177 | the session awaits approval, the table is unchanged, and the reply Parked is in the history |
| Gateway.ToolGateway.ExecuteAndResolve | crates/cybersin-gateway/src/gateway.rs:251-289 | the row ends as it began but for the invocations made, at least one and at most the class allows, and the outcome replied; the history has as many invocations more; a failure used the whole budget and is retriable unless critical |
| Gateway.ToolGateway.Attempt | crates/cybersin-gateway/src/gateway.rs:261-272 | one attempt is counted and one invocation made, whatever the others do, and its answer leads to saving, retrying or failing |
| Gateway.ToolGateway.IncrementAttempt | crates/cybersin-runtime/src/storage.rs:1167-1176 | exactly that row's attempts grow by one |
| Gateway.ToolGateway.SaveSucceeded | crates/cybersin-runtime/src/storage.rs:1178-1190 | exactly that row succeeds with the value replied |
| Gateway.ToolGateway.SaveFailed | crates/cybersin-runtime/src/storage.rs:1192-1209 | exactly that row fails with the reason and the flag replied |
| Gateway.ToolGateway.ParkedRow | crates/cybersin-gateway/src/gateway.rs:371-381 | only reads: the job of a pending, parked row, not found, or not awaiting approval |
| Gateway.ToolGateway.ClearApproval | crates/cybersin-runtime/src/storage.rs:1228-1237 | exactly that row stops awaiting approval, its approval id kept |
| Gateway.ToolGateway.Approve | crates/cybersin-gateway/src/gateway.rs:332-344 | which refusal follows from the table at the start; otherwise the parked row ends unparked, with the invocations made and the outcome replied |
| Gateway.ToolGateway.FailDenied | crates/cybersin-gateway/src/gateway.rs:353-360 | exactly that row fails as denied and not retriable |
| Gateway.ToolGateway.Deny | crates/cybersin-gateway/src/gateway.rs:353-369 | which refusal follows from the table at the start; otherwise the parked row ends unparked and denied, never executed |
| Gateway.ToolGateway.DeadLetterRow | crates/cybersin-gateway/src/gateway.rs:418-428 | only reads: the job of a failed, undropped row, not found, or not a dead letter |
| Gateway.ToolGateway.ReopenCall | crates/cybersin-runtime/src/storage.rs:1239-1249 | exactly that row is pending again, without reason and flag; the retry is in the history |
| Gateway.ToolGateway.DlqRetry | crates/cybersin-gateway/src/gateway.rs:401-408 | which refusal follows from the table at the start; otherwise the dead row ends reopened, with the invocations made and the outcome replied |
| Gateway.ToolGateway.DropCall | crates/cybersin-runtime/src/storage.rs:1251-1259 | exactly that row is dropped |
| Gateway.ToolGateway.DlqDrop | crates/cybersin-gateway/src/gateway.rs:412-416 | which refusal follows from the table at the start; otherwise the row ends as it was but dropped |
| GatewaySessions.ReleasableThroughoutIff | crates/cybersin-gateway/src/gateway.rs:162-177 | throughout a run every suspended session has a parked call to decide or an operator about to set it running, exactly when no task suspends a session for a call unparked meanwhile with nothing else to release it; at rest there is then a parked call |
| GatewaySessions.SuspendedTooLate | crates/cybersin-gateway/src/gateway.rs:353-369 | a reachable state with everybody done, a session suspended and no parked call: it was denied between the flag and the status |
| StoreProofs.LogRefinesTable | crates/cybersin-runtime/src/storage.rs:798-839 | after any run of non-overlapping operations, direct appends included as long as they agree with the table, replaying a session's log gives exactly its keys and values |
| StoreProofs.RefinedThroughoutIff | crates/cybersin-runtime/src/storage.rs:752-773 | log and table stay in step at every point of a run exactly when no directly appended event tells a replay something the table does not hold |
| StoreProofs.AppendKeepsRefinedIff | crates/cybersin-runtime/src/storage.rs:752-773 | one direct append keeps them in step exactly when its event is no replayable state change or sets what the table already holds |
| StoreProofs.AppendCanPartLogAndTable | crates/cybersin-runtime/src/storage.rs:752-773 | a single direct append of a state change parts them |
| StoreProofs.CheckpointsArePrefixes | crates/cybersin-runtime/src/storage.rs:940-975 | in such a run every stored checkpoint is the replay of the events before its own, however the run goes on, and its event carries it |
| StoreProofs.RowsAreReplayIff | crates/cybersin-runtime/src/storage.rs:940-975 | the rows a checkpoint takes are the session's replay exactly when log and table are in step for that session |
| StoreProofs.CheckpointEventTellsRows | crates/cybersin-runtime/src/storage.rs:945-954 | the list in a checkpoint's event has a record for exactly the rows taken, each naming its row and carrying its value |
| StoreProofs.ResumeReturnsTable | crates/cybersin-runtime/src/supervisor.rs:59-121 | in such a run a resume, which reads only the log, hands back exactly the table's values |
| StoreProofs.ResumeEventTellsCheckpoint | crates/cybersin-runtime/src/supervisor.rs:104-119 | a resume's event keeps the caller's fields and names the pinned configuration and the latest checkpoint, or null |
| StoreProofs.QuietOpKeeps | crates/cybersin-runtime/src/supervisor.rs:84-132 | signals, migration, resume, kill, recorded values and appended events that are no state changes alter no session's replayed state and no row of the table |
| StoreProofs.CasAppliesIffUnwritten | crates/cybersin-runtime/src/storage.rs:872-931 | a compare-and-set expecting a version seen earlier applies exactly when nothing wrote the key since, blind writes included |
| StoreProofs.CreateAppliesIffUnwritten | crates/cybersin-runtime/src/storage.rs:880-905 | a creating compare-and-set applies exactly when the key was never written |
| StoreProofs.RunVersion | crates/cybersin-runtime/src/storage.rs:805-837 | over a run, a key's version strictly increases if it was written and its row is unchanged if not |
| StoreProofs.VersionsAndTypes | crates/cybersin-runtime/src/storage.rs:805-837 | a version lies between 1 and the log's length, and the type column names the stored value's type |
| StateWrites.SetStateIff | crates/cybersin-runtime/src/storage.rs:798-839 | a write is refused exactly when the key holds a value of another type, and then nothing changes; otherwise the key reads back the value, one event tells of it, and nothing else moves |
| StateWrites.CasStateIff | crates/cybersin-runtime/src/storage.rs:872-938 | it applies exactly when the key is absent or at the version expected; it then reads back under the next version, and otherwise the actual version is told and nothing changes |
| StateWrites.ReadsLastWrite | crates/cybersin-runtime/src/storage.rs:798-938 | after any run each key reads back the value of the last write that was accepted |
| SessionLife.ResumesIff | crates/cybersin-runtime/src/supervisor.rs:59-121 | after any run a session can be resumed with exactly the hash it was created with or last migrated to, the error telling unknown from mismatch; a refusal changes nothing, a resume sets it running, adds one event and touches nothing else |
| SessionLife.MigratedResumes | crates/cybersin-runtime/src/storage.rs:1035-1051 | a migration succeeds exactly when its bundle was ingested, and a known session can then be resumed with it |
| SessionLife.RunLives | crates/cybersin-runtime/src/supervisor.rs:59-132 | over any run a session exists, is pinned and has its status as creations, migrations, resumes and kills so far say |
| StoreProofs.RecordedOnce | crates/cybersin-runtime/src/supervisor.rs:134-160 | once a value was handed out under a key every later request gets that value and changes nothing |
| SessionStore.SqliteStorage.AppendEvent | crates/cybersin-runtime/src/storage.rs:752-773 | the log of that session grows by this event under the next number, nothing else changes |
| SessionStore.SqliteStorage.SetState | crates/cybersin-runtime/src/storage.rs:798-839 | table and log move together as the store model, about which the theorems are, says |
| SessionStore.SqliteStorage.CasState | crates/cybersin-runtime/src/storage.rs:872-938 | applied or stale with the actual version, and the new store, as the store model says |
| SessionStore.SqliteStorage.CreateCheckpoint | crates/cybersin-runtime/src/storage.rs:940-975 | the checkpoint stored and returned, and the event with the session's rows in order, are the store model's |
| SessionStore.SqliteStorage.TakeSignal | crates/cybersin-runtime/src/storage.rs:1010-1033 | the scan marks and returns the first undelivered signal of that name, as the store model says |
| SessionStore.SessionSupervisor.Resume | crates/cybersin-runtime/src/supervisor.rs:59-121 | the loop that fills a nested map computes, flattened, the replay of the log; the status and the event, told the configuration and the latest checkpoint, are the store model's |
| SessionStore.SessionSupervisor.Kill | crates/cybersin-runtime/src/supervisor.rs:123-132 | status and log move as the store model says |
| SessionStore.SessionSupervisor.RecordedValue | crates/cybersin-runtime/src/supervisor.rs:134-160 | the value handed out and the new store are the store model's |
| Mailboxes.FifoExactlyOnce | crates/cybersin-runtime/src/storage.rs:994-1033 | over any run, what was taken from a channel followed by what is pending is exactly what was sent on it, in order, and the table with its marks records both |
| Mailboxes.TakeFromFront | crates/cybersin-runtime/src/storage.rs:1010-1033 | a take removes the oldest pending message of its channel, or finds none pending |
| Mailboxes.DeliverElsewhere | crates/cybersin-runtime/src/storage.rs:1010-1033 | delivering on one channel leaves every other channel untouched |
| Mailboxes.MailboxesAreSeparate | crates/cybersin-runtime/src/orchestration.rs:176-208 | two senders share a mailbox only if they are the same |
| Mailboxes.MailRoundTrip | crates/cybersin-runtime/src/orchestration.rs:176-208 | a mail survives encoding and decoding |
| SessionStore.Postman.Send | crates/cybersin-runtime/src/orchestration.rs:176-194 | the mail is appended to the recipient's mailbox from that sender |
| SessionStore.Postman.Drain | crates/cybersin-runtime/src/orchestration.rs:196-208 | terminates; returns everything pending from that sender in order and leaves other channels alone; the store is that of as many takes, events included; on a malformed signal it fails, having consumed up to it |
| PgMailbox.TakenExactlyOnce | crates/cybersin-runtime/src/pg_storage.rs:574-603 | under any interleaving and any aborts no two takes return one message, and a message is delivered exactly when one take has it |
| PgMailbox.OvertakesOnlyHeldMessages | crates/cybersin-runtime/src/pg_storage.rs:574-603 | a take passes over an older undelivered message only while another take holds it |
| PgAppend.NumbersAreConsecutive | crates/cybersin-runtime/src/pg_storage.rs:307-334 | under any interleaving and any aborts the committed numbers are 1 to k in the order of the commits, each handed to exactly one append, whose event it numbers |
| PgAppend.CommitsAppend | crates/cybersin-runtime/src/pg_storage.rs:307-334 | what a transaction commits is what an append without interleaving would add at that moment, and no other step touches the committed log |
| Blackboard.VersionsAreConsecutive | crates/cybersin-runtime/src/storage.rs:882-924 | under any interleaving the applied swaps carry versions 1 to k, one winner each, and the cell is the last |
| Blackboard.NoLostUpdate | crates/cybersin-runtime/src/orchestration.rs:222-248 | every applied read-modify-swap was computed from the write just before it |
| Blackboard.CounterEndsRight | crates/cybersin-runtime/src/orchestration.rs:222-248 | clients that each add one end at the start plus the number of applied swaps |
| Blackboard.AppliedRecordIsNotOlder | crates/cybersin-runtime/src/storage.rs:933-937 | the record an applied swap reports may be newer than its own write, never older |
| Blackboard.LogFollowsWritesIff | crates/cybersin-runtime/src/storage.rs:925-932 | under any interleaving the log is at every point the first writes in order exactly when no client logs while the writer of an earlier value has yet to |
| Blackboard.OrderedLogEndsWithCell | crates/cybersin-runtime/src/storage.rs:925-937 | an ordered log that every writer has reached ends with the value of the cell |
| Blackboard.OverlappingSwapsLogOutOfOrder | crates/cybersin-runtime/src/storage.rs:926-931 | two overlapping swaps can log in the opposite order of their writes |
| Orchestration.BudgetConservation | crates/cybersin-runtime/src/orchestration.rs:99-174 | over runs of operations one at a time, for a parent registered at most once, allocations rebuilt from the log stay within ceiling and EPSILON, and all charges within ceiling and one EPSILON more per spawn, respawned ids included |
| Orchestration.CeilingHoldsIff | crates/cybersin-runtime/src/orchestration.rs:81-129 | the allocation bound holds at every point of a run exactly when no registration undercuts what is allocated |
| Orchestration.ChargesWithinAllocations | crates/cybersin-runtime/src/orchestration.rs:162-174 | over every run of operations one at a time the charges to a parent's workers stay within what the log allocates and one EPSILON per spawn |
| Orchestration.WorkerLimits | crates/cybersin-runtime/src/orchestration.rs:252-294 | over every run of operations one at a time restarts stay within their limit and spending within the allocation and EPSILON |
| Orchestration.ExitsNeverFail | crates/cybersin-runtime/src/orchestration.rs:252-294 | in every run a known worker has a session, so its exit is always recorded and told |
| Orchestration.ReRegisteringBreaksCeiling | crates/cybersin-runtime/src/orchestration.rs:81-97 | registering again with less breaks the bound |
| WorkerExits.CrashesRestartUpToLimit | crates/cybersin-runtime/src/orchestration.rs:252-294 | any number of crashes restart a worker up to its limit and no further, with its record, its session's status and every mail to its parent, and nothing else |
| WorkerExits.FailureIsFinal | crates/cybersin-runtime/src/orchestration.rs:282-290 | an end that is no crash fails worker and session for good and tells the parent why, however many restarts are left |
| WorkerExits.ParkingSuspends | crates/cybersin-runtime/src/orchestration.rs:296-309 | a parked approval suspends worker and session and tells the parent which |
| WorkerExits.RestartsAreCrashes | crates/cybersin-runtime/src/orchestration.rs:252-294 | over any run a worker's restarts are its crashes since it was last spawned, up to its limit |
| OrchestrationSteps.ApartIsAtomic | crates/cybersin-runtime/src/orchestration.rs:101-174 | whatever the interleaving of their statements, operations kept apart on one parent's books and one worker's record leave the tables of the same operations done one at a time |
| OrchestrationSteps.ApartConservesBudgets | crates/cybersin-runtime/src/orchestration.rs:99-174 | so allocations and charges stay within the ceiling and its EPSILONs in every such interleaved run |
| OrchestrationSteps.ApartKeepsWorkerLimits | crates/cybersin-runtime/src/orchestration.rs:252-309 | and every worker within its restarts and its allocation, also while it is being spawned |
| OrchestrationSteps.ApartAnswersAlike | crates/cybersin-runtime/src/orchestration.rs:101-174 | and each operation is answered as the atomic one would be |
| OrchestrationSteps.OverlappingSpawnsExceedCeiling | crates/cybersin-runtime/src/orchestration.rs:109-129 | two spawns that read the log before either writes to it allocate more than the ceiling |
| OrchestrationSteps.OverlappingChargesOverspend | crates/cybersin-runtime/src/orchestration.rs:162-174 | two charges that read the record before either saves it are both accepted and one is lost from the record |
| Orchestration.Orchestrator.RegisterParent | crates/cybersin-runtime/src/orchestration.rs:81-97 | the ceiling is set, over an earlier one if there was; the session exists afterwards and keeps its status if it did before; nothing else moves |
| Orchestration.Orchestrator.SpawnWorker | crates/cybersin-runtime/src/orchestration.rs:101-160 | summing the logged allocations decides affordability; a refusal changes nothing, and otherwise the worker, its session and the log follow |
| Orchestration.Orchestrator.ChargeWorker | crates/cybersin-runtime/src/orchestration.rs:162-174 | a charge is accepted exactly when it fits the worker's allocation, and only that worker's spending moves |
| Orchestration.Orchestrator.ExitWorker | crates/cybersin-runtime/src/orchestration.rs:252-294 | only a crash within the limit restarts; the session's status, the mail to the parent and the worker's record follow, or nothing changes if there is no session to resume |
| Orchestration.Orchestrator.ApprovalParked | crates/cybersin-runtime/src/orchestration.rs:296-309 | the worker and its session await approval and the parent is told which |
| Router.LockAcceptedIff | crates/cybersin-router/src/lib.rs:527-556 | a lock is accepted exactly when models and prices name the same things, providers are filled in and prices are not negative |
| Router.LockErrorIsLeast | crates/cybersin-router/src/lib.rs:527-556 | the error reported is the fault of the least unsound model, or with none the least price without a model |
| RouterProofs.SettingsAcceptedIff | crates/cybersin-router/src/lib.rs:489-526 | settings are accepted exactly when a judge is named, a surcharge is not negative, the lock is sound and 0 <= low <= high <= threshold <= 1 |
| Router.PricedModelsFacts | crates/cybersin-router/src/lib.rs:429-445 | the priced models are exactly the pins with a price, once each, sorted by cost and then name |
| RouterProofs.CascadeIsOptimal | crates/cybersin-router/src/lib.rs:327-361 | each step runs the (cost, name)-least model of its tier, compared before the surcharge; qualities strictly increase and end at the prompt's own; no tier with a model is skipped |
| RouterPrices.CostIsByTokens | crates/cybersin-router/src/lib.rs:86-89 | the cost adds up over workloads, and a thousand tokens of one kind cost the price pinned for that kind |
| RouterPrices.CompiledStepsAreCheapest | crates/cybersin-router/src/lib.rs:327-352 | by lock and workload alone, no pinned model of a compiled step's tier would cost less, one no dearer by either price is passed over only on a tie, the estimate is that cost and any surcharge, and steps before the last ask for higher scores |
| RouterProofs.RoutableIff | crates/cybersin-router/src/lib.rs:300-389 | exactly which prompts can be routed: no grounding above their tier, a model at it, a surcharge where needed, priced fallbacks |
| RouterProofs.FallbackFacts | crates/cybersin-router/src/lib.rs:363-389 | fallbacks are exactly what the cascade's pins declare beyond the cascade, each once, all of them priced |
| RouterProofs.CachePlansAreOrdered | crates/cybersin-router/src/lib.rs:257-266 | every compiled cache decision has 0 <= low <= high <= threshold <= 1, observed values standing in for declared ones |
| RouterProofs.PlanNamesDistinct | crates/cybersin-router/src/lib.rs:363-389 | no model name occurs twice in a plan, cascade and fallbacks together |
| RouterProofs.CandidatesAreExact | crates/cybersin-router/src/lib.rs:391-410 | the candidate list is a sorted permutation of the priced models and the two pseudo models, flagging exactly the cascade's models |
| RouterProofs.CompilesIff | crates/cybersin-router/src/lib.rs:249-290 | compilation succeeds exactly on valid inputs with distinct prompt names that can each be routed |
| RouterProofs.PromptOrderDoesNotMatter | crates/cybersin-router/src/lib.rs:249-290 | on success any reordering of the prompts compiles to the same artifact |
| RouterProofs.CompiledRoutesAreSound | crates/cybersin-router/src/lib.rs:249-290 | every route of a compiled artifact belongs to a prompt, has three parts and repeats no model name |
| RouteCompiler.BuildSteps | crates/cybersin-router/src/lib.rs:327-352 | the loop over tiers, restricted to eligible models first, builds the specified cascade or its first error |
| RouteCompiler.Unseen | crates/cybersin-router/src/lib.rs:374-378 | filtering through a growing set of seen names keeps first occurrences only |
| RouteCompiler.CompilePrompt | crates/cybersin-router/src/lib.rs:300-427 | the plan or the first error of the specification |
| RouteCompiler.Compile | crates/cybersin-router/src/lib.rs:249-290 | the loop that inserts routes into a map yields the specified artifact, or the first prompt's error |
| JsonText.TextIsInjective | crates/cybersin-runtime/src/route_executor.rs:1177-1183 | two well-formed documents print alike exactly when they are equal |
| JsonText.TextPrintable | crates/cybersin-runtime/src/route_executor.rs:1177-1183 | printed JSON holds no raw control character, in particular no NUL |
| RouteCache.CanonAgreesIff | crates/cybersin-runtime/src/route_executor.rs:1185-1197 | canonical forms agree exactly for documents equal up to member order at every depth |
| RouteCache.KeysAgreeIff | crates/cybersin-runtime/src/route_executor.rs:1177-1183 | two requests share a cache key exactly when the prompt is the same and the inputs agree up to member order |
| RouteCache.CacheArtifact.Upsert | crates/cybersin-runtime/src/route_executor.rs:37-48 | the first entry for the prompt and hash is replaced, or the entry appended; it answers its own lookup and every other lookup is as before, duplicates included |
| RouteCache.CacheArtifact.UpsertAll | crates/cybersin-runtime/src/route_executor.rs:497-503 | after any upserts each lookup gives the last entry stored under it, or what was there first |
| RouteCache.LastResponseIsFound | crates/cybersin-runtime/src/route_executor.rs:888-905 | after any upserts a lookup finds the last response stored for the same prompt and the same inputs up to member order |
| RouteExecution.DelayIsBounded | crates/cybersin-runtime/src/route_executor.rs:333-354 | only transient errors are retried, never after more than the maximum delay; a requested delay is kept up to it; jitter never lengthens a backoff |
| RouteExecution.DelaysDouble | crates/cybersin-runtime/src/route_executor.rs:333-354 | delays start at the base in whole milliseconds, double up to the thirty-second retry within the maximum, and jitter scales them |
| RouteExecution.NearestIsLastClosest | crates/cybersin-runtime/src/route_executor.rs:908-912 | the entry considered by similarity is this prompt's closest, the last of equals, and there is none only if none is comparable |
| RouteExecutionProofs.RetryStopsAtFirst | crates/cybersin-runtime/src/route_executor.rs:770-828 | retrying stops at the first success or lasting error or at the last attempt; sleeps are bounded singly and in sum |
| RouteExecutionProofs.ItemIsWellBehaved | crates/cybersin-runtime/src/route_executor.rs:1033-1037 | a candidate calls only its own model, at most the attempts allowed, and leaves exactly one span whose retries are its calls less one |
| RouteExecutionProofs.AcceptedIff | crates/cybersin-runtime/src/route_executor.rs:577-672 | a candidate is accepted exactly when its last answer is a success at its minimum, and fails exactly when that answer is an error |
| RouteExecutionProofs.CostIsObservedOrEstimated | crates/cybersin-runtime/src/route_executor.rs:1091-1096 | the recorded cost is the provider's own if it reports one, otherwise the plan's estimate |
| RouteExecutionProofs.CacheHitsMayServe | crates/cybersin-runtime/src/route_executor.rs:851-989 | a served response is that of an entry stored for these inputs, close enough, or in the band and judged good; nothing is called, and an exact entry is served unjudged |
| RouteExecutionProofs.CacheMissesAreFar | crates/cybersin-runtime/src/route_executor.rs:888-988 | a consulted cache that misses holds no entry for these inputs and none as close as the threshold |
| RouteSpans.CacheServesIff | crates/cybersin-runtime/src/route_executor.rs:851-989 | the cache serves exactly what is stored for these inputs, or else the closest entry if it reaches the threshold or lies in the band, ends included, and the judge accepts it; the judge is asked exactly for such an entry |
| RouteSpans.CacheSpansTell | crates/cybersin-runtime/src/route_executor.rs:851-989 | its spans say whether it served, which judge it asked and how close the deciding entry was |
| RouteSpans.ModelSpansTell | crates/cybersin-runtime/src/route_executor.rs:577-752 | a candidate's span claims no cache hit and its decision tells how its last answer was judged |
| RouteExecutionProofs.RunIsFirstAcceptable | crates/cybersin-runtime/src/route_executor.rs:517-768 | an execution returns the first acceptable allowed candidate's answer, having done what the candidates up to it do and nothing after |
| RouteExecutionProofs.TrialsAreWellBehaved | crates/cybersin-runtime/src/route_executor.rs:1033-1037 | every candidate tried leaves one span with the right retries, and calls no other model |
| RouteExecutionProofs.OnlyAllowedModelsAreCalled | crates/cybersin-runtime/src/allowlist.rs:223-244 | no execution calls a disallowed model or sleeps longer than the maximum |
| RouteExecutionProofs.ListingNarrows | crates/cybersin-runtime/src/allowlist.rs:223-244 | nothing listed allows everything; a first provider listed allows only its models, a further one adds its own, and listing models of a provider allows only those and leaves the others alone |
| RouteOrder.ExecutionFollowsPlan | crates/cybersin-runtime/src/route_executor.rs:517-768 | said of the plan's decisions: an execution that fails has asked every allowed candidate in order, each until its last answer, none of which satisfied; one served by a model has asked those before it so, then it, and nobody after, and its answer is the response |
| RouteOrder.CacheServesBeforeCalls | crates/cybersin-runtime/src/route_executor.rs:517-560 | in a plan of cache, cascade and fallbacks, what the cache serves costs no call |
| RouteExhaustion.ExhaustionTellsIff | crates/cybersin-runtime/src/route_executor.rs:505-828 | whatever models, judge and jitter answer, a failed execution is plainly exhausted if and only if no call erred, exactly unless a retry is allowed, a candidate is tried, all candidates have minima and no cache serves unjudged |
| RouteExhaustion.PlainExhaustedIff | crates/cybersin-runtime/src/route_executor.rs:754-767 | in one execution, plain exhaustion is reported exactly when nothing was accepted and no candidate's last answer was an error |
| RouteExhaustion.RetriedErrorsAreForgotten | crates/cybersin-runtime/src/route_executor.rs:754-767 | a run in which a call fails and plain exhaustion is still reported |
| RouteExecutionProofs.PlanBoundsExecution | crates/cybersin-runtime/src/route_executor.rs:505-768 | in a plan without repeated names each name is called at most max(1, max_attempts) times per execution |
| RouteExecutionProofs.CompiledPlanBoundsExecution | crates/cybersin-runtime/src/route_executor.rs:779-827 | the same for every artifact the route compiler makes, whatever the models answer |
| RouteExecutor.Executor.CallModelWithRetries | crates/cybersin-runtime/src/route_executor.rs:770-828 | the loop makes the specified calls and sleeps, and returns the last answer with the number of attempts |
| RouteExecutor.Executor.ExecuteCache | crates/cybersin-runtime/src/route_executor.rs:851-989 | the decision, judge call and span of the specification, the response still without a label |
| RouteExecutor.Executor.Execute | crates/cybersin-runtime/src/route_executor.rs:505-768 | the nested loops over decisions, steps and providers do what the specified execution does, calls, sleeps and spans included |
| Includes.IncludeFile | crates/cybersin-frontend/src/include.rs:93-128 | terminates on every set of files and leaves the stack as it found it on success and on error |
| Includes.ResolveNestedIncludes | crates/cybersin-frontend/src/include.rs:130-150 | the same for the lines of a file |
| Includes.ExpandsIffAcyclicAndComplete | crates/cybersin-frontend/src/include.rs:93-128 | inclusion succeeds exactly when everything reachable exists and no cycle is reachable; diamonds are fine |
| Includes.ExpansionIsSubstitution | crates/cybersin-frontend/src/include.rs:130-150 | on success the text is the plain recursive substitution, whatever was on the stack |
| Includes.TopLevelErrorsAreReal | crates/cybersin-frontend/src/include.rs:93-128 | a reported cycle is a closed walk of include edges, a missing file one that a reachable file asks for |
| Includes.DirectiveIff | crates/cybersin-frontend/src/include.rs:130-150 | a line is a directive exactly when, white space around it aside, it is the word and a path, and every other line is kept as it is |
| Includes.PlainFileIsItself | crates/cybersin-frontend/src/include.rs:130-150 | a file without directives expands to its own text, its line ends made line feeds and one at the end |
| Text.LinesRoundTrip | crates/cybersin-frontend/src/include.rs:130-150 | splitting undoes joining with either line end, the last one missing or not |
| Text.LinesKeepText | crates/cybersin-frontend/src/include.rs:130-150 | the lines of any text hold no line end, and joined again are the text with its line ends normalized and one at the end |
| IncludeDocuments.ResolveValue | crates/cybersin-frontend/src/include.rs:36-77 | the walk over a document with one shared stack computes the specified result and leaves the stack as it found it |
| IncludeDocuments.ResolvesIff | crates/cybersin-frontend/src/include.rs:28-77 | a document resolves exactly when every tag outside mapping keys is an include of a path that expands |
| IncludeDocuments.ResolvedIsSubstituted | crates/cybersin-frontend/src/include.rs:28-77 | what comes out is the document with each include replaced by its text, keys, order and everything else kept, and no tag left |
| IncludeDocuments.ResolvingTwiceIsResolvingOnce | crates/cybersin-frontend/src/include.rs:28-77 | resolving a resolved document, from any directory, changes nothing |
| TypeGrammar.PrintThenParse | crates/cybersin-frontend/src/types.rs:10-57 | every spellable type, nested ones included, survives printing and parsing |
| TypeGrammar.RoundTripIffSpellable | crates/cybersin-frontend/src/types.rs:10-57 | exactly the types whose enums are non-empty lists of non-empty, trimmed, comma-free variants round-trip |
| TypeGrammar.ParsedIsSpellable | crates/cybersin-frontend/src/types.rs:10-46 | whatever parses is spellable |
| TypeGrammar.ParseNormalizes | crates/cybersin-frontend/src/types.rs:48-57 | printing a parsed type and parsing again changes nothing |
| TypeGrammar.NamesAreInjective | crates/cybersin-frontend/src/types.rs:48-57 | no two spellable types print alike |
| TypeSpelling.ParsesIff | crates/cybersin-frontend/src/types.rs:10-46 | the parser reads a text as a type exactly if it is a way to write it: a name, at least one variant between commas, or an element type, each with any white space around it; every other text is refused |
| Passes.NoDuplicatesIffUnique | crates/cybersin-passes/src/lint.rs:52-64 | the check finds nothing exactly when section ids are unique |
| Passes.DedupeKeepsMeaning | crates/cybersin-passes/src/dedupe.rs:28-54 | on unique ids and no references, resolving the deduplicated sections gives the originals back, and every reference leads in one hop to text |
| PassFacts.DedupeCollapsesRepeats | crates/cybersin-passes/src/dedupe.rs:28-54 | exactly the sections that repeat an earlier text lose it, to the first that has it |
| PassFacts.DedupedTextsDiffer | crates/cybersin-passes/src/dedupe.rs:28-54 | afterwards no text is held twice |
| Passes.PermutingKeepsMeaning | crates/cybersin-passes/src/reorder.rs:31-34 | permuting sections with unique ids permutes what they resolve to |
| Passes.ReorderIsPartition | crates/cybersin-passes/src/reorder.rs:31-38 | placeholder-free bodies first, each group in its original order, nothing lost |
| Passes.EvictionOrderIsSortedPermutation | crates/cybersin-passes/src/budget.rs:54-56 | the eviction order is the one (priority, index)-sorted permutation of the sections |
| PassFacts.PlanEvictsAll | crates/cybersin-passes/src/budget.rs:54-85 | a plan evicts every section in that order, at what the window leaves beside the reserve |
| PassFacts.WarnsOfEvictedEverywhere | crates/cybersin-passes/src/lint.rs:66-86 | lint warns of exactly the sections that every plan of this prompt evicts |
| PassFacts.LintWarnsOfEverySection | crates/cybersin-passes/src/lint.rs:66-86 | after a budget pass with any target it warns of every section |
| PassFacts.CompressFailsIff | crates/cybersin-passes/src/compress.rs:73-128 | the pass fails exactly if it comes to a section that is not pinned in a frozen build, or whose provider fails or answers with no fewer words |
| PassFacts.NewPinsAreBought | crates/cybersin-passes/src/compress.rs:73-128 | on success or failure, every new pin is a shorter answer of the provider to one of the sections, and a frozen build makes none |
| PassFacts.CompressedTextsArePinned | crates/cybersin-passes/src/compress.rs:73-128 | on success every compressible section has the text now pinned for its own, and the others are as they were |
| PassFacts.InputsAreToldApart | crates/cybersin-passes/src/compress.rs:73-128 | different texts are pinned under different keys |
| Pipeline.DevPipelineKeepsMeaning | crates/cybersin-passes/src/lib.rs:138-159 | a dev pipeline that ends without error on reference-free sections has unique ids, one-hop references, the original contents up to order, and the stable bodies first |
| Pipeline.FrozenReproducibility | crates/cybersin-passes/src/compress.rs:73-128 | rerunning a successful release build frozen with its own lock asks the provider nothing, changes no pin and gives the same sections, budget and diagnostics |
| Pipeline.PinsStay | crates/cybersin-passes/src/compress.rs:107-113 | a pin, once made, is never overwritten, whether the pass succeeds or fails |
| Pipeline.FailedCompressKeepsSections | crates/cybersin-passes/src/compress.rs:73-128 | a failing compression leaves the sections untouched and an error behind |
| Pipeline.PassContext.CanonicalRefs | crates/cybersin-passes/src/dedupe.rs:29-46 | the map of first owners finds what each section collapses onto |
| Pipeline.PassContext.RunDedupe | crates/cybersin-passes/src/dedupe.rs:28-54 | clearing copies in place yields the specified sections |
| Pipeline.Compressor.Run | crates/cybersin-passes/src/compress.rs:73-128 | the loop over a copied vector and a shared lock agrees with the specification, early returns included |
| Pipeline.Execute | crates/cybersin-passes/src/lib.rs:138-159 | the passes run in order on one context and stop after the first that leaves an error |

## Left out

- Gateway.ToolGateway.WaitForResolution: polls a bounded number of times; the source polls for ever. The step machine, on which the theorems stand, has no such bound.
- Gateway.ToolGateway.Call: schema validation and policy decisions are any answer at all; the schemas and the membership test of the approval gate are not modelled. "Before" in the contracts of the operations is the state in which the first statement runs.
- Gateway.ToolGateway.FinishExecutor: the executor may answer anything.
- GatewayOwnership.PendingRowsHaveExactlyOneOwner: neither a crash of the process between two steps nor a storage error other than the key clash is modelled; an operation that stops at either leaves a pending row that nobody owns.
- SessionStore.SqliteStorage.TakeSignal: one operation at a time, because on SQLite it is a SELECT followed by an UPDATE; exactly-once under interleaving is stated for the Postgres transaction.
- Orchestration.Orchestrator.ExitWorker: the mail and the session status are kept beside the worker records rather than in the session store, and a resume's replay and sandbox are not part of it.
- OrchestrationSteps.ApartIsAtomic: sessions and mail are not among its tables; the statements on them lie between the steps it has and touch none of its tables.
- PgAppend.NumbersAreConsecutive: one session's log; two sessions whose advisory locks hash alike only wait for each other.
- PassFacts.InputsAreToldApart: the digested text stands for its digest here too, taken to be injective.
- RouteCache.KeysAgreeIff: the digested text stands for its SHA-256 digest, taken to be injective.
- RouteExecution.DelayIsBounded: rounding of f64 seconds to a duration is taken to nearest on exact reals.
- RouterProofs.PromptOrderDoesNotMatter: says nothing about which error is reported when compilation fails; that does depend on the order.
- Parsing YAML; the model starts from the parsed document, and leaves tags in mapping keys alone, as the code does.
- NaN, infinities and f64 rounding in costs, confidences, budgets and similarities; the cosine itself is any partial function of two embeddings.
- Span and retry-event contents beyond decision, model, retries and cost; recording them does not fail.
- Message texts of router errors and the confidence instruction; they are functions of the data kept.
- Timestamps, heartbeats, agent names, sandboxes, artifact bundles and the JSON encoding of worker records.
- The regex and template checks of `lint-fast`, which are any function of the sections.
- `session.rs`, HTTP callers, TLS, the daemon, the CLI and the capability catalog.
