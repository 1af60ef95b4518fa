# Verified models of the control journal, the approval database, the event stream and the encoders

Dafny models of the parts of AgentMeld whose correctness spans many functions, and proofs about
them. `dafny verify dfyconfig.toml` checks the whole project.

## What is modelled

**The durable control journal** (`JournalModel`, `JournalProofs`, `JournalRuns`, `JournalObject`,
`JournalTable`, `JournalOrigins`, `JournalValidator`).
An append-only file of full snapshots is driven by commands. The transition each command makes and
the validator that replays a file are written separately, as in the source. A run is any list of
commands, failed or partial writes, crashes (which lose lines that were not synced) and reopenings;
the clock is an input. `JournalObject.Journal` is the journal object, proved equal to the run model.
`JournalTable` is a table of the commands written apart from the transitions, by field instead of by
command; `JournalOrigins` traces every line of every run to the event that wrote it, and so tickets,
decisions and dispatches to the commands behind them; `JournalValidator` says what replay asks of a file.

**The service database** (`Tables`, `LeaseAndApprovals`, `WorkerEvents`). The lease, approvals, runs,
run events, tool steps and workspace grant are tables, and every SQLite transaction is a function
from the committed tables to the committed tables and a result; a transaction that fails rolls back.
`DbInvariant` states the invariant and the evolution relation; `DbStatements`, `DbTransactions`,
`DbApprovalSteps` and `DbWorkerSteps` show that every transaction keeps them; `DbRuns` interleaves
22 transactions freely into histories, from an empty database, and assumes nothing of workers;
`DbTickets`, `DbSettlement`, `DbBatches`, `DbTeardown`, `DbPromise`, `DbReserved`, `DbServes`, `DbHonest`
and `DbFold` prove what holds across whole histories; `DbWitnesses` holds the concrete runs on which
three of the design's promises fail. `ApprovalTable`, `LeaseTable` and `RunTable` are tables of the transactions, written apart
from them: what each is answered and all that it changes; `DbLifecycle` puts them together into what each
operation does to the lease and to every run, and `DbControl` draws the conclusions over histories: who
has the computer, when a turn begins, what ended a run. The transactions of a history are those of the
serving process; importing an old history (db.rs:3664-3866) also writes these tables but is not a step
of one. `Waiters` adds the
in-process registry of blocked workers, the order "commit, then resolve" and the supervisor's turn
with its order "register, publish, wait"; `Supervision` proves what that order guarantees;
`ServiceObjects` holds the database and the registry as objects with loops over query results, each
method proved equal to its transaction function.

**The event stream** (`Sse`, `SseWritten`, `EventStream`, `StreamTable`, `ClientTrack`, `StreamClaims`,
`DbStream`, `JsonLines`). The server's frames, the
incremental parser, connect-time cursors, the producer's catch-up and live loops, and the client's
dispatch, stored cursor and deduplication, composed into one end-to-end theorem; `DbStream` joins it to
the histories of the database, whose journal the stream reads.

**Encoders and the result archive** (`CanonicalJson`, `CanonicalJsonProofs`, `CanonicalText`, `Dates`, `Csv`, `Zip`,
`ResultArchive`, `ArchiveRuns`, `ArchiveDurability`).
Canonical JSON, civil dates, the CSV reader, the ZIP writer against an independent reader, and the
content-addressed result archive with a crash of the process between any two of its steps; in
`ArchiveDurability` also with power losses, which undo directory changes that were not synced.

SHA-256 is an arbitrary function passed as a parameter; where a statement needs that two particular
texts do not collide, it says so. The clock, tokens, fresh ids, query orders and the text encoder are
parameters too.

## What the proofs found

- **The kill switch is refused while an approval is pending.** `lease_revoke` settles pending
  approvals with reason `lease_revoked` (crates/agentmeld-server/src/db.rs:4728-4737), which the CHECK
  constraint of the approvals table does not list (crates/agentmeld-server/src/migrations/v6.sql:21),
  although docs/design/approval-path.md:162 does. The statement fails and the whole transaction rolls
  back. `DbSettlement.KillSwitchCommits` gives the exact condition, `DbWitnesses.KillSwitchBroken` a run.
- **That a pending approval's run waits or is interrupted is the supervisor's doing, not the
  database's.** With the database's methods alone, `mark_interrupted` leaves a run with its approval
  pending, and a later `run.terminated` without a clean teardown sets that run to failed
  (db.rs:2394-2402). `DbPromise.PromiseKeptIff` gives the exact condition, in terms of the tables and the
  batch; `DbWitnesses.PromiseBroken` a run. The service never makes those calls in that order: a turn
  that waits for an approval does nothing else (supervisor.rs:600, 708-794), it is marked interrupted
  only when it is over (supervisor.rs:201-288), and a run has no turn after its process died.
  `Supervision.PendingRunsAlwaysWait` proves the promise for every run of the service with that order.
  (Two tool binaries also call `apply_worker_events`; they are not part of the service.)
- **A worker can forge an approval step.** `start_tool_step_locked` accepts keys of the form
  `approval:<id>` (db.rs:2780-2873), which the service uses for the step of an action that will never
  execute. `DbHonest.HonestUntilForged` says exactly which batches spoil the approval steps of a history
  and that nothing else does; `DbWitnesses.ApprovalStepForged` is a run in which an approved action has
  such a step. No other whole-history result depends on what workers report.
- **A result archive can become unusable for good.** A put whose process dies after its promotion leaves
  its staging file, which nothing removes. `ArchiveRuns.StuckIff` says exactly which crash of a run takes
  an archive over its limits, `ResultArchive.CutAfterPromotion` which puts that can happen to, told
  before the put, and `ArchiveRuns.StuckRun` is a run from the empty directory that ends so. From then
  on (`ResultArchive.FullForGood`) every put is refused, even of bytes the archive holds.
- **A result read without a receipt can be lost.** A put that dies before its first directory sync may
  have made its result readable; a power loss can still take it away (`ArchiveDurability.ReadThenLost`).
  A readable result is safe exactly when its entry was synced (`SafeIffSynced`), and one with a receipt
  is readable ever after (`ReceiptsDurable`).
- **Timestamps before year 0 do not read back**: `Dates.TimestampRoundTrip` gives the exact millisecond,
  `Dates.UnreadableTimestamp` the last one that fails.
- **Without a cursor, fewer than the latest 200 streamable rows may be replayed.** The module comment of
  events.rs (line 12) promises the latest 200; the code starts 200 *sequences* back (events.rs:201).
  `StreamClaims.LatestIff` gives the exact condition on the journal, `StreamClaims.LatestFails` a journal.
- **A client that falls behind does not get the rows it missed.** The same comment (lines 20-23) says that
  after `stream.resync_required` the client replays from its cursor. The client jumps to the announced
  sequence and refetches state (client-track.js:654-661), so the stream never delivers the rows between:
  `ClientTrack.ExactlyOnce` says exactly which, and in `StreamClaims.BurstLost` a connected client is
  given none of 257 rows journalled between two polls.

## Where the source is modelled

- crates/agentmeld-m0/src/durable.rs: `JournalModel.Transition` (342-610), `JournalModel.ValidLine` (209-278), `JournalModel.Recovered` (287-299), `JournalRuns.PersistSpec` (314-341), `JournalRuns.OpenSpec` (167-309).
- crates/agentmeld-server/src/db.rs, lease: `LeaseAndApprovals.LeaseMaintenance` (4116-4174), `Takeover` (4185-4277), `Hold` (4284-4608), `NoteObserved` (4638-4699), `RevokeLease` (4709-4801).
- db.rs, approvals: `Propose` (4879-4980), `Decide` (4990-5195), `RevokeApproval` (5215-5328), `Tables.Expire` (5333-5388), `Sweep` (5393-5419), `GetApproval` (5422-5440), `Claim` (5492-5538), `Recover` (5553-5703), `RevokeDevice` (5713-5824), `InterruptRuns` (174-213).
- db.rs, runs: `WorkerEvents.Admit` (737-911), `ClaimQueued` (1777-1811), `BeginTurn` (2293-2369), `ApplyBatch` (2374-2480), `Apply` (2483-2754), `StartStep` (2780-2874), `FinishStep` (2882-2955), `MarkInterrupted` (3125-3151), `StopTask` (1624-1662), `CancelBeforeSpawn` (1717-1734), `FailPrecheck` (3386-3409), `Deliver` (3102-3121).
- crates/agentmeld-server/src/events.rs: `EventStream.ResolveCursor` (180-211), `Produced` (243-335); db.rs: `EventsAfter` (1133-1166), `DbStream.Streams` (1139-1143).
- crates/agentmeld-server/src/supervisor.rs: `Waiters.InOrder` (165-288, 560-645), `Waiters.GivenUp` (708-794); api.rs: the claim before a turn (1177-1240).
- apps/poc/public/client-track.js: `ClientTrack.Dispatch` (588-616), `Resynced` (654-661), `Attend` (663-716).

## Model

| member | source | states |
|---|---|---|
| JournalProofs.CommandGood | crates/agentmeld-m0/src/durable.rs:209-278 | from any snapshot that satisfies the invariant, the line any accepted command writes passes every clause of the replay validator and keeps the invariant |
| JournalProofs.RecoveredGood | crates/agentmeld-m0/src/durable.rs:280-299 | the line recovery writes passes the validator too; a ticket pending at the crash stays pending, marked uncertain |
| JournalProofs.SettleNeverLacksRoom | crates/agentmeld-m0/src/durable.rs:468-503 | a live scoped ticket can be settled exactly when the result reference is valid: the 64-entry index is never the obstacle |
| JournalTable.CommandTable | crates/agentmeld-m0/src/durable.rs:342-610 | every command is accepted if and only if the reference table permits it, and an accepted one changes each field (mode, generation, ticket and what it is bound to, approval, decision, ledgers, screen) as the table says; the table is written apart from the transitions and leaves no choice |
| JournalOrigins.LineOrigin | crates/agentmeld-m0/src/durable.rs:314-610 | in every run, with failed writes, crashes and reopenings, each line of the file was written by one event: a command the table permits, with exactly the outcome the table gives, or a reopening |
| JournalOrigins.ScopedTicketAllowed | crates/agentmeld-m0/src/durable.rs:396-430 | in every run, a line that issues a scoped ticket was written by a decision that allows, strictly before the deadline, which is the clock of an earlier proposal plus its ttl; the decision names that approval's id, scope and action, and the ticket has its digests and its owed result |
| JournalOrigins.DecisionOrigin | crates/agentmeld-m0/src/durable.rs:408-428 | in every run, a recorded decision was made on the approval open just before it: expired exactly from the deadline on, before that what the command says, and a ticket came with it exactly when it allows |
| JournalOrigins.DispatchOrigin | crates/agentmeld-m0/src/durable.rs:431-467 | in every run, a dispatch is by an actor that has the computer, of an action admitted or allowed at an earlier line with the same digest, and no takeover, resume, private bracket, disconnect, cancellation or reopening came between |
| JournalOrigins.AgentNeverInPrivate | crates/agentmeld-m0/src/durable.rs:537-582 | in every run, whenever the agent has the computer or is about to observe it, the private bracket is closed |
| JournalOrigins.AcknowledgedCommand | crates/agentmeld-m0/src/durable.rs:314-346 | a command is acknowledged if and only if the journal is usable, the table permits it, sequence and 16 MiB leave room for its line and the line was synced; the caller gets the table's snapshot and its line is never lost |
| JournalOrigins.RefusedCommand | crates/agentmeld-m0/src/durable.rs:314-346 | a command that is not acknowledged changes nothing, or poisons the journal; no line is lost, and a line of its own stays only after a failed sync |
| JournalValidator.ReplaysIff | crates/agentmeld-m0/src/durable.rs:204-278 | a file, whoever wrote it, replays if and only if every line is sound after the one before it, clause by clause; the result is its last line |
| JournalValidator.ReplayedFile | crates/agentmeld-m0/src/durable.rs:209-278 | in any file that replays, lines are numbered, generations and ledgers only grow, a cancelled journal stays cancelled and an uncertain ticket stays uncertain until a review closes it |
| JournalValidator.OpensIff | crates/agentmeld-m0/src/durable.rs:167-309 | a file is opened if and only if it ends with a whole line, every line is sound, counters and 16 MiB leave room for the opening line, and line and directory were synced; a file that held lines is fenced off and its agent paused |
| JournalRuns.ReplayComplete | crates/agentmeld-m0/src/durable.rs:167-309 | after any run of commands, failed writes, crashes and reopenings the validator accepts the whole file and replay gives exactly the snapshot in memory; reopening is refused by history only for an incomplete last line or an exhausted generation |
| JournalRuns.AtMostOnceDispatch | crates/agentmeld-m0/src/durable.rs:450-467 | among the lines of the file after any run, restarts included, the tickets of dispatching lines strictly increase, so none appears twice |
| JournalRuns.AcknowledgedOnce | crates/agentmeld-m0/src/durable.rs:450-467 | of two dispatch commands of a run whose callers were told they succeeded, with crashes, failed writes and restarts anywhere, the later is of a later ticket |
| JournalRuns.AcknowledgedPayload | crates/agentmeld-m0/src/durable.rs:450-467 | the action of a dispatch command that succeeded has the digest its ticket was issued with |
| JournalRuns.NeverDispatchedAfterRestart | crates/agentmeld-m0/src/durable.rs:287-299 | a ticket pending when the owner went down is never dispatched after the file is reopened |
| JournalRuns.LedgersOrdered | crates/agentmeld-m0/src/durable.rs:629-712 | in every run the tickets in results and in resolutions increase and are disjoint, request keys are distinct, and a scoped action has room for its result |
| JournalRuns.PayloadFixed | crates/agentmeld-m0/src/durable.rs:431-503 | in every run, all lines of the file at which a ticket is pending carry the same action digest and scope digest for it |
| JournalRuns.RunReturnsOnlyAfterObserving | crates/agentmeld-m0/src/durable.rs:552-610 | between a line at which the agent had lost the computer and a later line at which it has it, some line records a fresh observation with nothing pending |
| JournalRuns.DurableKept | crates/agentmeld-m0/src/durable.rs:314-341 | synced lines survive every later event |
| JournalObject.Journal.Open | crates/agentmeld-m0/src/durable.rs:167-309 | the replay loop accepts exactly what the replay function accepts, and file and journal end as the run model says |
| JournalObject.Journal.Persist | crates/agentmeld-m0/src/durable.rs:314-341 | every outcome of a write, partial and failed ones included, leaves file, state, byte count and poison flag as specified |
| DbRuns.StepKeeps | crates/agentmeld-server/src/db.rs:2293-5824 | each of the 22 transactions, whatever workers report, from tables that satisfy the invariant, reaches tables that satisfy it and undoes nothing |
| DbRuns.Reachable | crates/agentmeld-server/src/db.rs:2293-5824 | the invariant holds in every state of every history |
| DbRuns.NeverUndone | crates/agentmeld-server/src/db.rs:2293-5824 | between any two states of a history: generations and grant revision do not fall, approvals only settle once, steps and journal rows stay |
| DbRuns.GenerationFences | crates/agentmeld-server/src/db.rs:4116-4801 | in any history equal lease generations mean the same state, holder and private bracket throughout |
| DbRuns.DisturbanceShows | crates/agentmeld-server/src/db.rs:4185-4801 | every successful takeover, holder move, lease revocation, restart or device revocation strictly raises the generation or the grant revision |
| LeaseTable.HoldTable | crates/agentmeld-server/src/db.rs:4284-4608 | a holder's move is accepted if and only if the caller knows the generation after a stale hold's release, is the holder, the state is the one the move requires and the run to journal to exists; which refusal is given otherwise, and the lease and journal row each move leaves |
| LeaseTable.TakeoverTable | crates/agentmeld-server/src/db.rs:4185-4277 | any device takes the computer at once, pausing a running turn and otherwise directly; every pending approval is revoked for that reason and journalled, the generation rises and the bracket is closed |
| LeaseTable.ObservedTable | crates/agentmeld-server/src/db.rs:4638-4699 | the computer goes back to the agent exactly from a lease that is being resumed and not stale, under a new generation, with both journal rows |
| DbLifecycle.LeaseSteps | crates/agentmeld-server/src/db.rs:4116-4801 | what each of the 22 operations makes of the lease, from any reachable tables; those not named leave it alone |
| DbControl.MoveByTaker | crates/agentmeld-server/src/db.rs:4284-4608 | in any history a successful move or heartbeat is by the device of the latest successful takeover, which held the lease in every state since, and whose hold is not stale |
| ApprovalTable.DeviceTable | crates/agentmeld-server/src/db.rs:5713-5824 | revoking a paired device raises the grant, revokes every pending approval for that reason, and releases the lease exactly when the device holds it |
| DbRuns.ProposedRow | crates/agentmeld-server/src/db.rs:4940-4975 | an accepted proposal adds a pending row with the action's canonical text and its digest, the current fences, and as deadline the clock plus the ttl |
| ApprovalTable.ProposeTable | crates/agentmeld-server/src/db.rs:4879-4980 | which proposals are accepted, and how the others are refused in order: a tool, a target and flat bounded arguments and nothing else, a description of 1 to 512 characters, a ttl of 1 ms to 5 minutes, a running run of that generation with nothing pending; and all that an accepted one changes |
| ApprovalTable.DecideTable | crates/agentmeld-server/src/db.rs:4990-5195 | what a decision is answered on reachable tables, in order, and all that it changes: only a denial writes a step, only a waiting run goes on, and a late decision expires the row instead |
| ApprovalTable.RevokeTable | crates/agentmeld-server/src/db.rs:5215-5328 | a pending or approved row is revoked by its device, with a step unless its ticket was used; a late revocation expires the row instead, any other is refused and changes nothing |
| ApprovalTable.ToolNamed | crates/agentmeld-server/src/db.rs:2959-2990 | the step of an action that will never execute carries the tool that the stored action names |
| DbRuns.DecidedUndisturbed | crates/agentmeld-server/src/db.rs:4990-5195 | an approval is decided only if no lease move, restart or device revocation happened between its proposal and its decision, and the lease was the same in every state between |
| DbRuns.DecidedRow | crates/agentmeld-server/src/db.rs:5116-5190 | a decision settles the row as approved or denied by the deciding device, an approval stores the hash of its own token, and neither the lease nor the grant moves |
| DbRuns.SettledForGood | crates/agentmeld-server/src/db.rs:4808-4830 | a row that has left pending only ever moves from approved to revoked, keeps its ticket hash and action, and a used or dead ticket keeps its use |
| DbRuns.DecidedInTime | crates/agentmeld-server/src/db.rs:5016-5120 | every approved or denied row was decided strictly before its deadline |
| DbApprovalSteps.DecideKeeps | crates/agentmeld-server/src/db.rs:4990-5195 | deciding keeps the invariant, and on reachable tables the digest-mismatch, unparseable-action and stale-grant refusals cannot occur |
| DbTickets.DispatchTraced | crates/agentmeld-server/src/db.rs:5492-5538 | every dispatch traces back: the same run proposed exactly this action, a device approved it undisturbed and before the proposal's clock plus its ttl, and the ticket presented hashes like the token that decision minted |
| ApprovalTable.ClaimTable | crates/agentmeld-server/src/db.rs:5492-5538 | a ticket is redeemed if and only if the run's approval is approved, not used, and the ticket hashes like the one issued; only the time of use is written |
| DbTickets.ConsumedOnce | crates/agentmeld-server/src/db.rs:5492-5538 | at most one step of a history consumes a given ticket |
| DbTickets.RevokedNeverUsed | crates/agentmeld-server/src/db.rs:5215-5328 | a ticket whose row is denied, expired or revoked before use is never used |
| DbTickets.TicketMoves | crates/agentmeld-server/src/db.rs:4879-5538 | for every transaction: new rows come from a proposal, new tickets from an approving decision, uses from a batch of the row's own run presenting the ticket |
| DbSettlement.KillSwitchCommits | crates/agentmeld-server/src/db.rs:4709-4801 | the kill switch commits if and only if the generation is current, nothing is pending and the run to journal to exists; otherwise no table changes |
| DbSettlement.SweepExpiresTheDue | crates/agentmeld-server/src/db.rs:5333-5419 | a sweep expires exactly the due rows, in whatever order they are listed, each with its step, its journal row and its run failed closed |
| DbSettlement.LazyThenSweep | crates/agentmeld-server/src/db.rs:5333-5440 | lazy expiry of any rows followed by a sweep equals the sweep alone, up to the order of journal rows |
| DbSettlement.SweepIdempotent | crates/agentmeld-server/src/db.rs:5393-5419 | a second sweep at the same time settles nothing and changes nothing |
| DbSettlement.RecoverySettlesAll | crates/agentmeld-server/src/db.rs:5553-5703 | after startup recovery nothing is pending, every run that had a pending row is interrupted, each such row is expired or revoked by a stated rule, the agent has the lease at a higher generation, and the counts add up |
| DbLifecycle.RecoveryTable | crates/agentmeld-server/src/db.rs:5553-5703 | startup recovery row by row: each pending row expires or is revoked for the restart by the rule, exactly the runs with a pending row are interrupted, every other row and run is as it was |
| DbBatches.ResendChangesNothing | crates/agentmeld-server/src/db.rs:2374-2480 | re-sending a batch that succeeded changes no table at any later time, and while the run accepts it returns the same sequences, all duplicate |
| RunTable.EventTable | crates/agentmeld-server/src/db.rs:2483-2955 | each worker event is accepted if and only if the table says so, and changes status, answer, ticket use, steps, lease and journal of its run as the table says, and nothing else |
| RunTable.BatchTable | crates/agentmeld-server/src/db.rs:2374-2480 | a batch is accepted if and only if it is in its run's turn and each event can be taken in the tables the ones before it leave; the result is the end of that chain, with each event's sequence and whether it was known; otherwise nothing changes |
| RunTable.BeginTable | crates/agentmeld-server/src/db.rs:2293-2369 | a turn begins if and only if its run is starting and the lease, a stale hold released, is the agent's or being resumed; the flag says exactly that it is being resumed; the run gets a new generation, an empty answer and a journal row |
| DbControl.TurnsUnderAgent | crates/agentmeld-server/src/db.rs:2293-2369 | in any history a run gets a new generation only by beginning a turn from starting, and the lease is then the agent's or being resumed and its bracket closed |
| RunTable.StopTable | crates/agentmeld-server/src/db.rs:1624-1662 | stopping cancels a queued run at once, asks a live one to cancel while its turn is active, and is refused otherwise |
| RunTable.LifecycleTable | crates/agentmeld-server/src/db.rs:1777-1811 | admission, claiming, interruption, early cancellation, early failure and delivery: when each is accepted and all that it leaves |
| DbLifecycle.RunSteps | crates/agentmeld-server/src/db.rs:2374-2754 | what each of the 22 operations makes of the status and generation of every run; after a batch the status is what the rows it added to the journal say, in order: completed, failed, cancelled, or failed by an unclean or early end |
| DbControl.RunEnded | crates/agentmeld-server/src/db.rs:2604-2700 | in any state of any history, what ended a run: a report of its worker that its journal holds, after which only harmless teardowns are journalled, or, for failed and cancelled runs, one of the service's own three steps |
| DbControl.CompletedByWorker | crates/agentmeld-server/src/db.rs:2604-2631 | the last end in the journal of a completed run, clean teardowns aside, is its worker's completion |
| DbFold.ProjectionsAgree | crates/agentmeld-server/src/db.rs:1895-1929 | in every state a run's reply is the concatenation of its journalled deltas, its steps have the ordinals 1 to n, and each that is not of an approval that will never execute is, at its place, the next step its journalled tool events make |
| DbFold.StepsFold | crates/agentmeld-server/src/db.rs:2780-2955 | in every state, whatever call keys workers use, a run's steps are the first-write-wins fold of its journalled tool events, the keys of approvals that will never execute left out of both |
| DbServes.StepServes | crates/agentmeld-server/src/db.rs:2999-3040 | every transaction but a worker batch adds to a run's steps only those of approvals that will never execute, one with each new such verdict, and to the journal only rows of the service's own |
| DbBatches.ApprovalSteps | crates/agentmeld-server/src/db.rs:2999-3040 | in every state, unless the run's worker journalled a tool start under that very key: the step keyed `approval:<id>` exists exactly when the action will never execute, is denied only for a denied row, and is unique |
| DbHonest.HonestUntilForged | crates/agentmeld-server/src/db.rs:2780-2874 | in every history the approval steps of all runs are as they should be in every state up to the i-th if and only if no earlier step is an accepted batch that newly starts a tool under a key of the service's form its run does not hold |
| DbHonest.ForgeryForeseen | crates/agentmeld-server/src/db.rs:2374-2480 | told beforehand: a batch that starts no tool under such a key leaves the approval steps honest; and an accepted one whose source keys are not like the service's own does so if and only if no such start is the first with its source key |
| DbReserved.ReportKeepsIff | crates/agentmeld-server/src/db.rs:2374-2480 | from tables with honest approval steps a batch leaves them honest if and only if it is refused or starts no such tool anew |
| DbReserved.NewnessForeseen | crates/agentmeld-server/src/db.rs:2408-2431 | unless a source key starts like the service's own, which events of an accepted batch are new follows from the journal and the batch: first of their source key in both |
| DbReserved.ReservedKeyCondition | crates/agentmeld-server/src/db.rs:2780-2874 | starting a step keeps the approval steps honest if and only if its key is not of the service's form or already exists |
| DbWitnesses.ApprovalStepForged | crates/agentmeld-server/src/db.rs:2780-2874 | a concrete history: propose, approve, and a batch that starts a tool keyed `approval:<id>`; the approved action has a step that says it will not execute |
| DbBatches.LeaseFacts | crates/agentmeld-server/src/db.rs:4116-4801 | in every state the lease has a holder, and a heartbeat, exactly in its human states, and a private bracket only while the human has it |
| DbBatches.PendingFacts | crates/agentmeld-server/src/db.rs:4879-4980 | in every state of every history at most one approval of a run is pending, with the current grant revision, on a run that waits or was failed closed |
| DbBatches.SeqOfPoints | crates/agentmeld-server/src/db.rs:2408-2431 | a returned sequence is the position of that run's row with that source key |
| DbPromise.PromiseKeptIff | crates/agentmeld-server/src/db.rs:2394-2402 | from a state in which every pending approval's run waits or is interrupted, a step keeps that if and only if it is not this: a batch for the current generation of an interrupted run with a pending approval, of teardown evidence only, whose rows the journal can take, and which reports a new unclean end |
| DbTeardown.BatchAccepted | crates/agentmeld-server/src/db.rs:2386-2480 | for a run that is not live, a batch is accepted if and only if the generation is the run's, the run has ended, every event is teardown evidence and no new event's row id is taken |
| DbTeardown.TeardownClosedForm | crates/agentmeld-server/src/db.rs:2408-2431 | unless it uses the key of the service's own milestone, a batch's rows can be taken if and only if no new event's row id is in the journal or repeated among its new events |
| DbPromise.PromiseThroughout | crates/agentmeld-server/src/db.rs:4879-5440 | in every history of the database's methods without such a step the promise holds in every state |
| Supervision.PendingRunsAlwaysWait | crates/agentmeld-server/src/supervisor.rs:560-794 | in every run of the service, with the supervisor's order of commits and crashes anywhere, every pending approval's run waits for it or is interrupted |
| DbTeardown.TeardownBatch | crates/agentmeld-server/src/db.rs:2386-2480 | what a batch of teardown evidence does to a terminal run: failed exactly when it holds a new unclean end, otherwise untouched |
| DbWitnesses.PromiseBroken | crates/agentmeld-server/src/db.rs:3125-3151 | a concrete history of the database's methods, in an order the supervisor never produces, ends with an approval pending on a failed run |
| DbWitnesses.KillSwitchBroken | crates/agentmeld-server/src/migrations/v6.sql:21 | a concrete history in which the kill switch, with the current generation, is refused and leaves the approval pending |
| Waiters.CommitAnnounces | crates/agentmeld-server/src/api.rs:585-743 | the outcomes a handler resolves after a transaction are for distinct rows that transaction settled, each the way the row left pending; only reads and startup recovery settle rows without announcing them |
| Waiters.OneOutcome | crates/agentmeld-server/src/approvals.rs:215-283 | across crashes a worker receives at most one outcome per approval, it is how the row left pending, and a delivered ticket hashes to the row's ticket hash |
| Waiters.WaitAnswered | crates/agentmeld-server/src/approvals.rs:215-283 | a registered wait ends only by the delivery of its outcome, by being given up, or by a crash |
| Waiters.OnlyExpiryStrands | crates/agentmeld-server/src/supervisor.rs:708-794 | while a waiter is registered and its row is approved, denied or revoked, the matching outcome is in flight: only expiry can strand a waiter |
| ServiceObjects.Db.TakeoverLease | crates/agentmeld-server/src/db.rs:4185-4277 | the takeover's statements and settling loop equal the takeover transaction |
| ServiceObjects.Db.LeaseRevoke | crates/agentmeld-server/src/db.rs:4709-4801 | the kill switch's statements and settling loop equal its transaction |
| ServiceObjects.Db.SweepExpired | crates/agentmeld-server/src/db.rs:5393-5419 | the sweep loop equals the sweep transaction |
| ServiceObjects.Db.RecoverOnStartup | crates/agentmeld-server/src/db.rs:5553-5703 | the three recovery loops equal the recovery transaction |
| ServiceObjects.Db.RevokeAndSettle | crates/agentmeld-server/src/db.rs:5713-5824 | device revocation's settling loop equals its transaction |
| ServiceObjects.Db.ApplyWorkerEvents | crates/agentmeld-server/src/db.rs:2374-2480 | the batch loop, with its early exits, equals the batch transaction |
| ServiceObjects.RetireEach | crates/agentmeld-server/src/db.rs:4347-4362 | settling a query result row by row, stopping at the first failure, equals settling the list |
| ServiceObjects.PendingApprovals.Resolve | crates/agentmeld-server/src/approvals.rs:247-257 | an outcome is delivered exactly when a waiter is registered, which it then no longer is |
| ServiceObjects.SweepOnce | crates/agentmeld-server/src/approvals.rs:797-804 | the sweep commits, then every expired id's waiter is resolved in order, then the lease is maintained |
| Sse.ChunkingIrrelevant | apps/poc/public/sse-parse.js:45-72 | for every split of the text into chunks the parser yields the same frames and the same final state |
| SseWritten.ReadsWritten | apps/poc/public/sse-parse.js:20-72 | any stream of frames with several data lines, names, ids, comments, unknown fields, a space after the colon or none, and either line end, cut anywhere, is read as those frames; the retry hint is the last one that counts, rounded and clamped to 500 to 30000 ms |
| Sse.RenderParses | crates/agentmeld-server/src/events.rs:142-163 | parsing a rendered frame gives back its event name, id and data; retry and ping give empty frames |
| Sse.CutYieldsPrefix | crates/agentmeld-server/src/events.rs:142-163 | a connection cut anywhere, in any chunks, yields a prefix of the rendered frames |
| Sse.RetryHintArrives | apps/poc/public/sse-parse.js:21-27 | the server's retry hint reaches the parser unchanged by the clamp |
| Sse.SseParser.Push | apps/poc/public/sse-parse.js:45-72 | the line loop leaves buffer, frame, retry hint and line count, and returns frames, as draining the buffer does |
| EventStream.PrintedCursorResolves | crates/agentmeld-server/src/events.rs:180-211 | the server resumes exactly at the cursor a client prints, or refuses it as too old when it is more than the window behind |
| StreamTable.CursorTable | crates/agentmeld-server/src/events.rs:180-211 | where a connection starts for every header, query and journal: which cursor counts, 200 sequences back without one, and when it is malformed or more than 5000 behind |
| StreamTable.PollTable | crates/agentmeld-server/src/events.rs:243-335 | one poll sends the next 1000 rows at most while catching up, and all of them when live, or only a resync when they are more than 256 |
| StreamTable.CatchesUp | crates/agentmeld-server/src/events.rs:243-335 | a connection without error, revocation or resync has sent, after its last poll, every streamable row above its cursor that the poll saw, once and in order, if it is live or has polled once for every 1000 of them |
| StreamTable.WireTable | crates/agentmeld-server/src/events.rs:144-163 | the wire text of every message, character by character |
| StreamTable.BodyTable | crates/agentmeld-server/src/events.rs:243-335 | a connection's body: the retry hint, the greeting, then one message for each row, ping and resync, rows under their sequence |
| EventStream.RunProducer | crates/agentmeld-server/src/events.rs:243-335 | the catch-up and live loops send what the producer's specification says, cursor moved row by row |
| EventStream.ProducerInOrder | crates/agentmeld-server/src/db.rs:1133-1166 | while the journal grows, the producer sends from its cursor on the next streamable row each time; a resync comes last and never moves back |
| ClientTrack.Track.DispatchFrame | apps/poc/public/client-track.js:588-616 | cursor, remembered sequences and handled rows change as dispatching the frame says |
| ClientTrack.Track.PumpFrames | apps/poc/public/client-track.js:641-652 | pumping chunks dispatches exactly the frames the parser yields for them |
| ClientTrack.ExactlyOnce | apps/poc/public/client-track.js:588-716 | over any number of connections cut anywhere, a client handles exactly the streamable rows between the cursor it started with and the one it has stored, each once and in order, except those a resync jumped over: all of them if and only if none lies inside such a jump |
| DbStream.HistoriesStream | crates/agentmeld-server/src/db.rs:1133-1166 | the same over every history of the database, the stream reading its journal as it grows: each row handled is the user-visible journal row of its sequence, and none is a dispatch, whose payload holds a ticket |
| DbStream.StreamedKinds | crates/agentmeld-server/src/db.rs:1133-1166 | every row of the service's own is streamed, and of a worker's rows all but dispatches and session bindings |
| StreamClaims.LatestIff | crates/agentmeld-server/src/events.rs:180-211 | a connection without a cursor replays the latest 200 streamable rows, or all when fewer, if and only if the last 200 sequences are all of streamable rows or no streamable row lies before them |
| StreamClaims.LatestFails | crates/agentmeld-server/src/events.rs:180-211 | a journal of 201 rows of which the first is among the latest 200 streamable ones and is not replayed |
| StreamClaims.BurstLost | apps/poc/public/client-track.js:654-661 | a session in which 257 rows are journalled between two polls and the connected client handles none of them |
| ClientTrack.ExactlyOnceFromFirst | apps/poc/public/client-track.js:663-716 | the same for a new client, from the point its first stored cursor is measured from |
| JsonLines.ChunkingIrrelevant | crates/agentmeld-m0/src/protocol.rs:15-46 | whether a stream fails, and the frames and remainder of one that does not, are independent of chunking |
| JsonLines.DecodesLines | crates/agentmeld-m0/src/protocol.rs:15-46 | a stream fails exactly when a line is over the bound or neither blank nor a frame; otherwise its frames are those of its non-blank lines |
| JsonLines.Decoder.Push | crates/agentmeld-m0/src/protocol.rs:15-46 | the byte loop's state and result follow the decoder's specification, and a poisoned decoder refuses |
| JsonLines.Decoder.Finish | crates/agentmeld-m0/src/protocol.rs:48-58 | a stream ends cleanly exactly when nothing is pending and nothing failed |
| CanonicalJsonProofs.CanonicalParses | crates/agentmeld-server/src/approvals.rs:55-113 | parsing the canonical text gives the value back with every object's keys sorted |
| CanonicalText.CanonicalIff | crates/agentmeld-server/src/approvals.rs:55-113 | a text is the compact JSON text of a value with every object's members in ascending order of their keys, control characters in lower-case escapes, if and only if it is the canonical text |
| CanonicalJsonProofs.CanonicalUnambiguous | crates/agentmeld-server/src/approvals.rs:55-113 | two values have the same canonical text if and only if they are equal up to key order |
| CanonicalJsonProofs.CanonicalOfNorm | crates/agentmeld-server/src/approvals.rs:55-113 | parsing and canonicalising again gives the same text |
| CanonicalJsonProofs.DigestBindsAction | crates/agentmeld-server/src/approvals.rs:176-185 | a stored action reads back with its digest, and another action has that digest exactly when it is the same value, unless the hash collides |
| Dates.CivilRoundTrip | crates/agentmeld-server/src/domain.rs:170-183 | every day prints as a valid calendar date, leap years included, and reads back as the same day |
| Dates.DateRoundTrip | crates/agentmeld-server/src/import.rs:649-657 | every date of the calendar is the date printed for the day it reads as |
| Dates.DayByDay | crates/agentmeld-server/src/domain.rs:170-183 | day 0 is 1 January 1970 and each day is printed as the calendar date after the one before it |
| Dates.IsoText | crates/agentmeld-server/src/domain.rs:167-197 | for the years 0 to 9999 the text is YYYY-MM-DDThh:mm:ss.mmmZ of the date and time, digit by digit |
| Dates.IsoReads | crates/agentmeld-server/src/import.rs:613-657 | what reading any date and time in digits gives, with or without a fraction, and that it fails exactly when month, day, hour, minute or second is out of range |
| Dates.TimestampRoundTrip | crates/agentmeld-server/src/import.rs:613-657 | for every 64-bit timestamp, reading the printed text gives it back if and only if it is at least -62167219200000, the start of year 0 |
| Dates.UnreadableTimestamp | crates/agentmeld-server/src/import.rs:613-657 | the text printed for -62167219200001 cannot be read |
| Csv.CsvRows | apps/poc/public/artifact-tools.js:5 | the character loop equals the reader's specification |
| Csv.ReadsWritten | apps/poc/public/artifact-tools.js:5 | rows written with each cell in quotes or plainly, ended by a line feed, both characters, a bare carriage return or the end of the text, are read back up to the limit; only a last row of one empty cell that ends with the text is lost |
| Csv.CsvRoundTrip | apps/poc/public/artifact-tools.js:5 | reading the fully quoted rendering gives back exactly the first rows up to the limit, whatever the cells hold |
| Zip.ZipFiles | apps/poc/public/artifact-tools.js:8-17 | the writer's loop returns the archive of the encoded entries, or the error of the first file it refuses |
| Zip.RefusedExactly | apps/poc/public/artifact-tools.js:12 | up to 501 files are accepted exactly when every path is safe, every encoded name is at most 65535 bytes and the data total at most 32 MiB |
| Zip.SafePathIs | apps/poc/public/artifact-tools.js:12 | a path is safe if and only if no component between its slashes is empty, `.` or `..` and it has no backslash and no NUL |
| Zip.ZipRoundTrip | apps/poc/public/artifact-tools.js:8-17 | an independent reader recovers the names and bytes of every file of an accepted archive, in order, with matching CRCs |
| Zip.FieldsFit | apps/poc/public/artifact-tools.js:9-16 | under the writer's limits every count, size and offset fits its 16- or 32-bit field |
| Zip.ComputeCrc | apps/poc/public/artifact-tools.js:12 | the bit loop computes the recursive CRC-32 |
| Zip.CrcCheck | apps/poc/public/artifact-tools.js:12 | the check value: the CRC-32 of the one byte 0x31 is 0x83dcefb7 |
| Zip.WriteHeader | apps/poc/public/artifact-tools.js:11 | the record is zero except for its fields, little-endian at their positions |
| ResultArchive.ResultsPermanent | crates/agentmeld-m0/src/artifact.rs:103-167 | with crashes of the process between any two steps, a digest that once returned bytes returns the same bytes ever after |
| ArchiveDurability.ReceiptsDurable | crates/agentmeld-m0/src/artifact.rs:122-173 | with process crashes and power losses anywhere, which undo any directory changes not synced, a result whose put returned a receipt is readable ever after and reads the same |
| ArchiveDurability.SafeIffSynced | crates/agentmeld-m0/src/artifact.rs:160-173 | a readable result is readable after every possible power loss if and only if its directory entry was synced |
| ArchiveDurability.ReadThenLost | crates/agentmeld-m0/src/artifact.rs:156-161 | a concrete run: a put dies between promotion and sync, its result is read, a power loss removes it |
| ResultArchive.SoundThroughout | crates/agentmeld-m0/src/artifact.rs:122-167 | every promoted file is named by its digest and within the blob limit, in every state |
| ResultArchive.GetTable | crates/agentmeld-m0/src/artifact.rs:103-121 | reading returns exactly the bytes, at most 512 KiB, that are filed under the digest and have it, in any directory, and tells the other cases apart |
| ResultArchive.AdmitTable | crates/agentmeld-m0/src/artifact.rs:122-155 | a put is admitted if and only if its bytes are at most 512 KiB, not stored yet and fit with the whole directory into 256 entries and 16 MiB; the other answers in order |
| ResultArchive.StepTable | crates/agentmeld-m0/src/artifact.rs:144-167 | what each step of an admitted put leaves in the directory, a write cut anywhere and a crash after each step included |
| ResultArchive.PutStores | crates/agentmeld-m0/src/artifact.rs:122-167 | an uninterrupted put stores the bytes under their digest, leaves no staging file, and repeating it changes nothing |
| ResultArchive.WithinThroughout | crates/agentmeld-m0/src/artifact.rs:74-143 | in every run without crashes the directory holds at most 256 entries and 16 MiB between puts, and so does the rest of it during one, with room left for what is being put |
| ResultArchive.BoundedThroughout | crates/agentmeld-m0/src/artifact.rs:74-167 | in every run, process crashes anywhere, every state holds at most 257 entries and 16 MiB and one blob, and is over a limit only between puts or between promotion and cleanup |
| ArchiveRuns.StuckIff | crates/agentmeld-m0/src/artifact.rs:156-163 | in every run the archive is over a limit between puts if and only if some earlier crash fell between promotion and cleanup while the directory was over a limit |
| ResultArchive.CutAfterPromotion | crates/agentmeld-m0/src/artifact.rs:122-167 | an admitted put cut off after its promotion takes the archive over a limit if and only if there was no room for two more entries or for twice its bytes |
| ArchiveRuns.StuckRun | crates/agentmeld-m0/src/artifact.rs:122-167 | with any hash that tells the 256 one-byte results apart, a run from the empty directory ends over the limit |
| ResultArchive.FullForGood | crates/agentmeld-m0/src/artifact.rs:74-143 | once an archive is over a limit between puts it never changes again, and every put is refused for the quota, even of bytes it holds |
| ResultArchive.InventoryExact | crates/agentmeld-m0/src/artifact.rs:74-102 | whatever order the directory is listed in, the inventory counts and adds up all of it and is refused exactly when it is over a limit |
| ResultArchive.Archive.CheckInventory | crates/agentmeld-m0/src/artifact.rs:74-102 | the counting loop returns the count and size, or the first violation |
| ResultArchive.Archive.Store | crates/agentmeld-m0/src/artifact.rs:122-167 | put performs exactly the archive's steps, or is refused as specified |

## Left out

- The journal's and the stream's JSON encodings are abstract: a journal line is its snapshot with a length given by the environment, and stream messages go through a codec that reads back what it wrote on one line.
- The journal command that only reads the state; file modes, locks and paths.
- Reopening near the 16 MiB limit: recovery needs room for one more line, so acceptance by the validator is claimed, not that opening always succeeds.
- SQL, migrations and the write-ahead log: queries are given their rows in any order, transactions are atomic.
- Lease audit rows, message states, conversations, blobs, provider sessions (their generations restart), device sessions, timestamps of runs and steps.
- Ids that SQLite or the service makes up are taken as fresh; a parent step is named by its call key.
- Admission input, delivered artifacts and workspace listings carry no data in the model, only whether they are accepted.
- The hook that corrupts a stored action is not a step of a history.
- DbFold.StepsFold: says nothing of a step under the key of an approval that will never execute; DbBatches.ApprovalSteps and DbHonest.HonestUntilForged do.
- DbBatches.ApprovalSteps: does not cover a key under which the worker itself started a tool, because there the property fails; DbHonest.HonestUntilForged covers those histories up to the first such start.
- `Db.DecideApproval`, `Journal.Apply` and other methods without a loop repeat the branches of the transaction they are proved equal to; they are there so that the objects are whole, not as separate results.
- History import (db.rs:3664-3866): its rows are not steps of a history, and its replies are not deltas.
- A poisoned registry mutex, after which a waiter is told at once that it is revoked.
- DbTickets.DispatchTraced: that the two tickets are equal, not just their hashes, needs a hash without collisions.
- Guaranteed delivery to waiters: reading or listing approvals expires rows without telling anyone.
- ClientTrack.ExactlyOnce: storage is assumed to work, one tab is open, sequences are exact JavaScript numbers, and bytes arrive as decoded text.
- The producer's stall timeout and closed-channel behaviour: they only decide where a connection is cut.
- Parsing of canonical JSON covers the texts the printer writes: no white space, no other escapes; numbers are opaque tokens; and any nesting depth, where serde_json refuses text deeper than 128 (a stored action is two objects deep).
- `Number` of JavaScript is a parameter of the retry clamp.
- A fraction of a second cut inside a multi-byte character, on which the import code panics.
- File system errors inside a put are the same as a crash at that step. The archive's size limits are stated for process crashes; a power loss can bring back a staging file whose removal was not synced.
- DOM painting, sockets, processes, HTTP middleware, the remaining modules of the service.
