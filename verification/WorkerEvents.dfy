/** Turn lifecycle and the worker's event batches of crates/agentmeld-server/src/db.rs. */
module WorkerEvents {
  import opened Wrappers
  import opened Text
  import opened Tables
  import opened LeaseAndApprovals

  datatype WorkerEvent = WorkerEvent(id: string, dedupe: Option<string>, body: Body)

  datatype Stored = Stored(id: string, seqno: nat, duplicate: bool)

  datatype Batch = Batch(stored: seq<Stored>, terminal: bool)

  /** What the supervisor negotiated for the turn. */
  datatype Turn = Turn(hasListing: bool, toolEvents: bool)

  function Source(e: WorkerEvent): string {
    if e.dedupe.Some? then e.dedupe.value else e.id
  }

  /** The sequence of the run's row with a source key; 0 when there is none. */
  function SeqOf(events: seq<Event>, run: string, source: string): nat {
    if events == [] then 0 else
      var earlier := SeqOf(events[..|events| - 1], run, source);
      var last := events[|events| - 1];
      if earlier != 0 then earlier else if last.run == run && last.source == source then |events| else 0
  }

  function Bounded(v: Option<string>, max: nat): Result<string, DbError> {
    if v.Some? && 1 <= Utf8Len(v.value) <= max then Ok(v.value) else Err(MalformedTool)
  }

  function StartStep(t: Tables, run: string, b: Body): Result<Tables, DbError>
    requires b.ToolStarted?
  {
    var key :- Bounded(b.key, 128);
    var tool :- Bounded(b.tool, 128);
    var title :- Bounded(b.title, 256);
    var ss := StepsOf(t, run);
    if b.parent.Some? && !HasKey(ss, b.parent.value) then Err(UnknownParent)
    else if b.approval.Some? && b.approval.value !in t.approvals then Err(UnknownApproval)
    else if b.approval.Some?
        && !(t.approvals[b.approval.value].state.Approved? && t.approvals[b.approval.value].consumedAt.Some?)
    then Err(UngatedTool)
    else Ok(PutSteps(t, run, AddStep(ss, ToolStep(key, 0, b.parent, tool, title, b.approval, StepRunning, None))))
  }

  function FinishState(s: Option<string>): Result<StepState, DbError> {
    if s == Some("completed") then Ok(StepCompleted)
    else if s == Some("failed") then Ok(StepFailed)
    else if s == Some("cancelled") then Ok(StepCancelled)
    else Err(MalformedTool)
  }

  /** Only a running step with that key is finished: the first write wins. */
  function Finished(ss: seq<ToolStep>, key: string, state: StepState, result: Option<string>): seq<ToolStep> {
    seq(|ss|, i requires 0 <= i < |ss| =>
      if ss[i].key == key && ss[i].state.StepRunning? then ss[i].(state := state, result := result) else ss[i])
  }

  function FinishStep(t: Tables, run: string, b: Body): Result<Tables, DbError>
    requires b.ToolFinished?
  {
    if b.key.None? then Err(MalformedTool) else
    var state :- FinishState(b.state);
    if b.result.Some? && Utf8Len(b.result.value) > 65536 then Err(MalformedTool)
    else if !b.outputKnown then Err(MalformedTool)
    else if !HasKey(StepsOf(t, run), b.key.value) then Err(UnknownCallKey)
    else Ok(PutSteps(t, run, Finished(StepsOf(t, run), b.key.value, state, b.result)))
  }

  function AppendAnswer(t: Tables, run: string, text: string): Result<Tables, DbError> {
    if run !in t.runs then Err(RunNotFound)
    else if t.runs[run].answer.None? then Err(NoResponseMessage)
    else Ok(t.(runs := t.runs[run := t.runs[run].(answer := Some(t.runs[run].answer.value + text))]))
  }

  function Ended(t: Tables, run: string, status: RunStatus, name: string): Tables {
    AddMilestone(SetStatus(t, run, status), run, name)
  }

  function EndRun(t: Tables, run: string, status: RunStatus, name: string): Result<Tables, DbError> {
    if run !in t.runs then Err(RunNotFound) else Ok(Ended(t, run, status, name))
  }

  /** `apply_event_semantics`: the projection of one newly journalled event. */
  function Apply(hash: string -> string, t: Tables, run: string, b: Body, turn: Turn,
                 now: int): Result<Tables, DbError>
  {
    match b
    case Milestone(name) => if run !in t.runs then Err(RunNotFound) else Ok(AddMilestone(t, run, name))
    case AnswerDelta(text) => if text == "" then Ok(t) else AppendAnswer(t, run, text)
    case ActivityChanged => Ok(t)
    case ArtifactsDelivered => Ok(t)
    case SessionBound(accepted) => if accepted then Ok(t) else Err(BindingMismatch)
    case ToolStarted(_, _, _, _, _) => if turn.toolEvents then StartStep(t, run, b) else Err(ToolEventsRefused)
    case ToolFinished(_, _, _, _) => if turn.toolEvents then FinishStep(t, run, b) else Err(ToolEventsRefused)
    case RunCompleted => if turn.hasListing then EndRun(t, run, Completed, "run.completed") else Err(NoSnapshot)
    case RunFailed => EndRun(t, run, Failed, "run.failed")
    case RunCancelled => EndRun(t, run, Cancelled, "run.cancelled")
    case RunTerminated(cleanupOk) =>
      if run !in t.runs then Err(RunNotFound)
      else if !Terminal(t.runs[run].status) || !cleanupOk then Ok(Ended(t, run, Failed, "run.failed"))
      else Ok(t)
    case ApprovalDispatched(approval, ticket) =>
      if approval.None? || ticket.None? then Err(MalformedDispatch)
      else Claim(hash, t, run, approval.value, ticket.value, now)
    case RunResumed(digest) =>
      if digest == "" || Utf8Len(digest) > 128 then Err(MalformedResume) else NoteObserved(t, run, now)
    case OtherApprovalEvent => Ok(t)
    case UnknownEvent => Err(UnknownEventType)
  }

  predicate UserVisible(b: Body) {
    !b.SessionBound?
  }

  function RowOf(run: string, e: WorkerEvent): Event {
    Event(run + ":" + e.id, run, Worker(e.body), Source(e), UserVisible(e.body))
  }

  /** Journal one event and project it; a known source key is a duplicate and changes nothing. */
  function ApplyOne(hash: string -> string, t: Tables, run: string, e: WorkerEvent, turn: Turn,
                    now: int): Result<(Tables, Stored), DbError>
  {
    var known := SeqOf(t.events, run, Source(e));
    if known != 0 then Ok((t, Stored(e.id, known, true)))
    else if exists i | 0 <= i < |t.events| :: t.events[i].id == run + ":" + e.id then Err(DuplicateRow)
    else
      var t1 := t.(events := t.events + [RowOf(run, e)]);
      var t2 :- Apply(hash, t1, run, e.body, turn, now);
      Ok((t2, Stored(e.id, |t1.events|, false)))
  }

  function ApplyAll(hash: string -> string, t: Tables, run: string, es: seq<WorkerEvent>, turn: Turn,
                    now: int): Result<(Tables, Batch), DbError>
  {
    if es == [] then Ok((t, Batch([], false))) else
    var r :- ApplyAll(hash, t, run, es[..|es| - 1], turn, now);
    var e := es[|es| - 1];
    var one :- ApplyOne(hash, r.0, run, e, turn, now);
    Ok((one.0, Batch(r.1.stored + [one.1],
                     r.1.terminal || (e.body.RunTerminated? && !one.1.duplicate))))
  }

  /** Batches are for a live run; a terminal one still takes its teardown evidence. */
  predicate Accepting(t: Tables, run: string, es: seq<WorkerEvent>) {
    && run in t.runs
    && (|| t.runs[run].status in {Running, Cancelling}
        || (Terminal(t.runs[run].status) && forall i | 0 <= i < |es| :: es[i].body.RunTerminated?))
  }

  /** `apply_worker_events`. */
  function ApplyBatch(hash: string -> string, t: Tables, run: string, generation: nat, es: seq<WorkerEvent>, turn: Turn,
                      now: int): Tx<Batch>
  {
    if run !in t.runs then Rollback(t, RunNotFound)
    else if t.runs[run].generation != generation then Rollback(t, StaleGeneration)
    else if !Accepting(t, run, es) then Rollback(t, RunNotActive)
    else
      var r := ApplyAll(hash, t, run, es, turn, now);
      if r.Err? then Rollback(t, r.error) else Tx(r.value.0, Ok(r.value.1))
  }

  // ----- the run's own lifecycle -----

  function Admit(t: Tables, run: string): Tx<bool> {
    var id := run + ":run.queued";
    if run in t.runs || exists i | 0 <= i < |t.events| :: t.events[i].id == id then Rollback(t, DuplicateRow) else
    Tx(AddMilestone(t.(runs := t.runs[run := Run(Queued, 1, None)]), run, "run.queued"), Ok(true))
  }

  function ClaimQueued(t: Tables, run: string): Tx<bool> {
    if run in t.runs && t.runs[run].status.Queued? then Tx(SetStatus(t, run, Starting), Ok(true)) else Tx(t, Ok(false))
  }

  /** `begin_turn`; the result is the new generation and whether an observation is owed. */
  function BeginTurn(t: Tables, run: string, now: int): Tx<(nat, bool)> {
    if run !in t.runs then Rollback(t, RunNotFound)
    else if !t.runs[run].status.Starting? then Rollback(t, RunNotStarting)
    else
      var l := AutoRelease(t.lease, now);
      if !(l.state in {LeaseState.Agent, LeaseState.Resuming}) then Rollback(t, HumanHasComputer)
      else
        var r := t.runs[run];
        var t1 := t.(lease := l, runs := t.runs[run := Run(Running, r.generation + 1, Some(""))]);
        Tx(AddMilestone(t1, run, "run.started"), Ok((r.generation + 1, l.state.Resuming?)))
  }

  function MarkInterrupted(t: Tables, run: string): Tx<bool> {
    if run !in t.runs then Rollback(t, RunNotFound)
    else if Terminal(t.runs[run].status) then Tx(t, Ok(false))
    else
      Tx(Ended(t, run, Interrupted, "run.interrupted"), Ok(true))
  }

  function StopTask(t: Tables, run: string, active: bool): Tx<bool> {
    if run !in t.runs then Rollback(t, RunNotFound) else
    var status := t.runs[run].status;
    if status.Queued? then
      Tx(Ended(t, run, Cancelled, "run.cancelled"), Ok(false))
    else if !(status in {Running, Cancelling, Starting}) || !active then Rollback(t, NotStoppable)
    else if status.Cancelling? then Tx(t, Ok(true))
    else
      Tx(Ended(t, run, Cancelling, "run.cancelling"), Ok(true))
  }

  function CancelBeforeSpawn(t: Tables, run: string): Tx<bool> {
    if run !in t.runs then Rollback(t, RunNotFound)
    else if !t.runs[run].status.Cancelling? then Rollback(t, NotCancelling)
    else
      Tx(Ended(t, run, Cancelled, "run.cancelled"), Ok(true))
  }

  /** A claimed run that cannot start. */
  function FailPrecheck(t: Tables, run: string): Tx<bool> {
    if run !in t.runs then Rollback(t, RunNotFound) else Tx(Ended(t, run, Failed, "run.failed"), Ok(true))
  }

  /** Accepted artifacts leave a milestone; the files themselves are not modelled. */
  function Deliver(t: Tables, run: string): Tx<bool> {
    if run !in t.runs then Rollback(t, RunNotFound) else Tx(AddMilestone(t, run, "run.artifacts_delivered"), Ok(true))
  }
}
