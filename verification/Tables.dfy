/** The service database as a value: the lease, runs, approvals, tool steps and journal
    tables, and the statements the transactions are made of.
    Models the tables of crates/agentmeld-server/src/migrations and the `_locked` helpers of
    crates/agentmeld-server/src/db.rs. */
module Tables {
  import opened Wrappers
  import opened Text
  import Json = CanonicalJson

  // ----- rows -----

  datatype LeaseState = Agent | Pausing | Human | Resuming | Observed | Paused

  datatype Lease = Lease(
    generation: nat, state: LeaseState, holder: Option<string>, bracket: bool,
    heldSince: Option<int>, heartbeat: Option<int>, updated: int)

  datatype RunStatus =
    | Queued | Starting | Running | WaitingApproval | WaitingHuman | Cancelling
    | Cancelled | Completed | Failed | Interrupted | Reconciling | NeedsAttention

  /** `answer` is the text of the run's response message, once there is one. */
  datatype Run = Run(status: RunStatus, generation: nat, answer: Option<string>)

  datatype ApprovalState = Pending | Approved | Denied | Expired | Revoked

  datatype Reason = DeviceRevoked | LeaseTakeover | LeaseRevoked | DigestMismatch | ServiceRestart | UserRevoked

  datatype Approval = Approval(
    run: string, digest: string, actionJson: string, description: string,
    grant: nat, leaseGeneration: nat, expiresAt: int, createdAt: int,
    state: ApprovalState, ticketHash: Option<string>, consumedAt: Option<int>,
    decidedBy: Option<string>, decidedAt: Option<int>, reason: Option<Reason>)

  datatype StepState = StepRunning | StepCompleted | StepFailed | StepDenied | StepCancelled

  datatype ToolStep = ToolStep(
    key: string, ordinal: nat, parent: Option<string>, tool: string, title: string,
    approval: Option<string>, state: StepState, result: Option<string>)

  /** A worker event's type and the payload fields the service reads. */
  datatype Body =
    | Milestone(name: string)
    | AnswerDelta(text: string)
    | ActivityChanged
    | ArtifactsDelivered
    | SessionBound(accepted: bool)
    | ToolStarted(key: Option<string>, tool: Option<string>, title: Option<string>,
                  parent: Option<string>, approval: Option<string>)
    | ToolFinished(key: Option<string>, state: Option<string>, result: Option<string>, outputKnown: bool)
    | RunCompleted | RunFailed | RunCancelled
    | RunTerminated(cleanupOk: bool)
    | ApprovalDispatched(approval: Option<string>, ticket: Option<string>)
    | RunResumed(digest: string)
    | OtherApprovalEvent
    | UnknownEvent

  datatype Kind = Service(name: string) | Worker(body: Body)

  /** A run_events row; its sequence is its position plus one. */
  datatype Event = Event(id: string, run: string, kind: Kind, source: string, userVisible: bool)

  datatype Tables = Tables(
    lease: Lease, grant: nat, devices: set<string>, runs: map<string, Run>,
    approvals: map<string, Approval>, steps: map<string, seq<ToolStep>>, events: seq<Event>)

  datatype DbError =
    | RunNotFound | ApprovalNotFound | NotPending | CheckFailed
    | StaleLease | NotHolder | WrongState | StaleGeneration | PendingExists | RunNotActive
    | MalformedProposal | DuplicateApproval
    | AlreadySettled(state: ApprovalState) | ApprovalExpired | DigestChanged | StaleGrant | RunNotWaiting
    | UnparseableAction | UnknownDevice | RunNotStarting | HumanHasComputer
    | UnknownApproval | TicketMismatch | NotApproved | TicketReused
    | NoResponseMessage | BindingMismatch | ToolEventsRefused | MalformedTool | UnknownParent
    | UngatedTool | UnknownCallKey | NoSnapshot | MalformedDispatch | MalformedResume | UnknownEventType
    | DuplicateRow | NotStoppable | NotCancelling

  /** What a transaction leaves behind: the committed tables (the old ones when it rolled
      back) and its result. */
  datatype Tx<T> = Tx(tables: Tables, result: Result<T, DbError>)

  // ----- runs and journal rows -----

  predicate Terminal(s: RunStatus) {
    s in {Cancelled, Completed, Failed, Interrupted}
  }

  function SetStatus(t: Tables, run: string, status: RunStatus): Tables {
    if run in t.runs then t.(runs := t.runs[run := t.runs[run].(status := status)]) else t
  }

  /** The two uniqueness constraints of run_events. */
  predicate Clashes(a: Event, b: Event) {
    a.id == b.id || (a.run == b.run && a.source == b.source)
  }

  function InsertOrIgnore(events: seq<Event>, e: Event): seq<Event> {
    if exists i | 0 <= i < |events| :: Clashes(events[i], e) then events else events + [e]
  }

  /** A row the service itself journals; its id is also its source key. */
  function AddRow(t: Tables, id: string, run: string, name: string): Tables {
    t.(events := InsertOrIgnore(t.events, Event(id, run, Service(name), id, true)))
  }

  function AddMilestone(t: Tables, run: string, name: string): Tables {
    AddRow(t, run + ":" + name, run, name)
  }

  function AddApprovalRow(t: Tables, run: string, approval: string, name: string): Tables {
    AddRow(t, approval + ":" + name, run, name)
  }

  /** Rows of the lease stream go to the run a transition affects, if any; it must exist. */
  function LeaseRow(t: Tables, run: Option<string>, name: string, generation: nat): Result<Tables, DbError> {
    if run.None? then Ok(t)
    else if run.value !in t.runs then Err(RunNotFound)
    else Ok(AddRow(t, run.value + ":" + name + ":" + Decimal(generation), run.value, name))
  }

  // ----- tool steps -----

  function StepsOf(t: Tables, run: string): seq<ToolStep> {
    if run in t.steps then t.steps[run] else []
  }

  predicate HasKey(ss: seq<ToolStep>, key: string) {
    exists i | 0 <= i < |ss| :: ss[i].key == key
  }

  function MaxOrdinal(ss: seq<ToolStep>): nat {
    if ss == [] then 0 else
      var m := MaxOrdinal(ss[..|ss| - 1]);
      if ss[|ss| - 1].ordinal > m then ss[|ss| - 1].ordinal else m
  }

  /** INSERT ... ON CONFLICT DO NOTHING with the next ordinal of the run. */
  function AddStep(ss: seq<ToolStep>, s: ToolStep): seq<ToolStep> {
    if HasKey(ss, s.key) then ss else ss + [s.(ordinal := MaxOrdinal(ss) + 1)]
  }

  function PutSteps(t: Tables, run: string, ss: seq<ToolStep>): Tables {
    t.(steps := t.steps[run := ss])
  }

  // ----- approvals -----

  function ApprovalKey(id: string): string {
    "approval:" + id
  }

  function ActionTool(actionJson: string): string {
    var v := Json.Parse(actionJson);
    var name := if v.Some? && v.value.Object? then Member(v.value.entries, "tool") else "";
    if name == "" then "tool" else name
  }

  function Member(es: seq<Json.Entry<Json.Json>>, key: string): string {
    if es == [] then ""
    else if es[0].key == key then (if es[0].value.String? then es[0].value.text else "")
    else Member(es[1..], key)
  }

  /** The terminal step the service writes for an approval that will never execute. */
  function ServiceStep(id: string, a: Approval, state: StepState): ToolStep {
    var title := Truncate(Trim(a.description), 256);
    ToolStep(ApprovalKey(id), 0, None, Truncate(ActionTool(a.actionJson), 128),
             if title == "" then "(approval)" else title, Some(id), state,
             Some(if state.StepDenied? then "denied" else "cancelled"))
  }

  function AddServiceStep(t: Tables, id: string, a: Approval, state: StepState): Tables {
    PutSteps(t, a.run, AddStep(StepsOf(t, a.run), ServiceStep(id, a, state)))
  }

  function PutApproval(t: Tables, id: string, a: Approval): Tables {
    t.(approvals := t.approvals[id := a])
  }

  /** The CHECK constraint on `revoked_reason` (migration v6). */
  predicate ReasonAllowed(r: Reason) {
    r != LeaseRevoked
  }

  /** Settle one pending approval as revoked, journal it, and write its cancelled step. */
  function Retire(t: Tables, id: string, reason: Reason, who: Option<string>, now: int): Result<Tables, DbError> {
    if id !in t.approvals || !t.approvals[id].state.Pending? then Err(NotPending)
    else if !ReasonAllowed(reason) then Err(CheckFailed)
    else
      var a := t.approvals[id];
      if a.run !in t.runs then Err(RunNotFound) else
      var t1 := PutApproval(t, id,
                            a.(state := Revoked, reason := Some(reason), decidedBy := who, decidedAt := Some(now)));
      Ok(AddServiceStep(AddApprovalRow(t1, a.run, id, "approval.revoked"), id, a, StepCancelled))
  }

  function RetireAll(t: Tables, ids: seq<string>, reason: Reason, who: Option<string>,
                     now: int): Result<Tables, DbError>
  {
    if ids == [] then Ok(t) else
    var t1 :- RetireAll(t, ids[..|ids| - 1], reason, who, now);
    Retire(t1, ids[|ids| - 1], reason, who, now)
  }

  predicate Due(a: Approval, now: int) {
    a.state.Pending? && a.expiresAt <= now
  }

  /** `expire_approval_locked`: a due row expires, is journalled, gets its step, and its run
      fails closed. The flag says whether it did. */
  function Expire(t: Tables, id: string, now: int): Result<(Tables, bool), DbError> {
    if id !in t.approvals || !Due(t.approvals[id], now) then Ok((t, false)) else
    var a := t.approvals[id];
    if a.run !in t.runs then Err(RunNotFound) else
    var t1 := AddApprovalRow(PutApproval(t, id, a.(state := Expired)), a.run, id, "approval.request_timed_out");
    Ok((SetStatus(AddServiceStep(t1, id, a, StepCancelled), a.run, Interrupted), true))
  }

  function ExpireAll(t: Tables, ids: seq<string>, now: int): Result<Tables, DbError> {
    if ids == [] then Ok(t) else
    var t1 :- ExpireAll(t, ids[..|ids| - 1], now);
    var r :- Expire(t1, ids[|ids| - 1], now);
    Ok(r.0)
  }

  /** A query result: the ids of a set, each once, in whatever order the engine returns. */
  ghost predicate Listing(order: seq<string>, ids: set<string>) {
    && (forall i | 0 <= i < |order| :: order[i] in ids)
    && (forall id | id in ids :: id in order)
    && (forall i, j | 0 <= i < j < |order| :: order[i] != order[j])
  }

  function PendingIds(t: Tables): set<string> {
    set id | id in t.approvals && t.approvals[id].state.Pending?
  }

  function DueIds(t: Tables, now: int): set<string> {
    set id | id in t.approvals && Due(t.approvals[id], now)
  }
}
