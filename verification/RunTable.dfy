/** A reference table of a run's life, written independently of the transactions: when a turn begins and
    ends, which worker events are accepted, and what each of them leaves. */
module RunTable {
  import opened Wrappers
  import opened Text
  import opened Tables
  import opened LeaseAndApprovals
  import opened WorkerEvents
  import opened DbInvariant
  import opened ApprovalTable
  import opened LeaseTable
  import DbStatements
  import DbTransactions
  import DbWorkerSteps

  // ----- the service's own steps -----

  function WithStatus(t: Tables, run: string, status: RunStatus): Tables
    requires run in t.runs
  {
    t.(runs := t.runs[run := t.runs[run].(status := status)])
  }

  function WithMilestone(t: Tables, run: string, name: string): Tables {
    t.(events := Journalled(t.events, run, run + ":" + name, name))
  }

  lemma MilestoneTable(t: Tables, run: string, name: string)
    ensures AddMilestone(t, run, name) == WithMilestone(t, run, name)
  {
    hide AddRow, Journalled;
    RowTable(t, run + ":" + name, run, name);
  }

  lemma EndedTable(t: Tables, run: string, status: RunStatus, name: string)
    requires run in t.runs
    ensures Ended(t, run, status, name) == WithMilestone(WithStatus(t, run, status), run, name)
  {
    hide AddMilestone, WithMilestone;
    MilestoneTable(WithStatus(t, run, status), run, name);
  }

  /** The statuses a run does not leave by itself. */
  predicate Over(s: RunStatus) {
    s == Completed || s == Failed || s == Cancelled || s == Interrupted
  }

  /** What beginning a turn is answered: never while a human has the computer or is being given it. */
  function BeginAnswer(t: Tables, run: string, now: int): Result<(nat, bool), DbError> {
    var l := Current(t.lease, now);
    if run !in t.runs then Err(RunNotFound)
    else if t.runs[run].status != Starting then Err(RunNotStarting)
    else if l.state == LeaseState.Agent || l.state == Resuming
    then Ok((t.runs[run].generation + 1, l.state == Resuming))
    else Err(HumanHasComputer)
  }

  /** A turn begins exactly for a run that is Starting while the lease, a stale hold released, is the
      agent's or is being resumed; the flag says that an observation is owed, exactly when it is being
      resumed. The run gets a new generation and an empty answer, and the start is journalled. */
  lemma BeginTable(t: Tables, run: string, now: int)
    ensures var r := BeginTurn(t, run, now);
            && r.result == BeginAnswer(t, run, now)
            && (r.result.Err? ==> r.tables == t)
            && (r.result.Ok? ==>
                  r.tables ==
                    t.(lease := Current(t.lease, now),
                       runs := t.runs[run := Run(Running, t.runs[run].generation + 1, Some(""))],
                       events := Journalled(t.events, run, run + ":run.started", "run.started")))
  {
    hide AutoRelease, Silent, AddMilestone, Journalled;
    CurrentTable(t.lease, now);
    if BeginTurn(t, run, now).result.Ok? {
      MilestoneTable(t.(lease := Current(t.lease, now),
                        runs := t.runs[run := Run(Running, t.runs[run].generation + 1, Some(""))]), run, "run.started");
      assert run + ":" + "run.started" == run + ":run.started";
    }
  }

  /** A run is admitted once, claimed while queued, interrupted until it is over; a queued run is stopped
      at once and a live one while its turn is active; a cancellation that precedes the worker ends
      the run; and a failed precheck fails it. */
  lemma LifecycleTable(t: Tables, run: string)
    ensures Admit(t, run) ==
              if run in t.runs || exists i | 0 <= i < |t.events| :: t.events[i].id == run + ":run.queued"
              then Tx(t, Err(DuplicateRow))
              else Tx(WithMilestone(t.(runs := t.runs[run := Run(Queued, 1, None)]), run, "run.queued"), Ok(true))
    ensures ClaimQueued(t, run) ==
              if run in t.runs && t.runs[run].status == Queued then Tx(WithStatus(t, run, Starting), Ok(true))
              else Tx(t, Ok(false))
    ensures MarkInterrupted(t, run) ==
              if run !in t.runs then Tx(t, Err(RunNotFound))
              else if Over(t.runs[run].status) then Tx(t, Ok(false))
              else Tx(WithMilestone(WithStatus(t, run, Interrupted), run, "run.interrupted"), Ok(true))
    ensures CancelBeforeSpawn(t, run) ==
              if run !in t.runs then Tx(t, Err(RunNotFound))
              else if t.runs[run].status != Cancelling then Tx(t, Err(NotCancelling))
              else Tx(WithMilestone(WithStatus(t, run, Cancelled), run, "run.cancelled"), Ok(true))
    ensures FailPrecheck(t, run) ==
              if run !in t.runs then Tx(t, Err(RunNotFound))
              else Tx(WithMilestone(WithStatus(t, run, Failed), run, "run.failed"), Ok(true))
    ensures Deliver(t, run) ==
              if run !in t.runs then Tx(t, Err(RunNotFound))
              else Tx(WithMilestone(t, run, "run.artifacts_delivered"), Ok(true))
  {
    hide AddMilestone, WithMilestone, Ended;
    MilestoneTable(t.(runs := t.runs[run := Run(Queued, 1, None)]), run, "run.queued");
    MilestoneTable(t, run, "run.artifacts_delivered");
    if run in t.runs {
      EndedTable(t, run, Interrupted, "run.interrupted");
      EndedTable(t, run, Cancelled, "run.cancelled");
      EndedTable(t, run, Failed, "run.failed");
    }
  }

  lemma StopTable(t: Tables, run: string, active: bool)
    ensures StopTask(t, run, active) ==
              if run !in t.runs then Tx(t, Err(RunNotFound)) else
              match t.runs[run].status
              case Queued => Tx(WithMilestone(WithStatus(t, run, Cancelled), run, "run.cancelled"), Ok(false))
              case Cancelling => if active then Tx(t, Ok(true)) else Tx(t, Err(NotStoppable))
              case Starting =>
                if active then Tx(WithMilestone(WithStatus(t, run, Cancelling), run, "run.cancelling"), Ok(true))
                else Tx(t, Err(NotStoppable))
              case Running =>
                if active then Tx(WithMilestone(WithStatus(t, run, Cancelling), run, "run.cancelling"), Ok(true))
                else Tx(t, Err(NotStoppable))
              case _ => Tx(t, Err(NotStoppable))
  {
    hide WithMilestone, Ended;
    if run in t.runs {
      EndedTable(t, run, Cancelled, "run.cancelled");
      EndedTable(t, run, Cancelling, "run.cancelling");
    }
  }

  // ----- worker events: when they are accepted -----

  predicate Sized(v: Option<string>, max: nat) {
    v.Some? && 1 <= Utf8Len(v.value) <= max
  }

  predicate StepUnder(ss: seq<ToolStep>, key: string) {
    exists i | 0 <= i < |ss| :: ss[i].key == key
  }

  /** A tool start is well formed, its parent is known, and an approval it names was granted and its
      ticket used. */
  predicate StartAccepted(t: Tables, run: string, b: Body)
    requires b.ToolStarted?
  {
    && Sized(b.key, 128) && Sized(b.tool, 128) && Sized(b.title, 256)
    && (b.parent.Some? ==> StepUnder(StepsOf(t, run), b.parent.value))
    && (b.approval.Some? ==>
          b.approval.value in t.approvals && t.approvals[b.approval.value].state == Approved
          && t.approvals[b.approval.value].consumedAt != None)
  }

  predicate FinishAccepted(t: Tables, run: string, b: Body)
    requires b.ToolFinished?
  {
    && b.key.Some? && StepUnder(StepsOf(t, run), b.key.value)
    && (b.state == Some("completed") || b.state == Some("failed") || b.state == Some("cancelled"))
    && (b.result.Some? ==> Utf8Len(b.result.value) <= 65_536) && b.outputKnown
  }

  /** Which events a run's worker may report. */
  predicate Accepts(hash: string -> string, t: Tables, run: string, b: Body, turn: Turn, now: int)
    requires run in t.runs
  {
    match b
    case AnswerDelta(text) => text == "" || t.runs[run].answer.Some?
    case SessionBound(accepted) => accepted
    case ToolStarted(_, _, _, _, _) => turn.toolEvents && StartAccepted(t, run, b)
    case ToolFinished(_, _, _, _) => turn.toolEvents && FinishAccepted(t, run, b)
    case RunCompleted => turn.hasListing
    case ApprovalDispatched(approval, ticket) =>
      approval.Some? && ticket.Some? && Redeemable(hash, t, run, approval.value, ticket.value)
    case RunResumed(digest) => |digest| >= 1 && Utf8Len(digest) <= 128 && Current(t.lease, now).state == Resuming
    case UnknownEvent => false
    case _ => true
  }

  predicate Redeemable(hash: string -> string, t: Tables, run: string, id: string, ticket: string) {
    && id in t.approvals && t.approvals[id].run == run && t.approvals[id].state == Approved
    && t.approvals[id].consumedAt == None && t.approvals[id].ticketHash == Some(hash(ticket))
  }

  // ----- worker events: what they leave -----

  /** The run's status after one of its worker's events. */
  function StatusAfter(s: RunStatus, b: Body): RunStatus {
    match b
    case RunCompleted => Completed
    case RunFailed => Failed
    case RunCancelled => Cancelled
    case RunTerminated(cleanupOk) => if cleanupOk && Over(s) then s else Failed
    case _ => s
  }

  /** The milestones the service journals for an event. */
  function Milestones(s: RunStatus, b: Body): Option<string> {
    match b
    case Milestone(name) => Some(name)
    case RunCompleted => Some("run.completed")
    case RunFailed => Some("run.failed")
    case RunCancelled => Some("run.cancelled")
    case RunTerminated(cleanupOk) => if cleanupOk && Over(s) then None else Some("run.failed")
    case _ => None
  }

  function AnswerAfter(answer: Option<string>, b: Body): Option<string> {
    if b.AnswerDelta? && answer.Some? then Some(answer.value + b.text) else answer
  }

  /** The rows an event adds after its own. */
  predicate RowsAfter(t: Tables, u: Tables, run: string, b: Body)
    requires run in t.runs
  {
    if b.RunResumed? then
      var g := t.lease.generation + 1;
      u.events == LeaseJournal(LeaseJournal(t.events, Some(run), "lease.observed", g), Some(run), "lease.resumed", g)
    else
      var name := Milestones(t.runs[run].status, b);
      u.events == if name.Some? then Journalled(t.events, run, run + ":" + name.value, name.value) else t.events
  }

  /** Finishing closes the running step under the key; starting adds a step under a new key. */
  predicate StepsAfter(ss: seq<ToolStep>, us: seq<ToolStep>, b: Body) {
    match b
    case ToolStarted(key, tool, title, parent, approval) =>
      && key.Some? && tool.Some? && title.Some?
      && us == if StepUnder(ss, key.value) then ss
               else ss + [ToolStep(key.value, |ss| + 1, parent, tool.value, title.value, approval, StepRunning, None)]
    case ToolFinished(key, state, result, _) =>
      && |us| == |ss|
      && forall i | 0 <= i < |ss| ::
           us[i] == if Some(ss[i].key) == key && ss[i].state == StepRunning
                    then ss[i].(state := if state == Some("completed") then StepCompleted
                                         else if state == Some("failed") then StepFailed else StepCancelled,
                                result := result)
                    else ss[i]
    case _ => us == ss
  }

  /** What an accepted event makes of the tables that already hold its row. */
  ghost predicate Projects(hash: string -> string, t: Tables, u: Tables, run: string, b: Body, now: int)
    requires run in t.runs
  {
    && u.grant == t.grant && u.devices == t.devices
    && u.lease == (if b.RunResumed? then Free(t.lease.generation + 1, now) else t.lease)
    && u.runs == t.runs[run := t.runs[run].(status := StatusAfter(t.runs[run].status, b),
                                            answer := AnswerAfter(t.runs[run].answer, b))]
    && u.approvals == (if b.ApprovalDispatched? && b.approval.Some? && b.approval.value in t.approvals
                       then t.approvals[b.approval.value := t.approvals[b.approval.value].(consumedAt := Some(now))]
                       else t.approvals)
    && (forall r: string | r != run :: StepsOf(u, r) == StepsOf(t, r))
    && StepsAfter(StepsOf(t, run), StepsOf(u, run), b)
    && RowsAfter(t, u, run, b)
  }

  ghost predicate Followed(hash: string -> string, t: Tables, run: string, b: Body, turn: Turn, now: int)
    requires run in t.runs
  {
    var r := Apply(hash, t, run, b, turn, now);
    (r.Ok? <==> Accepts(hash, t, run, b, turn, now)) && (r.Ok? ==> Projects(hash, t, r.value, run, b, now))
  }

  lemma EndingFollows(hash: string -> string, t: Tables, run: string, b: Body, turn: Turn, now: int)
    requires run in t.runs && (b.RunCompleted? || b.RunFailed? || b.RunCancelled? || b.RunTerminated?)
    ensures Followed(hash, t, run, b, turn, now)
  {
    hide Ended, AddMilestone, Journalled, Silent, LeaseJournal, NoteObserved, Claim;
    EndedTable(t, run, Completed, "run.completed");
    EndedTable(t, run, Failed, "run.failed");
    EndedTable(t, run, Cancelled, "run.cancelled");
  }

  lemma MilestoneFollows(hash: string -> string, t: Tables, run: string, b: Body, turn: Turn, now: int)
    requires run in t.runs && b.Milestone?
    ensures Followed(hash, t, run, b, turn, now)
  {
    hide AddMilestone, Journalled, Silent;
    MilestoneTable(t, run, b.name);
  }

  lemma QuietFollows(hash: string -> string, t: Tables, run: string, b: Body, turn: Turn, now: int)
    requires run in t.runs
    requires b.AnswerDelta? || b.ActivityChanged? || b.ArtifactsDelivered? || b.SessionBound? || b.OtherApprovalEvent?
             || b.UnknownEvent?
    ensures Followed(hash, t, run, b, turn, now)
  {
    hide NoteObserved, Claim, LeaseJournal, Silent, Utf8Len;
    if b.AnswerDelta? && b.text == "" && t.runs[run].answer.Some? {
      assert t.runs[run].answer.value + "" == t.runs[run].answer.value;
    }
  }

  lemma ResumedFollows(hash: string -> string, t: Tables, run: string, b: Body, turn: Turn, now: int)
    requires run in t.runs && b.RunResumed?
    ensures Followed(hash, t, run, b, turn, now)
  {
    hide NoteObserved, Claim, LeaseJournal, Silent, Utf8Len;
    ObservedTable(t, run, now);
    SilentIsFree(t.lease, now);
  }

  lemma DispatchedFollows(hash: string -> string, t: Tables, run: string, b: Body, turn: Turn, now: int)
    requires run in t.runs && b.ApprovalDispatched?
    ensures Followed(hash, t, run, b, turn, now)
  {
    hide NoteObserved, Claim, LeaseJournal, Silent, Utf8Len;
    if b.approval.Some? && b.ticket.Some? { ClaimTable(hash, t, run, b.approval.value, b.ticket.value, now); }
  }

  lemma SilentIsFree(l: Lease, now: int)
    ensures Current(l, now).state == Resuming ==> Current(l, now) == l
  {
  }

  lemma StartFollows(hash: string -> string, t: Tables, run: string, b: Body, turn: Turn, now: int)
    requires run in t.runs && b.ToolStarted? && StepsOk(t)
    ensures Followed(hash, t, run, b, turn, now)
  {
    hide Utf8Len, MaxOrdinal, Silent;
    assert Numbered(StepsOf(t, run));
    DbStatements.MaxOrdinalIsLength(StepsOf(t, run));
  }

  lemma FinishFollows(hash: string -> string, t: Tables, run: string, b: Body, turn: Turn, now: int)
    requires run in t.runs && b.ToolFinished?
    ensures Followed(hash, t, run, b, turn, now)
  {
    hide Utf8Len, Silent;
  }

  /** An event is accepted exactly when the table says so, and leaves what the table says. */
  lemma EventTable(hash: string -> string, t: Tables, run: string, b: Body, turn: Turn, now: int)
    requires run in t.runs && StepsOk(t)
    ensures var r := Apply(hash, t, run, b, turn, now);
            (r.Ok? <==> Accepts(hash, t, run, b, turn, now)) && (r.Ok? ==> Projects(hash, t, r.value, run, b, now))
  {
    hide Apply, Accepts, Projects, StepsOk;
    match b
    case ToolStarted(_, _, _, _, _) => StartFollows(hash, t, run, b, turn, now);
    case ToolFinished(_, _, _, _) => FinishFollows(hash, t, run, b, turn, now);
    case Milestone(_) => MilestoneFollows(hash, t, run, b, turn, now);
    case RunCompleted => EndingFollows(hash, t, run, b, turn, now);
    case RunFailed => EndingFollows(hash, t, run, b, turn, now);
    case RunCancelled => EndingFollows(hash, t, run, b, turn, now);
    case RunTerminated(_) => EndingFollows(hash, t, run, b, turn, now);
    case RunResumed(_) => ResumedFollows(hash, t, run, b, turn, now);
    case ApprovalDispatched(_, _) => DispatchedFollows(hash, t, run, b, turn, now);
    case _ => QuietFollows(hash, t, run, b, turn, now);
  }

  // ----- whole batches -----

  /** The key an event is known by: its dedupe key when it has one. */
  function KeyOf(e: WorkerEvent): string {
    match e.dedupe case Some(key) => key case None => e.id
  }

  /** The journal row of an event; everything but a session binding is the user's to see. */
  function EventRow(run: string, e: WorkerEvent): Event {
    Event(run + ":" + e.id, run, Worker(e.body), KeyOf(e), !e.body.SessionBound?)
  }

  predicate KnownAt(events: seq<Event>, run: string, key: string, k: nat) {
    k < |events| && events[k].run == run && events[k].source == key
    && forall i | 0 <= i < k :: !(events[i].run == run && events[i].source == key)
  }

  predicate KnownKey(events: seq<Event>, run: string, key: string) {
    exists i | 0 <= i < |events| :: events[i].run == run && events[i].source == key
  }

  predicate IdUsed(events: seq<Event>, id: string) {
    exists i | 0 <= i < |events| :: events[i].id == id
  }

  /** An event that can be taken now: its key is known, or its row id is free and it is accepted by the
      tables that hold its row. */
  predicate Takeable(hash: string -> string, t: Tables, run: string, e: WorkerEvent, turn: Turn, now: int)
    requires run in t.runs
  {
    || KnownKey(t.events, run, KeyOf(e))
    || (&& !IdUsed(t.events, run + ":" + e.id)
        && Accepts(hash, t.(events := t.events + [EventRow(run, e)]), run, e.body, turn, now))
  }

  /** One event of a batch: known by its key, it changes nothing and its first row is named; new, its row
      is added and projected. */
  ghost predicate Taking(hash: string -> string, t: Tables, u: Tables, run: string, e: WorkerEvent, turn: Turn,
                         now: int,
                         stored: Stored)
    requires run in t.runs
  {
    && Takeable(hash, t, run, e, turn, now)
    && stored.id == e.id && stored.duplicate == KnownKey(t.events, run, KeyOf(e))
    && (if stored.duplicate then u == t && stored.seqno > 0 && KnownAt(t.events, run, KeyOf(e), stored.seqno - 1)
        else
          && stored.seqno == |t.events| + 1
          && Projects(hash, t.(events := t.events + [EventRow(run, e)]), u, run, e.body, now))
  }

  lemma {:induction false} SeqOfFirst(events: seq<Event>, run: string, key: string)
    ensures SeqOf(events, run, key) != 0 <==> KnownKey(events, run, key)
    ensures SeqOf(events, run, key) != 0 ==> KnownAt(events, run, key, SeqOf(events, run, key) - 1)
  {
    if events != [] {
      var init, last := events[..|events| - 1], events[|events| - 1];
      SeqOfFirst(init, run, key);
      if KnownKey(init, run, key) {
        var i :| 0 <= i < |init| && init[i].run == run && init[i].source == key;
        assert events[i] == init[i];
      }
      if KnownKey(events, run, key) && !(last.run == run && last.source == key) {
        var i :| 0 <= i < |events| && events[i].run == run && events[i].source == key;
        assert init[i] == events[i];
      }
      if SeqOf(init, run, key) != 0 { assert KnownAt(events, run, key, SeqOf(init, run, key) - 1); }
    }
  }

  lemma OneTable(hash: string -> string, t: Tables, run: string, e: WorkerEvent, turn: Turn, now: int)
    requires run in t.runs && StepsOk(t)
    ensures var r := ApplyOne(hash, t, run, e, turn, now);
            && (r.Ok? <==> Takeable(hash, t, run, e, turn, now))
            && (r.Ok? ==> Taking(hash, t, r.value.0, run, e, turn, now, r.value.1))
  {
    hide SeqOf, Apply, Accepts, Projects, KnownKey, KnownAt;
    SeqOfFirst(t.events, run, KeyOf(e));
    var t1 := t.(events := t.events + [EventRow(run, e)]);
    assert EventRow(run, e) == RowOf(run, e) && KeyOf(e) == Source(e);
    assert StepsOk(t1) by { forall r: string ensures Numbered(StepsOf(t1, r)) { assert Numbered(StepsOf(t, r)); } }
    EventTable(hash, t1, run, e.body, turn, now);
  }

  /** The batch is for this run's turn: the run exists under the generation and is running or being
      cancelled, or is over and the batch is teardown evidence only. */
  predicate InTurn(t: Tables, run: string, generation: nat, es: seq<WorkerEvent>) {
    && run in t.runs && t.runs[run].generation == generation
    && (|| t.runs[run].status == Running || t.runs[run].status == Cancelling
        || (Over(t.runs[run].status) && forall i | 0 <= i < |es| :: es[i].body.RunTerminated?))
  }

  /** The tables between the events of a batch, as far as it gets. */
  ghost predicate Chain(hash: string -> string, ss: seq<Tables>, run: string, es: seq<WorkerEvent>, turn: Turn,
                        now: int,
                        stored: seq<Stored>)
  {
    && 1 <= |ss| <= |es| + 1 && |stored| == |ss| - 1
    && forall i | 0 <= i < |stored| ::
         run in ss[i].runs && Taking(hash, ss[i], ss[i + 1], run, es[i], turn, now, stored[i])
  }

  lemma TakingKeepsRun(hash: string -> string, t: Tables, u: Tables, run: string, e: WorkerEvent, turn: Turn, now: int,
                       stored: Stored)
    requires run in t.runs && Taking(hash, t, u, run, e, turn, now, stored)
    ensures run in u.runs
  {
    hide Takeable, RowsAfter, StepsAfter, KnownKey, KnownAt;
  }

  lemma ChainStarts(hash: string -> string, t: Tables, run: string, turn: Turn, now: int)
    ensures Chain(hash, [t], run, [], turn, now, []) && !TornDown([], [])
    ensures ApplyAll(hash, t, run, [], turn, now) == Ok((t, Batch([], false)))
  {
  }

  lemma ChainLonger(hash: string -> string, ss: seq<Tables>, run: string, es: seq<WorkerEvent>, e: WorkerEvent,
                    turn: Turn, now: int, stored: seq<Stored>)
    requires Chain(hash, ss, run, es, turn, now, stored)
    ensures Chain(hash, ss, run, es + [e], turn, now, stored) && |stored| == |ss| - 1 <= |es|
  {
    hide Taking;
  }

  lemma ChainGrows(hash: string -> string, ss: seq<Tables>, run: string, es: seq<WorkerEvent>, e: WorkerEvent,
                   turn: Turn, now: int, stored: seq<Stored>, u: Tables, last: Stored)
    requires Chain(hash, ss, run, es, turn, now, stored) && |ss| == |es| + 1 && run in ss[|es|].runs
    requires Taking(hash, ss[|es|], u, run, e, turn, now, last)
    ensures Chain(hash, ss + [u], run, es + [e], turn, now, stored + [last])
  {
    hide Taking;
    var more := ss + [u];
    forall i | 0 <= i <= |stored|
      ensures run in more[i].runs
      ensures Taking(hash, more[i], more[i + 1], run, (es + [e])[i], turn, now, (stored + [last])[i])
    {
    }
  }

  lemma {:induction false} ChainTable(hash: string -> string, t: Tables, run: string, es: seq<WorkerEvent>, turn: Turn,
                                      now: int) returns (ss: seq<Tables>, stored: seq<Stored>)
    requires Inv(hash, t) && run in t.runs
    requires DbWorkerSteps.OnlyTerminated(es) || DbStatements.NoPendingFor(t, run)
    ensures Chain(hash, ss, run, es, turn, now, stored) && ss[0] == t && run in ss[|ss| - 1].runs
    ensures var r := ApplyAll(hash, t, run, es, turn, now);
            && (r.Ok? <==> |ss| == |es| + 1)
            && (r.Ok? ==> r.value.0 == ss[|es|] && r.value.1.stored == stored)
            && (r.Ok? ==> (r.value.1.terminal <==> TornDown(es, stored)))
            && (r.Err? ==> !Takeable(hash, ss[|ss| - 1], run, es[|ss| - 1], turn, now))
    decreases |es|
  {
    hide *;
    if es == [] {
      ChainStarts(hash, t, run, turn, now);
      ss, stored := [t], [];
    } else {
      var init, e := es[..|es| - 1], es[|es| - 1];
      OnlyFront(es);
      ss, stored := ChainTable(hash, t, run, init, turn, now);
      ChainLonger(hash, ss, run, init, e, turn, now, stored);
      assert es == init + [e];
      OneMoreEvent(hash, t, run, init, e, turn, now);
      var before := ApplyAll(hash, t, run, init, turn, now);
      if before.Ok? {
        var m := before.value.0;
        DbWorkerSteps.ApplyAllKeeps(hash, t, run, init, turn, now);
        DbTransactions.KeepsInv(hash, t, m);
        InvSteps(hash, m);
        OneTable(hash, m, run, e, turn, now);
        var one := ApplyOne(hash, m, run, e, turn, now);
        if one.Ok? {
          TakingKeepsRun(hash, m, one.value.0, run, e, turn, now, one.value.1);
          TerminalGrows(init, e, stored, one.value.1);
          ChainGrows(hash, ss, run, init, e, turn, now, stored, one.value.0, one.value.1);
          ss, stored := ss + [one.value.0], stored + [one.value.1];
        }
      }
    }
  }

  lemma OnlyFront(es: seq<WorkerEvent>)
    requires es != []
    ensures DbWorkerSteps.OnlyTerminated(es) ==> DbWorkerSteps.OnlyTerminated(es[..|es| - 1])
  {
  }

  lemma OneMoreEvent(hash: string -> string, t: Tables, run: string, init: seq<WorkerEvent>, e: WorkerEvent, turn: Turn,
                     now: int)
    ensures var before, whole := ApplyAll(hash, t, run, init, turn, now), ApplyAll(hash, t, run, init + [e], turn, now);
            && (before.Err? ==> whole.Err?)
            && (before.Ok? ==>
                  var one := ApplyOne(hash, before.value.0, run, e, turn, now);
                  && (whole.Ok? <==> one.Ok?)
                  && (whole.Ok? ==>
                        && whole.value.0 == one.value.0 && whole.value.1.stored == before.value.1.stored + [one.value.1]
                        && (whole.value.1.terminal <==>
                              before.value.1.terminal || (e.body.RunTerminated? && !one.value.1.duplicate))))
  {
    hide ApplyOne;
    assert (init + [e])[..|init|] == init;
  }

  /** The batch brought new teardown evidence. */
  predicate TornDown(es: seq<WorkerEvent>, stored: seq<Stored>) {
    exists i | 0 <= i < |es| && i < |stored| :: es[i].body.RunTerminated? && !stored[i].duplicate
  }

  lemma TerminalGrows(init: seq<WorkerEvent>, e: WorkerEvent, stored: seq<Stored>, last: Stored)
    requires |stored| == |init|
    ensures TornDown(init + [e], stored + [last]) <==>
              TornDown(init, stored) || (e.body.RunTerminated? && !last.duplicate)
  {
    var es, all := init + [e], stored + [last];
    if TornDown(init, stored) {
      var i :| 0 <= i < |init| && init[i].body.RunTerminated? && !stored[i].duplicate;
      assert es[i].body.RunTerminated? && !all[i].duplicate;
    }
    if e.body.RunTerminated? && !last.duplicate { assert es[|init|].body.RunTerminated? && !all[|init|].duplicate; }
    if TornDown(es, all) {
      var i :| 0 <= i < |es| && es[i].body.RunTerminated? && !all[i].duplicate;
      assert i < |init| ==> init[i].body.RunTerminated? && !stored[i].duplicate;
    }
  }

  /** On reachable tables, a batch is accepted exactly when it is in the run's turn and each of its events
      can be taken in the tables the ones before it leave; then those tables, and what is answered for
      each event, are the chain's. The first event that cannot be taken undoes the whole batch. */
  lemma BatchTable(hash: string -> string, t: Tables, run: string, generation: nat, es: seq<WorkerEvent>, turn: Turn,
                   now: int) returns (ss: seq<Tables>, stored: seq<Stored>)
    requires Inv(hash, t)
    ensures var r := ApplyBatch(hash, t, run, generation, es, turn, now);
            && Chain(hash, ss, run, es, turn, now, stored) && ss[0] == t
            && (r.result.Ok? <==> InTurn(t, run, generation, es) && |ss| == |es| + 1)
            && (r.result.Err? ==> r.tables == t)
            && (r.result.Err? && InTurn(t, run, generation, es) ==>
                  run in ss[|ss| - 1].runs && !Takeable(hash, ss[|ss| - 1], run, es[|ss| - 1], turn, now))
            && (r.result.Ok? ==>
                  && r.tables == ss[|es|] && r.result.value.stored == stored
                  && (r.result.value.terminal <==> TornDown(es, stored)))
  {
    hide Inv, ApplyAll, Taking, Takeable;
    ss, stored := [t], [];
    if InTurn(t, run, generation, es) {
      if t.runs[run].status in {Running, Cancelling} { DbWorkerSteps.AcceptingNoPending(hash, t, run); }
      ss, stored := ChainTable(hash, t, run, es, turn, now);
    }
  }
}
