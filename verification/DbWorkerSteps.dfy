/** The worker's batches and the run lifecycle keep the invariant. */
module DbWorkerSteps {
  import opened Wrappers
  import opened Tables
  import opened LeaseAndApprovals
  import opened WorkerEvents
  import opened DbInvariant
  import opened DbStatements
  import opened DbTransactions
  import opened DbApprovalSteps

  /** A run that accepts an ordinary event has nothing pending on it. */
  lemma AcceptingNoPending(hash: string -> string, t: Tables, run: string)
    requires Inv(hash, t) && run in t.runs && !Parked(t.runs[run].status)
    ensures NoPendingFor(t, run)
  {
    hide StoredCanonically;
  }

  // ----- journalling an event together with its projection -----

  /** Steps under keys of the service's form stay as they are unless the worker claimed the key. */
  ghost predicate ReservedKept(events: seq<Event>, run: string, ss: seq<ToolStep>, us: seq<ToolStep>) {
    && |ss| <= |us|
    && forall i | 0 <= i < |us| && Reserved(us[i].key) ::
         Claimed(events, run, us[i].key) || (i < |ss| && us[i] == ss[i])
  }

  lemma ReservedKeys(events: seq<Event>, run: string, ss: seq<ToolStep>, us: seq<ToolStep>, id: string)
    requires ReservedKept(events, run, ss, us) && StepsEvolve(ss, us) && !Claimed(events, run, ApprovalKey(id))
    ensures HasKey(us, ApprovalKey(id)) <==> HasKey(ss, ApprovalKey(id))
    ensures forall i | 0 <= i < |us| && us[i].key == ApprovalKey(id) :: i < |ss| && us[i] == ss[i]
  {
    hide Claimed;
    KeyInjective(id, id);
    if i :| 0 <= i < |ss| && ss[i].key == ApprovalKey(id) { assert us[i].key == ApprovalKey(id); }
    if i :| 0 <= i < |us| && us[i].key == ApprovalKey(id) { assert ss[i].key == ApprovalKey(id); }
  }

  /** Tables that differ in one run's worker steps and reply, and in journal rows. */
  lemma WorkerProjection(hash: string -> string, t: Tables, u: Tables, run: string)
    requires Inv(hash, t) && u == t.(runs := u.runs, steps := u.steps, events := u.events)
    requires u.runs.Keys == t.runs.Keys && t.events <= u.events && RowsOk(hash, u) && RunsOk(u)
    requires forall r: string | r != run :: StepsOf(u, r) == StepsOf(t, r)
    requires Numbered(StepsOf(u, run)) && StepsEvolve(StepsOf(t, run), StepsOf(u, run))
    requires ReservedKept(u.events, run, StepsOf(t, run), StepsOf(u, run))
    requires forall i | 0 <= i < |StepsOf(u, run)| :: GatedStep(u, StepsOf(u, run)[i])
    requires Journaled(u)
    ensures Keeps(hash, t, u)
  {
    hide RowsOk, OnePending, Numbered, StepsEvolve, JournaledFor, ReservedKept, RowEvolves, StoredCanonically;
    EvolvesRefl(t);
    assert RowsEvolve(t, u);
    forall r: string ensures StepsEvolve(StepsOf(t, r), StepsOf(u, r)) {
      assert StepsEvolve(StepsOf(t, r), StepsOf(t, r));
    }
    forall r: string ensures Numbered(StepsOf(u, r)) { assert Numbered(StepsOf(t, r)); }
    forall r: string, i | 0 <= i < |StepsOf(u, r)| ensures GatedStep(u, StepsOf(u, r)[i]) {
      if r != run { assert GatedStep(t, StepsOf(t, r)[i]); }
    }
    assert OnePending(u) by { OnePendingFrame(t, u); }
    assert ProjectedUnlessClaimed(u) by { ProjectionFrame(t, u, run); }
  }

  lemma OnePendingFrame(t: Tables, u: Tables)
    requires OnePending(t) && u.approvals == t.approvals
    ensures OnePending(u)
  {
    assert PendingIds(u) == PendingIds(t);
  }

  lemma ProjectionFrame(t: Tables, u: Tables, run: string)
    requires ProjectedUnlessClaimed(t) && u.approvals == t.approvals && t.events <= u.events
    requires forall r: string | r != run :: StepsOf(u, r) == StepsOf(t, r)
    requires StepsEvolve(StepsOf(t, run), StepsOf(u, run))
    requires ReservedKept(u.events, run, StepsOf(t, run), StepsOf(u, run))
    ensures ProjectedUnlessClaimed(u)
  {
    hide StepsOf, Claimed, StepsEvolve, ReservedKept;
    forall r: string, x: string ensures Unspoiled(u, r, x) {
      assert Unspoiled(t, r, x);
      ClaimsStay(t.events, u.events, r, ApprovalKey(x));
      if r == run && !Claimed(u.events, run, ApprovalKey(x)) {
        ReservedKeys(u.events, run, StepsOf(t, run), StepsOf(u, run), x);
      }
    }
  }

  /** A step of the service's that nobody claimed is finished when it is written. */
  lemma ServiceStepsDone(t: Tables, run: string, i: nat)
    requires ProjectedUnlessClaimed(t) && i < |StepsOf(t, run)| && Reserved(StepsOf(t, run)[i].key)
    requires !Claimed(t.events, run, StepsOf(t, run)[i].key)
    ensures !StepsOf(t, run)[i].state.StepRunning?
  {
    var key := StepsOf(t, run)[i].key;
    assert key == ApprovalKey(key[9..]);
    assert Unspoiled(t, run, key[9..]);
  }

  lemma AnswerAppend(events: seq<Event>, e: Event, run: string)
    ensures AnswerOf(events + [e], run) ==
              AnswerOf(events, run) +
                  (if e.run == run && e.kind.Worker? && e.kind.body.AnswerDelta? then e.kind.body.text else "")
  {
    assert (events + [e])[..|events|] == events;
  }

  predicate Quiet(b: Body) {
    !b.AnswerDelta? && !b.ToolStarted? && !b.ToolFinished?
  }

  /** A journal row that projects to nothing. */
  lemma QuietRow(hash: string -> string, t: Tables, e: Event)
    requires Inv(hash, t) && e.kind.Worker? && (Quiet(e.kind.body) || e.kind.body == AnswerDelta(""))
    ensures Keeps(hash, t, t.(events := t.events + [e]))
  {
    hide StoredCanonically, RowOk, Numbered, Unspoiled, GatedStep, AnswerOf;
    var u := t.(events := t.events + [e]);
    forall run: string ensures JournaledFor(u, run) {
      assert JournaledFor(t, run);
      AnswerAppend(t.events, e, run);
    }
    SameButEvents(hash, t, u);
  }

  lemma AnswerKeeps(hash: string -> string, t: Tables, e: Event)
    requires Inv(hash, t) && e.kind.Worker? && e.kind.body.AnswerDelta?
    requires AppendAnswer(t.(events := t.events + [e]), e.run, e.kind.body.text).Ok?
    ensures Keeps(hash, t, AppendAnswer(t.(events := t.events + [e]), e.run, e.kind.body.text).value)
  {
    hide StoredCanonically, AnswerOf, ProjectedUnlessClaimed, OnePending, Claimed;
    var u := AppendAnswer(t.(events := t.events + [e]), e.run, e.kind.body.text).value;
    assert RunOk(t.runs[e.run]);
    forall r: string ensures JournaledFor(u, r) {
      assert JournaledFor(t, r);
      AnswerAppend(t.events, e, r);
    }
    forall i | 0 <= i < |StepsOf(u, e.run)| ensures GatedStep(u, StepsOf(u, e.run)[i]) {
      assert GatedStep(t, StepsOf(t, e.run)[i]);
    }
    assert Numbered(StepsOf(t, e.run));
    WorkerProjection(hash, t, u, e.run);
  }

  /** The steps of one run are replaced. */
  lemma StepsReplaced(hash: string -> string, t: Tables, e: Event, us: seq<ToolStep>)
    requires Inv(hash, t) && e.kind.Worker? && !e.kind.body.AnswerDelta?
    requires Numbered(us) && StepsEvolve(StepsOf(t, e.run), us)
    requires ReservedKept(t.events + [e], e.run, StepsOf(t, e.run), us)
    requires forall i | 0 <= i < |us| :: GatedStep(t, us[i])
    ensures Keeps(hash, t, PutSteps(t.(events := t.events + [e]), e.run, us))
  {
    hide StoredCanonically, AnswerOf, ProjectedUnlessClaimed, OnePending, Numbered, StepsEvolve,
         ReservedKept, Claimed;
    var u := PutSteps(t.(events := t.events + [e]), e.run, us);
    assert StepsOf(u, e.run) == us;
    forall r: string ensures JournaledFor(u, r) {
      assert JournaledFor(t, r);
      AnswerAppend(t.events, e, r);
    }
    assert RowsOk(hash, u) by { RowsFrame(hash, t, u); }
    WorkerProjection(hash, t, u, e.run);
  }

  lemma StartKeeps(hash: string -> string, t: Tables, e: Event)
    requires Inv(hash, t) && e.kind.Worker? && e.kind.body.ToolStarted?
    requires StartStep(t.(events := t.events + [e]), e.run, e.kind.body).Ok?
    ensures Keeps(hash, t, StartStep(t.(events := t.events + [e]), e.run, e.kind.body).value)
  {
    hide RowsOk, ProjectedUnlessClaimed, OnePending, AddStep, Numbered, StepsEvolve, Claimed;
    var b, ss := e.kind.body, StepsOf(t, e.run);
    var s := ToolStep(b.key.value, 0, b.parent, b.tool.value, b.title.value, b.approval, StepRunning, None);
    assert Numbered(ss) && JournaledFor(t, e.run);
    AddStepFacts(ss, s);
    var us := AddStep(ss, s);
    forall i | 0 <= i < |us| ensures GatedStep(t, us[i]) {
      if i < |ss| { assert GatedStep(t, StepsOf(t, e.run)[i]); }
    }
    StartClaims(t.events, e);
    StepsReplaced(hash, t, e, us);
  }

  lemma StartClaims(events: seq<Event>, e: Event)
    requires e.kind.Worker? && e.kind.body.ToolStarted? && e.kind.body.key.Some?
    ensures Claimed(events + [e], e.run, e.kind.body.key.value)
  {
    assert Claims((events + [e])[|events|], e.run, e.kind.body.key.value);
  }

  lemma FinishKeeps(hash: string -> string, t: Tables, e: Event)
    requires Inv(hash, t) && e.kind.Worker? && e.kind.body.ToolFinished?
    requires FinishStep(t.(events := t.events + [e]), e.run, e.kind.body).Ok?
    ensures Keeps(hash, t, FinishStep(t.(events := t.events + [e]), e.run, e.kind.body).value)
  {
    hide RowsOk, ProjectedUnlessClaimed, OnePending, Numbered, StepsEvolve, HasKey, Claimed;
    var b, ss := e.kind.body, StepsOf(t, e.run);
    var state := FinishState(b.state).value;
    assert Numbered(ss) && JournaledFor(t, e.run);
    FinishedFacts(ss, b.key.value, state, b.result);
    var us := Finished(ss, b.key.value, state, b.result);
    forall i | 0 <= i < |us| ensures GatedStep(t, us[i]) { assert GatedStep(t, StepsOf(t, e.run)[i]); }
    forall i | 0 <= i < |us| && Reserved(us[i].key)
      ensures Claimed(t.events + [e], e.run, us[i].key) || us[i] == ss[i]
    {
      ClaimsStay(t.events, t.events + [e], e.run, ss[i].key);
      if !Claimed(t.events, e.run, ss[i].key) { ServiceStepsDone(t, e.run, i); }
    }
    StepsReplaced(hash, t, e, us);
  }

  // ----- events and batches -----

  /** The remaining bodies act on tables that already hold their row. */
  lemma QuietApplyKeeps(hash: string -> string, t: Tables, run: string, b: Body, turn: Turn, now: int)
    requires Inv(hash, t) && (Quiet(b) || b == AnswerDelta("")) && (b.RunTerminated? || NoPendingFor(t, run))
    requires Apply(hash, t, run, b, turn, now).Ok?
    ensures Keeps(hash, t, Apply(hash, t, run, b, turn, now).value)
  {
    hide Inv, Keeps, NoPendingFor, NoteObserved, Claim;
    KeepsRefl(hash, t);
    match b {
      case Milestone(name) => RowAdded(hash, t, run + ":" + name, run, name);
      case RunCompleted => EndedKeeps(hash, t, t, run, Completed, "run.completed");
      case RunFailed => EndedKeeps(hash, t, t, run, Failed, "run.failed");
      case RunCancelled => EndedKeeps(hash, t, t, run, Cancelled, "run.cancelled");
      case RunTerminated(_) => EndedKeeps(hash, t, t, run, Failed, "run.failed");
      case ApprovalDispatched(approval, ticket) => ClaimKeeps(hash, t, run, approval.value, ticket.value, now);
      case RunResumed(_) => ObservedKeeps(hash, t, run, now);
      case _ =>
    }
  }

  /** No event adds an approval row or removes one. */
  lemma ApplyEffect(hash: string -> string, t: Tables, run: string, b: Body, turn: Turn, now: int)
    requires Apply(hash, t, run, b, turn, now).Ok?
    ensures Apply(hash, t, run, b, turn, now).value.approvals.Keys == t.approvals.Keys
  {
    hide InsertOrIgnore, AddStep, Finished, FinishState, AutoRelease;
  }

  lemma ApplyOneKeeps(hash: string -> string, t: Tables, run: string, e: WorkerEvent, turn: Turn, now: int)
    requires Inv(hash, t) && (e.body.RunTerminated? || NoPendingFor(t, run))
    requires ApplyOne(hash, t, run, e, turn, now).Ok?
    ensures Keeps(hash, t, ApplyOne(hash, t, run, e, turn, now).value.0)
    ensures NoPendingFor(t, run) ==> NoPendingFor(ApplyOne(hash, t, run, e, turn, now).value.0, run)
  {
    hide Inv, Keeps, NoPendingFor, StartStep, FinishStep, AppendAnswer, SeqOf, EndRun, AddMilestone, Claim,
         NoteObserved, Source;
    KeepsRefl(hash, t);
    var u := ApplyOne(hash, t, run, e, turn, now).value.0;
    if SeqOf(t.events, run, Source(e)) == 0 {
      var row := RowOf(run, e);
      var t1 := t.(events := t.events + [row]);
      ApplyEffect(hash, t1, run, e.body, turn, now);
      if Quiet(e.body) || e.body == AnswerDelta("") {
        QuietRow(hash, t, row);
        KeepsInv(hash, t, t1);
        SamePending(t, t1, run);
        QuietApplyKeeps(hash, t1, run, e.body, turn, now);
        KeepsTrans(hash, t, t1, u);
      } else if e.body.AnswerDelta? {
        AnswerKeeps(hash, t, row);
      } else if e.body.ToolStarted? {
        StartKeeps(hash, t, row);
      } else {
        FinishKeeps(hash, t, row);
      }
    }
    if NoPendingFor(t, run) { StillNoPending(hash, t, u, run); }
  }

  lemma SamePending(t: Tables, u: Tables, run: string)
    requires u.approvals == t.approvals
    ensures NoPendingFor(u, run) <==> NoPendingFor(t, run)
  {
  }

  lemma StillNoPending(hash: string -> string, t: Tables, u: Tables, run: string)
    requires NoPendingFor(t, run) && Keeps(hash, t, u) && u.approvals.Keys == t.approvals.Keys
    ensures NoPendingFor(u, run)
  {
    hide Inv, AllStepsEvolve;
    forall id | id in u.approvals && u.approvals[id].run == run ensures !u.approvals[id].state.Pending? {
      assert id in t.approvals && RowEvolves(t.approvals[id], u.approvals[id]);
    }
  }

  predicate OnlyTerminated(es: seq<WorkerEvent>) {
    forall i | 0 <= i < |es| :: es[i].body.RunTerminated?
  }

  lemma {:induction false} ApplyAllKeeps(hash: string -> string, t: Tables, run: string, es: seq<WorkerEvent>,
                                         turn: Turn, now: int)
    requires Inv(hash, t) && (OnlyTerminated(es) || NoPendingFor(t, run))
    requires ApplyAll(hash, t, run, es, turn, now).Ok?
    ensures Keeps(hash, t, ApplyAll(hash, t, run, es, turn, now).value.0)
    ensures NoPendingFor(t, run) ==> NoPendingFor(ApplyAll(hash, t, run, es, turn, now).value.0, run)
    decreases |es|
  {
    hide Inv, Keeps, NoPendingFor, ApplyOne;
    if es == [] {
      KeepsRefl(hash, t);
    } else {
      var init, e := es[..|es| - 1], es[|es| - 1];
      ApplyAllKeeps(hash, t, run, init, turn, now);
      var m := ApplyAll(hash, t, run, init, turn, now).value.0;
      KeepsInv(hash, t, m);
      ApplyOneKeeps(hash, m, run, e, turn, now);
      KeepsTrans(hash, t, m, ApplyAll(hash, t, run, es, turn, now).value.0);
    }
  }

  lemma BatchKeeps(hash: string -> string, t: Tables, run: string, generation: nat, es: seq<WorkerEvent>, turn: Turn,
                   now: int)
    requires Inv(hash, t)
    ensures Keeps(hash, t, ApplyBatch(hash, t, run, generation, es, turn, now).tables)
  {
    hide Inv, Keeps, NoPendingFor, ApplyAll;
    KeepsRefl(hash, t);
    if ApplyBatch(hash, t, run, generation, es, turn, now).result.Ok? {
      if t.runs[run].status in {Running, Cancelling} { AcceptingNoPending(hash, t, run); }
      ApplyAllKeeps(hash, t, run, es, turn, now);
    }
  }

  // ----- the run lifecycle -----

  lemma AdmitKeeps(hash: string -> string, t: Tables, run: string)
    requires Inv(hash, t)
    ensures Keeps(hash, t, Admit(t, run).tables)
  {
    hide Inv, Keeps, StoredCanonically;
    KeepsRefl(hash, t);
    if Admit(t, run).result.Ok? {
      var u := t.(runs := t.runs[run := Run(Queued, 1, None)]);
      QuietPieces(hash, t);
      QuietStep(hash, t, u);
      KeepsInv(hash, t, u);
      RowAdded(hash, u, run + ":" + "run.queued", run, "run.queued");
      KeepsTrans(hash, t, u, Admit(t, run).tables);
    }
  }

  lemma ClaimQueuedKeeps(hash: string -> string, t: Tables, run: string)
    requires Inv(hash, t)
    ensures Keeps(hash, t, ClaimQueued(t, run).tables)
  {
    hide Inv, Keeps, NoPendingFor;
    KeepsRefl(hash, t);
    QuietPieces(hash, t);
    if run in t.runs && t.runs[run].status.Queued? {
      assert RunOk(t.runs[run]);
      AcceptingNoPending(hash, t, run);
      StatusSet(hash, t, run, Starting);
    }
  }

  lemma BeginTurnKeeps(hash: string -> string, t: Tables, run: string, now: int)
    requires Inv(hash, t)
    ensures Keeps(hash, t, BeginTurn(t, run, now).tables)
  {
    hide Inv, Keeps, StoredCanonically, AutoRelease;
    KeepsRefl(hash, t);
    QuietPieces(hash, t);
    AutoReleaseOk(t.lease, now);
    if BeginTurn(t, run, now).result.Ok? {
      var u := t.(lease := AutoRelease(t.lease, now),
                  runs := t.runs[run := Run(Running, t.runs[run].generation + 1, Some(""))]);
      assert RunOk(t.runs[run]);
      QuietStep(hash, t, u);
      KeepsInv(hash, t, u);
      RowAdded(hash, u, run + ":" + "run.started", run, "run.started");
      KeepsTrans(hash, t, u, BeginTurn(t, run, now).tables);
    }
  }

  lemma EndsKeep(hash: string -> string, t: Tables, run: string, active: bool)
    requires Inv(hash, t)
    ensures Keeps(hash, t, MarkInterrupted(t, run).tables) && Keeps(hash, t, StopTask(t, run, active).tables)
    ensures Keeps(hash, t, CancelBeforeSpawn(t, run).tables) && Keeps(hash, t, FailPrecheck(t, run).tables)
  {
    hide Inv, Keeps, Ended, NoPendingFor;
    KeepsRefl(hash, t);
    if run in t.runs {
      EndedKeeps(hash, t, t, run, Interrupted, "run.interrupted");
      EndedKeeps(hash, t, t, run, Failed, "run.failed");
      if !Parked(t.runs[run].status) {
        AcceptingNoPending(hash, t, run);
        EndedKeeps(hash, t, t, run, Cancelled, "run.cancelled");
        EndedKeeps(hash, t, t, run, Cancelling, "run.cancelling");
      }
    }
  }

  lemma DeliverKeeps(hash: string -> string, t: Tables, run: string)
    requires Inv(hash, t)
    ensures Keeps(hash, t, Deliver(t, run).tables)
  {
    hide Inv, Keeps;
    KeepsRefl(hash, t);
    RowAdded(hash, t, run + ":" + "run.artifacts_delivered", run, "run.artifacts_delivered");
  }
}
