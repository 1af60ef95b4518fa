/** The design promises that a pending approval's run waits for it or is interrupted. When the
    code meets that promise, and the input that breaks it. */
module DbPromise {
  import opened Wrappers
  import opened Tables
  import opened LeaseAndApprovals
  import opened WorkerEvents
  import opened DbInvariant
  import opened DbTransactions
  import opened DbApprovalSteps
  import opened DbWorkerSteps
  import opened DbRuns
  import opened DbStatements
  import opened DbSettlement
  import opened DbTeardown
  import Json = CanonicalJson

  /** The promise: a pending approval's run waits for it or is interrupted. */
  ghost predicate PendingRunsWait(t: Tables) {
    forall id | id in PendingIds(t) ::
        t.approvals[id].run in t.runs && t.runs[t.approvals[id].run].status in {WaitingApproval, Interrupted}
  }

  /** The steps that break the promise, told from the tables and the batch alone: a batch for the
      run's current generation, while the run is interrupted with an approval still pending, of
      teardown evidence only, whose rows the journal can take, and which reports a new dirty end. */
  ghost predicate Abandons(t: Tables, op: Op) {
    && op.Report? && op.run in t.runs && !NoPendingFor(t, op.run)
    && t.runs[op.run].generation == op.generation && t.runs[op.run].status.Interrupted?
    && OnlyTerminated(op.es) && TeardownJournal(t.events, op.run, op.es).Some? && DirtyEnd(t, op.run, op.es)
  }

  // ----- every other step keeps the promise -----

  /** No row becomes pending, and a run moves only to waiting or interrupted while one is. */
  ghost predicate Calm(t: Tables, u: Tables) {
    && PendingIds(u) <= PendingIds(t)
    && forall r | r in t.runs :: r in u.runs && Settled(t, u, r)
  }

  ghost predicate Settled(t: Tables, u: Tables, r: string)
    requires r in t.runs && r in u.runs
  {
    u.runs[r].status == t.runs[r].status || u.runs[r].status in {WaitingApproval, Interrupted} || NoPendingFor(u, r)
  }

  lemma CalmKeeps(hash: string -> string, t: Tables, u: Tables)
    requires PendingRunsWait(t) && Keeps(hash, t, u) && Calm(t, u)
    ensures PendingRunsWait(u)
  {
    hide Inv, AllStepsEvolve, LeaseEvolves;
    forall id | id in PendingIds(u)
      ensures u.approvals[id].run in u.runs && u.runs[u.approvals[id].run].status in {WaitingApproval, Interrupted}
    {
      assert RowEvolves(t.approvals[id], u.approvals[id]);
      var r := t.approvals[id].run;
      assert r in t.runs && Settled(t, u, r);
    }
  }

  lemma CalmRefl(t: Tables)
    ensures Calm(t, t)
  {
  }

  /** The runs stay as they are and no row becomes pending. */
  lemma SameRuns(t: Tables, u: Tables)
    requires u.runs == t.runs && PendingIds(u) <= PendingIds(t)
    ensures Calm(t, u)
  {
  }

  lemma RetireAllCalm(t: Tables, t0: Tables, u: Tables, ids: seq<string>, reason: Reason, now: int)
    requires t0.approvals == t.approvals && t0.runs == t.runs && RetireAll(t0, ids, reason, None, now).Ok?
    requires u.approvals == RetireAll(t0, ids, reason, None, now).value.approvals
    requires u.runs == RetireAll(t0, ids, reason, None, now).value.runs
    ensures Calm(t, u)
  {
    hide RetireAll, PendingIds, Calm;
    RetireAllEffect(t0, ids, reason, None, now);
    SamePendingIds(t, t0);
    SamePendingIds(RetireAll(t0, ids, reason, None, now).value, u);
    SameRuns(t, u);
  }

  lemma TakeCalm(t: Tables, device: string, active: bool, run: Option<string>, order: seq<string>, now: int)
    ensures Calm(t, Takeover(t, device, active, run, order, now).tables)
  {
    hide RetireAll, LeaseRow, Calm;
    CalmRefl(t);
    if Takeover(t, device, active, run, order, now).result.Ok? {
      var g := t.lease.generation + 1;
      var t1 := t.(lease := Lease(g, if active then LeaseState.Pausing else LeaseState.Human, Some(device), false,
                                  Some(now), Some(now), now));
      LeaseRowEffect(RetireAll(t1, order, LeaseTakeover, None, now).value, run, "lease.takeover", g);
      RetireAllCalm(t, t1, Takeover(t, device, active, run, order, now).tables, order, LeaseTakeover, now);
    }
  }

  lemma KillCalm(t: Tables, device: string, expected: nat, run: Option<string>, order: seq<string>, now: int)
    ensures Calm(t, RevokeLease(t, device, expected, run, order, now).tables)
  {
    hide RetireAll, LeaseRow, AutoRelease, Calm;
    CalmRefl(t);
    if RevokeLease(t, device, expected, run, order, now).result.Ok? {
      var l := AutoRelease(t.lease, now);
      var t1 := RetireAll(t.(lease := l), order, LeaseRevoked, None, now).value;
      LeaseRowEffect(t1.(lease := Unheld(l.generation + 1, now)), run, "lease.released", l.generation + 1);
      RetireAllCalm(t, t.(lease := l), RevokeLease(t, device, expected, run, order, now).tables, order, LeaseRevoked,
                    now);
    }
  }

  lemma MoveCalm(t: Tables, m: HolderMove, device: string, expected: nat, run: Option<string>, now: int)
    ensures Calm(t, Hold(t, m, device, expected, run, now).tables)
  {
    hide LeaseRow, AutoRelease, Moved, MoveAllowed, Calm, PendingIds;
    var l' := Moved(m, AutoRelease(t.lease, now), now);
    if LeaseRow(t.(lease := l'), run, MoveName(m), l'.generation).Ok? {
      LeaseRowEffect(t.(lease := l'), run, MoveName(m), l'.generation);
    }
    var u := Hold(t, m, device, expected, run, now).tables;
    SamePendingIds(t, u);
    SameRuns(t, u);
  }

  lemma DropCalm(t: Tables, device: string, order: seq<string>, now: int)
    ensures Calm(t, RevokeDevice(t, device, order, now).tables)
  {
    hide RetireAll, Calm;
    CalmRefl(t);
    if RevokeDevice(t, device, order, now).result.Ok? {
      RetireAllCalm(t, t.(grant := t.grant + 1), RevokeDevice(t, device, order, now).tables, order, DeviceRevoked, now);
    }
  }

  lemma ExpireCalm(t: Tables, id: string, now: int)
    requires Expire(t, id, now).Ok?
    ensures Calm(t, Expire(t, id, now).value.0)
  {
    hide Expire, PendingIds;
    ExpireEffect(t, id, now);
  }

  lemma CalmTrans(t: Tables, m: Tables, u: Tables)
    requires Calm(t, m) && PendingIds(u) <= PendingIds(m) && m.runs.Keys <= u.runs.Keys
    requires u.approvals.Keys == m.approvals.Keys
    requires forall r | r in m.runs :: u.runs[r].status == m.runs[r].status || NoPendingFor(u, r)
    requires forall id | id in m.approvals :: u.approvals[id].run == m.approvals[id].run
    ensures Calm(t, u)
  {
    forall r | r in t.runs ensures r in u.runs && Settled(t, u, r) {
      assert Settled(t, m, r);
      if NoPendingFor(m, r) {
        forall id | id in u.approvals && u.approvals[id].run == r ensures !u.approvals[id].state.Pending? {
          assert id in PendingIds(u) ==> id in PendingIds(m);
        }
      }
    }
  }

  lemma DecideCalm(hash: string -> string, t: Tables, op: Op)
    requires Inv(hash, t) && op.Settle?
    ensures Calm(t, Decide(hash, t, op.id, op.device, op.approve, op.seen, op.token, op.now).tables)
  {
    hide Inv, Expire, Conclude, ActionIntact, Retire, Calm, PendingIds, Ruled;
    CalmRefl(t);
    ExpireKeeps(hash, t, op.id, op.now);
    var t1 := Expire(t, op.id, op.now).value.0;
    KeepsInv(hash, t, t1);
    ExpireCalm(t, op.id, op.now);
    DecideKeeps(hash, t, op.id, op.device, op.approve, op.seen, op.token, op.now);
    if Decide(hash, t, op.id, op.device, op.approve, op.seen, op.token, op.now).result.Ok? {
      RuledRow(hash, t1.approvals[op.id], op.device, op.approve, op.token, op.now);
      DecidedCalm(hash, t, t1, op.id, Ruled(hash, t1.approvals[op.id], op.device, op.approve, op.token, op.now));
    }
  }

  lemma RuledRow(hash: string -> string, a: Approval, device: string, approve: bool, token: string, now: int)
    ensures var b := Ruled(hash, a, device, approve, token, now); b.run == a.run && !b.state.Pending?
  {
  }

  lemma DecidedCalm(hash: string -> string, t: Tables, m: Tables, id: string, b: Approval)
    requires Inv(hash, m) && Calm(t, m) && id in m.approvals && m.approvals[id].state.Pending?
    requires b.run == m.approvals[id].run && b.run in m.runs && !b.state.Pending?
    ensures Calm(t, Conclude(m, id, b))
  {
    hide Inv, Conclude, Calm;
    OthersNotPending(hash, m, id);
    ConcludeEffect(m, id, b);
    var u := Conclude(m, id, b);
    assert NoPendingFor(u, b.run) by { assert NoPendingFor(PutApproval(m, id, b), b.run); }
    CalmTrans(t, m, u);
  }

  lemma RevokeCalm(hash: string -> string, t: Tables, id: string, device: string, now: int)
    requires Inv(hash, t)
    ensures Calm(t, RevokeApproval(t, id, device, now).tables)
  {
    hide Inv, Expire, AddServiceStep, Calm, NoPendingFor;
    CalmRefl(t);
    ExpireKeeps(hash, t, id, now);
    ExpireCalm(t, id, now);
    if RevokeApproval(t, id, device, now).result.Ok? {
      StepsOnly();
      CalmTrans(t, Expire(t, id, now).value.0, RevokeApproval(t, id, device, now).tables);
    }
  }

  lemma SweepCalm(hash: string -> string, t: Tables, order: seq<string>, now: int)
    requires Inv(hash, t) && Listing(order, DueIds(t, now))
    ensures Calm(t, Sweep(t, order, now).tables)
  {
    hide Inv, ExpireAll, Listing, StepsAfter, NewRows, Rows, NoPendingFor, HasDue;
    DueExpired(hash, t, order, now);
    ExpiredPending(hash, t, Sweep(t, order, now).tables, now);
    forall r | r in t.runs ensures r in Sweep(t, order, now).tables.runs && Settled(t, Sweep(t, order, now).tables, r) {
      assert RunAfter(t, Sweep(t, order, now).tables, DueIds(t, now), r);
    }
  }

  lemma {:induction false} InterruptRunsEffect(t: Tables, order: seq<string>)
    ensures var u := InterruptRuns(t, order);
            u.approvals == t.approvals && u.runs.Keys == t.runs.Keys
            && forall r | r in t.runs :: u.runs[r] == t.runs[r] || u.runs[r].status.Interrupted?
    decreases |order|
  {
    hide InsertOrIgnore;
    if order != [] { InterruptRunsEffect(t, order[..|order| - 1]); }
  }

  /** Only the one run changes, and it leaves a parked status only for interrupted. */
  predicate OnlyRun(t: Tables, u: Tables, run: string) {
    && u.approvals == t.approvals && t.runs.Keys <= u.runs.Keys
    && (forall r | r in t.runs && r != run :: u.runs[r] == t.runs[r])
    && (run in t.runs ==>
         u.runs[run].status == t.runs[run].status || !Parked(t.runs[run].status) || u.runs[run].status.Interrupted?)
  }

  lemma LifecycleCalm(hash: string -> string, t: Tables, u: Tables, run: string)
    requires Inv(hash, t) && OnlyRun(t, u, run)
    ensures Calm(t, u)
  {
    hide Inv;
    SamePendingIds(t, u);
    if run in t.runs && !Parked(t.runs[run].status) { AcceptingNoPending(hash, t, run); SamePending(t, u, run); }
  }

  lemma StartsEffect(t: Tables, run: string, now: int)
    ensures OnlyRun(t, Admit(t, run).tables, run) && OnlyRun(t, ClaimQueued(t, run).tables, run)
    ensures OnlyRun(t, BeginTurn(t, run, now).tables, run)
  {
    hide InsertOrIgnore, AutoRelease;
  }

  lemma EndsEffect(t: Tables, run: string, active: bool)
    ensures OnlyRun(t, MarkInterrupted(t, run).tables, run) && OnlyRun(t, StopTask(t, run, active).tables, run)
    ensures OnlyRun(t, CancelBeforeSpawn(t, run).tables, run)
    ensures run !in t.runs || t.runs[run].status.Starting? ==> OnlyRun(t, FailPrecheck(t, run).tables, run)
    ensures OnlyRun(t, Deliver(t, run).tables, run)
  {
    hide InsertOrIgnore;
  }

  lemma LifecycleOpsCalm(hash: string -> string, t: Tables, op: Op)
    requires Inv(hash, t) && Legal(t, op)
    requires op.Enqueue? || op.Pick? || op.Begin? || op.Interrupt? || op.Stop? || op.CancelEarly? || op.FailEarly?
             || op.Store?
    ensures Calm(t, Step(hash, t, op))
  {
    hide Inv, Calm, OnlyRun, Admit, ClaimQueued, BeginTurn, MarkInterrupted, StopTask, CancelBeforeSpawn, FailPrecheck,
         Deliver, Listing, RecoveryListing;
    StartsEffect(t, op.run, if op.Begin? then op.now else 0);
    EndsEffect(t, op.run, op.Stop? && op.active);
    LifecycleCalm(hash, t, Step(hash, t, op), op.run);
  }

  // ----- worker batches -----

  lemma ApplyScope(hash: string -> string, t: Tables, run: string, b: Body, turn: Turn, now: int)
    requires Apply(hash, t, run, b, turn, now).Ok?
    ensures var u := Apply(hash, t, run, b, turn, now).value;
            && PendingIds(u) == PendingIds(t) && u.runs.Keys == t.runs.Keys
            && forall r | r in t.runs && r != run :: u.runs[r] == t.runs[r]
  {
    hide InsertOrIgnore, AddStep, Finished, FinishState, AutoRelease;
  }

  lemma {:induction false} ApplyAllScope(hash: string -> string, t: Tables, run: string, es: seq<WorkerEvent>,
                                         turn: Turn, now: int)
    requires ApplyAll(hash, t, run, es, turn, now).Ok?
    ensures var u := ApplyAll(hash, t, run, es, turn, now).value.0;
            && PendingIds(u) == PendingIds(t) && u.runs.Keys == t.runs.Keys
            && forall r | r in t.runs && r != run :: u.runs[r] == t.runs[r]
    decreases |es|
  {
    hide Apply, SeqOf, PendingIds;
    if es != [] {
      var init, e := es[..|es| - 1], es[|es| - 1];
      ApplyAllScope(hash, t, run, init, turn, now);
      var m := ApplyAll(hash, t, run, init, turn, now).value.0;
      if SeqOf(m.events, run, Source(e)) == 0 {
        var m1 := m.(events := m.events + [RowOf(run, e)]);
        SamePendingIds(m, m1);
        ApplyScope(hash, m1, run, e.body, turn, now);
      }
    }
  }

  /** A batch on a run with nothing pending. */
  lemma BatchCalm(hash: string -> string, t: Tables, op: Op)
    requires Inv(hash, t) && op.Report? && Legal(t, op) && NoPendingFor(t, op.run)
    ensures Calm(t, Step(hash, t, op))
  {
    hide Inv, ApplyAll, NoPendingFor, PendingIds;
    if ApplyBatch(hash, t, op.run, op.generation, op.es, op.turn, op.now).result.Ok? {
      ApplyAllKeeps(hash, t, op.run, op.es, op.turn, op.now);
      ApplyAllScope(hash, t, op.run, op.es, op.turn, op.now);
    }
  }

  lemma WaitAfterTeardown(t: Tables, u: Tables, run: string, id: string)
    requires PendingRunsWait(t) && id in PendingIds(t) && t.approvals[id].run == run && u.approvals == t.approvals
    requires u.runs == t.runs || (run in t.runs && u.runs == t.runs[run := t.runs[run].(status := Failed)])
    ensures PendingRunsWait(u) <==> u.runs == t.runs
  {
    SamePendingIds(t, u);
    assert id in PendingIds(u);
  }

  lemma BatchPromise(hash: string -> string, t: Tables, op: Op)
    requires Inv(hash, t) && PendingRunsWait(t) && op.Report? && Legal(t, op)
    ensures PendingRunsWait(Step(hash, t, op)) <==> !Abandons(t, op)
  {
    hide Inv, ApplyAll, DirtyEnd, PendingRunsWait, PendingIds, Calm, TeardownJournal;
    if NoPendingFor(t, op.run) {
      BatchCalm(hash, t, op);
      StepKeeps(hash, t, op);
      CalmKeeps(hash, t, Step(hash, t, op));
    } else {
      var id :| id in t.approvals && t.approvals[id].run == op.run && t.approvals[id].state.Pending?;
      PendingListed(t, id);
      Waits(t, id);
      BatchAccepted(hash, t, op.run, op.generation, op.es, op.turn, op.now);
      if ApplyBatch(hash, t, op.run, op.generation, op.es, op.turn, op.now).result.Ok? {
        TeardownBatch(hash, t, op.run, op.es, op.turn, op.now);
        WaitAfterTeardown(t, Step(hash, t, op), op.run, id);
        assert DirtyEnd(t, op.run, op.es) ==> Step(hash, t, op).runs[op.run].status.Failed?;
      }
    }
  }

  lemma PendingListed(t: Tables, id: string)
    requires id in t.approvals && t.approvals[id].state.Pending?
    ensures id in PendingIds(t)
  {
  }

  lemma Waits(t: Tables, id: string)
    requires PendingRunsWait(t) && id in PendingIds(t)
    ensures id in t.approvals && t.approvals[id].run in t.runs
    ensures t.runs[t.approvals[id].run].status in {WaitingApproval, Interrupted}
  {
  }

  lemma ProposePromise(hash: string -> string, t: Tables, op: Op)
    requires PendingRunsWait(t) && op.Ask?
    ensures PendingRunsWait(Propose(hash, t, op.id, op.run, op.generation, op.action, op.description, op.ttl,
                                    op.now).tables)
  {
    hide Json.Canonical, ValidAction, InsertOrIgnore;
    var u := Propose(hash, t, op.id, op.run, op.generation, op.action, op.description, op.ttl, op.now).tables;
    assert PendingIds(u) <= PendingIds(t) + {op.id};
  }

  /** From a state that meets the promise, a step leads to one that does exactly when it is not an
      accepted batch that reports a new dirty end of a run with a pending approval. */
  lemma PromiseKeptIff(hash: string -> string, t: Tables, op: Op)
    requires Inv(hash, t) && PendingRunsWait(t) && Legal(t, op)
    ensures PendingRunsWait(Step(hash, t, op)) <==> !Abandons(t, op)
  {
    hide Inv, Keeps, PendingRunsWait, Calm, Listing, LeaseMaintenance, Takeover, Hold, RevokeLease, Propose, Decide,
         RevokeApproval, GetApproval, Sweep, RevokeDevice, InterruptRuns, Recover, Admit, ClaimQueued, BeginTurn,
         ApplyBatch, MarkInterrupted, StopTask, CancelBeforeSpawn, FailPrecheck, Deliver, DirtyEnd, NoPendingFor,
         RecoveryListing;
    StepKeeps(hash, t, op);
    var u := Step(hash, t, op);
    match op {
      case Report(_, _, _, _, _) => BatchPromise(hash, t, op);
      case Ask(_, _, _, _, _, _, _) => ProposePromise(hash, t, op);
      case RecoverAll(plan, now) => RecoverySettlesAll(hash, t, plan, now); NothingPending(u);
      case Settle(_, _, _, _, _, _) => DecideCalm(hash, t, op); CalmKeeps(hash, t, u);
      case Revoke(id, device, now) => RevokeCalm(hash, t, id, device, now); CalmKeeps(hash, t, u);
      case Read(id, now) => ReadCalm(hash, t, id, now); CalmKeeps(hash, t, u);
      case SweepDue(order, now) => SweepCalm(hash, t, order, now); CalmKeeps(hash, t, u);
      case InterruptAll(order) => InterruptAllCalm(t, order); CalmKeeps(hash, t, u);
      case Maintain(_) => LeaseOpsCalm(hash, t, op); CalmKeeps(hash, t, u);
      case Take(_, _, _, _, _) => LeaseOpsCalm(hash, t, op); CalmKeeps(hash, t, u);
      case Move(_, _, _, _, _) => LeaseOpsCalm(hash, t, op); CalmKeeps(hash, t, u);
      case Kill(_, _, _, _, _) => LeaseOpsCalm(hash, t, op); CalmKeeps(hash, t, u);
      case DropDevice(_, _, _) => LeaseOpsCalm(hash, t, op); CalmKeeps(hash, t, u);
      case Pair(_) => LeaseOpsCalm(hash, t, op); CalmKeeps(hash, t, u);
      case _ => LifecycleOpsCalm(hash, t, op); CalmKeeps(hash, t, u);
    }
  }

  lemma NothingPending(t: Tables)
    requires PendingIds(t) == {}
    ensures PendingRunsWait(t)
  {
  }

  lemma ReadCalm(hash: string -> string, t: Tables, id: string, now: int)
    requires Inv(hash, t)
    ensures Calm(t, GetApproval(t, id, now).tables)
  {
    hide Inv, Expire, Calm;
    ExpireKeeps(hash, t, id, now);
    ExpireCalm(t, id, now);
  }

  lemma InterruptAllCalm(t: Tables, order: seq<string>)
    ensures Calm(t, InterruptRuns(t, order))
  {
    hide InterruptRuns, NoPendingFor;
    InterruptRunsEffect(t, order);
    SamePendingIds(t, InterruptRuns(t, order));
  }

  lemma LeaseOpsCalm(hash: string -> string, t: Tables, op: Op)
    requires op.Maintain? || op.Move? || op.Take? || op.Kill? || op.DropDevice? || op.Pair?
    ensures Calm(t, Step(hash, t, op))
  {
    hide Calm, PendingIds, Takeover, Hold, RevokeLease, RevokeDevice, AutoRelease;
    match op {
      case Take(device, active, affected, order, now) => TakeCalm(t, device, active, affected, order, now);
      case Kill(device, expected, affected, order, now) => KillCalm(t, device, expected, affected, order, now);
      case Move(move, device, expected, affected, now) => MoveCalm(t, move, device, expected, affected, now);
      case DropDevice(device, order, now) => DropCalm(t, device, order, now);
      case Maintain(now) => SamePendingIds(t, Step(hash, t, op)); SameRuns(t, Step(hash, t, op));
      case Pair(device) => SamePendingIds(t, Step(hash, t, op)); SameRuns(t, Step(hash, t, op));
    }
  }

  /** In every run whose steps never abandon a pending approval, the promise holds throughout. */
  lemma {:induction false} PromiseThroughout(hash: string -> string, h: History, i: nat)
    requires Behaviour(hash, h) && i < |h.states|
    requires forall k: nat | k < i :: !Abandons(h.states[k], h.ops[k])
    ensures PendingRunsWait(h.states[i])
    decreases i
  {
    hide Inv, Step, Legal, Abandons;
    if i > 0 {
      PromiseThroughout(hash, h, i - 1);
      Reachable(hash, h, i - 1);
      assert Linked(hash, h, i - 1);
      PromiseKeptIff(hash, h.states[i - 1], h.ops[i - 1]);
    }
  }
}
