/** What the service itself writes: every transaction except a worker batch adds, to the steps of a run,
    only those of approvals that will never execute, and to the journal only rows of its own. */
module DbServes {
  import opened Wrappers
  import opened Tables
  import opened LeaseAndApprovals
  import opened WorkerEvents
  import opened DbInvariant
  import opened DbStatements
  import opened DbRuns
  import DbTickets
  import Json = CanonicalJson

  predicate PendingUnused(t: Tables) {
    forall id | id in t.approvals && t.approvals[id].state.Pending? :: t.approvals[id].consumedAt.None?
  }

  /** The step is the service's own, for an approval of the run whose action will never execute. */
  predicate ServiceOwn(t: Tables, run: string, s: ToolStep) {
    && Reserved(s.key) && OwedStep(t, run, s.key[9..])
    && s.state == if t.approvals[s.key[9..]].state.Denied? then StepDenied else StepCancelled
  }

  /** The steps of a run are those it had and the service's own. */
  predicate StepsServed(o: Tables, t: Tables, run: string) {
    && StepsOf(o, run) <= StepsOf(t, run)
    && forall i | |StepsOf(o, run)| <= i < |StepsOf(t, run)| :: ServiceOwn(t, run, StepsOf(t, run)[i])
  }

  /** A verdict that no action will follow stays, and a new one comes with its step. */
  predicate VerdictServed(o: Tables, t: Tables, run: string, id: string) {
    && (OwedStep(o, run, id) ==> OwedStep(t, run, id) && t.approvals[id].state.Denied? == o.approvals[id].state.Denied?)
    && (OwedStep(t, run, id) && !OwedStep(o, run, id) ==> HasKey(StepsOf(t, run), ApprovalKey(id)))
  }

  /** What the service has done since the tables were `o`. */
  ghost predicate Served(o: Tables, t: Tables) {
    && PendingUnused(t)
    && (forall run: string :: StepsServed(o, t, run))
    && (forall run: string, id: string :: VerdictServed(o, t, run, id))
    && DbTickets.ServiceRows(o.events, t.events)
  }

  lemma ServedSelf(t: Tables)
    requires PendingUnused(t)
    ensures Served(t, t)
  {
  }

  lemma ServedUnused(o: Tables, t: Tables, id: string)
    requires Served(o, t) && id in t.approvals && t.approvals[id].state.Pending?
    ensures t.approvals[id].consumedAt.None?
  {
    hide StepsServed, VerdictServed;
  }

  // ----- rows and their steps -----

  lemma Untouched(o: Tables, t: Tables, u: Tables)
    requires Served(o, t) && u.approvals == t.approvals && u.steps == t.steps
    requires DbTickets.ServiceRows(t.events, u.events)
    ensures Served(o, u)
  {
    hide NeverRuns, HasKey;
    forall run: string ensures StepsServed(o, u, run) {
      assert StepsServed(o, t, run);
      forall i | |StepsOf(o, run)| <= i < |StepsOf(u, run)| ensures ServiceOwn(u, run, StepsOf(u, run)[i]) {
        assert ServiceOwn(t, run, StepsOf(t, run)[i]);
      }
    }
    forall run: string, id: string ensures VerdictServed(o, u, run, id) { assert VerdictServed(o, t, run, id); }
    DbTickets.ServiceRowsJoin(o.events, t.events, u.events);
  }

  /** One row moves, and whether its action may still execute does not change. */
  lemma RowMovedServes(o: Tables, t: Tables, u: Tables, id: string, b: Approval)
    requires Served(o, t) && u.approvals == t.approvals[id := b] && u.steps == t.steps
    requires DbTickets.ServiceRows(t.events, u.events)
    requires id in t.approvals ==> b.run == t.approvals[id].run && !NeverRuns(t.approvals[id])
    requires !NeverRuns(b) && (b.state.Pending? ==> b.consumedAt.None?)
    ensures Served(o, u)
  {
    hide NeverRuns, HasKey;
    forall run: string ensures StepsServed(o, u, run) {
      assert StepsServed(o, t, run);
      forall i | |StepsOf(o, run)| <= i < |StepsOf(u, run)| ensures ServiceOwn(u, run, StepsOf(u, run)[i]) {
        assert ServiceOwn(t, run, StepsOf(t, run)[i]);
      }
    }
    forall run: string, x: string ensures VerdictServed(o, u, run, x) { assert VerdictServed(o, t, run, x); }
    DbTickets.ServiceRowsJoin(o.events, t.events, u.events);
  }

  /** One row is settled for good, and its step is written. */
  lemma RowSettledServes(o: Tables, t: Tables, u: Tables, id: string, b: Approval, s: ToolStep)
    requires Served(o, t) && id in t.approvals && b.run == t.approvals[id].run && !NeverRuns(t.approvals[id])
    requires u.approvals == t.approvals[id := b] && !b.state.Pending? && NeverRuns(b)
    requires s.key == ApprovalKey(id) && s.state == if b.state.Denied? then StepDenied else StepCancelled
    requires u.steps == t.steps[b.run := AddStep(StepsOf(t, b.run), s)]
    requires DbTickets.ServiceRows(t.events, u.events)
    ensures Served(o, u)
  {
    hide AddStep, NeverRuns, HasKey, StepsServed, VerdictServed;
    forall run: string ensures StepsServed(o, u, run) {
      assert StepsServed(o, t, run);
      SettledSteps(o, t, u, id, b, s, run);
    }
    forall run: string, x: string ensures VerdictServed(o, u, run, x) {
      assert VerdictServed(o, t, run, x);
      SettledVerdict(o, t, u, id, b, s, run, x);
    }
    DbTickets.ServiceRowsJoin(o.events, t.events, u.events);
  }

  lemma SettledSteps(o: Tables, t: Tables, u: Tables, id: string, b: Approval, s: ToolStep, run: string)
    requires StepsServed(o, t, run) && id in t.approvals && b.run == t.approvals[id].run && !NeverRuns(t.approvals[id])
    requires u.approvals == t.approvals[id := b] && NeverRuns(b)
    requires s.key == ApprovalKey(id) && s.state == if b.state.Denied? then StepDenied else StepCancelled
    requires u.steps == t.steps[b.run := AddStep(StepsOf(t, b.run), s)]
    ensures StepsServed(o, u, run)
  {
    hide NeverRuns, HasKey, MaxOrdinal;
    KeyInjective(id, id);
    var ss, us := StepsOf(t, run), StepsOf(u, run);
    assert us == if run == b.run then AddStep(ss, s) else ss;
    forall i | |StepsOf(o, run)| <= i < |us| ensures ServiceOwn(u, run, us[i]) {
      if i < |ss| {
        assert us[i] == ss[i];
        assert ServiceOwn(t, run, ss[i]);
      } else {
        assert us[i].key[9..] == id;
      }
    }
  }

  lemma SettledVerdict(o: Tables, t: Tables, u: Tables, id: string, b: Approval, s: ToolStep, run: string, x: string)
    requires VerdictServed(o, t, run, x) && id in t.approvals && b.run == t.approvals[id].run
    requires !NeverRuns(t.approvals[id]) && NeverRuns(b) && u.approvals == t.approvals[id := b]
    requires s.key == ApprovalKey(id) && u.steps == t.steps[b.run := AddStep(StepsOf(t, b.run), s)]
    ensures VerdictServed(o, u, run, x)
  {
    hide NeverRuns, AddStep;
    StepWritten(StepsOf(t, b.run), id, s, x);
    assert StepsOf(u, run) == if run == b.run then AddStep(StepsOf(t, run), s) else StepsOf(t, run);
  }

  lemma StepWritten(ss: seq<ToolStep>, id: string, s: ToolStep, x: string)
    requires s.key == ApprovalKey(id)
    ensures HasKey(AddStep(ss, s), ApprovalKey(x)) <==> HasKey(ss, ApprovalKey(x)) || x == id
  {
    KeyInjective(x, id);
    if i :| 0 <= i < |ss| && ss[i].key == ApprovalKey(x) { assert AddStep(ss, s)[i].key == ApprovalKey(x); }
    if !HasKey(ss, s.key) { assert AddStep(ss, s)[|ss|].key == s.key; }
  }

  // ----- statements -----

  lemma LeaseRowServed(t: Tables, run: Option<string>, name: string, generation: nat)
    requires LeaseRow(t, run, name, generation).Ok?
    ensures DbTickets.ServiceRows(t.events, LeaseRow(t, run, name, generation).value.events)
  {
    hide InsertOrIgnore;
    DbTickets.InsertsServed();
  }

  lemma RetireServes(o: Tables, t: Tables, id: string, reason: Reason, who: Option<string>, now: int)
    requires Served(o, t) && Retire(t, id, reason, who, now).Ok?
    ensures Served(o, Retire(t, id, reason, who, now).value)
  {
    hide Served, AddStep, InsertOrIgnore;
    DbTickets.InsertsServed();
    ServedUnused(o, t, id);
    var u := Retire(t, id, reason, who, now).value;
    RowSettledServes(o, t, u, id, u.approvals[id], ServiceStep(id, t.approvals[id], StepCancelled));
  }

  lemma ExpireServes(o: Tables, t: Tables, id: string, now: int)
    requires Served(o, t) && Expire(t, id, now).Ok?
    ensures Served(o, Expire(t, id, now).value.0)
  {
    hide Served, AddRow, AddServiceStep;
    if id in t.approvals && Due(t.approvals[id], now) {
      var a := t.approvals[id];
      var b := a.(state := Expired);
      var t1 := AddApprovalRow(PutApproval(t, id, b), a.run, id, "approval.request_timed_out");
      var u := AddServiceStep(t1, id, a, StepCancelled);
      RowWritten(PutApproval(t, id, b), id + ":" + "approval.request_timed_out", a.run, "approval.request_timed_out");
      StepAdded(t1, id, a, StepCancelled);
      RowSettledServes(o, t, u, id, b, ServiceStep(id, a, StepCancelled));
      Untouched(o, u, SetStatus(u, a.run, Interrupted));
    }
  }

  lemma RowWritten(t: Tables, id: string, run: string, name: string)
    ensures var u := AddRow(t, id, run, name);
            u == t.(events := u.events) && DbTickets.ServiceRows(t.events, u.events)
  {
    hide InsertOrIgnore;
    DbTickets.InsertsServed();
  }

  lemma StepAdded(t: Tables, id: string, a: Approval, state: StepState)
    ensures AddServiceStep(t, id, a, state) ==
              t.(steps := t.steps[a.run := AddStep(StepsOf(t, a.run), ServiceStep(id, a, state))])
    ensures ServiceStep(id, a, state).key == ApprovalKey(id) && ServiceStep(id, a, state).state == state
  {
    hide AddStep;
  }

  lemma {:induction false} RetireAllServes(o: Tables, t: Tables, ids: seq<string>, reason: Reason, who: Option<string>,
                                           now: int)
    requires Served(o, t) && RetireAll(t, ids, reason, who, now).Ok?
    ensures Served(o, RetireAll(t, ids, reason, who, now).value)
    decreases |ids|
  {
    hide Served, Retire;
    if ids != [] {
      RetireAllServes(o, t, ids[..|ids| - 1], reason, who, now);
      RetireServes(o, RetireAll(t, ids[..|ids| - 1], reason, who, now).value, ids[|ids| - 1], reason, who, now);
    }
  }

  lemma {:induction false} ExpireAllServes(o: Tables, t: Tables, ids: seq<string>, now: int)
    requires Served(o, t) && ExpireAll(t, ids, now).Ok?
    ensures Served(o, ExpireAll(t, ids, now).value)
    decreases |ids|
  {
    hide Served, Expire;
    if ids != [] {
      ExpireAllServes(o, t, ids[..|ids| - 1], now);
      ExpireServes(o, ExpireAll(t, ids[..|ids| - 1], now).value, ids[|ids| - 1], now);
    }
  }

  lemma {:induction false} FailRunsServes(o: Tables, t: Tables, ids: seq<string>, now: int)
    requires Served(o, t) && FailRuns(t, ids, now).Ok?
    ensures Served(o, FailRuns(t, ids, now).value)
    decreases |ids|
  {
    hide Served, Retire;
    if ids != [] {
      var before := FailRuns(t, ids[..|ids| - 1], now).value;
      FailRunsServes(o, t, ids[..|ids| - 1], now);
      RetireServes(o, before, ids[|ids| - 1], ServiceRestart, None, now);
      Untouched(o, Retire(before, ids[|ids| - 1], ServiceRestart, None, now).value, FailRuns(t, ids, now).value);
    }
  }

  // ----- transactions -----

  lemma TakeoverServes(o: Tables, t: Tables, device: string, active: bool, run: Option<string>, order: seq<string>,
                       now: int)
    requires Served(o, t)
    ensures Served(o, Takeover(t, device, active, run, order, now).tables)
  {
    hide Served, RetireAll, LeaseRow;
    var u := Takeover(t, device, active, run, order, now);
    if u.result.Ok? {
      var g := t.lease.generation + 1;
      var t1 := t.(lease := Lease(g, if active then LeaseState.Pausing else LeaseState.Human, Some(device), false,
                                  Some(now), Some(now), now));
      Untouched(o, t, t1);
      RetireAllServes(o, t1, order, LeaseTakeover, None, now);
      var t2 := RetireAll(t1, order, LeaseTakeover, None, now).value;
      LeaseRowEffect(t2, run, "lease.takeover", g);
      LeaseRowServed(t2, run, "lease.takeover", g);
      Untouched(o, t2, u.tables);
    }
  }

  lemma KillServes(o: Tables, t: Tables, device: string, expected: nat, run: Option<string>, order: seq<string>,
                   now: int)
    requires Served(o, t)
    ensures Served(o, RevokeLease(t, device, expected, run, order, now).tables)
  {
    hide Served, RetireAll, LeaseRow, AutoRelease;
    var u := RevokeLease(t, device, expected, run, order, now);
    if u.result.Ok? {
      var l := AutoRelease(t.lease, now);
      Untouched(o, t, t.(lease := l));
      RetireAllServes(o, t.(lease := l), order, LeaseRevoked, None, now);
      var t1 := RetireAll(t.(lease := l), order, LeaseRevoked, None, now).value;
      LeaseRowEffect(t1.(lease := Unheld(l.generation + 1, now)), run, "lease.released", l.generation + 1);
      LeaseRowServed(t1.(lease := Unheld(l.generation + 1, now)), run, "lease.released", l.generation + 1);
      Untouched(o, t1, u.tables);
    }
  }

  lemma HoldServes(o: Tables, t: Tables, m: HolderMove, device: string, expected: nat, run: Option<string>, now: int)
    requires Served(o, t)
    ensures Served(o, Hold(t, m, device, expected, run, now).tables)
  {
    hide Served, LeaseRow, AutoRelease, Moved, MoveAllowed;
    var l' := Moved(m, AutoRelease(t.lease, now), now);
    if LeaseRow(t.(lease := l'), run, MoveName(m), l'.generation).Ok? {
      LeaseRowEffect(t.(lease := l'), run, MoveName(m), l'.generation);
      LeaseRowServed(t.(lease := l'), run, MoveName(m), l'.generation);
    }
    Untouched(o, t, Hold(t, m, device, expected, run, now).tables);
  }

  lemma DropServes(o: Tables, t: Tables, device: string, order: seq<string>, now: int)
    requires Served(o, t)
    ensures Served(o, RevokeDevice(t, device, order, now).tables)
  {
    hide Served, RetireAll;
    var u := RevokeDevice(t, device, order, now);
    if u.result.Ok? {
      var t1 := t.(grant := t.grant + 1);
      Untouched(o, t, t1);
      RetireAllServes(o, t1, order, DeviceRevoked, None, now);
      Untouched(o, RetireAll(t1, order, DeviceRevoked, None, now).value, u.tables);
    }
  }

  lemma RecoverServes(o: Tables, t: Tables, p: RecoveryPlan, now: int)
    requires Served(o, t)
    ensures Served(o, Recover(t, p, now).tables)
  {
    hide Served, RetireAll, ExpireAll, FailRuns;
    if Recover(t, p, now).result.Ok? {
      Untouched(o, t, Released(t, now));
      RetireAllServes(o, Released(t, now), p.orphaned, ServiceRestart, None, now);
      var t1 := RetireAll(Released(t, now), p.orphaned, ServiceRestart, None, now).value;
      ExpireAllServes(o, t1, p.due, now);
      FailRunsServes(o, ExpireAll(t1, p.due, now).value, p.survivors, now);
    }
  }

  lemma ProposeServes(hash: string -> string, o: Tables, t: Tables, op: Op)
    requires Served(o, t) && op.Ask?
    ensures Served(o, Propose(hash, t, op.id, op.run, op.generation, op.action, op.description, op.ttl, op.now).tables)
  {
    hide Served, Json.Canonical, ValidAction, InsertOrIgnore;
    DbTickets.InsertsServed();
    var d := Propose(hash, t, op.id, op.run, op.generation, op.action, op.description, op.ttl, op.now);
    if d.result.Ok? { RowMovedServes(o, t, d.tables, op.id, d.tables.approvals[op.id]); }
  }

  lemma ConcludeServes(o: Tables, t: Tables, id: string, b: Approval)
    requires Served(o, t) && id in t.approvals && t.approvals[id].state.Pending? && b.run == t.approvals[id].run
    requires b.run in t.runs
    requires b.state in {Approved, Denied}
    ensures Served(o, Conclude(t, id, b))
  {
    hide Served, AddStep, InsertOrIgnore;
    DbTickets.InsertsServed();
    var u := Conclude(t, id, b);
    if b.state.Denied? {
      RowSettledServes(o, t, u, id, b, ServiceStep(id, b, StepDenied));
    } else {
      RowMovedServes(o, t, u, id, b);
    }
  }

  lemma DecideServes(hash: string -> string, o: Tables, t: Tables, op: Op)
    requires Served(o, t) && op.Settle?
    ensures Served(o, Decide(hash, t, op.id, op.device, op.approve, op.seen, op.token, op.now).tables)
  {
    hide Served, Expire, Conclude, Retire, ActionIntact, Decides;
    if Expire(t, op.id, op.now).Ok? {
      ExpireServes(o, t, op.id, op.now);
      var t1 := Expire(t, op.id, op.now).value.0;
      if Retire(t1, op.id, DigestMismatch, Some(op.device), op.now).Ok? {
        RetireServes(o, t1, op.id, DigestMismatch, Some(op.device), op.now);
      }
      if op.id in t1.approvals && t1.approvals[op.id].state.Pending? && t1.approvals[op.id].run in t1.runs {
        ConcludeServes(o, t1, op.id, Ruled(hash, t1.approvals[op.id], op.device, op.approve, op.token, op.now));
      }
    }
  }

  lemma RevokeServes(o: Tables, t: Tables, id: string, device: string, now: int)
    requires Served(o, t)
    ensures Served(o, RevokeApproval(t, id, device, now).tables)
  {
    hide Served, Expire, AddStep, InsertOrIgnore;
    DbTickets.InsertsServed();
    var u := RevokeApproval(t, id, device, now);
    if Expire(t, id, now).Ok? {
      ExpireServes(o, t, id, now);
      var t1 := Expire(t, id, now).value.0;
      if u.result.Ok? {
        var a := t1.approvals[id];
        if a.consumedAt.Some? {
          RowMovedServes(o, t1, u.tables, id, u.tables.approvals[id]);
        } else {
          RowSettledServes(o, t1, u.tables, id, u.tables.approvals[id], ServiceStep(id, a, StepCancelled));
        }
      }
    }
  }

  lemma LifecycleServes(hash: string -> string, o: Tables, t: Tables, op: Op)
    requires Served(o, t) && DbTickets.Lifecycle(op)
    ensures Served(o, Step(hash, t, op))
  {
    hide Served, Step;
    DbTickets.LifecycleTickets(hash, t, op);
    Untouched(o, t, Step(hash, t, op));
  }

  lemma StepServes(hash: string -> string, o: Tables, t: Tables, op: Op)
    requires Served(o, t) && !op.Report?
    ensures Served(o, Step(hash, t, op))
  {
    hide Served, LeaseMaintenance, Takeover, Hold, RevokeLease, Propose, Decide, RevokeApproval, Expire, ExpireAll,
         RevokeDevice, InterruptRuns, Recover, Admit, ClaimQueued, BeginTurn, ApplyBatch, MarkInterrupted, StopTask,
         CancelBeforeSpawn, FailPrecheck, Deliver;
    match op {
      case Take(device, active, affected, order, now) => TakeoverServes(o, t, device, active, affected, order, now);
      case Move(move, device, expected, affected, now) => HoldServes(o, t, move, device, expected, affected, now);
      case Kill(device, expected, affected, order, now) => KillServes(o, t, device, expected, affected, order, now);
      case Ask(_, _, _, _, _, _, _) => ProposeServes(hash, o, t, op);
      case Settle(_, _, _, _, _, _) => DecideServes(hash, o, t, op);
      case Revoke(id, device, now) => RevokeServes(o, t, id, device, now);
      case Read(id, now) => if Expire(t, id, now).Ok? { ExpireServes(o, t, id, now); }
      case SweepDue(order, now) => if ExpireAll(t, order, now).Ok? { ExpireAllServes(o, t, order, now); }
      case DropDevice(device, order, now) => DropServes(o, t, device, order, now);
      case RecoverAll(plan, now) => RecoverServes(o, t, plan, now);
      case _ => LifecycleServes(hash, o, t, op);
    }
  }
}
