/** What each operation does to the lease and to the status of every run, and what follows over whole
    histories: who moves the lease, when turns begin, and how runs end. */
module DbLifecycle {
  import opened Wrappers
  import opened Tables
  import opened LeaseAndApprovals
  import opened WorkerEvents
  import opened DbInvariant
  import opened DbRuns
  import opened ApprovalTable
  import opened LeaseTable
  import opened RunTable
  import DbSettlement

  // ----- the queries of the service -----

  /** What the four queries select. */
  lemma QueriesTable(t: Tables, now: int, id: string)
    ensures id in PendingIds(t) <==> id in t.approvals && t.approvals[id].state == Pending
    ensures id in DueIds(t, now) <==> id in t.approvals && PastDeadline(t.approvals[id], now)
    ensures id in OrphanIds(t) <==>
              id in t.approvals && t.approvals[id].state == Pending && t.approvals[id].run in t.runs
              && t.runs[t.approvals[id].run].status == Interrupted
    ensures id in InFlightIds(t) <==> id in t.runs && Live(t.runs[id].status)
  {
  }

  /** Neither queued nor over nor set aside. */
  predicate Live(s: RunStatus) {
    s == Starting || s == Running || s == WaitingApproval || s == WaitingHuman || s == Cancelling || s == Reconciling
  }

  // ----- lists of runs -----

  /** The runs of the list are interrupted; nothing else about runs changes. */
  ghost predicate AllInterrupted(t: Tables, u: Tables, runs: iset<string>) {
    && u.runs.Keys == t.runs.Keys
    && forall r | r in t.runs :: u.runs[r] == if r in runs then t.runs[r].(status := Interrupted) else t.runs[r]
  }

  lemma {:induction false} InterruptedRuns(t: Tables, order: seq<string>)
    ensures var u := InterruptRuns(t, order);
            && AllInterrupted(t, u, iset r: string | r in order)
            && u == t.(runs := u.runs, events := u.events)
            && t.events <= u.events && forall r | r in order :: Taken(u.events, r, r + ":run.interrupted")
    decreases |order|
  {
    hide AddMilestone, Taken;
    if order != [] {
      var init, run := order[..|order| - 1], order[|order| - 1];
      InterruptedRuns(t, init);
      assert order == init + [run];
      var before := SetStatus(InterruptRuns(t, init), run, Interrupted);
      MilestoneTable(before, run, "run.interrupted");
      assert run + ":" + "run.interrupted" == run + ":run.interrupted";
      JournalledFacts(before.events, run, run + ":run.interrupted", "run.interrupted");
      forall r | r in init
        ensures Taken(Journalled(before.events, run, run + ":run.interrupted", "run.interrupted"), r,
                      r + ":run.interrupted")
      {
        TakenLater(before.events, Journalled(before.events, run, run + ":run.interrupted", "run.interrupted"), r,
                   r + ":run.interrupted");
      }
    }
  }

  /** The runs of the rows in the list. */
  ghost function RunsOf(t: Tables, ids: seq<string>): iset<string> {
    iset r: string | RunAmong(t, ids, r)
  }

  predicate RunAmong(t: Tables, ids: seq<string>, r: string) {
    exists i | 0 <= i < |ids| :: ids[i] in t.approvals && t.approvals[ids[i]].run == r
  }

  ghost predicate AllFailedClosed(t: Tables, u: Tables, ids: seq<string>, now: int) {
    AllRevoked(t, u.(runs := t.runs), ids, ServiceRestart, None, now) && AllInterrupted(t, u, RunsOf(t, ids))
  }

  lemma {:induction false} FailRunsTable(t: Tables, ids: seq<string>, now: int)
    requires FailRuns(t, ids, now).Ok?
    ensures AllFailedClosed(t, FailRuns(t, ids, now).value, ids, now)
    decreases |ids|
  {
    hide Retire, AllFailedClosed;
    if ids == [] {
      NoneFailedClosed(t, now);
    } else {
      var init, last := ids[..|ids| - 1], ids[|ids| - 1];
      FailRunsTable(t, init, now);
      var m := FailRuns(t, init, now).value;
      RetireTable(m, last, ServiceRestart, None, now);
      FailedJoin(t, m, Retire(m, last, ServiceRestart, None, now).value, init, last, now);
      assert ids == init + [last];
    }
  }

  lemma NoneFailedClosed(t: Tables, now: int)
    ensures AllFailedClosed(t, t, [], now)
  {
  }

  lemma FailedJoin(t: Tables, m: Tables, u: Tables, ids: seq<string>, id: string, now: int)
    requires AllFailedClosed(t, m, ids, now) && AllRevoked(m, u, [id], ServiceRestart, None, now)
    ensures id in m.approvals
    ensures AllFailedClosed(t, SetStatus(u, m.approvals[id].run, Interrupted), ids + [id], now)
  {
    hide RevokedFor;
    assert RevokedFor(m, u, id, ServiceRestart, None, now);
    FailedRow(t, m, u, ids, id, now);
    RunsJoin(t, m, u, ids, id, now);
    RevokedMore(t, m, u, ids, id, now);
  }

  lemma FailedRow(t: Tables, m: Tables, u: Tables, ids: seq<string>, id: string, now: int)
    requires AllFailedClosed(t, m, ids, now) && RevokedFor(m, u, id, ServiceRestart, None, now)
    ensures id in m.approvals && id in t.approvals && m.approvals[id].run == t.approvals[id].run
  {
    hide Taken;
    if id in ids { assert RevokedFor(t, m.(runs := t.runs), id, ServiceRestart, None, now); }
  }

  lemma RevokedMore(t: Tables, m: Tables, u: Tables, ids: seq<string>, id: string, now: int)
    requires AllRevoked(t, m.(runs := t.runs), ids, ServiceRestart, None, now)
    requires AllRevoked(m, u, [id], ServiceRestart, None, now) && id in m.approvals
    ensures AllRevoked(t, SetStatus(u, m.approvals[id].run, Interrupted).(runs := t.runs), ids + [id], ServiceRestart,
                       None,
                       now)
  {
    var m0, u0 := m.(runs := t.runs), u.(runs := t.runs);
    assert AllRevoked(m0, u0, [id], ServiceRestart, None, now) by {
      assert RevokedFor(m, u, id, ServiceRestart, None, now);
      assert RevokedFor(m0, u0, id, ServiceRestart, None, now);
    }
    RevokedJoin(t, m0, u0, ids, id, ServiceRestart, None, now);
    assert SetStatus(u, m.approvals[id].run, Interrupted).(runs := t.runs) == u0;
  }

  lemma RunsJoin(t: Tables, m: Tables, u: Tables, ids: seq<string>, id: string, now: int)
    requires AllInterrupted(t, m, RunsOf(t, ids)) && u.runs == m.runs && id in m.approvals && id in t.approvals
    requires m.approvals[id].run == t.approvals[id].run
    ensures AllInterrupted(t, SetStatus(u, m.approvals[id].run, Interrupted), RunsOf(t, ids + [id]))
  {
    var more := ids + [id];
    forall r: string ensures r in RunsOf(t, more) <==> r in RunsOf(t, ids) || r == t.approvals[id].run {
      if r in RunsOf(t, ids) {
        var i :| 0 <= i < |ids| && ids[i] in t.approvals && t.approvals[ids[i]].run == r;
        assert more[i] in t.approvals && t.approvals[more[i]].run == r;
      }
      if r == t.approvals[id].run { assert more[|ids|] in t.approvals && t.approvals[more[|ids|]].run == r; }
    }
  }

  // ----- restart recovery, row by row -----

  /** A row after recovery: past its deadline on a run still live it has expired, otherwise it is revoked
      for the restart; settled rows are as they were. */
  function RecoveredRow(t: Tables, a: Approval, now: int): Approval {
    if a.state != Pending then a
    else if PastDeadline(a, now) && !(a.run in t.runs && t.runs[a.run].status == Interrupted)
    then a.(state := Expired)
    else a.(state := Revoked, reason := Some(ServiceRestart), decidedBy := None, decidedAt := Some(now))
  }

  predicate PendingOn(t: Tables, run: string, id: string) {
    id in t.approvals && t.approvals[id].run == run && t.approvals[id].state == Pending
  }

  /** Recovery takes the lease back for the agent, settles every pending row by that rule and fails its
      run closed; nothing else about approvals and runs changes. */
  lemma RecoveryTable(hash: string -> string, t: Tables, p: RecoveryPlan, now: int)
    requires Inv(hash, t) && RecoveryListing(t, p, now)
    ensures var r := Recover(t, p, now); var u := r.tables;
            && r.result.Ok? && u.lease == Free(t.lease.generation + 1, now) && u.grant == t.grant
            && u.devices == t.devices && u.approvals.Keys == t.approvals.Keys && u.runs.Keys == t.runs.Keys
            && (forall id | id in t.approvals :: u.approvals[id] == RecoveredRow(t, t.approvals[id], now))
            && (forall run | run in t.runs :: RunRecovered(t, u, run))
  {
    hide Inv, RetireAll, ExpireAll, FailRuns, PendingIds, DueIds, OrphanIds, Listing, AllRevoked, AllFailedClosed,
         DbSettlement.ExpiredExactly, RunRecovered, RecoveredRow;
    DbSettlement.RecoverySettlesAll(hash, t, p, now);
    var t0 := Released(t, now);
    DbSettlement.OrphansRevoked(hash, t, p.orphaned, now);
    RetireAllTable(t0, p.orphaned, ServiceRestart, None, now);
    var t1 := RetireAll(t0, p.orphaned, ServiceRestart, None, now).value;
    DbSettlement.DueExpired(hash, t1, p.due, now);
    var t2 := ExpireAll(t1, p.due, now).value;
    FailRunsTable(t2, p.survivors, now);
    var u := FailRuns(t2, p.survivors, now).value;
    Frames(t0, t1, t2, u, p, now);
    forall id | id in t.approvals ensures u.approvals[id] == RecoveredRow(t, t.approvals[id], now) {
      RowThrough(t, t1, t2, u, p, now, id);
    }
    forall run | run in t.runs ensures RunRecovered(t, u, run) { RunThrough(hash, t, t1, t2, u, p, now, run); }
  }

  predicate RunRecovered(t: Tables, u: Tables, run: string)
    requires run in t.runs && run in u.runs
  {
    u.runs[run] == if exists id | id in t.approvals :: PendingOn(t, run, id) then t.runs[run].(status := Interrupted)
                   else t.runs[run]
  }

  lemma Frames(t0: Tables, t1: Tables, t2: Tables, u: Tables, p: RecoveryPlan, now: int)
    requires AllRevoked(t0, t1, p.orphaned, ServiceRestart, None, now)
    requires DbSettlement.ExpiredExactly(t1, t2, DueIds(t1, now)) && AllFailedClosed(t2, u, p.survivors, now)
    ensures u.lease == t0.lease && u.grant == t0.grant && u.devices == t0.devices
    ensures t0.approvals.Keys == t1.approvals.Keys == t2.approvals.Keys == u.approvals.Keys
    ensures t0.runs.Keys == t1.runs.Keys == t2.runs.Keys == u.runs.Keys && t1.runs == t0.runs
  {
    hide RevokedFor, DbSettlement.RunAfter, DbSettlement.StepsAfter, DbSettlement.NewRows;
  }

  /** One row through the three passes. */
  lemma RowThrough(t: Tables, t1: Tables, t2: Tables, u: Tables, p: RecoveryPlan, now: int, id: string)
    requires id in t.approvals && Listing(p.orphaned, OrphanIds(t)) && Listing(p.survivors, PendingIds(t2))
    requires AllRevoked(Released(t, now), t1, p.orphaned, ServiceRestart, None, now)
    requires DbSettlement.ExpiredExactly(t1, t2, DueIds(t1, now)) && AllFailedClosed(t2, u, p.survivors, now)
    ensures id in u.approvals && u.approvals[id] == RecoveredRow(t, t.approvals[id], now)
  {
    hide Taken, DbSettlement.RunAfter, DbSettlement.StepsAfter, DbSettlement.NewRows, AllInterrupted;
    QueriesTable(t, now, id);
    QueriesTable(t1, now, id);
    QueriesTable(t2, now, id);
    if id in p.orphaned { assert RevokedFor(Released(t, now), t1, id, ServiceRestart, None, now); }
    if id in p.survivors { assert RevokedFor(t2, u.(runs := t2.runs), id, ServiceRestart, None, now); }
  }

  /** One run through the three passes. */
  lemma RunThrough(hash: string -> string, t: Tables, t1: Tables, t2: Tables, u: Tables, p: RecoveryPlan, now: int,
                   run: string)
    requires Inv(hash, t) && run in t.runs && Listing(p.orphaned, OrphanIds(t)) && Listing(p.survivors, PendingIds(t2))
    requires AllRevoked(Released(t, now), t1, p.orphaned, ServiceRestart, None, now) && t1.runs == t.runs
    requires DbSettlement.ExpiredExactly(t1, t2, DueIds(t1, now)) && AllFailedClosed(t2, u, p.survivors, now)
    requires t.approvals.Keys == t1.approvals.Keys == t2.approvals.Keys && t2.runs.Keys == t.runs.Keys == u.runs.Keys
    ensures RunRecovered(t, u, run)
  {
    hide Taken, Inv, DbSettlement.StepsAfter, DbSettlement.NewRows, RevokedFor;
    assert DbSettlement.RunAfter(t1, t2, DueIds(t1, now), run);
    var due := DueIds(t1, now);
    forall id | id in t.approvals
      ensures DbSettlement.HasDue(t1, due, run, id) ==> PendingOn(t, run, id)
      ensures PendingOn(t2, run, id) ==> PendingOn(t, run, id)
      ensures PendingOn(t, run, id) ==>
                t.runs[run].status == Interrupted || DbSettlement.HasDue(t1, due, run, id) || PendingOn(t2, run, id)
    {
      PassesOn(t, t1, t2, p, now, run, id);
    }
    SurvivorsRun(t2, p.survivors, run);
    if id :| id in t.approvals && PendingOn(t, run, id) {
      if DbSettlement.HasDue(t1, due, run, id) { assert exists x :: DbSettlement.HasDue(t1, due, run, x); }
    }
  }

  lemma PassesOn(t: Tables, t1: Tables, t2: Tables, p: RecoveryPlan, now: int, run: string, id: string)
    requires id in t.approvals && run in t.runs && Listing(p.orphaned, OrphanIds(t))
    requires AllRevoked(Released(t, now), t1, p.orphaned, ServiceRestart, None, now)
    requires DbSettlement.ExpiredExactly(t1, t2, DueIds(t1, now))
    ensures DbSettlement.HasDue(t1, DueIds(t1, now), run, id) ==> PendingOn(t, run, id)
    ensures PendingOn(t2, run, id) ==> PendingOn(t, run, id)
    ensures PendingOn(t, run, id) ==>
              || t.runs[run].status == Interrupted || DbSettlement.HasDue(t1, DueIds(t1, now), run, id)
              || PendingOn(t2, run, id)
  {
    hide Taken, DbSettlement.RunAfter, DbSettlement.StepsAfter, DbSettlement.NewRows;
    QueriesTable(t, now, id);
    QueriesTable(t1, now, id);
    if id in p.orphaned { assert RevokedFor(Released(t, now), t1, id, ServiceRestart, None, now); }
  }

  lemma SurvivorsRun(t: Tables, ids: seq<string>, run: string)
    requires Listing(ids, PendingIds(t))
    ensures run in RunsOf(t, ids) <==> exists id | id in t.approvals :: PendingOn(t, run, id)
  {
    if run in RunsOf(t, ids) {
      var i :| 0 <= i < |ids| && ids[i] in t.approvals && t.approvals[ids[i]].run == run;
      QueriesTable(t, 0, ids[i]);
      assert PendingOn(t, run, ids[i]);
    }
    if id :| id in t.approvals && PendingOn(t, run, id) {
      QueriesTable(t, 0, id);
      assert id in ids;
      var i :| 0 <= i < |ids| && ids[i] == id;
      assert RunAmong(t, ids, run);
    }
  }

  // ----- the lease, step by step -----

  /** The batch reports that the run resumed. */
  predicate Resumes(es: seq<WorkerEvent>) {
    exists i | 0 <= i < |es| :: es[i].body.RunResumed?
  }

  /** What each operation makes of the lease; all others leave it alone. */
  predicate LeaseStep(t: Tables, op: Op, l: Lease) {
    match op
    case Maintain(now) => l == Current(t.lease, now)
    case Take(device, active, affected, _, now) =>
      l == if Known(t, affected)
           then Lease(t.lease.generation + 1, if active then Pausing else LeaseState.Human, Some(device), false,
                      Some(now), Some(now), now)
           else t.lease
    case Move(move, device, expected, affected, now) =>
      var c := Current(t.lease, now);
      if && expected == c.generation && c.holder == Some(device) && Suits(move, c.state, c.bracket)
         && (move == Heartbeat || Known(t, affected))
      then MovesTo(move, c, l, now) else l == t.lease
    case Kill(_, expected, affected, _, now) =>
      var c := Current(t.lease, now);
      l == if expected == c.generation && Known(t, affected) && NothingPending(t) then Free(c.generation + 1, now)
           else t.lease
    case DropDevice(device, _, now) =>
      l == if device in t.devices && t.lease.holder == Some(device) then Free(t.lease.generation + 1, now) else t.lease
    case RecoverAll(_, now) => l == Free(t.lease.generation + 1, now)
    case Begin(run, now) => l == if BeginAnswer(t, run, now).Ok? then Current(t.lease, now) else t.lease
    case Report(_, _, es, _, now) =>
      || l == t.lease
      || (Resumes(es) && t.lease.state == Resuming && !Silent(t.lease, now) && l == Free(t.lease.generation + 1, now))
    case _ => l == t.lease
  }

  predicate NothingPending(t: Tables) {
    forall id | id in t.approvals :: t.approvals[id].state != Pending
  }

  lemma PendingNone(t: Tables)
    ensures NothingPending(t) <==> PendingIds(t) == {}
  {
    forall id | id in t.approvals ensures id in PendingIds(t) <==> t.approvals[id].state == Pending {}
  }

  lemma KillLease(hash: string -> string, t: Tables, op: Op)
    requires Inv(hash, t) && Legal(t, op) && op.Kill?
    ensures LeaseStep(t, op, Step(hash, t, op).lease)
  {
    hide Inv, PendingIds, Silent, RetireAll, AutoRelease, NothingPending;
    DbSettlement.KillSwitchCommits(hash, t, op.device, op.expected, op.affected, op.order, op.now);
    CurrentTable(t.lease, op.now);
    PendingNone(t);
    if PendingIds(t) == {} {
      DbSettlement.ListingFacts(op.order, PendingIds(t));
      assert op.order == [];
      KillTable(hash, t, op.device, op.expected, op.affected, op.now);
    }
  }

  lemma {:induction false} ChainLease(hash: string -> string, ss: seq<Tables>, run: string, es: seq<WorkerEvent>,
                                      turn: Turn,
                                      now: int, stored: seq<Stored>, i: nat)
    requires Chain(hash, ss, run, es, turn, now, stored) && i < |ss|
    ensures || ss[i].lease == ss[0].lease
            || (Resumes(es) && ss[0].lease.state == Resuming && !Silent(ss[0].lease, now)
                && ss[i].lease == Free(ss[0].lease.generation + 1, now))
    decreases i
  {
    hide StepsAfter, RowsAfter, StartAccepted, FinishAccepted, Redeemable, KnownKey, KnownAt, IdUsed, Chain;
    if i > 0 {
      ChainLease(hash, ss, run, es, turn, now, stored, i - 1);
      ChainLink(hash, ss, run, es, turn, now, stored, i - 1);
      var body := es[i - 1].body;
      if body.RunResumed? { assert Resumes(es); }
    }
  }

  lemma ChainLink(hash: string -> string, ss: seq<Tables>, run: string, es: seq<WorkerEvent>, turn: Turn, now: int,
                  stored: seq<Stored>, i: nat)
    requires Chain(hash, ss, run, es, turn, now, stored) && i + 1 < |ss|
    ensures |stored| == |ss| - 1 <= |es| && run in ss[i].runs
    ensures Taking(hash, ss[i], ss[i + 1], run, es[i], turn, now, stored[i])
  {
    hide Taking;
  }

  lemma ReportLease(hash: string -> string, t: Tables, op: Op)
    requires Inv(hash, t) && op.Report?
    ensures LeaseStep(t, op, Step(hash, t, op).lease)
  {
    hide Inv, ApplyBatch, Chain, Silent, Resumes, Takeable;
    var ss, stored := BatchTable(hash, t, op.run, op.generation, op.es, op.turn, op.now);
    if ApplyBatch(hash, t, op.run, op.generation, op.es, op.turn, op.now).result.Ok? {
      ChainLease(hash, ss, op.run, op.es, op.turn, op.now, stored, |op.es|);
    }
  }

  lemma SettleLease(hash: string -> string, t: Tables, op: Op)
    requires Inv(hash, t) && op.Settle?
    ensures Step(hash, t, op).lease == t.lease
  {
    hide Inv, Decide, Settled, Decided, TimedOut;
    DecideTable(hash, t, op.id, op.device, op.approve, op.seen, op.token, op.now);
    if op.id in t.approvals {
      SettledFrames(t, op.id);
      DecidedFrame(t, op.id, Verdict(hash, t.approvals[op.id], op.device, op.approve, op.token, op.now));
    }
  }

  lemma ApprovalLease(hash: string -> string, t: Tables, op: Op)
    requires Inv(hash, t) && Legal(t, op)
    requires op.Ask? || op.Revoke? || op.Read? || op.SweepDue?
    ensures Step(hash, t, op).lease == t.lease
  {
    hide Inv, Propose, RevokeApproval, GetApproval, ProposeAnswer, Settled, TimedOut, DueIds, ExpireAll, ApplyBatch,
         DbSettlement.RunAfter, DbSettlement.StepsAfter, DbSettlement.NewRows;
    match op {
      case Ask(id, run, generation, action, description, ttl, now) =>
        ProposeTable(hash, t, id, run, generation, action, description, ttl, now);
      case Revoke(id, device, now) =>
        RevokeTable(hash, t, id, device, now);
        if id in t.approvals { SettledFrames(t, id); }
      case Read(id, now) =>
        ReadTable(hash, t, id, now);
        if id in t.approvals { SettledFrames(t, id); }
      case SweepDue(order, now) => DbSettlement.SweepExpiresTheDue(hash, t, order, now);
    }
  }

  lemma SettledFrames(t: Tables, id: string)
    requires id in t.approvals
    ensures forall b: Approval, name, step ::
              Settled(t, id, b, name, step).lease == t.lease && Settled(t, id, b, name, step).runs == t.runs
    ensures t.approvals[id].run in t.runs ==>
              TimedOut(t, id).lease == t.lease
              && TimedOut(t, id).runs ==
                   t.runs[t.approvals[id].run := t.runs[t.approvals[id].run].(status := Interrupted)]
  {
    hide WithVerdict, Journalled;
  }

  lemma DecidedFrame(t: Tables, id: string, b: Approval)
    requires b.run in t.runs
    ensures Decided(t, id, b).lease == t.lease
    ensures Decided(t, id, b).runs ==
              if t.runs[b.run].status == WaitingApproval then t.runs[b.run := t.runs[b.run].(status := Running)]
              else t.runs
  {
    hide WithVerdict, Journalled;
  }

  /** Every operation does to the lease what the table says. */
  lemma LeaseSteps(hash: string -> string, t: Tables, op: Op)
    requires Inv(hash, t) && Legal(t, op)
    ensures LeaseStep(t, op, Step(hash, t, op).lease)
  {
    hide *;
    if op.Kill? {
      KillLease(hash, t, op);
    } else if op.Report? {
      ReportLease(hash, t, op);
    } else if op.Take? || op.Move? || op.DropDevice? || op.RecoverAll? || op.Maintain? || op.Begin? {
      MovingLease(hash, t, op);
    } else {
      if op.Settle? {
        SettleLease(hash, t, op);
      } else if op.Ask? || op.Revoke? || op.Read? || op.SweepDue? {
        ApprovalLease(hash, t, op);
      } else if op.Pair? || op.InterruptAll? || op.Enqueue? || op.Pick? {
        StartingLease(hash, t, op);
      } else if op.Interrupt? || op.Stop? || op.CancelEarly? {
        StoppingLease(hash, t, op);
      } else {
        EndingLease(hash, t, op);
      }
      SameLease(t, op, Step(hash, t, op));
    }
  }

  lemma SameLease(t: Tables, op: Op, u: Tables)
    requires !op.Kill? && !op.Report? && !op.Take? && !op.Move? && !op.DropDevice? && !op.RecoverAll? && !op.Maintain?
    requires !op.Begin? && u.lease == t.lease
    ensures LeaseStep(t, op, u.lease)
  {
  }

  lemma MovingLease(hash: string -> string, t: Tables, op: Op)
    requires Inv(hash, t) && Legal(t, op)
    requires op.Take? || op.Move? || op.DropDevice? || op.RecoverAll? || op.Maintain? || op.Begin?
    ensures LeaseStep(t, op, Step(hash, t, op).lease)
  {
    hide Inv, LeaseMaintenance, Takeover, Hold, RevokeDevice, Recover, BeginTurn, Listing, RecoveryListing, Silent,
         AllRevoked, BeginAnswer, RunRecovered, RecoveredRow;
    match op {
      case Take(device, active, affected, order, now) => TakeoverTable(hash, t, device, active, affected, order, now);
      case Move(move, device, expected, affected, now) => HoldTable(t, move, device, expected, affected, now);
      case DropDevice(device, order, now) => DeviceTable(hash, t, device, order, now);
      case RecoverAll(plan, now) => RecoveryTable(hash, t, plan, now);
      case Maintain(now) => MaintenanceTable(t, now);
      case Begin(run, now) => BeginTable(t, run, now);
    }
  }

  lemma LifecycleFrames(t: Tables, run: string, active: bool)
    ensures Admit(t, run).tables.lease == t.lease && ClaimQueued(t, run).tables.lease == t.lease
    ensures MarkInterrupted(t, run).tables.lease == t.lease && StopTask(t, run, active).tables.lease == t.lease
    ensures CancelBeforeSpawn(t, run).tables.lease == t.lease && FailPrecheck(t, run).tables.lease == t.lease
    ensures Deliver(t, run).tables.lease == t.lease
  {
    hide Admit, ClaimQueued, MarkInterrupted, StopTask, CancelBeforeSpawn, FailPrecheck, Deliver, Journalled;
    LifecycleTable(t, run);
    StopTable(t, run, active);
  }

  lemma StartingLease(hash: string -> string, t: Tables, op: Op)
    requires op.Pair? || op.InterruptAll? || op.Enqueue? || op.Pick?
    ensures Step(hash, t, op).lease == t.lease
  {
    hide LeaseMaintenance, Takeover, Hold, RevokeLease, Propose, Decide, RevokeApproval, GetApproval, Sweep,
         RevokeDevice, InterruptRuns, Recover, Admit, ClaimQueued, BeginTurn, ApplyBatch, MarkInterrupted, StopTask,
         CancelBeforeSpawn, FailPrecheck, Deliver;
    match op {
      case Pair(_) =>
      case InterruptAll(order) => InterruptedRuns(t, order);
      case Enqueue(run) => LifecycleFrames(t, run, false);
      case Pick(run) => LifecycleFrames(t, run, false);
    }
  }

  lemma StoppingLease(hash: string -> string, t: Tables, op: Op)
    requires op.Interrupt? || op.Stop? || op.CancelEarly?
    ensures Step(hash, t, op).lease == t.lease
  {
    hide LeaseMaintenance, Takeover, Hold, RevokeLease, Propose, Decide, RevokeApproval, GetApproval, Sweep,
         RevokeDevice, InterruptRuns, Recover, Admit, ClaimQueued, BeginTurn, ApplyBatch, MarkInterrupted, StopTask,
         CancelBeforeSpawn, FailPrecheck, Deliver;
    match op {
      case Interrupt(run) => LifecycleFrames(t, run, false);
      case Stop(run, active) => LifecycleFrames(t, run, active);
      case CancelEarly(run) => LifecycleFrames(t, run, false);
    }
  }

  lemma EndingLease(hash: string -> string, t: Tables, op: Op)
    requires op.FailEarly? || op.Store?
    ensures Step(hash, t, op).lease == t.lease
  {
    hide LeaseMaintenance, Takeover, Hold, RevokeLease, Propose, Decide, RevokeApproval, GetApproval, Sweep,
         RevokeDevice, InterruptRuns, Recover, Admit, ClaimQueued, BeginTurn, ApplyBatch, MarkInterrupted, StopTask,
         CancelBeforeSpawn, FailPrecheck, Deliver;
    match op {
      case FailEarly(run) => LifecycleFrames(t, run, false);
      case Store(run) => LifecycleFrames(t, run, false);
    }
  }

  // ----- runs, step by step -----

  /** The status the rows of a journal leave a run in: those of its worker that end it, in order. */
  function StatusFrom(s: RunStatus, rows: seq<Event>, run: string): RunStatus {
    if rows == [] then s else
      var before := StatusFrom(s, rows[..|rows| - 1], run);
      var last := rows[|rows| - 1];
      if last.run == run && last.kind.Worker? then StatusAfter(before, last.kind.body) else before
  }

  predicate DueOn(t: Tables, run: string, now: int, id: string) {
    id in t.approvals && t.approvals[id].run == run && PastDeadline(t.approvals[id], now)
  }

  /** What each operation makes of the status of a run; all others leave it alone. */
  ghost predicate StatusStep(t: Tables, op: Op, u: Tables, run: string)
    requires run in t.runs && run in u.runs
  {
    var s, n := t.runs[run].status, u.runs[run].status;
    match op
    case Ask(id, r, generation, action, description, ttl, now) =>
      n == if r == run && ProposeAnswer(t, id, r, generation, action, description, ttl, now).Ok? then WaitingApproval
           else s
    case Settle(id, device, approve, seen, token, now) =>
      n == if DueOn(t, run, now, id) then Interrupted
           else if s == WaitingApproval && id in t.approvals && t.approvals[id].run == run
                   && DecideAnswer(t, id, approve, seen, token, now).Ok? then Running
           else s
    case Revoke(id, _, now) => n == if DueOn(t, run, now, id) then Interrupted else s
    case Read(id, now) => n == if DueOn(t, run, now, id) then Interrupted else s
    case SweepDue(_, now) => n == if exists id | id in t.approvals :: DueOn(t, run, now, id) then Interrupted else s
    case RecoverAll(_, _) => n == if exists id | id in t.approvals :: PendingOn(t, run, id) then Interrupted else s
    case InterruptAll(_) => n == if Live(s) then Interrupted else s
    case Pick(r) => n == if r == run && s == Queued then Starting else s
    case Begin(r, now) => n == if r == run && BeginAnswer(t, r, now).Ok? then Running else s
    case Interrupt(r) => n == if r == run && !Over(s) then Interrupted else s
    case Stop(r, active) =>
      n == if r == run && s == Queued then Cancelled
           else if r == run && active && (s == Running || s == Starting) then Cancelling
           else s
    case CancelEarly(r) => n == if r == run && s == Cancelling then Cancelled else s
    case FailEarly(r) => n == if r == run then Failed else s
    case Report(r, _, _, _, _) => t.events <= u.events && n == StatusFrom(s, u.events[|t.events|..], run)
    case _ => n == s
  }

  /** Only beginning a turn gives a run a new generation. */
  predicate GenerationStep(t: Tables, op: Op, u: Tables, run: string)
    requires run in t.runs && run in u.runs
  {
    u.runs[run].generation ==
      t.runs[run].generation + if op.Begin? && op.run == run && BeginAnswer(t, run, op.now).Ok? then 1 else 0
  }

  ghost predicate RunStep(t: Tables, op: Op, u: Tables, run: string) {
    && (run in t.runs ==> run in u.runs && StatusStep(t, op, u, run) && GenerationStep(t, op, u, run))
    && (run !in t.runs && run in u.runs ==> op == Enqueue(run) && u.runs[run] == Run(Queued, 1, None))
  }

  // ----- the approval operations -----

  lemma SettleRuns(hash: string -> string, t: Tables, op: Op, run: string)
    requires Inv(hash, t) && op.Settle?
    ensures RunStep(t, op, Step(hash, t, op), run)
  {
    hide Inv, Decide, Settled, Decided, TimedOut, DecideAnswer, BeginAnswer;
    DecideTable(hash, t, op.id, op.device, op.approve, op.seen, op.token, op.now);
    SettledWhen(t, op.id, op.approve, op.seen, op.token, op.now);
    if op.id in t.approvals {
      SettledFrames(t, op.id);
      DecidedFrame(t, op.id, Verdict(hash, t.approvals[op.id], op.device, op.approve, op.token, op.now));
    }
  }

  lemma SettledWhen(t: Tables, id: string, approve: bool, seen: nat, token: string, now: int)
    ensures DecideAnswer(t, id, approve, seen, token, now).Ok? ==>
              id in t.approvals && !PastDeadline(t.approvals[id], now)
  {
  }

  lemma RevokeRuns(hash: string -> string, t: Tables, op: Op, run: string)
    requires Inv(hash, t) && op.Revoke?
    ensures RunStep(t, op, Step(hash, t, op), run)
  {
    hide Inv, RevokeApproval, Settled, TimedOut, BeginAnswer;
    RevokeTable(hash, t, op.id, op.device, op.now);
    if op.id in t.approvals { SettledFrames(t, op.id); }
  }

  lemma ReadRuns(hash: string -> string, t: Tables, op: Op, run: string)
    requires Inv(hash, t) && op.Read?
    ensures RunStep(t, op, Step(hash, t, op), run)
  {
    hide Inv, GetApproval, Settled, TimedOut, BeginAnswer;
    ReadTable(hash, t, op.id, op.now);
    if op.id in t.approvals { SettledFrames(t, op.id); }
  }

  lemma AskRuns(hash: string -> string, t: Tables, op: Op, run: string)
    requires op.Ask?
    ensures RunStep(t, op, Step(hash, t, op), run)
  {
    hide Propose, Journalled, BeginAnswer, Proposable;
    ProposeTable(hash, t, op.id, op.run, op.generation, op.action, op.description, op.ttl, op.now);
  }

  lemma SweepRuns(hash: string -> string, t: Tables, op: Op, run: string)
    requires Inv(hash, t) && Legal(t, op) && op.SweepDue?
    ensures RunStep(t, op, Step(hash, t, op), run)
  {
    hide Inv, Sweep, DueIds, DbSettlement.StepsAfter, DbSettlement.NewRows, BeginAnswer;
    DbSettlement.SweepExpiresTheDue(hash, t, op.order, op.now);
    if run in t.runs {
      assert DbSettlement.RunAfter(t, Step(hash, t, op), DueIds(t, op.now), run);
      DueRuns(t, op.now, run);
    }
  }

  lemma DueRuns(t: Tables, now: int, run: string)
    ensures (exists id :: DbSettlement.HasDue(t, DueIds(t, now), run, id)) <==>
              exists id | id in t.approvals :: DueOn(t, run, now, id)
  {
    if id :| DbSettlement.HasDue(t, DueIds(t, now), run, id) { assert DueOn(t, run, now, id); }
    if id :| id in t.approvals && DueOn(t, run, now, id) { assert DbSettlement.HasDue(t, DueIds(t, now), run, id); }
  }

  lemma RecoverRuns(hash: string -> string, t: Tables, op: Op, run: string)
    requires Inv(hash, t) && Legal(t, op) && op.RecoverAll?
    ensures RunStep(t, op, Step(hash, t, op), run)
  {
    hide Inv, Recover, RecoveryListing, RecoveredRow, BeginAnswer;
    RecoveryTable(hash, t, op.plan, op.now);
    if run in t.runs { assert RunRecovered(t, Step(hash, t, op), run); }
  }

  // ----- the lease operations -----

  lemma LeaseRuns(hash: string -> string, t: Tables, op: Op)
    requires Inv(hash, t) && Legal(t, op)
    requires op.Take? || op.Move? || op.DropDevice? || op.Maintain? || op.Pair?
    ensures Step(hash, t, op).runs == t.runs
  {
    hide Inv, LeaseMaintenance, Takeover, Hold, RevokeDevice, Listing, Silent, RevokedFor, Taken;
    match op {
      case Take(device, active, affected, order, now) => TakeoverTable(hash, t, device, active, affected, order, now);
      case Move(move, device, expected, affected, now) => HoldTable(t, move, device, expected, affected, now);
      case DropDevice(device, order, now) => DeviceTable(hash, t, device, order, now);
      case Maintain(now) => MaintenanceTable(t, now);
      case Pair(_) =>
    }
  }

  lemma KillRuns(hash: string -> string, t: Tables, op: Op)
    requires Inv(hash, t) && Legal(t, op) && op.Kill?
    ensures Step(hash, t, op).runs == t.runs
  {
    hide Inv, PendingIds, Silent, RetireAll, AutoRelease, RevokeLease, LeaseJournal;
    DbSettlement.KillSwitchCommits(hash, t, op.device, op.expected, op.affected, op.order, op.now);
    if PendingIds(t) == {} {
      DbSettlement.ListingFacts(op.order, PendingIds(t));
      assert op.order == [];
      KillTable(hash, t, op.device, op.expected, op.affected, op.now);
    }
  }

  // ----- the life of a run -----

  lemma BeginRuns(hash: string -> string, t: Tables, op: Op, run: string)
    requires op.Begin?
    ensures RunStep(t, op, Step(hash, t, op), run)
  {
    hide BeginTurn, Journalled;
    BeginTable(t, op.run, op.now);
  }

  lemma EnqueueRuns(hash: string -> string, t: Tables, op: Op, run: string)
    requires op.Enqueue?
    ensures RunStep(t, op, Step(hash, t, op), run)
  {
    hide Admit, Journalled, BeginAnswer;
    LifecycleTable(t, op.run);
  }

  lemma PickRuns(hash: string -> string, t: Tables, op: Op, run: string)
    requires op.Pick?
    ensures RunStep(t, op, Step(hash, t, op), run)
  {
    hide ClaimQueued, Journalled, BeginAnswer;
    LifecycleTable(t, op.run);
  }

  lemma InterruptOneRuns(hash: string -> string, t: Tables, op: Op, run: string)
    requires op.Interrupt?
    ensures RunStep(t, op, Step(hash, t, op), run)
  {
    hide MarkInterrupted, Journalled, BeginAnswer;
    LifecycleTable(t, op.run);
  }

  lemma CancelRuns(hash: string -> string, t: Tables, op: Op, run: string)
    requires op.CancelEarly?
    ensures RunStep(t, op, Step(hash, t, op), run)
  {
    hide CancelBeforeSpawn, Journalled, BeginAnswer;
    LifecycleTable(t, op.run);
  }

  lemma FailRunsEarly(hash: string -> string, t: Tables, op: Op, run: string)
    requires op.FailEarly?
    ensures RunStep(t, op, Step(hash, t, op), run)
  {
    hide FailPrecheck, Journalled, BeginAnswer;
    LifecycleTable(t, op.run);
  }

  lemma StoreRuns(hash: string -> string, t: Tables, op: Op, run: string)
    requires op.Store?
    ensures RunStep(t, op, Step(hash, t, op), run)
  {
    hide Deliver, Journalled, BeginAnswer;
    LifecycleTable(t, op.run);
  }

  lemma StopRuns(hash: string -> string, t: Tables, op: Op, run: string)
    requires op.Stop?
    ensures RunStep(t, op, Step(hash, t, op), run)
  {
    hide StopTask, Journalled, BeginAnswer;
    StopTable(t, op.run, op.active);
  }

  lemma InterruptAllRuns(hash: string -> string, t: Tables, op: Op, run: string)
    requires op.InterruptAll? && Legal(t, op)
    ensures RunStep(t, op, Step(hash, t, op), run)
  {
    hide InterruptRuns, InFlightIds, BeginAnswer;
    InterruptedRuns(t, op.order);
    QueriesTable(t, 0, run);
  }

  // ----- batches -----

  lemma StatusAppend(s: RunStatus, rows: seq<Event>, more: seq<Event>, run: string)
    requires forall i | 0 <= i < |more| :: more[i].kind.Service?
    ensures StatusFrom(s, rows + more, run) == StatusFrom(s, rows, run)
    decreases |more|
  {
    if more == [] { assert rows + more == rows; } else {
      assert (rows + more)[..|rows + more| - 1] == rows + more[..|more| - 1];
      StatusAppend(s, rows, more[..|more| - 1], run);
    }
  }

  /** What one event of a batch adds to the journal and makes of its run. */
  lemma TakingStatus(hash: string -> string, t: Tables, u: Tables, run: string, e: WorkerEvent, turn: Turn, now: int,
                     stored: Stored, r: string)
    requires run in t.runs && Taking(hash, t, u, run, e, turn, now, stored)
    ensures u.runs.Keys == t.runs.Keys && t.events <= u.events
    ensures stored.duplicate ==> u == t
    ensures !stored.duplicate ==>
              && |u.events| > |t.events| && u.events[|t.events|] == EventRow(run, e)
              && forall i | |t.events| < i < |u.events| :: u.events[i].kind.Service?
    ensures r in t.runs ==>
              && u.runs[r].generation == t.runs[r].generation
              && u.runs[r].status ==
                   if r == run && !stored.duplicate then StatusAfter(t.runs[r].status, e.body) else t.runs[r].status
  {
    hide Takeable, StepsAfter, KnownKey, KnownAt, StatusAfter;
  }

  lemma TakingFolds(t: Tables, u: Tables, run: string, e: WorkerEvent, stored: Stored, r: string, s: RunStatus, n: nat)
    requires n <= |t.events| && t.events <= u.events
    requires stored.duplicate ==> u == t
    requires !stored.duplicate ==>
               && |u.events| > |t.events| && u.events[|t.events|] == EventRow(run, e)
               && forall i | |t.events| < i < |u.events| :: u.events[i].kind.Service?
    ensures StatusFrom(s, u.events[n..], r) ==
              var before := StatusFrom(s, t.events[n..], r);
              if r == run && !stored.duplicate then StatusAfter(before, e.body) else before
  {
    hide StatusAfter;
    if !stored.duplicate {
      var rows, row, more := t.events[n..], EventRow(run, e), u.events[|t.events| + 1..];
      assert u.events[n..] == (rows + [row]) + more;
      StatusAppend(s, rows + [row], more, r);
      assert (rows + [row])[..|rows|] == rows;
    }
  }

  lemma {:induction false} ChainRuns(hash: string -> string, ss: seq<Tables>, run: string, es: seq<WorkerEvent>,
                                     turn: Turn,
                                     now: int, stored: seq<Stored>, i: nat, r: string)
    requires Chain(hash, ss, run, es, turn, now, stored) && i < |ss|
    ensures ss[0].events <= ss[i].events && ss[i].runs.Keys == ss[0].runs.Keys
    ensures r in ss[0].runs ==>
              && ss[i].runs[r].generation == ss[0].runs[r].generation
              && ss[i].runs[r].status == StatusFrom(ss[0].runs[r].status, ss[i].events[|ss[0].events|..], r)
    decreases i
  {
    hide Chain, Taking, StatusAfter;
    if i == 0 {
      assert ss[0].events[|ss[0].events|..] == [];
    } else {
      ChainRuns(hash, ss, run, es, turn, now, stored, i - 1, r);
      ChainLink(hash, ss, run, es, turn, now, stored, i - 1);
      TakingStatus(hash, ss[i - 1], ss[i], run, es[i - 1], turn, now, stored[i - 1], r);
      if r in ss[0].runs {
        TakingFolds(ss[i - 1], ss[i], run, es[i - 1], stored[i - 1], r, ss[0].runs[r].status, |ss[0].events|);
      }
    }
  }

  lemma ReportRuns(hash: string -> string, t: Tables, op: Op, run: string)
    requires Inv(hash, t) && op.Report?
    ensures RunStep(t, op, Step(hash, t, op), run)
  {
    hide Inv, ApplyBatch, Chain, Takeable, BeginAnswer;
    var ss, stored := BatchTable(hash, t, op.run, op.generation, op.es, op.turn, op.now);
    if ApplyBatch(hash, t, op.run, op.generation, op.es, op.turn, op.now).result.Ok? {
      ChainRuns(hash, ss, op.run, op.es, op.turn, op.now, stored, |op.es|, run);
    } else {
      assert t.events[|t.events|..] == [];
    }
  }

  /** Every operation does to every run what the table says. */
  lemma RunSteps(hash: string -> string, t: Tables, op: Op, run: string)
    requires Inv(hash, t) && Legal(t, op)
    ensures RunStep(t, op, Step(hash, t, op), run)
  {
    hide *;
    match op {
      case Settle(_, _, _, _, _, _) => SettleRuns(hash, t, op, run);
      case Revoke(_, _, _) => RevokeRuns(hash, t, op, run);
      case Read(_, _) => ReadRuns(hash, t, op, run);
      case Ask(_, _, _, _, _, _, _) => AskRuns(hash, t, op, run);
      case SweepDue(_, _) => SweepRuns(hash, t, op, run);
      case RecoverAll(_, _) => RecoverRuns(hash, t, op, run);
      case Report(_, _, _, _, _) => ReportRuns(hash, t, op, run);
      case Begin(_, _) => BeginRuns(hash, t, op, run);
      case Enqueue(_) => EnqueueRuns(hash, t, op, run);
      case Pick(_) => PickRuns(hash, t, op, run);
      case Stop(_, _) => StopRuns(hash, t, op, run);
      case InterruptAll(_) => InterruptAllRuns(hash, t, op, run);
      case Interrupt(_) => InterruptOneRuns(hash, t, op, run);
      case CancelEarly(_) => CancelRuns(hash, t, op, run);
      case FailEarly(_) => FailRunsEarly(hash, t, op, run);
      case Store(_) => StoreRuns(hash, t, op, run);
      case _ =>
        LeaseOpRuns(hash, t, op);
        SameRuns(t, op, Step(hash, t, op), run);
    }
  }

  lemma LeaseOpRuns(hash: string -> string, t: Tables, op: Op)
    requires Inv(hash, t) && Legal(t, op)
    requires op.Take? || op.Kill? || op.Move? || op.DropDevice? || op.Maintain? || op.Pair?
    ensures Step(hash, t, op).runs == t.runs
  {
    hide *;
    if op.Kill? { KillRuns(hash, t, op); } else { LeaseRuns(hash, t, op); }
  }

  lemma SameRuns(t: Tables, op: Op, u: Tables, run: string)
    requires op.Take? || op.Kill? || op.Move? || op.DropDevice? || op.Maintain? || op.Pair?
    requires u.runs == t.runs
    ensures RunStep(t, op, u, run)
  {
  }
}
