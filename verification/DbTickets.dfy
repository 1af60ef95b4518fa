/** Execution tickets over whole runs: where each one comes from and how often it is used. */
module DbTickets {
  import opened Wrappers
  import opened Tables
  import opened LeaseAndApprovals
  import opened WorkerEvents
  import opened DbInvariant
  import opened DbRuns
  import DbWorkerSteps
  import Json = CanonicalJson

  predicate TicketKept(a: Approval, b: Approval) {
    a.ticketHash == b.ticketHash && a.consumedAt == b.consumedAt
  }

  ghost predicate TicketsKept(t: Tables, u: Tables) {
    && u.approvals.Keys == t.approvals.Keys
    && forall id | id in t.approvals :: TicketKept(t.approvals[id], u.approvals[id])
  }

  /** Every row added is the service's own. */
  predicate ServiceRows(events: seq<Event>, more: seq<Event>) {
    events <= more && forall i | |events| <= i < |more| :: more[i].kind.Service?
  }

  lemma ServiceRowsJoin(a: seq<Event>, b: seq<Event>, c: seq<Event>)
    requires ServiceRows(a, b) && ServiceRows(b, c)
    ensures ServiceRows(a, c)
  {
  }

  lemma RowInserted(events: seq<Event>, e: Event)
    requires e.kind.Service?
    ensures ServiceRows(events, InsertOrIgnore(events, e))
  {
  }

  lemma InsertsServed()
    ensures forall events, e: Event | e.kind.Service? :: ServiceRows(events, InsertOrIgnore(events, e))
  {
    hide InsertOrIgnore, ServiceRows;
    forall events, e: Event | e.kind.Service? ensures ServiceRows(events, InsertOrIgnore(events, e)) {
      RowInserted(events, e);
    }
  }

  // ----- settling rows touches no ticket -----

  lemma RetireTickets(t: Tables, id: string, reason: Reason, who: Option<string>, now: int)
    requires Retire(t, id, reason, who, now).Ok?
    ensures TicketsKept(t, Retire(t, id, reason, who, now).value)
  {
    hide AddStep, ServiceStep, InsertOrIgnore;
  }

  lemma {:induction false} RetireAllTickets(t: Tables, ids: seq<string>, reason: Reason, who: Option<string>, now: int)
    requires RetireAll(t, ids, reason, who, now).Ok?
    ensures TicketsKept(t, RetireAll(t, ids, reason, who, now).value)
    decreases |ids|
  {
    hide Retire;
    if ids != [] {
      RetireAllTickets(t, ids[..|ids| - 1], reason, who, now);
      RetireTickets(RetireAll(t, ids[..|ids| - 1], reason, who, now).value, ids[|ids| - 1], reason, who, now);
    }
  }

  lemma ExpireTickets(t: Tables, id: string, now: int)
    requires Expire(t, id, now).Ok?
    ensures TicketsKept(t, Expire(t, id, now).value.0)
  {
    hide AddStep, ServiceStep, InsertOrIgnore;
  }

  lemma {:induction false} ExpireAllTickets(t: Tables, ids: seq<string>, now: int)
    requires ExpireAll(t, ids, now).Ok?
    ensures TicketsKept(t, ExpireAll(t, ids, now).value)
    decreases |ids|
  {
    hide Expire;
    if ids != [] {
      ExpireAllTickets(t, ids[..|ids| - 1], now);
      ExpireTickets(ExpireAll(t, ids[..|ids| - 1], now).value, ids[|ids| - 1], now);
    }
  }

  lemma {:induction false} FailRunsTickets(t: Tables, ids: seq<string>, now: int)
    requires FailRuns(t, ids, now).Ok?
    ensures TicketsKept(t, FailRuns(t, ids, now).value)
    decreases |ids|
  {
    hide Retire;
    if ids != [] {
      FailRunsTickets(t, ids[..|ids| - 1], now);
      RetireTickets(FailRuns(t, ids[..|ids| - 1], now).value, ids[|ids| - 1], ServiceRestart, None, now);
    }
  }

  lemma {:induction false} InterruptRunsTickets(t: Tables, order: seq<string>)
    ensures Untouched(t, InterruptRuns(t, order))
    decreases |order|
  {
    hide AddMilestone;
    if order != [] {
      var before, run := InterruptRuns(t, order[..|order| - 1]), order[|order| - 1];
      InterruptRunsTickets(t, order[..|order| - 1]);
      MilestoneUntouched(SetStatus(before, run, Interrupted), run, "run.interrupted");
      ServiceRowsJoin(t.events, before.events, InterruptRuns(t, order).events);
    }
  }

  lemma RecoverTickets(t: Tables, p: RecoveryPlan, now: int)
    ensures TicketsKept(t, Recover(t, p, now).tables)
  {
    hide RetireAll, ExpireAll, FailRuns;
    if Recover(t, p, now).result.Ok? {
      RetireAllTickets(Released(t, now), p.orphaned, ServiceRestart, None, now);
      var t1 := RetireAll(Released(t, now), p.orphaned, ServiceRestart, None, now).value;
      ExpireAllTickets(t1, p.due, now);
      FailRunsTickets(ExpireAll(t1, p.due, now).value, p.survivors, now);
    }
  }

  lemma TakeoverTickets(t: Tables, device: string, active: bool, run: Option<string>, order: seq<string>, now: int)
    ensures TicketsKept(t, Takeover(t, device, active, run, order, now).tables)
  {
    hide RetireAll, LeaseRow;
    if Takeover(t, device, active, run, order, now).result.Ok? {
      var g := t.lease.generation + 1;
      var t1 := t.(lease := Lease(g, if active then LeaseState.Pausing else LeaseState.Human, Some(device), false,
                                  Some(now), Some(now), now));
      RetireAllTickets(t1, order, LeaseTakeover, None, now);
      LeaseRowEffect(RetireAll(t1, order, LeaseTakeover, None, now).value, run, "lease.takeover", g);
    }
  }

  lemma KillTickets(t: Tables, device: string, expected: nat, run: Option<string>, order: seq<string>, now: int)
    ensures TicketsKept(t, RevokeLease(t, device, expected, run, order, now).tables)
  {
    hide RetireAll, LeaseRow, AutoRelease;
    if RevokeLease(t, device, expected, run, order, now).result.Ok? {
      var l := AutoRelease(t.lease, now);
      RetireAllTickets(t.(lease := l), order, LeaseRevoked, None, now);
      var t1 := RetireAll(t.(lease := l), order, LeaseRevoked, None, now).value;
      LeaseRowEffect(t1.(lease := Unheld(l.generation + 1, now)), run, "lease.released", l.generation + 1);
    }
  }

  lemma HoldTickets(t: Tables, m: HolderMove, device: string, expected: nat, run: Option<string>, now: int)
    ensures TicketsKept(t, Hold(t, m, device, expected, run, now).tables)
  {
    hide LeaseRow, AutoRelease, Moved, MoveAllowed;
    var l' := Moved(m, AutoRelease(t.lease, now), now);
    if LeaseRow(t.(lease := l'), run, MoveName(m), l'.generation).Ok? {
      LeaseRowEffect(t.(lease := l'), run, MoveName(m), l'.generation);
    }
  }

  lemma DropTickets(t: Tables, device: string, order: seq<string>, now: int)
    ensures TicketsKept(t, RevokeDevice(t, device, order, now).tables)
  {
    hide RetireAll;
    if RevokeDevice(t, device, order, now).result.Ok? {
      RetireAllTickets(t.(grant := t.grant + 1), order, DeviceRevoked, None, now);
    }
  }

  lemma RevokeTickets(t: Tables, id: string, device: string, now: int)
    ensures TicketsKept(t, RevokeApproval(t, id, device, now).tables)
  {
    hide Expire, AddRow, AddServiceStep;
    StepsOnly();
    RowsOnly();
    if Expire(t, id, now).Ok? { ExpireTickets(t, id, now); }
  }

  lemma ReadTickets(t: Tables, id: string, order: seq<string>, now: int)
    ensures TicketsKept(t, GetApproval(t, id, now).tables) && TicketsKept(t, Sweep(t, order, now).tables)
  {
    hide Expire, ExpireAll;
    if Expire(t, id, now).Ok? { ExpireTickets(t, id, now); }
    if ExpireAll(t, order, now).Ok? { ExpireAllTickets(t, order, now); }
  }

  // ----- minting -----

  predicate Mints(hash: string -> string, t: Tables, op: Op, id: string) {
    Decides(hash, t, op, id) && op.approve
  }

  /** The rows a decision leaves: those of its lazy expiry, of a digest-mismatch revocation, or
      with the decided row written. */
  lemma DecideRows(hash: string -> string, t: Tables, op: Op)
    requires op.Settle? && Expire(t, op.id, op.now).Ok?
    ensures var t1 := Expire(t, op.id, op.now).value.0;
            var u := Decide(hash, t, op.id, op.device, op.approve, op.seen, op.token, op.now).tables;
            var revoked := Retire(t1, op.id, DigestMismatch, Some(op.device), op.now);
            || u == t || u == t1 || (revoked.Ok? && u == revoked.value)
            || (Decides(hash, t, op, op.id) && op.id in t1.approvals && t1.approvals[op.id].run in t1.runs
                && u == Conclude(t1, op.id, Ruled(hash, t1.approvals[op.id], op.device, op.approve, op.token, op.now)))
  {
    hide Expire, Conclude, ActionIntact, Retire;
  }

  /** Only the row that is approved gets a ticket, and it is the decision's own token. */
  lemma DecideTickets(hash: string -> string, t: Tables, op: Op, id: string)
    requires op.Settle?
    ensures var u := Decide(hash, t, op.id, op.device, op.approve, op.seen, op.token, op.now).tables;
            && u.approvals.Keys == t.approvals.Keys
            && (id in t.approvals ==> u.approvals[id].consumedAt == t.approvals[id].consumedAt)
            && (id in t.approvals && u.approvals[id].ticketHash != t.approvals[id].ticketHash ==>
                  Mints(hash, t, op, id) && u.approvals[id].ticketHash == Some(hash(op.token)))
  {
    hide Expire, Conclude, Retire, Decides;
    if Expire(t, op.id, op.now).Ok? {
      DecideRows(hash, t, op);
      hide Decide;
      ExpireTickets(t, op.id, op.now);
      var t1 := Expire(t, op.id, op.now).value.0;
      if Retire(t1, op.id, DigestMismatch, Some(op.device), op.now).Ok? {
        RetireTickets(t1, op.id, DigestMismatch, Some(op.device), op.now);
      }
      if Decides(hash, t, op, op.id) && op.id in t1.approvals && t1.approvals[op.id].run in t1.runs {
        ConcludeEffect(t1, op.id, Ruled(hash, t1.approvals[op.id], op.device, op.approve, op.token, op.now));
      }
    }
  }

  lemma ProposeTickets(hash: string -> string, t: Tables, op: Op, id: string)
    requires op.Ask?
    ensures var u := Step(hash, t, op);
            && t.approvals.Keys <= u.approvals.Keys
            && (id in t.approvals ==> u.approvals[id] == t.approvals[id])
            && (id in u.approvals && id !in t.approvals ==>
                  Proposes(hash, t, op, id) && u.approvals[id].ticketHash.None? && u.approvals[id].consumedAt.None?)
  {
    hide Json.Canonical, ValidAction, InsertOrIgnore, RevokeLease, Takeover, Hold, Decide, RevokeApproval,
         RevokeDevice, Recover, ApplyBatch, Admit, BeginTurn, StopTask, ClaimQueued, MarkInterrupted,
         CancelBeforeSpawn, FailPrecheck, Deliver;
  }

  // ----- redeeming -----

  /** The event redeems the row's ticket on behalf of the run. */
  predicate Redeems(hash: string -> string, b: Body, run: string, id: string, a: Approval) {
    && b.ApprovalDispatched? && b.approval == Some(id) && b.ticket.Some?
    && a.run == run && a.state.Approved? && a.ticketHash == Some(hash(b.ticket.value)) && a.consumedAt.None?
  }

  lemma ApplyTickets(hash: string -> string, t: Tables, run: string, b: Body, turn: Turn, now: int, id: string)
    requires Apply(hash, t, run, b, turn, now).Ok? && id in t.approvals
    ensures var u := Apply(hash, t, run, b, turn, now).value;
            && u.approvals.Keys == t.approvals.Keys
            && u.approvals[id].(consumedAt := t.approvals[id].consumedAt) == t.approvals[id]
            && (u.approvals[id].consumedAt != t.approvals[id].consumedAt ==> Redeems(hash, b, run, id, t.approvals[id]))
  {
    hide InsertOrIgnore, AddStep, Finished, FinishState, AutoRelease;
  }

  predicate RedeemedIn(hash: string -> string, es: seq<WorkerEvent>, run: string, id: string, a: Approval) {
    exists i | 0 <= i < |es| :: Redeems(hash, es[i].body, run, id, a)
  }

  lemma {:induction false} ApplyAllTickets(hash: string -> string, t: Tables, run: string, es: seq<WorkerEvent>,
                                           turn: Turn, now: int, id: string)
    requires ApplyAll(hash, t, run, es, turn, now).Ok? && id in t.approvals
    ensures var u := ApplyAll(hash, t, run, es, turn, now).value.0;
            && u.approvals.Keys == t.approvals.Keys
            && u.approvals[id].(consumedAt := t.approvals[id].consumedAt) == t.approvals[id]
            && (u.approvals[id].consumedAt != t.approvals[id].consumedAt ==>
                 RedeemedIn(hash, es, run, id, t.approvals[id]))
    decreases |es|
  {
    hide Apply, Redeems, SeqOf;
    if es != [] {
      var init, e := es[..|es| - 1], es[|es| - 1];
      ApplyAllTickets(hash, t, run, init, turn, now, id);
      var m := ApplyAll(hash, t, run, init, turn, now).value.0;
      if RedeemedIn(hash, init, run, id, t.approvals[id]) {
        var i :| 0 <= i < |init| && Redeems(hash, init[i].body, run, id, t.approvals[id]);
        assert Redeems(hash, es[i].body, run, id, t.approvals[id]);
      } else {
        assert m.approvals[id] == t.approvals[id];
        assert Redeems(hash, e.body, run, id, t.approvals[id]) ==> RedeemedIn(hash, es, run, id, t.approvals[id]);
      }
      if SeqOf(m.events, run, Source(e)) == 0 {
        ApplyTickets(hash, m.(events := m.events + [RowOf(run, e)]), run, e.body, turn, now, id);
      }
    }
  }

  /** A step that uses the ticket of a row. */
  predicate Uses(hash: string -> string, t: Tables, op: Op, id: string) {
    id in t.approvals && op.Report? && RedeemedIn(hash, op.es, op.run, id, t.approvals[id])
  }

  /** For every operation: a new row was proposed by it, a new ticket was minted by it, and a
      used ticket was redeemed by it, by the run it was issued to. */
  lemma TicketMoves(hash: string -> string, t: Tables, op: Op, id: string)
    requires id in Step(hash, t, op).approvals
    ensures var b := Step(hash, t, op).approvals[id];
            && (id !in t.approvals ==> Proposes(hash, t, op, id) && b.ticketHash.None? && b.consumedAt.None?)
            && (id in t.approvals && b.ticketHash != t.approvals[id].ticketHash ==>
                  Mints(hash, t, op, id) && b.ticketHash == Some(hash(op.token)))
            && (id in t.approvals && b.consumedAt != t.approvals[id].consumedAt ==> Uses(hash, t, op, id))
  {
    hide Uses, Mints, Proposes, LeaseMaintenance, Takeover, Hold, RevokeLease, Propose, Decide,
         RevokeApproval, GetApproval, Sweep, RevokeDevice, InterruptRuns, Recover, Admit, ClaimQueued, BeginTurn,
         ApplyBatch, MarkInterrupted, StopTask, CancelBeforeSpawn, FailPrecheck, Deliver;
    match op {
      case Settle(_, _, _, _, _, _) =>
        DecideTickets(hash, t, op, id);
      case Ask(_, _, _, _, _, _, _) => ProposeTickets(hash, t, op, id);
      case Report(_, _, _, _, _) => ReportTickets(hash, t, op, id);
      case Revoke(x, device, now) => RevokeTickets(t, x, device, now);
      case Read(x, now) => ReadTickets(t, x, [], now);
      case SweepDue(order, now) => ReadTickets(t, "", order, now);
      case RecoverAll(plan, now) => RecoverTickets(t, plan, now);
      case Take(device, active, affected, order, now) => TakeoverTickets(t, device, active, affected, order, now);
      case Kill(device, expected, affected, order, now) => KillTickets(t, device, expected, affected, order, now);
      case Move(move, device, expected, affected, now) => HoldTickets(t, move, device, expected, affected, now);
      case DropDevice(device, order, now) => DropTickets(t, device, order, now);
      case _ => LifecycleTickets(hash, t, op);
    }
  }

  lemma ReportTickets(hash: string -> string, t: Tables, op: Op, id: string)
    requires op.Report?
    ensures var u := Step(hash, t, op);
            && u.approvals.Keys == t.approvals.Keys
            && (id in t.approvals ==> u.approvals[id].ticketHash == t.approvals[id].ticketHash)
            && (id in t.approvals && u.approvals[id].consumedAt != t.approvals[id].consumedAt ==> Uses(hash, t, op, id))
  {
    hide ApplyAll, RedeemedIn;
    if ApplyBatch(hash, t, op.run, op.generation, op.es, op.turn, op.now).result.Ok? {
      if id in t.approvals { ApplyAllTickets(hash, t, op.run, op.es, op.turn, op.now, id); }
      ApplyAllKeys(hash, t, op.run, op.es, op.turn, op.now);
    }
  }

  lemma {:induction false} ApplyAllKeys(hash: string -> string, t: Tables, run: string, es: seq<WorkerEvent>,
                                        turn: Turn, now: int)
    requires ApplyAll(hash, t, run, es, turn, now).Ok?
    ensures ApplyAll(hash, t, run, es, turn, now).value.0.approvals.Keys == t.approvals.Keys
    decreases |es|
  {
    hide Apply, SeqOf;
    if es != [] {
      var init, e := es[..|es| - 1], es[|es| - 1];
      ApplyAllKeys(hash, t, run, init, turn, now);
      var m := ApplyAll(hash, t, run, init, turn, now).value.0;
      if SeqOf(m.events, run, Source(e)) == 0 {
        DbWorkerSteps.ApplyEffect(hash, m.(events := m.events + [RowOf(run, e)]), run, e.body, turn, now);
      }
    }
  }


  /** Neither approvals nor steps change, and the journal grows by rows of the service's own. */
  predicate Untouched(t: Tables, u: Tables) {
    u.approvals == t.approvals && u.steps == t.steps && ServiceRows(t.events, u.events)
  }

  lemma MilestoneUntouched(t: Tables, run: string, name: string)
    ensures Untouched(t, AddMilestone(t, run, name))
  {
    hide InsertOrIgnore;
    InsertsServed();
  }

  lemma EndedUntouched(t: Tables, run: string, status: RunStatus, name: string)
    ensures Untouched(t, Ended(t, run, status, name))
  {
    hide AddMilestone;
    MilestoneUntouched(SetStatus(t, run, status), run, name);
  }

  lemma StartsQuietly(t: Tables, run: string, now: int)
    ensures Untouched(t, LeaseMaintenance(t, now).tables) && Untouched(t, Admit(t, run).tables)
    ensures Untouched(t, ClaimQueued(t, run).tables) && Untouched(t, BeginTurn(t, run, now).tables)
  {
    hide InsertOrIgnore, AutoRelease;
    InsertsServed();
  }

  lemma EndsQuietly(t: Tables, run: string, active: bool)
    ensures Untouched(t, MarkInterrupted(t, run).tables) && Untouched(t, StopTask(t, run, active).tables)
    ensures Untouched(t, CancelBeforeSpawn(t, run).tables) && Untouched(t, FailPrecheck(t, run).tables)
    ensures Untouched(t, Deliver(t, run).tables)
  {
    hide Ended, AddMilestone;
    EndedUntouched(t, run, Interrupted, "run.interrupted");
    EndedUntouched(t, run, Cancelled, "run.cancelled");
    EndedUntouched(t, run, Cancelling, "run.cancelling");
    EndedUntouched(t, run, Failed, "run.failed");
    MilestoneUntouched(t, run, "run.artifacts_delivered");
  }

  /** The operations that touch no approval. */
  predicate Lifecycle(op: Op) {
    Starts(op) || Ends(op) || Stops(op)
  }

  predicate Starts(op: Op) {
    op.Maintain? || op.Pair? || op.Enqueue? || op.Pick? || op.Begin?
  }

  predicate Ends(op: Op) {
    op.InterruptAll? || op.FailEarly? || op.Store?
  }

  predicate Stops(op: Op) {
    op.Interrupt? || op.Stop? || op.CancelEarly?
  }

  lemma StartTickets(hash: string -> string, t: Tables, op: Op)
    requires Starts(op)
    ensures Untouched(t, Step(hash, t, op))
  {
    hide LeaseMaintenance, Takeover, Hold, RevokeLease, Propose, Decide, RevokeApproval, GetApproval, Sweep,
         RevokeDevice, InterruptRuns, Recover, Admit, ClaimQueued, BeginTurn, ApplyBatch, MarkInterrupted, StopTask,
         CancelBeforeSpawn, FailPrecheck, Deliver;
    match op {
      case Pair(_) =>
      case Maintain(now) => StartsQuietly(t, "", now);
      case Enqueue(run) => StartsQuietly(t, run, 0);
      case Pick(run) => StartsQuietly(t, run, 0);
      case Begin(run, now) => StartsQuietly(t, run, now);
    }
  }

  lemma EndTickets(hash: string -> string, t: Tables, op: Op)
    requires Ends(op)
    ensures Untouched(t, Step(hash, t, op))
  {
    hide LeaseMaintenance, Takeover, Hold, RevokeLease, Propose, Decide, RevokeApproval, GetApproval, Sweep,
         RevokeDevice, InterruptRuns, Recover, Admit, ClaimQueued, BeginTurn, ApplyBatch, MarkInterrupted, StopTask,
         CancelBeforeSpawn, FailPrecheck, Deliver;
    match op {
      case InterruptAll(order) => InterruptRunsTickets(t, order);
      case FailEarly(run) => EndsQuietly(t, run, false);
      case Store(run) => EndsQuietly(t, run, false);
    }
  }

  lemma StopTickets(hash: string -> string, t: Tables, op: Op)
    requires Stops(op)
    ensures Untouched(t, Step(hash, t, op))
  {
    hide LeaseMaintenance, Takeover, Hold, RevokeLease, Propose, Decide, RevokeApproval, GetApproval, Sweep,
         RevokeDevice, InterruptRuns, Recover, Admit, ClaimQueued, BeginTurn, ApplyBatch, MarkInterrupted, StopTask,
         CancelBeforeSpawn, FailPrecheck, Deliver;
    match op {
      case Interrupt(run) => EndsQuietly(t, run, false);
      case Stop(run, active) => EndsQuietly(t, run, active);
      case CancelEarly(run) => EndsQuietly(t, run, false);
    }
  }

  lemma LifecycleTickets(hash: string -> string, t: Tables, op: Op)
    requires Lifecycle(op)
    ensures Step(hash, t, op).approvals == t.approvals && Untouched(t, Step(hash, t, op))
  {
    hide Step;
    if Starts(op) {
      StartTickets(hash, t, op);
    } else if Ends(op) {
      EndTickets(hash, t, op);
    } else {
      StopTickets(hash, t, op);
    }
  }

  // ----- over whole runs -----

  /** A step consumes the ticket of a row. */
  predicate Consumes(h: History, j: nat, id: string)
    requires j + 1 < |h.states|
  {
    id in h.states[j].approvals && h.states[j].approvals[id].consumedAt.None?
    && id in h.states[j + 1].approvals && h.states[j + 1].approvals[id].consumedAt.Some?
  }

  /** In any run at most one step consumes a given ticket. */
  lemma ConsumedOnce(hash: string -> string, h: History, i: nat, j: nat, id: string)
    requires Behaviour(hash, h) && i < |h.ops| && j < |h.ops| && Consumes(h, i, id) && Consumes(h, j, id)
    ensures i == j
  {
    hide Inv, Step, Legal, Evolves;
    if i < j { StaysUsed(hash, h, i + 1, j, id); }
    if j < i { StaysUsed(hash, h, j + 1, i, id); }
  }

  lemma StaysUsed(hash: string -> string, h: History, i: nat, j: nat, id: string)
    requires Behaviour(hash, h) && i <= j < |h.states|
    requires id in h.states[i].approvals && h.states[i].approvals[id].consumedAt.Some?
    ensures id in h.states[j].approvals && h.states[j].approvals[id].consumedAt == h.states[i].approvals[id].consumedAt
  {
    hide Behaviour, AllStepsEvolve;
    NeverUndone(hash, h, i, j);
  }

  /** Where a row came from: the one step that proposed it. */
  lemma {:induction false} ProposedBy(hash: string -> string, h: History, j: nat, id: string) returns (i: nat)
    requires Behaviour(hash, h) && j < |h.states| && id in h.states[j].approvals
    ensures i < j && Proposes(hash, h.states[i], h.ops[i], id)
    decreases j
  {
    hide Inv, Step, Legal, Proposes;
    assert j != 0;
    assert Linked(hash, h, j - 1);
    TicketMoves(hash, h.states[j - 1], h.ops[j - 1], id);
    if id in h.states[j - 1].approvals { i := ProposedBy(hash, h, j - 1, id); } else { i := j - 1; }
  }

  /** Where a ticket came from: the one step that approved the row. */
  lemma {:induction false} MintedBy(hash: string -> string, h: History, j: nat, id: string) returns (d: nat)
    requires Behaviour(hash, h) && j < |h.states| && id in h.states[j].approvals
    requires h.states[j].approvals[id].ticketHash.Some?
    ensures d < j && Mints(hash, h.states[d], h.ops[d], id)
    ensures h.states[j].approvals[id].ticketHash == Some(hash(h.ops[d].token))
    decreases j
  {
    hide Inv, Step, Legal, Proposes, Mints;
    assert j != 0;
    assert Linked(hash, h, j - 1);
    TicketMoves(hash, h.states[j - 1], h.ops[j - 1], id);
    if id in h.states[j - 1].approvals
        && h.states[j - 1].approvals[id].ticketHash == h.states[j].approvals[id].ticketHash {
      d := MintedBy(hash, h, j - 1, id);
    } else {
      d := j - 1;
    }
  }

  /** The event presents a ticket for the approval that hashes like the token. */
  predicate Presents(hash: string -> string, b: Body, id: string, token: string) {
    b.ApprovalDispatched? && b.approval == Some(id) && b.ticket.Some? && hash(b.ticket.value) == hash(token)
  }

  lemma UsedInReport(hash: string -> string, h: History, j: nat, id: string)
    requires Behaviour(hash, h) && j < |h.ops| && Consumes(h, j, id)
    ensures Uses(hash, h.states[j], h.ops[j], id)
  {
    hide Inv, Step, Legal, Uses;
    assert Linked(hash, h, j);
    TicketMoves(hash, h.states[j], h.ops[j], id);
  }

  /** A decision is made strictly before its proposal's clock plus its ttl. */
  lemma DecidedOnTime(hash: string -> string, h: History, i: nat, d: nat, id: string)
    requires Behaviour(hash, h) && i < d < |h.ops|
    requires Proposes(hash, h.states[i], h.ops[i], id) && Decides(hash, h.states[d], h.ops[d], id)
    ensures h.ops[d].now < h.ops[i].now + h.ops[i].ttl
  {
    hide Inv, Step, Legal, Proposes, Decides, Empty, Json.Canonical;
    ProposesIs(hash, h.states[i], h.ops[i], id);
    assert Linked(hash, h, i);
    ProposedRow(hash, h.states[i], h.ops[i], id);
    ProposalKept(hash, h, i + 1, d, id);
    DecidedRowBefore(hash, h.states[d], h.ops[d], id);
  }

  lemma ProposesIs(hash: string -> string, t: Tables, op: Op, id: string)
    requires Proposes(hash, t, op, id)
    ensures op.Ask?
  {
    hide Propose;
  }

  /** Every dispatch traces back: some run proposed exactly this action, a device approved it
      later, before the proposal's clock plus its ttl and with no lease move, restart or device
      revocation in between, and the same run now presents the token that decision minted. */
  lemma DispatchTraced(hash: string -> string, h: History, j: nat, id: string) returns (i: nat, d: nat)
    requires Behaviour(hash, h) && j < |h.ops| && Consumes(h, j, id)
    ensures i < d < j && Proposes(hash, h.states[i], h.ops[i], id) && Mints(hash, h.states[d], h.ops[d], id)
    ensures forall k: nat | i < k < d :: !Disturbs(h.states[k], h.ops[k])
    ensures h.ops[d].now < h.ops[i].now + h.ops[i].ttl
    ensures h.states[j].approvals[id].actionJson == Json.Canonical(h.ops[i].action)
    ensures h.ops[j].Report? && h.ops[j].run == h.ops[i].run
    ensures exists e | 0 <= e < |h.ops[j].es| :: Presents(hash, h.ops[j].es[e].body, id, h.ops[d].token)
  {
    hide Inv, Step, Legal, Propose, Decide, Disturbs, Empty, Json.Canonical;
    UsedInReport(hash, h, j, id);
    var a := h.states[j].approvals[id];
    var e :| 0 <= e < |h.ops[j].es| && Redeems(hash, h.ops[j].es[e].body, h.ops[j].run, id, a);
    d := MintedBy(hash, h, j, id);
    assert Presents(hash, h.ops[j].es[e].body, id, h.ops[d].token);
    DecidedRowBefore(hash, h.states[d], h.ops[d], id);
    i := ProposedBy(hash, h, d, id);
    assert Linked(hash, h, i);
    ProposedRow(hash, h.states[i], h.ops[i], id);
    ProposalKept(hash, h, i + 1, j, id);
    DecidedOnTime(hash, h, i, d, id);
    forall k: nat | i < k < d ensures !Disturbs(h.states[k], h.ops[k]) { DecidedUndisturbed(hash, h, i, d, k, id); }
  }

  /** A ticket revoked (or denied, or expired) before it is used is never used. */
  lemma RevokedNeverUsed(hash: string -> string, h: History, i: nat, j: nat, id: string)
    requires Behaviour(hash, h) && i <= j < |h.states| && id in h.states[i].approvals
    requires h.states[i].approvals[id].state in {Denied, Expired, Revoked} && h.states[i].approvals[id].consumedAt.None?
    ensures id in h.states[j].approvals && h.states[j].approvals[id].consumedAt.None?
    ensures j < |h.ops| ==> !Consumes(h, j, id)
  {
    hide Inv, Step, Legal, Linked;
    SettledForGood(hash, h, i, j, id);
    if j < |h.ops| { SettledForGood(hash, h, i, j + 1, id); }
  }
}
