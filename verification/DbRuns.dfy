/** Every interleaving of the service's transactions, and what holds across it. */
module DbRuns {
  import opened Wrappers
  import opened Tables
  import opened LeaseAndApprovals
  import opened WorkerEvents
  import opened DbInvariant
  import opened DbTransactions
  import opened DbApprovalSteps
  import opened DbWorkerSteps
  import DbStatements
  import Json = CanonicalJson

  /** One committed transaction, with its clock reading, its fresh token and its query results. */
  datatype Op =
    | Maintain(now: int)
    | Take(device: string, active: bool, affected: Option<string>, order: seq<string>, now: int)
    | Move(move: HolderMove, device: string, expected: nat, affected: Option<string>, now: int)
    | Kill(device: string, expected: nat, affected: Option<string>, order: seq<string>, now: int)
    | Ask(id: string, run: string, generation: nat, action: Json.Json, description: string, ttl: int, now: int)
    | Settle(id: string, device: string, approve: bool, seen: nat, token: string, now: int)
    | Revoke(id: string, device: string, now: int)
    | Read(id: string, now: int)
    | SweepDue(order: seq<string>, now: int)
    | DropDevice(device: string, order: seq<string>, now: int)
    | Pair(device: string)
    | InterruptAll(order: seq<string>)
    | RecoverAll(plan: RecoveryPlan, now: int)
    | Enqueue(run: string)
    | Pick(run: string)
    | Begin(run: string, now: int)
    | Report(run: string, generation: nat, es: seq<WorkerEvent>, turn: Turn, now: int)
    | Interrupt(run: string)
    | Stop(run: string, active: bool)
    | CancelEarly(run: string)
    | FailEarly(run: string)
    | Store(run: string)

  /** The query results are what the tables hold, and only a run just claimed can fail its
      precheck. Nothing is assumed of workers. */
  ghost predicate Legal(t: Tables, op: Op) {
    match op
    case Take(_, _, _, order, _) => Listing(order, PendingIds(t))
    case Kill(_, _, _, order, _) => Listing(order, PendingIds(t))
    case DropDevice(_, order, _) => Listing(order, PendingIds(t))
    case SweepDue(order, now) => Listing(order, DueIds(t, now))
    case InterruptAll(order) => Listing(order, InFlightIds(t))
    case RecoverAll(plan, now) => RecoveryListing(t, plan, now)
    case FailEarly(run) => run in t.runs ==> t.runs[run].status.Starting?
    case _ => true
  }

  function Step(hash: string -> string, t: Tables, op: Op): Tables {
    match op
    case Maintain(now) => LeaseMaintenance(t, now).tables
    case Take(device, active, affected, order, now) => Takeover(t, device, active, affected, order, now).tables
    case Move(move, device, expected, affected, now) => Hold(t, move, device, expected, affected, now).tables
    case Kill(device, expected, affected, order, now) => RevokeLease(t, device, expected, affected, order, now).tables
    case Ask(id, run, generation, action, description, ttl, now) =>
      Propose(hash, t, id, run, generation, action, description, ttl, now).tables
    case Settle(id, device, approve, seen, token, now) => Decide(hash, t, id, device, approve, seen, token, now).tables
    case Revoke(id, device, now) => RevokeApproval(t, id, device, now).tables
    case Read(id, now) => GetApproval(t, id, now).tables
    case SweepDue(order, now) => Sweep(t, order, now).tables
    case DropDevice(device, order, now) => RevokeDevice(t, device, order, now).tables
    case Pair(device) => t.(devices := t.devices + {device})
    case InterruptAll(order) => InterruptRuns(t, order)
    case RecoverAll(plan, now) => Recover(t, plan, now).tables
    case Enqueue(run) => Admit(t, run).tables
    case Pick(run) => ClaimQueued(t, run).tables
    case Begin(run, now) => BeginTurn(t, run, now).tables
    case Report(run, generation, es, turn, now) => ApplyBatch(hash, t, run, generation, es, turn, now).tables
    case Interrupt(run) => MarkInterrupted(t, run).tables
    case Stop(run, active) => StopTask(t, run, active).tables
    case CancelEarly(run) => CancelBeforeSpawn(t, run).tables
    case FailEarly(run) => FailPrecheck(t, run).tables
    case Store(run) => Deliver(t, run).tables
  }

  lemma PairKeeps(hash: string -> string, t: Tables, device: string)
    requires Inv(hash, t)
    ensures Keeps(hash, t, t.(devices := t.devices + {device}))
  {
    hide StoredCanonically, Inv, Keeps;
    DbStatements.QuietPieces(hash, t);
    var u := t.(devices := t.devices + {device});
    assert RowsOk(hash, u) by { DbStatements.RowsFrame(hash, t, u); }
    DbStatements.QuietStep(hash, t, u);
  }

  /** Every step keeps the invariant and undoes nothing. */
  lemma StepKeeps(hash: string -> string, t: Tables, op: Op)
    requires Inv(hash, t) && Legal(t, op)
    ensures Keeps(hash, t, Step(hash, t, op))
  {
    hide Inv, Keeps, Listing, RecoveryListing, LeaseMaintenance, Takeover, Hold, RevokeLease, Propose, Decide,
         RevokeApproval, GetApproval, Sweep, RevokeDevice, InterruptRuns, Recover, Admit, ClaimQueued, BeginTurn,
         ApplyBatch, MarkInterrupted, StopTask, CancelBeforeSpawn, FailPrecheck, Deliver;
    match op {
      case Maintain(now) => MaintenanceKeeps(hash, t, now);
      case Take(device, active, affected, order, now) => TakeoverKeeps(hash, t, device, active, affected, order, now);
      case Move(move, device, expected, affected, now) => HoldKeeps(hash, t, move, device, expected, affected, now);
      case Kill(device, expected, affected, order, now) =>
        RevokeLeaseKeeps(hash, t, device, expected, affected, order, now);
      case Ask(id, run, generation, action, description, ttl, now) =>
        ProposeKeeps(hash, t, id, run, generation, action, description, ttl, now);
      case Settle(id, device, approve, seen, token, now) => DecideKeeps(hash, t, id, device, approve, seen, token, now);
      case Revoke(id, device, now) => RevokeApprovalKeeps(hash, t, id, device, now);
      case Read(id, now) => ReadAndSweepKeep(hash, t, id, [], now);
      case SweepDue(order, now) => ReadAndSweepKeep(hash, t, "", order, now);
      case DropDevice(device, order, now) => RevokeDeviceKeeps(hash, t, device, order, now);
      case Pair(device) => PairKeeps(hash, t, device);
      case InterruptAll(order) => InterruptRunsKeeps(hash, t, order);
      case RecoverAll(plan, now) => RecoverKeeps(hash, t, plan, now);
      case Enqueue(run) => AdmitKeeps(hash, t, run);
      case Pick(run) => ClaimQueuedKeeps(hash, t, run);
      case Begin(run, now) => BeginTurnKeeps(hash, t, run, now);
      case Report(run, generation, es, turn, now) => BatchKeeps(hash, t, run, generation, es, turn, now);
      case Interrupt(run) => EndsKeep(hash, t, run, false);
      case Stop(run, active) => EndsKeep(hash, t, run, active);
      case CancelEarly(run) => EndsKeep(hash, t, run, false);
      case FailEarly(run) => EndsKeep(hash, t, run, false);
      case Store(run) => DeliverKeeps(hash, t, run);
    }
  }

  // ----- runs -----

  /** A history: the tables before and after each operation, from an empty database. */
  datatype History = History(states: seq<Tables>, ops: seq<Op>)

  ghost predicate Linked(hash: string -> string, h: History, i: nat)
    requires |h.states| == |h.ops| + 1 && i < |h.ops|
  {
    Legal(h.states[i], h.ops[i]) && h.states[i + 1] == Step(hash, h.states[i], h.ops[i])
  }

  ghost predicate Behaviour(hash: string -> string, h: History) {
    && |h.states| == |h.ops| + 1
    && h.states[0] == Empty()
    && forall i: nat | i < |h.ops| :: Linked(hash, h, i)
  }

  /** The invariant holds in every state of every run. */
  lemma {:induction false} Reachable(hash: string -> string, h: History, i: nat)
    requires Behaviour(hash, h) && i < |h.states|
    ensures Inv(hash, h.states[i])
    decreases i
  {
    hide Inv, Step, Legal;
    if i == 0 {
      EmptyInv(hash);
    } else {
      Reachable(hash, h, i - 1);
      assert Linked(hash, h, i - 1);
      StepKeeps(hash, h.states[i - 1], h.ops[i - 1]);
      KeepsInv(hash, h.states[i - 1], h.states[i]);
    }
  }

  /** Nothing a run does is ever undone later in it: the lease generation and the grant revision
      only grow, settled approvals, finished steps and journal rows stay. */
  lemma {:induction false} NeverUndone(hash: string -> string, h: History, i: nat, j: nat)
    requires Behaviour(hash, h) && i <= j < |h.states|
    ensures Evolves(h.states[i], h.states[j])
    decreases j
  {
    hide Inv, Step, Legal, Evolves;
    if i == j {
      EvolvesRefl(h.states[i]);
    } else {
      NeverUndone(hash, h, i, j - 1);
      Reachable(hash, h, j - 1);
      assert Linked(hash, h, j - 1);
      StepKeeps(hash, h.states[j - 1], h.ops[j - 1]);
      KeepsInv(hash, h.states[j - 1], h.states[j]);
      EvolvesTrans(h.states[i], h.states[j - 1], h.states[j]);
    }
  }

  // ----- fencing -----

  lemma FencesGrow(hash: string -> string, h: History, i: nat, j: nat)
    requires Behaviour(hash, h) && i <= j < |h.states|
    ensures var l, m := h.states[i].lease, h.states[j].lease;
            l.generation <= m.generation && (l.generation == m.generation ==> Core(l) == Core(m))
    ensures h.states[i].grant <= h.states[j].grant
  {
    hide Behaviour, RowsEvolve, AllStepsEvolve;
    NeverUndone(hash, h, i, j);
  }

  lemma ProposalKept(hash: string -> string, h: History, i: nat, j: nat, id: string)
    requires Behaviour(hash, h) && i <= j < |h.states| && id in h.states[i].approvals
    ensures id in h.states[j].approvals && SameProposal(h.states[i].approvals[id], h.states[j].approvals[id])
  {
    hide Behaviour, AllStepsEvolve, LeaseEvolves;
    NeverUndone(hash, h, i, j);
  }

  /** Equal generations mean the same lease state, holder and private bracket throughout. */
  lemma GenerationFences(hash: string -> string, h: History, i: nat, k: nat, j: nat)
    requires Behaviour(hash, h) && i <= k <= j < |h.states|
    ensures h.states[i].lease.generation <= h.states[k].lease.generation <= h.states[j].lease.generation
    ensures h.states[i].lease.generation == h.states[j].lease.generation ==>
              Core(h.states[k].lease) == Core(h.states[i].lease)
  {
    hide Behaviour, Core;
    FencesGrow(hash, h, i, k);
    FencesGrow(hash, h, k, j);
  }

  /** A lease move, a restart or a device revocation that succeeded. */
  predicate Disturbs(t: Tables, op: Op) {
    match op
    case Take(device, active, affected, order, now) => Takeover(t, device, active, affected, order, now).result.Ok?
    case Move(move, device, expected, affected, now) =>
      !move.Heartbeat? && Hold(t, move, device, expected, affected, now).result.Ok?
    case Kill(device, expected, affected, order, now) =>
      RevokeLease(t, device, expected, affected, order, now).result.Ok?
    case DropDevice(device, order, now) => RevokeDevice(t, device, order, now).result.Ok?
    case RecoverAll(plan, now) => Recover(t, plan, now).result.Ok?
    case _ => false
  }

  lemma TakeoverRaises(t: Tables, device: string, active: bool, run: Option<string>, order: seq<string>, now: int)
    requires Takeover(t, device, active, run, order, now).result.Ok?
    ensures Takeover(t, device, active, run, order, now).tables.lease.generation == t.lease.generation + 1
  {
    hide RetireAll, LeaseRow;
    var g := t.lease.generation + 1;
    var t1 := t.(lease := Lease(g, if active then LeaseState.Pausing else LeaseState.Human, Some(device), false,
                                Some(now), Some(now), now));
    RetireAllEffect(t1, order, LeaseTakeover, None, now);
    LeaseRowEffect(RetireAll(t1, order, LeaseTakeover, None, now).value, run, "lease.takeover", g);
  }

  lemma HoldRaises(t: Tables, m: HolderMove, device: string, expected: nat, run: Option<string>, now: int)
    requires LeaseOk(t.lease) && !m.Heartbeat? && Hold(t, m, device, expected, run, now).result.Ok?
    ensures t.lease.generation < Hold(t, m, device, expected, run, now).tables.lease.generation
  {
    hide LeaseRow, AutoRelease, MoveAllowed;
    var l := AutoRelease(t.lease, now);
    AutoReleaseOk(t.lease, now);
    LeaseRowEffect(t.(lease := Moved(m, l, now)), run, MoveName(m), Moved(m, l, now).generation);
  }

  lemma KillRaises(t: Tables, device: string, expected: nat, run: Option<string>, order: seq<string>, now: int)
    requires LeaseOk(t.lease) && RevokeLease(t, device, expected, run, order, now).result.Ok?
    ensures t.lease.generation < RevokeLease(t, device, expected, run, order, now).tables.lease.generation
  {
    hide RetireAll, LeaseRow, AutoRelease;
    var l := AutoRelease(t.lease, now);
    AutoReleaseOk(t.lease, now);
    var t1 := RetireAll(t.(lease := l), order, LeaseRevoked, None, now).value;
    LeaseRowEffect(t1.(lease := Unheld(l.generation + 1, now)), run, "lease.released", l.generation + 1);
  }

  lemma DropRaises(t: Tables, device: string, order: seq<string>, now: int)
    requires RevokeDevice(t, device, order, now).result.Ok?
    ensures RevokeDevice(t, device, order, now).tables.grant == t.grant + 1
  {
    hide RetireAll;
    RetireAllEffect(t.(grant := t.grant + 1), order, DeviceRevoked, None, now);
  }

  /** Each of these raises a fence: the lease generation or the grant revision. */
  lemma DisturbanceShows(hash: string -> string, t: Tables, op: Op)
    requires LeaseOk(t.lease) && Disturbs(t, op)
    ensures var u := Step(hash, t, op); t.lease.generation < u.lease.generation || t.grant < u.grant
  {
    hide Takeover, Hold, RevokeLease, RevokeDevice, Recover;
    match op {
      case Take(device, active, affected, order, now) => TakeoverRaises(t, device, active, affected, order, now);
      case Move(move, device, expected, affected, now) => HoldRaises(t, move, device, expected, affected, now);
      case Kill(device, expected, affected, order, now) => KillRaises(t, device, expected, affected, order, now);
      case DropDevice(device, order, now) => DropRaises(t, device, order, now);
      case RecoverAll(plan, now) => RecoverLease(t, plan, now);
      case _ =>
    }
  }

  lemma LeaseRowEffect(t: Tables, run: Option<string>, name: string, generation: nat)
    requires LeaseRow(t, run, name, generation).Ok?
    ensures LeaseRow(t, run, name, generation).value.(events := t.events) == t
  {
  }

  lemma {:induction false} ExpireAllLease(t: Tables, ids: seq<string>, now: int)
    ensures var r := ExpireAll(t, ids, now);
            r.Ok? ==>
              && r.value.lease == t.lease && r.value.grant == t.grant
              && r.value.approvals.Keys == t.approvals.Keys && r.value.runs.Keys == t.runs.Keys
    decreases |ids|
  {
    hide Expire;
    if ids != [] && ExpireAll(t, ids, now).Ok? {
      ExpireAllLease(t, ids[..|ids| - 1], now);
      ExpireEffect(ExpireAll(t, ids[..|ids| - 1], now).value, ids[|ids| - 1], now);
    }
  }

  lemma {:induction false} FailRunsLease(t: Tables, ids: seq<string>, now: int)
    ensures var r := FailRuns(t, ids, now); r.Ok? ==> r.value.lease == t.lease && r.value.grant == t.grant
    decreases |ids|
  {
    hide Retire;
    if ids != [] && FailRuns(t, ids, now).Ok? {
      FailRunsLease(t, ids[..|ids| - 1], now);
      RetireEffect(FailRuns(t, ids[..|ids| - 1], now).value, ids[|ids| - 1], ServiceRestart, None, now);
      RetireOk(FailRuns(t, ids[..|ids| - 1], now).value, ids[|ids| - 1], ServiceRestart, None, now);
    }
  }

  lemma RecoverLease(t: Tables, p: RecoveryPlan, now: int)
    requires Recover(t, p, now).result.Ok?
    ensures Recover(t, p, now).tables.lease == Unheld(t.lease.generation + 1, now)
    ensures Recover(t, p, now).tables.grant == t.grant
  {
    hide RetireAll, ExpireAll, FailRuns;
    RetireAllEffect(Released(t, now), p.orphaned, ServiceRestart, None, now);
    var t1 := RetireAll(Released(t, now), p.orphaned, ServiceRestart, None, now).value;
    ExpireAllLease(t1, p.due, now);
    FailRunsLease(ExpireAll(t1, p.due, now).value, p.survivors, now);
  }

  predicate Proposes(hash: string -> string, t: Tables, op: Op, id: string) {
    op.Ask? && op.id == id
        && Propose(hash, t, id, op.run, op.generation, op.action, op.description, op.ttl, op.now).result.Ok?
  }

  predicate Decides(hash: string -> string, t: Tables, op: Op, id: string) {
    op.Settle? && op.id == id && Decide(hash, t, id, op.device, op.approve, op.seen, op.token, op.now).result.Ok?
  }

  lemma ProposedRow(hash: string -> string, t: Tables, op: Op, id: string)
    requires Proposes(hash, t, op, id)
    ensures id !in t.approvals
    ensures var u := Step(hash, t, op);
            id in u.approvals && u.approvals[id].state.Pending? && u.approvals[id].leaseGeneration == t.lease.generation
            && u.approvals[id].grant == t.grant && u.lease == t.lease && u.grant == t.grant
            && u.approvals[id].run == op.run && u.approvals[id].actionJson == Json.Canonical(op.action)
            && u.approvals[id].digest == hash(u.approvals[id].actionJson)
            && u.approvals[id].description == op.description
            && u.approvals[id].expiresAt == op.now + op.ttl && u.approvals[id].createdAt == op.now
  {
    hide Json.Canonical, ValidAction, InsertOrIgnore;
  }

  lemma DecidedRowBefore(hash: string -> string, t: Tables, op: Op, id: string)
    requires Decides(hash, t, op, id)
    ensures id in t.approvals && t.approvals[id].state.Pending? && op.now < t.approvals[id].expiresAt
    ensures t.approvals[id].leaseGeneration == t.lease.generation && t.approvals[id].grant == t.grant
  {
    hide Expire, Conclude, ActionIntact, Retire;
    ExpireEffect(t, id, op.now);
  }

  /** What a decision does to the row, and that it leaves the fences alone. */
  lemma DecidedRow(hash: string -> string, t: Tables, op: Op, id: string)
    requires Decides(hash, t, op, id)
    ensures var u := Step(hash, t, op);
            u.lease == t.lease && u.grant == t.grant && id in u.approvals
            && u.approvals[id].state == (if op.approve then Approved else Denied)
            && u.approvals[id].decidedBy == Some(op.device)
            && (op.approve ==> u.approvals[id].ticketHash == Some(hash(op.token)))
  {
    hide Expire, Conclude, ActionIntact, Retire;
    DecidedRowBefore(hash, t, op, id);
    NotDue(t, id, op.now);
    ConcludeEffect(t, id, Ruled(hash, t.approvals[id], op.device, op.approve, op.token, op.now));
  }

  lemma ConcludeEffect(t: Tables, id: string, b: Approval)
    requires b.run in t.runs
    ensures var u := Conclude(t, id, b);
            && u.approvals == t.approvals[id := b] && u.lease == t.lease && u.grant == t.grant && u.devices == t.devices
            && u.runs == (if t.runs[b.run].status.WaitingApproval?
                          then t.runs[b.run := t.runs[b.run].(status := Running)] else t.runs)
  {
    hide InsertOrIgnore, AddStep, ServiceStep;
  }

  lemma NotDue(t: Tables, id: string, now: int)
    requires id in t.approvals && now < t.approvals[id].expiresAt
    ensures Expire(t, id, now) == Ok((t, false))
  {
  }

  lemma RowsOnly()
    ensures forall t: Tables, id, run, name :: AddRow(t, id, run, name).(events := t.events) == t
  {
  }

  lemma StepsOnly()
    ensures forall t: Tables, id, a, state :: AddServiceStep(t, id, a, state).(steps := t.steps) == t
  {
  }

  /** An approval is decided only if nothing happened to the controller lease and no device was
      revoked between its proposal and its decision: every state between has the same lease
      state, holder and bracket, and no step between was a lease move, a restart or a revocation. */
  lemma DecidedUndisturbed(hash: string -> string, h: History, i: nat, j: nat, k: nat, id: string)
    requires Behaviour(hash, h) && i < k < j < |h.ops|
    requires Proposes(hash, h.states[i], h.ops[i], id) && Decides(hash, h.states[j], h.ops[j], id)
    ensures h.states[k].lease.generation == h.states[i].lease.generation
    ensures Core(h.states[k].lease) == Core(h.states[i].lease)
    ensures h.states[k].grant == h.states[i].grant
    ensures !Disturbs(h.states[k], h.ops[k])
  {
    hide Inv, Step, Legal, LeaseEvolves, Core, Proposes, Decides, Disturbs, Empty;
    assert Linked(hash, h, i) && Linked(hash, h, k);
    ProposedRow(hash, h.states[i], h.ops[i], id);
    FencesGrow(hash, h, i, k);
    FencesGrow(hash, h, k, k + 1);
    FencesGrow(hash, h, k + 1, j);
    ProposalKept(hash, h, i + 1, j, id);
    DecidedRowBefore(hash, h.states[j], h.ops[j], id);
    Reachable(hash, h, k);
    DbStatements.QuietPieces(hash, h.states[k]);
    if Disturbs(h.states[k], h.ops[k]) { DisturbanceShows(hash, h.states[k], h.ops[k]); }
  }

  // ----- ticket safety -----

  /** Across any run, a row that has left pending only ever moves from approved to revoked, keeps
      its ticket hash, and once used keeps the time of its use; a denied, expired or revoked row
      is never used afterwards. */
  lemma SettledForGood(hash: string -> string, h: History, i: nat, j: nat, id: string)
    requires Behaviour(hash, h) && i <= j < |h.states|
    requires id in h.states[i].approvals && !h.states[i].approvals[id].state.Pending?
    ensures id in h.states[j].approvals
    ensures var a, b := h.states[i].approvals[id], h.states[j].approvals[id];
            && !b.state.Pending? && (b.state == a.state || (a.state.Approved? && b.state.Revoked?))
            && b.ticketHash == a.ticketHash && b.actionJson == a.actionJson && b.digest == a.digest
            && (a.consumedAt.Some? || !a.state.Approved? ==> b.consumedAt == a.consumedAt)
  {
    hide Behaviour, AllStepsEvolve;
    NeverUndone(hash, h, i, j);
    assert RowEvolves(h.states[i].approvals[id], h.states[j].approvals[id]);
  }

  /** Every approved or denied row was decided strictly before its deadline. */
  lemma DecidedInTime(hash: string -> string, h: History, i: nat, id: string)
    requires Behaviour(hash, h) && i < |h.states| && id in h.states[i].approvals
    requires h.states[i].approvals[id].state in {Approved, Denied}
    ensures h.states[i].approvals[id].decidedAt.Some?
    ensures h.states[i].approvals[id].decidedAt.value < h.states[i].approvals[id].expiresAt
  {
    hide Behaviour, StoredCanonically;
    Reachable(hash, h, i);
    RowFacts(hash, h.states[i], id);
  }
}
