/** Blocked workers and the transactions that settle what they wait for.
    Models PendingApprovals of crates/agentmeld-server/src/approvals.rs, the turn of supervisor.rs
    with its order "register, publish, wait", and "commit, then resolve" of the handlers in api.rs. */
module Waiters {
  import opened Wrappers
  import opened Tables
  import opened LeaseAndApprovals
  import opened WorkerEvents
  import opened DbInvariant
  import opened DbTransactions
  import opened DbApprovalSteps
  import opened DbRuns
  import opened DbTickets
  import opened DbSettlement
  import opened DbPromise

  /** An outcome on its way to the worker that waits for an approval. */
  datatype Signal = Signal(id: string, outcome: Outcome)

  /** What the supervisor is doing: it drives one turn at a time, and while its worker asks for an
      approval the turn does nothing else. */
  datatype ActiveTurn = NoTurn | InTurn(run: string, asking: Option<string>)

  /** The service process around the database: approval ids minted so far, registered waiters,
      outcomes committed but not yet handed to their waiter, outcomes workers received, and the
      turn being driven. */
  datatype World = World(
    tables: Tables, minted: set<string>, waiting: set<string>, inFlight: seq<Signal>, received: seq<Signal>,
    turn: ActiveTurn)

  datatype Event =
    | StartTurn(run: string)
    | EndTurn
    | Register(id: string)
    | Commit(op: Op)
    | ListRows(order: seq<string>, now: int)
    | Wake(k: nat)
    | Abandon(id: string)
    | Crash

  function Tell(ids: seq<string>, outcome: Outcome): seq<Signal> {
    seq(|ids|, i requires 0 <= i < |ids| => Signal(ids[i], outcome))
  }

  /** What the handler of a transaction resolves after it commits. Reading a row tells nobody. */
  function Signals(hash: string -> string, t: Tables, op: Op): seq<Signal> {
    match op
    case Take(device, active, affected, order, now) =>
      var r := Takeover(t, device, active, affected, order, now).result;
      if r.Ok? then Tell(r.value.revoked, WasRevoked) else []
    case Kill(device, expected, affected, order, now) =>
      var r := RevokeLease(t, device, expected, affected, order, now).result;
      if r.Ok? then Tell(r.value.revoked, WasRevoked) else []
    case DropDevice(device, order, now) =>
      var r := RevokeDevice(t, device, order, now).result;
      if r.Ok? then Tell(r.value.settled, WasRevoked) else []
    case SweepDue(order, now) =>
      var r := Sweep(t, order, now).result;
      if r.Ok? then Tell(r.value, WasExpired) else []
    case Settle(id, device, approve, seen, token, now) =>
      var r := Decide(hash, t, id, device, approve, seen, token, now).result;
      if r.Ok? then [Signal(id, r.value)]
      else if r.error.ApprovalExpired? then [Signal(id, WasExpired)]
      else if r.error.DigestChanged? then [Signal(id, WasRevoked)]
      else []
    case Revoke(id, device, now) =>
      var r := RevokeApproval(t, id, device, now).result;
      if r.Ok? then (if r.value.wasPending then [Signal(id, WasRevoked)] else [])
      else if r.error.ApprovalExpired? then [Signal(id, WasExpired)]
      else []
    case _ => []
  }

  /** Ids are fresh, an in-flight outcome can be handed over, startup recovery runs before the process
      serves anyone, and what the supervisor commits it commits in the order of its turn. */
  ghost predicate Possible(w: World, e: Event) {
    match e
    case StartTurn(run) => w.turn.NoTurn? && run in w.tables.runs && w.tables.runs[run].status.Starting?
    case EndTurn => w.turn.InTurn? && w.turn.asking.None?
    case Register(id) => id !in w.minted && w.turn.InTurn? && w.turn.asking.None?
    case Commit(op) => Legal(w.tables, op) && InOrder(w, op)
    case ListRows(order, now) => Listing(order, DueIds(w.tables, now))
    case Wake(k) => k < |w.inFlight|
    case Abandon(_) => true
    case Crash => true
  }

  /** A turn proposes only while it asks, and does everything else only while it does not; a run is
      failed early only before its turn; a starting process has no turn and no waiters. */
  predicate InOrder(w: World, op: Op) {
    match op
    case Ask(id, run, _, _, _, _, _) => w.turn == InTurn(run, Some(id)) && id in w.waiting
    case Begin(run, _) => w.turn == InTurn(run, None)
    case Report(run, _, _, _, _) => w.turn == InTurn(run, None)
    case Interrupt(run) => w.turn == InTurn(run, None)
    case CancelEarly(run) => w.turn == InTurn(run, None)
    case Store(run) => w.turn == InTurn(run, None)
    case FailEarly(_) => w.turn.NoTurn?
    case InterruptAll(_) => w.turn.NoTurn? && w.waiting == {} && w.inFlight == []
    case RecoverAll(_, _) => w.turn.NoTurn? && w.waiting == {} && w.inFlight == []
    case _ => true
  }

  /** The registry: who waits, and what their channels delivered. */
  datatype Registry = Registry(waiting: set<string>, received: seq<Signal>)

  /** Removing the registration before sending is what makes a second outcome impossible. */
  function Resolved(g: Registry, s: Signal): Registry {
    if s.id in g.waiting then Registry(g.waiting - {s.id}, g.received + [s]) else g
  }

  function Handed(w: World, s: Signal): World {
    var g := Resolved(Registry(w.waiting, w.received), s);
    w.(waiting := g.waiting, received := g.received,
       turn := if s.id in w.waiting then Answered(w.turn, s.id) else w.turn)
  }

  /** A turn goes on once the id it asked about is answered, or refused before its row existed. */
  function Answered(turn: ActiveTurn, id: string): ActiveTurn {
    if turn.InTurn? && turn.asking == Some(id) then turn.(asking := None) else turn
  }

  /** A wait is given up when its proposal is refused, or when its turn is torn down under it. */
  function GivenUp(w: World, id: string): ActiveTurn {
    if w.turn.InTurn? && w.turn.asking == Some(id) && id in w.tables.approvals then NoTurn else Answered(w.turn, id)
  }

  function After(hash: string -> string, w: World, e: Event): World {
    match e
    case StartTurn(run) => w.(turn := InTurn(run, None))
    case EndTurn => w.(turn := NoTurn)
    case Register(id) =>
      w.(minted := w.minted + {id}, waiting := w.waiting + {id},
         turn := if w.turn.InTurn? then w.turn.(asking := Some(id)) else NoTurn)
    case Commit(op) => w.(tables := Step(hash, w.tables, op), inFlight := w.inFlight + Signals(hash, w.tables, op))
    case ListRows(order, now) => w.(tables := Sweep(w.tables, order, now).tables)
    case Wake(k) =>
      if k < |w.inFlight| then Handed(w.(inFlight := w.inFlight[..k] + w.inFlight[k + 1..]), w.inFlight[k]) else w
    case Abandon(id) => w.(waiting := w.waiting - {id}, turn := GivenUp(w, id))
    case Crash => w.(waiting := {}, inFlight := [], turn := NoTurn)
  }

  // ----- the agreement -----

  /** The row's own record of how it left pending. */
  predicate Matches(hash: string -> string, a: Approval, o: Outcome) {
    match o
    case WasApproved(ticket) => a.state in {Approved, Revoked} && a.ticketHash == Some(hash(ticket))
    case WasDenied => a.state.Denied?
    case WasExpired => a.state.Expired?
    case WasRevoked => a.state.Revoked? && a.ticketHash.None?
  }

  ghost predicate Sound(hash: string -> string, t: Tables, ss: seq<Signal>) {
    forall i | 0 <= i < |ss| :: ss[i].id in t.approvals && Matches(hash, t.approvals[ss[i].id], ss[i].outcome)
  }

  predicate Single(ss: seq<Signal>) {
    forall i, j | 0 <= i < j < |ss| :: ss[i].id != ss[j].id
  }

  predicate Told(ss: seq<Signal>, id: string) {
    exists i | 0 <= i < |ss| :: ss[i].id == id
  }

  /** A waiter whose row is settled will be told, unless the row expired unannounced. */
  predicate Covered(w: World, id: string) {
    id in w.tables.approvals && !w.tables.approvals[id].state.Pending? ==>
      w.tables.approvals[id].state.Expired? || Told(w.inFlight, id)
  }

  ghost predicate Agree(hash: string -> string, w: World) {
    && Inv(hash, w.tables)
    && w.tables.approvals.Keys <= w.minted && w.waiting <= w.minted
    && Sound(hash, w.tables, w.received + w.inFlight)
    && Single(w.received + w.inFlight)
    && forall id | id in w.waiting :: Covered(w, id)
  }

  lemma StaysMatched(hash: string -> string, a: Approval, b: Approval, o: Outcome)
    requires RowEvolves(a, b) && Matches(hash, a, o)
    ensures Matches(hash, b, o)
  {
  }

  lemma StaysSound(hash: string -> string, t: Tables, u: Tables, ss: seq<Signal>)
    requires Keeps(hash, t, u) && Sound(hash, t, ss)
    ensures Sound(hash, u, ss)
  {
    hide Inv, AllStepsEvolve, RowEvolves, Matches, LeaseEvolves;
    forall i | 0 <= i < |ss| ensures ss[i].id in u.approvals && Matches(hash, u.approvals[ss[i].id], ss[i].outcome) {
      assert RowEvolves(t.approvals[ss[i].id], u.approvals[ss[i].id]);
      StaysMatched(hash, t.approvals[ss[i].id], u.approvals[ss[i].id], ss[i].outcome);
    }
  }

  // ----- every settled row is announced once, correctly -----

  /** The signals of a transaction are for distinct rows it moved out of pending. */
  ghost predicate Announces(hash: string -> string, t: Tables, u: Tables, ss: seq<Signal>) {
    && Single(ss) && Sound(hash, u, ss) && forall i | 0 <= i < |ss| :: ss[i].id in PendingIds(t)
  }

  /** ... and for all of them. */
  ghost predicate AnnouncesAll(t: Tables, u: Tables, ss: seq<Signal>) {
    forall id | id in PendingIds(t) && id in u.approvals && !u.approvals[id].state.Pending? :: Told(ss, id)
  }

  lemma AllToldOnce(hash: string -> string, t: Tables, u: Tables, order: seq<string>, ids: set<string>,
                    outcome: Outcome)
    requires Listing(order, ids) && ids <= PendingIds(t) && PendingIds(t) - PendingIds(u) <= ids
    requires forall id | id in ids :: id in u.approvals && Matches(hash, u.approvals[id], outcome)
    ensures Announces(hash, t, u, Tell(order, outcome)) && AnnouncesAll(t, u, Tell(order, outcome))
  {
    hide Matches;
    var ss := Tell(order, outcome);
    forall id | id in PendingIds(t) && id in u.approvals && !u.approvals[id].state.Pending? ensures Told(ss, id) {
      assert id in ids;
      var i :| 0 <= i < |order| && order[i] == id;
      assert ss[i].id == id;
    }
  }

  lemma NothingTold(hash: string -> string, t: Tables, u: Tables)
    requires PendingIds(t) <= PendingIds(u)
    ensures Announces(hash, t, u, []) && AnnouncesAll(t, u, [])
  {
    forall id | id in PendingIds(t) ensures id in PendingIds(u) {}
  }

  lemma OneTold(hash: string -> string, t: Tables, u: Tables, id: string, outcome: Outcome)
    requires id in PendingIds(t) && PendingIds(t) - {id} <= PendingIds(u)
    requires id in u.approvals && Matches(hash, u.approvals[id], outcome)
    ensures Announces(hash, t, u, [Signal(id, outcome)]) && AnnouncesAll(t, u, [Signal(id, outcome)])
  {
    hide Matches, PendingIds;
    forall x | x in PendingIds(t)
      ensures x in u.approvals && !u.approvals[x].state.Pending? ==> Told([Signal(id, outcome)], x)
    {
      if x == id { assert [Signal(id, outcome)][0].id == x; } else { StillPending(u, x); }
    }
  }

  lemma StillPending(t: Tables, id: string)
    requires id in PendingIds(t)
    ensures id in t.approvals && t.approvals[id].state.Pending?
  {
  }

  lemma PendingHasNoTicket(hash: string -> string, t: Tables)
    requires Inv(hash, t)
    ensures forall id | id in PendingIds(t) :: id in t.approvals && t.approvals[id].ticketHash.None?
  {
    hide StoredCanonically;
  }

  lemma RetiredRows(hash: string -> string, t: Tables, t0: Tables, ids: seq<string>, reason: Reason, now: int)
    requires Inv(hash, t) && t0.approvals == t.approvals && RetireAll(t0, ids, reason, None, now).Ok?
    ensures var u := RetireAll(t0, ids, reason, None, now).value;
            PendingIds(u) == PendingIds(t) - IdSet(ids) && IdSet(ids) <= PendingIds(t)
            && forall id | id in IdSet(ids) :: id in u.approvals && Matches(hash, u.approvals[id], WasRevoked)
  {
    hide Inv, RetireAll, PendingIds, TicketKept;
    SamePendingIds(t, t0);
    PendingHasNoTicket(hash, t);
    RetireAllEffect(t0, ids, reason, None, now);
    RetireAllTickets(t0, ids, reason, None, now);
    var u := RetireAll(t0, ids, reason, None, now).value;
    forall id | id in IdSet(ids) ensures id in u.approvals && Matches(hash, u.approvals[id], WasRevoked) {
      assert TicketKept(t0.approvals[id], u.approvals[id]);
      assert u.approvals[id].ticketHash == t0.approvals[id].ticketHash by {
        KeptTicket(t0.approvals[id], u.approvals[id]);
      }
    }
  }

  lemma KeptTicket(a: Approval, b: Approval)
    requires TicketKept(a, b)
    ensures a.ticketHash == b.ticketHash
  {
  }

  /** The transactions that revoke everything pending. */
  lemma RevokingTold(hash: string -> string, t: Tables, t0: Tables, u: Tables, order: seq<string>, reason: Reason,
                     now: int)
    requires Inv(hash, t) && Listing(order, PendingIds(t)) && t0.approvals == t.approvals
    requires RetireAll(t0, order, reason, None, now).Ok?
    requires u.approvals == RetireAll(t0, order, reason, None, now).value.approvals
    ensures Announces(hash, t, u, Tell(order, WasRevoked)) && AnnouncesAll(t, u, Tell(order, WasRevoked))
  {
    hide Inv, RetireAll, PendingIds, Matches, Listing;
    RetiredRows(hash, t, t0, order, reason, now);
    ListingIsSet(order, PendingIds(t));
    SamePendingIds(RetireAll(t0, order, reason, None, now).value, u);
    AllToldOnce(hash, t, u, order, PendingIds(t), WasRevoked);
  }

  ghost predicate Exact(hash: string -> string, t: Tables, op: Op) {
    Announces(hash, t, Step(hash, t, op), Signals(hash, t, op))
        && AnnouncesAll(t, Step(hash, t, op), Signals(hash, t, op))
  }

  lemma TakeTold(hash: string -> string, t: Tables, op: Op)
    requires Inv(hash, t) && Legal(t, op) && op.Take?
    ensures Exact(hash, t, op)
  {
    hide Inv, RetireAll, LeaseRow, PendingIds, Announces, AnnouncesAll, Listing, Tell;
    var r := Takeover(t, op.device, op.active, op.affected, op.order, op.now);
    if r.result.Ok? {
      var g := t.lease.generation + 1;
      var t1 := t.(lease := Lease(g, if op.active then LeaseState.Pausing else LeaseState.Human, Some(op.device), false,
                                  Some(op.now), Some(op.now), op.now));
      LeaseRowEffect(RetireAll(t1, op.order, LeaseTakeover, None, op.now).value, op.affected, "lease.takeover", g);
      RevokingTold(hash, t, t1, r.tables, op.order, LeaseTakeover, op.now);
    } else {
      NothingTold(hash, t, t);
    }
  }

  lemma KillTold(hash: string -> string, t: Tables, op: Op)
    requires Inv(hash, t) && Legal(t, op) && op.Kill?
    ensures Exact(hash, t, op)
  {
    hide Inv, RetireAll, LeaseRow, AutoRelease, PendingIds, Announces, AnnouncesAll, Listing, Tell;
    var r := RevokeLease(t, op.device, op.expected, op.affected, op.order, op.now);
    if r.result.Ok? {
      var l := AutoRelease(t.lease, op.now);
      var t1 := RetireAll(t.(lease := l), op.order, LeaseRevoked, None, op.now).value;
      LeaseRowEffect(t1.(lease := Unheld(l.generation + 1, op.now)), op.affected, "lease.released", l.generation + 1);
      RevokingTold(hash, t, t.(lease := l), r.tables, op.order, LeaseRevoked, op.now);
    } else {
      NothingTold(hash, t, t);
    }
  }

  lemma DropTold(hash: string -> string, t: Tables, op: Op)
    requires Inv(hash, t) && Legal(t, op) && op.DropDevice?
    ensures Exact(hash, t, op)
  {
    hide Inv, RetireAll, PendingIds, Announces, AnnouncesAll, Listing, Tell;
    var r := RevokeDevice(t, op.device, op.order, op.now);
    if r.result.Ok? {
      RevokingTold(hash, t, t.(grant := t.grant + 1), r.tables, op.order, DeviceRevoked, op.now);
    } else {
      NothingTold(hash, t, t);
    }
  }

  lemma SweepTold(hash: string -> string, t: Tables, op: Op)
    requires Inv(hash, t) && Legal(t, op) && op.SweepDue?
    ensures Exact(hash, t, op)
  {
    hide Inv, ExpireAll, PendingIds, Announces, AnnouncesAll, Listing, Tell, ExpiredExactly, DueIds;
    SweepExpiresTheDue(hash, t, op.order, op.now);
    var u := Sweep(t, op.order, op.now).tables;
    ExpiredPending(hash, t, u, op.now);
    DuePending(t, op.now);
    AllToldOnce(hash, t, u, op.order, DueIds(t, op.now), WasExpired);
  }

  /** A refused decision leaves the tables alone, or has expired its own row. */
  lemma RefusedDecision(hash: string -> string, t: Tables, op: Op)
    requires Inv(hash, t) && op.Settle?
    requires Decide(hash, t, op.id, op.device, op.approve, op.seen, op.token, op.now).result.Err?
    ensures var d := Decide(hash, t, op.id, op.device, op.approve, op.seen, op.token, op.now);
            && !d.result.error.DigestChanged?
            && (d.result.error.ApprovalExpired? ==>
                 op.id in DueIds(t, op.now) && Expire(t, op.id, op.now).Ok?
                     && d.tables == Expire(t, op.id, op.now).value.0)
            && (!d.result.error.ApprovalExpired? ==> d.tables == t)
  {
    hide Inv, Expire, Conclude, ActionIntact, AddServiceStep, AddApprovalRow, DueIds;
    DecideKeeps(hash, t, op.id, op.device, op.approve, op.seen, op.token, op.now);
    ExpireKeeps(hash, t, op.id, op.now);
    ExpireFlag(t, op.id, op.now);
  }

  lemma ExpireFlag(t: Tables, id: string, now: int)
    requires Expire(t, id, now).Ok?
    ensures Expire(t, id, now).value.1 <==> id in DueIds(t, now)
    ensures !Expire(t, id, now).value.1 ==> Expire(t, id, now).value.0 == t
  {
    hide AddStep, ServiceStep, InsertOrIgnore;
  }

  /** Lazy expiry inside a refused request. */
  lemma LazyExpiryTold(hash: string -> string, t: Tables, id: string, now: int)
    requires Expire(t, id, now).Ok? && id in DueIds(t, now)
    ensures var u := Expire(t, id, now).value.0;
            Announces(hash, t, u, [Signal(id, WasExpired)]) && AnnouncesAll(t, u, [Signal(id, WasExpired)])
  {
    hide Expire, DueIds, PendingIds, Announces, AnnouncesAll;
    ExpireEffect(t, id, now);
    DuePending(t, now);
    PendingInTable(t);
    OneTold(hash, t, Expire(t, id, now).value.0, id, WasExpired);
  }

  lemma DecisionTold(hash: string -> string, t: Tables, op: Op)
    requires op.Settle? && Decides(hash, t, op, op.id)
    ensures var d := Decide(hash, t, op.id, op.device, op.approve, op.seen, op.token, op.now);
            var ss := [Signal(op.id, d.result.value)];
            Announces(hash, t, d.tables, ss) && AnnouncesAll(t, d.tables, ss)
  {
    hide Expire, Conclude, ActionIntact, Retire, Announces, AnnouncesAll, PendingIds;
    var d := Decide(hash, t, op.id, op.device, op.approve, op.seen, op.token, op.now);
    DecidedRowBefore(hash, t, op, op.id);
    NotDue(t, op.id, op.now);
    var b := Ruled(hash, t.approvals[op.id], op.device, op.approve, op.token, op.now);
    ConcludeEffect(t, op.id, b);
    ConcludedPending(t, d.tables, op.id, b);
    OneTold(hash, t, d.tables, op.id, d.result.value);
  }

  lemma SettleTold(hash: string -> string, t: Tables, op: Op)
    requires Inv(hash, t) && op.Settle?
    ensures Exact(hash, t, op)
  {
    hide Inv, Decide, Announces, AnnouncesAll, DueIds, PendingIds, Expire;
    var d := Decide(hash, t, op.id, op.device, op.approve, op.seen, op.token, op.now);
    if d.result.Ok? {
      DecisionTold(hash, t, op);
    } else {
      RefusedDecision(hash, t, op);
      if d.result.error.ApprovalExpired? {
        LazyExpiryTold(hash, t, op.id, op.now);
      } else {
        NothingTold(hash, t, d.tables);
      }
    }
  }

  lemma ConcludedPending(t: Tables, u: Tables, id: string, b: Approval)
    requires id in t.approvals && t.approvals[id].state.Pending? && u.approvals == t.approvals[id := b]
    requires !b.state.Pending?
    ensures id in PendingIds(t) && PendingIds(u) == PendingIds(t) - {id}
  {
  }

  lemma RefusedRevocation(hash: string -> string, t: Tables, op: Op)
    requires Inv(hash, t) && op.Revoke? && RevokeApproval(t, op.id, op.device, op.now).result.Err?
    ensures var r := RevokeApproval(t, op.id, op.device, op.now);
            && (r.result.error.ApprovalExpired? ==>
                 op.id in DueIds(t, op.now) && Expire(t, op.id, op.now).Ok?
                     && r.tables == Expire(t, op.id, op.now).value.0)
            && (!r.result.error.ApprovalExpired? ==> r.tables == t)
  {
    hide Inv, Expire, DueIds;
    ExpireKeeps(hash, t, op.id, op.now);
    ExpireFlag(t, op.id, op.now);
  }

  /** A revocation that succeeds rewrites one undecided or approved row. */
  lemma RevokedRow(t: Tables, op: Op)
    requires op.Revoke? && RevokeApproval(t, op.id, op.device, op.now).result.Ok?
    ensures var r := RevokeApproval(t, op.id, op.device, op.now);
            op.id in t.approvals && op.id in r.tables.approvals
            && var b := r.tables.approvals[op.id];
            r.tables.approvals == t.approvals[op.id := b] && b.state.Revoked?
                && b.ticketHash == t.approvals[op.id].ticketHash
            && (r.result.value.wasPending <==> t.approvals[op.id].state.Pending?)
  {
    hide Expire, AddRow, AddServiceStep, DueIds;
    ExpireFlag(t, op.id, op.now);
    StepsOnly();
    RowsOnly();
    if Expire(t, op.id, op.now).value.1 { ExpireEffect(t, op.id, op.now); }
  }

  lemma RevokeTold(hash: string -> string, t: Tables, op: Op)
    requires Inv(hash, t) && op.Revoke?
    ensures Exact(hash, t, op)
  {
    hide Inv, RevokeApproval, Announces, AnnouncesAll, DueIds, PendingIds, Expire;
    var r := RevokeApproval(t, op.id, op.device, op.now);
    if r.result.Ok? {
      RevokedRow(t, op);
      PendingHasNoTicket(hash, t);
      var b := r.tables.approvals[op.id];
      if r.result.value.wasPending {
        ConcludedPending(t, r.tables, op.id, b);
        OneTold(hash, t, r.tables, op.id, WasRevoked);
      } else {
        OtherRow(t, r.tables, op.id, b);
        NothingTold(hash, t, r.tables);
      }
    } else {
      RefusedRevocation(hash, t, op);
      if r.result.error.ApprovalExpired? {
        LazyExpiryTold(hash, t, op.id, op.now);
      } else {
        NothingTold(hash, t, r.tables);
      }
    }
  }

  lemma OtherRow(t: Tables, u: Tables, id: string, b: Approval)
    requires id in t.approvals && !t.approvals[id].state.Pending? && u.approvals == t.approvals[id := b]
    requires !b.state.Pending?
    ensures PendingIds(u) == PendingIds(t)
  {
  }

  /** The operations that settle nothing. */
  lemma QuietTold(hash: string -> string, t: Tables, op: Op)
    requires !op.Take? && !op.Kill? && !op.DropDevice? && !op.SweepDue? && !op.Settle? && !op.Revoke? && !op.Read?
    requires !op.RecoverAll?
    ensures Signals(hash, t, op) == [] && PendingIds(t) <= PendingIds(Step(hash, t, op))
  {
    hide LeaseMaintenance, Hold, Propose, InterruptRuns, Admit, ClaimQueued, BeginTurn, ApplyBatch,
         MarkInterrupted, StopTask, CancelBeforeSpawn, FailPrecheck, Deliver, PendingIds;
    var u := Step(hash, t, op);
    match op {
      case Ask(_, _, _, _, _, _, _) => AskPending(hash, t, op);
      case Report(_, _, _, _, _) => ReportPending(hash, t, op);
      case Move(m, device, expected, run, now) => MovePending(t, m, device, expected, run, now);
      case _ => LifecycleTickets(hash, t, op); SamePendingIds(t, u);
    }
  }

  lemma AskPending(hash: string -> string, t: Tables, op: Op)
    requires op.Ask?
    ensures PendingIds(t) <= PendingIds(Propose(hash, t, op.id, op.run, op.generation, op.action, op.description,
                                                op.ttl, op.now).tables)
  {
    hide InsertOrIgnore, ValidAction;
  }

  lemma ReportPending(hash: string -> string, t: Tables, op: Op)
    requires op.Report?
    ensures PendingIds(t) == PendingIds(ApplyBatch(hash, t, op.run, op.generation, op.es, op.turn, op.now).tables)
  {
    hide ApplyAll, PendingIds;
    if ApplyBatch(hash, t, op.run, op.generation, op.es, op.turn, op.now).result.Ok? {
      ApplyAllScope(hash, t, op.run, op.es, op.turn, op.now);
    }
  }

  lemma MovePending(t: Tables, m: HolderMove, device: string, expected: nat, run: Option<string>, now: int)
    ensures PendingIds(t) == PendingIds(Hold(t, m, device, expected, run, now).tables)
  {
    hide LeaseRow, AutoRelease, Moved, MoveAllowed, PendingIds;
    var l' := Moved(m, AutoRelease(t.lease, now), now);
    if LeaseRow(t.(lease := l'), run, MoveName(m), l'.generation).Ok? {
      LeaseRowEffect(t.(lease := l'), run, MoveName(m), l'.generation);
    }
    SamePendingIds(t, Hold(t, m, device, expected, run, now).tables);
  }

  /** A transaction announces exactly the rows it settles; only a read and startup recovery settle
      rows without announcing them. */
  lemma CommitAnnounces(hash: string -> string, t: Tables, op: Op)
    requires Inv(hash, t) && Legal(t, op)
    ensures Announces(hash, t, Step(hash, t, op), Signals(hash, t, op))
    ensures !op.Read? && !op.RecoverAll? ==> AnnouncesAll(t, Step(hash, t, op), Signals(hash, t, op))
  {
    hide Inv, Step, Signals, Legal, Announces, AnnouncesAll, PendingIds;
    match op {
      case Take(_, _, _, _, _) => TakeTold(hash, t, op);
      case Kill(_, _, _, _, _) => KillTold(hash, t, op);
      case DropDevice(_, _, _) => DropTold(hash, t, op);
      case SweepDue(_, _) => SweepTold(hash, t, op);
      case Settle(_, _, _, _, _, _) => SettleTold(hash, t, op);
      case Revoke(_, _, _) => RevokeTold(hash, t, op);
      case Read(_, _) => SilentSignals(hash, t, op); NobodyTold(hash, t, Step(hash, t, op));
      case RecoverAll(_, _) => SilentSignals(hash, t, op); NobodyTold(hash, t, Step(hash, t, op));
      case _ => QuietTold(hash, t, op); NothingTold(hash, t, Step(hash, t, op));
    }
  }

  lemma SilentSignals(hash: string -> string, t: Tables, op: Op)
    requires op.Read? || op.RecoverAll?
    ensures Signals(hash, t, op) == []
  {
  }

  lemma NobodyTold(hash: string -> string, t: Tables, u: Tables)
    ensures Announces(hash, t, u, [])
  {
  }

  // ----- the agreement is kept -----

  /** New signals are for rows that were pending, so no earlier signal names them. */
  lemma SignalsJoin(hash: string -> string, t: Tables, u: Tables, old_: seq<Signal>, ss: seq<Signal>)
    requires Keeps(hash, t, u) && Sound(hash, t, old_) && Single(old_) && Announces(hash, t, u, ss)
    ensures Sound(hash, u, old_ + ss) && Single(old_ + ss)
  {
    hide Inv, Keeps, RowEvolves;
    StaysSound(hash, t, u, old_);
    forall i, j | 0 <= i < |old_| && 0 <= j < |ss| ensures old_[i].id != ss[j].id {
      assert Matches(hash, t.approvals[old_[i].id], old_[i].outcome);
    }
  }

  lemma CommitCovers(hash: string -> string, w: World, u: Tables, ss: seq<Signal>, id: string)
    requires Keeps(hash, w.tables, u) && Covered(w, id)
    requires id in w.tables.approvals && w.tables.approvals[id].state.Pending? && id in u.approvals ==>
               u.approvals[id].state.Pending? || u.approvals[id].state.Expired? || Told(ss, id)
    requires id in u.approvals && id !in w.tables.approvals ==> u.approvals[id].state.Pending?
    ensures Covered(w.(tables := u, inFlight := w.inFlight + ss), id)
  {
    hide Inv, AllStepsEvolve, LeaseEvolves;
    if id in w.tables.approvals {
      assert RowEvolves(w.tables.approvals[id], u.approvals[id]);
      ToldMore(w.inFlight, ss, id);
    }
  }

  lemma ToldMore(ss: seq<Signal>, more: seq<Signal>, id: string)
    ensures Told(ss + more, id) <==> Told(ss, id) || Told(more, id)
  {
    if i :| 0 <= i < |ss| && ss[i].id == id { assert (ss + more)[i].id == id; }
    if i :| 0 <= i < |more| && more[i].id == id { assert (ss + more)[|ss| + i].id == id; }
  }

  lemma NewRowsPending(hash: string -> string, t: Tables, op: Op, id: string)
    requires id in Step(hash, t, op).approvals && id !in t.approvals
    ensures Proposes(hash, t, op, id) && Step(hash, t, op).approvals[id].state.Pending?
  {
    hide Step, Proposes;
    TicketMoves(hash, t, op, id);
    ProposedRow(hash, t, op, id);
  }

  lemma ReadSettles(hash: string -> string, t: Tables, op: Op, id: string)
    requires Inv(hash, t) && op.Read? && id in PendingIds(t)
    ensures var u := Step(hash, t, op);
            id in u.approvals && (u.approvals[id].state.Pending? || u.approvals[id].state.Expired?)
  {
    hide Inv, Expire, DueIds;
    ExpireKeeps(hash, t, op.id, op.now);
    ExpireEffect(t, op.id, op.now);
  }

  lemma CommitAgrees(hash: string -> string, w: World, op: Op)
    requires Agree(hash, w) && Possible(w, Commit(op))
    ensures Agree(hash, After(hash, w, Commit(op)))
  {
    hide Inv, Keeps, Step, Signals, Legal, Sound, Single, Covered, Announces, AnnouncesAll, PendingIds;
    var t, u, ss := w.tables, Step(hash, w.tables, op), Signals(hash, w.tables, op);
    StepKeeps(hash, t, op);
    KeepsInv(hash, t, u);
    CommitAnnounces(hash, t, op);
    SignalsJoin(hash, t, u, w.received + w.inFlight, ss);
    assert w.received + w.inFlight + ss == w.received + (w.inFlight + ss);
    forall id | id in u.approvals ensures id in w.minted {
      if id !in t.approvals { NewRowsPending(hash, t, op, id); ProposedId(hash, t, op, id); }
    }
    forall id | id in w.waiting ensures Covered(w.(tables := u, inFlight := w.inFlight + ss), id) {
      if id in u.approvals && id !in t.approvals { NewRowsPending(hash, t, op, id); }
      if id in t.approvals && t.approvals[id].state.Pending? {
        PendingListed(t, id);
        if op.Read? { ReadSettles(hash, t, op, id); } else { AllAnnounced(t, u, ss, id); }
      }
      CommitCovers(hash, w, u, ss, id);
    }
  }

  lemma AllAnnounced(t: Tables, u: Tables, ss: seq<Signal>, id: string)
    requires AnnouncesAll(t, u, ss) && id in PendingIds(t)
    ensures id in u.approvals && !u.approvals[id].state.Pending? ==> Told(ss, id)
  {
  }

  lemma ProposedId(hash: string -> string, t: Tables, op: Op, id: string)
    requires Proposes(hash, t, op, id)
    ensures op.Ask? && op.id == id
  {
  }

  lemma ListAgrees(hash: string -> string, w: World, order: seq<string>, now: int)
    requires Agree(hash, w) && Possible(w, ListRows(order, now))
    ensures Agree(hash, After(hash, w, ListRows(order, now)))
  {
    hide Inv, Keeps, Sweep, Sound, Single, Covered, PendingIds, DueIds, ExpiredExactly, Listing;
    var t, u := w.tables, Sweep(w.tables, order, now).tables;
    ReadAndSweepKeep(hash, t, "", order, now);
    KeepsInv(hash, t, u);
    SweepExpiresTheDue(hash, t, order, now);
    ExpiredPending(hash, t, u, now);
    StaysSound(hash, t, u, w.received + w.inFlight);
    assert w.inFlight + [] == w.inFlight;
    forall id | id in w.waiting ensures Covered(w.(tables := u), id) { CommitCovers(hash, w, u, [], id); }
  }

  /** Dropping one signal, or moving it behind the received ones. */
  lemma SignalsMoved(hash: string -> string, t: Tables, received: seq<Signal>, inFlight: seq<Signal>, k: nat)
    requires Sound(hash, t, received + inFlight) && Single(received + inFlight) && k < |inFlight|
    ensures var rest := inFlight[..k] + inFlight[k + 1..];
            Sound(hash, t, received + rest) && Single(received + rest)
            && Sound(hash, t, received + [inFlight[k]] + rest) && Single(received + [inFlight[k]] + rest)
  {
    hide Matches;
    var before, n, rest := received + inFlight, |received|, inFlight[..k] + inFlight[k + 1..];
    var dropped, moved := received + rest, received + [inFlight[k]] + rest;
    forall i | 0 <= i < |dropped| ensures dropped[i] == before[if i < n + k then i else i + 1] {}
    forall i | 0 <= i < |moved|
      ensures moved[i] == before[if i < n || i > n + k then i else if i == n then n + k else i - 1]
    {
    }
  }

  lemma WakeAgrees(hash: string -> string, w: World, k: nat)
    requires Agree(hash, w) && k < |w.inFlight|
    ensures Agree(hash, After(hash, w, Wake(k)))
  {
    hide Inv, Sound, Single;
    var v := After(hash, w, Wake(k));
    SignalsMoved(hash, w.tables, w.received, w.inFlight, k);
    forall id | id in v.waiting ensures Covered(v, id) {
      assert Covered(w, id);
      if Told(w.inFlight, id) && w.inFlight[k].id != id { StillTold(w.inFlight, k, id); }
    }
  }

  lemma StillTold(ss: seq<Signal>, k: nat, id: string)
    requires k < |ss| && Told(ss, id) && ss[k].id != id
    ensures Told(ss[..k] + ss[k + 1..], id)
  {
    var i :| 0 <= i < |ss| && ss[i].id == id;
    assert (ss[..k] + ss[k + 1..])[if i < k then i else i - 1].id == id;
  }

  /** Every event keeps the agreement. */
  lemma EventAgrees(hash: string -> string, w: World, e: Event)
    requires Agree(hash, w) && Possible(w, e)
    ensures Agree(hash, After(hash, w, e))
  {
    hide Inv, Step, Signals, Legal, Sound, Single;
    match e {
      case Commit(op) => CommitAgrees(hash, w, op);
      case ListRows(order, now) => ListAgrees(hash, w, order, now);
      case Wake(k) => WakeAgrees(hash, w, k);
      case StartTurn(_) => RestAgrees(hash, w, After(hash, w, e), {});
      case EndTurn => RestAgrees(hash, w, After(hash, w, e), {});
      case Register(id) => RestAgrees(hash, w, After(hash, w, e), {id});
      case Abandon(id) => RestAgrees(hash, w, After(hash, w, e), {});
      case Crash => CrashAgrees(hash, w);
    }
  }

  lemma RestAgrees(hash: string -> string, w: World, v: World, extra: set<string>)
    requires Agree(hash, w) && v == w.(minted := w.minted + extra, waiting := v.waiting, turn := v.turn)
    requires v.waiting <= w.waiting + extra && extra !! w.minted
    ensures Agree(hash, v)
  {
    hide Inv, Sound, Single;
    forall id | id in v.waiting ensures Covered(v, id) {
      if id in w.waiting { assert Covered(w, id); }
    }
  }

  lemma CrashAgrees(hash: string -> string, w: World)
    requires Agree(hash, w)
    ensures Agree(hash, After(hash, w, Crash))
  {
    hide Inv, Matches;
    assert (w.received + w.inFlight)[..|w.received|] == w.received + [];
  }

  // ----- over whole runs -----

  function Fresh(): World {
    World(Empty(), {}, {}, [], [], NoTurn)
  }

  /** Worlds of a run, one per event, in order. */
  ghost predicate Unfolds(hash: string -> string, ws: seq<World>, es: seq<Event>) {
    && |ws| == |es| + 1 && ws[0] == Fresh()
    && forall i: nat | i < |es| :: Follows(hash, ws, es, i)
  }

  ghost predicate Follows(hash: string -> string, ws: seq<World>, es: seq<Event>, i: nat)
    requires |ws| == |es| + 1 && i < |es|
  {
    Possible(ws[i], es[i]) && ws[i + 1] == After(hash, ws[i], es[i])
  }

  lemma {:induction false} AgreeThroughout(hash: string -> string, ws: seq<World>, es: seq<Event>, i: nat)
    requires Unfolds(hash, ws, es) && i < |ws|
    ensures Agree(hash, ws[i])
    decreases i
  {
    hide Inv, Possible, After, Sound;
    if i == 0 {
      EmptyInv(hash);
      assert Fresh().received + Fresh().inFlight == [];
      assert Sound(hash, Empty(), []) by { NobodyTold(hash, Empty(), Empty()); }
    } else {
      AgreeThroughout(hash, ws, es, i - 1);
      assert Follows(hash, ws, es, i - 1);
      EventAgrees(hash, ws[i - 1], es[i - 1]);
    }
  }

  /** In every run, across crashes: a worker receives at most one outcome for an approval, and it
      is the way the row left pending; a ticket it receives hashes to that row's ticket hash. */
  lemma OneOutcome(hash: string -> string, ws: seq<World>, es: seq<Event>, i: nat, x: nat, y: nat)
    requires Unfolds(hash, ws, es) && i < |ws| && x < |ws[i].received| && y < |ws[i].received|
    requires ws[i].received[x].id == ws[i].received[y].id
    ensures x == y
    ensures var s := ws[i].received[x];
            s.id in ws[i].tables.approvals && Matches(hash, ws[i].tables.approvals[s.id], s.outcome)
  {
    hide Inv, Matches, Unfolds;
    AgreeThroughout(hash, ws, es, i);
    var w := ws[i];
    assert (w.received + w.inFlight)[x] == w.received[x] && (w.received + w.inFlight)[y] == w.received[y];
  }

  /** A registered waiter is left without an outcome in flight only while its row is pending (or
      not yet published) or when the row expired: an approval, a denial and a revocation are
      never lost on the way to a waiter that is still there. */
  lemma OnlyExpiryStrands(hash: string -> string, ws: seq<World>, es: seq<Event>, i: nat, id: string)
    requires Unfolds(hash, ws, es) && i < |ws| && id in ws[i].waiting && id in ws[i].tables.approvals
    requires ws[i].tables.approvals[id].state in {Approved, Denied, Revoked}
    ensures exists k | 0 <= k < |ws[i].inFlight| ::
              ws[i].inFlight[k].id == id && Matches(hash, ws[i].tables.approvals[id], ws[i].inFlight[k].outcome)
  {
    hide Inv, Matches, Unfolds;
    AgreeThroughout(hash, ws, es, i);
    var w := ws[i];
    assert Covered(w, id);
    var k :| 0 <= k < |w.inFlight| && w.inFlight[k].id == id;
    assert (w.received + w.inFlight)[|w.received| + k] == w.inFlight[k];
  }

  /** The outcome in flight for an approval is handed to its waiter. */
  predicate Delivers(w: World, v: World, e: Event, id: string) {
    && e.Wake? && e.k < |w.inFlight| && w.inFlight[e.k].id == id
    && v.received == w.received + [w.inFlight[e.k]]
  }

  lemma WaitStep(hash: string -> string, w: World, e: Event, id: string)
    ensures var v := After(hash, w, e);
            && (id in w.waiting && id !in v.waiting ==> e.Crash? || e == Abandon(id) || Delivers(w, v, e, id))
            && (e == Register(id) ==> id in v.waiting)
            && (v.received == w.received
                || (e.Wake? && e.k < |w.inFlight| && w.inFlight[e.k].id in w.waiting
                    && Delivers(w, v, e, w.inFlight[e.k].id)))
  {
    hide Step, Signals, Sweep;
  }

  /** A registered wait ends in one of three ways: its outcome is delivered, it is given up, or the process
      dies. No outcome is dropped on the way to a waiter, and nothing is delivered but to one. */
  lemma {:induction false} WaitAnswered(hash: string -> string, ws: seq<World>, es: seq<Event>, i: nat, j: nat,
                                        id: string)
    returns (k: nat)
    requires Unfolds(hash, ws, es) && i < j < |ws| && id in ws[i].waiting && id !in ws[j].waiting
    ensures i <= k < j && id in ws[k].waiting && id !in ws[k + 1].waiting
    ensures es[k].Crash? || es[k] == Abandon(id) || Delivers(ws[k], ws[k + 1], es[k], id)
    decreases j
  {
    hide After, Possible, Delivers;
    assert Follows(hash, ws, es, j - 1);
    if id in ws[j - 1].waiting {
      k := j - 1;
      WaitStep(hash, ws[k], es[k], id);
    } else {
      k := WaitAnswered(hash, ws, es, i, j - 1, id);
    }
  }
}
