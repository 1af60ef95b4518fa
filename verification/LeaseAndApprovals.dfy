/** The controller-lease and approval transactions of crates/agentmeld-server/src/db.rs, each a
    function from the committed tables to the committed tables. A transaction that fails rolls
    back everything it wrote, including a stale-hold release it had already applied. */
module LeaseAndApprovals {
  import opened Wrappers
  import opened Tables
  import Json = CanonicalJson

  const LEASE_HEARTBEAT_TTL_MS: int := 5 * 60 * 1000

  function Rollback<T>(t: Tables, e: DbError): Tx<T> {
    Tx(t, Err(e))
  }

  // ----- the lease -----

  function Unheld(generation: nat, now: int): Lease {
    Lease(generation, LeaseState.Agent, None, false, None, None, now)
  }

  function AutoRelease(l: Lease, now: int): Lease {
    if l.holder.Some? && l.heartbeat.Some? && now - l.heartbeat.value > LEASE_HEARTBEAT_TTL_MS
    then Unheld(l.generation + 1, now) else l
  }

  /** Both the sweeper's maintenance and reading the lease release a stale hold. */
  function LeaseMaintenance(t: Tables, now: int): Tx<bool> {
    var l := AutoRelease(t.lease, now);
    Tx(t.(lease := l), Ok(l != t.lease))
  }

  /** The ids a lease transition settled and whether it must cancel a live turn. */
  datatype LeaseOutcome = LeaseOutcome(revoked: seq<string>, killedTurn: bool)

  function Takeover(t: Tables, device: string, activeTurn: bool, run: Option<string>, order: seq<string>,
                    now: int): Tx<LeaseOutcome>
  {
    var g := t.lease.generation + 1;
    var state := if activeTurn then LeaseState.Pausing else LeaseState.Human;
    var t1 := t.(lease := Lease(g, state, Some(device), false, Some(now), Some(now), now));
    var t2 := RetireAll(t1, order, LeaseTakeover, None, now);
    if t2.Err? then Rollback(t, t2.error) else
    var t3 := LeaseRow(t2.value, run, "lease.takeover", g);
    if t3.Err? then Rollback(t, t3.error) else
    Tx(t3.value, Ok(LeaseOutcome(order, activeTurn)))
  }

  /** The holder's fenced moves. */
  datatype HolderMove = TakeoverAck | PrivateBegin | PrivateEnd | ResumeAgent | Heartbeat

  function MoveName(m: HolderMove): string {
    match m
    case TakeoverAck => "lease.takeover_ack"
    case PrivateBegin => "lease.private_begin"
    case PrivateEnd => "lease.private_end"
    case ResumeAgent => "lease.resume"
    case Heartbeat => "lease.heartbeat"
  }

  predicate MoveAllowed(m: HolderMove, l: Lease) {
    match m
    case TakeoverAck => l.state.Pausing?
    case PrivateBegin => l.state.Human? && !l.bracket
    case PrivateEnd => l.state.Human? && l.bracket
    case ResumeAgent => l.state.Human? && !l.bracket
    case Heartbeat => l.state.Human? || l.state.Resuming? || l.state.Paused?
  }

  function Moved(m: HolderMove, l: Lease, now: int): Lease {
    var beat := l.(heartbeat := Some(now), updated := now);
    match m
    case TakeoverAck => beat.(generation := l.generation + 1, state := LeaseState.Human)
    case PrivateBegin => beat.(generation := l.generation + 1, bracket := true)
    case PrivateEnd => beat.(generation := l.generation + 1, bracket := false)
    case ResumeAgent => beat.(generation := l.generation + 1, state := LeaseState.Resuming)
    case Heartbeat => beat
  }

  function Hold(t: Tables, m: HolderMove, device: string, expected: nat, run: Option<string>, now: int): Tx<Lease> {
    var l := AutoRelease(t.lease, now);
    if expected != l.generation then Rollback(t, StaleLease)
    else if l.holder != Some(device) then Rollback(t, NotHolder)
    else if !MoveAllowed(m, l) then Rollback(t, WrongState)
    else
      var l' := Moved(m, l, now);
      var t1 := if m.Heartbeat? then Ok(t.(lease := l'))
          else LeaseRow(t.(lease := l'), run, MoveName(m), l'.generation);
      if t1.Err? then Rollback(t, t1.error) else Tx(t1.value, Ok(l'))
  }

  /** The kill switch: settle every pending approval, then release the lease. */
  function RevokeLease(t: Tables, device: string, expected: nat, run: Option<string>, order: seq<string>,
                       now: int): Tx<LeaseOutcome>
  {
    var l := AutoRelease(t.lease, now);
    if expected != l.generation then Rollback(t, StaleLease) else
    var t1 := RetireAll(t.(lease := l), order, LeaseRevoked, None, now);
    if t1.Err? then Rollback(t, t1.error) else
    var t2 := LeaseRow(t1.value.(lease := Unheld(l.generation + 1, now)), run, "lease.released", l.generation + 1);
    if t2.Err? then Rollback(t, t2.error) else
    Tx(t2.value, Ok(LeaseOutcome(order, l.state.Pausing?)))
  }

  /** The worker's re-observation: resuming to agent. */
  function NoteObserved(t: Tables, run: string, now: int): Result<Tables, DbError> {
    var l := AutoRelease(t.lease, now);
    if !l.state.Resuming? then Err(WrongState) else
    var g := l.generation + 1;
    var t1 :- LeaseRow(t.(lease := Unheld(g, now)), Some(run), "lease.observed", g);
    LeaseRow(t1, Some(run), "lease.resumed", g)
  }

  // ----- approvals -----

  function Lookup(es: seq<Json.Entry<Json.Json>>, key: string): Option<Json.Json> {
    if es == [] then None else if es[0].key == key then Some(es[0].value) else Lookup(es[1..], key)
  }

  predicate BoundedText(v: Option<Json.Json>, max: nat) {
    v.Some? && v.value.String? && 1 <= |v.value.text| <= max
  }

  predicate ScalarArgument(v: Json.Json) {
    !v.Array? && !v.Object? && (v.String? ==> |v.text| <= 2048)
  }

  /** `validate_proposal`: exactly a tool, a target and a flat object of arguments, bounded. */
  predicate ValidAction(action: Json.Json) {
    && Json.WellFormed(action) && action.Object?
    && (forall i | 0 <= i < |action.entries| :: action.entries[i].key in {"tool", "target", "arguments"})
    && BoundedText(Lookup(action.entries, "tool"), 64)
    && BoundedText(Lookup(action.entries, "target"), 512)
    && var args := Lookup(action.entries, "arguments");
    && args.Some? && args.value.Object? && |args.value.entries| <= 16
    && forall i | 0 <= i < |args.value.entries| :: ScalarArgument(args.value.entries[i].value)
  }

  /** A worker's proposal; the service stores the canonical text and its digest. */
  function Propose(hash: string -> string, t: Tables, id: string, run: string, generation: nat,
                   action: Json.Json, description: string, ttl: int, now: int): Tx<int>
  {
    if !ValidAction(action) || description == "" || |description| > 512 || !(1 <= ttl <= 300_000)
    then Rollback(t, MalformedProposal)
    else if run !in t.runs then Rollback(t, RunNotFound)
    else if t.runs[run].generation != generation then Rollback(t, StaleGeneration)
    else if exists a | a in t.approvals :: t.approvals[a].run == run && t.approvals[a].state.Pending?
    then Rollback(t, PendingExists)
    else if !t.runs[run].status.Running? then Rollback(t, RunNotActive)
    else if id in t.approvals then Rollback(t, DuplicateApproval)
    else
      var text := Json.Canonical(action);
      var a := Approval(run, hash(text), text, description, t.grant, t.lease.generation, now + ttl, now,
                        Pending, None, None, None, None, None);
      var t1 := SetStatus(PutApproval(t, id, a), run, WaitingApproval);
      Tx(AddApprovalRow(t1, run, id, "approval.requested"), Ok(now + ttl))
  }

  /** What a blocked worker is told. */
  datatype Outcome = WasApproved(ticket: string) | WasDenied | WasExpired | WasRevoked

  function ActionIntact(hash: string -> string, a: Approval): Option<bool> {
    var v := Json.Parse(a.actionJson);
    if v.None? then None else Some(hash(Json.Canonical(v.value)) == a.digest)
  }

  function Ruled(hash: string -> string, a: Approval, device: string, approve: bool, token: string,
                 now: int): Approval
  {
    var decided := a.(decidedBy := Some(device), decidedAt := Some(now));
    if approve then decided.(state := Approved, ticketHash := Some(hash(token))) else decided.(state := Denied)
  }

  /** Write a decided row: its run resumes, the decision is journalled, a denial gets its step. */
  function Conclude(t: Tables, id: string, b: Approval): Tables
    requires b.run in t.runs
  {
    var t1 := PutApproval(t, id, b);
    var t2 := if t.runs[b.run].status.WaitingApproval? then SetStatus(t1, b.run, Running) else t1;
    var t3 := AddApprovalRow(t2, b.run, id, "approval.settled");
    if b.state.Denied? then AddServiceStep(t3, id, b, StepDenied) else t3
  }

  /** `decide_approval`. The result is the outcome the decision carries to the worker. Lazy
      expiry and a digest mismatch commit although the decision fails. */
  function Decide(hash: string -> string, t: Tables, id: string, device: string, approve: bool,
                  seenGeneration: nat, token: string, now: int): Tx<Outcome>
  {
    var expired := Expire(t, id, now);
    if expired.Err? then Rollback(t, expired.error) else
    var t1 := expired.value.0;
    if id !in t1.approvals then Rollback(t, ApprovalNotFound) else
    var a := t1.approvals[id];
    if a.state.Expired? then Tx(t1, Err(if expired.value.1 then ApprovalExpired else AlreadySettled(Expired)))
    else if !a.state.Pending? then Rollback(t, AlreadySettled(a.state)) else
    var intact := ActionIntact(hash, a);
    if intact.None? then Rollback(t, UnparseableAction)
    else if !intact.value then
      var t2 := Retire(t1, id, DigestMismatch, Some(device), now);
      if t2.Err? then Rollback(t, t2.error) else Tx(t2.value, Err(DigestChanged))
    else if seenGeneration != t1.lease.generation || a.leaseGeneration != t1.lease.generation
        then Rollback(t, StaleLease)
    else if a.grant != t1.grant then Rollback(t, StaleGrant)
    else if a.run !in t1.runs then Rollback(t, RunNotFound)
    else if !(t1.runs[a.run].status in {WaitingApproval, Interrupted}) then Rollback(t, RunNotWaiting)
    else Tx(Conclude(t1, id, Ruled(hash, a, device, approve, token, now)),
            Ok(if approve then WasApproved(token) else WasDenied))
  }

  /** Whether the row was still pending, and whether its ticket had been used. */
  datatype Revocation = Revocation(wasPending: bool, alreadyDispatched: bool)

  function RevokeApproval(t: Tables, id: string, device: string, now: int): Tx<Revocation> {
    var expired := Expire(t, id, now);
    if expired.Err? then Rollback(t, expired.error) else
    var t1 := expired.value.0;
    if id !in t1.approvals then Rollback(t, ApprovalNotFound) else
    var a := t1.approvals[id];
    if a.state.Expired? && expired.value.1 then Tx(t1, Err(ApprovalExpired))
    else if !a.state.Pending? && !a.state.Approved? then Rollback(t, AlreadySettled(a.state))
    else if a.run !in t1.runs then Rollback(t, RunNotFound)
    else
      var t2 := PutApproval(t1, id, a.(state := Revoked, reason := Some(UserRevoked),
                                       decidedBy := Some(device), decidedAt := Some(now)));
      var t3 := AddApprovalRow(t2, a.run, id, "approval.revoked");
      Tx(if a.consumedAt.Some? then t3 else AddServiceStep(t3, id, a, StepCancelled),
         Ok(Revocation(a.state.Pending?, a.consumedAt.Some?)))
  }

  /** Reading one approval expires it first. */
  function GetApproval(t: Tables, id: string, now: int): Tx<bool> {
    var r := Expire(t, id, now);
    if r.Err? then Rollback(t, r.error) else Tx(r.value.0, Ok(id in r.value.0.approvals))
  }

  function Sweep(t: Tables, order: seq<string>, now: int): Tx<seq<string>> {
    var r := ExpireAll(t, order, now);
    if r.Err? then Rollback(t, r.error) else Tx(r.value, Ok(order))
  }

  /** `claim_ticket_locked`: a single-use redemption by the run the approval belongs to. */
  function Claim(hash: string -> string, t: Tables, run: string, id: string, ticket: string,
                 now: int): Result<Tables, DbError>
  {
    if id !in t.approvals then Err(UnknownApproval) else
    var a := t.approvals[id];
    if a.run != run then Err(TicketMismatch)
    else if !a.state.Approved? || a.ticketHash.None? then Err(NotApproved)
    else if a.consumedAt.Some? then Err(TicketReused)
    else if hash(ticket) != a.ticketHash.value then Err(TicketMismatch)
    else Ok(PutApproval(t, id, a.(consumedAt := Some(now))))
  }

  // ----- restart and device revocation -----

  predicate InFlight(s: RunStatus) {
    s in {Starting, Running, WaitingApproval, WaitingHuman, Cancelling, Reconciling}
  }

  /** `mark_interrupted_on_startup`; the milestone rows are inserted in the order given. */
  function InterruptRuns(t: Tables, order: seq<string>): Tables {
    if order == [] then t else
    var t1 := InterruptRuns(t, order[..|order| - 1]);
    var run := order[|order| - 1];
    AddMilestone(SetStatus(t1, run, Interrupted), run, "run.interrupted")
  }

  function InFlightIds(t: Tables): set<string> {
    set r | r in t.runs && InFlight(t.runs[r].status)
  }

  function OrphanIds(t: Tables): set<string> {
    set id | id in PendingIds(t) && t.approvals[id].run in t.runs && t.runs[t.approvals[id].run].status.Interrupted?
  }

  function FailRuns(t: Tables, ids: seq<string>, now: int): Result<Tables, DbError> {
    if ids == [] then Ok(t) else
    var t1 :- FailRuns(t, ids[..|ids| - 1], now);
    var id := ids[|ids| - 1];
    var t2 :- Retire(t1, id, ServiceRestart, None, now);
    Ok(SetStatus(t2, t1.approvals[id].run, Interrupted))
  }

  /** The three query results of startup recovery, in the order the code runs them. */
  datatype RecoveryPlan = RecoveryPlan(orphaned: seq<string>, due: seq<string>, survivors: seq<string>)

  /** How many rows recovery revoked and expired. */
  datatype Recovery = Recovery(revoked: nat, expired: nat, generation: nat)

  function Released(t: Tables, now: int): Tables {
    t.(lease := Unheld(t.lease.generation + 1, now))
  }

  function Recover(t: Tables, p: RecoveryPlan, now: int): Tx<Recovery> {
    var t1 := RetireAll(Released(t, now), p.orphaned, ServiceRestart, None, now);
    if t1.Err? then Rollback(t, t1.error) else
    var t2 := ExpireAll(t1.value, p.due, now);
    if t2.Err? then Rollback(t, t2.error) else
    var t3 := FailRuns(t2.value, p.survivors, now);
    if t3.Err? then Rollback(t, t3.error) else
    Tx(t3.value, Ok(Recovery(|p.orphaned| + |p.survivors|, |p.due|, t.lease.generation + 1)))
  }

  ghost predicate RecoveryListing(t: Tables, p: RecoveryPlan, now: int) {
    && Listing(p.orphaned, OrphanIds(t))
    && var t1 := RetireAll(Released(t, now), p.orphaned, ServiceRestart, None, now);
    && (t1.Ok? ==> Listing(p.due, DueIds(t1.value, now)))
    && (t1.Ok? ==> var t2 := ExpireAll(t1.value, p.due, now);
                   t2.Ok? ==> Listing(p.survivors, PendingIds(t2.value)))
  }

  /** The approvals settled, and whether the device held the lease. */
  datatype DeviceRevocation = DeviceRevocation(settled: seq<string>, leaseKilled: bool)

  function RevokeDevice(t: Tables, device: string, order: seq<string>, now: int): Tx<DeviceRevocation> {
    if device !in t.devices then Rollback(t, UnknownDevice) else
    var t1 := RetireAll(t.(grant := t.grant + 1), order, DeviceRevoked, None, now);
    if t1.Err? then Rollback(t, t1.error) else
    var killed := t.lease.holder == Some(device);
    Tx(if killed then Released(t1.value, now) else t1.value, Ok(DeviceRevocation(order, killed)))
  }
}
