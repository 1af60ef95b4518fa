/** What every snapshot the journal can write satisfies, and that the validator accepts it. */
module JournalProofs {
  import opened Wrappers
  import opened JournalModel

  // ----- tickets -----

  predicate Ascending(ts: seq<U64>) {
    forall i, j | 0 <= i < j < |ts| :: ts[i] < ts[j]
  }

  function ResultTickets(rs: seq<Settled>): (ts: seq<U64>)
    ensures |ts| == |rs| && forall i | 0 <= i < |rs| :: ts[i] == rs[i].ticket
  {
    seq(|rs|, i requires 0 <= i < |rs| => rs[i].ticket)
  }

  function ResolutionTickets(rs: seq<Resolution>): (ts: seq<U64>)
    ensures |ts| == |rs| && forall i | 0 <= i < |rs| :: ts[i] == rs[i].ticket
  {
    seq(|rs|, i requires 0 <= i < |rs| => rs[i].ticket)
  }

  /** Settled and resolved tickets: each list strictly increasing, no ticket in both, all
      already issued, and all older than the pending one. */
  predicate TicketOrder(s: Snapshot) {
    var a, b := ResultTickets(s.results), ResolutionTickets(s.resolutions);
    && Ascending(a) && Ascending(b)
    && (forall t | t in a :: t !in b)
    && (forall t | t in a + b :: t <= s.sequence && (s.pending.Some? ==> t < s.pending.value))
  }

  /** A scoped action, proposed or live, always finds room in the 64-entry result index. */
  predicate HasRoom(s: Snapshot) {
    |s.results| <= 64 && (s.approval.Some? || s.pendingScope.Some? ==> |s.results| < 64)
  }

  /** The invariant of every snapshot written to the file. */
  predicate Inv(env: Env, s: Snapshot) {
    && s.version == 6
    && !s.mode.UnknownMode?
    && (s.decision.Some? ==> !s.decision.value.UnknownDecision?)
    && (s.observation.Some? ==> ValidDigest(s.observation.value))
    && ValidRequests(s, s)
    && ValidApproval(env, s)
    && ValidPending(s)
    && (s.uncertain ==> s.mode in {Paused, Cancelled})
    && HasRoom(s)
    && TicketOrder(s)
  }

  /** The agent may act, or is waiting for a decision on an action of its own. */
  predicate AgentTurn(s: Snapshot) {
    s.mode in {Agent, AwaitingApproval}
  }

  /** How one written snapshot follows another, as far as tickets are concerned: the pending
      ticket stays with the same payload, or is gone, or is a brand-new undispatched one; a
      ticket whose fate is uncertain is not dispatched and does not become certain again. */
  predicate Follows(p: Snapshot, n: Snapshot) {
    && n.sequence == p.sequence + 1
    && (|| n.pending.None?
        || (n.pending == Some(n.sequence) && !n.dispatched && p.pending.None?)
        || (&& n.pending == p.pending && n.pendingDigest == p.pendingDigest && n.pendingScope == p.pendingScope
            && (p.dispatched ==> n.dispatched)
            && (p.uncertain ==> n.uncertain && n.dispatched == p.dispatched)))
    && p.requests <= n.requests && p.results <= n.results && p.resolutions <= n.resolutions
    && (AgentTurn(n) && !AgentTurn(p) ==> p.mode.Resuming? && n.observation.Some? && n.pending.None?)
  }

  /** The three facts proved of every line the journal writes. */
  predicate Good(env: Env, p: Snapshot, n: Snapshot) {
    ValidLine(env, p, n) && Inv(env, n) && Follows(p, n)
  }

  predicate CanStep(env: Env, now: Option<U64>, s: Snapshot, c: Command) {
    Transition(env, now, s, c).Ok? && s.sequence + 1 < 0x1_0000_0000_0000_0000
  }

  function Numbered(s: Snapshot, n: U64): Snapshot {
    s.(sequence := n)
  }

  lemma InitialInv(env: Env)
    ensures Inv(env, Initial())
  {
  }

  // ----- one lemma per group of commands -----

  /** Ticket order survives a step that keeps both ledgers and issues at most a fresh ticket. */
  lemma OrderKept(p: Snapshot, n: Snapshot)
    requires TicketOrder(p) && n.sequence == p.sequence + 1
    requires n.results == p.results && n.resolutions == p.resolutions
    requires n.pending.None? || n.pending == p.pending || n.pending == Some(n.sequence)
    ensures TicketOrder(n)
  {
  }

  lemma ProposeGood(env: Env, now: Option<U64>, s: Snapshot, c: Command)
    requires env.Ok() && Inv(env, s) && c.Propose? && CanStep(env, now, s, c)
    ensures Good(env, s, Numbered(Transition(env, now, s, c).value, s.sequence + 1))
  {
    var n := Numbered(Transition(env, now, s, c).value, s.sequence + 1);
    assert LowerHex64(env.hash(OfAction(c.action.encoded))) && LowerHex64(env.hash(OfScope(c.scope)));
    assert n.requests[|s.requests|] == ScopeDigest(env, c.scope);
    OrderKept(s, n);
  }

  lemma DecideGood(env: Env, now: Option<U64>, s: Snapshot, c: Command)
    requires env.Ok() && Inv(env, s) && c.Decide? && CanStep(env, now, s, c)
    ensures Good(env, s, Numbered(Transition(env, now, s, c).value, s.sequence + 1))
  {
    assert LowerHex64(env.hash(OfScope(c.scope)));
    OrderKept(s, Numbered(Transition(env, now, s, c).value, s.sequence + 1));
  }

  lemma AdmitDispatchGood(env: Env, now: Option<U64>, s: Snapshot, c: Command)
    requires env.Ok() && Inv(env, s) && (c.Admit? || c.Dispatch?) && CanStep(env, now, s, c)
    ensures Good(env, s, Numbered(Transition(env, now, s, c).value, s.sequence + 1))
  {
    assert LowerHex64(env.hash(OfAction(c.action.encoded)));
    OrderKept(s, Numbered(Transition(env, now, s, c).value, s.sequence + 1));
  }

  /** Closing the pending ticket into either ledger keeps the order. */
  lemma OrderAppended(a: seq<U64>, b: seq<U64>, t: U64, n: U64)
    requires Ascending(a) && (forall x | x in a :: x !in b) && (forall x | x in a + b :: x <= n && x < t) && t <= n
    ensures Ascending(a + [t]) && (forall x | x in a + [t] :: x !in b && x <= n + 1)
  {
    assert forall x | x in b :: x in a + b;
    assert forall i | 0 <= i < |a| :: a[i] in a + b;
  }

  lemma SettleOrder(s: Snapshot, n: Snapshot, r: Settled)
    requires TicketOrder(s) && s.pending == Some(r.ticket) && r.ticket <= s.sequence
    requires n.results == s.results + [r] && n.resolutions == s.resolutions
    requires n.pending.None? && n.sequence == s.sequence + 1
    ensures TicketOrder(n)
  {
    var a, b := ResultTickets(s.results), ResolutionTickets(s.resolutions);
    OrderAppended(a, b, r.ticket, s.sequence);
    assert ResultTickets(n.results) == a + [r.ticket];
    assert forall x | x in (a + [r.ticket]) + b :: x in a + b || x == r.ticket;
  }

  lemma SettleGood(env: Env, now: Option<U64>, s: Snapshot, c: Command)
    requires env.Ok() && Inv(env, s) && c.Settle? && CanStep(env, now, s, c)
    ensures Good(env, s, Numbered(Transition(env, now, s, c).value, s.sequence + 1))
  {
    var n := Numbered(Transition(env, now, s, c).value, s.sequence + 1);
    if c.result.None? {
      OrderKept(s, n);
    } else {
      SettleOrder(s, n, n.results[|s.results|]);
    }
  }

  lemma ResolveOrder(s: Snapshot, n: Snapshot, r: Resolution)
    requires TicketOrder(s) && s.pending == Some(r.ticket) && r.ticket <= s.sequence
    requires n.results == s.results && n.resolutions == s.resolutions + [r]
    requires n.pending.None? && n.sequence == s.sequence + 1
    ensures TicketOrder(n)
  {
    var a, b := ResultTickets(s.results), ResolutionTickets(s.resolutions);
    assert forall x | x in b + a :: x in a + b;
    OrderAppended(b, a, r.ticket, s.sequence);
    assert ResolutionTickets(n.resolutions) == b + [r.ticket];
    assert forall x | x in a + (b + [r.ticket]) :: x in a + b || x == r.ticket;
  }

  /** Resolving closes the pending ticket; used for the command and for the validator. */
  lemma ResolveGood(env: Env, s: Snapshot, r: Resolution)
    requires Inv(env, s) && ResolveState(s, r).Ok? && s.sequence + 1 < 0x1_0000_0000_0000_0000
    ensures Good(env, s, Numbered(ResolveState(s, r).value, s.sequence + 1))
  {
    var n := Numbered(ResolveState(s, r).value, s.sequence + 1);
    ResolveOrder(s, n, r);
    assert n.resolutions[|n.resolutions| - 1] == r && ValidResolutionStep(s, n);
  }

  lemma ScreenGood(env: Env, now: Option<U64>, s: Snapshot, c: Command)
    requires env.Ok() && Inv(env, s) && CanStep(env, now, s, c)
    requires c.PrivateBegin? || c.PrivateEnd? || c.HumanReady? || c.Resume? || c.Observed?
    ensures Good(env, s, Numbered(Transition(env, now, s, c).value, s.sequence + 1))
  {
    OrderKept(s, Numbered(Transition(env, now, s, c).value, s.sequence + 1));
  }

  lemma TakeoverGood(env: Env, now: Option<U64>, s: Snapshot, c: Command)
    requires env.Ok() && Inv(env, s) && CanStep(env, now, s, c) && c.Takeover?
    ensures Good(env, s, Numbered(Transition(env, now, s, c).value, s.sequence + 1))
  {
    OrderKept(s, Numbered(Transition(env, now, s, c).value, s.sequence + 1));
  }

  lemma LeaveGood(env: Env, now: Option<U64>, s: Snapshot, c: Command)
    requires env.Ok() && Inv(env, s) && CanStep(env, now, s, c) && (c.Disconnect? || c.Cancel?)
    ensures Good(env, s, Numbered(Transition(env, now, s, c).value, s.sequence + 1))
  {
    OrderKept(s, Numbered(Transition(env, now, s, c).value, s.sequence + 1));
  }

  /** The writer never produces a line its own validator would refuse. */
  lemma CommandGood(env: Env, now: Option<U64>, s: Snapshot, c: Command)
    requires env.Ok() && Inv(env, s) && CanStep(env, now, s, c)
    ensures Good(env, s, Numbered(Transition(env, now, s, c).value, s.sequence + 1))
  {
    match c
    case Propose(_, _, _, _, _) => ProposeGood(env, now, s, c);
    case Decide(_, _, _, _) => DecideGood(env, now, s, c);
    case Admit(_, _, _) => AdmitDispatchGood(env, now, s, c);
    case Dispatch(_, _, _, _) => AdmitDispatchGood(env, now, s, c);
    case Settle(_, _, _) => SettleGood(env, now, s, c);
    case Reconcile(_, _, _, _, _, _, _, _, _, _) =>
      ResolveGood(env, s, Resolution(c.reviewId, c.reviewer, c.sequence, c.generation, c.ticket,
        env.hash(OfAction(c.action.encoded)), ScopeDigest(env, c.scope), c.scope.worker, c.workerAbsent,
        c.outcome, c.result));
    case Takeover => TakeoverGood(env, now, s, c);
    case Disconnect => LeaveGood(env, now, s, c);
    case Cancel => LeaveGood(env, now, s, c);
    case _ => ScreenGood(env, now, s, c);
  }

  /** Nor does recovery, from any snapshot the writer produced. */
  lemma RecoveredGood(env: Env, s: Snapshot)
    requires Inv(env, s) && Recovered(s).Ok? && s.sequence + 1 < 0x1_0000_0000_0000_0000
    ensures Good(env, s, Numbered(Recovered(s).value, s.sequence + 1))
    ensures var n := Recovered(s).value;
            n.pending == s.pending && n.uncertain == s.pending.Some? && n.dispatched == s.dispatched
  {
    OrderKept(s, Numbered(Recovered(s).value, s.sequence + 1));
  }

  /** An empty file is opened by writing the initial snapshot itself. */
  lemma FirstLineGood(env: Env)
    ensures Good(env, Initial(), Numbered(Initial(), 1))
  {
  }

  /** A live scoped ticket can always be settled with a valid result: the index is never full. */
  lemma SettleNeverLacksRoom(env: Env, now: Option<U64>, s: Snapshot, ticket: U64, action: Action, result: ResultRef)
    requires Inv(env, s)
    requires s.pending == Some(ticket) && s.pendingScope.Some? && s.dispatched && !s.uncertain
    requires ActionDigest(env, action).Ok? && s.pendingDigest == Some(ActionDigest(env, action).value)
    ensures Transition(env, now, s, Settle(ticket, action, Some(result))).Ok? <==> ValidRef(result)
  {
  }
}
