/** The durable control journal: snapshots, commands, the transition each command makes,
    and the separately written validator that replays a journal file.
    Models crates/agentmeld-m0/src/durable.rs. */
module JournalModel {
  import opened Wrappers
  import opened Text

  // ----- data -----

  datatype Mode =
    | Agent | AwaitingApproval | Pausing | Human | Resuming | Paused | Cancelled
    | UnknownMode(text: string)

  datatype Decision = Allow | Deny | Expired | UnknownDecision(text: string)

  datatype Scope = Scope(workspace: string, worker: string, thread: string, turn: string, request: string)

  /** A JSON action: its encoding and the three facts the journal reads from it. */
  datatype Action = Action(isObject: bool, encoded: seq<bv8>, provider: Option<string>, target: Option<string>)

  datatype Approval = Approval(
    id: U64, generation: U64, expiresAt: U64, scope: Scope, digest: string, resultRequired: bool)

  datatype ResultRef = ResultRef(sha256: string, bytes: U64)

  datatype Settled = Settled(ticket: U64, actionDigest: string, scopeDigest: string, result: ResultRef)

  datatype Outcome = AcceptOutput | CloseUnknown

  datatype Resolution = Resolution(
    reviewId: string, reviewer: string, reviewedSequence: U64, reviewedGeneration: U64, ticket: U64,
    actionDigest: string, scopeDigest: string, worker: string, workerAbsent: bool,
    outcome: Outcome, result: Option<ResultRef>)

  datatype Snapshot = Snapshot(
    version: nat, sequence: U64, generation: U64, mode: Mode,
    pending: Option<U64>, pendingDigest: Option<string>, pendingScope: Option<string>,
    resultRequired: bool, results: seq<Settled>, resolutions: seq<Resolution>,
    dispatched: bool, uncertain: bool, observation: Option<string>,
    approval: Option<Approval>, decision: Option<Decision>, requests: seq<string>, private: bool)

  datatype Command =
    | Propose(generation: U64, action: Action, scope: Scope, ttl: U64, resultRequired: bool)
    | Decide(approvalId: U64, action: Action, scope: Scope, allow: bool)
    | Admit(generation: U64, actor: string, action: Action)
    | Dispatch(generation: U64, actor: string, ticket: U64, action: Action)
    | Settle(ticket: U64, action: Action, result: Option<ResultRef>)
    | Reconcile(sequence: U64, generation: U64, ticket: U64, action: Action, scope: Scope,
                reviewId: string, reviewer: string, workerAbsent: bool,
                outcome: Outcome, result: Option<ResultRef>)
    | PrivateBegin(generation: U64)
    | PrivateEnd(generation: U64)
    | Takeover
    | HumanReady(generation: U64)
    | Resume(generation: U64)
    | Observed(generation: U64, digest: string)
    | Disconnect
    | Cancel

  datatype JournalError =
    | StaleOrUnresolved | InvalidProposal | DuplicateOrExhaustedRequest | SequenceExhausted
    | GenerationExhausted | ClockUnavailable | ExpiryOverflow | ActionTooLarge | NoPendingApproval
    | BindingMismatch | InvalidActor | PendingOrPrivate | ObjectRequired | TicketMismatch
    | UnknownTicket | ResultRequired | UnscopedResult | InvalidResultIndex | InvalidReconcileScope
    | StaleReconciliation | InvalidOutcome | PrivateUnavailable | TakeoverUnavailable
    | NotSettled | ScreenPrivate | ObservationRequired
    | Poisoned | LimitExceeded | PersistFailed | Incomplete | InvalidHistory | DirectorySync

  /** What SHA-256 is applied to. */
  datatype Preimage = OfAction(encoded: seq<bv8>) | OfScope(scope: Scope)

  /** The environment: the hash, and the encoded length of a snapshot line. Every statement
      holds for every hash that prints 64 lower-case hex digits. */
  datatype Env = Env(hash: Preimage -> string, size: Snapshot -> nat) {
    ghost predicate Ok() {
      forall p :: LowerHex64(hash(p))
    }
  }

  // ----- text rules -----

  predicate HexDigit(c: char) {
    '0' <= c <= '9' || 'a' <= c <= 'f' || 'A' <= c <= 'F'
  }

  predicate ValidDigest(s: string) {
    |s| == 64 && forall i | 0 <= i < |s| :: HexDigit(s[i])
  }

  predicate NoUpper(s: string) {
    forall i | 0 <= i < |s| :: !('A' <= s[i] <= 'Z')
  }

  predicate LowerHex64(s: string) {
    ValidDigest(s) && NoUpper(s)
  }

  predicate Control(c: char) {
    c as int < 0x20 || 0x7F <= c as int <= 0x9F
  }

  predicate ValidPart(s: string) {
    s != [] && Utf8Len(s) <= 256
  }

  predicate ValidScope(s: Scope) {
    ValidPart(s.workspace) && ValidPart(s.worker) && ValidPart(s.thread) && ValidPart(s.turn) && ValidPart(s.request)
  }

  predicate ValidRef(r: ResultRef) {
    LowerHex64(r.sha256) && 0 < r.bytes <= 512 * 1024
  }

  // ----- the writer -----

  function Initial(): Snapshot {
    Snapshot(6, 0, 0, Agent, None, None, None, false, [], [], false, false, None, None, None, [], false)
  }

  function Inc(n: U64, e: JournalError): Result<U64, JournalError> {
    match CheckedAdd(n, 1) case Some(m) => Ok(m) case None => Err(e)
  }

  function Check(ok: bool, e: JournalError): Result<bool, JournalError> {
    if ok then Ok(true) else Err(e)
  }

  function ActionDigest(env: Env, a: Action): Result<string, JournalError> {
    if |a.encoded| > 8192 then Err(ActionTooLarge) else Ok(env.hash(OfAction(a.encoded)))
  }

  function ScopeDigest(env: Env, s: Scope): string {
    env.hash(OfScope(s))
  }

  function Require(s: Snapshot, mode: Mode, generation: U64): Result<bool, JournalError> {
    Check(s.mode == mode && s.generation == generation && !s.uncertain, StaleOrUnresolved)
  }

  function ActorMode(actor: string): Result<Mode, JournalError> {
    if actor == "agent" then Ok(Agent) else if actor == "human" then Ok(Human) else Err(InvalidActor)
  }

  function ClearPending(s: Snapshot): Snapshot {
    s.(pending := None, pendingDigest := None, pendingScope := None, resultRequired := false)
  }

  function RevokeUndispatched(s: Snapshot): Snapshot {
    var t := s.(approval := None);
    if !t.dispatched && !t.uncertain then ClearPending(t) else t
  }

  function ProposeStep(env: Env, now: Option<U64>, s: Snapshot, c: Command): Result<Snapshot, JournalError>
    requires c.Propose?
  {
    var _ :- Require(s, Agent, c.generation);
    var _ :- Check(s.pending.None? && s.approval.None? && c.action.isObject && 0 < c.ttl <= 300_000
                   && ValidScope(c.scope) && |s.results| < 64, InvalidProposal);
    var key := ScopeDigest(env, c.scope);
    var _ :- Check(key !in s.requests && |s.requests| < 256, DuplicateOrExhaustedRequest);
    var id :- Inc(s.sequence, SequenceExhausted);
    if now.None? then Err(ClockUnavailable) else
    var expires := CheckedAdd(now.value, c.ttl);
    if expires.None? then Err(ExpiryOverflow) else
    var digest :- ActionDigest(env, c.action);
    Ok(s.(requests := s.requests + [key], decision := None, mode := AwaitingApproval,
          approval := Some(Approval(id, c.generation, expires.value, c.scope, digest, c.resultRequired))))
  }

  function DecideStep(env: Env, now: Option<U64>, s: Snapshot, c: Command): Result<Snapshot, JournalError>
    requires c.Decide?
  {
    if s.approval.None? then Err(NoPendingApproval) else
    var a := s.approval.value;
    var _ :- Require(s, AwaitingApproval, a.generation);
    var _ :- Check(a.id == c.approvalId && a.scope == c.scope, BindingMismatch);
    var digest :- ActionDigest(env, c.action);
    var _ :- Check(a.digest == digest, BindingMismatch);
    if now.None? then Err(ClockUnavailable) else
    var expired := now.value >= a.expiresAt;
    var t := s.(decision := Some(if expired then Expired else if c.allow then Allow else Deny),
                approval := None, mode := Agent);
    if c.allow && !expired then
      var id :- Inc(s.sequence, SequenceExhausted);
      Ok(t.(pending := Some(id), pendingDigest := Some(a.digest), pendingScope := Some(ScopeDigest(env, a.scope)),
            resultRequired := a.resultRequired, dispatched := false))
    else Ok(t)
  }

  function AdmitStep(env: Env, s: Snapshot, c: Command): Result<Snapshot, JournalError>
    requires c.Admit?
  {
    var mode :- ActorMode(c.actor);
    var _ :- Require(s, mode, c.generation);
    var _ :- Check(s.pending.None? && !s.private, PendingOrPrivate);
    var _ :- Check(c.action.isObject, ObjectRequired);
    var id :- Inc(s.sequence, SequenceExhausted);
    var digest :- ActionDigest(env, c.action);
    Ok(s.(pending := Some(id), pendingDigest := Some(digest), dispatched := false))
  }

  function DispatchStep(env: Env, s: Snapshot, c: Command): Result<Snapshot, JournalError>
    requires c.Dispatch?
  {
    var mode :- ActorMode(c.actor);
    var _ :- Require(s, mode, c.generation);
    var _ :- Check(s.pending == Some(c.ticket) && !s.dispatched, TicketMismatch);
    var digest :- ActionDigest(env, c.action);
    var _ :- Check(s.pendingDigest == Some(digest), TicketMismatch);
    Ok(s.(dispatched := true))
  }

  function SettleStep(env: Env, s: Snapshot, c: Command): Result<Snapshot, JournalError>
    requires c.Settle?
  {
    var _ :- Check(s.pending == Some(c.ticket) && !s.uncertain && s.dispatched, UnknownTicket);
    var digest :- ActionDigest(env, c.action);
    var _ :- Check(s.pendingDigest == Some(digest), UnknownTicket);
    var _ :- Check(!(s.resultRequired && c.result.None?), ResultRequired);
    var cleared := ClearPending(s).(dispatched := false);
    if c.result.None? then Ok(cleared) else
    if s.pendingScope.None? then Err(UnscopedResult) else
    var _ :- Check(ValidRef(c.result.value) && |s.results| < 64, InvalidResultIndex);
    Ok(cleared.(results := s.results + [Settled(c.ticket, digest, s.pendingScope.value, c.result.value)]))
  }

  /** `resolve_state`, shared by the Reconcile command and by the validator. */
  function ResolveState(s: Snapshot, r: Resolution): Result<Snapshot, JournalError> {
    var _ :- Check(
      && s.mode in {Paused, Cancelled} && s.dispatched && s.resultRequired
      && s.pending == Some(r.ticket) && s.pendingDigest == Some(r.actionDigest)
      && s.pendingScope == Some(r.scopeDigest)
      && s.sequence == r.reviewedSequence && s.generation == r.reviewedGeneration
      && r.workerAbsent && LowerHex64(r.worker) && LowerHex64(r.reviewId)
      && (exists i | 0 <= i < |r.reviewer| :: !Whitespace(r.reviewer[i]))
      && Utf8Len(r.reviewer) <= 128
      && (forall i | 0 <= i < |r.reviewer| :: !Control(r.reviewer[i]))
      && |s.resolutions| < 16
      && (forall i | 0 <= i < |s.resolutions| :: s.resolutions[i].reviewId != r.reviewId), StaleReconciliation);
    var _ :- Check(if r.outcome.AcceptOutput? then r.result.Some? && ValidRef(r.result.value) else r.result.None?,
                   InvalidOutcome);
    var generation :- Inc(s.generation, GenerationExhausted);
    Ok(ClearPending(s).(resolutions := s.resolutions + [r], dispatched := false, uncertain := false,
                        observation := None, generation := generation))
  }

  function ReconcileStep(env: Env, s: Snapshot, c: Command): Result<Snapshot, JournalError>
    requires c.Reconcile?
  {
    var _ :- Check(ValidScope(c.scope) && c.action.provider == Some("codex")
                   && c.action.target == Some(c.scope.worker), InvalidReconcileScope);
    var digest :- ActionDigest(env, c.action);
    ResolveState(s, Resolution(c.reviewId, c.reviewer, c.sequence, c.generation, c.ticket, digest,
                               ScopeDigest(env, c.scope), c.scope.worker, c.workerAbsent, c.outcome, c.result))
  }

  function PrivateStep(s: Snapshot, generation: U64, entering: bool): Result<Snapshot, JournalError> {
    var _ :- Require(s, Human, generation);
    var _ :- Check(s.pending.None? && s.private != entering, PrivateUnavailable);
    var g :- Inc(s.generation, GenerationExhausted);
    Ok(s.(private := entering, generation := g, observation := None))
  }

  function TakeoverStep(s: Snapshot): Result<Snapshot, JournalError> {
    var _ :- Check(s.mode in {Agent, Paused, AwaitingApproval} && !s.uncertain, TakeoverUnavailable);
    var g :- Inc(s.generation, GenerationExhausted);
    Ok(RevokeUndispatched(s.(generation := g)).(mode := Pausing))
  }

  function HumanReadyStep(s: Snapshot, generation: U64): Result<Snapshot, JournalError> {
    var _ :- Require(s, Pausing, generation);
    var _ :- Check(s.pending.None?, NotSettled);
    Ok(s.(mode := Human))
  }

  function ResumeStep(s: Snapshot, generation: U64): Result<Snapshot, JournalError> {
    var _ :- Require(s, Human, generation);
    var _ :- Check(!s.private, ScreenPrivate);
    var g :- Inc(s.generation, GenerationExhausted);
    Ok(s.(generation := g, mode := Resuming, observation := None))
  }

  function ObservedStep(s: Snapshot, generation: U64, digest: string): Result<Snapshot, JournalError> {
    var _ :- Require(s, Resuming, generation);
    var _ :- Check(s.pending.None? && ValidDigest(digest), ObservationRequired);
    Ok(s.(observation := Some(digest), mode := Agent))
  }

  function LeaveStep(s: Snapshot, cancel: bool): Result<Snapshot, JournalError> {
    var t := RevokeUndispatched(s);
    var g :- Inc(s.generation, GenerationExhausted);
    Ok(t.(generation := g, observation := None,
          mode := if cancel || s.mode.Cancelled? then Cancelled else Paused))
  }

  /** What a command makes of the current snapshot, before `persist` numbers it. */
  function Transition(env: Env, now: Option<U64>, s: Snapshot, c: Command): Result<Snapshot, JournalError> {
    match c
    case Propose(_, _, _, _, _) => ProposeStep(env, now, s, c)
    case Decide(_, _, _, _) => DecideStep(env, now, s, c)
    case Admit(_, _, _) => AdmitStep(env, s, c)
    case Dispatch(_, _, _, _) => DispatchStep(env, s, c)
    case Settle(_, _, _) => SettleStep(env, s, c)
    case Reconcile(_, _, _, _, _, _, _, _, _, _) => ReconcileStep(env, s, c)
    case PrivateBegin(g) => PrivateStep(s, g, true)
    case PrivateEnd(g) => PrivateStep(s, g, false)
    case Takeover => TakeoverStep(s)
    case HumanReady(g) => HumanReadyStep(s, g)
    case Resume(g) => ResumeStep(s, g)
    case Observed(g, d) => ObservedStep(s, g, d)
    case Disconnect => LeaveStep(s, false)
    case Cancel => LeaveStep(s, true)
  }

  /** The recovery snapshot `open` writes after replaying a non-empty file. */
  function Recovered(s: Snapshot): Result<Snapshot, JournalError> {
    var g :- Inc(s.generation, GenerationExhausted);
    Ok(s.(generation := g, mode := if s.mode.Cancelled? then Cancelled else Paused,
          uncertain := s.pending.Some?, observation := None, approval := None))
  }

  // ----- the validator, written separately from the writer -----

  predicate ValidResults(previous: Snapshot, next: Snapshot) {
    && |next.results| <= 64
    && previous.results <= next.results
    && |next.results| <= |previous.results| + 1
    && (|next.results| > |previous.results| ==>
          var added := next.results[|previous.results|];
          && previous.pending == Some(added.ticket)
          && previous.pendingDigest == Some(added.actionDigest)
          && previous.pendingScope == Some(added.scopeDigest)
          && previous.dispatched && !previous.uncertain
          && next.pending.None? && !next.dispatched && !next.uncertain
          && ValidRef(added.result))
  }

  predicate ValidResolutionStep(previous: Snapshot, next: Snapshot) {
    && |next.resolutions| == |previous.resolutions| + 1
    && previous.resolutions <= next.resolutions
    && var expected := ResolveState(previous, next.resolutions[|next.resolutions| - 1]);
    && expected.Ok?
    && previous.sequence + 1 < 0x1_0000_0000_0000_0000
    && expected.value.(sequence := previous.sequence + 1) == next
  }

  predicate Distinct(keys: seq<string>) {
    forall i, j | 0 <= i < j < |keys| :: keys[i] != keys[j]
  }

  predicate ValidRequests(previous: Snapshot, next: Snapshot) {
    && |next.requests| <= 256
    && previous.requests <= next.requests
    && (forall i | 0 <= i < |next.requests| :: ValidDigest(next.requests[i]))
    && Distinct(next.requests)
  }

  predicate ValidApproval(env: Env, next: Snapshot) {
    && (next.mode == AwaitingApproval <==> next.approval.Some?)
    && (next.approval.Some? ==>
          var a := next.approval.value;
          && next.pending.None?
          && a.generation == next.generation
          && 0 < a.id <= next.sequence
          && ValidDigest(a.digest)
          && ValidScope(a.scope)
          && ScopeDigest(env, a.scope) in next.requests)
  }

  predicate ValidPending(next: Snapshot) {
    && (next.pendingScope.Some? ==>
          next.pending.Some? && ValidDigest(next.pendingScope.value) && next.pendingScope.value in next.requests)
    && (next.resultRequired ==> next.pendingScope.Some?)
    && (next.pendingDigest.Some? ==> ValidDigest(next.pendingDigest.value))
    && (next.pending.Some? <==> next.pendingDigest.Some?)
    && (next.dispatched ==> next.pending.Some?)
    && (next.pending.Some? ==> 0 < next.pending.value <= next.sequence)
    && (next.uncertain ==> next.pending.Some?)
  }

  /** One line of the file is acceptable after the previous snapshot: every clause of the
      check in `open`. */
  predicate ValidLine(env: Env, previous: Snapshot, next: Snapshot) {
    && next.version == 6
    && (next.resolutions != previous.resolutions ==> ValidResolutionStep(previous, next))
    && ValidResults(previous, next)
    && ValidPending(next)
    && (previous.mode.Cancelled? ==> next.mode.Cancelled?)
    && (previous.uncertain && !next.uncertain ==> next.resolutions != previous.resolutions)
    && (next.observation.Some? ==> ValidDigest(next.observation.value))
    && (next.decision.Some? ==> !next.decision.value.UnknownDecision?)
    && ValidRequests(previous, next)
    && ValidApproval(env, next)
    && next.sequence == previous.sequence + 1
    && previous.generation <= next.generation
    && !next.mode.UnknownMode?
  }

  /** Replaying a file: the last snapshot, or nothing when a line is refused. */
  function Replay(env: Env, lines: seq<Snapshot>): Option<Snapshot> {
    if lines == [] then Some(Initial()) else
      var init := Replay(env, lines[..|lines| - 1]);
      var last := lines[|lines| - 1];
      if init.Some? && ValidLine(env, init.value, last) then Some(last) else None
  }
}
