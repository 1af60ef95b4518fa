/** A reference table of the journal's commands, written independently of the transition functions:
    when each command is accepted, and, field by field, what the accepted ones leave. */
module JournalTable {
  import opened Wrappers
  import opened Text
  import opened JournalModel
  import opened JournalProofs

  const U64_END: nat := 0x1_0000_0000_0000_0000

  // ----- who may act -----

  /** The mode in which an actor has the computer. */
  predicate Acts(actor: string, m: Mode) {
    (actor == "agent" && m.Agent?) || (actor == "human" && m.Human?)
  }

  predicate Held(s: Snapshot, generation: U64) {
    s.generation == generation && !s.uncertain
  }

  predicate Bounded(part: string) {
    1 <= |part| && Utf8Len(part) <= 256
  }

  predicate BoundedScope(s: Scope) {
    Bounded(s.workspace) && Bounded(s.worker) && Bounded(s.thread) && Bounded(s.turn) && Bounded(s.request)
  }

  /** The pending action is the one presented. */
  predicate Matches(env: Env, s: Snapshot, ticket: U64, action: Action) {
    && s.pending == Some(ticket) && |action.encoded| <= 8192
    && s.pendingDigest == Some(env.hash(OfAction(action.encoded)))
  }

  /** A reference to an archived result: a lower-case digest, 1 byte to 512 KiB. */
  predicate Archived(r: ResultRef) {
    && |r.sha256| == 64 && (forall i | 0 <= i < 64 :: '0' <= r.sha256[i] <= '9' || 'a' <= r.sha256[i] <= 'f')
    && 1 <= r.bytes <= 524_288
  }

  // ----- when a command is accepted -----

  predicate MayPropose(env: Env, now: Option<U64>, s: Snapshot, c: Command)
    requires c.Propose?
  {
    && s.mode.Agent? && Held(s, c.generation) && s.pending.None? && s.approval.None?
    && c.action.isObject && |c.action.encoded| <= 8192 && BoundedScope(c.scope)
    && 1 <= c.ttl <= 300_000 && now.Some? && now.value + c.ttl < U64_END
    && |s.results| <= 63 && |s.requests| <= 255 && env.hash(OfScope(c.scope)) !in s.requests
    && s.sequence + 1 < U64_END
  }

  /** The decision names the open approval: its id, its scope and an action with its digest. */
  predicate Names(env: Env, a: Approval, c: Command)
    requires c.Decide?
  {
    && a.id == c.approvalId && a.scope == c.scope && |c.action.encoded| <= 8192
    && a.digest == env.hash(OfAction(c.action.encoded))
  }

  /** A decision allows the action when it says so strictly before the deadline. */
  predicate Allows(now: Option<U64>, s: Snapshot, c: Command) {
    c.Decide? && c.allow && now.Some? && s.approval.Some? && now.value < s.approval.value.expiresAt
  }

  predicate MayDecide(env: Env, now: Option<U64>, s: Snapshot, c: Command)
    requires c.Decide?
  {
    && s.mode.AwaitingApproval? && s.approval.Some? && Held(s, s.approval.value.generation)
    && Names(env, s.approval.value, c) && now.Some?
    && (Allows(now, s, c) ==> s.sequence + 1 < U64_END)
  }

  predicate MaySettle(env: Env, s: Snapshot, c: Command)
    requires c.Settle?
  {
    && Matches(env, s, c.ticket, c.action) && s.dispatched && !s.uncertain
    && (s.resultRequired ==> c.result.Some?)
    && (c.result.Some? ==> s.pendingScope.Some? && Archived(c.result.value) && |s.results| <= 63)
  }

  predicate NamedReviewer(reviewer: string) {
    && Utf8Len(reviewer) <= 128
    && (exists i | 0 <= i < |reviewer| :: !Whitespace(reviewer[i]))
    && forall i | 0 <= i < |reviewer| ::
         !(reviewer[i] as int < 32) && !(127 <= reviewer[i] as int <= 159)
  }

  predicate Lower64(s: string) {
    |s| == 64 && forall i | 0 <= i < 64 :: '0' <= s[i] <= '9' || 'a' <= s[i] <= 'f'
  }

  /** A review closes exactly the interrupted or uncertain action it names, once. */
  predicate Reviewable(s: Snapshot, r: Resolution) {
    && (s.mode.Paused? || s.mode.Cancelled?) && s.dispatched && s.resultRequired
    && s.pending == Some(r.ticket) && s.pendingDigest == Some(r.actionDigest) && s.pendingScope == Some(r.scopeDigest)
    && s.sequence == r.reviewedSequence && s.generation == r.reviewedGeneration && s.generation + 1 < U64_END
    && r.workerAbsent && Lower64(r.worker) && Lower64(r.reviewId) && NamedReviewer(r.reviewer)
    && |s.resolutions| <= 15 && (forall i | 0 <= i < |s.resolutions| :: s.resolutions[i].reviewId != r.reviewId)
    && (r.outcome.AcceptOutput? ==> r.result.Some? && Archived(r.result.value))
    && (r.outcome.CloseUnknown? ==> r.result.None?)
  }

  function Review(env: Env, c: Command): Resolution
    requires c.Reconcile?
  {
    Resolution(c.reviewId, c.reviewer, c.sequence, c.generation, c.ticket, env.hash(OfAction(c.action.encoded)),
               env.hash(OfScope(c.scope)), c.scope.worker, c.workerAbsent, c.outcome, c.result)
  }

  predicate MayReconcile(env: Env, s: Snapshot, c: Command)
    requires c.Reconcile?
  {
    && BoundedScope(c.scope) && c.action.provider == Some("codex") && c.action.target == Some(c.scope.worker)
    && |c.action.encoded| <= 8192 && Reviewable(s, Review(env, c))
  }

  /** When each command is accepted. */
  predicate Permits(env: Env, now: Option<U64>, s: Snapshot, c: Command) {
    match c
    case Propose(_, _, _, _, _) => MayPropose(env, now, s, c)
    case Decide(_, _, _, _) => MayDecide(env, now, s, c)
    case Admit(generation, actor, action) =>
      && Acts(actor, s.mode) && Held(s, generation) && s.pending.None? && !s.private
      && action.isObject && |action.encoded| <= 8192 && s.sequence + 1 < U64_END
    case Dispatch(generation, actor, ticket, action) =>
      Acts(actor, s.mode) && Held(s, generation) && !s.dispatched && Matches(env, s, ticket, action)
    case Settle(_, _, _) => MaySettle(env, s, c)
    case Reconcile(_, _, _, _, _, _, _, _, _, _) => MayReconcile(env, s, c)
    case PrivateBegin(generation) =>
      s.mode.Human? && Held(s, generation) && s.pending.None? && !s.private && s.generation + 1 < U64_END
    case PrivateEnd(generation) =>
      s.mode.Human? && Held(s, generation) && s.pending.None? && s.private && s.generation + 1 < U64_END
    case Takeover =>
      (s.mode.Agent? || s.mode.Paused? || s.mode.AwaitingApproval?) && !s.uncertain && s.generation + 1 < U64_END
    case HumanReady(generation) => s.mode.Pausing? && Held(s, generation) && s.pending.None?
    case Resume(generation) => s.mode.Human? && Held(s, generation) && !s.private && s.generation + 1 < U64_END
    case Observed(generation, digest) =>
      s.mode.Resuming? && Held(s, generation) && s.pending.None? && |digest| == 64
      && forall i | 0 <= i < 64 :: '0' <= digest[i] <= '9' || 'a' <= digest[i] <= 'f' || 'A' <= digest[i] <= 'F'
    case Disconnect => s.generation + 1 < U64_END
    case Cancel => s.generation + 1 < U64_END
  }

  // ----- what an accepted command leaves, field by field -----

  function ModeAfter(m: Mode, c: Command): Mode {
    match c
    case Propose(_, _, _, _, _) => AwaitingApproval
    case Decide(_, _, _, _) => Agent
    case Takeover => Pausing
    case HumanReady(_) => Human
    case Resume(_) => Resuming
    case Observed(_, _) => Agent
    case Disconnect => if m.Cancelled? then Cancelled else Paused
    case Cancel => Cancelled
    case _ => m
  }

  /** The commands that fence off everything said before them. */
  predicate Fences(c: Command) {
    c.PrivateBegin? || c.PrivateEnd? || c.Takeover? || c.Resume? || c.Disconnect? || c.Cancel? || c.Reconcile?
  }

  /** The commands that take the computer away from whoever has it. */
  predicate Takes(c: Command) {
    c.Takeover? || c.Disconnect? || c.Cancel?
  }

  predicate Issues(now: Option<U64>, s: Snapshot, c: Command) {
    c.Admit? || Allows(now, s, c)
  }

  /** Settled, reviewed, or taken away before it was dispatched. */
  predicate Closes(s: Snapshot, c: Command) {
    c.Settle? || c.Reconcile? || (Takes(c) && !s.dispatched && !s.uncertain)
  }

  /** The pending ticket and what it is bound to. */
  predicate TicketAfter(env: Env, now: Option<U64>, s: Snapshot, c: Command, n: Snapshot) {
    if Issues(now, s, c) then
      && n.pending == Some(n.sequence) && !n.dispatched
      && n.pendingDigest == Some(env.hash(OfAction(c.action.encoded)))
      && n.pendingScope == (if c.Decide? then Some(env.hash(OfScope(c.scope))) else s.pendingScope)
      && n.resultRequired == (if s.approval.Some? && c.Decide? then s.approval.value.resultRequired
                              else s.resultRequired)
    else if Closes(s, c) then
      n.pending.None? && n.pendingDigest.None? && n.pendingScope.None? && !n.resultRequired && !n.dispatched
    else
      && n.pending == s.pending && n.pendingDigest == s.pendingDigest && n.pendingScope == s.pendingScope
      && n.resultRequired == s.resultRequired && n.dispatched == (s.dispatched || c.Dispatch?)
  }

  /** The open approval and the last decision. */
  predicate ApprovalAfter(env: Env, now: Option<U64>, s: Snapshot, c: Command, n: Snapshot) {
    match c
    case Propose(generation, action, scope, ttl, resultRequired) =>
      && n.decision.None? && n.approval.Some?
      && var a := n.approval.value;
      && a.id == n.sequence && a.generation == generation && a.scope == scope && a.resultRequired == resultRequired
      && a.digest == env.hash(OfAction(action.encoded)) && now.Some? && a.expiresAt == now.value + ttl
    case Decide(_, _, _, allow) =>
      && n.approval.None? && now.Some? && s.approval.Some?
      && n.decision == Some(if now.value >= s.approval.value.expiresAt then Decision.Expired
                            else if allow then Decision.Allow else Decision.Deny)
    case _ => n.decision == s.decision && n.approval == (if Takes(c) then None else s.approval)
  }

  /** The ledgers only grow, each by what one command adds. */
  predicate LedgersAfter(env: Env, s: Snapshot, c: Command, n: Snapshot) {
    && n.requests == s.requests + (if c.Propose? then [env.hash(OfScope(c.scope))] else [])
    && n.results == s.results
       + (if c.Settle? && c.result.Some? && s.pendingScope.Some?
          then [Settled(c.ticket, env.hash(OfAction(c.action.encoded)), s.pendingScope.value, c.result.value)] else [])
    && n.resolutions == s.resolutions
       + (if c.Reconcile? then [Review(env, c)] else [])
  }

  predicate ScreenAfter(s: Snapshot, c: Command, n: Snapshot) {
    && n.private == (c.PrivateBegin? || (s.private && !c.PrivateEnd?))
    && n.uncertain == (s.uncertain && !c.Reconcile?)
    && n.observation == (if c.Observed? then Some(c.digest)
                         else if Fences(c) && !c.Takeover? then None else s.observation)
  }

  /** What an accepted command makes of a snapshot. */
  predicate Becomes(env: Env, now: Option<U64>, s: Snapshot, c: Command, n: Snapshot) {
    && n.version == s.version && n.sequence == s.sequence + 1
    && n.generation == s.generation + (if Fences(c) then 1 else 0)
    && n.mode == ModeAfter(s.mode, c)
    && TicketAfter(env, now, s, c, n) && ApprovalAfter(env, now, s, c, n) && LedgersAfter(env, s, c, n)
    && ScreenAfter(s, c, n)
  }

  /** Reopening a file that holds something: whatever was pending is uncertain, the agent is paused. */
  predicate Reopens(s: Snapshot, n: Snapshot) {
    && s.generation + 1 < U64_END && n.generation == s.generation + 1 && n.sequence == s.sequence + 1
    && n.mode == (if s.mode.Cancelled? then Cancelled else Paused)
    && n.uncertain == s.pending.Some? && n.observation.None? && n.approval.None?
    && n.version == s.version && n.private == s.private && n.decision == s.decision
    && n.requests == s.requests && n.results == s.results && n.resolutions == s.resolutions
    && n.pending == s.pending && n.pendingDigest == s.pendingDigest && n.pendingScope == s.pendingScope
    && n.resultRequired == s.resultRequired && n.dispatched == s.dispatched
  }

  // ----- the transitions follow the table -----

  lemma HexTexts(s: string)
    ensures LowerHex64(s) <==> Lower64(s)
  {
  }

  lemma ScopeTexts(s: Scope)
    ensures ValidScope(s) <==> BoundedScope(s)
  {
  }

  lemma RefTexts(r: ResultRef)
    ensures ValidRef(r) <==> Archived(r)
  {
  }

  predicate Followed(env: Env, now: Option<U64>, s: Snapshot, c: Command) {
    && (Transition(env, now, s, c).Ok? <==> Permits(env, now, s, c))
    && (CanStep(env, now, s, c) ==> Becomes(env, now, s, c, Numbered(Transition(env, now, s, c).value, s.sequence + 1)))
  }

  lemma ProposeFollows(env: Env, now: Option<U64>, s: Snapshot, c: Command)
    requires c.Propose?
    ensures Followed(env, now, s, c)
  {
    hide DecideStep, AdmitStep, DispatchStep, SettleStep, ReconcileStep, PrivateStep, TakeoverStep, HumanReadyStep,
         ResumeStep, ObservedStep, LeaveStep, MayDecide, MaySettle, MayReconcile;
    hide ValidScope, BoundedScope;
    ScopeTexts(c.scope);
  }

  lemma DecideFollows(env: Env, now: Option<U64>, s: Snapshot, c: Command)
    requires c.Decide?
    ensures Followed(env, now, s, c)
  {
    hide ProposeStep, AdmitStep, DispatchStep, SettleStep, ReconcileStep, PrivateStep, TakeoverStep, HumanReadyStep,
         ResumeStep, ObservedStep, LeaveStep, MayPropose, MaySettle, MayReconcile;
  }

  lemma ActionsFollow(env: Env, now: Option<U64>, s: Snapshot, c: Command)
    requires c.Admit? || c.Dispatch?
    ensures Followed(env, now, s, c)
  {
    hide ProposeStep, DecideStep, SettleStep, ReconcileStep, PrivateStep, TakeoverStep, HumanReadyStep, ResumeStep,
         ObservedStep, LeaveStep, MayPropose, MayDecide, MaySettle, MayReconcile;
  }

  lemma SettleFollows(env: Env, now: Option<U64>, s: Snapshot, c: Command)
    requires c.Settle?
    ensures Followed(env, now, s, c)
  {
    hide ProposeStep, DecideStep, AdmitStep, DispatchStep, ReconcileStep, PrivateStep, TakeoverStep, HumanReadyStep,
         ResumeStep, ObservedStep, LeaveStep, MayPropose, MayDecide, MayReconcile;
    hide ValidRef, Archived;
    if c.result.Some? { RefTexts(c.result.value); }
  }

  lemma ReviewFollows(s: Snapshot, r: Resolution)
    ensures ResolveState(s, r).Ok? <==> Reviewable(s, r)
    ensures Reviewable(s, r) ==>
              ResolveState(s, r).value ==
                s.(pending := None, pendingDigest := None, pendingScope := None, resultRequired := false,
                   resolutions := s.resolutions + [r], dispatched := false, uncertain := false, observation := None,
                   generation := s.generation + 1)
  {
    hide ValidRef, Archived, LowerHex64, Lower64, NamedReviewer, Whitespace, Control, Utf8Len;
    HexTexts(r.worker);
    HexTexts(r.reviewId);
    if r.result.Some? { RefTexts(r.result.value); }
    ReviewerTexts(r.reviewer);
  }

  lemma ReconcileFollows(env: Env, now: Option<U64>, s: Snapshot, c: Command)
    requires c.Reconcile?
    ensures Followed(env, now, s, c)
  {
    hide ProposeStep, DecideStep, AdmitStep, DispatchStep, SettleStep, PrivateStep, TakeoverStep, HumanReadyStep,
         ResumeStep, ObservedStep, LeaveStep, MayPropose, MayDecide, MaySettle;
    hide ResolveState, Reviewable, ValidScope, BoundedScope;
    ScopeTexts(c.scope);
    ReviewFollows(s, Review(env, c));
  }

  lemma ReviewerTexts(reviewer: string)
    ensures NamedReviewer(reviewer) <==>
              && (exists i | 0 <= i < |reviewer| :: !Whitespace(reviewer[i])) && Utf8Len(reviewer) <= 128
              && (forall i | 0 <= i < |reviewer| :: !Control(reviewer[i]))
  {
  }

  lemma ScreenFollows(env: Env, now: Option<U64>, s: Snapshot, c: Command)
    requires c.PrivateBegin? || c.PrivateEnd? || c.HumanReady? || c.Resume? || c.Observed?
    ensures Followed(env, now, s, c)
  {
    hide ProposeStep, DecideStep, AdmitStep, DispatchStep, SettleStep, ReconcileStep, TakeoverStep, LeaveStep,
         MayPropose, MayDecide, MaySettle, MayReconcile;
  }

  lemma TakingFollows(env: Env, now: Option<U64>, s: Snapshot, c: Command)
    requires Takes(c)
    ensures Followed(env, now, s, c)
  {
    hide ProposeStep, DecideStep, AdmitStep, DispatchStep, SettleStep, ReconcileStep, PrivateStep, HumanReadyStep,
         ResumeStep, ObservedStep, MayPropose, MayDecide, MaySettle, MayReconcile;
  }

  /** A command is accepted exactly when the table says so, and leaves what the table says. */
  lemma CommandTable(env: Env, now: Option<U64>, s: Snapshot, c: Command)
    ensures Transition(env, now, s, c).Ok? <==> Permits(env, now, s, c)
    ensures CanStep(env, now, s, c) ==>
              Becomes(env, now, s, c, Numbered(Transition(env, now, s, c).value, s.sequence + 1))
  {
    hide Transition, Permits, Becomes;
    match c
    case Propose(_, _, _, _, _) => ProposeFollows(env, now, s, c);
    case Decide(_, _, _, _) => DecideFollows(env, now, s, c);
    case Settle(_, _, _) => SettleFollows(env, now, s, c);
    case Reconcile(_, _, _, _, _, _, _, _, _, _) => ReconcileFollows(env, now, s, c);
    case Takeover => TakingFollows(env, now, s, c);
    case Disconnect => TakingFollows(env, now, s, c);
    case Cancel => TakingFollows(env, now, s, c);
    case Admit(_, _, _) => ActionsFollow(env, now, s, c);
    case Dispatch(_, _, _, _) => ActionsFollow(env, now, s, c);
    case _ => ScreenFollows(env, now, s, c);
  }

  /** The table leaves no choice: two outcomes of the same command are equal. */
  lemma TableDetermines(env: Env, now: Option<U64>, s: Snapshot, c: Command, n: Snapshot, m: Snapshot)
    requires Becomes(env, now, s, c, n) && Becomes(env, now, s, c, m)
    ensures n == m
  {
  }

  lemma ReopenTable(s: Snapshot)
    ensures Recovered(s).Ok? <==> s.generation + 1 < U64_END
    ensures Recovered(s).Ok? && s.sequence + 1 < U64_END ==>
              Reopens(s, Numbered(Recovered(s).value, s.sequence + 1))
  {
  }
}
