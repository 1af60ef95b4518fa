/** Where the lines of a journal come from: in every run, crashes and reopenings included, each line
    of the file was written by one event that the reference table allows; so a ticket, a decision and
    a dispatch can be traced back to the commands that made them. */
module JournalOrigins {
  import opened Wrappers
  import opened JournalModel
  import opened JournalProofs
  import opened JournalRuns
  import opened JournalTable

  /** The first line of a file: an idle agent and empty ledgers. */
  predicate Blank(n: Snapshot) {
    && n.version == 6 && n.sequence == 1 && n.generation == 0 && n.mode.Agent?
    && n.pending.None? && n.pendingDigest.None? && n.pendingScope.None? && !n.resultRequired
    && !n.dispatched && !n.uncertain && !n.private && n.observation.None? && n.approval.None? && n.decision.None?
    && n.requests == [] && n.results == [] && n.resolutions == []
  }

  /** The event makes line `i` of what precedes it. */
  predicate Writes(env: Env, e: Event, lines: seq<Snapshot>, i: nat)
    requires i < |lines|
  {
    match e
    case Submit(c, now, _) =>
      Permits(env, now, Before(lines, i), c) && Becomes(env, now, Before(lines, i), c, lines[i])
    case Open(_, _) => if i == 0 then Blank(lines[0]) else Reopens(lines[i - 1], lines[i])
    case Crash(_, _) => false
  }

  /** Event `k` wrote line `i` of the file the run ends with. */
  predicate WrittenBy(env: Env, events: seq<Event>, i: nat, k: nat) {
    && k < |events| && i < |Run(env, events).file.lines|
    && Run(env, events[..k]).file.lines == Run(env, events).file.lines[..i]
    && Run(env, events[..k + 1]).file.lines == Run(env, events).file.lines[..i + 1]
    && Writes(env, events[k], Run(env, events).file.lines, i)
  }

  /** One step adds a line of its own, or only loses lines. */
  predicate AddsOwn(env: Env, e: Event, f: seq<Snapshot>, g: seq<Snapshot>) {
    g <= f || (|g| == |f| + 1 && f <= g && Writes(env, e, g, |f|))
  }

  lemma PersistAdds(env: Env, f: File, l: Live, next: Snapshot, io: Io)
    ensures var g := PersistSpec(env, f, l, next, io).file.lines;
            g == f.lines
            || (l.state.sequence + 1 < U64_END && g == f.lines + [Numbered(next, l.state.sequence + 1)])
  {
  }

  lemma OpenAdds(env: Env, w: World, io: Io, dir: bool)
    requires env.Ok() && WorldInv(env, w) && w.live.None?
    ensures AddsOwn(env, Open(io, dir), w.file.lines, Step(env, w, Open(io, dir)).file.lines)
  {
    hide Good, PersistSpec, Recovered, Replay;
    var f, next := w.file, OpeningSnapshot(env, w.file);
    if next.Ok? {
      ChainReplays(env, f.lines);
      PersistAdds(env, f, Opened(env, f), next.value, io);
      if f.lines != [] {
        ReopenTable(Before(f.lines, |f.lines|));
      }
    }
  }

  lemma SubmitAdds(env: Env, w: World, c: Command, now: Option<U64>, io: Io)
    requires env.Ok() && WorldInv(env, w)
    ensures AddsOwn(env, Submit(c, now, io), w.file.lines, Step(env, w, Submit(c, now, io)).file.lines)
  {
    hide Good, Transition, Permits, Becomes, PersistSpec, Chain;
    if w.live.Some? && !w.live.value.poisoned && Transition(env, now, w.live.value.state, c).Ok? {
      CommandTable(env, now, w.live.value.state, c);
      PersistAdds(env, w.file, w.live.value, Transition(env, now, w.live.value.state, c).value, io);
    }
  }

  lemma StepAdds(env: Env, w: World, e: Event)
    requires env.Ok() && WorldInv(env, w)
    ensures AddsOwn(env, e, w.file.lines, Step(env, w, e).file.lines)
  {
    hide WorldInv, Writes, OpenSpec, ApplySpec;
    match e
    case Open(io, dir) => if w.live.None? { OpenAdds(env, w, io, dir); }
    case Submit(c, now, io) => SubmitAdds(env, w, c, now, io);
    case Crash(_, _) =>
  }

  /** What wrote a line depends on the lines up to it only. */
  lemma WritesPrefix(env: Env, e: Event, f: seq<Snapshot>, g: seq<Snapshot>, i: nat)
    requires i < |f| && i < |g| && f[..i + 1] == g[..i + 1] && Writes(env, e, f, i)
    ensures Writes(env, e, g, i)
  {
    hide Permits, Becomes, Reopens;
    assert f[i] == f[..i + 1][i] && g[i] == g[..i + 1][i];
    if i > 0 { assert f[i - 1] == f[..i + 1][i - 1] && g[i - 1] == g[..i + 1][i - 1]; }
  }

  lemma RunInv(env: Env, events: seq<Event>)
    requires env.Ok()
    ensures WorldInv(env, Run(env, events))
  {
    hide Step, Good;
    ExecKeeps(env, Fresh(), events);
  }

  /** Every line of every run has an event that wrote it: a command the table allows, with exactly the
      result the table gives, or a reopening. */
  lemma {:induction false} LineOrigin(env: Env, events: seq<Event>, i: nat) returns (k: nat)
    requires env.Ok() && i < |Run(env, events).file.lines|
    ensures WrittenBy(env, events, i, k)
    decreases |events|
  {
    hide Step, WorldInv, Writes;
    var init, e := events[..|events| - 1], events[|events| - 1];
    RunInv(env, init);
    var f, g := Run(env, init).file.lines, Run(env, events).file.lines;
    StepAdds(env, Run(env, init), e);
    if |g| == |f| + 1 && i == |f| {
      k := |events| - 1;
      assert events[..k + 1] == events && g[..i + 1] == g;
    } else {
      k := LineOrigin(env, init, i);
      assert init[..k] == events[..k] && init[..k + 1] == events[..k + 1] && init[k] == events[k];
      assert f[..i + 1] == g[..i + 1] && f[..i] == g[..i];
      WritesPrefix(env, events[k], f, g, i);
    }
  }

  // ----- approvals -----

  /** The event proposed the approval: its deadline is the proposal's clock plus its ttl. */
  predicate ProposedBy(env: Env, e: Event, a: Approval) {
    && e.Submit? && e.command.Propose? && e.now.Some?
    && a.expiresAt == e.now.value + e.command.ttl && 1 <= e.command.ttl <= 300_000
    && a.generation == e.command.generation && a.scope == e.command.scope
    && a.digest == env.hash(OfAction(e.command.action.encoded)) && a.resultRequired == e.command.resultRequired
  }

  /** The event decided the approval it names, and this is the verdict: expired from the deadline on,
      before it what the command says. */
  predicate DecidedBy(env: Env, e: Event, a: Approval, verdict: Decision) {
    && e.Submit? && e.command.Decide? && e.now.Some?
    && e.command.approvalId == a.id && e.command.scope == a.scope
    && env.hash(OfAction(e.command.action.encoded)) == a.digest
    && verdict == (if a.expiresAt <= e.now.value then Decision.Expired
                   else if e.command.allow then Decision.Allow else Decision.Deny)
  }

  lemma ApprovalMoves(env: Env, events: seq<Event>, i: nat, k: nat)
    requires env.Ok() && WrittenBy(env, events, i, k) && Run(env, events).file.lines[i].approval.Some?
    ensures var lines := Run(env, events).file.lines; var a := lines[i].approval.value;
            || Before(lines, i).approval == Some(a)
            || (ProposedBy(env, events[k], a) && a.id == lines[i].sequence)
  {
    hide Run, Acts, Held, TicketAfter, LedgersAfter, ScreenAfter, MaySettle, MayReconcile, MayDecide;
  }

  /** An open approval was proposed by one command, and is the same at every line since. */
  lemma {:induction false} ApprovalOrigin(env: Env, events: seq<Event>, i: nat) returns (j: nat, m: nat)
    requires env.Ok() && i < |Run(env, events).file.lines| && Run(env, events).file.lines[i].approval.Some?
    ensures j <= i && WrittenBy(env, events, j, m)
    ensures var lines := Run(env, events).file.lines; var a := lines[i].approval.value;
            && ProposedBy(env, events[m], a) && a.id == lines[j].sequence
            && forall x | j <= x <= i :: lines[x].approval == Some(a)
    decreases i
  {
    hide Run, ProposedBy, WrittenBy;
    var lines := Run(env, events).file.lines;
    var k := LineOrigin(env, events, i);
    ApprovalMoves(env, events, i, k);
    if i > 0 && lines[i - 1].approval == lines[i].approval {
      j, m := ApprovalOrigin(env, events, i - 1);
    } else {
      j, m := i, k;
    }
  }

  lemma DecisionMoves(env: Env, events: seq<Event>, i: nat, k: nat)
    requires env.Ok() && WrittenBy(env, events, i, k) && Run(env, events).file.lines[i].decision.Some?
    ensures var lines := Run(env, events).file.lines; var s, n := Before(lines, i), lines[i];
            || (s.decision == n.decision && !(events[k].Submit? && events[k].command.Decide?))
            || (s.approval.Some? && DecidedBy(env, events[k], s.approval.value, n.decision.value)
                && (if n.decision.value.Allow? then n.pending == Some(n.sequence) else n.pending == s.pending))
  {
    hide Run, Acts, Held, LedgersAfter, ScreenAfter, MaySettle, MayReconcile, MayPropose;
  }

  lemma LineInv(env: Env, events: seq<Event>, i: nat)
    requires env.Ok() && i <= |Run(env, events).file.lines|
    ensures Inv(env, Before(Run(env, events).file.lines, i))
  {
    hide Step, Good, Inv;
    RunInv(env, events);
    BeforeInv(env, Run(env, events).file.lines, i);
  }

  /** Nothing is pending while an approval is open. */
  lemma OpenApprovalAlone(env: Env, s: Snapshot)
    requires Inv(env, s)
    ensures s.approval.Some? ==> s.pending.None?
    ensures s.pending.None? ==> s.pendingScope.None?
  {
  }

  /** A recorded decision was made by one command, on the approval open just before it: expired exactly
      from the deadline on, allowed or denied as the command says otherwise; a ticket was issued with
      it exactly when it allows. */
  lemma {:induction false} DecisionOrigin(env: Env, events: seq<Event>, i: nat) returns (j: nat, k: nat)
    requires env.Ok() && i < |Run(env, events).file.lines| && Run(env, events).file.lines[i].decision.Some?
    ensures j <= i && WrittenBy(env, events, j, k)
    ensures var lines := Run(env, events).file.lines; var a, d := Before(lines, j).approval, lines[i].decision;
            && a.Some? && DecidedBy(env, events[k], a.value, d.value)
            && lines[j].pending == (if d.value.Allow? then Some(lines[j].sequence) else None)
            && forall x | j <= x <= i :: lines[x].decision == d
    decreases i
  {
    hide Run, DecidedBy, WrittenBy, Inv;
    var lines := Run(env, events).file.lines;
    k := LineOrigin(env, events, i);
    DecisionMoves(env, events, i, k);
    LineInv(env, events, i);
    OpenApprovalAlone(env, Before(lines, i));
    if i > 0 && lines[i - 1].decision == lines[i].decision && !WroteDecision(events, k) {
      j, k := DecisionOrigin(env, events, i - 1);
    } else {
      j := i;
    }
  }

  predicate WroteDecision(events: seq<Event>, k: nat) {
    k < |events| && events[k].Submit? && events[k].command.Decide?
  }

  // ----- tickets -----

  /** Line `i` issues the ticket that is pending at it. */
  predicate IssuedAt(lines: seq<Snapshot>, i: nat) {
    i < |lines| && lines[i].pending.Some? && Before(lines, i).pending != lines[i].pending
  }

  /** The event admitted the action directly. */
  predicate AdmittedBy(env: Env, e: Event, s: Snapshot, n: Snapshot) {
    && e.Submit? && e.command.Admit? && Acts(e.command.actor, s.mode) && s.generation == e.command.generation
    && s.pending.None? && !s.private && n.pendingDigest == Some(env.hash(OfAction(e.command.action.encoded)))
    && n.pendingScope == s.pendingScope
  }

  /** The event allowed the open approval, and the ticket is bound to what was proposed. */
  predicate AllowedBy(env: Env, e: Event, s: Snapshot, n: Snapshot) {
    && s.approval.Some? && DecidedBy(env, e, s.approval.value, Decision.Allow) && e.command.allow
    && e.now.value < s.approval.value.expiresAt
    && n.pendingDigest == Some(s.approval.value.digest)
    && n.pendingScope == Some(env.hash(OfScope(s.approval.value.scope)))
    && n.resultRequired == s.approval.value.resultRequired && n.decision == Some(Decision.Allow)
  }

  lemma TicketIssued(env: Env, events: seq<Event>, i: nat, k: nat)
    requires env.Ok() && WrittenBy(env, events, i, k) && IssuedAt(Run(env, events).file.lines, i)
    ensures var lines := Run(env, events).file.lines; var s, n := Before(lines, i), lines[i];
            && n.pending == Some(n.sequence) && n.generation == s.generation && !n.dispatched
            && n.mode in {Agent, Human}
            && (AdmittedBy(env, events[k], s, n) || AllowedBy(env, events[k], s, n))
  {
    hide Run, LedgersAfter, ScreenAfter, MaySettle, MayReconcile, MayPropose;
  }

  /** Whenever a line of a run issues a ticket that is bound to a scope, one command proposed the action
      and a later one allowed it, strictly before the proposal's clock plus its ttl, naming that
      approval's id, scope and action; and the ticket carries the approval's digests and whether it
      owes a result. A denial and an expiry issue nothing. */
  lemma ScopedTicketAllowed(env: Env, events: seq<Event>, i: nat) returns (m: nat, k: nat)
    requires env.Ok() && IssuedAt(Run(env, events).file.lines, i)
    requires Run(env, events).file.lines[i].pendingScope.Some?
    ensures WrittenBy(env, events, i, k) && m < k
    ensures var lines := Run(env, events).file.lines;
            && AllowedBy(env, events[k], Before(lines, i), lines[i])
            && ProposedBy(env, events[m], Before(lines, i).approval.value)
  {
    hide Run, Inv, AllowedBy, ProposedBy, DecidedBy;
    var lines := Run(env, events).file.lines;
    k := LineOrigin(env, events, i);
    TicketIssued(env, events, i, k);
    LineInv(env, events, i);
    TicketsBound(env, events[k], Before(lines, i), lines[i]);
    assert Run(env, events[..k]).file.lines == lines[..i];
    assert i > 0;
    assert lines[..i][i - 1] == lines[i - 1];
    var j;
    j, m := ApprovalOrigin(env, events[..k], i - 1);
    EarlierEvent(env, events, k, j, m);
  }

  lemma TicketsBound(env: Env, e: Event, s: Snapshot, n: Snapshot)
    requires Inv(env, s) && n.pendingScope.Some?
    requires AdmittedBy(env, e, s, n) || AllowedBy(env, e, s, n)
    ensures AllowedBy(env, e, s, n) && s.approval.Some?
  {
  }

  lemma EarlierEvent(env: Env, events: seq<Event>, k: nat, j: nat, m: nat)
    requires k < |events| && WrittenBy(env, events[..k], j, m)
    ensures m < k && events[..k][m] == events[m]
  {
  }

  /** A pending ticket was issued at one line and is pending at every line since. */
  lemma {:induction false} TicketOrigin(env: Env, events: seq<Event>, i: nat, t: U64) returns (j: nat)
    requires env.Ok() && i < |Run(env, events).file.lines| && Run(env, events).file.lines[i].pending == Some(t)
    ensures j <= i && IssuedAt(Run(env, events).file.lines, j)
    ensures forall x | j <= x <= i :: Run(env, events).file.lines[x].pending == Some(t)
    decreases i
  {
    hide Run;
    var lines := Run(env, events).file.lines;
    if i > 0 && lines[i - 1].pending == Some(t) {
      j := TicketOrigin(env, events, i - 1, t);
    } else {
      j := i;
    }
  }

  /** The ticket can still be dispatched. */
  predicate Dispatchable(n: Snapshot, t: U64) {
    n.pending == Some(t) && !n.dispatched && !n.uncertain
  }

  /** One line on: a ticket that can still be dispatched is under the generation it was under, or the
      computer is waiting to be observed, which it cannot be before the ticket is gone. */
  lemma FenceMoves(env: Env, events: seq<Event>, i: nat, k: nat, t: U64)
    requires env.Ok() && WrittenBy(env, events, i, k) && i > 0
    requires Dispatchable(Run(env, events).file.lines[i], t) && Run(env, events).file.lines[i - 1].pending == Some(t)
    ensures var lines := Run(env, events).file.lines; var s, n := lines[i - 1], lines[i];
            && Dispatchable(s, t)
            && (n.mode.Resuming? || (!s.mode.Resuming? && n.generation == s.generation))
  {
    hide Run, LedgersAfter, ApprovalAfter, MaySettle, Inv, Names, BoundedScope;
    LineInv(env, events, i);
    OpenApprovalAlone(env, Before(Run(env, events).file.lines, i));
  }

  lemma {:induction false} FencedSince(env: Env, events: seq<Event>, j: nat, i: nat, t: U64)
    requires env.Ok() && j <= i < |Run(env, events).file.lines| && Dispatchable(Run(env, events).file.lines[i], t)
    requires forall x | j <= x <= i :: Run(env, events).file.lines[x].pending == Some(t)
    ensures var lines := Run(env, events).file.lines;
            lines[i].mode.Resuming? || lines[i].generation == lines[j].generation
    decreases i
  {
    hide Run;
    if j < i {
      var k := LineOrigin(env, events, i);
      FenceMoves(env, events, i, k, t);
      FencedSince(env, events, j, i - 1, t);
    }
  }

  lemma DispatchWrites(env: Env, events: seq<Event>, i: nat, k: nat, t: U64)
    requires env.Ok() && WrittenBy(env, events, i, k) && DispatchedAt(Run(env, events).file.lines, i, t)
    ensures var lines := Run(env, events).file.lines; var s, c := Before(lines, i), events[k].command;
            && events[k].Submit? && c.Dispatch? && c.ticket == t && Dispatchable(s, t) && i > 0
            && Acts(c.actor, s.mode) && s.generation == c.generation
            && s.pendingDigest == Some(env.hash(OfAction(c.action.encoded)))
  {
    hide Run, LedgersAfter, ApprovalAfter, MaySettle, MayPropose, MayDecide, MayReconcile;
  }

  /** Every dispatch in a run was made by one command, of an actor that had the computer, and its
      ticket was issued at an earlier line, by admitting or by allowing the action with the same
      digest; since that line the ticket stayed pending under one generation, so no takeover, resume,
      private bracket, disconnect, cancellation or reopening came between. */
  lemma DispatchOrigin(env: Env, events: seq<Event>, i: nat, t: U64) returns (j: nat, q: nat, k: nat)
    requires env.Ok() && DispatchedAt(Run(env, events).file.lines, i, t)
    ensures j < i && IssuedAt(Run(env, events).file.lines, j)
    ensures WrittenBy(env, events, j, q) && WrittenBy(env, events, i, k)
    ensures var lines := Run(env, events).file.lines; var c := events[k].command;
            && events[k].Submit? && c.Dispatch? && c.ticket == t && Acts(c.actor, lines[i - 1].mode)
            && lines[j].pendingDigest == Some(env.hash(OfAction(c.action.encoded)))
            && (AdmittedBy(env, events[q], Before(lines, j), lines[j])
                || AllowedBy(env, events[q], Before(lines, j), lines[j]))
            && c.generation == lines[j].generation == lines[i - 1].generation
            && forall x | j <= x < i :: lines[x].pending == Some(t)
  {
    hide Run, Writes, Acts, AdmittedBy, AllowedBy;
    var lines := Run(env, events).file.lines;
    k := LineOrigin(env, events, i);
    DispatchWrites(env, events, i, k, t);
    j := TicketOrigin(env, events, i - 1, t);
    q := LineOrigin(env, events, j);
    TicketIssued(env, events, j, q);
    FencedSince(env, events, j, i - 1, t);
    NotResuming(events[k].command.actor, lines[i - 1].mode);
    PayloadFixed(env, events, j, i - 1, t);
  }

  lemma NotResuming(actor: string, m: Mode)
    requires Acts(actor, m)
    ensures !m.Resuming?
  {
  }

  // ----- the private bracket -----

  lemma PrivateMoves(env: Env, events: seq<Event>, i: nat, k: nat)
    requires env.Ok() && WrittenBy(env, events, i, k)
    requires AgentTurn(Run(env, events).file.lines[i]) || Run(env, events).file.lines[i].mode.Resuming?
    ensures var lines := Run(env, events).file.lines; var s := Before(lines, i);
            (s.private ==> AgentTurn(s) || s.mode.Resuming?) && (!s.private ==> !lines[i].private)
  {
    hide Run, LedgersAfter, ApprovalAfter, TicketAfter, MaySettle, MayReconcile, Names, BoundedScope;
  }

  /** In every run, whenever the agent has the computer or is about to observe it, the private bracket
      is closed: a human's private screen is never handed back open. */
  lemma {:induction false} AgentNeverInPrivate(env: Env, events: seq<Event>, i: nat)
    requires env.Ok() && i < |Run(env, events).file.lines|
    requires AgentTurn(Run(env, events).file.lines[i]) || Run(env, events).file.lines[i].mode.Resuming?
    ensures !Run(env, events).file.lines[i].private
    decreases i
  {
    hide Run, AgentTurn;
    var k := LineOrigin(env, events, i);
    PrivateMoves(env, events, i, k);
    if i > 0 && Run(env, events).file.lines[i - 1].private { AgentNeverInPrivate(env, events, i - 1); }
  }

  // ----- what callers are told -----

  /** A command is acknowledged exactly when the journal is usable, the table permits it, the sequence
      and the 16 MiB bound leave room for its line, and the line was synced; the caller is given the
      snapshot of the table, and its line is in the file for good. */
  lemma AcknowledgedCommand(env: Env, events: seq<Event>, k: nat, n: Snapshot)
    requires env.Ok() && k < |events| && events[k].Submit? && Run(env, events[..k]).live.Some?
    ensures var w, e := Run(env, events[..k]), events[k];
            var s, p := Before(w.file.lines, |w.file.lines|),
                ApplySpec(env, w.file, w.live.value, e.command, e.now, e.io);
            && (p.result == Ok(n) <==>
                  && !w.live.value.poisoned && Permits(env, e.now, s, e.command) && Becomes(env, e.now, s, e.command, n)
                  && s.sequence + 1 < U64_END && Total(env, w.file.lines) + env.size(n) <= 16_777_216 && e.io.Synced?)
            && (p.result == Ok(n) ==>
                  && Run(env, events[..k + 1]).file.lines == w.file.lines + [n]
                  && Run(env, events[..k + 1]).file.lines <= Run(env, events).file.lines)
  {
    hide Transition, Permits, Becomes, Good, Chain;
    var w, e := Run(env, events[..k]), events[k];
    RunInv(env, events[..k]);
    assert events[..k + 1][..k] == events[..k];
    var s := Before(w.file.lines, |w.file.lines|);
    CommandTable(env, e.now, s, e.command);
    if Becomes(env, e.now, s, e.command, n) && CanStep(env, e.now, s, e.command) {
      TableDetermines(env, e.now, s, e.command, n,
                      Numbered(Transition(env, e.now, s, e.command).value, s.sequence + 1));
    }
    if ApplySpec(env, w.file, w.live.value, e.command, e.now, e.io).result == Ok(n) { SyncedLater(env, events, k + 1); }
  }

  /** A command that is not acknowledged changes nothing when the journal is already poisoned, the table
      refuses it or the sequence is exhausted. Otherwise it poisons the journal, whose memory stays as
      it was; no line is lost, and only a failed sync leaves the new one. */
  lemma RefusedCommand(env: Env, events: seq<Event>, k: nat)
    requires env.Ok() && k < |events| && events[k].Submit? && Run(env, events[..k]).live.Some?
    requires var w, e := Run(env, events[..k]), events[k];
             ApplySpec(env, w.file, w.live.value, e.command, e.now, e.io).result.Err?
    ensures var w, e := Run(env, events[..k]), events[k];
            var s, l := Before(w.file.lines, |w.file.lines|), w.live.value;
            var p := ApplySpec(env, w.file, l, e.command, e.now, e.io);
            if l.poisoned || !Permits(env, e.now, s, e.command) || s.sequence + 1 >= U64_END
            then p.file == w.file && p.live == l
            else
              && p.live == l.(poisoned := true) && p.file.durable == w.file.durable
              && (p.file.lines != w.file.lines ==>
                    && e.io.SyncFailed? && p.file.tail == 0 && |p.file.lines| == |w.file.lines| + 1
                    && w.file.lines <= p.file.lines
                    && Becomes(env, e.now, s, e.command, p.file.lines[|w.file.lines|]))
              && (p.file.tail != 0 ==> e.io.PartWritten?)
  {
    hide Transition, Permits, Becomes, Good, Chain;
    var w, e := Run(env, events[..k]), events[k];
    RunInv(env, events[..k]);
    CommandTable(env, e.now, Before(w.file.lines, |w.file.lines|), e.command);
  }
}
