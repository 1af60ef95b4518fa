/** What the journal's validator asks of a file, whoever wrote it, and when a file is opened. */
module JournalValidator {
  import opened Wrappers
  import opened JournalModel
  import opened JournalRuns
  import opened JournalTable

  predicate Hex64(s: string) {
    |s| == 64 && forall i | 0 <= i < 64 :: '0' <= s[i] <= '9' || 'a' <= s[i] <= 'f' || 'A' <= s[i] <= 'F'
  }

  predicate Optional(s: Option<string>) {
    s.Some? ==> Hex64(s.value)
  }

  /** Positions, fences and vocabulary. */
  predicate Continues(p: Snapshot, n: Snapshot) {
    && n.version == 6 && n.sequence == p.sequence + 1 && p.generation <= n.generation
    && !n.mode.UnknownMode? && (p.mode.Cancelled? ==> n.mode.Cancelled?)
    && (n.decision.Some? ==> !n.decision.value.UnknownDecision?)
    && Optional(n.observation)
  }

  /** A ticket that can belong to this line: issued by now, with the digest of its action; a scope only
      of a request on record, a result only owed by a scoped ticket. */
  predicate TicketSound(n: Snapshot) {
    && (n.pending.Some? ==> 1 <= n.pending.value <= n.sequence && n.pendingDigest.Some?)
    && (n.pending.None? ==> n.pendingDigest.None? && n.pendingScope.None? && !n.dispatched && !n.uncertain)
    && Optional(n.pendingDigest) && Optional(n.pendingScope)
    && (n.pendingScope.Some? ==> n.pendingScope.value in n.requests)
    && (n.resultRequired ==> n.pendingScope.Some?)
  }

  predicate ApprovalSound(env: Env, n: Snapshot) {
    && (n.mode.AwaitingApproval? <==> n.approval.Some?)
    && (n.approval.Some? ==>
          var a := n.approval.value;
          && n.pending.None? && a.generation == n.generation && 1 <= a.id <= n.sequence
          && Hex64(a.digest) && BoundedScope(a.scope) && env.hash(OfScope(a.scope)) in n.requests)
  }

  predicate RequestsSound(p: Snapshot, n: Snapshot) {
    && p.requests <= n.requests && |n.requests| <= 256
    && (forall i | 0 <= i < |n.requests| :: Hex64(n.requests[i]))
    && (forall i, j | 0 <= i < j < |n.requests| :: n.requests[i] != n.requests[j])
  }

  /** A new result settles the dispatched, certain ticket of the line before; at most one a line. */
  predicate ResultsSound(p: Snapshot, n: Snapshot) {
    && |n.results| <= 64
    && (n.results == p.results
        || (&& |n.results| == |p.results| + 1 && p.results <= n.results
            && var r := n.results[|p.results|];
            && p.pending == Some(r.ticket) && p.pendingDigest == Some(r.actionDigest)
            && p.pendingScope == Some(r.scopeDigest) && p.dispatched && !p.uncertain
            && n.pending.None? && !n.dispatched && !n.uncertain && Archived(r.result)))
  }

  /** A line with a new resolution is the line before with the reviewed ticket closed, and nothing else. */
  predicate ResolutionSound(p: Snapshot, n: Snapshot) {
    || n.resolutions == p.resolutions
    || (&& |n.resolutions| == |p.resolutions| + 1
        && var r := n.resolutions[|p.resolutions|];
        && Reviewable(p, r)
        && n == p.(sequence := n.sequence, generation := n.generation, pending := None, pendingDigest := None,
                   pendingScope := None, resultRequired := false, dispatched := false, uncertain := false,
                   observation := None, resolutions := p.resolutions + [r])
        && n.generation == p.generation + 1)
  }

  /** What the validator asks of a line after a snapshot. */
  predicate Sound(env: Env, p: Snapshot, n: Snapshot) {
    && Continues(p, n) && TicketSound(n) && ApprovalSound(env, n) && RequestsSound(p, n)
    && ResultsSound(p, n) && ResolutionSound(p, n)
    && (p.uncertain && !n.uncertain ==> n.resolutions != p.resolutions)
  }

  lemma HexText(s: string)
    ensures ValidDigest(s) <==> Hex64(s)
  {
  }

  lemma TicketClauses(n: Snapshot)
    ensures ValidPending(n) <==> TicketSound(n)
  {
    hide ValidDigest, Hex64;
    if n.pendingDigest.Some? { HexText(n.pendingDigest.value); }
    if n.pendingScope.Some? { HexText(n.pendingScope.value); }
  }

  lemma ApprovalClauses(env: Env, n: Snapshot)
    ensures ValidApproval(env, n) <==> ApprovalSound(env, n)
  {
    hide ValidDigest, Hex64, ValidScope, BoundedScope;
    if n.approval.Some? {
      HexText(n.approval.value.digest);
      ScopeTexts(n.approval.value.scope);
    }
  }

  lemma RequestClauses(p: Snapshot, n: Snapshot)
    ensures ValidRequests(p, n) <==> RequestsSound(p, n)
  {
    hide ValidDigest, Hex64;
    forall i | 0 <= i < |n.requests| ensures ValidDigest(n.requests[i]) <==> Hex64(n.requests[i]) {
      HexText(n.requests[i]);
    }
  }

  lemma ResultClauses(p: Snapshot, n: Snapshot)
    ensures ValidResults(p, n) <==> ResultsSound(p, n)
  {
    hide ValidRef, Archived;
    if |n.results| == |p.results| + 1 { RefTexts(n.results[|p.results|].result); }
  }

  lemma ResolutionClauses(p: Snapshot, n: Snapshot)
    requires n.sequence == p.sequence + 1
    ensures (n.resolutions != p.resolutions ==> ValidResolutionStep(p, n)) <==> ResolutionSound(p, n)
  {
    hide ResolveState, Reviewable;
    if |n.resolutions| == |p.resolutions| + 1 { ReviewFollows(p, n.resolutions[|p.resolutions|]); }
  }

  lemma LineSound(env: Env, p: Snapshot, n: Snapshot)
    ensures ValidLine(env, p, n) <==> Sound(env, p, n)
  {
    hide ValidPending, TicketSound, ValidApproval, ApprovalSound, ValidRequests, RequestsSound, ValidResults,
         ResultsSound, ValidResolutionStep, ResolutionSound, ValidDigest, Hex64;
    TicketClauses(n);
    ApprovalClauses(env, n);
    RequestClauses(p, n);
    ResultClauses(p, n);
    if n.sequence == p.sequence + 1 { ResolutionClauses(p, n); }
    if n.observation.Some? { HexText(n.observation.value); }
  }

  /** Replay accepts a file exactly when every line is sound after the one before it, the first after
      the initial snapshot. Nothing is assumed of who wrote the file. */
  lemma {:induction false} ReplaysIff(env: Env, lines: seq<Snapshot>)
    ensures Replay(env, lines).Some? <==>
              forall i: nat | i < |lines| :: Sound(env, Before(lines, i), lines[i])
    ensures Replay(env, lines).Some? ==> Replay(env, lines).value == Before(lines, |lines|)
  {
    hide ValidLine, Sound;
    if lines != [] {
      var init, last := lines[..|lines| - 1], lines[|lines| - 1];
      ReplaysIff(env, init);
      LineSound(env, Before(lines, |init|), last);
      forall i: nat | i < |init| ensures Before(init, i) == Before(lines, i) && init[i] == lines[i] {}
      assert Before(init, |init|) == Before(lines, |init|);
      if forall i: nat | i < |init| :: Sound(env, Before(init, i), init[i]) {
        forall i: nat | i < |init| ensures Sound(env, Before(lines, i), lines[i]) {
          assert Sound(env, Before(init, i), init[i]);
        }
      }
      if forall i: nat | i < |lines| :: Sound(env, Before(lines, i), lines[i]) {
        forall i: nat | i < |init| ensures Sound(env, Before(init, i), init[i]) {
          assert Sound(env, Before(lines, i), lines[i]);
        }
      }
    }
  }

  /** In any file that replays: line i is number i + 1, request keys never repeat, a cancelled journal
      stays cancelled, and an uncertain ticket stays until a review closes it. */
  lemma {:induction false} ReplayedFile(env: Env, lines: seq<Snapshot>, i: nat, j: nat)
    requires Replay(env, lines).Some? && i <= j < |lines|
    ensures lines[j].sequence == j + 1 && lines[i].generation <= lines[j].generation
    ensures lines[i].requests <= lines[j].requests && lines[i].results <= lines[j].results
    ensures |lines[i].resolutions| <= |lines[j].resolutions|
            && lines[j].resolutions[..|lines[i].resolutions|] == lines[i].resolutions
    ensures lines[i].mode.Cancelled? ==> lines[j].mode.Cancelled?
    ensures lines[i].uncertain && lines[j].resolutions == lines[i].resolutions ==> lines[j].uncertain
    decreases j
  {
    hide Sound;
    ReplaysIff(env, lines);
    assert Sound(env, Before(lines, j), lines[j]);
    SoundStep(env, Before(lines, j), lines[j]);
    if i < j {
      ReplayedFile(env, lines, i, j - 1);
    } else if j > 0 {
      ReplayedFile(env, lines, j - 1, j - 1);
    }
  }

  lemma SoundStep(env: Env, p: Snapshot, n: Snapshot)
    requires Sound(env, p, n)
    ensures n.sequence == p.sequence + 1 && p.generation <= n.generation && p.requests <= n.requests
            && p.results <= n.results && p.resolutions <= n.resolutions
            && (p.mode.Cancelled? ==> n.mode.Cancelled?)
            && (p.uncertain && n.resolutions == p.resolutions ==> n.uncertain)
  {
    hide TicketSound, ApprovalSound, Reviewable;
  }

  /** A file is opened exactly when it ends with a whole line, holds at most 16 MiB with the opening
      line, every line is sound, the counters have room, and the line and the directory were synced;
      a file that held lines is fenced off and its agent paused, an empty one starts afresh. */
  lemma OpensIff(env: Env, f: File, io: Io, directorySynced: bool)
    ensures var r, s := OpenSpec(env, f, io, directorySynced).1, Before(f.lines, |f.lines|);
            && (r.Ok? <==>
                  && f.tail == 0 && (forall i: nat | i < |f.lines| :: Sound(env, Before(f.lines, i), f.lines[i]))
                  && s.sequence + 1 < U64_END && (f.lines != [] ==> s.generation + 1 < U64_END)
                  && Total(env, f.lines) + env.size(OpeningLine(s, f.lines == [])) <= 16_777_216
                  && io.Synced? && directorySynced)
            && (r.Ok? ==>
                  && r.value.state == OpeningLine(s, f.lines == []) && !r.value.poisoned
                  && (if f.lines == [] then s == Initial() else Reopens(s, r.value.state)))
  {
    hide Replay, Sound;
    ReplaysIff(env, f.lines);
  }

  /** The line an opening writes. */
  function OpeningLine(s: Snapshot, empty: bool): Snapshot {
    var number: U64 := if s.sequence + 1 < U64_END then s.sequence + 1 else 0;
    if empty then s.(sequence := number)
    else
      s.(sequence := number, generation := if s.generation + 1 < U64_END then s.generation + 1 else 0,
         mode := if s.mode.Cancelled? then Cancelled else Paused,
         uncertain := s.pending.Some?, observation := None, approval := None)
  }
}
