/** Whole runs of the journal: opening, commands, failed writes, crashes and reopening, over a
    file that outlives the process. */
module JournalRuns {
  import opened Wrappers
  import opened JournalModel
  import opened JournalProofs

  const LIMIT: nat := 16 * 1024 * 1024

  /** The file: complete lines, bytes of an incomplete last line, and how many lines have been
      synced (only those survive a power loss for certain). */
  datatype File = File(lines: seq<Snapshot>, tail: nat, durable: nat)

  /** The owner's in-memory side. */
  datatype Live = Live(state: Snapshot, poisoned: bool, bytes: nat)

  /** How one append ends: synced; failed with nothing, part of the line, or all of it written. */
  datatype Io = Synced | NothingWritten | PartWritten(bytes: nat) | SyncFailed

  datatype World = World(file: File, live: Option<Live>)

  datatype Event =
    | Open(io: Io, directorySynced: bool)
    | Submit(command: Command, now: Option<U64>, io: Io)
    | Crash(kept: nat, tail: nat)

  function Total(env: Env, lines: seq<Snapshot>): nat {
    if lines == [] then 0 else Total(env, lines[..|lines| - 1]) + env.size(lines[|lines| - 1])
  }

  function Size(env: Env, f: File): nat {
    Total(env, f.lines) + f.tail
  }

  datatype Persisted = Persisted(file: File, live: Live, result: Result<Snapshot, JournalError>)

  /** `persist`: number the snapshot, append its line, sync; any failure poisons the journal. */
  function PersistSpec(env: Env, f: File, l: Live, next: Snapshot, io: Io): Persisted {
    if l.poisoned then Persisted(f, l, Err(JournalError.Poisoned)) else
    var sequence := CheckedAdd(l.state.sequence, 1);
    if sequence.None? then Persisted(f, l, Err(SequenceExhausted)) else
    var line := Numbered(next, sequence.value);
    var poisoned := l.(poisoned := true);
    if l.bytes + env.size(line) > LIMIT then Persisted(f, poisoned, Err(LimitExceeded)) else
    match io
    case Synced =>
      Persisted(f.(lines := f.lines + [line], durable := |f.lines| + 1),
                Live(line, false, l.bytes + env.size(line)), Ok(line))
    case NothingWritten => Persisted(f, poisoned, Err(PersistFailed))
    case PartWritten(k) =>
      Persisted(f.(tail := if k < env.size(line) then k else 0), poisoned, Err(PersistFailed))
    case SyncFailed => Persisted(f.(lines := f.lines + [line]), poisoned, Err(PersistFailed))
  }

  /** The snapshot `open` is about to write, or why it refuses the file. */
  function OpeningSnapshot(env: Env, f: File): Result<Snapshot, JournalError> {
    var _ :- Check(Size(env, f) <= LIMIT, LimitExceeded);
    var _ :- Check(f.tail == 0, Incomplete);
    var replayed := Replay(env, f.lines);
    if replayed.None? then Err(InvalidHistory)
    else if f.lines == [] then Ok(replayed.value)
    else Recovered(replayed.value)
  }

  function Opened(env: Env, f: File): Live {
    Live(if Replay(env, f.lines).Some? then Replay(env, f.lines).value else Initial(), false, Size(env, f))
  }

  function OpenSpec(env: Env, f: File, io: Io, directorySynced: bool): (File, Result<Live, JournalError>) {
    var next := OpeningSnapshot(env, f);
    if next.Err? then (f, Err(next.error)) else
    var p := PersistSpec(env, f, Opened(env, f), next.value, io);
    (p.file,
     if p.result.Err? then Err(p.result.error) else if directorySynced then Ok(p.live) else Err(DirectorySync))
  }

  /** `apply`: a command that is refused changes nothing. */
  function ApplySpec(env: Env, f: File, l: Live, c: Command, now: Option<U64>, io: Io): Persisted {
    if l.poisoned then Persisted(f, l, Err(JournalError.Poisoned)) else
    var next := Transition(env, now, l.state, c);
    if next.Err? then Persisted(f, l, Err(next.error)) else PersistSpec(env, f, l, next.value, io)
  }

  /** A crash loses unsynced lines down to `kept`, possibly leaving part of a line behind. */
  function CrashSpec(env: Env, f: File, kept: nat, tail: nat): File {
    if f.durable <= kept < |f.lines| then
      File(f.lines[..kept], if tail < env.size(f.lines[kept]) then tail else 0, f.durable)
    else f.(tail := if tail <= f.tail then tail else f.tail)
  }

  function Step(env: Env, w: World, e: Event): World {
    match e
    case Open(io, dir) =>
      if w.live.Some? then w else // the file lock
      var (f, r) := OpenSpec(env, w.file, io, dir);
      World(f, if r.Ok? then Some(r.value) else None)
    case Submit(c, now, io) =>
      if w.live.None? then w else
      var p := ApplySpec(env, w.file, w.live.value, c, now, io);
      World(p.file, Some(p.live))
    case Crash(kept, tail) => World(CrashSpec(env, w.file, kept, tail), None)
  }

  function Exec(env: Env, w: World, events: seq<Event>): World {
    if events == [] then w else Step(env, Exec(env, w, events[..|events| - 1]), events[|events| - 1])
  }

  function Fresh(): World {
    World(File([], 0, 0), None)
  }

  function Run(env: Env, events: seq<Event>): World {
    Exec(env, Fresh(), events)
  }

  // ----- the invariant of every run -----

  function Before(lines: seq<Snapshot>, i: nat): Snapshot
    requires i <= |lines|
  {
    if i == 0 then Initial() else lines[i - 1]
  }

  ghost predicate Linked(env: Env, lines: seq<Snapshot>, i: nat)
    requires i < |lines|
  {
    Good(env, Before(lines, i), lines[i])
  }

  ghost predicate Chain(env: Env, lines: seq<Snapshot>) {
    forall i: nat | i < |lines| :: Linked(env, lines, i)
  }

  ghost predicate WorldInv(env: Env, w: World) {
    var f := w.file;
    && Chain(env, f.lines) && f.durable <= |f.lines| && Size(env, f) <= LIMIT
    && (w.live.Some? && !w.live.value.poisoned ==>
          && f.tail == 0 && 0 < f.durable == |f.lines|
          && w.live.value.state == Before(f.lines, |f.lines|)
          && w.live.value.bytes == Total(env, f.lines))
  }

  lemma BeforeInv(env: Env, lines: seq<Snapshot>, i: nat)
    requires Chain(env, lines) && i <= |lines|
    ensures Inv(env, Before(lines, i))
  {
    hide ValidLine, Inv;
    if i == 0 { InitialInv(env); } else { assert Linked(env, lines, i - 1); }
  }

  /** The validator accepts a chain and ends in its last snapshot. */
  lemma {:induction false} ChainReplays(env: Env, lines: seq<Snapshot>)
    requires Chain(env, lines)
    ensures Replay(env, lines) == Some(Before(lines, |lines|))
  {
    hide ValidLine, Inv;
    if lines != [] {
      var init := lines[..|lines| - 1];
      forall i: nat | i < |init| ensures Linked(env, init, i) { assert Linked(env, lines, i); }
      ChainReplays(env, init);
      assert Before(init, |init|) == Before(lines, |init|);
      assert Linked(env, lines, |init|);
    }
  }

  lemma ChainExtended(env: Env, lines: seq<Snapshot>, n: Snapshot)
    requires Chain(env, lines) && Good(env, Before(lines, |lines|), n)
    ensures Chain(env, lines + [n]) && Total(env, lines + [n]) == Total(env, lines) + env.size(n)
  {
    hide ValidLine, Inv;
    var more := lines + [n];
    assert more[..|lines|] == lines;
    forall i: nat | i < |more| ensures Linked(env, more, i) {
      assert i < |lines| ==> Linked(env, lines, i);
    }
  }

  lemma {:induction false} TotalPrefix(env: Env, lines: seq<Snapshot>, k: nat)
    requires k < |lines|
    ensures Total(env, lines[..k]) + env.size(lines[k]) <= Total(env, lines)
    decreases |lines|
  {
    if k < |lines| - 1 {
      var init := lines[..|lines| - 1];
      TotalPrefix(env, init, k);
      assert init[..k] == lines[..k];
    }
  }

  /** Persisting a good successor keeps the invariant whatever the disk does. */
  lemma PersistKeeps(env: Env, f: File, l: Live, next: Snapshot, io: Io)
    requires Chain(env, f.lines) && f.durable <= |f.lines| && f.tail == 0
    requires !l.poisoned && l.state == Before(f.lines, |f.lines|) && l.bytes == Total(env, f.lines) <= LIMIT
    requires l.state.sequence + 1 < 0x1_0000_0000_0000_0000 ==>
               Good(env, l.state, Numbered(next, l.state.sequence + 1))
    ensures var p := PersistSpec(env, f, l, next, io);
            && (p.result.Ok? || p.live.poisoned ==> WorldInv(env, World(p.file, Some(p.live))))
            && WorldInv(env, World(p.file, None))
            && (p.result.Ok? ==> p.live.state == Numbered(next, l.state.sequence + 1))
            && (p.result.Err? ==> p.live.poisoned || (p.file == f && p.live == l))
  {
    hide ValidLine, Inv;
    if l.state.sequence + 1 < 0x1_0000_0000_0000_0000 {
      ChainExtended(env, f.lines, Numbered(next, l.state.sequence + 1));
    }
  }

  lemma OpenKeeps(env: Env, f: File, io: Io, dir: bool)
    requires WorldInv(env, World(f, None))
    ensures var (f', r) := OpenSpec(env, f, io, dir);
            && WorldInv(env, World(f', if r.Ok? then Some(r.value) else None))
            && (r.Ok? ==> !r.value.poisoned && |f'.lines| == |f.lines| + 1 && f'.lines[..|f.lines|] == f.lines)
            && (r.Ok? ==> r.value.state.pending == Before(f.lines, |f.lines|).pending
                          && r.value.state.uncertain == r.value.state.pending.Some?
                          && r.value.state.dispatched == Before(f.lines, |f.lines|).dispatched)
  {
    hide ValidLine, Inv;
    var next := OpeningSnapshot(env, f);
    if next.Ok? {
      ChainReplays(env, f.lines);
      var s := Before(f.lines, |f.lines|);
      BeforeInv(env, f.lines, |f.lines|);
      if s.sequence + 1 < 0x1_0000_0000_0000_0000 {
        if f.lines == [] { FirstLineGood(env); } else { RecoveredGood(env, s); }
      }
      PersistKeeps(env, f, Opened(env, f), next.value, io);
    }
  }

  lemma ApplyKeeps(env: Env, f: File, l: Live, c: Command, now: Option<U64>, io: Io)
    requires env.Ok() && WorldInv(env, World(f, Some(l)))
    ensures var p := ApplySpec(env, f, l, c, now, io);
            WorldInv(env, World(p.file, Some(p.live)))
  {
    hide ValidLine, Inv;
    if !l.poisoned && Transition(env, now, l.state, c).Ok? {
      BeforeInv(env, f.lines, |f.lines|);
      if CanStep(env, now, l.state, c) { CommandGood(env, now, l.state, c); }
      PersistKeeps(env, f, l, Transition(env, now, l.state, c).value, io);
    }
  }

  lemma CrashKeeps(env: Env, f: File, kept: nat, tail: nat)
    requires WorldInv(env, World(f, None))
    ensures WorldInv(env, World(CrashSpec(env, f, kept, tail), None))
  {
    hide ValidLine, Inv;
    if f.durable <= kept < |f.lines| {
      TotalPrefix(env, f.lines, kept);
      var lines := f.lines[..kept];
      forall i: nat | i < |lines| ensures Linked(env, lines, i) { assert Linked(env, f.lines, i); }
    }
  }

  lemma StepKeeps(env: Env, w: World, e: Event)
    requires env.Ok() && WorldInv(env, w)
    ensures WorldInv(env, Step(env, w, e))
  {
    hide ValidLine, Inv;
    match e
    case Open(io, dir) => if w.live.None? { OpenKeeps(env, w.file, io, dir); }
    case Submit(c, now, io) => if w.live.Some? { ApplyKeeps(env, w.file, w.live.value, c, now, io); }
    case Crash(kept, tail) => CrashKeeps(env, w.file, kept, tail);
  }

  lemma {:induction false} ExecKeeps(env: Env, w: World, events: seq<Event>)
    requires env.Ok() && WorldInv(env, w)
    ensures WorldInv(env, Exec(env, w, events))
  {
    hide ValidLine, Inv;
    if events != [] {
      ExecKeeps(env, w, events[..|events| - 1]);
      StepKeeps(env, Exec(env, w, events[..|events| - 1]), events[|events| - 1]);
    }
  }

  // ----- main results -----

  /** Replay completeness. After any run of commands, failed writes, crashes and reopenings,
      the validator accepts the whole file, and replaying it yields exactly the snapshot the
      owner holds in memory; so opening it again can only be refused for an incomplete last
      line, for exhausted counters, or for lack of room. */
  lemma ReplayComplete(env: Env, events: seq<Event>)
    requires env.Ok()
    ensures var w := Run(env, events);
            && Replay(env, w.file.lines).Some?
            && Size(env, w.file) <= LIMIT
            && (w.live.Some? && !w.live.value.poisoned ==>
                  Replay(env, w.file.lines) == Some(w.live.value.state) && w.file.tail == 0)
            && (OpeningSnapshot(env, w.file).Err? <==>
                  || w.file.tail > 0
                  || (w.file.lines != [] && Replay(env, w.file.lines).value.generation == 0xffff_ffff_ffff_ffff))
  {
    hide ValidLine, Inv;
    ExecKeeps(env, Fresh(), events);
    ChainReplays(env, Run(env, events).file.lines);
  }

  /** Line `i` records the dispatch of ticket `t`. */
  predicate DispatchedAt(lines: seq<Snapshot>, i: nat, t: U64) {
    i < |lines| && !Before(lines, i).dispatched && lines[i].dispatched && lines[i].pending == Some(t)
  }

  /** What one line tells about tickets. */
  lemma LineFacts(env: Env, lines: seq<Snapshot>, i: nat)
    requires Chain(env, lines) && i < |lines|
    ensures Follows(Before(lines, i), lines[i])
    ensures lines[i].pending.Some? ==> 0 < lines[i].pending.value <= lines[i].sequence
    ensures lines[i].dispatched || lines[i].uncertain ==> lines[i].pending.Some?
    ensures lines[i].pending.Some? <==> lines[i].pendingDigest.Some?
  {
    hide ValidLine, ValidRequests, ValidApproval, TicketOrder;
    assert Linked(env, lines, i);
  }

  /** Once dispatched, a ticket is either the live dispatched one or older than any live one. */
  predicate Spent(s: Snapshot, t: U64) {
    t <= s.sequence && (s.pending.None? || s.pending.value > t || (s.pending.value == t && s.dispatched))
  }

  lemma {:induction false} SpentForever(env: Env, lines: seq<Snapshot>, i: nat, j: nat, t: U64)
    requires Chain(env, lines) && i <= j < |lines| && Spent(lines[i], t)
    ensures Spent(lines[j], t)
    decreases j
  {
    hide Good;
    if i < j {
      SpentForever(env, lines, i, j - 1, t);
      LineFacts(env, lines, j);
    }
  }

  /** An uncertain ticket stays undispatchable until it is gone. */
  lemma {:induction false} UncertainForever(env: Env, lines: seq<Snapshot>, i: nat, j: nat, t: U64)
    requires Chain(env, lines) && i <= j < |lines|
    requires lines[i].pending == Some(t) && lines[i].uncertain
    ensures lines[j].pending != Some(t) || lines[j].uncertain
    ensures lines[j].pending.Some? ==> t <= lines[j].pending.value
    ensures t <= lines[j].sequence
    decreases j
  {
    hide Good;
    LineFacts(env, lines, j);
    if i < j { UncertainForever(env, lines, i, j - 1, t); }
  }

  lemma ChainAtMostOnce(env: Env, lines: seq<Snapshot>, i: nat, j: nat, t: U64, u: U64)
    requires Chain(env, lines) && i < j && DispatchedAt(lines, i, t) && DispatchedAt(lines, j, u)
    ensures t < u
  {
    hide Good;
    LineFacts(env, lines, i);
    LineFacts(env, lines, j);
    SpentForever(env, lines, i, j - 1, t);
  }

  /** At most once: the tickets dispatched along any run, restarts included, are strictly
      increasing, so no ticket is ever dispatched twice. */
  lemma AtMostOnceDispatch(env: Env, events: seq<Event>, i: nat, j: nat, t: U64, u: U64)
    requires env.Ok() && i < j
    requires DispatchedAt(Run(env, events).file.lines, i, t) && DispatchedAt(Run(env, events).file.lines, j, u)
    ensures t < u
  {
    hide Good, Step;
    ExecKeeps(env, Fresh(), events);
    ChainAtMostOnce(env, Run(env, events).file.lines, i, j, t, u);
  }

  lemma PersistDurable(env: Env, f: File, l: Live, next: Snapshot, io: Io)
    requires f.durable <= |f.lines|
    ensures var g := PersistSpec(env, f, l, next, io).file;
            f.durable <= g.durable <= |g.lines| && f.lines <= g.lines
  {
  }

  lemma StepDurable(env: Env, w: World, e: Event)
    requires w.file.durable <= |w.file.lines|
    ensures var g := Step(env, w, e).file;
            w.file.durable <= g.durable <= |g.lines| && w.file.lines[..w.file.durable] <= g.lines
  {
    hide PersistSpec, Transition, Replay, Recovered;
    match e
    case Open(io, dir) =>
      if OpeningSnapshot(env, w.file).Ok? {
        PersistDurable(env, w.file, Opened(env, w.file), OpeningSnapshot(env, w.file).value, io);
      }
    case Submit(c, now, io) =>
      if w.live.Some? && Transition(env, now, w.live.value.state, c).Ok? {
        PersistDurable(env, w.file, w.live.value, Transition(env, now, w.live.value.state, c).value, io);
      }
    case Crash(kept, tail) =>
  }

  /** Lines that were synced are never lost. */
  lemma {:induction false} DurableKept(env: Env, w: World, events: seq<Event>)
    requires w.file.durable <= |w.file.lines|
    ensures var g := Exec(env, w, events).file;
            w.file.durable <= g.durable <= |g.lines| && w.file.lines[..w.file.durable] <= g.lines
  {
    hide Step;
    if events != [] {
      var init := events[..|events| - 1];
      DurableKept(env, w, init);
      StepDurable(env, Exec(env, w, init), events[|events| - 1]);
      var a, m, g := w.file, Exec(env, w, init).file, Exec(env, w, events).file;
      assert a.lines[..a.durable] == m.lines[..m.durable][..a.durable];
    }
  }

  /** From a line where a ticket is uncertain on, that ticket is not dispatched. */
  lemma UncertainNotDispatched(env: Env, lines: seq<Snapshot>, i: nat, j: nat, t: U64)
    requires Chain(env, lines) && i <= j < |lines|
    requires lines[i].pending == Some(t) && lines[i].uncertain
    requires (i < j || lines[j].dispatched == Before(lines, j).dispatched)
    ensures !DispatchedAt(lines, j, t)
  {
    hide Good;
    if i < j && DispatchedAt(lines, j, t) {
      UncertainForever(env, lines, i, j, t);
      UncertainForever(env, lines, i, j - 1, t);
      LineFacts(env, lines, j);
    }
  }

  /** A ticket still pending when the owner went down is never dispatched after the file is
      reopened, whatever happens from then on. */
  lemma NeverDispatchedAfterRestart(env: Env, events: seq<Event>, io: Io, dir: bool, more: seq<Event>, t: U64, j: nat)
    requires env.Ok()
    requires var down := Run(env, events);
             down.live.None? && Step(env, down, Open(io, dir)).live.Some?
             && Before(down.file.lines, |down.file.lines|).pending == Some(t)
             && |down.file.lines| <= j
    ensures var w := Exec(env, Step(env, Run(env, events), Open(io, dir)), more);
            !DispatchedAt(w.file.lines, j, t)
  {
    hide Good, PersistSpec, Replay, Recovered;
    var down := Run(env, events);
    ExecKeeps(env, Fresh(), events);
    OpenKeeps(env, down.file, io, dir);
    var up := Step(env, down, Open(io, dir));
    DurableKept(env, up, more);
    ExecKeeps(env, up, more);
    var lines := Exec(env, up, more).file.lines;
    var k := |down.file.lines|;
    assert up.file.lines[..up.file.durable] == up.file.lines;
    assert lines[k] == up.file.lines[k] && lines[..k] == up.file.lines[..k] == down.file.lines;
    assert Before(lines, k) == Before(down.file.lines, k);
    if j < |lines| { UncertainNotDispatched(env, lines, k, j, t); }
  }

  /** Line `k` hands the computer back to the agent on a fresh observation. */
  predicate FreshLook(lines: seq<Snapshot>, k: nat) {
    k < |lines| && Before(lines, k).mode.Resuming? && AgentTurn(lines[k]) && lines[k].observation.Some?
    && lines[k].pending.None?
  }

  /** The agent never acts on a stale screen: between any line at which it had lost the
      computer (takeover, human control, pause, restart) and a later line at which it has it,
      there is a line recording a fresh observation with nothing pending. */
  lemma {:induction false} AgentReturnsOnlyAfterObserving(env: Env, lines: seq<Snapshot>, i: nat,
                                                          j: nat) returns (k: nat)
    requires Chain(env, lines) && i < j < |lines| && !AgentTurn(lines[i]) && AgentTurn(lines[j])
    ensures i < k <= j && FreshLook(lines, k)
    decreases j
  {
    hide Good;
    LineFacts(env, lines, j);
    if AgentTurn(lines[j - 1]) {
      k := AgentReturnsOnlyAfterObserving(env, lines, i, j - 1);
    } else {
      k := j;
    }
  }

  /** The same, of whole runs. */
  lemma RunReturnsOnlyAfterObserving(env: Env, events: seq<Event>, i: nat, j: nat)
    requires env.Ok()
    requires var lines := Run(env, events).file.lines;
             i < j < |lines| && !AgentTurn(lines[i]) && AgentTurn(lines[j])
    ensures exists k :: i < k <= j && FreshLook(Run(env, events).file.lines, k)
  {
    hide Good, Step;
    ExecKeeps(env, Fresh(), events);
    var k := AgentReturnsOnlyAfterObserving(env, Run(env, events).file.lines, i, j);
  }

  /** In every run the ledgers stay ordered and disjoint, every scope is used for at most one
      request, and a scoped action always has room for its result. */
  lemma LedgersOrdered(env: Env, events: seq<Event>)
    requires env.Ok()
    ensures var w := Run(env, events); var s := Before(w.file.lines, |w.file.lines|);
            TicketOrder(s) && Distinct(s.requests) && HasRoom(s)
  {
    ExecKeeps(env, Fresh(), events);
    BeforeInv(env, Run(env, events).file.lines, |Run(env, events).file.lines|);
  }

  lemma {:induction false} ChainPayloadFixed(env: Env, lines: seq<Snapshot>, i: nat, j: nat, t: U64)
    requires Chain(env, lines) && i <= j < |lines|
    requires lines[i].pending == Some(t) && lines[j].pending == Some(t)
    ensures lines[j].pendingDigest == lines[i].pendingDigest && lines[j].pendingScope == lines[i].pendingScope
    decreases j
  {
    hide Good;
    if i < j {
      LineFacts(env, lines, j);
      LineFacts(env, lines, i);
      StillPending(env, lines, i, j, t);
      ChainPayloadFixed(env, lines, i, j - 1, t);
    }
  }

  /** A ticket that is pending at two lines is pending at every line between. */
  lemma {:induction false} StillPending(env: Env, lines: seq<Snapshot>, i: nat, j: nat, t: U64)
    requires Chain(env, lines) && i < j < |lines|
    requires lines[i].pending == Some(t) && lines[j].pending == Some(t)
    ensures lines[j - 1].pending == Some(t)
  {
    hide Good;
    LineFacts(env, lines, i);
    LineFacts(env, lines, j);
    SequenceGrows(env, lines, i, j - 1);
  }

  lemma {:induction false} SequenceGrows(env: Env, lines: seq<Snapshot>, i: nat, j: nat)
    requires Chain(env, lines) && i <= j < |lines|
    ensures lines[j].sequence == lines[i].sequence + (j - i)
    decreases j
  {
    hide Good;
    if i < j {
      SequenceGrows(env, lines, i, j - 1);
      LineFacts(env, lines, j);
    }
  }

  /** In every run, the digests a ticket was issued with are those of every line it is pending at. */
  lemma PayloadFixed(env: Env, events: seq<Event>, i: nat, j: nat, t: U64)
    requires env.Ok() && i < |Run(env, events).file.lines| && j < |Run(env, events).file.lines|
    requires var lines := Run(env, events).file.lines; lines[i].pending == Some(t) && lines[j].pending == Some(t)
    ensures var lines := Run(env, events).file.lines;
            lines[j].pendingDigest == lines[i].pendingDigest && lines[j].pendingScope == lines[i].pendingScope
  {
    hide Good, Step;
    ExecKeeps(env, Fresh(), events);
    ChainPayloadFixed(env, Run(env, events).file.lines, if i < j then i else j, if i < j then j else i, t);
  }

  // ----- what the owner is told -----

  /** Event `k` is a dispatch command whose caller is told that it succeeded. */
  predicate Acknowledged(env: Env, events: seq<Event>, k: nat) {
    && k < |events| && events[k].Submit? && events[k].command.Dispatch?
    && var w := Run(env, events[..k]);
       w.live.Some? && ApplySpec(env, w.file, w.live.value, events[k].command, events[k].now, events[k].io).result.Ok?
  }

  /** An acknowledged dispatch adds a line that records it, and that line is synced. */
  lemma AcknowledgedLine(env: Env, events: seq<Event>, k: nat)
    requires env.Ok() && Acknowledged(env, events, k)
    ensures var before, after := Run(env, events[..k]).file, Run(env, events[..k + 1]).file;
            var n := |before.lines|;
            && |after.lines| == after.durable == n + 1 && after.lines[..n] == before.lines
            && DispatchedAt(after.lines, n, events[k].command.ticket)
            && after.lines[n].pendingDigest.Some?
               && ActionDigest(env, events[k].command.action) == Ok(after.lines[n].pendingDigest.value)
  {
    hide Good, ActionDigest, Require, ActorMode;
    assert events[..k + 1][..k] == events[..k];
    ExecKeeps(env, Fresh(), events[..k]);
  }

  lemma {:induction false} ExecSplit(env: Env, w: World, events: seq<Event>, k: nat)
    requires k <= |events|
    ensures Exec(env, w, events) == Exec(env, Exec(env, w, events[..k]), events[k..])
    decreases |events|
  {
    hide Step;
    if k == |events| {
      assert events[..k] == events;
    } else {
      var init := events[..|events| - 1];
      ExecSplit(env, w, init, k);
      assert init[..k] == events[..k] && events[k..][..|events| - 1 - k] == init[k..];
    }
  }

  /** A line synced by the end of some prefix of a run is in the file from then on. */
  lemma SyncedLater(env: Env, events: seq<Event>, k: nat)
    requires env.Ok() && k <= |events| && Run(env, events[..k]).file.durable == |Run(env, events[..k]).file.lines|
    ensures Run(env, events[..k]).file.lines <= Run(env, events).file.lines
  {
    hide Good, Step;
    ExecSplit(env, Fresh(), events, k);
    var w := Run(env, events[..k]);
    DurableKept(env, w, events[k..]);
    assert w.file.lines[..w.file.durable] == w.file.lines;
  }

  /** At most once, as callers see it: of two acknowledged dispatches of a run, with crashes, failed
      writes and restarts anywhere, the later one is of a later ticket. */
  lemma AcknowledgedOnce(env: Env, events: seq<Event>, k: nat, m: nat)
    requires env.Ok() && k < m && Acknowledged(env, events, k) && Acknowledged(env, events, m)
    ensures events[k].command.ticket < events[m].command.ticket
  {
    hide Good, Step, ApplySpec, Acknowledged;
    AcknowledgedEvent(env, events, k);
    AcknowledgedEvent(env, events, m);
    AcknowledgedLine(env, events, k);
    AcknowledgedLine(env, events, m);
    var first, second := Run(env, events[..k + 1]).file.lines, Run(env, events[..m + 1]).file.lines;
    var i, j := |Run(env, events[..k]).file.lines|, |Run(env, events[..m]).file.lines|;
    assert events[..m][..k + 1] == events[..k + 1];
    SyncedLater(env, events[..m], k + 1);
    assert first <= second[..j];
    assert DispatchedAt(second, i, events[k].command.ticket);
    ExecKeeps(env, Fresh(), events[..m + 1]);
    ChainAtMostOnce(env, second, i, j, events[k].command.ticket, events[m].command.ticket);
  }

  lemma AcknowledgedEvent(env: Env, events: seq<Event>, k: nat)
    requires Acknowledged(env, events, k)
    ensures k < |events| && events[k].Submit? && events[k].command.Dispatch?
  {
  }

  /** The action of an acknowledged dispatch has the digest its ticket was issued with. */
  lemma AcknowledgedPayload(env: Env, events: seq<Event>, k: nat, i: nat)
    requires env.Ok() && Acknowledged(env, events, k)
    requires var lines := Run(env, events[..k]).file.lines;
             i < |lines| && lines[i].pending == Some(events[k].command.ticket)
    ensures var issued := Run(env, events[..k]).file.lines[i].pendingDigest;
            issued.Some? && ActionDigest(env, events[k].command.action) == Ok(issued.value)
  {
    hide Good, Step, ApplySpec, ActionDigest;
    AcknowledgedLine(env, events, k);
    var before, after := Run(env, events[..k]).file.lines, Run(env, events[..k + 1]).file.lines;
    assert after[i] == before[i];
    PayloadFixed(env, events[..k + 1], i, |before|, events[k].command.ticket);
  }
}
