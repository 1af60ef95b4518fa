/** The browser's side of the event stream: dispatching frames, the saved cursor and its resume,
    and the end-to-end theorem. Models apps/poc/public/client-track.js. */
module ClientTrack {
  import opened Wrappers
  import opened Text
  import opened EventStream
  import Sse

  const SEEN_CAP: nat := 2000

  /** A jump of the cursor that a resync made. */
  datatype Skip = Skip(from: nat, to: nat)

  /** The stored cursor, the sequences kept for deduplication in insertion order, and two records
      the theorems speak about: the rows handled so far and the jumps made so far. */
  datatype Client = Client(cursor: Option<nat>, seen: seq<nat>, handled: seq<Row>, skips: seq<Skip>)

  function Remember(seen: seq<nat>, n: nat): seq<nat> {
    var s := seen + [n];
    if |s| > SEEN_CAP then s[1..] else s
  }

  function Handle(c: Client, row: Row): Client {
    if row.sequence in c.seen then c
    else c.(cursor := Some(row.sequence), seen := Remember(c.seen, row.sequence), handled := c.handled + [row])
  }

  /** `onResync`, as far as the cursor goes. */
  function Resynced(c: Client, current: nat): Client {
    c.(cursor := Some(current), skips := if c.cursor.Some? then c.skips + [Skip(c.cursor.value, current)] else c.skips)
  }

  function JoinLines(data: seq<string>): string {
    if data == [] then "" else if |data| == 1 then data[0] else data[0] + "\n" + JoinLines(data[1..])
  }

  /** `dispatchFrame`. */
  function Dispatch(codec: Codec, c: Client, frame: Sse.Frame): Client {
    if frame.event == "stream.hello" then c
    else if frame.event == "control" then
      match codec.read(JoinLines(frame.data))
      case Resync(current) => Resynced(c, current)
      case _ => c
    else if frame.data == [] then c
    else
      match codec.read(JoinLines(frame.data))
      case Envelope(row) => Handle(c, row)
      case _ => c
  }

  function DispatchAll(codec: Codec, c: Client, frames: seq<Sse.Frame>): Client
    decreases |frames|
  {
    if frames == [] then c else DispatchAll(codec, Dispatch(codec, c, frames[0]), frames[1..])
  }

  /** The closure variables of the client, changed in place. */
  class Track {
    const codec: Codec
    var cursor: Option<nat>
    var seen: seq<nat>
    var handled: seq<Row>
    var skips: seq<Skip>

    function State(): Client
      reads this
    {
      Client(cursor, seen, handled, skips)
    }

    constructor (codec: Codec, cursor: Option<nat>)
      ensures this.codec == codec && State() == Client(cursor, [], [], [])
    {
      this.codec, this.cursor := codec, cursor;
      seen, handled, skips := [], [], [];
    }

    method OnResync(current: nat)
      modifies this
      ensures State() == Resynced(old(State()), current)
    {
      if cursor.Some? { skips := skips + [Skip(cursor.value, current)]; }
      cursor := Some(current);
    }

    method DispatchFrame(frame: Sse.Frame)
      modifies this
      ensures State() == Dispatch(codec, old(State()), frame)
    {
      var data := JoinLines(frame.data);
      if frame.event == "stream.hello" { return; }
      if frame.event == "control" {
        var msg := codec.read(data);
        if msg.Resync? { OnResync(msg.current); }
        return;
      }
      if frame.data == [] { return; }
      var env := codec.read(data);
      if !env.Envelope? { return; }
      if env.row.sequence in seen { return; }
      seen := seen + [env.row.sequence];
      if |seen| > SEEN_CAP { seen := seen[1..]; }
      cursor := Some(env.row.sequence);
      handled := handled + [env.row];
    }

    method DispatchEach(frames: seq<Sse.Frame>)
      modifies this
      ensures State() == DispatchAll(codec, old(State()), frames)
    {
      hide Dispatch, DispatchAll;
      DispatchNone(codec, State(), frames);
      for k := 0 to |frames|
        invariant DispatchAll(codec, old(State()), frames) == DispatchAll(codec, State(), frames[k..])
      {
        DispatchOne(codec, State(), frames[k..]);
        assert frames[k..][1..] == frames[k + 1..];
        DispatchFrame(frames[k]);
      }
      DispatchNone(codec, State(), frames);
    }

    /** One connection: every chunk that arrives is parsed and its frames dispatched. */
    method PumpFrames(number: string -> Option<real>, chunks: seq<string>)
      modifies this
      ensures State() == DispatchAll(codec, old(State()), Sse.FeedAll(number, Sse.START, chunks).1)
    {
      hide Dispatch, DispatchAll, Sse.Feed;
      var parser := new Sse.SseParser(number);
      DispatchNone(codec, State(), []);
      for i := 0 to |chunks|
        invariant fresh(parser) && parser.number == number
        invariant parser.State() == Sse.FeedAll(number, Sse.START, chunks[..i]).0
        invariant State() == DispatchAll(codec, old(State()), Sse.FeedAll(number, Sse.START, chunks[..i]).1)
      {
        assert chunks[..i + 1][..i] == chunks[..i];
        ghost var before := Sse.FeedAll(number, Sse.START, chunks[..i]).1;
        var frames := parser.Push(chunks[i]);
        DispatchSplit(codec, old(State()), before, frames);
        DispatchEach(frames);
      }
      assert chunks[..|chunks|] == chunks;
    }
  }

  lemma DispatchNone(codec: Codec, c: Client, frames: seq<Sse.Frame>)
    ensures DispatchAll(codec, c, []) == c && DispatchAll(codec, c, frames[|frames|..]) == c && frames[0..] == frames
  {
  }

  lemma DispatchOne(codec: Codec, c: Client, frames: seq<Sse.Frame>)
    requires frames != []
    ensures DispatchAll(codec, c, frames) == DispatchAll(codec, Dispatch(codec, c, frames[0]), frames[1..])
  {
  }

  lemma {:induction false} DispatchSplit(codec: Codec, c: Client, xs: seq<Sse.Frame>, ys: seq<Sse.Frame>)
    ensures DispatchAll(codec, c, xs + ys) == DispatchAll(codec, DispatchAll(codec, c, xs), ys)
    decreases |xs|
  {
    hide Dispatch;
    if xs == [] { assert xs + ys == ys; } else {
      assert (xs + ys)[1..] == xs[1..] + ys;
      DispatchSplit(codec, Dispatch(codec, c, xs[0]), xs[1..], ys);
    }
  }

  // ----- one connection attempt -----

  /** The request carries the stored cursor as `Last-Event-ID`. */
  function Header(c: Client): Option<string> {
    if c.cursor.Some? then Some(Decimal(c.cursor.value)) else None
  }

  /** An attempt to stream: it fails outright, or reaches the server, which reads the journal's
      maximum, serves the ticks that follow, and of whose answer some chunks arrive. */
  datatype Attempt =
    | Unreachable
    | Reached(view: seq<Row>, hello: nat, ticks: seq<Tick>, chunks: seq<string>)

  function Attend(codec: Codec, number: string -> Option<real>, c: Client, a: Attempt): Client {
    match a
    case Unreachable => c
    case Reached(view, hello, ticks, chunks) =>
      var start := ResolveCursor(Header(c), None, MaxSeq(view));
      if start.Err? then (if start.error.CursorTooOld? then Resynced(c, MaxSeq(view)) else c)
      else DispatchAll(codec, c, Sse.FeedAll(number, Sse.START, chunks).1)
  }

  /** What arrives is a prefix of what the server sent, and the journal it read only grew since
      `before`. */
  ghost predicate Plausible(codec: Codec, c: Client, before: seq<Row>, a: Attempt, j: seq<Row>) {
    match a
    case Unreachable => before <= j && Ascending(j)
    case Reached(view, hello, ticks, chunks) =>
      && before <= view && Growing(view, ticks, j)
      && var start := ResolveCursor(Header(c), None, MaxSeq(view));
         start.Ok? ==> Sse.Concat(chunks) <= Sse.RenderAll(Body(codec, hello, Produced(false, start.value, ticks)))
  }

  // ----- what a client has handled -----

  predicate Inside(skips: seq<Skip>, n: nat) {
    exists i | 0 <= i < |skips| :: skips[i].from < n <= skips[i].to
  }

  /** The rows no resync jumped over. */
  function Kept(rows: seq<Row>, skips: seq<Skip>): seq<Row> {
    if rows == [] then []
    else if Inside(skips, rows[0].sequence) then Kept(rows[1..], skips)
    else [rows[0]] + Kept(rows[1..], skips)
  }

  /** Measured from `base` in the journal `j`, the client stands at `at`: it has handled exactly the
      streamable rows between the two that no resync jumped over, each once and in order. */
  ghost predicate Standing(j: seq<Row>, base: nat, at: nat, c: Client) {
    && base <= at && (at == base || at <= MaxSeq(j))
    && c.handled == Kept(Between(j, base, at), c.skips)
    && (forall n | n in c.seen :: n <= at)
    && (forall i | 0 <= i < |c.skips| :: c.skips[i].to <= at)
    && (if c.cursor.Some? then c.cursor.value == at else at == base && c.skips == [] && c.seen == [])
  }

  // ----- Between and Kept -----

  lemma {:induction false} BetweenEmpty(j: seq<Row>, at: nat)
    ensures Between(j, at, at) == []
  {
    if j != [] { BetweenEmpty(j[1..], at); }
  }

  lemma {:induction false} BetweenAbove(j: seq<Row>, from: nat, mid: nat, to: nat)
    requires from <= mid && forall i | 0 <= i < |j| :: j[i].sequence > mid
    ensures Between(j, from, to) == Between(j, mid, to) && Between(j, from, mid) == []
  {
    if j != [] { BetweenAbove(j[1..], from, mid, to); }
  }

  lemma {:induction false} BetweenSplit(j: seq<Row>, from: nat, mid: nat, to: nat)
    requires Ascending(j) && from <= mid <= to
    ensures Between(j, from, to) == Between(j, from, mid) + Between(j, mid, to)
  {
    if j != [] {
      AscendingTail(j);
      if j[0].sequence > mid { BetweenAbove(j, from, mid, to); } else { BetweenSplit(j[1..], from, mid, to); }
    }
  }

  lemma {:induction false} BetweenRange(j: seq<Row>, from: nat, to: nat)
    ensures forall i | 0 <= i < |Between(j, from, to)| :: from < Between(j, from, to)[i].sequence <= to
  {
    if j != [] { BetweenRange(j[1..], from, to); }
  }

  lemma {:induction false} KeptAppend(xs: seq<Row>, ys: seq<Row>, skips: seq<Skip>)
    ensures Kept(xs + ys, skips) == Kept(xs, skips) + Kept(ys, skips)
  {
    hide Inside;
    if xs == [] { assert xs + ys == ys; } else {
      assert (xs + ys)[1..] == xs[1..] + ys;
      KeptAppend(xs[1..], ys, skips);
    }
  }

  lemma {:induction false} KeptAll(rows: seq<Row>, skips: seq<Skip>)
    requires forall i | 0 <= i < |rows| :: !Inside(skips, rows[i].sequence)
    ensures Kept(rows, skips) == rows
  {
    hide Inside;
    if rows != [] { KeptAll(rows[1..], skips); }
  }

  /** No resync jumped over any of the rows. */
  predicate Undisturbed(rows: seq<Row>, skips: seq<Skip>) {
    forall i | 0 <= i < |rows| :: !Inside(skips, rows[i].sequence)
  }

  lemma {:induction false} KeptAtMost(rows: seq<Row>, skips: seq<Skip>)
    ensures |Kept(rows, skips)| <= |rows| && (|Kept(rows, skips)| == |rows| ==> Undisturbed(rows, skips))
  {
    hide Inside;
    if rows != [] { KeptAtMost(rows[1..], skips); }
  }

  lemma KeptIff(rows: seq<Row>, skips: seq<Skip>)
    ensures Kept(rows, skips) == rows <==> Undisturbed(rows, skips)
  {
    hide Inside, Kept;
    KeptAtMost(rows, skips);
    if Undisturbed(rows, skips) { KeptAll(rows, skips); }
  }

  lemma {:induction false} KeptNone(rows: seq<Row>, skips: seq<Skip>)
    requires forall i | 0 <= i < |rows| :: Inside(skips, rows[i].sequence)
    ensures Kept(rows, skips) == []
  {
    hide Inside;
    if rows != [] { KeptNone(rows[1..], skips); }
  }

  lemma {:induction false} KeptSame(rows: seq<Row>, skips: seq<Skip>, s: Skip)
    requires forall i | 0 <= i < |rows| :: rows[i].sequence <= s.from
    ensures Kept(rows, skips + [s]) == Kept(rows, skips)
  {
    if rows != [] {
      InsideMore(skips, s, rows[0].sequence);
      KeptSame(rows[1..], skips, s);
    }
  }

  lemma InsideMore(skips: seq<Skip>, s: Skip, n: nat)
    ensures Inside(skips + [s], n) <==> Inside(skips, n) || s.from < n <= s.to
  {
    if i :| 0 <= i < |skips| && skips[i].from < n <= skips[i].to { assert (skips + [s])[i] == skips[i]; }
    assert (skips + [s])[|skips|] == s;
  }

  // ----- each delivery keeps the standing -----

  lemma StandingGrows(j: seq<Row>, g: seq<Row>, base: nat, at: nat, c: Client)
    requires Standing(j, base, at, c) && j <= g && Ascending(g)
    ensures Standing(g, base, at, c)
  {
    hide Between, Kept;
    if at == base {
      BetweenEmpty(j, at);
      BetweenEmpty(g, at);
    } else {
      BetweenStable(j, g, base, at);
      MaxSeqGrows(j, g);
    }
  }

  lemma RememberBound(seen: seq<nat>, at: nat, n: nat)
    requires (forall m | m in seen :: m <= at) && at < n
    ensures n !in seen && forall m | m in Remember(seen, n) :: m <= n
  {
    forall m | m in Remember(seen, n) ensures m <= n { assert m in seen + [n]; }
  }

  lemma RowKeepsStanding(j: seq<Row>, base: nat, at: nat, c: Client, row: Row)
    requires Ascending(j) && Standing(j, base, at, c)
    requires at < row.sequence <= MaxSeq(j) && Between(j, at, row.sequence) == [row]
    ensures Standing(j, base, row.sequence, Handle(c, row))
  {
    hide Between, Kept, Remember;
    BetweenSplit(j, base, at, row.sequence);
    KeptAppend(Between(j, base, at), [row], c.skips);
    assert !Inside(c.skips, row.sequence);
    KeptAll([row], c.skips);
    RememberBound(c.seen, at, row.sequence);
  }

  /** Before any cursor is stored the base may move. */
  lemma ResyncKeepsStanding(j: seq<Row>, base: nat, at: nat, c: Client, current: nat)
    requires Ascending(j) && Standing(j, base, at, c) && (current == at || at <= current <= MaxSeq(j))
    ensures Standing(j, if c.cursor.Some? then base else current, current, Resynced(c, current))
  {
    hide Between, Kept;
    if c.cursor.Some? {
      var skips := c.skips + [Skip(at, current)];
      BetweenSplit(j, base, at, current);
      BetweenRange(j, base, at);
      BetweenRange(j, at, current);
      KeptAppend(Between(j, base, at), Between(j, at, current), skips);
      KeptSame(Between(j, base, at), c.skips, Skip(at, current));
      var rows := Between(j, at, current);
      forall i | 0 <= i < |rows| ensures Inside(skips, rows[i].sequence) {
        InsideMore(c.skips, Skip(at, current), rows[i].sequence);
      }
      KeptNone(rows, skips);
    } else {
      BetweenEmpty(j, at);
      BetweenEmpty(j, current);
      assert Kept([], c.skips) == [] by { KeptAll([], c.skips); }
    }
  }

  /** What a sent message does to the client. */
  function Receive(c: Client, s: Sent): Client {
    match s
    case SentRow(row) => Handle(c, row)
    case SentPing => c
    case SentResync(current) => Resynced(c, current)
  }

  function ReceiveAll(c: Client, ss: seq<Sent>): Client
    decreases |ss|
  {
    if ss == [] then c else ReceiveAll(Receive(c, ss[0]), ss[1..])
  }

  /** Where the client stands in the end: its stored cursor, if it has one. */
  function Position(c: Client, otherwise: nat): nat {
    if c.cursor.Some? then c.cursor.value else otherwise
  }

  lemma {:induction false} ReceivingKeepsStanding(j: seq<Row>, base: nat, at: nat, c: Client,
                                                  ss: seq<Sent>) returns (b: nat)
    requires Ascending(j) && Standing(j, base, at, c) && NextRows(j, at, ss)
    ensures Standing(j, b, Position(ReceiveAll(c, ss), b), ReceiveAll(c, ss))
    ensures c.cursor.Some? ==> b == base && ReceiveAll(c, ss).cursor.Some?
    decreases |ss|
  {
    hide Between, Kept, Handle, Resynced;
    if ss == [] {
      b := base;
    } else {
      match ss[0] {
        case SentRow(row) =>
          RowKeepsStanding(j, base, at, c, row);
          HandleStores(j, base, at, c, row);
          b := ReceivingKeepsStanding(j, base, row.sequence, Handle(c, row), ss[1..]);
        case SentPing =>
          b := ReceivingKeepsStanding(j, base, at, c, ss[1..]);
        case SentResync(current) =>
          ResyncKeepsStanding(j, base, at, c, current);
          b := if c.cursor.Some? then base else current;
          assert ReceiveAll(c, ss) == Resynced(c, current);
          ResyncStores(c, current);
      }
    }
  }

  lemma HandleStores(j: seq<Row>, base: nat, at: nat, c: Client, row: Row)
    requires Standing(j, base, at, c) && at < row.sequence
    ensures Handle(c, row).cursor == Some(row.sequence)
  {
  }

  lemma ResyncStores(c: Client, current: nat)
    ensures Resynced(c, current).cursor == Some(current)
  {
  }

  /** Dispatching a parsed frame is receiving the message it was rendered from. */
  lemma DispatchIsReceive(codec: Codec, c: Client, s: Sent)
    requires Faithful(codec)
    ensures Dispatch(codec, c, Sse.FrameOf(ItemOf(codec, s))) == Receive(c, s)
  {
  }

  lemma {:induction false} DispatchAllIsReceiveAll(codec: Codec, c: Client, ss: seq<Sent>)
    requires Faithful(codec)
    ensures DispatchAll(codec, c, Sse.FramesOf(ItemsOf(codec, ss))) == ReceiveAll(c, ss)
    decreases |ss|
  {
    hide Dispatch, Receive, Faithful;
    if ss != [] {
      DispatchIsReceive(codec, c, ss[0]);
      var frames := Sse.FramesOf(ItemsOf(codec, ss));
      assert frames[1..] == Sse.FramesOf(ItemsOf(codec, ss[1..]));
      DispatchAllIsReceiveAll(codec, Receive(c, ss[0]), ss[1..]);
    }
  }

  lemma HandshakeIgnored(codec: Codec, c: Client, hello: nat, ss: seq<Sent>)
    ensures DispatchAll(codec, c, Sse.FramesOf(Body(codec, hello, ss))) ==
              DispatchAll(codec, c, Sse.FramesOf(ItemsOf(codec, ss)))
  {
    var frames := Sse.FramesOf(Body(codec, hello, ss));
    assert frames[1..][1..] == Sse.FramesOf(ItemsOf(codec, ss));
    assert Dispatch(codec, c, frames[0]) == c && Dispatch(codec, c, frames[1..][0]) == c;
  }

  /** A prefix of the body's frames is dispatched as a prefix of the messages. */
  lemma PrefixDispatched(codec: Codec, c: Client, hello: nat, ss: seq<Sent>, frames: seq<Sse.Frame>) returns (n: nat)
    requires Faithful(codec) && frames <= Sse.FramesOf(Body(codec, hello, ss))
    ensures n <= |ss| && DispatchAll(codec, c, frames) == ReceiveAll(c, ss[..n])
  {
    hide Faithful;
    var all := Sse.FramesOf(Body(codec, hello, ss));
    if |frames| < 2 {
      n := 0;
      assert all[0].event == "" && all[0].data == [];
      if |frames| == 1 { assert frames[0] == all[0] && frames[1..] == []; }
    } else {
      n := |frames| - 2;
      assert frames == Sse.FramesOf(Body(codec, hello, ss[..n])) by {
        forall k | 0 <= k < |frames| ensures frames[k] == Sse.FramesOf(Body(codec, hello, ss[..n]))[k] {}
      }
      HandshakeIgnored(codec, c, hello, ss[..n]);
      DispatchAllIsReceiveAll(codec, c, ss[..n]);
    }
  }

  lemma BodyPrintable(codec: Codec, hello: nat, ss: seq<Sent>)
    requires Faithful(codec)
    ensures forall k | 0 <= k < |Body(codec, hello, ss)| :: Sse.Printable(Body(codec, hello, ss)[k])
  {
    var items := Body(codec, hello, ss);
    forall k | 0 <= k < |items| ensures Sse.Printable(items[k]) {
      if k >= 2 { assert items[k] == ItemOf(codec, ss[k - 2]); }
    }
  }

  // ----- end to end -----

  /** One attempt, however it goes. */
  lemma AttemptKeepsStanding(codec: Codec, number: string -> Option<real>, before: seq<Row>, j: seq<Row>, base: nat,
                             c: Client, a: Attempt)
    returns (b: nat)
    requires Faithful(codec) && Plausible(codec, c, before, a, j) && Standing(before, base, Position(c, base), c)
    ensures Standing(j, b, Position(Attend(codec, number, c, a), b), Attend(codec, number, c, a))
    ensures c.cursor.Some? ==> b == base && Attend(codec, number, c, a).cursor.Some?
  {
    hide Between, Kept, Faithful, Sse.FeedAll, DispatchAll, Resynced, Trim, ParseCursor, Decimal, Produced;
    b := base;
    match a {
      case Unreachable => StandingGrows(before, j, base, Position(c, base), c);
      case Reached(view, hello, ticks, chunks) =>
        GrowingWithin(view, ticks, j);
        var start := ResolveCursor(Header(c), None, MaxSeq(view));
        StandingGrows(before, j, base, Position(c, base), c);
        StartAtCursor(c, MaxSeq(view));
        if start.Err? {
          if start.error.CursorTooOld? {
            MaxSeqGrows(view, j);
            ResyncKeepsStanding(j, base, Position(c, base), c, MaxSeq(view));
            ResyncStores(c, MaxSeq(view));
          }
        } else {
          var at := start.value;
          var from := if c.cursor.Some? then base else at;
          if c.cursor.None? { Rebased(j, base, at, c); }
          var ss := Produced(false, at, ticks);
          ProducerInOrder(false, at, view, ticks, j);
          BodyPrintable(codec, hello, ss);
          Sse.CutYieldsPrefix(number, Body(codec, hello, ss), chunks);
          var n := PrefixDispatched(codec, c, hello, ss, Sse.FeedAll(number, Sse.START, chunks).1);
          PrefixInOrder(j, at, ss, n);
          b := ReceivingKeepsStanding(j, from, at, c, ss[..n]);
        }
    }
  }

  /** The server resumes exactly at the stored cursor, or refuses: as too old when it is more than
      the window behind, as malformed when it is no 64-bit integer. */
  lemma StartAtCursor(c: Client, maxSeq: nat)
    ensures var start := ResolveCursor(Header(c), None, maxSeq);
            && (start.Err? && start.error.CursorTooOld? ==> c.cursor.Some? && c.cursor.value < maxSeq)
            && (start.Ok? && c.cursor.Some? ==> start.value == c.cursor.value)
  {
    hide Decimal, Trim;
    if c.cursor.Some? {
      var n := c.cursor.value;
      TrimDecimal(n);
      ParseDecimal(n);
    }
  }

  /** A client that has stored no cursor stands wherever the server starts it. */
  lemma Rebased(j: seq<Row>, base: nat, at: nat, c: Client)
    requires Standing(j, base, base, c) && c.cursor.None?
    ensures Standing(j, at, at, c)
  {
    BetweenEmpty(j, base);
    BetweenEmpty(j, at);
  }

  /** Attempts one after the other, each against a journal that extends the previous one. */
  function AttendAll(codec: Codec, number: string -> Option<real>, c: Client, attempts: seq<Attempt>): Client {
    if attempts == [] then c
    else Attend(codec, number, AttendAll(codec, number, c, attempts[..|attempts| - 1]), attempts[|attempts| - 1])
  }

  /** `journals[k]` holds before attempt `k`, the last one after all of them. */
  ghost predicate Session(codec: Codec, number: string -> Option<real>, c: Client, attempts: seq<Attempt>,
                          journals: seq<seq<Row>>)
    decreases |attempts|
  {
    && |journals| == |attempts| + 1
    && (attempts == [] ==> Ascending(journals[0]))
    && (attempts != [] ==>
          var n := |attempts| - 1;
          Session(codec, number, c, attempts[..n], journals[..n + 1])
          && Plausible(codec, AttendAll(codec, number, c, attempts[..n]), journals[n], attempts[n], journals[n + 1]))
  }

  lemma {:induction false} SessionKeepsStanding(codec: Codec, number: string -> Option<real>, c: Client,
                                                attempts: seq<Attempt>, journals: seq<seq<Row>>, base: nat)
    returns (b: nat)
    requires Faithful(codec) && Session(codec, number, c, attempts, journals)
    requires Standing(journals[0], base, Position(c, base), c)
    ensures var d := AttendAll(codec, number, c, attempts); Standing(journals[|attempts|], b, Position(d, b), d)
    ensures c.cursor.Some? ==> b == base && AttendAll(codec, number, c, attempts).cursor.Some?
    decreases |attempts|
  {
    hide Faithful, Plausible, Standing, Attend;
    if attempts == [] {
      b := base;
    } else {
      var n := |attempts| - 1;
      var mid := SessionKeepsStanding(codec, number, c, attempts[..n], journals[..n + 1], base);
      b := AttemptKeepsStanding(codec, number, journals[n], journals[n + 1], mid,
                                AttendAll(codec, number, c, attempts[..n]), attempts[n]);
    }
  }

  /** A client that starts with a stored cursor: over any number of connections, each cut at any
      point and delivered in any chunks, while the journal grows, it handles exactly the
      streamable rows between the cursor it started with and the one it has stored, each once and
      in sequence order, except those a resync jumped over: all of them exactly when none lies
      inside such a jump. */
  lemma ExactlyOnce(codec: Codec, number: string -> Option<real>, cursor: nat, attempts: seq<Attempt>,
                    journals: seq<seq<Row>>)
    requires var c := Client(Some(cursor), [], [], []);
             Faithful(codec) && Session(codec, number, c, attempts, journals)
    ensures var d := AttendAll(codec, number, Client(Some(cursor), [], [], []), attempts);
            && d.cursor.Some? && cursor <= d.cursor.value
            && d.handled == Kept(Between(journals[|attempts|], cursor, d.cursor.value), d.skips)
            && (d.handled == Between(journals[|attempts|], cursor, d.cursor.value) <==>
                  Undisturbed(Between(journals[|attempts|], cursor, d.cursor.value), d.skips))
  {
    hide Faithful, Session, Between, AttendAll;
    var c := Client(Some(cursor), [], [], []);
    var d := AttendAll(codec, number, c, attempts);
    SessionShape(codec, number, c, attempts, journals);
    BetweenEmpty(journals[0], cursor);
    var b := SessionKeepsStanding(codec, number, c, attempts, journals, cursor);
    KeptIff(Between(journals[|attempts|], cursor, d.cursor.value), d.skips);
  }

  /** A new client: once it has a stored cursor there is a point from which the same holds. */
  lemma ExactlyOnceFromFirst(codec: Codec, number: string -> Option<real>, attempts: seq<Attempt>,
                             journals: seq<seq<Row>>) returns (base: nat)
    requires Faithful(codec) && Session(codec, number, Client(None, [], [], []), attempts, journals)
    ensures var d := AttendAll(codec, number, Client(None, [], [], []), attempts);
            && (d.cursor.None? ==> d.handled == [])
            && (d.cursor.Some? ==>
                  base <= d.cursor.value
                      && d.handled == Kept(Between(journals[|attempts|], base, d.cursor.value), d.skips))
  {
    hide Faithful, Session, AttendAll;
    var c := Client(None, [], [], []);
    SessionShape(codec, number, c, attempts, journals);
    BetweenEmpty(journals[0], 0);
    base := SessionKeepsStanding(codec, number, c, attempts, journals, 0);
    BetweenEmpty(journals[|attempts|], base);
  }

  lemma SessionShape(codec: Codec, number: string -> Option<real>, c: Client, attempts: seq<Attempt>,
                     journals: seq<seq<Row>>)
    requires Session(codec, number, c, attempts, journals)
    ensures |journals| == |attempts| + 1
  {
  }
}
