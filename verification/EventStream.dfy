/** The host event stream: connect-time cursors, the rows a cursor has still to see, and the
    producer of one connection. Models crates/agentmeld-server/src/events.rs and
    `stream_events_after` of db.rs. */
module EventStream {
  import opened Wrappers
  import opened Text
  import Sse

  const CURSOR_TOO_OLD_WINDOW: int := 5000
  const DEFAULT_REPLAY_LIMIT: int := 200
  const REPLAY_BATCH: nat := 1000
  const DEFAULT_QUEUE_CAP: nat := 256

  /** A run_events row; `streamable` is its visibility and kind filter. */
  datatype Row = Row(sequence: nat, id: string, streamable: bool, payload: string)

  ghost predicate Ascending(j: seq<Row>) {
    forall i, k | 0 <= i < k < |j| :: j[i].sequence < j[k].sequence
  }

  /** `max_event_sequence`. */
  function MaxSeq(j: seq<Row>): nat {
    if j == [] then 0 else j[|j| - 1].sequence
  }

  /** The streamable rows above a cursor. */
  function Above(j: seq<Row>, cursor: nat): seq<Row> {
    if j == [] then []
    else if j[0].streamable && j[0].sequence > cursor then [j[0]] + Above(j[1..], cursor)
    else Above(j[1..], cursor)
  }

  function Take<T>(s: seq<T>, n: nat): seq<T> {
    if |s| <= n then s else s[..n]
  }

  /** `stream_events_after`. */
  function EventsAfter(j: seq<Row>, cursor: nat, limit: nat): seq<Row> {
    Take(Above(j, cursor), limit)
  }

  // ----- cursors -----

  datatype Rejection = BadCursor | CursorTooOld

  /** A cursor is a 64-bit integer that is not negative. */
  function ParseCursor(s: string): Option<nat> {
    var n := ParseI64(s);
    if n.Some? && n.value >= 0 then Some(n.value) else None
  }

  /** `resolve_cursor`: the header wins over the query parameter. */
  function ResolveCursor(lastEventId: Option<string>, query: Option<string>, maxSeq: nat): Result<nat, Rejection> {
    var param := if lastEventId.Some? then lastEventId else query;
    var parsed := if param.Some? then ParseCursor(Trim(param.value)) else None;
    if param.Some? && parsed.None? then Err(BadCursor) else
    var cursor: int := if param.Some? then parsed.value
                       else if maxSeq - DEFAULT_REPLAY_LIMIT > 0 then maxSeq - DEFAULT_REPLAY_LIMIT else 0;
    if maxSeq - cursor > CURSOR_TOO_OLD_WINDOW then Err(CursorTooOld) else Ok(cursor)
  }

  lemma TrimDecimal(n: nat)
    ensures Trim(Decimal(n)) == Decimal(n)
  {
  }

  /** The cursor a client prints is the cursor the server resumes from, unless it is more than the
      window behind. */
  lemma PrintedCursorResolves(n: nat, maxSeq: nat, query: Option<string>)
    requires n <= I64_MAX
    ensures ResolveCursor(Some(Decimal(n)), query, maxSeq) ==
              if maxSeq - n > CURSOR_TOO_OLD_WINDOW then Err(CursorTooOld) else Ok(n)
  {
    TrimDecimal(n);
    ParseDecimal(n);
  }

  // ----- the producer -----

  /** How rows and controls are written as JSON, and what the client reads. */
  datatype Message = Envelope(row: Row) | Resync(current: nat) | Greeting(current: nat) | Unreadable

  datatype Codec = Codec(row: Row -> string, greeting: nat -> string, resync: nat -> string, read: string -> Message)

  ghost predicate Faithful(c: Codec) {
    && (forall r: Row :: Sse.OneLine(c.row(r)) && c.read(c.row(r)) == Envelope(r))
    && (forall n: nat :: Sse.OneLine(c.greeting(n)) && c.read(c.greeting(n)) == Greeting(n))
    && (forall n: nat :: Sse.OneLine(c.resync(n)) && c.read(c.resync(n)) == Resync(n))
  }

  /** What the producer's loop meets: a poll of the journal (with the maximum it reads afterwards
      for a control frame), a heartbeat with its revocation check, or a failed query. */
  datatype Tick =
    | Poll(view: seq<Row>, current: Option<nat>)
    | Beat(revoked: bool)
    | JournalError

  /** The messages of a connection before they are rendered. */
  datatype Sent = SentRow(row: Row) | SentPing | SentResync(current: nat)

  function Rows(rows: seq<Row>): seq<Sent> {
    seq(|rows|, i requires 0 <= i < |rows| => SentRow(rows[i]))
  }

  function LastOf(rows: seq<Row>, cursor: nat): nat {
    if rows == [] then cursor else rows[|rows| - 1].sequence
  }

  /** Catch-up in bounded batches, then live polling until the queue bound, a revocation or an
      error ends the connection. Heartbeats start with the live phase. */
  function Produced(live: bool, cursor: nat, ticks: seq<Tick>): seq<Sent>
    decreases |ticks|
  {
    if ticks == [] then [] else
    match ticks[0]
    case JournalError => []
    case Beat(revoked) =>
      if !live then Produced(live, cursor, ticks[1..])
      else [SentPing] + (if revoked then [] else Produced(live, cursor, ticks[1..]))
    case Poll(view, current) =>
      if !live then
        var rows := EventsAfter(view, cursor, REPLAY_BATCH + 1);
        var batch := Take(rows, REPLAY_BATCH);
        Rows(batch) + Produced(|rows| <= REPLAY_BATCH, LastOf(batch, cursor), ticks[1..])
      else
        var rows := EventsAfter(view, cursor, DEFAULT_QUEUE_CAP + 1);
        if |rows| > DEFAULT_QUEUE_CAP then [SentResync(if current.Some? then current.value else cursor)]
        else Rows(rows) + Produced(live, LastOf(rows, cursor), ticks[1..])
  }

  /** Send a batch; the cursor follows row by row. */
  method SendRows(rows: seq<Row>, sent: seq<Sent>, cursor: nat) returns (sent': seq<Sent>, cursor': nat)
    ensures sent' == sent + Rows(rows) && cursor' == LastOf(rows, cursor)
  {
    sent', cursor' := sent, cursor;
    for k := 0 to |rows|
      invariant sent' == sent + Rows(rows[..k]) && cursor' == LastOf(rows[..k], cursor)
    {
      assert Rows(rows[..k + 1]) == Rows(rows[..k]) + [SentRow(rows[k])];
      cursor' := rows[k].sequence;
      sent' := sent' + [SentRow(rows[k])];
    }
    assert rows[..|rows|] == rows;
  }

  /** `run_producer` after its hello: first the catch-up loop, then the live loop. */
  method RunProducer(start: nat, ticks: seq<Tick>) returns (sent: seq<Sent>)
    ensures sent == Produced(false, start, ticks)
  {
    hide EventsAfter, Rows, LastOf, Produced;
    sent := [];
    var cursor, i, caughtUp := start, 0, false;
    while i < |ticks| && !caughtUp
      invariant 0 <= i <= |ticks|
      invariant Produced(false, start, ticks) == sent + Produced(caughtUp, cursor, ticks[i..])
      decreases |ticks| - i
    {
      ProducedStep(caughtUp, cursor, ticks, i, sent);
      match ticks[i] {
        case JournalError => return;
        case Beat(_) =>
        case Poll(view, _) =>
          var rows := EventsAfter(view, cursor, REPLAY_BATCH + 1);
          caughtUp := |rows| <= REPLAY_BATCH;
          sent, cursor := SendRows(Take(rows, REPLAY_BATCH), sent, cursor);
      }
      i := i + 1;
    }
    while i < |ticks|
      invariant 0 <= i <= |ticks|
      invariant caughtUp || i == |ticks|
      invariant Produced(false, start, ticks) == sent + Produced(caughtUp, cursor, ticks[i..])
    {
      ProducedStep(caughtUp, cursor, ticks, i, sent);
      match ticks[i] {
        case JournalError => return;
        case Beat(revoked) =>
          sent := sent + [SentPing];
          if revoked { return; }
        case Poll(view, current) =>
          var rows := EventsAfter(view, cursor, DEFAULT_QUEUE_CAP + 1);
          if |rows| > DEFAULT_QUEUE_CAP {
            sent := sent + [SentResync(if current.Some? then current.value else cursor)];
            return;
          }
          sent, cursor := SendRows(rows, sent, cursor);
      }
      i := i + 1;
    }
    ProducedEnd(caughtUp, cursor, ticks, sent);
  }

  lemma ProducedEnd(live: bool, cursor: nat, ticks: seq<Tick>, sent: seq<Sent>)
    ensures sent + Produced(live, cursor, ticks[|ticks|..]) == sent
  {
  }

  lemma ProducedStep(live: bool, cursor: nat, ticks: seq<Tick>, i: nat, sent: seq<Sent>)
    requires i < |ticks|
    ensures sent + Produced(live, cursor, ticks[i..]) ==
              match ticks[i]
              case JournalError => sent
              case Beat(revoked) =>
                if !live then sent + Produced(live, cursor, ticks[i + 1..])
                else if revoked then sent + [SentPing] else sent + [SentPing] + Produced(live, cursor, ticks[i + 1..])
              case Poll(view, current) =>
                var limit := if live then DEFAULT_QUEUE_CAP else REPLAY_BATCH;
                var rows := EventsAfter(view, cursor, limit + 1);
                if live && |rows| > limit then sent + [SentResync(if current.Some? then current.value else cursor)]
                else
                  var rest := Produced(live || |rows| <= limit, LastOf(Take(rows, limit), cursor), ticks[i + 1..]);
                  sent + Rows(Take(rows, limit)) + rest
  {
    hide EventsAfter, Rows, LastOf;
    assert ticks[i..][0] == ticks[i] && ticks[i..][1..] == ticks[i + 1..];
    match ticks[i] {
      case JournalError => assert sent + [] == sent;
      case Beat(revoked) =>
        assert sent + ([SentPing] + Produced(live, cursor, ticks[i + 1..])) ==
            sent + [SentPing] + Produced(live, cursor, ticks[i + 1..]);
        assert [SentPing] + [] == [SentPing];
      case Poll(view, current) =>
        var limit := if live then DEFAULT_QUEUE_CAP else REPLAY_BATCH;
        var rows := EventsAfter(view, cursor, limit + 1);
        var batch, rest := Take(rows, limit),
            Produced(live || |rows| <= limit, LastOf(Take(rows, limit), cursor), ticks[i + 1..]);
        assert sent + (Rows(batch) + rest) == sent + Rows(batch) + rest;
    }
  }

  function ItemOf(c: Codec, s: Sent): Sse.Item {
    match s
    case SentRow(row) => Sse.Data(row.sequence, c.row(row))
    case SentPing => Sse.Ping
    case SentResync(current) => Sse.Control(c.resync(current))
  }

  function ItemsOf(c: Codec, ss: seq<Sent>): seq<Sse.Item> {
    seq(|ss|, i requires 0 <= i < |ss| => ItemOf(c, ss[i]))
  }

  /** The whole body of a connection: retry hint, hello, then what the producer sends. */
  function Body(c: Codec, hello: nat, ss: seq<Sent>): seq<Sse.Item> {
    [Sse.Retry, Sse.Hello(c.greeting(hello))] + ItemsOf(c, ss)
  }

  // ----- what the producer guarantees: every streamable row above the cursor, in order -----

  /** The streamable rows above one cursor, up to another. */
  function Between(j: seq<Row>, from: nat, to: nat): seq<Row> {
    if j == [] then []
    else if j[0].streamable && from < j[0].sequence <= to then [j[0]] + Between(j[1..], from, to)
    else Between(j[1..], from, to)
  }

  /** From a position in the journal `j`: each row sent is the next streamable one, and a resync
      comes last and does not move back. */
  ghost predicate NextRows(j: seq<Row>, position: nat, ss: seq<Sent>)
    decreases |ss|
  {
    if ss == [] then true else
    match ss[0]
    case SentRow(row) =>
      && position < row.sequence <= MaxSeq(j) && Between(j, position, row.sequence) == [row]
      && NextRows(j, row.sequence, ss[1..])
    case SentPing => NextRows(j, position, ss[1..])
    case SentResync(current) => |ss| == 1 && (current == position || position <= current <= MaxSeq(j))
  }

  lemma AscendingTail(j: seq<Row>)
    requires Ascending(j) && j != []
    ensures Ascending(j[1..]) && MaxSeq(j[1..]) <= MaxSeq(j)
    ensures forall i | 0 <= i < |j[1..]| :: j[0].sequence < j[1..][i].sequence <= MaxSeq(j)
  {
  }

  /** Nothing lies between when every row is above. */
  lemma {:induction false} NoneBetween(j: seq<Row>, from: nat, to: nat)
    requires forall i | 0 <= i < |j| :: j[i].sequence > to || j[i].sequence <= from
    ensures Between(j, from, to) == []
  {
    if j != [] { NoneBetween(j[1..], from, to); }
  }

  lemma {:induction false} NoneBelow(j: seq<Row>, a: nat, b: nat)
    requires a <= b && forall i | 0 <= i < |j| :: j[i].sequence > b
    ensures Above(j, a) == Above(j, b)
  {
    if j != [] { NoneBelow(j[1..], a, b); }
  }

  /** The first row above a cursor is the only one up to its own sequence. */
  lemma {:induction false} FirstAbove(j: seq<Row>, cursor: nat)
    requires Ascending(j) && Above(j, cursor) != []
    ensures var r := Above(j, cursor)[0];
            && cursor < r.sequence <= MaxSeq(j) && Between(j, cursor, r.sequence) == [r]
            && Above(j, r.sequence) == Above(j, cursor)[1..]
  {
    AscendingTail(j);
    var r := Above(j, cursor)[0];
    if j[0].streamable && j[0].sequence > cursor {
      NoneBetween(j[1..], cursor, r.sequence);
      NoneBelow(j[1..], cursor, r.sequence);
      assert Above(j, cursor)[1..] == Above(j[1..], cursor);
    } else {
      FirstAbove(j[1..], cursor);
    }
  }

  lemma {:induction false} BetweenAppend(j: seq<Row>, more: seq<Row>, from: nat, to: nat)
    ensures Between(j + more, from, to) == Between(j, from, to) + Between(more, from, to)
    decreases |j|
  {
    if j == [] { assert j + more == more; } else {
      assert (j + more)[1..] == j[1..] + more;
      BetweenAppend(j[1..], more, from, to);
    }
  }

  /** Rows journalled later do not change what lies below the maximum. */
  lemma BetweenStable(j: seq<Row>, g: seq<Row>, from: nat, to: nat)
    requires j <= g && Ascending(g) && to <= MaxSeq(j)
    ensures Between(g, from, to) == Between(j, from, to)
  {
    var more := g[|j|..];
    assert g == j + more;
    BetweenAppend(j, more, from, to);
    NoneBetween(more, from, to) by {
      if j != [] { assert forall i | 0 <= i < |more| :: more[i] == g[|j| + i]; }
    }
  }

  lemma MaxSeqGrows(j: seq<Row>, g: seq<Row>)
    requires j <= g && Ascending(g)
    ensures MaxSeq(j) <= MaxSeq(g)
  {
  }

  lemma {:induction false} BatchIsNext(view: seq<Row>, j: seq<Row>, cursor: nat, n: nat, rest: seq<Sent>)
    requires view <= j && Ascending(j)
    requires NextRows(j, LastOf(EventsAfter(view, cursor, n), cursor), rest)
    ensures NextRows(j, cursor, Rows(EventsAfter(view, cursor, n)) + rest)
    decreases n
  {
    hide Between, Above;
    var rows := EventsAfter(view, cursor, n);
    if rows == [] {
      assert Rows(rows) + rest == rest;
    } else {
      assert Ascending(view);
      FirstAbove(view, cursor);
      var r := rows[0];
      MaxSeqGrows(view, j);
      BetweenStable(view, j, cursor, r.sequence);
      assert EventsAfter(view, r.sequence, n - 1) == rows[1..];
      BatchIsNext(view, j, r.sequence, n - 1, rest);
      var ss := Rows(rows) + rest;
      assert ss[1..] == Rows(rows[1..]) + rest;
    }
  }

  /** The journal each tick sees extends the one before; the last is within `j`. */
  ghost predicate Growing(before: seq<Row>, ticks: seq<Tick>, j: seq<Row>)
    decreases |ticks|
  {
    if ticks == [] then before <= j && Ascending(j)
    else if ticks[0].Poll? then
      before <= ticks[0].view && Growing(ticks[0].view, ticks[1..], j)
      && (ticks[0].current.Some? ==> MaxSeq(ticks[0].view) <= ticks[0].current.value <= MaxSeq(j))
    else Growing(before, ticks[1..], j)
  }

  lemma {:induction false} GrowingWithin(before: seq<Row>, ticks: seq<Tick>, j: seq<Row>)
    requires Growing(before, ticks, j)
    ensures before <= j && Ascending(j)
    decreases |ticks|
  {
    if ticks != [] {
      if ticks[0].Poll? { GrowingWithin(ticks[0].view, ticks[1..], j); } else { GrowingWithin(before, ticks[1..], j); }
    }
  }

  /** Whatever the interleaving of polls, heartbeats and errors: the producer sends, from its
      cursor on, the next streamable row each time; none is skipped, repeated or reordered. */
  lemma {:induction false} ProducerInOrder(live: bool, cursor: nat, before: seq<Row>, ticks: seq<Tick>, j: seq<Row>)
    requires Growing(before, ticks, j)
    ensures NextRows(j, cursor, Produced(live, cursor, ticks))
    decreases |ticks|
  {
    hide Between, Above, Ascending;
    if ticks != [] {
      match ticks[0] {
        case JournalError =>
        case Beat(revoked) =>
          ProducerInOrder(live, cursor, before, ticks[1..], j);
          var ss := Produced(live, cursor, ticks);
          if live && !revoked { assert ss[1..] == Produced(live, cursor, ticks[1..]); }
        case Poll(view, current) =>
          GrowingWithin(view, ticks[1..], j);
          assert Ascending(view) by { AscendingPrefix(view, j); }
          var limit := if live then DEFAULT_QUEUE_CAP else REPLAY_BATCH;
          var rows := EventsAfter(view, cursor, limit + 1);
          if live && |rows| > limit {
            FirstAbove(view, cursor);
            MaxSeqGrows(view, j) by { AscendingPrefix(j, j); }
          } else {
            var batch := Take(rows, limit);
            assert batch == EventsAfter(view, cursor, limit);
            ProducerInOrder(live || |rows| <= limit, LastOf(batch, cursor), view, ticks[1..], j);
            BatchIsNext(view, j, cursor, limit, Produced(live || |rows| <= limit, LastOf(batch, cursor), ticks[1..]));
          }
      }
    }
  }

  lemma AscendingPrefix(view: seq<Row>, j: seq<Row>)
    requires view <= j && Ascending(j)
    ensures Ascending(view)
  {
  }

  /** A cut connection still sends next rows only. */
  lemma {:induction false} PrefixInOrder(j: seq<Row>, position: nat, ss: seq<Sent>, n: nat)
    requires NextRows(j, position, ss) && n <= |ss|
    ensures NextRows(j, position, ss[..n])
    decreases n
  {
    hide Between;
    if n > 0 {
      assert ss[..n][1..] == ss[1..][..n - 1];
      match ss[0] {
        case SentRow(row) => PrefixInOrder(j, row.sequence, ss[1..], n - 1);
        case SentPing => PrefixInOrder(j, position, ss[1..], n - 1);
        case SentResync(_) =>
      }
    }
  }
}
