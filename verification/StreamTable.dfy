/** What one connection gets: where it starts, what each poll sends, and that a healthy connection has
    sent everything there is as soon as it has polled often enough. */
module StreamTable {
  import opened Wrappers
  import opened Text
  import opened EventStream
  import opened Sse

  /** Where a connection starts: the header wins over the query parameter; a cursor must be a number that
      is not negative, at most 5000 sequences behind; without one, 200 sequences back. */
  lemma CursorTable(header: Option<string>, query: Option<string>, maxSeq: nat)
    ensures var given := match header case Some(text) => Some(text) case None => query;
            ResolveCursor(header, query, maxSeq) ==
              match given
              case None => Ok(if maxSeq <= 200 then 0 else maxSeq - 200)
              case Some(text) =>
                var n := ParseI64(Trim(text));
                if n.None? || n.value < 0 then Err(BadCursor)
                else if maxSeq > n.value + 5000 then Err(CursorTooOld)
                else Ok(n.value)
  {
    hide ParseI64, Trim;
  }

  /** A row is sent from a cursor exactly when it is in the journal, streamable and above the cursor. */
  lemma {:induction false} AboveMembers(j: seq<Row>, cursor: nat, r: Row)
    ensures r in Above(j, cursor) <==> r in j && r.streamable && r.sequence > cursor
  {
    if j != [] {
      AboveMembers(j[1..], cursor, r);
      assert j == [j[0]] + j[1..];
    }
  }

  function Firsts(rows: seq<Row>, n: nat): seq<Row> {
    if |rows| <= n then rows else rows[..n]
  }

  /** One poll while catching up sends the next 1000 rows at most; a live one sends all there are, or only
      a resync when they are more than 256; a heartbeat pings a live connection; an error ends it. */
  lemma PollTable(cursor: nat, view: seq<Row>, current: Option<nat>, revoked: bool)
    ensures Produced(false, cursor, [Poll(view, current)]) == Rows(Firsts(Above(view, cursor), 1000))
    ensures Produced(true, cursor, [Poll(view, current)]) ==
              if |Above(view, cursor)| > 256
              then [SentResync(match current case Some(n) => n case None => cursor)]
              else Rows(Above(view, cursor))
    ensures Produced(false, cursor, [Beat(revoked)]) == [] && Produced(true, cursor, [Beat(revoked)]) == [SentPing]
    ensures Produced(false, cursor, [JournalError]) == [] == Produced(true, cursor, [JournalError])
  {
    hide Above;
    var all := Above(view, cursor);
    assert [Poll(view, current)][1..] == [] && [Beat(revoked)][1..] == [] && [SentPing] + [] == [SentPing];
    assert Take(Take(all, 1001), 1000) == Firsts(all, 1000);
    assert |all| <= 256 ==> Take(all, 257) == all;
    assert Rows(Firsts(all, 1000)) + [] == Rows(Firsts(all, 1000)) && Rows(all) + [] == Rows(all);
  }

  // ----- a healthy connection -----

  /** The rows among what was sent. */
  function RowsIn(ss: seq<Sent>): seq<Row> {
    if ss == [] then [] else (if ss[0].SentRow? then [ss[0].row] else []) + RowsIn(ss[1..])
  }

  predicate Healthy(ticks: seq<Tick>) {
    forall i | 0 <= i < |ticks| :: ticks[i] != JournalError && ticks[i] != Beat(true)
  }

  predicate NoResync(ss: seq<Sent>) {
    forall i | 0 <= i < |ss| :: !ss[i].SentResync?
  }

  function Polls(ticks: seq<Tick>): nat {
    if ticks == [] then 0 else (if ticks[0].Poll? then 1 else 0) + Polls(ticks[1..])
  }

  function LastView(before: seq<Row>, ticks: seq<Tick>): seq<Row>
    decreases |ticks|
  {
    if ticks == [] then before else LastView(if ticks[0].Poll? then ticks[0].view else before, ticks[1..])
  }

  lemma {:induction false} RowsInAppend(xs: seq<Row>, ss: seq<Sent>)
    ensures RowsIn(Rows(xs) + ss) == xs + RowsIn(ss)
  {
    if xs == [] {
      assert Rows(xs) + ss == ss;
    } else {
      var all := Rows(xs) + ss;
      assert all[1..] == Rows(xs[1..]) + ss;
      RowsInAppend(xs[1..], ss);
    }
  }

  lemma {:induction false} AboveAppend(j: seq<Row>, more: seq<Row>, cursor: nat)
    ensures Above(j + more, cursor) == Above(j, cursor) + Above(more, cursor)
  {
    if j == [] { assert j + more == more; } else {
      assert (j + more)[1..] == j[1..] + more;
      AboveAppend(j[1..], more, cursor);
    }
  }

  lemma AboveGrows(view: seq<Row>, j: seq<Row>, cursor: nat)
    requires view <= j
    ensures Above(view, cursor) <= Above(j, cursor)
  {
    assert j == view + j[|view|..];
    AboveAppend(view, j[|view|..], cursor);
  }

  /** After the first rows above a cursor come the others. */
  lemma {:induction false} AboveRest(j: seq<Row>, cursor: nat, n: nat)
    requires Ascending(j) && n <= |Above(j, cursor)|
    ensures Above(j, LastOf(Above(j, cursor)[..n], cursor)) == Above(j, cursor)[n..]
    decreases n
  {
    hide Above;
    var rows := Above(j, cursor);
    if n > 0 {
      FirstAbove(j, cursor);
      AboveRest(j, rows[0].sequence, n - 1);
      assert rows[1..][..n - 1] == rows[..n][1..] && rows[1..][n - 1..] == rows[n..];
    }
  }

  lemma {:induction false} LastViewWithin(before: seq<Row>, ticks: seq<Tick>, j: seq<Row>)
    requires Growing(before, ticks, j)
    ensures before <= LastView(before, ticks) <= j && Ascending(LastView(before, ticks))
    decreases |ticks|
  {
    if ticks != [] { LastViewWithin(if ticks[0].Poll? then ticks[0].view else before, ticks[1..], j); }
  }

  lemma {:induction false} NoPollsNoRows(live: bool, cursor: nat, before: seq<Row>, ticks: seq<Tick>)
    requires Polls(ticks) == 0
    ensures RowsIn(Produced(live, cursor, ticks)) == [] && LastView(before, ticks) == before
    decreases |ticks|
  {
    if ticks != [] {
      NoPollsNoRows(live, cursor, before, ticks[1..]);
      if ticks[0].Beat? && live {
        var rest := if ticks[0].revoked then [] else Produced(live, cursor, ticks[1..]);
        assert ([SentPing] + rest)[1..] == rest;
      }
    }
  }

  /** One poll that sends the first `n` rows there are, and what is left to send. */
  lemma BatchThenRest(view: seq<Row>, last: seq<Row>, cursor: nat, n: nat)
    requires view <= last && Ascending(last) && n <= |Above(view, cursor)|
    ensures var batch := Above(view, cursor)[..n];
            Above(last, cursor) == batch + Above(last, LastOf(batch, cursor))
  {
    hide Above;
    AboveGrows(view, last, cursor);
    AboveRest(last, cursor, n);
    assert Above(last, cursor)[..n] == Above(view, cursor)[..n];
  }

  lemma NoResyncTail(xs: seq<Sent>, ys: seq<Sent>)
    requires NoResync(xs + ys)
    ensures NoResync(ys)
  {
    forall i | 0 <= i < |ys| ensures !ys[i].SentResync? { assert (xs + ys)[|xs| + i] == ys[i]; }
  }

  lemma HealthyTail(ticks: seq<Tick>)
    requires Healthy(ticks) && ticks != []
    ensures Healthy(ticks[1..]) && ticks[0] != JournalError && ticks[0] != Beat(true)
  {
  }

  /** A connection that meets no error, no revocation and no resync has sent, after its last poll, every
      streamable row above its cursor that this poll saw, each once and in order, provided it is live
      or has polled at least once for every 1000 of them. */
  lemma {:induction false} CatchesUp(live: bool, cursor: nat, before: seq<Row>, ticks: seq<Tick>, j: seq<Row>)
    requires Growing(before, ticks, j) && Healthy(ticks) && NoResync(Produced(live, cursor, ticks))
    requires Polls(ticks) > 0
    requires live || |Above(LastView(before, ticks), cursor)| <= 1000 * Polls(ticks)
    ensures RowsIn(Produced(live, cursor, ticks)) == Above(LastView(before, ticks), cursor)
    decreases |ticks|
  {
    hide Above, Ascending, NoResync, RowsIn, Healthy;
    HealthyTail(ticks);
    LastViewWithin(before, ticks, j);
    match ticks[0] {
      case Beat(revoked) =>
        PingOnly(live, cursor, ticks);
        CatchesUp(live, cursor, before, ticks[1..], j);
      case Poll(view, current) =>
        var last := LastView(before, ticks);
        LastViewWithin(view, ticks[1..], j);
        var limit := if live then 256 else 1000;
        PollSends(live, cursor, view, current, ticks);
        var n := if |Above(view, cursor)| <= limit then |Above(view, cursor)| else limit;
        var batch := Above(view, cursor)[..n];
        BatchThenRest(view, last, cursor, n);
        AboveGrows(view, last, cursor);
        var c := LastOf(batch, cursor);
        var now := live || |Above(view, cursor)| <= limit;
        if Polls(ticks[1..]) == 0 {
          NoPollsNoRows(now, c, view, ticks[1..]);
          assert Above(last, cursor) == batch;
        } else {
          CatchesUp(now, c, view, ticks[1..], j);
        }
    }
  }

  lemma PingOnly(live: bool, cursor: nat, ticks: seq<Tick>)
    requires ticks != [] && ticks[0] == Beat(false) && NoResync(Produced(live, cursor, ticks))
    ensures RowsIn(Produced(live, cursor, ticks)) == RowsIn(Produced(live, cursor, ticks[1..]))
    ensures NoResync(Produced(live, cursor, ticks[1..]))
  {
    var rest := Produced(live, cursor, ticks[1..]);
    assert ([SentPing] + rest)[1..] == rest;
    NoResyncTail(if live then [SentPing] else [], rest);
    assert [] + rest == rest;
  }

  lemma Overflows(cursor: nat, view: seq<Row>, current: Option<nat>, ticks: seq<Tick>)
    requires ticks != [] && ticks[0] == Poll(view, current)
    ensures |Above(view, cursor)| > 256 ==> !NoResync(Produced(true, cursor, ticks))
  {
    hide Above;
    if |Above(view, cursor)| > 256 { assert Produced(true, cursor, ticks)[0].SentResync?; }
  }

  /** The first poll of a connection that needs no resync. */
  lemma PollSends(live: bool, cursor: nat, view: seq<Row>, current: Option<nat>, ticks: seq<Tick>)
    requires ticks != [] && ticks[0] == Poll(view, current) && NoResync(Produced(live, cursor, ticks))
    ensures var limit := if live then 256 else 1000; var all := Above(view, cursor);
            var n := if |all| <= limit then |all| else limit;
            var rest := Produced(live || |all| <= limit, LastOf(all[..n], cursor), ticks[1..]);
            && (live ==> |all| <= limit)
            && RowsIn(Produced(live, cursor, ticks)) == all[..n] + RowsIn(rest) && NoResync(rest)
  {
    hide Above;
    var limit, all := if live then 256 else 1000, Above(view, cursor);
    var n := if |all| <= limit then |all| else limit;
    Overflows(cursor, view, current, ticks);
    var rest := Produced(live || |all| <= limit, LastOf(all[..n], cursor), ticks[1..]);
    assert Take(Take(all, limit + 1), limit) == all[..n];
    assert live ==> Take(all, limit + 1) == all[..n];
    assert Produced(live, cursor, ticks) == Rows(all[..n]) + rest;
    RowsInAppend(all[..n], rest);
    NoResyncTail(Rows(all[..n]), rest);
  }

  // ----- the bytes of a connection -----

  /** The wire text of every message: the retry hint, the greeting, a row under its sequence, a ping, a
      control. */
  lemma WireTable(sequence: nat, json: string)
    ensures Render(Retry) == "retry: 3000\n\n" && Render(Ping) == ":ping\n\n"
    ensures Render(Hello(json)) == "event: stream.hello\ndata: " + json + "\n\n"
    ensures Render(Control(json)) == "event: control\ndata: " + json + "\n\n"
    ensures Render(Data(sequence, json)) == "id: " + Decimal(sequence) + "\ndata: " + json + "\n\n"
  {
    hide Decimal, Render, DataPart;
    HintWire();
    NamedWire(json);
    DataWire(sequence, json);
  }

  lemma HintWire()
    ensures Render(Retry) == "retry: 3000\n\n" && Render(Ping) == ":ping\n\n"
  {
    Thousands();
  }

  lemma NamedWire(json: string)
    ensures Render(Hello(json)) == "event: stream.hello\ndata: " + json + "\n\n"
    ensures Render(Control(json)) == "event: control\ndata: " + json + "\n\n"
  {
    hide Decimal, DataPart;
    Joined("event: stream.hello\n", json);
    Joined("event: control\n", json);
    assert "event: " + "stream.hello" + "\n" == "event: stream.hello\n";
    assert "event: " + "control" + "\n" == "event: control\n";
    assert "event: stream.hello\n" + "data: " == "event: stream.hello\ndata: ";
    assert "event: control\n" + "data: " == "event: control\ndata: ";
  }

  lemma DataWire(sequence: nat, json: string)
    ensures Render(Data(sequence, json)) == "id: " + Decimal(sequence) + "\ndata: " + json + "\n\n"
  {
    hide Decimal, DataPart;
    var head := "id: " + Decimal(sequence) + "\n";
    Joined(head, json);
    assert head + "data: " == "id: " + Decimal(sequence) + "\ndata: ";
  }

  lemma Thousands()
    ensures Decimal(3000) == "3000"
  {
    assert Decimal(3) == "3" && Decimal(30) == "30" && Decimal(300) == "300";
  }

  lemma Joined(head: string, json: string)
    ensures head + DataPart(json) == head + "data: " + json + "\n\n"
  {
    assert DataPart(json) == "data: " + json + "\n\n";
  }

  /** A connection's body: the retry hint, the greeting with the journal's maximum, then one message for
      each thing the producer sends. */
  lemma BodyTable(c: Codec, hello: nat, ss: seq<Sent>, i: nat)
    requires i < |ss|
    ensures var body := Body(c, hello, ss);
            && |body| == |ss| + 2 && body[0] == Retry && body[1] == Hello(c.greeting(hello))
            && body[i + 2] ==
                 match ss[i]
                 case SentRow(row) => Data(row.sequence, c.row(row))
                 case SentPing => Ping
                 case SentResync(current) => Control(c.resync(current))
  {
  }
}
