/** Two things the stream's own documentation says of it: that a connection without a cursor replays
    the latest 200 streamable rows, and that nothing is lost to a client that falls behind. When the
    code does so, and inputs on which it does not. */
module StreamClaims {
  import opened Wrappers
  import opened Text
  import opened EventStream
  import opened ClientTrack
  import Sse

  // ----- without a cursor -----

  function Latest(rows: seq<Row>, n: nat): seq<Row> {
    if |rows| <= n then rows else rows[|rows| - n..]
  }

  /** Where a connection without a cursor starts. */
  function DefaultCursor(j: seq<Row>): nat {
    if MaxSeq(j) > 200 then MaxSeq(j) - 200 else 0
  }

  predicate StreamsAt(j: seq<Row>, sequence: nat) {
    exists i | 0 <= i < |j| :: j[i].sequence == sequence && j[i].streamable
  }

  /** Every sequence of the range is that of a streamable row. */
  ghost predicate Full(j: seq<Row>, from: nat, to: nat) {
    forall s: nat | from < s <= to :: StreamsAt(j, s)
  }

  lemma {:induction false} CountAbove(j: seq<Row>, c: nat, m: nat)
    requires Ascending(j) && c <= m && forall i | 0 <= i < |j| :: j[i].sequence <= m
    ensures |Above(j, c)| <= m - c && (|Above(j, c)| == m - c <==> Full(j, c, m))
    decreases |j|
  {
    if j == [] {
      if c < m { assert !StreamsAt(j, m); }
    } else {
      AscendingTail(j);
      var s := j[0].sequence;
      if s <= c {
        CountAbove(j[1..], c, m);
        FullTail(j, c, c, m);
      } else {
        CountAbove(j[1..], s, m);
        NoneBelow(j[1..], c, s);
        FullTail(j, c, s, m);
      }
    }
  }

  /** Leaving out the first row, whose sequence is at most `d`. */
  lemma FullTail(j: seq<Row>, c: nat, d: nat, m: nat)
    requires j != [] && Ascending(j) && c <= d <= m && (d == c || d == j[0].sequence) && j[0].sequence <= d
    ensures Full(j, c, m) <==> Full(j[1..], d, m) && (d == c || (d == c + 1 && j[0].streamable))
  {
    forall s: nat | d < s ensures StreamsAt(j, s) <==> StreamsAt(j[1..], s) {
      if i :| 0 <= i < |j| && j[i].sequence == s && j[i].streamable { assert j[1..][i - 1] == j[i]; }
      if i :| 0 <= i < |j[1..]| && j[1..][i].sequence == s && j[1..][i].streamable { assert j[i + 1] == j[1..][i]; }
    }
    if d != c {
      assert StreamsAt(j, d) <==> j[0].streamable by { assert j[0].sequence == d; }
      if d > c + 1 { assert !StreamsAt(j, c + 1); }
    }
  }

  lemma {:induction false} AboveSplit(j: seq<Row>, c: nat)
    requires Ascending(j)
    ensures Above(j, 0) == Between(j, 0, c) + Above(j, c)
  {
    if j != [] {
      AscendingTail(j);
      if j[0].sequence > c {
        NoneBelow(j, 0, c);
        NoneBetween(j, 0, c);
      } else {
        AboveSplit(j[1..], c);
      }
    }
  }

  /** A connection without a cursor replays the latest 200 streamable rows of the journal, or all when
      there are fewer, exactly when the last 200 sequences are all of streamable rows or no
      streamable row lies before them. */
  lemma LatestIff(j: seq<Row>)
    requires Ascending(j)
    ensures ResolveCursor(None, None, MaxSeq(j)) == Ok(DefaultCursor(j))
    ensures var c := DefaultCursor(j);
            Above(j, c) == Latest(Above(j, 0), 200) <==> Full(j, c, MaxSeq(j)) || Between(j, 0, c) == []
  {
    hide Above, Between, Full;
    var c := DefaultCursor(j);
    AboveSplit(j, c);
    CountAbove(j, c, MaxSeq(j));
    if c == 0 { BetweenEmpty(j, 0); }
  }

  /** 201 rows, of which the last is not streamable. */
  function Uneven(): seq<Row> {
    seq(201, i requires 0 <= i < 201 => Row(i + 1, "", i < 200, ""))
  }

  /** The first row is among the latest 200 streamable ones and is not replayed. */
  lemma LatestFails()
    ensures var j := Uneven();
            Ascending(j) && Above(j, DefaultCursor(j)) != Latest(Above(j, 0), 200) && |Latest(Above(j, 0), 200)| == 200
  {
    hide Above;
    var j := Uneven();
    LatestIff(j);
    assert !StreamsAt(j, 201);
    assert j[0].streamable && 0 < j[0].sequence <= 1;
    assert Between(j, 0, 1) != [];
    Uneven200();
  }

  lemma Uneven200()
    ensures |Above(Uneven(), 0)| == 200
  {
    hide Above;
    var j := Uneven();
    var k := j[..200];
    forall s: nat | 0 < s <= 200 ensures StreamsAt(k, s) { assert k[s - 1].sequence == s; }
    CountAbove(k, 0, 200);
    AboveInit(k, j[200]);
    assert j == k + [j[200]];
  }

  lemma {:induction false} AboveInit(j: seq<Row>, r: Row)
    requires !r.streamable
    ensures Above(j + [r], 0) == Above(j, 0)
    decreases |j|
  {
    if j == [] { assert (j + [r])[1..] == []; } else {
      assert (j + [r])[1..] == j[1..] + [r];
      AboveInit(j[1..], r);
    }
  }

  // ----- falling behind -----

  /** Rows 1 to 257, all streamable. */
  function Burst(): seq<Row> {
    seq(257, i requires 0 <= i < 257 => Row(i + 1, "", true, ""))
  }

  lemma BurstFacts()
    ensures Ascending(Burst()) && MaxSeq(Burst()) == 257 && |Above(Burst(), 0)| == 257
  {
    hide Above;
    var j := Burst();
    forall s: nat | 0 < s <= 257 ensures StreamsAt(j, s) { assert j[s - 1].sequence == s; }
    CountAbove(j, 0, 257);
  }

  const TICKS: seq<Tick> := [Poll([], None), Poll(Burst(), Some(257))]

  lemma BurstResyncs()
    ensures Produced(false, 0, TICKS) == [SentResync(257)] && Growing([], TICKS, Burst())
  {
    hide Above;
    BurstFacts();
    NothingAbove();
    assert TICKS[1..] == [Poll(Burst(), Some(257))];
    assert TICKS[1..][1..] == [];
    BurstLive();
    assert Rows([]) + [SentResync(257)] == [SentResync(257)];
  }

  lemma NothingAbove()
    ensures Above([], 0) == []
  {
  }

  lemma BurstLive()
    ensures Produced(true, 0, [Poll(Burst(), Some(257))]) == [SentResync(257)]
  {
    hide Above;
    BurstFacts();
  }

  /** 257 rows are journalled while a client is connected, all between two polls: it is told to resync,
      jumps to the last of them and has handled none. */
  lemma BurstLost(codec: Codec, number: string -> Option<real>)
    returns (attempts: seq<Attempt>, journals: seq<seq<Row>>)
    requires Faithful(codec)
    ensures Session(codec, number, Client(Some(0), [], [], []), attempts, journals)
    ensures |attempts| == 1 && |journals| == 2 && journals[1] == Burst()
    ensures var d := AttendAll(codec, number, Client(Some(0), [], [], []), attempts);
            d.cursor == Some(257) && d.handled == [] && |Between(Burst(), 0, 257)| == 257
  {
    hide Faithful, Produced, Growing, Burst, TICKS, ResolveCursor, Between, Above, Attend, Plausible;
    var c := Client(Some(0), [], [], []);
    var text := Sse.RenderAll(Body(codec, 0, [SentResync(257)]));
    var a := Reached([], 0, TICKS, [text]);
    attempts, journals := [a], [[], Burst()];
    BurstFacts();
    AttendBurst(codec, number, text);
    assert attempts[..0] == [] && journals[..1] == [[]];
    assert AttendAll(codec, number, c, []) == c;
    assert Session(codec, number, c, [], [[]]);
    AboveSplit(Burst(), 257);
    NoneAbove(Burst(), 257);
  }

  lemma {:induction false} NoneAbove(j: seq<Row>, m: nat)
    requires forall i | 0 <= i < |j| :: j[i].sequence <= m
    ensures Above(j, m) == []
  {
    if j != [] { NoneAbove(j[1..], m); }
  }

  lemma AttendBurst(codec: Codec, number: string -> Option<real>, text: string)
    requires Faithful(codec) && text == Sse.RenderAll(Body(codec, 0, [SentResync(257)]))
    ensures var c := Client(Some(0), [], [], []);
            && Plausible(codec, c, [], Reached([], 0, TICKS, [text]), Burst())
            && Attend(codec, number, c, Reached([], 0, TICKS, [text])) == Resynced(c, 257)
  {
    hide Faithful, Produced, Growing, Burst, TICKS, ResolveCursor, Sse.Render, Sse.FeedAll, DispatchAll, Resynced,
         Body, Decimal;
    var c := Client(Some(0), [], [], []);
    BurstResyncs();
    PrintedCursorResolves(0, 0, None);
    OneChunk(text);
    BodyPrintable(codec, 0, [SentResync(257)]);
    WholeBody(number, Body(codec, 0, [SentResync(257)]), text);
    HandshakeIgnored(codec, c, 0, [SentResync(257)]);
    DispatchAllIsReceiveAll(codec, c, [SentResync(257)]);
    OneReceived(c);
  }

  lemma OneReceived(c: Client)
    ensures ReceiveAll(c, [SentResync(257)]) == Resynced(c, 257)
  {
    hide Resynced;
    assert [SentResync(257)][1..] == [];
  }

  lemma OneChunk(text: string)
    ensures Sse.Concat([text]) == text
  {
    assert [text][..0] == [];
  }

  lemma WholeBody(number: string -> Option<real>, items: seq<Sse.Item>, text: string)
    requires (forall k | 0 <= k < |items| :: Sse.Printable(items[k])) && text == Sse.RenderAll(items)
    ensures Sse.FeedAll(number, Sse.START, [text]).1 == Sse.FramesOf(items)
  {
    hide Sse.Render, Sse.Printable, Sse.Feed, Sse.FeedAll;
    OneChunk(text);
    Sse.ChunkingIrrelevant(number, Sse.START, [text]);
    Sse.RenderAllParses(number, Sse.START, items);
  }
}
