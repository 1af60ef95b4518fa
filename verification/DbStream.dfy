/** The stream over the database it reads: what a client handles are rows of the journal, each once and
    in order, and never one that carries an execution ticket. */
module DbStream {
  import opened Wrappers
  import opened Tables
  import opened DbInvariant
  import opened DbRuns
  import opened EventStream
  import opened ClientTrack
  import RunTable
  import Sse
  import WorkerEvents

  /** The stream's filter of `run_events`: user-visible, and neither of two kinds. */
  predicate Streams(e: Event) {
    e.userVisible && !(e.kind.Worker? && (e.kind.body.ApprovalDispatched? || e.kind.body.SessionBound?))
  }

  /** Every row of the service's own is streamed, and every worker's event but a dispatch and a session
      binding. */
  lemma StreamedKinds(run: string, e: WorkerEvents.WorkerEvent, key: string, name: string)
    ensures Streams(RunTable.EventRow(run, e)) <==> !e.body.ApprovalDispatched? && !e.body.SessionBound?
    ensures forall more: Event | more == Event(key, run, Service(name), key, true) :: Streams(more)
  {
  }

  /** A journal row as the stream reads it; its sequence is its position plus one. */
  function StreamRow(show: Event -> string, events: seq<Event>, i: nat): Row
    requires i < |events|
  {
    Row(i + 1, events[i].id, Streams(events[i]), show(events[i]))
  }

  function StreamRows(show: Event -> string, events: seq<Event>): seq<Row> {
    seq(|events|, i requires 0 <= i < |events| => StreamRow(show, events, i))
  }

  lemma RowsAscend(show: Event -> string, events: seq<Event>)
    ensures Ascending(StreamRows(show, events)) && MaxSeq(StreamRows(show, events)) == |events|
  {
  }

  lemma RowsGrow(show: Event -> string, events: seq<Event>, more: seq<Event>)
    requires events <= more
    ensures StreamRows(show, events) <= StreamRows(show, more)
  {
  }

  /** The stream's view of a state of a history. */
  function View(show: Event -> string, h: History, i: nat): seq<Row>
    requires i < |h.states|
  {
    StreamRows(show, h.states[i].events)
  }

  lemma ViewsGrow(hash: string -> string, show: Event -> string, h: History, i: nat, k: nat)
    requires Behaviour(hash, h) && i <= k < |h.states|
    ensures View(show, h, i) <= View(show, h, k) && Ascending(View(show, h, i))
    ensures MaxSeq(View(show, h, i)) <= MaxSeq(View(show, h, k))
  {
    hide Behaviour, RowsEvolve, AllStepsEvolve, LeaseEvolves, StreamRows;
    NeverUndone(hash, h, i, k);
    RowsGrow(show, h.states[i].events, h.states[k].events);
    RowsAscend(show, h.states[i].events);
    RowsAscend(show, h.states[k].events);
  }

  // ----- connections to a running service -----

  /** What the producer's loop meets, with the states of the history it reads. */
  datatype Look =
    | LookAt(state: nat, later: Option<nat>)
    | BeatNow(revoked: bool)
    | ReadFails

  /** A connection attempt during a history, up to a state of it. */
  datatype Visit =
    | Missed(end: nat)
    | Visited(at: nat, hello: nat, looks: seq<Look>, chunks: seq<string>, end: nat)

  /** The states read follow one another and lie within the history. */
  predicate InTurn(looks: seq<Look>, from: nat, end: nat) {
    if looks == [] then from <= end
    else
      match looks[0]
      case LookAt(state, later) =>
        from <= state && (later.Some? ==> state <= later.value <= end) && InTurn(looks[1..], state, end)
      case _ => InTurn(looks[1..], from, end)
  }

  lemma {:induction false} InTurnWithin(looks: seq<Look>, from: nat, end: nat)
    requires InTurn(looks, from, end)
    ensures from <= end && forall i | 0 <= i < |looks| && looks[i].LookAt? ::
              looks[i].state <= end && (looks[i].later.Some? ==> looks[i].later.value <= end)
    decreases |looks|
  {
    if looks != [] {
      InTurnWithin(looks[1..], if looks[0].LookAt? then looks[0].state else from, end);
      forall i | 0 < i < |looks| ensures looks[i] == looks[1..][i - 1] {}
    }
  }

  predicate WithinHistory(h: History, looks: seq<Look>) {
    forall i | 0 <= i < |looks| && looks[i].LookAt? ::
      looks[i].state < |h.states| && (looks[i].later.Some? ==> looks[i].later.value < |h.states|)
  }

  function TickOf(show: Event -> string, h: History, l: Look): Tick
    requires WithinHistory(h, [l])
  {
    match l
    case LookAt(state, later) =>
      assert [l][0] == l;
      Poll(View(show, h, state), if later.Some? then Some(MaxSeq(View(show, h, later.value))) else None)
    case BeatNow(revoked) => Beat(revoked)
    case ReadFails => JournalError
  }

  function Ticks(show: Event -> string, h: History, looks: seq<Look>): seq<Tick>
    requires WithinHistory(h, looks)
  {
    seq(|looks|, i requires 0 <= i < |looks| =>
      assert [looks[i]][0] == looks[i];
      TickOf(show, h, looks[i]))
  }

  lemma {:induction false} TicksGrow(hash: string -> string, show: Event -> string, h: History, looks: seq<Look>,
                                     from: nat, end: nat)
    requires Behaviour(hash, h) && from <= end < |h.states| && InTurn(looks, from, end) && WithinHistory(h, looks)
    ensures Growing(View(show, h, from), Ticks(show, h, looks), View(show, h, end))
    decreases |looks|
  {
    hide Behaviour, View;
    InTurnWithin(looks, from, end);
    if looks == [] {
      ViewsGrow(hash, show, h, from, end);
      ViewsGrow(hash, show, h, end, end);
    } else {
      forall i | 0 <= i < |looks[1..]| ensures looks[1..][i] == looks[i + 1] {}
      var ticks := Ticks(show, h, looks);
      assert ticks[1..] == Ticks(show, h, looks[1..]);
      if looks[0].LookAt? {
        var state := looks[0].state;
        ViewsGrow(hash, show, h, from, state);
        TicksGrow(hash, show, h, looks[1..], state, end);
        if looks[0].later.Some? {
          ViewsGrow(hash, show, h, state, looks[0].later.value);
          ViewsGrow(hash, show, h, looks[0].later.value, end);
        }
      } else {
        TicksGrow(hash, show, h, looks[1..], from, end);
      }
    }
  }

  /** The visit falls within the history, after the state the client last saw. */
  predicate Timely(h: History, from: nat, v: Visit) {
    && from <= v.end < |h.states|
    && (v.Visited? ==> from <= v.at && InTurn(v.looks, v.at, v.end) && WithinHistory(h, v.looks) && v.at < |h.states|)
  }

  function AttemptOf(show: Event -> string, h: History, v: Visit): Attempt
    requires v.Visited? ==> v.at < |h.states| && WithinHistory(h, v.looks)
  {
    match v
    case Missed(_) => Unreachable
    case Visited(at, hello, looks, chunks, _) => Reached(View(show, h, at), hello, Ticks(show, h, looks), chunks)
  }

  /** What arrives of an answer is a prefix of what the producer sends for what it reads. */
  ghost predicate Arrives(codec: Codec, show: Event -> string, h: History, c: Client, v: Visit)
    requires v.Visited? ==> v.at < |h.states| && WithinHistory(h, v.looks)
  {
    v.Visited? ==>
      var start := ResolveCursor(Header(c), None, MaxSeq(View(show, h, v.at)));
      start.Ok? ==>
        var sent := Produced(false, start.value, Ticks(show, h, v.looks));
        Sse.Concat(v.chunks) <= Sse.RenderAll(EventStream.Body(codec, v.hello, sent))
  }

  lemma VisitPlausible(hash: string -> string, codec: Codec, show: Event -> string, h: History, c: Client,
                       from: nat, v: Visit)
    requires Behaviour(hash, h) && Timely(h, from, v) && Arrives(codec, show, h, c, v)
    ensures Plausible(codec, c, View(show, h, from), AttemptOf(show, h, v), View(show, h, v.end))
  {
    hide Behaviour, View, Produced, EventStream.Body, ResolveCursor;
    match v {
      case Missed(end) =>
        ViewsGrow(hash, show, h, from, end);
        ViewsGrow(hash, show, h, end, end);
      case Visited(at, _, looks, _, end) =>
        ViewsGrow(hash, show, h, from, at);
        InTurnWithin(looks, at, end);
        TicksGrow(hash, show, h, looks, at, end);
    }
  }

  /** A client's visits, one after the other, from a state of the history on. */
  ghost predicate Visits(codec: Codec, number: string -> Option<real>, show: Event -> string, h: History, c: Client,
                         from: nat, vs: seq<Visit>)
    decreases |vs|
  {
    if vs == [] then from < |h.states|
    else
      var init, v := vs[..|vs| - 1], vs[|vs| - 1];
      && Visits(codec, number, show, h, c, from, init)
      && Timely(h, EndOf(from, init), v)
      && Arrives(codec, show, h, ClientAfter(codec, number, show, h, c, init), v)
  }

  function EndOf(from: nat, vs: seq<Visit>): nat {
    if vs == [] then from else vs[|vs| - 1].end
  }

  function Attempts(show: Event -> string, h: History, vs: seq<Visit>): seq<Attempt> {
    if vs == [] then []
    else
      var v := vs[|vs| - 1];
      Attempts(show, h, vs[..|vs| - 1])
        + [if v.Visited? ==> v.at < |h.states| && WithinHistory(h, v.looks) then AttemptOf(show, h, v) else Unreachable]
  }

  function ClientAfter(codec: Codec, number: string -> Option<real>, show: Event -> string, h: History, c: Client,
                       vs: seq<Visit>): Client
  {
    AttendAll(codec, number, c, Attempts(show, h, vs))
  }

  lemma {:induction false} VisitsAreSession(hash: string -> string, codec: Codec, number: string -> Option<real>,
                                            show: Event -> string, h: History, c: Client, from: nat,
                                            vs: seq<Visit>)
    returns (journals: seq<seq<Row>>)
    requires Behaviour(hash, h) && Visits(codec, number, show, h, c, from, vs)
    ensures EndOf(from, vs) < |h.states| && Session(codec, number, c, Attempts(show, h, vs), journals)
    ensures |journals| == |vs| + 1 && |Attempts(show, h, vs)| == |vs|
    ensures journals[|vs|] == View(show, h, EndOf(from, vs))
    decreases |vs|
  {
    hide Behaviour, View, Timely, Arrives, AttemptOf, AttendAll, Plausible;
    if vs == [] {
      journals := [View(show, h, from)];
      ViewsGrow(hash, show, h, from, from);
    } else {
      var init, v := vs[..|vs| - 1], vs[|vs| - 1];
      var before := VisitsAreSession(hash, codec, number, show, h, c, from, init);
      TimelyWithin(h, EndOf(from, init), v);
      VisitPlausible(hash, codec, show, h, ClientAfter(codec, number, show, h, c, init), EndOf(from, init), v);
      journals := before + [View(show, h, v.end)];
      var attempts := Attempts(show, h, vs);
      assert attempts[..|vs| - 1] == Attempts(show, h, init) && journals[..|vs|] == before;
    }
  }

  lemma TimelyWithin(h: History, from: nat, v: Visit)
    requires Timely(h, from, v)
    ensures v.end < |h.states| && (v.Visited? ==> v.at < |h.states| && WithinHistory(h, v.looks))
  {
  }

  // ----- end to end -----

  lemma {:induction false} BetweenRows(j: seq<Row>, from: nat, to: nat, skips: seq<Skip>)
    ensures forall r | r in Kept(Between(j, from, to), skips) :: r in j && r.streamable
    decreases |j|
  {
    hide Inside;
    if j != [] {
      BetweenRows(j[1..], from, to, skips);
      if j[0].streamable && from < j[0].sequence <= to {
        assert ([j[0]] + Between(j[1..], from, to))[1..] == Between(j[1..], from, to);
      }
    }
  }

  /** A row the client handled is the journal row of its sequence, visible to the user, and it is not
      the dispatch of an approved action, the one kind of row whose payload holds a ticket. */
  predicate FromJournal(show: Event -> string, events: seq<Event>, r: Row) {
    && 1 <= r.sequence <= |events| && r == StreamRow(show, events, r.sequence - 1)
    && var e := events[r.sequence - 1]; e.userVisible && !(e.kind.Worker? && e.kind.body.ApprovalDispatched?)
  }

  lemma StreamedFromJournal(show: Event -> string, events: seq<Event>, r: Row)
    requires r in StreamRows(show, events) && r.streamable
    ensures FromJournal(show, events, r)
  {
    var i :| 0 <= i < |events| && StreamRows(show, events)[i] == r;
  }

  /** While the service runs any history, workers report what they like, and connections are cut anywhere:
      a client with a stored cursor handles exactly the streamable rows of the journal between that
      cursor and the one it has stored, each once and in order, save what a resync jumped over; and
      none of them carries a ticket. */
  lemma HistoriesStream(hash: string -> string, codec: Codec, number: string -> Option<real>,
                        show: Event -> string, h: History, cursor: nat, from: nat, vs: seq<Visit>)
    requires Behaviour(hash, h) && Faithful(codec)
    requires Visits(codec, number, show, h, Client(Some(cursor), [], [], []), from, vs)
    ensures EndOf(from, vs) < |h.states|
    ensures var d := ClientAfter(codec, number, show, h, Client(Some(cursor), [], [], []), vs);
            var events := h.states[EndOf(from, vs)].events;
            && d.cursor.Some? && cursor <= d.cursor.value
            && d.handled == Kept(Between(StreamRows(show, events), cursor, d.cursor.value), d.skips)
            && (forall r | r in d.handled :: FromJournal(show, events, r))
  {
    hide Behaviour, Visits, Session, Attempts, AttendAll, StreamRows, Between, Faithful, FromJournal;
    var c := Client(Some(cursor), [], [], []);
    var journals := VisitsAreSession(hash, codec, number, show, h, c, from, vs);
    ExactlyOnce(codec, number, cursor, Attempts(show, h, vs), journals);
    var d := ClientAfter(codec, number, show, h, c, vs);
    var events := h.states[EndOf(from, vs)].events;
    BetweenRows(StreamRows(show, events), cursor, d.cursor.value, d.skips);
    forall r | r in d.handled ensures FromJournal(show, events, r) { StreamedFromJournal(show, events, r); }
  }
}
