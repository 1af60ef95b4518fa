/** Server-sent events: the incremental parser of apps/poc/public/sse-parse.js and the frames that
    crates/agentmeld-server/src/events.rs renders for it (WHATWG HTML, section 9.2.6). */
module Sse {
  import opened Wrappers
  import opened Text

  const RETRY_MIN_MS: int := 500
  const RETRY_MAX_MS: int := 30000

  datatype Frame = Frame(event: string, data: seq<string>, id: string)

  const NEW_FRAME: Frame := Frame("", [], "")

  datatype Parser = Parser(buf: string, frame: Frame, retryMs: Option<int>, linesSeen: nat)

  const START: Parser := Parser("", NEW_FRAME, None, 0)

  // ----- the pieces of a line -----

  /** The white space of JavaScript's `trim`. */
  predicate Space(c: char) {
    c == '\U{FEFF}' || (Whitespace(c) && c != '\U{0085}')
  }

  function Strip(s: string): string {
    if s != [] && Space(s[0]) then Strip(s[1..])
    else if s != [] && Space(s[|s| - 1]) then Strip(s[..|s| - 1])
    else s
  }

  predicate StartsWith(s: string, prefix: string) {
    prefix <= s
  }

  function DropCr(s: string): string {
    if s != [] && s[|s| - 1] == '\r' then s[..|s| - 1] else s
  }

  function DropSpace(s: string): string {
    if s != [] && s[0] == ' ' then s[1..] else s
  }

  /** `clampRetry`; `number` reads a JavaScript number, None when it is not finite. */
  function ClampRetry(number: string -> Option<real>, text: string): (r: Option<int>)
    ensures r.Some? ==> RETRY_MIN_MS <= r.value <= RETRY_MAX_MS
  {
    var s := Strip(text);
    if s == "" then None else
    var n := number(s);
    if n.None? || n.value < 0.0 then None else
    var rounded := (n.value + 0.5).Floor;
    Some(if rounded < RETRY_MIN_MS then RETRY_MIN_MS else if rounded > RETRY_MAX_MS then RETRY_MAX_MS else rounded)
  }

  /** One line without its terminator: the parser after it and the frame it completes, if any. */
  function OnLine(number: string -> Option<real>, p: Parser, line: string): (r: (Parser, seq<Frame>))
    ensures r.0.buf == p.buf
  {
    var q := p.(linesSeen := p.linesSeen + 1);
    if line == "" then (q.(frame := NEW_FRAME), [q.frame])
    else if line[0] == ':' then (q, [])
    else if StartsWith(line, "data:") then (q.(frame := q.frame.(data := q.frame.data + [DropSpace(line[5..])])), [])
    else if StartsWith(line, "event:") then (q.(frame := q.frame.(event := Strip(line[6..]))), [])
    else if StartsWith(line, "id:") then (q.(frame := q.frame.(id := Strip(line[3..]))), [])
    else if StartsWith(line, "retry:") then
      var clamped := ClampRetry(number, Strip(line[6..]));
      (if clamped.Some? then q.(retryMs := clamped) else q, [])
    else (q, [])
  }

  /** Consume every complete line of the buffer. */
  function Drain(number: string -> Option<real>, p: Parser): (Parser, seq<Frame>)
    decreases |p.buf|
  {
    var i := IndexOf(p.buf, '\n');
    if i < 0 then (p, []) else
    var (q, fs) := OnLine(number, p.(buf := p.buf[i + 1..]), DropCr(p.buf[..i]));
    var (r, gs) := Drain(number, q);
    (r, fs + gs)
  }

  function Feed(number: string -> Option<real>, p: Parser, chunk: string): (Parser, seq<Frame>) {
    Drain(number, p.(buf := p.buf + chunk))
  }

  function FeedAll(number: string -> Option<real>, p: Parser, chunks: seq<string>): (Parser, seq<Frame>) {
    if chunks == [] then (p, []) else
    var (q, fs) := FeedAll(number, p, chunks[..|chunks| - 1]);
    var (r, gs) := Feed(number, q, chunks[|chunks| - 1]);
    (r, fs + gs)
  }

  function Concat(chunks: seq<string>): string {
    if chunks == [] then "" else Concat(chunks[..|chunks| - 1]) + chunks[|chunks| - 1]
  }

  class SseParser {
    const number: string -> Option<real>
    var buf: string
    var frame: Frame
    var retryMs: Option<int>
    var linesSeen: nat

    function State(): Parser
      reads this
    {
      Parser(buf, frame, retryMs, linesSeen)
    }

    constructor (number: string -> Option<real>)
      ensures this.number == number && State() == START
    {
      this.number := number;
      buf, frame, retryMs, linesSeen := "", NEW_FRAME, None, 0;
    }

    method Push(chunk: string) returns (frames: seq<Frame>)
      modifies this
      ensures State() == Feed(number, old(State()), chunk).0
      ensures frames == Feed(number, old(State()), chunk).1
    {
      hide ClampRetry, Strip, IndexOf, Drain;
      frames := [];
      buf := buf + chunk;
      var idx := IndexOf(buf, '\n');
      while idx >= 0
        invariant idx == IndexOf(buf, '\n')
        invariant Feed(number, old(State()), chunk).0 == Drain(number, State()).0
        invariant Feed(number, old(State()), chunk).1 == frames + Drain(number, State()).1
        decreases |buf|
      {
        ghost var before := State();
        var line := DropCr(buf[..idx]);
        buf := buf[idx + 1..];
        linesSeen := linesSeen + 1;
        if line == "" {
          frames := frames + [frame];
          frame := NEW_FRAME;
        } else if line[0] == ':' {
        } else if StartsWith(line, "data:") {
          frame := frame.(data := frame.data + [DropSpace(line[5..])]);
        } else if StartsWith(line, "event:") {
          frame := frame.(event := Strip(line[6..]));
        } else if StartsWith(line, "id:") {
          frame := frame.(id := Strip(line[3..]));
        } else if StartsWith(line, "retry:") {
          var clamped := ClampRetry(number, Strip(line[6..]));
          if clamped.Some? { retryMs := clamped; }
        }
        DrainOne(number, before, idx);
        idx := IndexOf(buf, '\n');
      }
      DrainNothing(number, State());
      assert frames + [] == frames;
    }
  }

  lemma DrainOne(number: string -> Option<real>, p: Parser, i: int)
    requires i == IndexOf(p.buf, '\n') && i >= 0
    ensures var one := OnLine(number, p.(buf := p.buf[i + 1..]), DropCr(p.buf[..i]));
            var rest := Drain(number, one.0);
            Drain(number, p).0 == rest.0 && Drain(number, p).1 == one.1 + rest.1
  {
    hide OnLine, IndexOf, DropCr;
  }

  // ----- chunking does not matter -----

  /** No complete line is waiting. */
  predicate Drained(p: Parser) {
    '\n' !in p.buf
  }

  lemma IndexOfAppend(s: string, more: string, c: char)
    requires c in s
    ensures IndexOf(s + more, c) == IndexOf(s, c)
  {
    var i := IndexOf(s, c);
    assert (s + more)[..i] == s[..i];
    IndexUnique(s + more, c, i);
  }

  lemma OnLineFrame(number: string -> Option<real>, p: Parser, line: string, b: string)
    ensures OnLine(number, p.(buf := b), line) == (OnLine(number, p, line).0.(buf := b), OnLine(number, p, line).1)
  {
    hide ClampRetry, Strip;
  }

  lemma {:induction false} DrainAppend(number: string -> Option<real>, p: Parser, more: string)
    ensures var first := Drain(number, p);
            var then_ := Drain(number, first.0.(buf := first.0.buf + more));
            var whole := Drain(number, p.(buf := p.buf + more));
            whole.0 == then_.0 && whole.1 == first.1 + then_.1
    ensures Drained(Drain(number, p).0)
    decreases |p.buf|
  {
    hide OnLine, IndexOf, Drain;
    var i := IndexOf(p.buf, '\n');
    if i < 0 {
      DrainNothing(number, p);
    } else {
      IndexOfAppend(p.buf, more, '\n');
      var whole, line := p.buf + more, DropCr(p.buf[..i]);
      assert whole[..i] == p.buf[..i] && whole[i + 1..] == p.buf[i + 1..] + more;
      var one := OnLine(number, p.(buf := p.buf[i + 1..]), line);
      OnLineFrame(number, p.(buf := p.buf[i + 1..]), line, whole[i + 1..]);
      DrainOne(number, p, i);
      DrainOne(number, p.(buf := whole), i);
      DrainAppend(number, one.0, more);
      var rest := Drain(number, one.0);
      var last := Drain(number, rest.0.(buf := rest.0.buf + more));
      assert one.1 + (rest.1 + last.1) == (one.1 + rest.1) + last.1;
    }
  }

  /** However the text is cut into chunks, the parser yields the same frames and ends in the same
      state. */
  lemma {:induction false} ChunkingIrrelevant(number: string -> Option<real>, p: Parser, chunks: seq<string>)
    requires Drained(p)
    ensures FeedAll(number, p, chunks) == Feed(number, p, Concat(chunks))
    ensures Drained(FeedAll(number, p, chunks).0)
    decreases |chunks|
  {
    hide Drain;
    if chunks == [] {
      assert p.buf + "" == p.buf && IndexOf(p.buf, '\n') < 0;
      assert Drain(number, p) == (p, []) by { DrainNothing(number, p); }
    } else {
      var init, last := chunks[..|chunks| - 1], chunks[|chunks| - 1];
      ChunkingIrrelevant(number, p, init);
      DrainAppend(number, p.(buf := p.buf + Concat(init)), last);
      assert p.buf + Concat(init) + last == p.buf + (Concat(init) + last);
      DrainAppend(number, FeedAll(number, p, init).0.(buf := FeedAll(number, p, init).0.buf + last), "");
    }
  }

  lemma DrainNothing(number: string -> Option<real>, p: Parser)
    requires Drained(p)
    ensures Drain(number, p) == (p, [])
  {
  }

  // ----- rendering and parsing back -----

  /** What the producer sends on one connection. */
  datatype Item =
    | Retry
    | Hello(json: string)
    | Data(sequence: nat, json: string)
    | Ping
    | Control(json: string)

  const RETRY_MS: nat := 3000

  function DataPart(json: string): string {
    "data: " + json + "\n" + "\n"
  }

  function NamedFrame(event: string, json: string): string {
    "event: " + event + "\n" + DataPart(json)
  }

  function Render(i: Item): string {
    match i
    case Retry => "retry: " + Decimal(RETRY_MS) + "\n" + "\n"
    case Hello(json) => NamedFrame("stream.hello", json)
    case Data(sequence, json) => "id: " + Decimal(sequence) + "\n" + DataPart(json)
    case Ping => ":ping" + "\n" + "\n"
    case Control(json) => NamedFrame("control", json)
  }

  function RenderAll(items: seq<Item>): string {
    if items == [] then "" else Render(items[0]) + RenderAll(items[1..])
  }

  function FrameOf(i: Item): Frame {
    match i
    case Retry => NEW_FRAME
    case Hello(json) => Frame("stream.hello", [json], "")
    case Data(sequence, json) => Frame("", [json], Decimal(sequence))
    case Ping => NEW_FRAME
    case Control(json) => Frame("control", [json], "")
  }

  function FramesOf(items: seq<Item>): seq<Frame> {
    seq(|items|, k requires 0 <= k < |items| => FrameOf(items[k]))
  }

  /** Serialised JSON has no raw line break. */
  predicate OneLine(json: string) {
    '\n' !in json && '\r' !in json
  }

  predicate Printable(i: Item) {
    (i.Hello? || i.Data? || i.Control?) ==> OneLine(i.json)
  }

  /** Between frames: nothing buffered, nothing accumulated. */
  predicate Clean(p: Parser) {
    p.buf == "" && p.frame == NEW_FRAME
  }

  lemma FeedLine(number: string -> Option<real>, p: Parser, line: string, rest: string)
    requires p.buf == "" && OneLine(line)
    ensures var one := OnLine(number, p, line);
            var more, whole := Feed(number, one.0, rest), Feed(number, p, line + "\n" + rest);
            whole.0 == more.0 && whole.1 == one.1 + more.1
  {
    hide ClampRetry, Strip;
    var text := line + "\n" + rest;
    assert "" + text == text;
    assert text[|line|] == '\n' && text[..|line|] == line && text[|line| + 1..] == rest;
    IndexUnique(text, '\n', |line|);
    OnLineFrame(number, p, line, rest);
    DrainOne(number, p.(buf := text), |line|);
    assert OnLine(number, p, line).0.buf + rest == rest;
  }

  lemma StripPlain(s: string)
    requires s != [] && !Space(s[0]) && !Space(s[|s| - 1])
    ensures Strip(s) == s && Strip([' '] + s) == s
  {
    assert ([' '] + s)[1..] == s;
  }

  lemma DecimalPlain(n: nat)
    ensures OneLine(Decimal(n)) && Strip([' '] + Decimal(n)) == Decimal(n) && Strip(Decimal(n)) == Decimal(n)
  {
    StripPlain(Decimal(n));
  }

  /** The frame of a rendered event: its name, its id and its data come back. */
  lemma RenderParses(number: string -> Option<real>, p: Parser, i: Item)
    requires Clean(p) && Printable(i)
    ensures Feed(number, p, Render(i)).1 == [FrameOf(i)] && Clean(Feed(number, p, Render(i)).0)
  {
    hide Drain, IndexOf, ClampRetry, Decimal, Strip, Feed;
    match i {
      case Ping =>
        FeedLine(number, p, ":ping", "\n");
        FeedBlank(number, OnLine(number, p, ":ping").0);
      case Retry =>
        DecimalPlain(RETRY_MS);
        var line := "retry: " + Decimal(RETRY_MS);
        FeedLine(number, p, line, "\n");
        assert line[..6] == "retry:";
        FeedBlank(number, OnLine(number, p, line).0);
      case Hello(json) => NamedParses(number, p, "stream.hello", json);
      case Control(json) => NamedParses(number, p, "control", json);
      case Data(sequence, json) => DataParses(number, p, sequence, json);
    }
  }

  /** The server's retry hint arrives as it was sent. */
  lemma RetryHintArrives(number: string -> Option<real>, p: Parser)
    requires Clean(p) && number(Decimal(RETRY_MS)) == Some(RETRY_MS as real)
    ensures Feed(number, p, Render(Retry)).0.retryMs == Some(RETRY_MS)
  {
    hide Drain, IndexOf, Decimal, Strip, Feed;
    DecimalPlain(RETRY_MS);
    var line := "retry: " + Decimal(RETRY_MS);
    assert line[0] == 'r' && line[..6] == "retry:" && line[6..] == [' '] + Decimal(RETRY_MS);
    assert !StartsWith(line, "data:") && !StartsWith(line, "event:") && !StartsWith(line, "id:")
        && StartsWith(line, "retry:");
    FeedLine(number, p, line, "\n");
    FeedBlank(number, OnLine(number, p, line).0);
  }

  lemma FeedBlank(number: string -> Option<real>, p: Parser)
    requires p.buf == ""
    ensures var r := Feed(number, p, "\n");
            r.0 == p.(frame := NEW_FRAME, linesSeen := p.linesSeen + 1) && r.1 == [p.frame]
  {
    hide Drain;
    FeedLine(number, p, "", "");
    assert "" + "\n" + "" == "\n";
    DrainNothing(number, OnLine(number, p, "").0);
    assert OnLine(number, p, "").0.buf + "" == "";
  }

  lemma DataLine(number: string -> Option<real>, p: Parser, json: string)
    requires p.buf == "" && OneLine(json)
    ensures var r := Feed(number, p, DataPart(json));
            r.0 == p.(frame := NEW_FRAME, linesSeen := p.linesSeen + 2)
                && r.1 == [p.frame.(data := p.frame.data + [json])]
  {
    hide Drain, IndexOf, ClampRetry, Strip, Feed;
    var line := "data: " + json;
    FeedLine(number, p, line, "\n");
    assert line[..5] == "data:" && line[5..] == [' '] + json && ([' '] + json)[1..] == json;
    FeedBlank(number, OnLine(number, p, line).0);
  }

  /** A name that trimming leaves alone and that fits on a line. */
  predicate PlainName(event: string) {
    event != "" && !Space(event[0]) && !Space(event[|event| - 1]) && OneLine(event)
  }

  lemma EventLine(number: string -> Option<real>, p: Parser, event: string)
    requires PlainName(event)
    ensures OnLine(number, p, "event: " + event) ==
              (p.(linesSeen := p.linesSeen + 1, frame := p.frame.(event := event)), [])
    ensures OneLine("event: " + event)
  {
    hide ClampRetry, Strip, Space;
    StripPlain(event);
    var line := "event: " + event;
    assert line[0] == 'e' && line[..6] == "event:" && line[6..] == [' '] + event;
    assert !StartsWith(line, "data:") && StartsWith(line, "event:");
  }

  lemma IdLine(number: string -> Option<real>, p: Parser, n: nat)
    ensures OnLine(number, p, "id: " + Decimal(n)) ==
              (p.(linesSeen := p.linesSeen + 1, frame := p.frame.(id := Decimal(n))), [])
  {
    hide ClampRetry, Strip, Decimal;
    DecimalPlain(n);
    var line := "id: " + Decimal(n);
    assert line[0] == 'i' && line[..3] == "id:" && line[3..] == [' '] + Decimal(n);
    assert !StartsWith(line, "data:") && !StartsWith(line, "event:") && StartsWith(line, "id:");
  }

  /** A first line that only fills the frame, then the data line and the blank one. */
  lemma LineThenData(number: string -> Option<real>, p: Parser, line: string, json: string, q: Parser)
    requires p.buf == "" && OneLine(line) && OneLine(json) && OnLine(number, p, line) == (q, []) && q.frame.data == []
    ensures var r := Feed(number, p, line + "\n" + DataPart(json));
            r.1 == [q.frame.(data := [json])] && Clean(r.0)
  {
    hide Feed, OnLine, DataPart, OneLine;
    FeedLine(number, p, line, DataPart(json));
    DataLine(number, q, json);
    assert q.frame.data + [json] == [json];
    assert [] + Feed(number, q, DataPart(json)).1 == Feed(number, q, DataPart(json)).1;
  }

  lemma NamedParses(number: string -> Option<real>, p: Parser, event: string, json: string)
    requires Clean(p) && OneLine(json) && PlainName(event)
    ensures Feed(number, p, NamedFrame(event, json)).1 == [Frame(event, [json], "")]
    ensures Clean(Feed(number, p, NamedFrame(event, json)).0)
  {
    hide Feed, OnLine, DataPart, PlainName, OneLine;
    EventLine(number, p, event);
    LineThenData(number, p, "event: " + event, json, OnLine(number, p, "event: " + event).0);
  }

  lemma DataParses(number: string -> Option<real>, p: Parser, sequence: nat, json: string)
    requires Clean(p) && OneLine(json)
    ensures Feed(number, p, Render(Data(sequence, json))).1 == [Frame("", [json], Decimal(sequence))]
    ensures Clean(Feed(number, p, Render(Data(sequence, json))).0)
  {
    hide Feed, OnLine, Decimal, DataPart;
    DecimalPlain(sequence);
    IdLine(number, p, sequence);
    LineThenData(number, p, "id: " + Decimal(sequence), json, OnLine(number, p, "id: " + Decimal(sequence)).0);
  }

  lemma {:induction false} RenderAllParses(number: string -> Option<real>, p: Parser, items: seq<Item>)
    requires Clean(p) && forall k | 0 <= k < |items| :: Printable(items[k])
    ensures Feed(number, p, RenderAll(items)).1 == FramesOf(items) && Clean(Feed(number, p, RenderAll(items)).0)
    decreases |items|
  {
    hide Drain, Render, Printable;
    if items == [] {
      DrainNothing(number, p);
      assert p.buf + "" == p.buf;
    } else {
      RenderParses(number, p, items[0]);
      var q := Feed(number, p, Render(items[0])).0;
      RenderAllParses(number, q, items[1..]);
      DrainAppend(number, p.(buf := p.buf + Render(items[0])), RenderAll(items[1..]));
      assert p.buf + Render(items[0]) + RenderAll(items[1..]) == p.buf + RenderAll(items);
      assert FramesOf(items) == [FrameOf(items[0])] + FramesOf(items[1..]);
    }
  }

  /** A connection cut anywhere, delivered in any chunks, yields a prefix of the frames that were
      rendered: none is torn, changed or invented. */
  lemma CutYieldsPrefix(number: string -> Option<real>, items: seq<Item>, chunks: seq<string>)
    requires (forall k | 0 <= k < |items| :: Printable(items[k])) && Concat(chunks) <= RenderAll(items)
    ensures FeedAll(number, START, chunks).1 <= FramesOf(items)
  {
    hide Drain, Render, Printable;
    ChunkingIrrelevant(number, START, chunks);
    var got, all := Concat(chunks), RenderAll(items);
    var rest := all[|got|..];
    assert got + rest == all;
    RenderAllParses(number, START, items);
    DrainAppend(number, START.(buf := START.buf + got), rest);
    assert START.buf + got + rest == START.buf + all;
  }
}
