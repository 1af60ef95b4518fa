/** What the event-stream parser is for: any stream written as WHATWG HTML, section 9.2.6, allows, with
    several data lines, comments, unknown fields, optional spaces and either kind of line end, is read
    as the frames it was written from. */
module SseWritten {
  import opened Wrappers
  import opened Text
  import opened Sse

  /** One line of a frame; an unknown field is the whole line. */
  datatype Field = DataField(text: string) | NameField(text: string) | IdField(text: string) | HintField(text: string)
    | Comment(text: string) | Unknown(text: string)

  /** A line with the way it is written: a space after the colon or none, and how it ends. */
  datatype Line = Line(field: Field, space: bool, both: bool)

  datatype Written = Written(lines: seq<Line>, both: bool)

  function EndText(both: bool): string {
    if both then "\r\n" else "\n"
  }

  function LineText(l: Line): string {
    var gap := if l.space then " " else "";
    match l.field
    case DataField(text) => "data:" + gap + text
    case NameField(text) => "event:" + gap + text
    case IdField(text) => "id:" + gap + text
    case HintField(text) => "retry:" + gap + text
    case Comment(text) => ":" + text
    case Unknown(text) => text
  }

  /** White space at neither end. */
  predicate Trimmed(s: string) {
    s != "" ==> !Space(s[0]) && !Space(s[|s| - 1])
  }

  /** The line can be told from others: no line break inside; data without a space does not start with
      one; names, ids and hints have no white space around them; an unknown field is none of the known. */
  predicate Writable(l: Line) {
    && OneLine(l.field.text)
    && (l.field.DataField? && !l.space && l.field.text != "" ==> l.field.text[0] != ' ')
    && (l.field.NameField? || l.field.IdField? || l.field.HintField? ==> Trimmed(l.field.text))
    && (l.field.Unknown? ==>
          && l.field.text != "" && l.field.text[0] != ':'
          && !("data:" <= l.field.text) && !("event:" <= l.field.text) && !("id:" <= l.field.text)
          && !("retry:" <= l.field.text))
  }

  function LinesText(ls: seq<Line>): string {
    if ls == [] then "" else LineText(ls[0]) + EndText(ls[0].both) + LinesText(ls[1..])
  }

  /** Frames one after the other, each ended by an empty line. */
  function StreamText(ws: seq<Written>): string {
    if ws == [] then "" else LinesText(ws[0].lines) + EndText(ws[0].both) + StreamText(ws[1..])
  }

  // ----- what is meant -----

  /** The frame a list of lines means: the last name and id, and every data line in order. */
  function Meant(frame: Frame, ls: seq<Line>): Frame
    decreases |ls|
  {
    if ls == [] then frame else
    Meant(match ls[0].field
          case DataField(text) => frame.(data := frame.data + [text])
          case NameField(text) => frame.(event := text)
          case IdField(text) => frame.(id := text)
          case _ => frame, ls[1..])
  }

  /** A retry hint counts when it is a number that is not negative: rounded, and kept between half a
      second and thirty seconds. */
  function Hinted(number: string -> Option<real>, text: string): Option<int> {
    if text == "" || number(text).None? || number(text).value < 0.0 then None else
    var rounded := (number(text).value + 0.5).Floor;
    if rounded < 500 then Some(500) else if rounded > 30_000 then Some(30_000) else Some(rounded)
  }

  function HintAfter(number: string -> Option<real>, hint: Option<int>, ls: seq<Line>): Option<int>
    decreases |ls|
  {
    if ls == [] then hint else
    HintAfter(number, if ls[0].field.HintField? && Hinted(number, ls[0].field.text).Some?
                      then Hinted(number, ls[0].field.text) else hint, ls[1..])
  }

  function HintsAfter(number: string -> Option<real>, hint: Option<int>, ws: seq<Written>): Option<int>
    decreases |ws|
  {
    if ws == [] then hint else HintsAfter(number, HintAfter(number, hint, ws[0].lines), ws[1..])
  }

  function FramesMeant(ws: seq<Written>): seq<Frame> {
    seq(|ws|, i requires 0 <= i < |ws| => Meant(NEW_FRAME, ws[i].lines))
  }

  // ----- one line -----

  lemma {:induction false} StripSpaces(s: string)
    requires Trimmed(s)
    ensures Strip(s) == s && Strip(" " + s) == s
  {
    if s == "" {
      assert (" " + s)[1..] == "";
    } else {
      StripPlain(s);
      assert " " + s == [' '] + s;
    }
  }

  lemma ClampIs(number: string -> Option<real>, text: string)
    requires Trimmed(text)
    ensures ClampRetry(number, text) == Hinted(number, text)
  {
    hide Strip;
    StripSpaces(text);
  }

  /** What one line does to the parser. */
  function LineEffect(number: string -> Option<real>, p: Parser, l: Line): Parser {
    p.(linesSeen := p.linesSeen + 1, frame := Meant(p.frame, [l]), retryMs := HintAfter(number, p.retryMs, [l]))
  }

  lemma OneMeant(frame: Frame, hint: Option<int>, number: string -> Option<real>, l: Line)
    ensures Meant(frame, [l]) ==
              match l.field
              case DataField(text) => frame.(data := frame.data + [text])
              case NameField(text) => frame.(event := text)
              case IdField(text) => frame.(id := text)
              case _ => frame
    ensures HintAfter(number, hint, [l]) ==
              if l.field.HintField? && Hinted(number, l.field.text).Some? then Hinted(number, l.field.text) else hint
  {
    assert [l][1..] == [];
  }

  lemma Gap(prefix: string, space: bool, text: string)
    ensures var rest := (if space then " " else "") + text;
            prefix + (if space then " " else "") + text == prefix + rest
            && (prefix + rest)[..|prefix|] == prefix && (prefix + rest)[|prefix|..] == rest
  {
  }

  lemma DataMeans(number: string -> Option<real>, p: Parser, l: Line)
    requires Writable(l) && l.field.DataField?
    ensures OnLine(number, p, LineText(l)) == (LineEffect(number, p, l), [])
  {
    hide ClampRetry, Strip, Meant, HintAfter;
    OneMeant(p.frame, p.retryMs, number, l);
    Gap("data:", l.space, l.field.text);
    var line, rest := LineText(l), (if l.space then " " else "") + l.field.text;
    assert line[0] == 'd' && StartsWith(line, "data:") && line[5..] == rest;
    assert DropSpace(rest) == l.field.text by {
      if l.space { assert rest[0] == ' ' && rest[1..] == l.field.text; } else { assert rest == l.field.text; }
    }
  }

  lemma NameMeans(number: string -> Option<real>, p: Parser, l: Line)
    requires Writable(l) && l.field.NameField?
    ensures OnLine(number, p, LineText(l)) == (LineEffect(number, p, l), [])
  {
    hide ClampRetry, Strip, Meant, HintAfter, Space;
    OneMeant(p.frame, p.retryMs, number, l);
    StripSpaces(l.field.text);
    Gap("event:", l.space, l.field.text);
    var line, rest := LineText(l), (if l.space then " " else "") + l.field.text;
    assert rest == (if l.space then " " + l.field.text else l.field.text);
    assert line[0] == 'e' && StartsWith(line, "event:") && line[6..] == rest;
  }

  lemma IdMeans(number: string -> Option<real>, p: Parser, l: Line)
    requires Writable(l) && l.field.IdField?
    ensures OnLine(number, p, LineText(l)) == (LineEffect(number, p, l), [])
  {
    hide ClampRetry, Strip, Meant, HintAfter, Space;
    OneMeant(p.frame, p.retryMs, number, l);
    StripSpaces(l.field.text);
    Gap("id:", l.space, l.field.text);
    var line, rest := LineText(l), (if l.space then " " else "") + l.field.text;
    assert rest == (if l.space then " " + l.field.text else l.field.text);
    assert line[0] == 'i' && StartsWith(line, "id:") && line[3..] == rest;
  }

  lemma HintMeans(number: string -> Option<real>, p: Parser, l: Line)
    requires Writable(l) && l.field.HintField?
    ensures OnLine(number, p, LineText(l)) == (LineEffect(number, p, l), [])
  {
    hide ClampRetry, Strip, Meant, HintAfter, Hinted;
    OneMeant(p.frame, p.retryMs, number, l);
    StripSpaces(l.field.text);
    ClampIs(number, l.field.text);
    Gap("retry:", l.space, l.field.text);
    var line, rest := LineText(l), (if l.space then " " else "") + l.field.text;
    assert rest == (if l.space then " " + l.field.text else l.field.text);
    assert line[0] == 'r' && StartsWith(line, "retry:") && line[6..] == rest;
  }

  lemma OtherMeans(number: string -> Option<real>, p: Parser, l: Line)
    requires Writable(l) && (l.field.Comment? || l.field.Unknown?)
    ensures OnLine(number, p, LineText(l)) == (LineEffect(number, p, l), [])
  {
    hide ClampRetry, Strip, Meant, HintAfter;
    OneMeant(p.frame, p.retryMs, number, l);
  }

  lemma LineMeans(number: string -> Option<real>, p: Parser, l: Line)
    requires Writable(l)
    ensures OnLine(number, p, LineText(l)) == (LineEffect(number, p, l), [])
    ensures OneLine(LineText(l))
  {
    hide OnLine, LineEffect, StartsWith, Trimmed;
    match l.field
    case DataField(_) => DataMeans(number, p, l);
    case NameField(_) => NameMeans(number, p, l);
    case IdField(_) => IdMeans(number, p, l);
    case HintField(_) => HintMeans(number, p, l);
    case Comment(_) => OtherMeans(number, p, l);
    case Unknown(_) => OtherMeans(number, p, l);
  }

  /** A line ended either way. */
  lemma FeedEnded(number: string -> Option<real>, p: Parser, line: string, both: bool, rest: string)
    requires p.buf == "" && OneLine(line)
    ensures var one := OnLine(number, p, line);
            var more, whole := Feed(number, one.0, rest), Feed(number, p, line + EndText(both) + rest);
            whole.0 == more.0 && whole.1 == one.1 + more.1
  {
    hide ClampRetry, Strip, OnLine, Drain, Feed;
    if both { FeedBoth(number, p, line, rest); } else { FeedLine(number, p, line, rest); }
  }

  lemma FeedQuiet(number: string -> Option<real>, p: Parser, line: string, both: bool, rest: string, q: Parser)
    requires p.buf == "" && OneLine(line) && OnLine(number, p, line) == (q, [])
    ensures Feed(number, p, line + EndText(both) + rest) == Feed(number, q, rest)
  {
    hide OnLine, Feed, EndText;
    FeedEnded(number, p, line, both, rest);
    assert [] + Feed(number, q, rest).1 == Feed(number, q, rest).1;
  }

  lemma FeedBoth(number: string -> Option<real>, p: Parser, line: string, rest: string)
    requires p.buf == "" && OneLine(line)
    ensures var one := OnLine(number, p, line);
            var more, whole := Feed(number, one.0, rest), Feed(number, p, line + "\r\n" + rest);
            whole.0 == more.0 && whole.1 == one.1 + more.1
  {
    hide ClampRetry, Strip, OnLine, Drain;
    var text := line + "\r\n" + rest;
    assert "" + text == text;
    assert text[|line| + 1] == '\n' && text[..|line| + 1] == line + "\r" && text[|line| + 2..] == rest;
    IndexUnique(text, '\n', |line| + 1);
    assert DropCr(line + "\r") == line;
    OnLineFrame(number, p, line, rest);
    DrainOne(number, p.(buf := text), |line| + 1);
    assert p.(buf := rest) == p.(buf := text).(buf := rest);
    OnLineBuf(number, p, line);
    assert OnLine(number, p, line).0.buf + rest == rest;
  }

  lemma OnLineBuf(number: string -> Option<real>, p: Parser, line: string)
    ensures OnLine(number, p, line).0.buf == p.buf
  {
    hide ClampRetry, Strip;
  }

  // ----- whole frames and streams -----

  ghost predicate AllWritable(ls: seq<Line>) {
    forall i | 0 <= i < |ls| :: Writable(ls[i])
  }

  /** The lines of a frame are collected. */
  lemma {:induction false} LinesMean(number: string -> Option<real>, p: Parser, ls: seq<Line>, rest: string)
    requires p.buf == "" && AllWritable(ls)
    ensures var q := p.(linesSeen := p.linesSeen + |ls|, frame := Meant(p.frame, ls),
                        retryMs := HintAfter(number, p.retryMs, ls));
            Feed(number, p, LinesText(ls) + rest) == Feed(number, q, rest)
    decreases |ls|
  {
    hide Feed, OnLine, LineText, Writable, EndText;
    if ls == [] {
      assert LinesText(ls) + rest == rest;
    } else {
      var l, more := ls[0], LinesText(ls[1..]) + rest;
      LineMeans(number, p, l);
      FeedQuiet(number, p, LineText(l), l.both, more, LineEffect(number, p, l));
      assert LinesText(ls) + rest == LineText(l) + EndText(l.both) + more;
      LinesMean(number, LineEffect(number, p, l), ls[1..], rest);
      FirstMeant(number, p, ls);
    }
  }

  lemma FirstMeant(number: string -> Option<real>, p: Parser, ls: seq<Line>)
    requires ls != []
    ensures Meant(p.frame, ls) == Meant(Meant(p.frame, [ls[0]]), ls[1..])
    ensures HintAfter(number, p.retryMs, ls) == HintAfter(number, HintAfter(number, p.retryMs, [ls[0]]), ls[1..])
  {
    hide Hinted;
    OneMeant(p.frame, p.retryMs, number, ls[0]);
  }

  /** A frame is complete at its empty line. */
  lemma FrameMeans(number: string -> Option<real>, p: Parser, w: Written, rest: string)
    requires Clean(p) && AllWritable(w.lines)
    ensures var q := p.(linesSeen := p.linesSeen + |w.lines| + 1, retryMs := HintAfter(number, p.retryMs, w.lines));
            var whole := Feed(number, p, LinesText(w.lines) + EndText(w.both) + rest);
            whole.0 == Feed(number, q, rest).0
            && whole.1 == [Meant(NEW_FRAME, w.lines)] + Feed(number, q, rest).1
  {
    hide Feed, LinesText, Meant, HintAfter, AllWritable, EndText, Strip, ClampRetry;
    assert LinesText(w.lines) + EndText(w.both) + rest == LinesText(w.lines) + (EndText(w.both) + rest);
    LinesMean(number, p, w.lines, EndText(w.both) + rest);
    var q := p.(linesSeen := p.linesSeen + |w.lines|, frame := Meant(p.frame, w.lines),
                retryMs := HintAfter(number, p.retryMs, w.lines));
    assert "" + EndText(w.both) + rest == EndText(w.both) + rest;
    FeedEnded(number, q, "", w.both, rest);
  }

  lemma {:induction false} StreamMeans(number: string -> Option<real>, p: Parser, ws: seq<Written>)
    requires Clean(p) && forall i | 0 <= i < |ws| :: AllWritable(ws[i].lines)
    ensures var r := Feed(number, p, StreamText(ws));
            r.1 == FramesMeant(ws) && Clean(r.0) && r.0.retryMs == HintsAfter(number, p.retryMs, ws)
    decreases |ws|
  {
    hide Feed, LinesText, Meant, HintAfter, AllWritable, EndText;
    if ws == [] {
      assert p.buf + "" == p.buf;
      FeedNothing(number, p);
    } else {
      var w := ws[0];
      FrameMeans(number, p, w, StreamText(ws[1..]));
      StreamMeans(number, p.(linesSeen := p.linesSeen + |w.lines| + 1,
                             retryMs := HintAfter(number, p.retryMs, w.lines)), ws[1..]);
      assert FramesMeant(ws) == [Meant(NEW_FRAME, w.lines)] + FramesMeant(ws[1..]);
    }
  }

  lemma FeedNothing(number: string -> Option<real>, p: Parser)
    requires Clean(p)
    ensures Feed(number, p, "") == (p, [])
  {
    DrainNothing(number, p);
    assert p.buf + "" == p.buf;
  }

  /** A written stream, cut into chunks anywhere, is read as the frames it was written from; and the
      retry hint afterwards is the last one that counts. */
  lemma ReadsWritten(number: string -> Option<real>, ws: seq<Written>, chunks: seq<string>)
    requires (forall i | 0 <= i < |ws| :: AllWritable(ws[i].lines)) && Concat(chunks) == StreamText(ws)
    ensures FeedAll(number, START, chunks).1 == FramesMeant(ws)
    ensures FeedAll(number, START, chunks).0.retryMs == HintsAfter(number, None, ws)
  {
    hide Feed, StreamText, FramesMeant, HintsAfter, AllWritable, FeedAll;
    ChunkingIrrelevant(number, START, chunks);
    StreamMeans(number, START, ws);
  }
}
