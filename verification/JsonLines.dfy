/** The bounded newline decoder of crates/agentmeld-m0/src/protocol.rs. */
module JsonLines {
  import opened Wrappers

  const MAX_FRAME: nat := 1024 * 1024

  type Byte = n: nat | n < 256

  const NEWLINE: Byte := 10

  datatype State = State(pending: seq<Byte>, poisoned: bool)

  const START: State := State([], false)

  const FAILED: State := State([], true)

  datatype Failure = AlreadyFailed | InvalidFrame | TooLong | Truncated

  predicate Blank(line: seq<Byte>) {
    forall i | 0 <= i < |line| :: line[i] in {9, 10, 12, 13, 32}
  }

  /** The decoder after some bytes, and the frames they completed. */
  datatype Progress<T> = Progress(state: State, frames: seq<T>)

  function OnByte<T>(parse: seq<Byte> -> Option<T>, s: State, b: Byte): Progress<T> {
    if b == NEWLINE then
      if Blank(s.pending) then Progress(START, [])
      else if parse(s.pending).Some? then Progress(START, [parse(s.pending).value])
      else Progress(FAILED, [])
    else if |s.pending| >= MAX_FRAME then Progress(FAILED, [])
    else Progress(s.(pending := s.pending + [b]), [])
  }

  /** A poisoned decoder stays so. */
  function Run<T>(parse: seq<Byte> -> Option<T>, s: State, bytes: seq<Byte>): Progress<T> {
    if bytes == [] then Progress(s, []) else
    var r := Run(parse, s, bytes[..|bytes| - 1]);
    if r.state.poisoned then r else
    var one := OnByte(parse, r.state, bytes[|bytes| - 1]);
    Progress(one.state, r.frames + one.frames)
  }

  class Decoder<T> {
    const parse: seq<Byte> -> Option<T>
    var pending: seq<Byte>
    var poisoned: bool

    function Current(): State
      reads this
    {
      State(pending, poisoned)
    }

    constructor (parse: seq<Byte> -> Option<T>)
      ensures this.parse == parse && Current() == START
    {
      this.parse := parse;
      pending, poisoned := [], false;
    }

    method Push(bytes: seq<Byte>) returns (r: Result<seq<T>, Failure>)
      modifies this
      ensures old(poisoned) ==> r == Err(AlreadyFailed) && Current() == old(Current())
      ensures !old(poisoned) ==> Current() == Run(parse, old(Current()), bytes).state
      ensures !old(poisoned) && !poisoned ==> r == Ok(Run(parse, old(Current()), bytes).frames)
      ensures poisoned <==> r.Err?
    {
      if poisoned { return Err(AlreadyFailed); }
      var frames: seq<T> := [];
      for i := 0 to |bytes|
        invariant !poisoned && Run(parse, old(Current()), bytes[..i]) == Progress(Current(), frames)
      {
        assert bytes[..i + 1][..i] == bytes[..i];
        if bytes[i] == NEWLINE {
          if !Blank(pending) {
            var value := parse(pending);
            if value.None? {
              poisoned, pending := true, [];
              PoisonSticks(parse, old(Current()), bytes, i + 1);
              return Err(InvalidFrame);
            }
            frames := frames + [value.value];
          }
          pending := [];
        } else {
          if |pending| >= MAX_FRAME {
            poisoned, pending := true, [];
            PoisonSticks(parse, old(Current()), bytes, i + 1);
            return Err(TooLong);
          }
          pending := pending + [bytes[i]];
        }
      }
      assert bytes[..|bytes|] == bytes;
      return Ok(frames);
    }

    method Finish() returns (r: Result<bool, Failure>)
      modifies this
      ensures r.Ok? <==> !old(poisoned) && old(pending) == []
      ensures r.Ok? ==> Current() == old(Current())
      ensures r.Err? ==> poisoned
    {
      if poisoned { return Err(AlreadyFailed); }
      if pending != [] {
        poisoned, pending := true, [];
        return Err(Truncated);
      }
      return Ok(true);
    }
  }

  lemma {:induction false} PoisonSticks<T>(parse: seq<Byte> -> Option<T>, s: State, bytes: seq<Byte>, n: nat)
    requires n <= |bytes| && Run(parse, s, bytes[..n]).state.poisoned
    ensures Run(parse, s, bytes) == Run(parse, s, bytes[..n])
    decreases |bytes|
  {
    if n == |bytes| { assert bytes[..n] == bytes; } else {
      assert bytes[..|bytes| - 1][..n] == bytes[..n];
      PoisonSticks(parse, s, bytes[..|bytes| - 1], n);
    }
  }

  // ----- chunking -----

  lemma {:induction false} RunAppend<T>(parse: seq<Byte> -> Option<T>, s: State, a: seq<Byte>, b: seq<Byte>)
    ensures var first, whole := Run(parse, s, a), Run(parse, s, a + b);
            && (first.state.poisoned ==> whole.state.poisoned)
            && (!first.state.poisoned ==>
                  whole.state == Run(parse, first.state, b).state
                      && whole.frames == first.frames + Run(parse, first.state, b).frames)
    decreases |b|
  {
    hide OnByte;
    if b == [] {
      assert a + b == a;
    } else {
      assert (a + b)[..|a + b| - 1] == a + b[..|b| - 1];
      RunAppend(parse, s, a, b[..|b| - 1]);
    }
  }

  /** Pushing chunks one by one. */
  function RunChunks<T>(parse: seq<Byte> -> Option<T>, s: State, chunks: seq<seq<Byte>>): Progress<T> {
    if chunks == [] then Progress(s, []) else
    var r := RunChunks(parse, s, chunks[..|chunks| - 1]);
    if r.state.poisoned then r else
    var next := Run(parse, r.state, chunks[|chunks| - 1]);
    Progress(next.state, r.frames + next.frames)
  }

  function Concat(chunks: seq<seq<Byte>>): seq<Byte> {
    if chunks == [] then [] else Concat(chunks[..|chunks| - 1]) + chunks[|chunks| - 1]
  }

  /** Whether a stream fails does not depend on how it is cut; nor do the frames of one that does
      not fail, or what is left pending. */
  lemma {:induction false} ChunkingIrrelevant<T>(parse: seq<Byte> -> Option<T>, s: State, chunks: seq<seq<Byte>>)
    requires !s.poisoned
    ensures var cut, whole := RunChunks(parse, s, chunks), Run(parse, s, Concat(chunks));
            && (cut.state.poisoned <==> whole.state.poisoned)
            && (!whole.state.poisoned ==> cut.state == whole.state && cut.frames == whole.frames)
    decreases |chunks|
  {
    if chunks != [] {
      var init, last := chunks[..|chunks| - 1], chunks[|chunks| - 1];
      ChunkingIrrelevant(parse, s, init);
      RunAppend(parse, s, Concat(init), last);
    }
  }

  // ----- what a stream decodes to -----

  /** The complete lines of a stream and the unfinished rest. */
  datatype Split = Split(lines: seq<seq<Byte>>, rest: seq<Byte>)

  function Lines(bytes: seq<Byte>): Split {
    if bytes == [] then Split([], []) else
    var s, b := Lines(bytes[..|bytes| - 1]), bytes[|bytes| - 1];
    if b == 10 then Split(s.lines + [s.rest], []) else Split(s.lines, s.rest + [b])
  }

  /** Nothing but tabs, line feeds, form feeds, carriage returns and spaces. */
  predicate White(line: seq<Byte>) {
    forall i | 0 <= i < |line| :: line[i] == 9 || line[i] == 10 || line[i] == 12 || line[i] == 13 || line[i] == 32
  }

  /** At most 1 MiB, and white or a frame. */
  predicate LineOk<T>(parse: seq<Byte> -> Option<T>, line: seq<Byte>) {
    |line| <= 1_048_576 && (White(line) || parse(line).Some?)
  }

  predicate StreamOk<T>(parse: seq<Byte> -> Option<T>, s: Split) {
    |s.rest| <= 1_048_576 && forall i | 0 <= i < |s.lines| :: LineOk(parse, s.lines[i])
  }

  function Values<T>(parse: seq<Byte> -> Option<T>, lines: seq<seq<Byte>>): seq<T>
    requires forall i | 0 <= i < |lines| :: LineOk(parse, lines[i])
  {
    if lines == [] then [] else
    var init, last := Values(parse, lines[..|lines| - 1]), lines[|lines| - 1];
    assert LineOk(parse, last);
    if White(last) then init else init + [parse(last).value]
  }

  /** A stream fails exactly when one of its lines is over the bound or neither blank nor a frame;
      otherwise its frames are those of its non-blank lines, in order. */
  lemma {:induction false} DecodesLines<T>(parse: seq<Byte> -> Option<T>, bytes: seq<Byte>)
    ensures var r, s := Run(parse, START, bytes), Lines(bytes);
            && (r.state.poisoned <==> !StreamOk(parse, s))
            && (!r.state.poisoned ==> r.state.pending == s.rest && r.frames == Values(parse, s.lines))
    decreases |bytes|
  {
    if bytes != [] {
      var init, b := bytes[..|bytes| - 1], bytes[|bytes| - 1];
      DecodesLines(parse, init);
      var r, s, t := Run(parse, START, init), Lines(init), Lines(bytes);
      assert Blank(s.rest) <==> White(s.rest);
      if b == NEWLINE {
        assert t.lines[..|s.lines|] == s.lines && t.lines[|s.lines|] == s.rest;
        if r.state.poisoned {
          LinesStayBad(parse, s, t);
        } else {
          assert StreamOk(parse, t) <==> LineOk(parse, s.rest) by {
            assert forall i | 0 <= i < |s.lines| :: t.lines[i] == s.lines[i];
          }
        }
      } else if r.state.poisoned {
        LinesStayBad(parse, s, t);
      }
    }
  }

  lemma LinesStayBad<T>(parse: seq<Byte> -> Option<T>, s: Split, t: Split)
    requires !StreamOk(parse, s)
    requires t == Split(s.lines + [s.rest], []) || (t.lines == s.lines && |t.rest| > |s.rest|)
    ensures !StreamOk(parse, t)
  {
    if i :| 0 <= i < |s.lines| && !LineOk(parse, s.lines[i]) { assert t.lines[i] == s.lines[i]; }
    if |s.rest| > 1_048_576 && t.lines != s.lines { assert t.lines[|s.lines|] == s.rest; }
  }
}
