/** The bounded CSV reader of apps/poc/public/artifact-tools.js (RFC 4180, section 2). */
module Csv {

  /** The reader between two characters. */
  datatype Scan = Scan(rows: seq<seq<string>>, row: seq<string>, cell: string, quoted: bool)

  const START: Scan := Scan([], [], "", false)

  function EndCell(s: Scan): Scan {
    s.(row := s.row + [s.cell], cell := "")
  }

  function EndRow(s: Scan): Scan {
    s.(rows := s.rows + [s.row + [s.cell]], row := [], cell := "")
  }

  /** How many characters the step at the head of the text takes: two for a doubled quote in a
      quoted cell and for a carriage return with its line feed outside one. */
  function Width(text: string, s: Scan): (n: nat)
    requires text != ""
    ensures 1 <= n <= 2 && n <= |text|
  {
    if |text| < 2 then 1
    else if text[0] == '"' && s.quoted && text[1] == '"' then 2
    else if text[0] == '\r' && !s.quoted && text[1] == '\n' then 2
    else 1
  }

  function OnChar(text: string, s: Scan): Scan
    requires text != ""
  {
    var c := text[0];
    if c == '"' then
      (if s.quoted && |text| > 1 && text[1] == '"' then s.(cell := s.cell + "\"") else s.(quoted := !s.quoted))
    else if c == ',' && !s.quoted then EndCell(s)
    else if (c == '\n' || c == '\r') && !s.quoted then EndRow(s)
    else s.(cell := s.cell + [c])
  }

  /** The reader stops as soon as a row brings it to the limit. */
  predicate Full(before: Scan, after: Scan, limit: int) {
    |after.rows| > |before.rows| && |after.rows| >= limit
  }

  function ReadFrom(text: string, s: Scan, limit: int): seq<seq<string>>
    decreases |text|
  {
    if text == "" then
      (if s.cell != "" || s.row != [] then s.rows + [s.row + [s.cell]] else s.rows)
    else
      var t := OnChar(text, s);
      if Full(s, t, limit) then t.rows else ReadFrom(text[Width(text, s)..], t, limit)
  }

  /** `csvRows`. */
  method CsvRows(text: string, limit: int) returns (rows: seq<seq<string>>)
    ensures rows == ReadFrom(text, START, limit)
  {
    rows := [];
    var row: seq<string> := [];
    var cell, quoted, i := "", false, 0;
    while i < |text|
      invariant 0 <= i <= |text|
      invariant ReadFrom(text, START, limit) == ReadFrom(text[i..], Scan(rows, row, cell, quoted), limit)
    {
      ghost var at := Scan(rows, row, cell, quoted);
      ghost var j := i;
      var c := text[i];
      if c == '"' {
        if quoted && i + 1 < |text| && text[i + 1] == '"' {
          cell := cell + "\"";
          i := i + 1;
        } else {
          quoted := !quoted;
        }
      } else if c == ',' && !quoted {
        row, cell := row + [cell], "";
      } else if (c == '\n' || c == '\r') && !quoted {
        if c == '\r' && i + 1 < |text| && text[i + 1] == '\n' { i := i + 1; }
        row := row + [cell];
        rows, row, cell := rows + [row], [], "";
        if |rows| >= limit { return; }
      } else {
        cell := cell + [c];
      }
      i := i + 1;
      assert i == j + Width(text[j..], at) && text[i..] == text[j..][Width(text[j..], at)..];
    }
    assert text[|text|..] == "";
    if cell != "" || row != [] {
      row := row + [cell];
      rows := rows + [row];
    }
  }

  // ----- what the reader is for: rows written in any of the accepted ways -----

  function Doubled(cell: string): string {
    if cell == "" then "" else (if cell[0] == '"' then "\"\"" else [cell[0]]) + Doubled(cell[1..])
  }

  function Quoted(cell: string): string {
    "\"" + Doubled(cell) + "\""
  }

  /** How a row ends: a line feed, both characters, a bare carriage return, or with the text. */
  datatype End = LineFeed | Both | CarriageReturn | EndOfText

  /** A row with the way each of its cells is written (in quotes or plainly) and how it ends. */
  datatype Written = Written(cells: seq<string>, quotes: seq<bool>, end: End)

  /** A plain cell has none of the characters that mean something to the reader. */
  predicate Plain(cell: string) {
    forall i | 0 <= i < |cell| :: cell[i] != '"' && cell[i] != ',' && cell[i] != '\r' && cell[i] != '\n'
  }

  predicate Writable(w: Written) {
    && w.cells != [] && |w.quotes| == |w.cells|
    && forall i | 0 <= i < |w.cells| :: w.quotes[i] || Plain(w.cells[i])
  }

  function CellText(cell: string, quote: bool): string {
    if quote then Quoted(cell) else cell
  }

  function EndText(end: End): string {
    match end
    case LineFeed => "\n"
    case Both => "\r\n"
    case CarriageReturn => "\r"
    case EndOfText => ""
  }

  function CellsText(cells: seq<string>, quotes: seq<bool>): string
    requires cells != [] && |quotes| == |cells|
  {
    CellText(cells[0], quotes[0]) + if |cells| == 1 then "" else "," + CellsText(cells[1..], quotes[1..])
  }

  function RowText(w: Written): string
    requires Writable(w)
  {
    CellsText(w.cells, w.quotes) + EndText(w.end)
  }

  predicate AllWritable(ws: seq<Written>) {
    forall i | 0 <= i < |ws| :: Writable(ws[i])
  }

  function FileText(ws: seq<Written>): string
    requires AllWritable(ws)
  {
    if ws == [] then "" else RowText(ws[0]) + FileText(ws[1..])
  }

  /** An empty line: one empty cell, nothing written for it, ended by a line feed. */
  predicate EmptyLine(w: Written) {
    w == Written([""], [false], LineFeed)
  }

  /** The rows can be told apart again: only the last may end with the text, and a line feed after a
      bare carriage return would be taken as part of it. */
  predicate File(ws: seq<Written>) {
    && AllWritable(ws)
    && (forall i | 0 <= i < |ws| - 1 :: !ws[i].end.EndOfText?)
    && (forall i | 0 <= i < |ws| - 1 :: ws[i].end.CarriageReturn? ==> !EmptyLine(ws[i + 1]))
  }

  /** The rows of a file; one empty cell that ends with the text leaves nothing to see. */
  function RowsOf(ws: seq<Written>): seq<seq<string>> {
    if ws == [] || (|ws| == 1 && ws[0].end.EndOfText? && ws[0].cells == [""]) then []
    else [ws[0].cells] + RowsOf(ws[1..])
  }

  function Least(a: int, b: int): int {
    if a < b then a else b
  }

  /** How many rows a limit lets through: at least one, since it is checked after a row. */
  function Allowed(limit: int): int {
    if limit < 1 then 1 else limit
  }

  // ----- reading it back -----

  predicate Closes(rest: string) {
    rest == "" || rest[0] != '"'
  }

  lemma ReadsInsideChar(c: char, tail: string, s: Scan, limit: int)
    requires s.quoted
    ensures ReadFrom((if c == '"' then "\"\"" else [c]) + tail, s, limit) ==
              ReadFrom(tail, s.(cell := s.cell + [c]), limit)
  {
    var text := (if c == '"' then "\"\"" else [c]) + tail;
    assert text[Width(text, s)..] == tail && OnChar(text, s) == s.(cell := s.cell + [c]);
  }

  lemma ReadsClosing(rest: string, s: Scan, limit: int)
    requires s.quoted && Closes(rest)
    ensures ReadFrom("\"" + rest, s, limit) == ReadFrom(rest, s.(quoted := false), limit)
  {
    var text := "\"" + rest;
    assert rest != "" ==> text[1] == rest[0];
    assert text[Width(text, s)..] == rest;
  }

  lemma InsideText(cell: string, rest: string)
    requires cell != ""
    ensures Doubled(cell) + "\"" + rest ==
              (if cell[0] == '"' then "\"\"" else [cell[0]]) + (Doubled(cell[1..]) + "\"" + rest)
  {
  }

  /** The inside of a quoted cell, whatever it holds. */
  lemma {:induction false} ReadsInside(cell: string, rest: string, s: Scan, limit: int)
    requires s.quoted && Closes(rest)
    ensures ReadFrom(Doubled(cell) + "\"" + rest, s, limit) ==
              ReadFrom(rest, s.(cell := s.cell + cell, quoted := false), limit)
    decreases |cell|
  {
    if cell == "" {
      assert Doubled(cell) + "\"" + rest == "\"" + rest;
      assert s.cell + cell == s.cell;
      ReadsClosing(rest, s, limit);
    } else {
      hide *;
      var tail, t := Doubled(cell[1..]) + "\"" + rest, s.(cell := s.cell + [cell[0]]);
      InsideText(cell, rest);
      ReadsInsideChar(cell[0], tail, s, limit);
      ReadsInside(cell[1..], rest, t, limit);
      assert t.cell + cell[1..] == s.cell + cell;
    }
  }

  /** A plain cell is taken character by character. */
  lemma {:induction false} ReadsPlain(cell: string, rest: string, s: Scan, limit: int)
    requires !s.quoted && Plain(cell)
    ensures ReadFrom(cell + rest, s, limit) == ReadFrom(rest, s.(cell := s.cell + cell), limit)
    decreases |cell|
  {
    if cell == "" {
      assert cell + rest == rest && s.cell + cell == s.cell;
    } else {
      var text, t := cell + rest, s.(cell := s.cell + [cell[0]]);
      assert text[0] == cell[0] && text[Width(text, s)..] == cell[1..] + rest;
      assert OnChar(text, s) == t;
      ReadsPlain(cell[1..], rest, t, limit);
      assert t.cell + cell[1..] == s.cell + cell;
    }
  }

  lemma ReadsCell(cell: string, quote: bool, rest: string, s: Scan, limit: int)
    requires !s.quoted && s.cell == "" && Closes(rest) && (quote || Plain(cell))
    ensures ReadFrom(CellText(cell, quote) + rest, s, limit) == ReadFrom(rest, s.(cell := cell), limit)
  {
    assert s.cell + cell == cell;
    if quote {
      var text := Quoted(cell) + rest;
      assert text == "\"" + (Doubled(cell) + "\"" + rest);
      assert text[Width(text, s)..] == Doubled(cell) + "\"" + rest;
      ReadsInside(cell, rest, s.(quoted := true), limit);
    } else {
      ReadsPlain(cell, rest, s, limit);
    }
  }

  lemma ReadsComma(rest: string, s: Scan, limit: int)
    requires !s.quoted
    ensures ReadFrom("," + rest, s, limit) == ReadFrom(rest, s.(row := s.row + [s.cell], cell := ""), limit)
  {
    var text := "," + rest;
    assert text[Width(text, s)..] == rest;
  }

  /** All cells of a row but its end: the last one is left open. */
  lemma {:induction false} ReadsCells(cells: seq<string>, quotes: seq<bool>, rest: string, s: Scan, limit: int)
    requires Writable(Written(cells, quotes, EndOfText)) && !s.quoted && s.cell == "" && Closes(rest)
    ensures ReadFrom(CellsText(cells, quotes) + rest, s, limit) ==
              ReadFrom(rest, s.(row := s.row + cells[..|cells| - 1], cell := cells[|cells| - 1]), limit)
    decreases |cells|
  {
    hide CellText, ReadFrom;
    if |cells| == 1 {
      assert CellsText(cells, quotes) + rest == CellText(cells[0], quotes[0]) + rest;
      ReadsCell(cells[0], quotes[0], rest, s, limit);
      assert s.row + cells[..0] == s.row;
    } else {
      var more := CellsText(cells[1..], quotes[1..]) + rest;
      var after := "," + more;
      assert CellsText(cells, quotes) + rest == CellText(cells[0], quotes[0]) + after;
      ReadsCell(cells[0], quotes[0], after, s, limit);
      var q := s.(cell := cells[0]);
      ReadsComma(more, q, limit);
      ReadsCells(cells[1..], quotes[1..], rest, EndCell(q), limit);
      assert s.row + [cells[0]] + cells[1..][..|cells| - 2] == s.row + cells[..|cells| - 1];
    }
  }

  /** A row end that is written closes the row. */
  lemma ReadsEnd(end: End, rest: string, s: Scan, limit: int)
    requires !s.quoted && !end.EndOfText?
    requires end.CarriageReturn? ==> rest == "" || rest[0] != '\n'
    ensures var t := s.(rows := s.rows + [s.row + [s.cell]], row := [], cell := "");
            ReadFrom(EndText(end) + rest, s, limit) == if |t.rows| >= limit then t.rows else ReadFrom(rest, t, limit)
  {
    var text := EndText(end) + rest;
    assert text[Width(text, s)..] == rest;
  }

  /** Only an empty line starts with a line feed. */
  lemma StartsPlainly(w: Written, rest: string)
    requires Writable(w) && !EmptyLine(w) && (w.end.EndOfText? ==> rest == "")
    ensures RowText(w) + rest == "" || (RowText(w) + rest)[0] != '\n'
  {
    var cells, quotes := w.cells, w.quotes;
    if cells[0] == "" && !quotes[0] && |cells| == 1 {
      assert cells == [""] && quotes == [false];
      assert RowText(w) + rest == EndText(w.end) + rest;
    } else if cells[0] != "" && !quotes[0] {
      assert (RowText(w) + rest)[0] == cells[0][0];
    }
  }

  lemma {:induction false} ReadsRow(w: Written, rest: string, s: Scan, limit: int)
    requires Writable(w) && !w.end.EndOfText? && !s.quoted && s.cell == "" && s.row == []
    requires w.end.CarriageReturn? ==> rest == "" || rest[0] != '\n'
    ensures var t := s.(rows := s.rows + [w.cells]);
            ReadFrom(RowText(w) + rest, s, limit) ==
              if |t.rows| >= limit then t.rows else ReadFrom(rest, t, limit)
  {
    hide CellsText, ReadFrom;
    var n := |w.cells| - 1;
    var after := EndText(w.end) + rest;
    assert RowText(w) + rest == CellsText(w.cells, w.quotes) + after;
    ReadsCells(w.cells, w.quotes, after, s, limit);
    var q := s.(row := s.row + w.cells[..n], cell := w.cells[n]);
    ReadsEnd(w.end, rest, q, limit);
    assert s.row + w.cells[..n] + [w.cells[n]] == w.cells;
  }

  /** The last row when nothing follows it. */
  lemma ReadsLast(w: Written, s: Scan, limit: int)
    requires Writable(w) && w.end.EndOfText? && !s.quoted && s.cell == "" && s.row == []
    ensures ReadFrom(RowText(w), s, limit) ==
              if w.cells == [""] then s.rows else s.rows + [w.cells]
  {
    hide CellsText;
    var n := |w.cells| - 1;
    ReadsCells(w.cells, w.quotes, "", s, limit);
    assert RowText(w) == CellsText(w.cells, w.quotes) + "";
    assert s.row + w.cells[..n] + [w.cells[n]] == w.cells;
    if n == 0 { assert w.cells == [w.cells[0]]; } else { assert s.row + w.cells[..n] != []; }
  }

  lemma {:induction false} ReadsRows(ws: seq<Written>, s: Scan, limit: int)
    requires File(ws) && !s.quoted && s.cell == "" && s.row == [] && |s.rows| < Allowed(limit)
    ensures ReadFrom(FileText(ws), s, limit) ==
              s.rows + RowsOf(ws)[..Least(|RowsOf(ws)|, Allowed(limit) - |s.rows|)]
    decreases |ws|
  {
    hide RowText, ReadFrom, Writable;
    if ws == [] {
      NothingToRead(s, limit);
      assert s.rows + RowsOf(ws)[..0] == s.rows;
    } else if ws[0].end.EndOfText? {
      assert FileText(ws) == RowText(ws[0]) by { assert ws[1..] == []; }
      ReadsLast(ws[0], s, limit);
      assert ws[1..] == [] && s.rows + [] == s.rows;
    } else {
      var t, rows, more := s.(rows := s.rows + [ws[0].cells]), RowsOf(ws), RowsOf(ws[1..]);
      if ws[0].end.CarriageReturn? { NextAfterReturn(ws); }
      ReadsRow(ws[0], FileText(ws[1..]), s, limit);
      var n := Least(|rows|, Allowed(limit) - |s.rows|);
      assert rows == [ws[0].cells] + more;
      assert rows[..n] == [ws[0].cells] + more[..n - 1];
      if |t.rows| >= limit {
        assert n == 1 && s.rows + rows[..1] == t.rows;
      } else {
        ReadsRows(ws[1..], t, limit);
        assert t.rows + more[..n - 1] == s.rows + rows[..n];
      }
    }
  }

  lemma NothingToRead(s: Scan, limit: int)
    requires s.cell == "" && s.row == []
    ensures ReadFrom("", s, limit) == s.rows
  {
  }

  lemma NextAfterReturn(ws: seq<Written>)
    requires File(ws) && ws != [] && ws[0].end.CarriageReturn?
    ensures FileText(ws[1..]) == "" || FileText(ws[1..])[0] != '\n'
  {
    hide RowText, Writable;
    if |ws| > 1 {
      var next := ws[1..];
      assert next[0] == ws[1] && !EmptyLine(ws[0 + 1]);
      if ws[1].end.EndOfText? { assert next[1..] == []; }
      StartsPlainly(ws[1], FileText(next[1..]));
    }
  }

  /** Reading a file gives back its first rows up to the limit, one at least: cells in quotes hold
      anything, plain ones anything but quotes, commas and line breaks; rows end with a line feed, with
      both characters or with a bare carriage return; and the last row may end with the text, unless
      it is one empty cell, which is then lost. */
  lemma ReadsWritten(ws: seq<Written>, limit: int)
    requires File(ws)
    ensures ReadFrom(FileText(ws), START, limit) == RowsOf(ws)[..Least(|RowsOf(ws)|, Allowed(limit))]
  {
    hide FileText, RowsOf, File, ReadFrom;
    ReadsRows(ws, START, limit);
    assert START.rows + RowsOf(ws)[..Least(|RowsOf(ws)|, Allowed(limit))]
        == RowsOf(ws)[..Least(|RowsOf(ws)|, Allowed(limit))];
  }

  /** Every cell in quotes and a line feed after every row: any rows that have cells. */
  function InQuotes(rows: seq<seq<string>>): (ws: seq<Written>)
    ensures |ws| == |rows|
  {
    seq(|rows|, i requires 0 <= i < |rows| => Written(rows[i], seq(|rows[i]|, _ => true), LineFeed))
  }

  predicate EachHasCells(rows: seq<seq<string>>) {
    forall i | 0 <= i < |rows| :: rows[i] != []
  }

  lemma {:induction false} RowsInQuotes(rows: seq<seq<string>>)
    ensures RowsOf(InQuotes(rows)) == rows
  {
    if rows != [] {
      assert InQuotes(rows)[1..] == InQuotes(rows[1..]);
      RowsInQuotes(rows[1..]);
    }
  }

  /** Reading the fully quoted rendering of rows that have cells gives back the first rows up to
      the limit (one at least), whatever commas, quotes and line breaks the cells hold. */
  lemma CsvRoundTrip(rows: seq<seq<string>>, limit: int)
    requires EachHasCells(rows)
    ensures File(InQuotes(rows))
    ensures ReadFrom(FileText(InQuotes(rows)), START, limit) == rows[..Least(|rows|, Allowed(limit))]
  {
    RowsInQuotes(rows);
    ReadsWritten(InQuotes(rows), limit);
  }
}
