/** The ZIP writer of apps/poc/public/artifact-tools.js and an independent reader of the format
    (PKWARE APPNOTE, sections 4.3.7, 4.3.12 and 4.3.16). */
module Zip {
  import opened Wrappers
  import opened Text

  type Byte = n: nat | n < 256

  datatype Entry = Entry(name: seq<Byte>, data: seq<Byte>)

  const MAX_FILES: nat := 501
  const MAX_NAME: nat := 65535
  const MAX_TOTAL: nat := 33554432

  const LOCAL_SIGNATURE: nat := 0x04034b50
  const CENTRAL_SIGNATURE: nat := 0x02014b50
  const END_SIGNATURE: nat := 0x06054b50

  // ----- CRC-32 -----

  function CrcBit(crc: bv32): bv32 {
    (crc >> 1) ^ (if crc & 1 != 0 then 0xedb88320 else 0)
  }

  function CrcBits(crc: bv32, n: nat): bv32 {
    if n == 0 then crc else CrcBit(CrcBits(crc, n - 1))
  }

  function Mix(crc: bv32, b: Byte): bv32 {
    crc ^ (b as bv32)
  }

  function CrcBytes(data: seq<Byte>): bv32 {
    if data == [] then 0xffffffff else CrcBits(Mix(CrcBytes(data[..|data| - 1]), data[|data| - 1]), 8)
  }

  function Finished(crc: bv32): (n: nat)
    ensures n < 0x1_0000_0000
  {
    (crc ^ 0xffffffff) as nat
  }

  function Crc(data: seq<Byte>): (n: nat)
    ensures n < 0x1_0000_0000
  {
    Finished(CrcBytes(data))
  }

  lemma OneBit(c: bv32)
    ensures CrcBit(c) == if c & 1 != 0 then (c >> 1) ^ 0xedb8_8320 else c >> 1
  {
  }

  lemma EightTimes(c: bv32)
    ensures CrcBits(c, 8) == CrcBit(CrcBit(CrcBit(CrcBit(CrcBit(CrcBit(CrcBit(CrcBit(c))))))))
  {
    hide CrcBit;
    assert CrcBits(c, 0) == c;
    assert CrcBits(c, 2) == CrcBit(CrcBit(c));
    assert CrcBits(c, 4) == CrcBit(CrcBit(CrcBits(c, 2)));
    assert CrcBits(c, 6) == CrcBit(CrcBit(CrcBits(c, 4)));
    assert CrcBits(c, 8) == CrcBit(CrcBit(CrcBits(c, 6)));
  }

  lemma EightBitsOfOne()
    ensures CrcBits(0xffffffce, 8) == 0x7c231048
  {
    hide CrcBit;
    EightTimes(0xffffffce);
    assert CrcBit(0xffffffce) == 0x7fffffe7 by { OneBit(0xffffffce); }
    assert CrcBit(0x7fffffe7) == 0xd2477cd3 by { OneBit(0x7fffffe7); }
    assert CrcBit(0xd2477cd3) == 0x849b3d49 by { OneBit(0xd2477cd3); }
    assert CrcBit(0x849b3d49) == 0xaff51d84 by { OneBit(0x849b3d49); }
    assert CrcBit(0xaff51d84) == 0x57fa8ec2 by { OneBit(0xaff51d84); }
    assert CrcBit(0x57fa8ec2) == 0x2bfd4761 by { OneBit(0x57fa8ec2); }
    assert CrcBit(0x2bfd4761) == 0xf8462090 by { OneBit(0x2bfd4761); }
    assert CrcBit(0xf8462090) == 0x7c231048 by { OneBit(0xf8462090); }
  }

  /** A check value: the CRC-32 of the text "1". */
  lemma CrcCheck()
    ensures Crc([49]) == 0x83dcefb7
  {
    hide CrcBits;
    assert [49][..0] == [] && [49][0] == 49;
    assert Mix(0xffff_ffff, 49) == 0xffffffce;
    EightBitsOfOne();
    assert CrcBytes([49]) == 0x7c231048;
  }

  method EightBits(start: bv32) returns (crc: bv32)
    ensures crc == CrcBits(start, 8)
  {
    crc := start;
    for k := 0 to 8
      invariant crc == CrcBits(start, k)
    {
      crc := (crc >> 1) ^ (if crc & 1 != 0 then 0xedb88320 else 0);
    }
  }

  method ComputeCrc(data: seq<Byte>) returns (n: nat)
    ensures n == Crc(data)
  {
    hide Mix, CrcBits, Finished;
    var crc: bv32 := 0xffffffff;
    for i := 0 to |data|
      invariant crc == CrcBytes(data[..i])
    {
      assert data[..i + 1][..i] == data[..i];
      crc := EightBits(Mix(crc, data[i]));
    }
    assert data[..|data|] == data;
    n := Finished(crc);
  }

  // ----- little-endian fields in a record of zeros -----

  datatype Field = Field(pos: nat, value: nat, width: nat)

  function Bytes(value: nat, width: nat): (b: seq<Byte>)
    ensures |b| == width
  {
    if width == 0 then [] else [value % 256] + Bytes(value / 256, width - 1)
  }

  function Read(b: seq<Byte>, pos: nat, width: nat): nat
    requires pos + width <= |b|
    decreases width
  {
    if width == 0 then 0 else b[pos] + 256 * Read(b, pos + 1, width - 1)
  }

  function Power(width: nat): nat {
    if width == 0 then 1 else 256 * Power(width - 1)
  }

  predicate Within(size: nat, fields: seq<Field>) {
    forall i | 0 <= i < |fields| :: fields[i].pos + fields[i].width <= size
  }

  /** `header`: a zeroed record with its fields set one after the other. */
  function Header(size: nat, fields: seq<Field>): (b: seq<Byte>)
    requires Within(size, fields)
    ensures |b| == size
  {
    if fields == [] then seq(size, _ => 0) else
    var init, f := Header(size, fields[..|fields| - 1]), fields[|fields| - 1];
    init[..f.pos] + Bytes(f.value, f.width) + init[f.pos + f.width..]
  }

  method Put(b: array<Byte>, f: Field)
    requires f.pos + f.width <= b.Length
    modifies b
    ensures b[..] == old(b[..f.pos]) + Bytes(f.value, f.width) + old(b[f.pos + f.width..])
  {
    var value := f.value;
    ghost var whole := Bytes(f.value, f.width);
    for k := 0 to f.width
      invariant whole[k..] == Bytes(value, f.width - k)
      invariant b[..f.pos] == old(b[..f.pos]) && b[f.pos + f.width..] == old(b[f.pos + f.width..])
      invariant forall i | 0 <= i < k :: b[f.pos + i] == whole[i]
    {
      assert whole[k..][0] == whole[k] && whole[k..][1..] == whole[k + 1..];
      b[f.pos + k] := value % 256;
      value := value / 256;
    }
    assert b[..] == b[..f.pos] + b[f.pos..f.pos + f.width] + b[f.pos + f.width..];
    assert b[f.pos..f.pos + f.width] == whole;
  }

  method WriteHeader(size: nat, fields: seq<Field>) returns (b: array<Byte>)
    requires Within(size, fields)
    ensures fresh(b) && b[..] == Header(size, fields)
  {
    hide Bytes;
    b := new Byte[size](_ => 0);
    assert b[..] == Header(size, fields[..0]);
    for i := 0 to |fields|
      invariant b.Length == size && b[..] == Header(size, fields[..i])
    {
      ghost var was := b[..];
      Put(b, fields[i]);
      assert fields[..i + 1][..i] == fields[..i];
    }
    assert fields[..|fields|] == fields;
  }

  // ----- reading fields back -----

  predicate Apart(f: Field, g: Field) {
    f.pos + f.width <= g.pos || g.pos + g.width <= f.pos
  }

  lemma {:induction false} ReadBytes(value: nat, width: nat)
    requires value < Power(width)
    ensures Read(Bytes(value, width), 0, width) == value
  {
    if width > 0 {
      ReadBytes(value / 256, width - 1);
      ReadSame(Bytes(value, width), 1, Bytes(value / 256, width - 1), 0, width - 1);
    }
  }

  /** Reading depends on the bytes of the field alone. */
  lemma {:induction false} ReadSame(a: seq<Byte>, i: nat, b: seq<Byte>, k: nat, width: nat)
    requires i + width <= |a| && k + width <= |b| && a[i..i + width] == b[k..k + width]
    ensures Read(a, i, width) == Read(b, k, width)
    decreases width
  {
    if width > 0 {
      assert a[i..i + width][0] == a[i] && b[k..k + width][0] == b[k];
      assert a[i + 1..i + width] == a[i..i + width][1..] && b[k + 1..k + width] == b[k..k + width][1..];
      ReadSame(a, i + 1, b, k + 1, width - 1);
    }
  }

  predicate Separate(fields: seq<Field>) {
    forall i, k | 0 <= i < k < |fields| :: Apart(fields[i], fields[k])
  }

  lemma HeaderSlices(size: nat, fields: seq<Field>, g: Field)
    requires Within(size, fields) && fields != [] && g.pos + g.width <= size
    ensures var f := fields[|fields| - 1]; var before := Header(size, fields[..|fields| - 1]);
            && Header(size, fields)[f.pos..f.pos + f.width] == Bytes(f.value, f.width)
            && (Apart(f, g) ==> Header(size, fields)[g.pos..g.pos + g.width] == before[g.pos..g.pos + g.width])
  {
    hide Bytes;
  }

  /** A field that fits its width reads back, whatever the other fields are. */
  lemma {:induction false} FieldReads(size: nat, fields: seq<Field>, i: nat)
    requires Within(size, fields) && Separate(fields) && i < |fields| && fields[i].value < Power(fields[i].width)
    ensures Read(Header(size, fields), fields[i].pos, fields[i].width) == fields[i].value
    decreases |fields|
  {
    hide Header, Read, Bytes, Power;
    var g, init := fields[i], fields[..|fields| - 1];
    HeaderSlices(size, fields, g);
    if i == |fields| - 1 {
      ReadBytes(g.value, g.width);
      ReadSame(Header(size, fields), g.pos, Bytes(g.value, g.width), 0, g.width);
    } else {
      FieldReads(size, init, i);
      ReadSame(Header(size, fields), g.pos, Header(size, init), g.pos, g.width);
    }
  }

  /** What no field covers is zero. */
  lemma {:induction false} GapReads(size: nat, fields: seq<Field>, g: Field)
    requires Within(size, fields) && g.pos + g.width <= size && forall i | 0 <= i < |fields| :: Apart(fields[i], g)
    ensures Read(Header(size, fields), g.pos, g.width) == 0
    decreases |fields|
  {
    hide Read, Bytes;
    if fields == [] {
      ZerosRead(Header(size, fields), g.pos, g.width);
    } else {
      HeaderSlices(size, fields, g);
      GapReads(size, fields[..|fields| - 1], g);
      ReadSame(Header(size, fields), g.pos, Header(size, fields[..|fields| - 1]), g.pos, g.width);
    }
  }

  lemma {:induction false} ZerosRead(b: seq<Byte>, pos: nat, width: nat)
    requires pos + width <= |b| && forall i | 0 <= i < |b| :: b[i] == 0
    ensures Read(b, pos, width) == 0
    decreases width
  {
    if width > 0 { ZerosRead(b, pos + 1, width - 1); }
  }

  // ----- the records -----

  function LocalFields(e: Entry): seq<Field> {
    [Field(0, LOCAL_SIGNATURE, 4), Field(4, 20, 2), Field(6, 0x800, 2), Field(12, 33, 2), Field(14, Crc(e.data), 4),
     Field(18, |e.data|, 4), Field(22, |e.data|, 4), Field(26, |e.name|, 2)]
  }

  function CentralFields(e: Entry, offset: nat): seq<Field> {
    [Field(0, CENTRAL_SIGNATURE, 4), Field(4, 20, 2), Field(6, 20, 2), Field(8, 0x800, 2), Field(14, 33, 2),
     Field(16, Crc(e.data), 4), Field(20, |e.data|, 4), Field(24, |e.data|, 4), Field(28, |e.name|, 2),
     Field(42, offset, 4)]
  }

  function EndFields(count: nat, length: nat, offset: nat): seq<Field> {
    [Field(0, END_SIGNATURE, 4), Field(8, count, 2), Field(10, count, 2), Field(12, length, 4), Field(16, offset, 4)]
  }

  lemma FieldsPlaced(e: Entry, offset: nat, count: nat, length: nat)
    ensures Within(30, LocalFields(e)) && Separate(LocalFields(e))
    ensures Within(46, CentralFields(e, offset)) && Separate(CentralFields(e, offset))
    ensures Within(22, EndFields(count, length, offset)) && Separate(EndFields(count, length, offset))
  {
  }

  function LocalHeader(e: Entry): (b: seq<Byte>)
    ensures |b| == 30
  {
    FieldsPlaced(e, 0, 0, 0);
    Header(30, LocalFields(e))
  }

  function CentralHeader(e: Entry, offset: nat): (b: seq<Byte>)
    ensures |b| == 46
  {
    FieldsPlaced(e, offset, 0, 0);
    Header(46, CentralFields(e, offset))
  }

  function EndRecord(count: nat, length: nat, offset: nat): (b: seq<Byte>)
    ensures |b| == 22
  {
    FieldsPlaced(Entry([], []), offset, count, length);
    Header(22, EndFields(count, length, offset))
  }

  function LocalRecord(e: Entry): seq<Byte> {
    LocalHeader(e) + e.name + e.data
  }

  function CentralRecord(e: Entry, offset: nat): seq<Byte> {
    CentralHeader(e, offset) + e.name
  }

  function Locals(es: seq<Entry>): seq<Byte> {
    if es == [] then [] else Locals(es[..|es| - 1]) + LocalRecord(es[|es| - 1])
  }

  function Centrals(es: seq<Entry>): seq<Byte> {
    if es == [] then [] else Centrals(es[..|es| - 1]) + CentralRecord(es[|es| - 1], |Locals(es[..|es| - 1])|)
  }

  function Archive(es: seq<Entry>): seq<Byte> {
    Locals(es) + Centrals(es) + EndRecord(|es|, |Centrals(es)|, |Locals(es)|)
  }

  // ----- the writer -----

  /** A file to archive; its name is text. */
  datatype File = File(name: string, data: seq<Byte>)

  datatype ZipError = TooManyFiles | InvalidPath | InvalidEntry | TooLarge

  predicate SafePath(name: string) {
    (forall i | 0 <= i < |Split(name, '/')| :: Split(name, '/')[i] !in {"", ".", ".."}) && '\\' !in name
        && '\0' !in name
  }

  /** Positions `i` and `j` bound a component of the path: what lies between two neighbouring slashes. */
  predicate Component(name: string, i: nat, j: nat) {
    && i <= j <= |name| && '/' !in name[i..j]
    && (i == 0 || name[i - 1] == '/') && (j == |name| || name[j] == '/')
  }

  ghost predicate Plain(name: string) {
    forall i: nat, j: nat | Component(name, i, j) :: name[i..j] != "" && name[i..j] != "." && name[i..j] != ".."
  }

  predicate PlainParts(parts: seq<string>) {
    forall k | 0 <= k < |parts| :: parts[k] != "" && parts[k] != "." && parts[k] != ".."
  }

  lemma PlainFirst(first: string, rest: seq<string>)
    ensures PlainParts([first] + rest) <==> first != "" && first != "." && first != ".." && PlainParts(rest)
  {
    var parts := [first] + rest;
    assert parts[0] == first && forall k | 0 <= k < |rest| :: rest[k] == parts[k + 1];
  }

  lemma {:induction false} PartsArePlain(name: string)
    ensures PlainParts(Split(name, '/')) <==> Plain(name)
    decreases |name|
  {
    hide Plain, PlainParts;
    var n := IndexOf(name, '/');
    if n < 0 {
      PlainWhole(name);
      PlainFirst(name, []);
      assert Split(name, '/') == [name] + [];
      assert PlainParts([]) by { NoParts(); }
    } else {
      PartsArePlain(name[n + 1..]);
      PlainSplits(name, n);
      PlainFirst(name[..n], Split(name[n + 1..], '/'));
    }
  }

  lemma NoParts()
    ensures PlainParts([])
  {
  }

  lemma PlainWhole(name: string)
    requires '/' !in name
    ensures Plain(name) <==> name != "" && name != "." && name != ".."
  {
    assert Component(name, 0, |name|) && name[0..|name|] == name;
    forall i: nat, j: nat | Component(name, i, j) ensures i == 0 && j == |name| {}
  }

  lemma Behind(name: string, n: nat, i: nat, j: nat)
    requires n < |name| && name[n] == '/' && '/' !in name[..n] && Component(name, i, j)
    ensures (i == 0 && j == n) || (i > n && Component(name[n + 1..], i - n - 1, j - n - 1))
  {
    forall k | 0 <= k < n ensures name[k] != '/' { assert name[k] in name[..n]; }
    forall k | i <= k < j ensures name[k] != '/' { assert name[k] in name[i..j]; }
    if i > n { assert name[i..j] == name[n + 1..][i - n - 1..j - n - 1]; }
  }

  lemma PlainSplits(name: string, n: nat)
    requires n < |name| && name[n] == '/' && '/' !in name[..n]
    ensures Plain(name) <==> name[..n] != "" && name[..n] != "." && name[..n] != ".." && Plain(name[n + 1..])
  {
    var rest := name[n + 1..];
    assert Component(name, 0, n) && name[0..n] == name[..n];
    if Plain(name) {
      forall i: nat, j: nat | Component(rest, i, j)
        ensures rest[i..j] != "" && rest[i..j] != "." && rest[i..j] != ".."
      {
        assert name[i + n + 1..j + n + 1] == rest[i..j];
        assert Component(name, i + n + 1, j + n + 1);
      }
    }
    if name[..n] != "" && name[..n] != "." && name[..n] != ".." && Plain(rest) {
      forall i: nat, j: nat | Component(name, i, j)
        ensures name[i..j] != "" && name[i..j] != "." && name[i..j] != ".."
      {
        Behind(name, n, i, j);
        if i > n { assert name[i..j] == rest[i - n - 1..j - n - 1]; }
      }
    }
  }

  /** A path is accepted exactly when none of its components is empty, `.` or `..` (so it is relative,
      stays below where it is unpacked and has no double slash) and it has no backslash and no NUL. */
  lemma SafePathIs(name: string)
    ensures SafePath(name) <==>
              Plain(name) && forall i | 0 <= i < |name| :: name[i] != '\\' && name[i] != 0 as char
  {
    hide Split, Plain;
    PartsArePlain(name);
  }

  function EntryOf(encode: string -> seq<Byte>, f: File): Entry {
    Entry(encode(f.name), f.data)
  }

  function EntriesOf(encode: string -> seq<Byte>, fs: seq<File>): seq<Entry> {
    seq(|fs|, i requires 0 <= i < |fs| => EntryOf(encode, fs[i]))
  }

  lemma EntriesGrow(encode: string -> seq<Byte>, fs: seq<File>)
    requires fs != []
    ensures EntriesOf(encode, fs) == EntriesOf(encode, fs[..|fs| - 1]) + [EntryOf(encode, fs[|fs| - 1])]
  {
    hide EntryOf;
  }

  function TotalData(fs: seq<File>): nat {
    if fs == [] then 0 else TotalData(fs[..|fs| - 1]) + |fs[|fs| - 1].data|
  }

  /** The error of the first file that is refused, if any. */
  function Refusal(encode: string -> seq<Byte>, fs: seq<File>): Option<ZipError> {
    if fs == [] then None else
    var earlier := Refusal(encode, fs[..|fs| - 1]);
    var f := fs[|fs| - 1];
    if earlier.Some? then earlier
    else if !SafePath(f.name) then Some(InvalidPath)
    else if |encode(f.name)| > MAX_NAME then Some(InvalidEntry)
    else if TotalData(fs) > MAX_TOTAL then Some(TooLarge)
    else None
  }

  lemma {:induction false} RefusalStays(encode: string -> seq<Byte>, fs: seq<File>, n: nat)
    requires n <= |fs| && Refusal(encode, fs[..n]).Some?
    ensures Refusal(encode, fs) == Refusal(encode, fs[..n])
    decreases |fs|
  {
    hide SafePath, TotalData;
    if n == |fs| { assert fs[..n] == fs; } else {
      assert fs[..|fs| - 1][..n] == fs[..n];
      RefusalStays(encode, fs[..|fs| - 1], n);
    }
  }

  function Zipped(encode: string -> seq<Byte>, fs: seq<File>): Result<seq<Byte>, ZipError> {
    if |fs| > MAX_FILES then Err(TooManyFiles)
    else if Refusal(encode, fs).Some? then Err(Refusal(encode, fs).value)
    else Ok(Archive(EntriesOf(encode, fs)))
  }

  predicate Acceptable(encode: string -> seq<Byte>, f: File) {
    SafePath(f.name) && |encode(f.name)| <= 65_535
  }

  /** Exactly which selections are accepted: few enough files, every path safe, every name short
      enough, and not too much data in all. */
  lemma {:induction false} RefusedExactly(encode: string -> seq<Byte>, fs: seq<File>)
    ensures Refusal(encode, fs).None? <==> (forall f | f in fs :: Acceptable(encode, f)) && TotalData(fs) <= 33_554_432
    ensures Zipped(encode, fs).Ok? <==> |fs| <= 501 && Refusal(encode, fs).None?
    decreases |fs|
  {
    hide SafePath;
    if fs != [] {
      var init, last := fs[..|fs| - 1], fs[|fs| - 1];
      RefusedExactly(encode, init);
      assert fs == init + [last];
      assert last in fs && forall f :: f in fs <==> f in init || f == last;
    }
  }

  /** `zipFiles`; `encode` is the text encoder. */
  method ZipFiles(encode: string -> seq<Byte>, fs: seq<File>) returns (r: Result<seq<Byte>, ZipError>)
    ensures r == Zipped(encode, fs)
  {
    hide SafePath, LocalHeader, CentralHeader, EndRecord, LocalFields, CentralFields, EndFields, Header, Crc;
    if |fs| > MAX_FILES { return Err(TooManyFiles); }
    var parts: seq<Byte> := [];
    var central: seq<Byte> := [];
    var offset, total := 0, 0;
    ghost var done: seq<Entry> := [];
    for i := 0 to |fs|
      invariant total == TotalData(fs[..i])
      invariant Refusal(encode, fs[..i]).None? && done == EntriesOf(encode, fs[..i])
      invariant offset == |parts| && parts == Locals(done) && central == Centrals(done) && |done| == i
    {
      var f := fs[i];
      assert fs[..i + 1][..i] == fs[..i];
      if !SafePath(f.name) { RefusalStays(encode, fs, i + 1); return Err(InvalidPath); }
      var name := encode(f.name);
      if |name| > MAX_NAME { RefusalStays(encode, fs, i + 1); return Err(InvalidEntry); }
      total := total + |f.data|;
      if total > MAX_TOTAL { RefusalStays(encode, fs, i + 1); return Err(TooLarge); }
      var crc := ComputeCrc(f.data);
      var e := Entry(name, f.data);
      FieldsPlaced(e, offset, 0, 0);
      var local := LocalHeaderBytes(e, crc);
      var directory := CentralHeaderBytes(e, crc, offset);
      parts := parts + (local + name + f.data);
      central := central + (directory + name);
      offset := offset + 30 + |name| + |f.data|;
      assert (done + [e])[..i] == done;
      EntriesGrow(encode, fs[..i + 1]);
      done := done + [e];
    }
    assert fs[..|fs|] == fs;
    var end := EndRecordBytes(|fs|, |central|, offset);
    return Ok(parts + central + end);
  }

  method LocalHeaderBytes(e: Entry, crc: nat) returns (b: seq<Byte>)
    requires crc == Crc(e.data)
    ensures b == LocalHeader(e)
  {
    hide Header, Crc;
    FieldsPlaced(e, 0, 0, 0);
    var a := WriteHeader(30, [
      Field(0, LOCAL_SIGNATURE, 4), Field(4, 20, 2), Field(6, 0x800, 2), Field(12, 33, 2), Field(14, crc, 4),
      Field(18, |e.data|, 4), Field(22, |e.data|, 4), Field(26, |e.name|, 2)]);
    b := a[..];
  }

  method CentralHeaderBytes(e: Entry, crc: nat, offset: nat) returns (b: seq<Byte>)
    requires crc == Crc(e.data)
    ensures b == CentralHeader(e, offset)
  {
    hide Header, Crc;
    FieldsPlaced(e, offset, 0, 0);
    var a := WriteHeader(46, [
      Field(0, CENTRAL_SIGNATURE, 4), Field(4, 20, 2), Field(6, 20, 2), Field(8, 0x800, 2), Field(14, 33, 2),
      Field(16, crc, 4), Field(20, |e.data|, 4), Field(24, |e.data|, 4), Field(28, |e.name|, 2),
      Field(42, offset, 4)]);
    b := a[..];
  }

  method EndRecordBytes(count: nat, length: nat, offset: nat) returns (b: seq<Byte>)
    ensures b == EndRecord(count, length, offset)
  {
    hide Header;
    FieldsPlaced(Entry([], []), offset, count, length);
    var a := WriteHeader(22, [
      Field(0, END_SIGNATURE, 4), Field(8, count, 2), Field(10, count, 2), Field(12, length, 4),
      Field(16, offset, 4)]);
    b := a[..];
  }

  // ----- an independent reader -----

  /** The stored file behind a local header that agrees with its directory entry; names are UTF-8 (flag
      bit 11), nothing newer than version 2.0 is needed, and the date is the format's first day. */
  function ReadLocal(b: seq<Byte>, at: nat, name: seq<Byte>, size: nat, crc: nat): Option<seq<Byte>> {
    if at + 30 > |b| || Read(b, at, 4) != 0x0403_4b50 then None
    else
      var start := at + 30 + Read(b, at + 26, 2) + Read(b, at + 28, 2);
      if Read(b, at + 4, 2) > 20 || Read(b, at + 6, 2) != 0x800 || Read(b, at + 12, 2) != 33 then None
      else if Read(b, at + 8, 2) != 0 || Read(b, at + 14, 4) != crc || Read(b, at + 18, 4) != size
         || Read(b, at + 22, 4) != size then None
      else if Read(b, at + 26, 2) != |name| || start + size > |b| || b[at + 30..at + 30 + |name|] != name then None
      else if Crc(b[start..start + size]) != crc then None
      else Some(b[start..start + size])
  }

  /** Walk `n` directory entries from `p`; they must end where the end record begins. */
  function Walk(b: seq<Byte>, p: nat, n: nat, end: nat): Option<seq<Entry>>
    requires end <= |b|
    decreases n
  {
    if n == 0 then (if p == end then Some([]) else None)
    else if p + 46 > end || Read(b, p, 4) != 0x0201_4b50 || Read(b, p + 10, 2) != 0 then None
    else if Read(b, p + 6, 2) > 20 || Read(b, p + 8, 2) != 0x800 || Read(b, p + 14, 2) != 33 then None
    else
      var nameEnd := p + 46 + Read(b, p + 28, 2);
      var next := nameEnd + Read(b, p + 30, 2) + Read(b, p + 32, 2);
      if next > end then None else
      var name := b[p + 46..nameEnd];
      if Read(b, p + 20, 4) != Read(b, p + 24, 4) then None else
      var data := ReadLocal(b, Read(b, p + 42, 4), name, Read(b, p + 24, 4), Read(b, p + 16, 4));
      var rest := Walk(b, next, n - 1, end);
      if data.None? || rest.None? then None else Some([Entry(name, data.value)] + rest.value)
  }

  /** The end record is the last 22 bytes; it locates the directory. */
  function Unzip(b: seq<Byte>): Option<seq<Entry>> {
    if |b| < 22 then None else
    var end := |b| - 22;
    var offset, length := Read(b, end + 16, 4), Read(b, end + 12, 4);
    if Read(b, end, 4) != 0x0605_4b50 || Read(b, end + 8, 2) != Read(b, end + 10, 2) || offset + length != end
    then None
    else Walk(b, offset, Read(b, end + 10, 2), end)
  }

  // ----- every field fits -----

  predicate Bounded(e: Entry) {
    |e.name| <= MAX_NAME && |e.data| <= MAX_TOTAL
  }

  function DataSize(es: seq<Entry>): nat {
    if es == [] then 0 else DataSize(es[..|es| - 1]) + |es[|es| - 1].data|
  }

  predicate NamesFit(es: seq<Entry>) {
    forall i | 0 <= i < |es| :: |es[i].name| <= MAX_NAME
  }

  /** What the writer's limits say of the entries. */
  predicate Limited(es: seq<Entry>) {
    |es| <= MAX_FILES && DataSize(es) <= MAX_TOTAL && NamesFit(es)
  }

  lemma DataGrows(es: seq<Entry>, e: Entry)
    ensures DataSize(es + [e]) == DataSize(es) + |e.data|
  {
    assert (es + [e])[..|es|] == es;
  }

  lemma {:induction false} DataAgrees(encode: string -> seq<Byte>, fs: seq<File>)
    ensures DataSize(EntriesOf(encode, fs)) == TotalData(fs)
    decreases |fs|
  {
    hide EntriesOf, DataSize;
    if fs == [] {
      NoEntries(encode);
    } else {
      DataAgrees(encode, fs[..|fs| - 1]);
      EntriesGrow(encode, fs);
      DataGrows(EntriesOf(encode, fs[..|fs| - 1]), EntryOf(encode, fs[|fs| - 1]));
    }
  }

  /** What is accepted is within the limits. */
  lemma AcceptedIsLimited(encode: string -> seq<Byte>, fs: seq<File>)
    requires Zipped(encode, fs).Ok?
    ensures Limited(EntriesOf(encode, fs))
  {
    hide SafePath, Archive, DataSize, TotalData;
    RefusedExactly(encode, fs);
    DataAgrees(encode, fs);
    forall i | 0 <= i < |fs| ensures |EntriesOf(encode, fs)[i].name| <= MAX_NAME { assert Acceptable(encode, fs[i]); }
  }

  lemma NoEntries(encode: string -> seq<Byte>)
    ensures EntriesOf(encode, []) == [] && DataSize([]) == 0
  {
  }

  lemma {:induction false} DataPart(es: seq<Entry>, i: nat)
    requires i < |es|
    ensures |es[i].data| <= DataSize(es)
  {
    if i < |es| - 1 { DataPart(es[..|es| - 1], i); }
  }

  lemma {:induction false} Sizes(es: seq<Entry>)
    requires NamesFit(es)
    ensures |Locals(es)| <= |es| * (30 + MAX_NAME) + DataSize(es)
    ensures |Centrals(es)| <= |es| * (46 + MAX_NAME)
  {
    hide LocalHeader, CentralHeader;
    if es != [] { Sizes(es[..|es| - 1]); }
  }

  lemma {:induction false} PrefixLimits(es: seq<Entry>, n: nat)
    requires n <= |es|
    ensures Locals(es[..n]) <= Locals(es) && Centrals(es[..n]) <= Centrals(es) && DataSize(es[..n]) <= DataSize(es)
    decreases |es|
  {
    hide LocalHeader, CentralHeader;
    if n == |es| { assert es[..n] == es; } else {
      assert es[..|es| - 1][..n] == es[..n];
      PrefixLimits(es[..|es| - 1], n);
    }
  }

  /** Under the writer's limits every size, count and offset fits the 16 or 32 bits of its field. */
  lemma FieldsFit(es: seq<Entry>)
    requires Limited(es)
    ensures |es| < 0x1_0000 && |Locals(es)| < 0x1_0000_0000 && |Centrals(es)| < 0x1_0000_0000
    ensures forall i | 0 <= i < |es| ::
              |es[i].name| < 0x1_0000 && |es[i].data| < 0x1_0000_0000 && |Locals(es[..i])| < 0x1_0000_0000
  {
    hide Locals, Centrals, DataSize;
    Sizes(es);
    forall i | 0 <= i < |es| ensures |es[i].data| < 0x1_0000_0000 && |Locals(es[..i])| < 0x1_0000_0000 {
      DataPart(es, i);
      PrefixLimits(es, i);
    }
  }

  // ----- the round trip -----

  lemma Powers()
    ensures Power(2) == 0x1_0000 && Power(4) == 0x1_0000_0000
  {
  }

  /** A header found inside a larger file. */
  predicate At(b: seq<Byte>, p: nat, part: seq<Byte>) {
    p + |part| <= |b| && b[p..p + |part|] == part
  }

  lemma SliceOfSlice(b: seq<Byte>, p: nat, n: nat, pos: nat, width: nat)
    requires p + n <= |b| && pos + width <= n
    ensures b[p + pos..p + pos + width] == b[p..p + n][pos..pos + width]
  {
    var inner := b[p..p + n];
    forall i | pos <= i < pos + width ensures inner[i] == b[p + i] {}
  }

  lemma AtField(b: seq<Byte>, p: nat, part: seq<Byte>, pos: nat, width: nat)
    requires At(b, p, part) && pos + width <= |part|
    ensures Read(b, p + pos, width) == Read(part, pos, width)
  {
    hide Read;
    SliceOfSlice(b, p, |part|, pos, width);
    ReadSame(b, p + pos, part, pos, width);
  }

  lemma AtParts(b: seq<Byte>, p: nat, x: seq<Byte>, y: seq<Byte>)
    requires At(b, p, x + y)
    ensures At(b, p, x) && At(b, p + |x|, y)
  {
    var whole := b[p..p + |x + y|];
    assert whole[..|x|] == x && whole[|x|..] == y;
    assert b[p..p + |x|] == whole[..|x|] && b[p + |x|..p + |x| + |y|] == whole[|x|..];
  }

  lemma LocalReads(b: seq<Byte>, at: nat, e: Entry)
    requires At(b, at, LocalRecord(e)) && |e.name| < 0x1_0000 && |e.data| < 0x1_0000_0000
    ensures ReadLocal(b, at, e.name, |e.data|, Crc(e.data)) == Some(e.data)
  {
    hide Read, Header, Crc, Power;
    AtParts(b, at, LocalHeader(e) + e.name, e.data);
    AtParts(b, at, LocalHeader(e), e.name);
    LocalHeaderReads(b, at, e);
    assert b[at + 30 + |e.name|..at + 30 + |e.name| + |e.data|] == e.data;
  }

  lemma LocalHeaderReads(b: seq<Byte>, at: nat, e: Entry)
    requires At(b, at, LocalHeader(e)) && |e.name| < 0x1_0000 && |e.data| < 0x1_0000_0000
    ensures Read(b, at + 4, 2) == 20 && Read(b, at + 6, 2) == 0x800 && Read(b, at + 12, 2) == 33
    ensures Read(b, at, 4) == LOCAL_SIGNATURE && Read(b, at + 8, 2) == 0 && Read(b, at + 14, 4) == Crc(e.data)
    ensures Read(b, at + 18, 4) == |e.data| && Read(b, at + 22, 4) == |e.data|
    ensures Read(b, at + 26, 2) == |e.name| && Read(b, at + 28, 2) == 0
  {
    hide Read, Header, Crc, At, Power;
    Powers();
    FieldsPlaced(e, 0, 0, 0);
    var fields, h := LocalFields(e), LocalHeader(e);
    AtField(b, at, h, 0, 4);
    AtField(b, at, h, 4, 2);
    AtField(b, at, h, 6, 2);
    AtField(b, at, h, 12, 2);
    AtField(b, at, h, 8, 2);
    AtField(b, at, h, 14, 4);
    AtField(b, at, h, 18, 4);
    AtField(b, at, h, 22, 4);
    AtField(b, at, h, 26, 2);
    AtField(b, at, h, 28, 2);
    FieldReads(30, fields, 0);
    FieldReads(30, fields, 1);
    FieldReads(30, fields, 2);
    FieldReads(30, fields, 3);
    GapReads(30, fields, Field(8, 0, 2));
    FieldReads(30, fields, 4);
    FieldReads(30, fields, 5);
    FieldReads(30, fields, 6);
    FieldReads(30, fields, 7);
    GapReads(30, fields, Field(28, 0, 2));
  }

  lemma CentralHeaderReads(b: seq<Byte>, p: nat, e: Entry, offset: nat)
    requires At(b, p, CentralHeader(e, offset)) && |e.name| < 0x1_0000 && |e.data| < 0x1_0000_0000
    requires offset < 0x1_0000_0000
    ensures Read(b, p + 6, 2) == 20 && Read(b, p + 8, 2) == 0x800 && Read(b, p + 14, 2) == 33
    ensures Read(b, p, 4) == CENTRAL_SIGNATURE && Read(b, p + 10, 2) == 0 && Read(b, p + 16, 4) == Crc(e.data)
    ensures Read(b, p + 20, 4) == |e.data| && Read(b, p + 24, 4) == |e.data| && Read(b, p + 28, 2) == |e.name|
    ensures Read(b, p + 30, 2) == 0 && Read(b, p + 32, 2) == 0 && Read(b, p + 42, 4) == offset
  {
    hide Read, Header, Crc, At, Power;
    Powers();
    FieldsPlaced(e, offset, 0, 0);
    var fields, h := CentralFields(e, offset), CentralHeader(e, offset);
    AtField(b, p, h, 0, 4);
    AtField(b, p, h, 6, 2);
    AtField(b, p, h, 8, 2);
    AtField(b, p, h, 14, 2);
    AtField(b, p, h, 10, 2);
    AtField(b, p, h, 16, 4);
    AtField(b, p, h, 20, 4);
    AtField(b, p, h, 24, 4);
    AtField(b, p, h, 28, 2);
    AtField(b, p, h, 30, 2);
    AtField(b, p, h, 32, 2);
    AtField(b, p, h, 42, 4);
    FieldReads(46, fields, 0);
    FieldReads(46, fields, 2);
    FieldReads(46, fields, 3);
    FieldReads(46, fields, 4);
    GapReads(46, fields, Field(10, 0, 2));
    FieldReads(46, fields, 5);
    FieldReads(46, fields, 6);
    FieldReads(46, fields, 7);
    FieldReads(46, fields, 8);
    GapReads(46, fields, Field(30, 0, 2));
    GapReads(46, fields, Field(32, 0, 2));
    FieldReads(46, fields, 9);
  }

  lemma EndReads(b: seq<Byte>, p: nat, count: nat, length: nat, offset: nat)
    requires At(b, p, EndRecord(count, length, offset)) && count < 0x1_0000 && length < 0x1_0000_0000
    requires offset < 0x1_0000_0000
    ensures Read(b, p, 4) == END_SIGNATURE && Read(b, p + 8, 2) == count && Read(b, p + 10, 2) == count
    ensures Read(b, p + 12, 4) == length && Read(b, p + 16, 4) == offset
  {
    hide Read, Header, At, Power;
    Powers();
    FieldsPlaced(Entry([], []), offset, count, length);
    var fields, h := EndFields(count, length, offset), EndRecord(count, length, offset);
    AtField(b, p, h, 0, 4);
    AtField(b, p, h, 8, 2);
    AtField(b, p, h, 10, 2);
    AtField(b, p, h, 12, 4);
    AtField(b, p, h, 16, 4);
    FieldReads(22, fields, 0);
    FieldReads(22, fields, 1);
    FieldReads(22, fields, 2);
    FieldReads(22, fields, 3);
    FieldReads(22, fields, 4);
  }

  /** Where entry `k` lies in the archive. */
  lemma EntryPlaced(es: seq<Entry>, k: nat)
    requires k < |es|
    ensures At(Archive(es), |Locals(es[..k])|, LocalRecord(es[k]))
    ensures At(Archive(es), |Locals(es)| + |Centrals(es[..k])|, CentralRecord(es[k], |Locals(es[..k])|))
    ensures |Centrals(es[..k + 1])| == |Centrals(es[..k])| + 46 + |es[k].name|
  {
    hide LocalRecord, CentralHeader, EndRecord;
    var b, to := Archive(es), es[..k + 1];
    assert to[..k] == es[..k];
    PrefixLimits(es, k + 1);
    var ls, cs := Locals(es), Centrals(es);
    assert Locals(to) == Locals(es[..k]) + LocalRecord(es[k]);
    assert ls[..|Locals(to)|] == Locals(to) && cs[..|Centrals(to)|] == Centrals(to);
    assert b[..|ls|] == ls && b[|ls|..|ls| + |cs|] == cs;
    InPrefix(b, 0, ls, Locals(es[..k]), LocalRecord(es[k]));
    InPrefix(b, |ls|, cs, Centrals(es[..k]), CentralRecord(es[k], |Locals(es[..k])|));
  }

  lemma InPrefix(b: seq<Byte>, p: nat, whole: seq<Byte>, x: seq<Byte>, y: seq<Byte>)
    requires At(b, p, whole) && x + y <= whole
    ensures At(b, p + |x|, y)
  {
    assert whole == x + y + whole[|x + y|..];
    AtParts(b, p, x + y, whole[|x + y|..]);
    AtParts(b, p, x, y);
  }

  lemma WalkOne(b: seq<Byte>, p: nat, n: nat, end: nat, e: Entry, offset: nat, rest: seq<Entry>)
    requires n > 0 && p + 46 + |e.name| <= end <= |b| && At(b, p, CentralRecord(e, offset))
    requires |e.name| < 0x1_0000 && |e.data| < 0x1_0000_0000 && offset < 0x1_0000_0000
    requires ReadLocal(b, offset, e.name, |e.data|, Crc(e.data)) == Some(e.data)
    requires Walk(b, p + 46 + |e.name|, n - 1, end) == Some(rest)
    ensures Walk(b, p, n, end) == Some([e] + rest)
  {
    hide Read, CentralHeader, Crc, ReadLocal;
    AtParts(b, p, CentralHeader(e, offset), e.name);
    CentralHeaderReads(b, p, e, offset);
  }

  lemma {:induction false} WalkReads(es: seq<Entry>, k: nat)
    requires Limited(es) && k <= |es|
    ensures var b := Archive(es);
            Walk(b, |Locals(es)| + |Centrals(es[..k])|, |es| - k, |b| - 22) == Some(es[k..])
    decreases |es| - k
  {
    hide Locals, Centrals, LocalRecord, CentralRecord, EndRecord, Crc, ReadLocal, At, Walk;
    var b := Archive(es);
    var p := |Locals(es)| + |Centrals(es[..k])|;
    if k == |es| {
      assert es[..k] == es && es[k..] == [];
      WalkEnds(b, p);
    } else {
      EntryPlaced(es, k);
      FieldsFit(es);
      WalkReads(es, k + 1);
      LocalReads(b, |Locals(es[..k])|, es[k]);
      PrefixLimits(es, k + 1);
      WalkOne(b, p, |es| - k, |b| - 22, es[k], |Locals(es[..k])|, es[k + 1..]);
      assert es[k..] == [es[k]] + es[k + 1..];
    }
  }

  lemma WalkEnds(b: seq<Byte>, p: nat)
    requires p <= |b|
    ensures Walk(b, p, 0, p) == Some([])
  {
  }

  /** Within the limits, reading the archive gives back exactly its entries, in order. */
  lemma ArchiveReads(es: seq<Entry>)
    requires Limited(es)
    ensures Unzip(Archive(es)) == Some(es)
  {
    hide Locals, Centrals, Read, EndRecord, Walk;
    var b := Archive(es);
    FieldsFit(es);
    var end := |Locals(es)| + |Centrals(es)|;
    assert b[end..end + 22] == EndRecord(|es|, |Centrals(es)|, |Locals(es)|);
    EndReads(b, end, |es|, |Centrals(es)|, |Locals(es)|);
    WalkReads(es, 0);
    assert |Centrals(es[..0])| == 0 by { NoCentrals(); }
    assert es[0..] == es;
  }

  lemma NoCentrals()
    ensures Centrals([]) == []
  {
  }

  /** Whatever `zipFiles` accepts, the reader recovers: the encoded names and the bytes of every
      file, in order. */
  lemma ZipRoundTrip(encode: string -> seq<Byte>, fs: seq<File>)
    requires Zipped(encode, fs).Ok?
    ensures Unzip(Zipped(encode, fs).value) == Some(EntriesOf(encode, fs))
  {
    hide Unzip, Archive, Limited, EntriesOf, Refusal;
    AcceptedIsLimited(encode, fs);
    ArchiveReads(EntriesOf(encode, fs));
  }
}
