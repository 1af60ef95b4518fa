/** The canonical form of an approval action and why its digest is unambiguous.
    Models `canonical_json` of crates/agentmeld-server/src/approvals.rs. */
module CanonicalJson {
  import opened Wrappers

  /** A member of an object; the value is a JSON value, or its rendering. */
  datatype Entry<T> = Entry(key: string, value: T)

  /** A JSON value; numbers are opaque tokens, objects are entry lists. */
  datatype Json =
    | Null
    | Bool(value: bool)
    | Number(token: string)
    | String(text: string)
    | Array(items: seq<Json>)
    | Object(entries: seq<Entry<Json>>)

  // ----- order of keys: ascending code points -----

  predicate Le(a: string, b: string) {
    a == [] || (b != [] && (a[0] < b[0] || (a[0] == b[0] && Le(a[1..], b[1..]))))
  }

  lemma {:induction false} LeTotal(a: string, b: string)
    ensures Le(a, b) || Le(b, a)
  {
    if a != [] && b != [] { LeTotal(a[1..], b[1..]); }
  }

  lemma {:induction false} LeAntisymmetric(a: string, b: string)
    requires Le(a, b) && Le(b, a)
    ensures a == b
  {
    if a != [] {
      LeAntisymmetric(a[1..], b[1..]);
      assert a == [a[0]] + a[1..] && b == [b[0]] + b[1..];
    }
  }

  lemma {:induction false} LeTransitive(a: string, b: string, c: string)
    requires Le(a, b) && Le(b, c)
    ensures Le(a, c)
  {
    if a != [] && a[0] == b[0] == c[0] { LeTransitive(a[1..], b[1..], c[1..]); }
  }

  function Insert<T>(e: Entry<T>, es: seq<Entry<T>>): seq<Entry<T>> {
    if es == [] then [e]
    else if Le(e.key, es[0].key) then [e] + es
    else [es[0]] + Insert(e, es[1..])
  }

  function SortByKey<T>(es: seq<Entry<T>>): seq<Entry<T>> {
    if es == [] then [] else Insert(es[0], SortByKey(es[1..]))
  }

  ghost predicate Sorted<T>(es: seq<Entry<T>>) {
    forall i, j | 0 <= i < j < |es| :: Le(es[i].key, es[j].key)
  }

  // ----- printing -----

  function HexChar(n: nat): char
    requires n < 16
  {
    "0123456789abcdef"[n]
  }

  function Escape(c: char): string {
    if c == '"' then "\\\""
    else if c == '\\' then "\\\\"
    else if c as int < 0x20 then "\\u00" + [HexChar(c as int / 16), HexChar(c as int % 16)]
    else [c]
  }

  function EscapeAll(s: string): string {
    if s == [] then [] else Escape(s[0]) + EscapeAll(s[1..])
  }

  function Quote(s: string): string {
    "\"" + EscapeAll(s) + "\""
  }

  function Join(parts: seq<string>): string {
    if parts == [] then "" else if |parts| == 1 then parts[0] else parts[0] + "," + Join(parts[1..])
  }

  function Pairs(es: seq<Entry<string>>): seq<string> {
    if es == [] then [] else [Quote(es[0].key) + ":" + es[0].value] + Pairs(es[1..])
  }

  /** Keys are sorted as the text is written, values rendered recursively. */
  function Canonical(v: Json): string
    decreases v, 1
  {
    match v
    case Null => "null"
    case Bool(b) => if b then "true" else "false"
    case Number(t) => t
    case String(s) => Quote(s)
    case Array(items) => "[" + Join(CanonicalAll(items)) + "]"
    case Object(es) => "{" + Join(Pairs(SortByKey(CanonicalEntries(es)))) + "}"
  }

  function CanonicalAll(items: seq<Json>): seq<string>
    decreases items, 0
  {
    if items == [] then [] else [Canonical(items[0])] + CanonicalAll(items[1..])
  }

  function CanonicalEntries(es: seq<Entry<Json>>): (r: seq<Entry<string>>)
    ensures |r| == |es|
    decreases es, 0
  {
    if es == [] then [] else [Entry(es[0].key, Canonical(es[0].value))] + CanonicalEntries(es[1..])
  }

  // ----- parsing what the printer writes -----

  predicate NumberChar(c: char) {
    '0' <= c <= '9' || c == '-' || c == '+' || c == '.' || c == 'e' || c == 'E'
  }

  predicate ValidToken(t: string) {
    t != [] && ('0' <= t[0] <= '9' || t[0] == '-') && forall i | 0 <= i < |t| :: NumberChar(t[i])
  }

  /** serde_json never builds an object with a repeated key. */
  predicate WellFormed(v: Json)
    decreases v, 1
  {
    match v
    case Number(t) => ValidToken(t)
    case Array(items) => AllWellFormed(items)
    case Object(es) => EntriesWellFormed(es) && forall i, j | 0 <= i < j < |es| :: es[i].key != es[j].key
    case _ => true
  }

  predicate AllWellFormed(items: seq<Json>)
    decreases items, 0
  {
    items == [] || (WellFormed(items[0]) && AllWellFormed(items[1..]))
  }

  predicate EntriesWellFormed(es: seq<Entry<Json>>)
    decreases es, 0
  {
    es == [] || (WellFormed(es[0].value) && EntriesWellFormed(es[1..]))
  }

  function HexValue(c: char): Option<nat> {
    if '0' <= c <= '9' then Some(c as int - '0' as int)
    else if 'a' <= c <= 'f' then Some(c as int - 'a' as int + 10)
    else if 'A' <= c <= 'F' then Some(c as int - 'A' as int + 10)
    else None
  }

  function Hex4(s: string): Option<nat>
    requires |s| == 4
  {
    var a, b, c, d := HexValue(s[0]), HexValue(s[1]), HexValue(s[2]), HexValue(s[3]);
    if a.Some? && b.Some? && c.Some? && d.Some? then
      Some(((a.value * 16 + b.value) * 16 + c.value) * 16 + d.value)
    else None
  }

  /** One string character (possibly escaped) and what is left. */
  function ParseChar(s: string): (r: Option<(char, string)>)
    ensures r.Some? ==> |r.value.1| < |s|
  {
    if s == [] || s[0] as int < 0x20 || s[0] == '"' then None
    else if s[0] != '\\' then Some((s[0], s[1..]))
    else if |s| == 1 then None
    else match s[1]
      case '"' => Some(('"', s[2..]))
      case '\\' => Some(('\\', s[2..]))
      case '/' => Some(('/', s[2..]))
      case 'b' => Some((8 as char, s[2..]))
      case 'f' => Some((12 as char, s[2..]))
      case 'n' => Some(('\n', s[2..]))
      case 'r' => Some(('\r', s[2..]))
      case 't' => Some(('\t', s[2..]))
      case 'u' =>
        if |s| < 6 then None else
        var code := Hex4(s[2..6]);
        if code.Some? && (code.value < 0xD800 || 0xE000 <= code.value <= 0xFFFF)
        then Some((code.value as char, s[6..])) else None
      case _ => None
  }

  /** The rest of a string, up to and past its closing quote. */
  function ParseChars(s: string): (r: Option<(string, string)>)
    ensures r.Some? ==> |r.value.1| < |s|
    decreases |s|
  {
    if s == [] then None
    else if s[0] == '"' then Some(([], s[1..]))
    else
      var first := ParseChar(s);
      if first.None? then None else
      var rest := ParseChars(first.value.1);
      if rest.None? then None else Some(([first.value.0] + rest.value.0, rest.value.1))
  }

  function NumberEnd(s: string): (n: nat)
    ensures n <= |s|
  {
    if s == [] || !NumberChar(s[0]) then 0 else 1 + NumberEnd(s[1..])
  }

  function ParseValue(s: string): (r: Option<(Json, string)>)
    ensures r.Some? ==> |r.value.1| < |s|
    decreases |s|, 2
  {
    if s == [] then None
    else if s[0] == 'n' then if "null" <= s then Some((Null, s[4..])) else None
    else if s[0] == 't' then if "true" <= s then Some((Bool(true), s[4..])) else None
    else if s[0] == 'f' then if "false" <= s then Some((Bool(false), s[5..])) else None
    else if s[0] == '"' then
      var r := ParseChars(s[1..]);
      if r.None? then None else Some((String(r.value.0), r.value.1))
    else if s[0] == '[' then
      if |s| > 1 && s[1] == ']' then Some((Array([]), s[2..])) else
      var r := ParseItems(s[1..]);
      if r.None? then None else Some((Array(r.value.0), r.value.1))
    else if s[0] == '{' then
      if |s| > 1 && s[1] == '}' then Some((Object([]), s[2..])) else
      var r := ParseEntries(s[1..]);
      if r.None? then None else Some((Object(r.value.0), r.value.1))
    else if '0' <= s[0] <= '9' || s[0] == '-' then
      var n := NumberEnd(s);
      Some((Number(s[..n]), s[n..]))
    else None
  }

  function ParseItems(s: string): (r: Option<(seq<Json>, string)>)
    ensures r.Some? ==> |r.value.1| < |s|
    decreases |s|, 3
  {
    var first := ParseValue(s);
    if first.None? then None else
    var (v, rest) := first.value;
    if rest == [] then None
    else if rest[0] == ']' then Some(([v], rest[1..]))
    else if rest[0] != ',' then None
    else
      var more := ParseItems(rest[1..]);
      if more.None? then None else Some(([v] + more.value.0, more.value.1))
  }

  function ParseEntries(s: string): (r: Option<(seq<Entry<Json>>, string)>)
    ensures r.Some? ==> |r.value.1| < |s|
    decreases |s|, 3
  {
    if s == [] || s[0] != '"' then None else
    var key := ParseChars(s[1..]);
    if key.None? || key.value.1 == [] || key.value.1[0] != ':' then None else
    var first := ParseValue(key.value.1[1..]);
    if first.None? then None else
    var (v, rest) := first.value;
    if rest == [] then None
    else if rest[0] == '}' then Some(([Entry(key.value.0, v)], rest[1..]))
    else if rest[0] != ',' then None
    else
      var more := ParseEntries(rest[1..]);
      if more.None? then None else Some(([Entry(key.value.0, v)] + more.value.0, more.value.1))
  }

  /** A whole document. */
  function Parse(s: string): Option<Json> {
    var r := ParseValue(s);
    if r.Some? && r.value.1 == [] then Some(r.value.0) else None
  }

  // ----- the same value with every object's keys sorted -----

  function Norm(v: Json): Json
    decreases v, 1
  {
    match v
    case Array(items) => Array(NormAll(items))
    case Object(es) => Object(SortByKey(NormEntries(es)))
    case _ => v
  }

  function NormAll(items: seq<Json>): (r: seq<Json>)
    ensures |r| == |items|
    decreases items, 0
  {
    if items == [] then [] else [Norm(items[0])] + NormAll(items[1..])
  }

  function NormEntries(es: seq<Entry<Json>>): (r: seq<Entry<Json>>)
    ensures |r| == |es| && forall i | 0 <= i < |es| :: r[i].key == es[i].key
    decreases es, 0
  {
    if es == [] then [] else [Entry(es[0].key, Norm(es[0].value))] + NormEntries(es[1..])
  }
}
