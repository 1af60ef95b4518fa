/** Text helpers shared by the components: decimal numbers, trimming, byte lengths. */
module Text {
  import opened Wrappers

  function Digit(n: nat): char
    requires n < 10
  {
    "0123456789"[n]
  }

  /** Decimal digits, no leading zero. */
  function Decimal(n: nat): (s: string)
    ensures s != [] && forall i | 0 <= i < |s| :: '0' <= s[i] <= '9'
  {
    if n < 10 then [Digit(n)] else Decimal(n / 10) + [Digit(n % 10)]
  }

  /** Unicode White_Space, as Rust's `trim` and `char::is_whitespace` use it. */
  predicate Whitespace(c: char) {
    var n := c as int;
    9 <= n <= 13 || n == 32 || n == 0x85 || n == 0xA0 || n == 0x1680 || 0x2000 <= n <= 0x200A
    || n == 0x2028 || n == 0x2029 || n == 0x202F || n == 0x205F || n == 0x3000
  }

  function TrimLeft(s: string): string {
    if s != [] && Whitespace(s[0]) then TrimLeft(s[1..]) else s
  }

  function TrimRight(s: string): string {
    if s != [] && Whitespace(s[|s| - 1]) then TrimRight(s[..|s| - 1]) else s
  }

  function Trim(s: string): string {
    TrimRight(TrimLeft(s))
  }

  function Truncate(s: string, max: nat): string {
    if |s| <= max then s else s[..max]
  }

  function Utf8Len(s: string): nat {
    if s == [] then 0 else
      (if s[0] as int < 0x80 then 1 else if s[0] as int < 0x800 then 2
       else if s[0] as int < 0x10000 then 3 else 4) + Utf8Len(s[1..])
  }

  // ----- searching and splitting -----

  function IndexOf(s: string, c: char): (i: int)
    ensures -1 <= i < |s|
    ensures i >= 0 ==> s[i] == c && c !in s[..i]
    ensures i < 0 ==> c !in s
  {
    if s == [] then -1
    else if s[0] == c then 0
    else var k := IndexOf(s[1..], c); if k < 0 then -1 else k + 1
  }

  lemma {:induction false} IndexUnique(s: string, c: char, i: nat)
    requires i < |s| && s[i] == c && c !in s[..i]
    ensures IndexOf(s, c) == i
  {
    if i > 0 {
      assert s[..i][0] != c;
      assert s[1..][..i - 1] == s[..i][1..];
      IndexUnique(s[1..], c, i - 1);
    }
  }

  /** Every piece between separators, empty ones included. */
  function Split(s: string, c: char): seq<string>
    decreases |s|
  {
    var i := IndexOf(s, c);
    if i < 0 then [s] else [s[..i]] + Split(s[i + 1..], c)
  }

  lemma SplitHead(a: string, c: char, rest: string)
    requires c !in a
    ensures IndexOf(a + [c] + rest, c) == |a|
    ensures (a + [c] + rest)[..|a|] == a && (a + [c] + rest)[|a| + 1..] == rest
    ensures Split(a + [c] + rest, c) == [a] + Split(rest, c)
  {
    var s := a + [c] + rest;
    assert s[..|a|] == a && s[|a| + 1..] == rest;
    IndexUnique(s, c, |a|);
  }

  // ----- integers -----

  const I64_MAX: nat := 0x7FFF_FFFF_FFFF_FFFF

  function DigitValue(c: char): Option<nat> {
    if '0' <= c <= '9' then Some(c as nat - '0' as nat) else None
  }

  function ParseDigits(s: string): Option<nat> {
    if s == [] then Some(0) else
      var init, d := ParseDigits(s[..|s| - 1]), DigitValue(s[|s| - 1]);
      if init.Some? && d.Some? then Some(10 * init.value + d.value) else None
  }

  /** Rust's `str::parse::<i64>`: an optional sign, then at least one digit, within range. */
  function ParseI64(s: string): Option<int> {
    var signed := s != [] && (s[0] == '+' || s[0] == '-');
    var digits := if signed then s[1..] else s;
    var n := if digits == "" then None else ParseDigits(digits);
    if n.None? then None
    else if signed && s[0] == '-' then (if n.value <= I64_MAX + 1 then Some(-n.value) else None)
    else if n.value <= I64_MAX then Some(n.value) else None
  }

  lemma {:induction false} ParseDecimal(n: nat)
    ensures ParseDigits(Decimal(n)) == Some(n)
  {
    var s := Decimal(n);
    if n >= 10 {
      ParseDecimal(n / 10);
      assert s[..|s| - 1] == Decimal(n / 10);
    } else {
      assert s[..|s| - 1] == "";
    }
  }

  lemma ParsePlain(s: string)
    requires s != [] && '0' <= s[0] <= '9' && ParseDigits(s).Some? && ParseDigits(s).value <= I64_MAX
    ensures ParseI64(s) == Some(ParseDigits(s).value)
  {
    hide ParseDigits;
  }

  /** Rust's zero-padded `{:0w}` of a number that is not negative. */
  function Padded(n: nat, w: nat): string
    decreases w
  {
    if |Decimal(n)| >= w || w == 0 then Decimal(n) else Zeros(w - |Decimal(n)|) + Decimal(n)
  }

  function Zeros(k: nat): string {
    if k == 0 then "" else Zeros(k - 1) + "0"
  }

  lemma {:induction false} ParseConcat(a: string, b: string)
    requires ParseDigits(a) == Some(0)
    ensures ParseDigits(a + b) == ParseDigits(b)
    decreases |b|
  {
    if b == "" { assert a + b == a; } else {
      assert (a + b)[..|a + b| - 1] == a + b[..|b| - 1];
      ParseConcat(a, b[..|b| - 1]);
    }
  }

  lemma {:induction false} ZerosFacts(k: nat)
    ensures |Zeros(k)| == k && ParseDigits(Zeros(k)) == Some(0) && forall i | 0 <= i < k :: Zeros(k)[i] == '0'
  {
    if k > 0 {
      ZerosFacts(k - 1);
      assert Zeros(k)[..k - 1] == Zeros(k - 1);
    }
  }

  lemma PaddedFacts(n: nat, w: nat)
    ensures ParseDigits(Padded(n, w)) == Some(n) && Padded(n, w) != []
    ensures forall i | 0 <= i < |Padded(n, w)| :: '0' <= Padded(n, w)[i] <= '9'
    ensures |Padded(n, w)| == if |Decimal(n)| >= w then |Decimal(n)| else w
  {
    hide Decimal, ParseDigits;
    ParseDecimal(n);
    if |Decimal(n)| < w {
      ZerosFacts(w - |Decimal(n)|);
      ParseConcat(Zeros(w - |Decimal(n)|), Decimal(n));
    }
  }
}
