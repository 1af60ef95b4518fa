/** What the canonical text is, character by character: the compact JSON text (RFC 8259) of the value
    with every object's members in ascending order of their keys. */
module CanonicalText {
  import opened CanonicalJson
  import opened CanonicalJsonProofs

  /** One key comes before another: at the first difference its character is the smaller, or it ends. */
  predicate Before(a: string, b: string) {
    exists k | 0 <= k <= |a| && k <= |b| :: Differs(a, b, k)
  }

  predicate Differs(a: string, b: string, k: nat)
    requires k <= |a| && k <= |b|
  {
    a[..k] == b[..k] && k < |b| && (k == |a| || (k < |a| && a[k] < b[k]))
  }

  /** How a character is written inside quotes. */
  function Spell(c: char): string {
    if c == '"' then ['\\', '"']
    else if c == '\\' then ['\\', '\\']
    else if c as int < 16 then "\\u000" + [LowHex(c as int)]
    else if c as int < 32 then "\\u001" + [LowHex(c as int - 16)]
    else [c]
  }

  function LowHex(n: nat): char
    requires n < 16
  {
    if n < 10 then (48 + n) as char else (87 + n) as char
  }

  function SpellAll(s: string): string {
    if s == "" then "" else SpellAll(s[..|s| - 1]) + Spell(s[|s| - 1])
  }

  function InQuotes(s: string): string {
    ['"'] + SpellAll(s) + ['"']
  }

  function Commas(parts: seq<string>): string {
    if parts == [] then ""
    else if |parts| == 1 then parts[0]
    else Commas(parts[..|parts| - 1]) + "," + parts[|parts| - 1]
  }

  function MemberTexts(ms: seq<Entry<string>>): (r: seq<string>)
    ensures |r| == |ms|
  {
    seq(|ms|, i requires 0 <= i < |ms| => InQuotes(ms[i].key) + ":" + ms[i].value)
  }

  /** The text of a value. */
  ghost predicate IsText(v: Json, s: string)
    decreases v
  {
    match v
    case Null => s == "null"
    case Bool(b) => s == if b then "true" else "false"
    case Number(token) => s == token
    case String(text) => s == InQuotes(text)
    case Array(items) => exists parts: seq<string> :: ItemsText(v, parts) && s == "[" + Commas(parts) + "]"
    case Object(es) =>
      exists ms: seq<Entry<string>> :: MembersText(v, ms) && s == "{" + Commas(MemberTexts(ms)) + "}"
  }

  ghost predicate ItemsText(v: Json, parts: seq<string>)
    requires v.Array?
    decreases v, 0
  {
    |parts| == |v.items| && forall i | 0 <= i < |parts| :: IsText(v.items[i], parts[i])
  }

  /** Every member once, in ascending order of keys. */
  ghost predicate MembersText(v: Json, ms: seq<Entry<string>>)
    requires v.Object?
    decreases v, 1
  {
    && |ms| == |v.entries|
    && (forall i, j | 0 <= i < j < |ms| :: Before(ms[i].key, ms[j].key))
    && forall i | 0 <= i < |ms| :: MemberText(v, ms[i])
  }

  ghost predicate MemberText(v: Json, m: Entry<string>)
    requires v.Object?
    decreases v, 0
  {
    exists j | 0 <= j < |v.entries| :: v.entries[j].key == m.key && IsText(v.entries[j].value, m.value)
  }

  // ----- the canonical text is the text -----

  lemma SpellIs(c: char)
    ensures Escape(c) == Spell(c)
  {
  }

  lemma {:induction false} EscapeAppend(s: string, c: char)
    ensures EscapeAll(s + [c]) == EscapeAll(s) + Escape(c)
  {
    hide Escape;
    if s == "" {
      assert s + [c] == [c] && [c][1..] == "";
    } else {
      assert (s + [c])[1..] == s[1..] + [c];
      EscapeAppend(s[1..], c);
    }
  }

  lemma {:induction false} QuoteIs(s: string)
    ensures EscapeAll(s) == SpellAll(s)
    ensures Quote(s) == InQuotes(s)
  {
    hide Escape, Spell;
    if s != "" {
      QuoteIs(s[..|s| - 1]);
      EscapeAppend(s[..|s| - 1], s[|s| - 1]);
      SpellIs(s[|s| - 1]);
      assert s == s[..|s| - 1] + [s[|s| - 1]];
    }
  }

  lemma {:induction false} JoinAppend(parts: seq<string>, last: string)
    requires parts != []
    ensures Join(parts + [last]) == Join(parts) + "," + last
  {
    if |parts| == 1 {
      assert (parts + [last])[1..] == [last];
    } else {
      assert (parts + [last])[1..] == parts[1..] + [last];
      JoinAppend(parts[1..], last);
      assert parts[0] + "," + (Join(parts[1..]) + "," + last) == parts[0] + "," + Join(parts[1..]) + "," + last;
    }
  }

  lemma {:induction false} JoinIs(parts: seq<string>)
    ensures Join(parts) == Commas(parts)
  {
    if |parts| > 1 {
      var init, last := parts[..|parts| - 1], parts[|parts| - 1];
      JoinIs(init);
      JoinAppend(init, last);
      assert parts == init + [last];
    }
  }

  lemma {:induction false} PairsAre(ms: seq<Entry<string>>)
    ensures Pairs(ms) == MemberTexts(ms)
  {
    hide Quote, InQuotes;
    if ms != [] {
      PairsAre(ms[1..]);
      QuoteIs(ms[0].key);
      assert MemberTexts(ms) == [InQuotes(ms[0].key) + ":" + ms[0].value] + MemberTexts(ms[1..]);
    }
  }

  lemma {:induction false} LeIs(a: string, b: string)
    requires Le(a, b) && a != b
    ensures Before(a, b)
  {
    if a == [] || a[0] < b[0] {
      assert Differs(a, b, 0);
    } else {
      assert a == [a[0]] + a[1..] && b == [b[0]] + b[1..];
      LeIs(a[1..], b[1..]);
      var k: nat :| k <= |a[1..]| && k <= |b[1..]| && Differs(a[1..], b[1..], k);
      assert a[..k + 1] == [a[0]] + a[1..][..k] && b[..k + 1] == [b[0]] + b[1..][..k];
      assert Differs(a, b, k + 1);
    }
  }

  lemma {:induction false} AllAt(items: seq<Json>, i: nat)
    requires i < |items|
    ensures |CanonicalAll(items)| == |items| && CanonicalAll(items)[i] == Canonical(items[i])
  {
    hide Canonical;
    if i > 0 { AllAt(items[1..], i - 1); } else { AllLength(items); }
  }

  lemma {:induction false} AllLength(items: seq<Json>)
    ensures |CanonicalAll(items)| == |items|
  {
    hide Canonical;
    if items != [] { AllLength(items[1..]); }
  }

  lemma {:induction false} EntriesAt(es: seq<Entry<Json>>, i: nat)
    requires i < |es|
    ensures CanonicalEntries(es)[i] == Entry(es[i].key, Canonical(es[i].value))
  {
    hide Canonical;
    if i > 0 { EntriesAt(es[1..], i - 1); }
  }

  /** The canonical text of a value is its compact text with the members of every object in ascending
      order of their keys, by code point; control characters are written with lower-case digits. */
  lemma {:induction false} CanonicalIsText(v: Json)
    requires WellFormed(v)
    ensures IsText(v, Canonical(v))
  {
    hide Quote, InQuotes, Join, Commas, Pairs, SortByKey;
    match v {
      case String(text) => QuoteIs(text);
      case Array(items) =>
        var parts := CanonicalAll(items);
        AllLength(items);
        forall i | 0 <= i < |items| ensures IsText(items[i], parts[i]) {
          AllAt(items, i);
          WellFormedItem(items, i);
          CanonicalIsText(items[i]);
        }
        JoinIs(parts);
        assert ItemsText(v, parts);
      case Object(es) => ObjectIsText(v);
      case _ =>
    }
  }

  lemma {:induction false} WellFormedItem(items: seq<Json>, i: nat)
    requires AllWellFormed(items) && i < |items|
    ensures WellFormed(items[i])
  {
    if i > 0 { WellFormedItem(items[1..], i - 1); }
  }

  lemma {:induction false} WellFormedEntry(es: seq<Entry<Json>>, i: nat)
    requires EntriesWellFormed(es) && i < |es|
    ensures WellFormed(es[i].value)
  {
    if i > 0 { WellFormedEntry(es[1..], i - 1); }
  }

  lemma SortedMember(es: seq<Entry<string>>, i: nat)
    requires i < |SortByKey(es)|
    ensures SortByKey(es)[i] in es
  {
    hide SortByKey;
    SortFacts(es);
    assert SortByKey(es)[i] in multiset(SortByKey(es));
  }

  lemma {:induction false} ObjectIsText(v: Json)
    requires WellFormed(v) && v.Object?
    ensures IsText(v, Canonical(v))
    decreases v, 0
  {
    hide Quote, InQuotes, Join, Commas, Pairs, SortByKey, Before, Le;
    var es := v.entries;
    var texts := CanonicalEntries(es);
    var ms := SortByKey(texts);
    forall i | 0 <= i < |es|
      ensures texts[i].key == es[i].key && IsText(es[i].value, texts[i].value)
    {
      EntriesAt(es, i);
      WellFormedEntry(es, i);
      CanonicalIsText(es[i].value);
    }
    SortDistinct(texts);
    SortFacts(texts);
    SortLength(texts);
    forall i, j | 0 <= i < j < |ms| ensures Before(ms[i].key, ms[j].key) { LeIs(ms[i].key, ms[j].key); }
    forall i | 0 <= i < |ms| ensures MemberText(v, ms[i]) {
      SortedMember(texts, i);
      var j :| 0 <= j < |texts| && texts[j] == ms[i];
      assert es[j].key == ms[i].key && IsText(es[j].value, ms[i].value);
    }
    assert MembersText(v, ms);
    PairsAre(ms);
    JoinIs(Pairs(ms));
  }

  // ----- and there is only one -----

  lemma {:induction false} BeforeIs(a: string, b: string)
    requires Before(a, b)
    ensures Le(a, b) && a != b
  {
    var k: nat :| k <= |a| && k <= |b| && Differs(a, b, k);
    if k < |a| { assert a[k] != b[k]; }
    if k > 0 {
      assert a[0] == a[..k][0] && b[0] == b[..k][0];
      assert a[1..][..k - 1] == a[..k][1..] && b[1..][..k - 1] == b[..k][1..];
      assert Differs(a[1..], b[1..], k - 1);
      BeforeIs(a[1..], b[1..]);
    }
  }

  function Keys<T>(es: seq<Entry<T>>): (r: seq<Entry<bool>>)
    ensures |r| == |es|
  {
    seq(|es|, i requires 0 <= i < |es| => Entry(es[i].key, true))
  }

  function KeySet<T>(es: seq<Entry<T>>): set<string> {
    set i | 0 <= i < |es| :: es[i].key
  }

  lemma {:induction false} DistinctCount<T>(es: seq<Entry<T>>)
    requires DistinctKeys(es)
    ensures |KeySet(es)| == |es|
  {
    if es == [] {
      assert KeySet(es) == {};
    } else {
      var init, last := es[..|es| - 1], es[|es| - 1];
      DistinctCount(init);
      assert KeySet(es) == KeySet(init) + {last.key};
      assert last.key !in KeySet(init);
    }
  }

  lemma SameSet(a: set<string>, b: set<string>)
    requires a <= b && |a| == |b|
    ensures a == b
  {
    if a != b {
      var x :| x in b && x !in a;
      assert a <= b - {x};
      Smaller(a, b - {x});
    }
  }

  lemma {:induction false} Smaller(a: set<string>, b: set<string>)
    requires a <= b
    ensures |a| <= |b|
  {
    if x :| x in a { Smaller(a - {x}, b - {x}); }
  }

  /** The members of a text are in the one order there is. */
  lemma MembersOrdered(v: Json, ms: seq<Entry<string>>)
    requires WellFormed(v) && v.Object? && MembersText(v, ms)
    ensures Sorted(Keys(ms)) && DistinctKeys(Keys(ms)) && KeySet(ms) == KeySet(v.entries)
  {
    hide Before, IsText, Le;
    forall i, j | 0 <= i < j < |ms| ensures Le(ms[i].key, ms[j].key) && ms[i].key != ms[j].key {
      BeforeIs(ms[i].key, ms[j].key);
    }
    DistinctCount(ms);
    DistinctCount(v.entries);
    forall i | 0 <= i < |ms| ensures ms[i].key in KeySet(v.entries) { assert MemberText(v, ms[i]); }
    SameSet(KeySet(ms), KeySet(v.entries));
  }

  lemma {:induction false} TextUnique(v: Json, s: string, t: string)
    requires WellFormed(v) && IsText(v, s) && IsText(v, t)
    ensures s == t
    decreases v, 1
  {
    hide InQuotes, Commas, Before, Le;
    match v {
      case Array(items) =>
        var ps: seq<string> :| ItemsText(v, ps) && s == "[" + Commas(ps) + "]";
        var qs: seq<string> :| ItemsText(v, qs) && t == "[" + Commas(qs) + "]";
        forall i | 0 <= i < |ps| ensures ps[i] == qs[i] {
          WellFormedItem(items, i);
          TextUnique(items[i], ps[i], qs[i]);
        }
        assert ps == qs;
      case Object(es) => ObjectUnique(v, s, t);
      case _ =>
    }
  }

  lemma {:induction false} ObjectUnique(v: Json, s: string, t: string)
    requires WellFormed(v) && v.Object? && IsText(v, s) && IsText(v, t)
    ensures s == t
    decreases v, 0
  {
    hide InQuotes, Commas, Before, Le, MembersText, MemberText, KeySet, Sorted;
    var ms: seq<Entry<string>> :| MembersText(v, ms) && s == "{" + Commas(MemberTexts(ms)) + "}";
    var ns: seq<Entry<string>> :| MembersText(v, ns) && t == "{" + Commas(MemberTexts(ns)) + "}";
    MembersOrdered(v, ms);
    MembersOrdered(v, ns);
    forall e ensures e in Keys(ms) <==> e in Keys(ns) {
      KeyMember(ms, e);
      KeyMember(ns, e);
    }
    SortedUnique(Keys(ms), Keys(ns));
    forall i | 0 <= i < |ms| ensures ms[i] == ns[i] {
      assert Keys(ms)[i] == Keys(ns)[i];
      var j := MemberOf(v, ms, i);
      var k := MemberOf(v, ns, i);
      assert j == k;
      WellFormedEntry(v.entries, j);
      TextUnique(v.entries[j].value, ms[i].value, ns[i].value);
    }
    assert ms == ns;
  }

  lemma KeyMember<T>(es: seq<Entry<T>>, e: Entry<bool>)
    ensures e in Keys(es) <==> e.value && e.key in KeySet(es)
  {
    if e in Keys(es) { var i :| 0 <= i < |es| && Keys(es)[i] == e; }
    if e.value && e.key in KeySet(es) {
      var i :| 0 <= i < |es| && es[i].key == e.key;
      assert Keys(es)[i] == e;
    }
  }

  lemma MemberOf(v: Json, ms: seq<Entry<string>>, i: nat) returns (j: nat)
    requires v.Object? && MembersText(v, ms) && i < |ms|
    ensures j < |v.entries| && v.entries[j].key == ms[i].key && IsText(v.entries[j].value, ms[i].value)
  {
    hide Before, IsText;
    assert MemberText(v, ms[i]);
    j :| j < |v.entries| && v.entries[j].key == ms[i].key && IsText(v.entries[j].value, ms[i].value);
  }

  /** A text is the compact ordered text of a value if and only if it is its canonical text. */
  lemma CanonicalIff(v: Json, s: string)
    requires WellFormed(v)
    ensures IsText(v, s) <==> s == Canonical(v)
  {
    hide IsText, Canonical;
    CanonicalIsText(v);
    if IsText(v, s) { TextUnique(v, s, Canonical(v)); }
  }
}
