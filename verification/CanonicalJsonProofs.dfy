/** Round trip and unambiguity of the canonical form. */
module CanonicalJsonProofs {
  import opened Wrappers
  import opened CanonicalJson

  // ----- strings and numbers -----

  lemma HexRoundTrip(n: nat)
    requires n < 16
    ensures HexValue(HexChar(n)) == Some(n)
  {
  }

  lemma CharParses(c: char, rest: string)
    ensures ParseChar(Escape(c) + rest) == Some((c, rest))
    ensures Escape(c) != [] && Escape(c)[0] != '"'
  {
    var s := Escape(c) + rest;
    if c == '"' || c == '\\' {
      assert s[2..] == rest;
    } else if c as int < 0x20 {
      HexRoundTrip(c as int / 16);
      HexRoundTrip(c as int % 16);
      assert s[2..6] == ['0', '0', HexChar(c as int / 16), HexChar(c as int % 16)];
      assert s[6..] == rest;
    } else {
      assert s[1..] == rest;
    }
  }

  lemma {:induction false} CharsParse(s: string, rest: string)
    ensures ParseChars(EscapeAll(s) + "\"" + rest) == Some((s, rest))
  {
    var text := EscapeAll(s) + "\"" + rest;
    if s == [] {
      assert text == "\"" + rest && text[1..] == rest;
    } else {
      var tail := EscapeAll(s[1..]) + "\"" + rest;
      assert text == Escape(s[0]) + tail;
      CharParses(s[0], tail);
      CharsParse(s[1..], rest);
      assert [s[0]] + s[1..] == s;
    }
  }

  predicate Delimited(rest: string) {
    rest == [] || !NumberChar(rest[0])
  }

  lemma {:induction false} TokenEnds(t: string, rest: string)
    requires Delimited(rest) && forall i | 0 <= i < |t| :: NumberChar(t[i])
    ensures NumberEnd(t + rest) == |t|
  {
    if t == [] {
      assert t + rest == rest;
    } else {
      assert (t + rest)[1..] == t[1..] + rest;
      TokenEnds(t[1..], rest);
    }
  }

  // ----- values -----

  /** Whatever delimiter follows, the text is read back as the value. */
  ghost predicate Renders(text: string, v: Json) {
    forall rest | Delimited(rest) :: ParseValue(text + rest) == Some((v, rest))
  }

  lemma RendersFirst(text: string, v: Json)
    requires Renders(text, v)
    ensures text != [] && text[0] != ']' && text[0] != '}'
  {
    assert text + [] == text;
    assert ParseValue(text + []) == Some((v, []));
  }

  lemma TextParses(text: string, v: Json, more: string)
    requires Renders(text, v) && Delimited(more)
    ensures ParseValue(text + more) == Some((v, more))
  {
  }

  lemma {:induction false} ItemsParse(texts: seq<string>, vs: seq<Json>, rest: string)
    requires |texts| == |vs| > 0 && forall i | 0 <= i < |vs| :: Renders(texts[i], vs[i])
    ensures ParseItems(Join(texts) + "]" + rest) == Some((vs, rest))
    decreases |vs|
  {
    hide ParseValue, Renders;
    var s := Join(texts) + "]" + rest;
    if |vs| == 1 {
      TextParses(texts[0], vs[0], "]" + rest);
      assert s == texts[0] + ("]" + rest);
      assert ("]" + rest)[1..] == rest && vs == [vs[0]];
    } else {
      var tail := Join(texts[1..]) + "]" + rest;
      TextParses(texts[0], vs[0], "," + tail);
      assert s == texts[0] + ("," + tail);
      assert ("," + tail)[1..] == tail;
      ItemsParse(texts[1..], vs[1..], rest);
      assert [vs[0]] + vs[1..] == vs;
    }
  }

  /** Rendered members match members: same keys in the same order, values that read back. */
  ghost predicate RendersEntries(rs: seq<Entry<string>>, es: seq<Entry<Json>>) {
    |rs| == |es| && forall i | 0 <= i < |es| :: rs[i].key == es[i].key && Renders(rs[i].value, es[i].value)
  }

  lemma EntryParses(r: Entry<string>, e: Entry<Json>, more: string)
    requires Renders(r.value, e.value) && Delimited(more) && r.key == e.key
    ensures var s := Quote(r.key) + ":" + r.value + more;
            && s[0] == '"' && ParseChars(s[1..]) == Some((e.key, ":" + (r.value + more)))
            && ParseValue((":" + (r.value + more))[1..]) == Some((e.value, more))
  {
    hide ParseChars, ParseValue, Renders, EscapeAll;
    var value := r.value + more;
    CharsParse(r.key, ":" + value);
    TextParses(r.value, e.value, more);
    assert (Quote(r.key) + ":" + r.value + more)[1..] == EscapeAll(r.key) + "\"" + (":" + value);
    assert (":" + value)[1..] == value;
  }

  lemma {:induction false} EntriesParse(rs: seq<Entry<string>>, es: seq<Entry<Json>>, rest: string)
    requires RendersEntries(rs, es) && es != []
    ensures ParseEntries(Join(Pairs(rs)) + "}" + rest) == Some((es, rest))
    decreases |es|
  {
    hide ParseChars, ParseValue, Renders, EscapeAll;
    var s := Join(Pairs(rs)) + "}" + rest;
    PairsLength(rs);
    if |es| == 1 {
      EntryParses(rs[0], es[0], "}" + rest);
      assert s == Quote(rs[0].key) + ":" + rs[0].value + ("}" + rest);
      assert ("}" + rest)[1..] == rest && es == [Entry(es[0].key, es[0].value)];
    } else {
      var tail := Join(Pairs(rs[1..])) + "}" + rest;
      EntryParses(rs[0], es[0], "," + tail);
      assert Pairs(rs)[1..] == Pairs(rs[1..]);
      assert s == Quote(rs[0].key) + ":" + rs[0].value + ("," + tail);
      assert ("," + tail)[1..] == tail;
      EntriesParse(rs[1..], es[1..], rest);
      assert [Entry(es[0].key, es[0].value)] + es[1..] == es;
    }
  }

  lemma {:induction false} PairsLength(rs: seq<Entry<string>>)
    ensures |Pairs(rs)| == |rs|
  {
    if rs != [] { PairsLength(rs[1..]); }
  }

  lemma {:induction false} InsertRenders(r: Entry<string>, e: Entry<Json>, rs: seq<Entry<string>>, es: seq<Entry<Json>>)
    requires RendersEntries(rs, es) && r.key == e.key && Renders(r.value, e.value)
    ensures RendersEntries(Insert(r, rs), Insert(e, es))
    decreases |es|
  {
    if es != [] && !Le(e.key, es[0].key) { InsertRenders(r, e, rs[1..], es[1..]); }
  }

  lemma {:induction false} SortRenders(rs: seq<Entry<string>>, es: seq<Entry<Json>>)
    requires RendersEntries(rs, es)
    ensures RendersEntries(SortByKey(rs), SortByKey(es))
    decreases |es|
  {
    if es != [] {
      SortRenders(rs[1..], es[1..]);
      InsertRenders(rs[0], es[0], SortByKey(rs[1..]), SortByKey(es[1..]));
    }
  }

  lemma {:induction false} SortLength<T>(es: seq<Entry<T>>)
    ensures |SortByKey(es)| == |es|
  {
    if es != [] {
      SortLength(es[1..]);
      InsertLength(es[0], SortByKey(es[1..]));
    }
  }

  lemma {:induction false} InsertLength<T>(e: Entry<T>, es: seq<Entry<T>>)
    ensures |Insert(e, es)| == |es| + 1
  {
    if es != [] && !Le(e.key, es[0].key) { InsertLength(e, es[1..]); }
  }

  /** The canonical text of a value reads back as that value with its keys sorted. */
  lemma {:induction false} CanonicalRenders(v: Json)
    requires WellFormed(v)
    ensures Renders(Canonical(v), Norm(v))
    decreases v, 1
  {
    forall rest | Delimited(rest) ensures ParseValue(Canonical(v) + rest) == Some((Norm(v), rest)) {
      ValueParses(v, rest);
    }
  }

  lemma {:induction false} ValueParses(v: Json, rest: string)
    requires WellFormed(v) && Delimited(rest)
    ensures ParseValue(Canonical(v) + rest) == Some((Norm(v), rest))
    decreases v, 0
  {
    match v
    case Null => LiteralParses(v, rest);
    case Bool(_) => LiteralParses(v, rest);
    case Number(t) => NumberParses(t, rest);
    case String(text) => StringParses(text, rest);
    case Array(items) => ArrayParses(items, rest);
    case Object(es) => ObjectParses(es, rest);
  }

  lemma LiteralParses(v: Json, rest: string)
    requires v.Null? || v.Bool?
    ensures ParseValue(Canonical(v) + rest) == Some((Norm(v), rest))
  {
    var s := Canonical(v) + rest;
    if v == Null { assert s[..4] == "null" && s[4..] == rest; }
    if v == Bool(true) { assert s[..4] == "true" && s[4..] == rest; }
    if v == Bool(false) { assert s[..5] == "false" && s[5..] == rest; }
  }

  lemma NumberParses(t: string, rest: string)
    requires WellFormed(Number(t)) && Delimited(rest)
    ensures ParseValue(t + rest) == Some((Number(t), rest))
  {
    TokenEnds(t, rest);
    var s := t + rest;
    assert s[..|t|] == t && s[|t|..] == rest;
  }

  lemma StringParses(text: string, rest: string)
    ensures ParseValue(Quote(text) + rest) == Some((String(text), rest))
  {
    CharsParse(text, rest);
    QuoteTail(text, rest);
  }

  lemma QuoteTail(text: string, rest: string)
    ensures Quote(text) + rest != [] && (Quote(text) + rest)[0] == '"'
    ensures (Quote(text) + rest)[1..] == EscapeAll(text) + "\"" + rest
  {
    hide EscapeAll;
    assert Quote(text) + rest == "\"" + (EscapeAll(text) + "\"" + rest);
  }

  lemma BracketsParse(body: string, vs: seq<Json>, rest: string)
    requires body != [] && body[0] != ']' && ParseItems(body) == Some((vs, rest))
    ensures ParseValue("[" + body) == Some((Array(vs), rest))
  {
    hide ParseItems;
    assert ("[" + body)[1..] == body;
  }

  lemma FirstOfJoin(texts: seq<string>, more: string)
    requires texts != [] && texts[0] != []
    ensures Join(texts) + more != [] && (Join(texts) + more)[0] == texts[0][0]
  {
  }

  lemma {:induction false} ArrayParses(items: seq<Json>, rest: string)
    requires AllWellFormed(items)
    ensures ParseValue(Canonical(Array(items)) + rest) == Some((Norm(Array(items)), rest))
    decreases items, 2
  {
    hide Renders, ParseItems, ParseValue, Join;
    var s := Canonical(Array(items)) + rest;
    var texts := CanonicalAll(items);
    if items == [] {
      EmptyArrayParses(rest);
    } else {
      AllRender(items);
      assert Renders(texts[0], NormAll(items)[0]);
      RendersFirst(texts[0], NormAll(items)[0]);
      ItemsParse(texts, NormAll(items), rest);
      var body := Join(texts) + "]" + rest;
      FirstOfJoin(texts, "]" + rest);
      assert body == Join(texts) + ("]" + rest);
      assert s == "[" + body;
      BracketsParse(body, NormAll(items), rest);
    }
  }

  lemma EmptyArrayParses(rest: string)
    ensures ParseValue(Canonical(Array([])) + rest) == Some((Norm(Array([])), rest))
  {
    var s := Canonical(Array([])) + rest;
    assert s == "[]" + rest && s[2..] == rest;
  }

  lemma BracesParse(body: string, es: seq<Entry<Json>>, rest: string)
    requires body != [] && body[0] != '}' && ParseEntries(body) == Some((es, rest))
    ensures ParseValue("{" + body) == Some((Object(es), rest))
  {
    hide ParseEntries;
    assert ("{" + body)[1..] == body;
  }

  lemma {:induction false} ObjectParses(es: seq<Entry<Json>>, rest: string)
    requires EntriesWellFormed(es)
    ensures ParseValue(Canonical(Object(es)) + rest) == Some((Norm(Object(es)), rest))
    decreases es, 2
  {
    hide Renders, ParseEntries, ParseValue, Pairs, Join;
    var s := Canonical(Object(es)) + rest;
    var rs, ns := SortByKey(CanonicalEntries(es)), SortByKey(NormEntries(es));
    EntriesRender(es);
    SortRenders(CanonicalEntries(es), NormEntries(es));
    SortLength(CanonicalEntries(es));
    if es == [] {
      EmptyObjectParses(rest);
    } else {
      var body := Join(Pairs(rs)) + "}" + rest;
      EntriesParse(rs, ns, rest);
      FirstQuote(rs);
      assert s == "{" + body;
      BracesParse(body, ns, rest);
    }
  }

  lemma EmptyObjectParses(rest: string)
    ensures ParseValue(Canonical(Object([])) + rest) == Some((Object([]), rest))
  {
    var s := Canonical(Object([])) + rest;
    assert s == "{}" + rest && s[2..] == rest;
  }

  lemma FirstQuote(rs: seq<Entry<string>>)
    requires rs != []
    ensures var t := Join(Pairs(rs)); t != [] && t[0] == '"'
  {
    PairsLength(rs);
    assert Pairs(rs)[0][0] == '"';
  }

  lemma {:induction false} AllRender(items: seq<Json>)
    requires AllWellFormed(items)
    ensures |CanonicalAll(items)| == |items|
    ensures forall i | 0 <= i < |items| :: Renders(CanonicalAll(items)[i], NormAll(items)[i])
    decreases items, 1
  {
    if items != [] {
      CanonicalRenders(items[0]);
      AllRender(items[1..]);
    }
  }

  lemma {:induction false} EntriesRender(es: seq<Entry<Json>>)
    requires EntriesWellFormed(es)
    ensures RendersEntries(CanonicalEntries(es), NormEntries(es))
    decreases es, 1
  {
    if es != [] {
      CanonicalRenders(es[0].value);
      EntriesRender(es[1..]);
    }
  }

  /** Parsing a canonical text gives the value back, keys sorted. */
  lemma CanonicalParses(v: Json)
    requires WellFormed(v)
    ensures Parse(Canonical(v)) == Some(Norm(v))
  {
    ValueParses(v, []);
    assert Canonical(v) + [] == Canonical(v);
  }

  // ----- equality up to the order of keys -----

  /** The same JSON value: objects compare as maps. */
  ghost predicate Same(a: Json, b: Json)
    decreases a, 2, 0
  {
    match (a, b)
    case (Array(xs), Array(ys)) => |xs| == |ys| && forall i | 0 <= i < |xs| :: Same(xs[i], ys[i])
    case (Object(es), Object(fs)) =>
      (forall e | e in es :: HasPartner(e, fs)) && (forall f | f in fs :: IsPartner(es, f))
    case _ => a == b
  }

  ghost predicate HasPartner(e: Entry<Json>, fs: seq<Entry<Json>>)
    decreases e, 2, 0
  {
    exists f | f in fs :: SameEntry(e, f)
  }

  ghost predicate IsPartner(es: seq<Entry<Json>>, f: Entry<Json>)
    decreases es, 2, 0
  {
    exists e | e in es :: SameEntry(e, f)
  }

  ghost predicate SameEntry(e: Entry<Json>, f: Entry<Json>)
    decreases e, 1, 0
  {
    e.key == f.key && Same(e.value, f.value)
  }

  predicate DistinctKeys<T>(es: seq<Entry<T>>) {
    forall i, j | 0 <= i < j < |es| :: es[i].key != es[j].key
  }

  lemma {:induction false} InsertMembers<T>(e: Entry<T>, es: seq<Entry<T>>)
    ensures multiset(Insert(e, es)) == multiset(es) + multiset{e}
    ensures forall x | x in Insert(e, es) :: x == e || x in es
  {
    hide Le;
    if es != [] && !Le(e.key, es[0].key) {
      InsertMembers(e, es[1..]);
      assert es == [es[0]] + es[1..];
    }
  }

  lemma {:induction false} InsertFacts<T>(e: Entry<T>, es: seq<Entry<T>>)
    requires Sorted(es)
    ensures Sorted(Insert(e, es)) && multiset(Insert(e, es)) == multiset(es) + multiset{e}
  {
    hide Le;
    InsertMembers(e, es);
    if es == [] {
    } else if Le(e.key, es[0].key) {
      forall i | 0 <= i < |es| ensures Le(e.key, es[i].key) {
        if i > 0 { LeTransitive(e.key, es[0].key, es[i].key); }
      }
    } else {
      LeTotal(e.key, es[0].key);
      InsertFacts(e, es[1..]);
      InsertMembers(e, es[1..]);
      var r := Insert(e, es[1..]);
      forall i | 0 <= i < |r| ensures Le(es[0].key, r[i].key) {
        assert r[i] == e || r[i] in es[1..];
      }
    }
  }

  lemma {:induction false} SortFacts<T>(es: seq<Entry<T>>)
    ensures Sorted(SortByKey(es)) && multiset(SortByKey(es)) == multiset(es)
  {
    if es != [] {
      SortFacts(es[1..]);
      InsertFacts(es[0], SortByKey(es[1..]));
      assert es == [es[0]] + es[1..];
    }
  }

  /** Sorted lists with distinct keys and the same members are equal. */
  lemma {:induction false} SortedUnique<T>(xs: seq<Entry<T>>, ys: seq<Entry<T>>)
    requires Sorted(xs) && Sorted(ys) && DistinctKeys(xs) && DistinctKeys(ys)
    requires forall e :: e in xs <==> e in ys
    ensures xs == ys
  {
    assert ys != [] ==> ys[0] in ys;
    if xs != [] {
      assert xs[0] in xs && xs[0] in ys && ys[0] in ys && ys[0] in xs;
      LeAntisymmetric(xs[0].key, ys[0].key) by {
        LeTotal(xs[0].key, xs[0].key);
        var i :| 0 <= i < |ys| && ys[i] == xs[0];
        var j :| 0 <= j < |xs| && xs[j] == ys[0];
        LeTotal(ys[0].key, ys[0].key);
      }
      var j :| 0 <= j < |xs| && xs[j] == ys[0];
      assert j == 0;
      forall e ensures e in xs[1..] <==> e in ys[1..] {
        TailMembers(xs, e);
        TailMembers(ys, e);
      }
      SortedUnique(xs[1..], ys[1..]);
    }
  }

  lemma TailMembers<T>(xs: seq<Entry<T>>, e: Entry<T>)
    requires xs != [] && DistinctKeys(xs)
    ensures e in xs[1..] <==> e in xs && e != xs[0]
  {
    assert xs == [xs[0]] + xs[1..];
  }

  lemma SortDistinct<T>(es: seq<Entry<T>>)
    requires DistinctKeys(es)
    ensures DistinctKeys(SortByKey(es))
    ensures forall e :: e in SortByKey(es) <==> e in es
  {
    SortFacts(es);
    var s := SortByKey(es);
    forall e ensures e in s <==> e in es {
      assert e in s <==> e in multiset(s);
    }
    forall i, j | 0 <= i < j < |s| ensures s[i].key != s[j].key {
      if s[i].key == s[j].key { DuplicateKey(s, es, i, j); }
    }
  }

  lemma DuplicateKey<T>(s: seq<Entry<T>>, es: seq<Entry<T>>, i: nat, j: nat)
    requires multiset(s) == multiset(es) && i < j < |s| && s[i].key == s[j].key
    ensures !DistinctKeys(es)
  {
    assert s[i] in multiset(es) && s[j] in multiset(es);
    if s[i] == s[j] {
      TwiceIn(s, i, j);
      if DistinctKeys(es) { OnceIn(es, s[i]); }
    }
  }

  lemma TwiceIn<T>(s: seq<Entry<T>>, i: nat, j: nat)
    requires i < j < |s| && s[i] == s[j]
    ensures multiset(s)[s[i]] >= 2
  {
    assert s == s[..j] + s[j..];
    assert s[i] == s[..j][i] && s[j] == s[j..][0];
    assert s[i] in multiset(s[..j]) && s[j] in multiset(s[j..]);
  }

  lemma {:induction false} OnceIn<T>(es: seq<Entry<T>>, e: Entry<T>)
    requires DistinctKeys(es)
    ensures multiset(es)[e] <= 1
  {
    if es != [] {
      assert es == [es[0]] + es[1..];
      OnceIn(es[1..], e);
      if e == es[0] && e in es[1..] { TailMembers(es, e); }
    }
  }

  lemma {:induction false} NormAt(items: seq<Json>, es: seq<Entry<Json>>)
    ensures forall i | 0 <= i < |items| :: NormAll(items)[i] == Norm(items[i])
    ensures forall i | 0 <= i < |es| :: NormEntries(es)[i] == Entry(es[i].key, Norm(es[i].value))
    decreases |items| + |es|
  {
    if items != [] { NormAt(items[1..], es); }
    else if es != [] { NormAt(items, es[1..]); }
  }

  lemma {:induction false} WellFormedAt(items: seq<Json>, es: seq<Entry<Json>>)
    ensures AllWellFormed(items) ==> forall i | 0 <= i < |items| :: WellFormed(items[i])
    ensures EntriesWellFormed(es) ==> forall i | 0 <= i < |es| :: WellFormed(es[i].value)
    decreases |items| + |es|
  {
    if items != [] { WellFormedAt(items[1..], es); }
    else if es != [] { WellFormedAt(items, es[1..]); }
  }

  /** Normal forms are equal exactly when the values are the same up to the order of keys. */
  lemma {:induction false} NormDecidesSame(a: Json, b: Json)
    requires WellFormed(a) && WellFormed(b)
    ensures Norm(a) == Norm(b) <==> Same(a, b)
    decreases a, 1
  {
    match (a, b)
    case (Array(xs), Array(ys)) =>
      WellFormedAt(xs, []);
      WellFormedAt(ys, []);
      NormAt(xs, []);
      NormAt(ys, []);
      forall i | 0 <= i < |xs| && |xs| == |ys| ensures Norm(xs[i]) == Norm(ys[i]) <==> Same(xs[i], ys[i]) {
        NormDecidesSame(xs[i], ys[i]);
      }
      assert Norm(a) == Norm(b) <==> NormAll(xs) == NormAll(ys);
    case (Object(es), Object(fs)) => ObjectsDecided(es, fs);
    case _ =>
  }

  function NormEntry(e: Entry<Json>): Entry<Json> {
    Entry(e.key, Norm(e.value))
  }

  lemma {:induction false} NormMembers(es: seq<Entry<Json>>, n: Entry<Json>)
    ensures n in NormEntries(es) <==> exists e | e in es :: NormEntry(e) == n
  {
    NormAt([], es);
    if n in NormEntries(es) {
      var i :| 0 <= i < |es| && NormEntries(es)[i] == n;
      assert es[i] in es && NormEntry(es[i]) == n;
    }
    if e :| e in es && NormEntry(e) == n {
      var i :| 0 <= i < |es| && es[i] == e;
      assert NormEntries(es)[i] == n;
    }
  }

  /** Given that entries match exactly when their normal forms are equal, objects match exactly
      when their normalised entries have the same members. */
  lemma SameIsMembers(es: seq<Entry<Json>>, fs: seq<Entry<Json>>)
    requires forall e, f | e in es && f in fs :: SameEntry(e, f) <==> NormEntry(e) == NormEntry(f)
    ensures Same(Object(es), Object(fs)) <==> forall n :: n in NormEntries(es) <==> n in NormEntries(fs)
  {
    hide Norm, NormEntries;
    forall n ensures n in NormEntries(es) <==> exists e | e in es :: NormEntry(e) == n { NormMembers(es, n); }
    forall n ensures n in NormEntries(fs) <==> exists f | f in fs :: NormEntry(f) == n { NormMembers(fs, n); }
    if Same(Object(es), Object(fs)) {
      forall n ensures n in NormEntries(es) <==> n in NormEntries(fs) {
        if e :| e in es && NormEntry(e) == n { assert HasPartner(e, fs); }
        if f :| f in fs && NormEntry(f) == n { assert IsPartner(es, f); }
      }
    }
    if forall n :: n in NormEntries(es) <==> n in NormEntries(fs) {
      forall e | e in es ensures HasPartner(e, fs) {
        assert NormEntry(e) in NormEntries(es);
        var f :| f in fs && NormEntry(f) == NormEntry(e);
        assert SameEntry(e, f);
      }
      forall f | f in fs ensures IsPartner(es, f) {
        assert NormEntry(f) in NormEntries(fs);
        var e :| e in es && NormEntry(f) == NormEntry(e);
        assert SameEntry(e, f);
      }
    }
  }

  lemma {:induction false} ObjectsDecided(es: seq<Entry<Json>>, fs: seq<Entry<Json>>)
    requires WellFormed(Object(es)) && WellFormed(Object(fs))
    ensures Norm(Object(es)) == Norm(Object(fs)) <==> Same(Object(es), Object(fs))
    decreases es, 0
  {
    hide SortByKey;
    WellFormedAt([], es);
    WellFormedAt([], fs);
    forall e, f | e in es && f in fs ensures SameEntry(e, f) <==> NormEntry(e) == NormEntry(f) {
      assert WellFormed(e.value) && WellFormed(f.value);
      NormDecidesSame(e.value, f.value);
    }
    SameIsMembers(es, fs);
    NormAt([], es);
    NormAt([], fs);
    NormalFormsMatch(NormEntries(es), NormEntries(fs));
    assert Norm(Object(es)) == Object(SortByKey(NormEntries(es)));
    assert Norm(Object(fs)) == Object(SortByKey(NormEntries(fs)));
  }

  lemma NormalFormsMatch(ns: seq<Entry<Json>>, ms: seq<Entry<Json>>)
    requires DistinctKeys(ns) && DistinctKeys(ms)
    ensures SortByKey(ns) == SortByKey(ms) <==> forall e :: e in ns <==> e in ms
  {
    hide SortByKey;
    SortDistinct(ns);
    SortDistinct(ms);
    SortFacts(ns);
    SortFacts(ms);
    if forall e :: e in ns <==> e in ms {
      SortedUnique(SortByKey(ns), SortByKey(ms));
    }
  }

  // ----- main results -----

  /** Two values have the same canonical text exactly when they are the same JSON value. */
  lemma CanonicalUnambiguous(a: Json, b: Json)
    requires WellFormed(a) && WellFormed(b)
    ensures Canonical(a) == Canonical(b) <==> Same(a, b)
  {
    CanonicalParses(a);
    CanonicalParses(b);
    NormDecidesSame(a, b);
    if Norm(a) == Norm(b) {
      CanonicalOfNorm(a);
      CanonicalOfNorm(b);
    }
  }

  /** Normalising does not change the canonical text. */
  lemma {:induction false} CanonicalOfNorm(v: Json)
    ensures Canonical(Norm(v)) == Canonical(v)
    decreases v, 1
  {
    match v
    case Array(items) => AllOfNorm(items);
    case Object(es) =>
      EntriesOfNorm(es);
      SortCommutes(NormEntries(es));
      SortFacts(CanonicalEntries(es));
      SortAgain(SortByKey(CanonicalEntries(es)));
    case _ =>
  }

  lemma {:induction false} AllOfNorm(items: seq<Json>)
    ensures CanonicalAll(NormAll(items)) == CanonicalAll(items)
    decreases items, 0
  {
    if items != [] {
      CanonicalOfNorm(items[0]);
      AllOfNorm(items[1..]);
      assert NormAll(items)[1..] == NormAll(items[1..]);
    }
  }

  lemma {:induction false} EntriesOfNorm(es: seq<Entry<Json>>)
    ensures CanonicalEntries(NormEntries(es)) == CanonicalEntries(es)
    decreases es, 0
  {
    if es != [] {
      CanonicalOfNorm(es[0].value);
      EntriesOfNorm(es[1..]);
      assert NormEntries(es)[1..] == NormEntries(es[1..]);
    }
  }

  lemma {:induction false} InsertCommutes(e: Entry<Json>, es: seq<Entry<Json>>)
    ensures CanonicalEntries(Insert(e, es)) == Insert(Entry(e.key, Canonical(e.value)), CanonicalEntries(es))
    decreases |es|
  {
    if es == [] {
    } else if Le(e.key, es[0].key) {
      assert ([e] + es)[1..] == es;
    } else {
      InsertCommutes(e, es[1..]);
      assert ([es[0]] + Insert(e, es[1..]))[1..] == Insert(e, es[1..]);
      assert CanonicalEntries(es)[1..] == CanonicalEntries(es[1..]);
    }
  }

  /** Sorting and rendering the values commute: only keys are compared. */
  lemma {:induction false} SortCommutes(es: seq<Entry<Json>>)
    ensures CanonicalEntries(SortByKey(es)) == SortByKey(CanonicalEntries(es))
    decreases |es|
  {
    if es != [] {
      SortCommutes(es[1..]);
      InsertCommutes(es[0], SortByKey(es[1..]));
      assert CanonicalEntries(es)[1..] == CanonicalEntries(es[1..]);
    }
  }

  lemma {:induction false} SortAgain<T>(es: seq<Entry<T>>)
    requires Sorted(es)
    ensures SortByKey(es) == es
  {
    if es != [] {
      SortAgain(es[1..]);
      if |es| > 1 { assert Le(es[0].key, es[1].key); }
    }
  }

  /** An action stored in canonical form and read back has the digest it was stored with, and
      an action has that digest only if it is the same JSON value, unless the hash collides. */
  lemma DigestBindsAction(hash: string -> string, action: Json, other: Json)
    requires WellFormed(action) && WellFormed(other)
    requires hash(Canonical(action)) == hash(Canonical(other)) ==> Canonical(action) == Canonical(other)
    ensures Parse(Canonical(action)).Some?
    ensures hash(Canonical(Parse(Canonical(action)).value)) == hash(Canonical(action))
    ensures hash(Canonical(other)) == hash(Canonical(action)) <==> Same(action, other)
  {
    CanonicalParses(action);
    CanonicalOfNorm(action);
    CanonicalUnambiguous(action, other);
  }
}
