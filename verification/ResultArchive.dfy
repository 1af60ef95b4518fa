/** The content-addressed result archive of crates/agentmeld-m0/src/artifact.rs: storing a result is
    several directory steps, and a crash of the process may fall between any two. */
module ResultArchive {
  import opened Wrappers

  type Byte = n: nat | n < 256

  const BLOB_LIMIT: nat := 512 * 1024
  const STORE_LIMIT: nat := 16 * 1024 * 1024
  const ENTRY_LIMIT: nat := 256
  const STAGING: string := ".staging-"

  predicate ValidId(id: string) {
    |id| == 64 && forall i | 0 <= i < |id| :: '0' <= id[i] <= '9' || 'a' <= id[i] <= 'f'
  }

  predicate Staging(name: string) {
    STAGING <= name
  }

  /** Directory entries and the bytes behind them; the lock file is not counted. */
  type Files = map<string, seq<Byte>>

  datatype ArchiveError =
    | SizeLimit | UnknownEntry | QuotaExceeded | BadDigest | Unavailable | BadFile | Mismatch | StagingExists

  // ----- reading -----

  function Get(hash: seq<Byte> -> string, fs: Files, id: string): Result<seq<Byte>, ArchiveError> {
    if !ValidId(id) then Err(BadDigest)
    else if id !in fs then Err(Unavailable)
    else if |fs[id]| > BLOB_LIMIT then Err(BadFile)
    else if hash(fs[id]) != id then Err(Mismatch)
    else Ok(fs[id])
  }

  function SizeOf(fs: Files, names: seq<string>): nat
    requires forall i | 0 <= i < |names| :: names[i] in fs
  {
    if names == [] then 0 else SizeOf(fs, names[..|names| - 1]) + |fs[names[|names| - 1]]|
  }

  /** A directory listing: every entry once, in some order. */
  ghost predicate Listing(fs: Files, names: seq<string>) {
    && (forall i | 0 <= i < |names| :: names[i] in fs)
    && (forall n | n in fs :: n in names)
    && (forall i, j | 0 <= i < j < |names| :: names[i] != names[j])
  }

  /** `inventory`: the count and the bytes, refused when an entry is foreign or a limit is passed. */
  function Inventory(fs: Files, names: seq<string>): Result<(nat, nat), ArchiveError>
    requires forall i | 0 <= i < |names| :: names[i] in fs
  {
    if names == [] then Ok((0, 0)) else
    var sofar :- Inventory(fs, names[..|names| - 1]);
    var name := names[|names| - 1];
    if !ValidId(name) && !Staging(name) then Err(UnknownEntry)
    else if sofar.0 + 1 > ENTRY_LIMIT || sofar.1 + |fs[name]| > STORE_LIMIT then Err(QuotaExceeded)
    else Ok((sofar.0 + 1, sofar.1 + |fs[name]|))
  }

  // ----- storing, step by step -----

  /** Where a put has got to. */
  datatype Phase =
    | Idle
    | Writing(staging: string, bytes: seq<Byte>)
    | Promoting(staging: string, bytes: seq<Byte>)
    | Cleaning(staging: string)

  datatype World = World(files: Files, phase: Phase)

  datatype Event =
    | Begin(bytes: seq<Byte>, staging: string, names: seq<string>)
    | Write(upTo: nat)
    | Link
    | Remove
    | Crash

  /** The checks of `put` before it touches the directory: None when the bytes are stored already. */
  function Admit(hash: seq<Byte> -> string, fs: Files, bytes: seq<Byte>, staging: string,
                 names: seq<string>): Result<bool, ArchiveError>
    requires forall i | 0 <= i < |names| :: names[i] in fs
  {
    if |bytes| > BLOB_LIMIT then Err(SizeLimit) else
    var inventory :- Inventory(fs, names);
    if hash(bytes) in fs then
      var kept :- Get(hash, fs, hash(bytes));
      if kept != bytes then Err(Mismatch) else Ok(false)
    else if inventory.0 >= ENTRY_LIMIT || inventory.1 + |bytes| > STORE_LIMIT then Err(QuotaExceeded)
    else if staging in fs then Err(StagingExists)
    else Ok(true)
  }

  ghost predicate Possible(w: World, e: Event) {
    match e
    case Begin(bytes, staging, names) => w.phase.Idle? && Listing(w.files, names) && Staging(staging)
    case Write(upTo) => w.phase.Writing? && upTo <= |w.phase.bytes|
    case Link => w.phase.Promoting?
    case Remove => w.phase.Cleaning?
    case Crash => true
  }

  /** A write may leave any prefix; promotion is a hard link that never replaces an entry. */
  function After(hash: seq<Byte> -> string, w: World, e: Event): World {
    match e
    case Begin(bytes, staging, names) =>
      if (forall i | 0 <= i < |names| :: names[i] in w.files) && Admit(hash, w.files, bytes, staging, names) == Ok(true)
      then World(w.files[staging := []], Writing(staging, bytes)) else w
    case Write(upTo) =>
      if !w.phase.Writing? || upTo > |w.phase.bytes| then w else
      var files := w.files[w.phase.staging := w.phase.bytes[..upTo]];
      World(files, if upTo == |w.phase.bytes| then Promoting(w.phase.staging, w.phase.bytes) else w.phase)
    case Link =>
      if !w.phase.Promoting? then w
      else if hash(w.phase.bytes) in w.files then w.(phase := Idle)
      else World(w.files[hash(w.phase.bytes) := w.phase.bytes], Cleaning(w.phase.staging))
    case Remove => if w.phase.Cleaning? then World(w.files - {w.phase.staging}, Idle) else w
    case Crash => w.(phase := Idle)
  }

  // ----- safety across crashes -----

  ghost predicate HashNames(hash: seq<Byte> -> string) {
    forall b: seq<Byte> :: ValidId(hash(b))
  }

  /** Every promoted file is named by its digest and within the blob limit; nothing foreign appears;
      and the put in progress owns its staging file. */
  ghost predicate Sound(hash: seq<Byte> -> string, w: World) {
    && (forall n | n in w.files :: ValidId(n) || Staging(n))
    && (forall n | n in w.files && ValidId(n) :: hash(w.files[n]) == n && |w.files[n]| <= BLOB_LIMIT)
    && (w.phase.Writing? || w.phase.Promoting? ==> |w.phase.bytes| <= BLOB_LIMIT)
    && (!w.phase.Idle? ==> Staging(w.phase.staging) && w.phase.staging in w.files)
    && (w.phase.Promoting? ==> w.files[w.phase.staging] == w.phase.bytes)
  }

  lemma StagingIsNoId(name: string)
    requires Staging(name)
    ensures !ValidId(name)
  {
    assert name[0] == STAGING[0];
  }

  lemma StepSound(hash: seq<Byte> -> string, w: World, e: Event)
    requires HashNames(hash) && Sound(hash, w) && Possible(w, e)
    ensures Sound(hash, After(hash, w, e))
  {
    hide ValidId, Staging, Inventory;
    match e {
      case Begin(bytes, staging, names) => StagingIsNoId(staging);
      case Write(_) => StagingIsNoId(w.phase.staging);
      case _ =>
    }
  }

  /** No step, finished or cut off by a crash, changes what an earlier digest returns. */
  lemma StepKeepsResults(hash: seq<Byte> -> string, w: World, e: Event, id: string)
    requires Sound(hash, w) && Possible(w, e) && Get(hash, w.files, id).Ok?
    ensures Get(hash, After(hash, w, e).files, id) == Get(hash, w.files, id)
  {
    hide ValidId, Staging, Inventory;
    match e {
      case Begin(bytes, staging, names) => StagingIsNoId(staging);
      case Write(_) => StagingIsNoId(w.phase.staging);
      case Remove => StagingIsNoId(w.phase.staging);
      case _ =>
    }
  }

  ghost predicate Unfolds(hash: seq<Byte> -> string, ws: seq<World>, es: seq<Event>) {
    && |ws| == |es| + 1 && ws[0] == World(map[], Idle)
    && forall i: nat | i < |es| :: Follows(hash, ws, es, i)
  }

  ghost predicate Follows(hash: seq<Byte> -> string, ws: seq<World>, es: seq<Event>, i: nat)
    requires |ws| == |es| + 1 && i < |es|
  {
    Possible(ws[i], es[i]) && ws[i + 1] == After(hash, ws[i], es[i])
  }

  lemma {:induction false} SoundThroughout(hash: seq<Byte> -> string, ws: seq<World>, es: seq<Event>, i: nat)
    requires HashNames(hash) && Unfolds(hash, ws, es) && i < |ws|
    ensures Sound(hash, ws[i])
    decreases i
  {
    hide Sound, After, Possible, HashNames;
    if i == 0 {
      EmptySound(hash);
    } else {
      SoundThroughout(hash, ws, es, i - 1);
      assert Follows(hash, ws, es, i - 1);
      StepSound(hash, ws[i - 1], es[i - 1]);
    }
  }

  lemma EmptySound(hash: seq<Byte> -> string)
    ensures Sound(hash, World(map[], Idle))
  {
  }

  /** In every run, with crashes of the process anywhere: a digest that once returned bytes returns the same bytes
      ever after. */
  lemma {:induction false} ResultsPermanent(hash: seq<Byte> -> string, ws: seq<World>, es: seq<Event>, i: nat, k: nat,
                                            id: string)
    requires HashNames(hash) && Unfolds(hash, ws, es) && i <= k < |ws| && Get(hash, ws[i].files, id).Ok?
    ensures Get(hash, ws[k].files, id) == Get(hash, ws[i].files, id)
    decreases k
  {
    hide Sound, After, Possible, Get, HashNames;
    if i < k {
      ResultsPermanent(hash, ws, es, i, k - 1, id);
      SoundThroughout(hash, ws, es, k - 1);
      assert Follows(hash, ws, es, k - 1);
      StepKeepsResults(hash, ws[k - 1], es[k - 1], id);
    }
  }

  /** A put that runs to its end stores its bytes under their digest and leaves no staging file;
      putting them again changes nothing. */
  lemma PutStores(hash: seq<Byte> -> string, w: World, bytes: seq<Byte>, staging: string, names: seq<string>)
    requires HashNames(hash) && Sound(hash, w) && w.phase.Idle? && Listing(w.files, names) && Staging(staging)
    requires Admit(hash, w.files, bytes, staging, names) == Ok(true)
    ensures var linked := After(hash, After(hash, After(hash, w, Begin(bytes, staging, names)), Write(|bytes|)), Link);
            var done := After(hash, linked, Remove);
            && done == World(w.files[hash(bytes) := bytes], Idle) && Get(hash, done.files, hash(bytes)) == Ok(bytes)
            && forall again: string, list: seq<string> | Listing(done.files, list) ::
                 After(hash, done, Begin(bytes, again, list)) == done
  {
    hide ValidId, Staging, Inventory;
    StagingIsNoId(staging);
    assert bytes[..|bytes|] == bytes;
    var files := w.files[staging := []][staging := bytes][hash(bytes) := bytes] - {staging};
    assert files == w.files[hash(bytes) := bytes];
  }

  // ----- counting and adding up -----

  ghost function Pick(fs: Files): (n: string)
    requires fs != map[]
    ensures n in fs
  {
    var n :| n in fs; n
  }

  /** The bytes behind all entries. */
  ghost function Total(fs: Files): nat
    decreases fs.Keys
  {
    if fs == map[] then 0 else |fs[Pick(fs)]| + Total(fs - {Pick(fs)})
  }

  lemma {:induction false} TotalWithout(fs: Files, n: string)
    requires n in fs
    ensures Total(fs) == Total(fs - {n}) + |fs[n]|
    decreases fs.Keys
  {
    var m := Pick(fs);
    if m != n {
      TotalWithout(fs - {m}, n);
      TotalWithout(fs - {n}, m);
      assert fs - {m} - {n} == fs - {n} - {m};
    }
  }

  lemma CountWithout(fs: Files, n: string)
    requires n in fs
    ensures |fs - {n}| == |fs| - 1
  {
    assert (fs - {n}).Keys == fs.Keys - {n};
    assert |fs| == |fs.Keys| && |fs - {n}| == |(fs - {n}).Keys|;
  }

  lemma {:induction false} SizeSame(fs: Files, gs: Files, names: seq<string>)
    requires forall k | 0 <= k < |names| :: names[k] in fs && names[k] in gs && fs[names[k]] == gs[names[k]]
    ensures SizeOf(fs, names) == SizeOf(gs, names)
  {
    if names != [] { SizeSame(fs, gs, names[..|names| - 1]); }
  }

  /** A listing counts every entry and adds up all bytes, in whatever order it comes. */
  lemma {:induction false} ListingCounts(fs: Files, names: seq<string>)
    requires Listing(fs, names)
    ensures |names| == |fs| && SizeOf(fs, names) == Total(fs)
    decreases |names|
  {
    if names == [] {
      assert fs == map[];
    } else {
      var init, n := names[..|names| - 1], names[|names| - 1];
      var rest := fs - {n};
      forall m | m in rest ensures m in init { assert m in names; }
      ListingCounts(rest, init);
      SizeSame(fs, rest, init);
      TotalWithout(fs, n);
      CountWithout(fs, n);
    }
  }

  /** The directory passes a limit of the inventory. */
  ghost predicate Over(fs: Files) {
    |fs| > ENTRY_LIMIT || Total(fs) > STORE_LIMIT
  }

  lemma {:induction false} InventoryIs(fs: Files, names: seq<string>)
    requires forall i | 0 <= i < |names| :: names[i] in fs && (ValidId(names[i]) || Staging(names[i]))
    ensures Inventory(fs, names) ==
              if |names| <= ENTRY_LIMIT && SizeOf(fs, names) <= STORE_LIMIT then Ok((|names|, SizeOf(fs, names)))
              else Err(QuotaExceeded)
    decreases |names|
  {
    hide ValidId, Staging;
    if names != [] { InventoryIs(fs, names[..|names| - 1]); }
  }

  /** Whatever the order of the directory, the inventory counts and adds up all of it, and is refused
      exactly when the directory is over a limit. */
  lemma InventoryExact(hash: seq<Byte> -> string, w: World, names: seq<string>)
    requires Sound(hash, w) && Listing(w.files, names)
    ensures Inventory(w.files, names) == if Over(w.files) then Err(QuotaExceeded) else Ok((|w.files|, Total(w.files)))
  {
    hide ValidId, Staging, Total;
    ListingCounts(w.files, names);
    InventoryIs(w.files, names);
  }

  // ----- what reading and admission answer -----

  /** A digest as the archive names files: 64 lower-case hexadecimal digits. */
  predicate DigestName(id: string) {
    |id| == 64 && forall i | 0 <= i < 64 :: '0' <= id[i] <= '9' || 'a' <= id[i] <= 'f'
  }

  /** Reading returns exactly the bytes filed under a digest, of at most 512 KiB, that have that digest;
      in any directory, whoever wrote it. */
  lemma GetTable(hash: seq<Byte> -> string, fs: Files, id: string, bytes: seq<Byte>)
    ensures Get(hash, fs, id) == Ok(bytes) <==>
              DigestName(id) && id in fs && fs[id] == bytes && |bytes| <= 524_288 && hash(bytes) == id
    ensures Get(hash, fs, id).Err? ==>
              Get(hash, fs, id).error ==
                if !DigestName(id) then BadDigest else if id !in fs then Unavailable
                else if |fs[id]| > 524_288 then BadFile else Mismatch
  {
    assert ValidId(id) <==> DigestName(id);
  }

  /** What a put is answered before it touches the directory. */
  ghost function AdmitAnswer(hash: seq<Byte> -> string, fs: Files, bytes: seq<Byte>,
                             staging: string): Result<bool, ArchiveError>
  {
    if |bytes| > 524_288 then Err(SizeLimit)
    else if |fs| > 256 || Total(fs) > 16_777_216 then Err(QuotaExceeded)
    else if hash(bytes) in fs then (if fs[hash(bytes)] == bytes then Ok(false) else Err(Mismatch))
    else if |fs| + 1 > 256 || Total(fs) + |bytes| > 16_777_216 then Err(QuotaExceeded)
    else if staging in fs then Err(StagingExists)
    else Ok(true)
  }

  /** A put is admitted exactly when the result is at most 512 KiB, is not stored yet, and fits with the
      whole directory into 256 entries and 16 MiB; stored bytes are reported as stored. */
  lemma AdmitTable(hash: seq<Byte> -> string, w: World, bytes: seq<Byte>, staging: string, names: seq<string>)
    requires HashNames(hash) && Sound(hash, w) && Listing(w.files, names)
    ensures forall i | 0 <= i < |names| :: names[i] in w.files
    ensures Admit(hash, w.files, bytes, staging, names) == AdmitAnswer(hash, w.files, bytes, staging)
  {
    hide ValidId, Staging, Inventory, Total;
    InventoryExact(hash, w, names);
  }

  /** What each step of an admitted put leaves: an empty staging file, then any prefix of the bytes in
      it, then also the bytes under their digest, then only those; a crash leaves the directory as it is. */
  lemma StepTable(hash: seq<Byte> -> string, w: World, bytes: seq<Byte>, staging: string, names: seq<string>, n: nat)
    requires HashNames(hash) && Sound(hash, w) && Possible(w, Begin(bytes, staging, names)) && n <= |bytes|
    requires AdmitAnswer(hash, w.files, bytes, staging) == Ok(true)
    ensures var begun := After(hash, w, Begin(bytes, staging, names));
            var written := After(hash, begun, Write(n));
            var whole := After(hash, begun, Write(|bytes|));
            var linked := After(hash, whole, Link);
            && begun == World(w.files[staging := []], Writing(staging, bytes))
            && written.files == w.files[staging := bytes[..n]] && (written.phase.Promoting? <==> n == |bytes|)
            && linked == World(w.files[staging := bytes][hash(bytes) := bytes], Cleaning(staging))
            && After(hash, linked, Remove) == World(w.files[hash(bytes) := bytes], Idle)
            && After(hash, begun, Crash) == begun.(phase := Idle)
            && After(hash, written, Crash) == written.(phase := Idle)
            && After(hash, linked, Crash) == linked.(phase := Idle)
  {
    hide ValidId, Staging, Inventory, Total, Admit, Listing;
    AdmitTable(hash, w, bytes, staging, names);
    HashIsNoStaging(hash, bytes, staging);
    assert bytes[..|bytes|] == bytes;
    assert w.files[staging := bytes][hash(bytes) := bytes] - {staging} == w.files[hash(bytes) := bytes];
  }

  // ----- quotas -----

  /** At rest: no staging files, and within both quotas. */
  ghost predicate AtRest(fs: Files) {
    (forall n | n in fs :: ValidId(n)) && !Over(fs)
  }

  /** There is room for one more entry of the given bytes. */
  ghost predicate Room(fs: Files, bytes: seq<Byte>) {
    |fs| < ENTRY_LIMIT && Total(fs) + |bytes| <= STORE_LIMIT
  }

  /** Without crashes: at rest between puts; during one, the rest of the directory is at rest, and
      until the result is promoted it is new and there is room for it. */
  ghost predicate Within(hash: seq<Byte> -> string, w: World) {
    match w.phase
    case Idle => AtRest(w.files)
    case Writing(staging, bytes) =>
      AtRest(w.files - {staging}) && Room(w.files - {staging}, bytes) && hash(bytes) !in w.files
    case Promoting(staging, bytes) =>
      AtRest(w.files - {staging}) && Room(w.files - {staging}, bytes) && hash(bytes) !in w.files
    case Cleaning(staging) => AtRest(w.files - {staging})
  }

  /** With crashes: between puts at most one entry and one blob above the quotas. */
  ghost predicate Nearly(w: World) {
    match w.phase
    case Idle => |w.files| <= ENTRY_LIMIT + 1 && Total(w.files) <= STORE_LIMIT + BLOB_LIMIT
    case Writing(staging, bytes) =>
      staging in w.files && |w.files[staging]| <= |bytes| && Room(w.files - {staging}, bytes)
    case Promoting(staging, bytes) =>
      staging in w.files && |w.files[staging]| <= |bytes| && Room(w.files - {staging}, bytes)
    case Cleaning(staging) => staging in w.files && |w.files[staging]| <= BLOB_LIMIT && !Over(w.files - {staging})
  }

  lemma AdmittedRoom(hash: seq<Byte> -> string, w: World, bytes: seq<Byte>, staging: string, names: seq<string>)
    requires Sound(hash, w) && Listing(w.files, names) && Admit(hash, w.files, bytes, staging, names) == Ok(true)
    ensures |bytes| <= BLOB_LIMIT && (forall i | 0 <= i < |names| :: names[i] in w.files)
    ensures Room(w.files, bytes) && !Over(w.files) && hash(bytes) !in w.files && staging !in w.files
    ensures w.files[staging := []] - {staging} == w.files
  {
    hide ValidId, Staging, Total, Sound, Inventory;
    InventoryExact(hash, w, names);
  }

  lemma OneMore(fs: Files, n: string, bytes: seq<Byte>)
    requires n !in fs
    ensures |fs[n := bytes]| == |fs| + 1 && Total(fs[n := bytes]) == Total(fs) + |bytes|
  {
    hide Total;
    var gs := fs[n := bytes];
    assert gs - {n} == fs;
    TotalWithout(gs, n);
    CountWithout(gs, n);
  }

  lemma Added(fs: Files, id: string, bytes: seq<Byte>)
    requires id !in fs && Room(fs, bytes)
    ensures |fs[id := bytes]| == |fs| + 1 && Total(fs[id := bytes]) == Total(fs) + |bytes| && !Over(fs[id := bytes])
  {
    hide Total;
    OneMore(fs, id, bytes);
  }

  /** An admitted put adds its bytes to a directory at rest and leaves it at rest. */
  lemma PutStaysWithin(hash: seq<Byte> -> string, fs: Files, bytes: seq<Byte>)
    requires HashNames(hash) && AtRest(fs) && Room(fs, bytes) && hash(bytes) !in fs
    ensures AtRest(fs[hash(bytes) := bytes])
  {
    hide ValidId, Total;
    Added(fs, hash(bytes), bytes);
  }

  lemma LinkedApart(fs: Files, staging: string, id: string, bytes: seq<Byte>)
    requires staging != id
    ensures fs[id := bytes] - {staging} == (fs - {staging})[id := bytes]
  {
  }

  lemma RewrittenApart(fs: Files, staging: string, bytes: seq<Byte>)
    ensures fs[staging := bytes] - {staging} == fs - {staging}
  {
  }

  lemma StepWithin(hash: seq<Byte> -> string, w: World, e: Event)
    requires HashNames(hash) && Sound(hash, w) && Possible(w, e) && !e.Crash? && Within(hash, w)
    ensures Within(hash, After(hash, w, e))
  {
    hide ValidId, Staging, Total, Inventory, Room, AtRest, HashNames, Admit;
    match e {
      case Begin(bytes, staging, names) =>
        if Admit(hash, w.files, bytes, staging, names) == Ok(true) {
          AdmittedRoom(hash, w, bytes, staging, names);
          HashIsNoStaging(hash, bytes, staging);
        }
      case Write(upTo) =>
        RewrittenApart(w.files, w.phase.staging, w.phase.bytes[..upTo]);
        HashIsNoStaging(hash, w.phase.bytes, w.phase.staging);
      case Link =>
        HashIsNoStaging(hash, w.phase.bytes, w.phase.staging);
        LinkedApart(w.files, w.phase.staging, hash(w.phase.bytes), w.phase.bytes);
        PutStaysWithin(hash, w.files - {w.phase.staging}, w.phase.bytes);
      case Remove =>
    }
  }

  lemma HashIsNoStaging(hash: seq<Byte> -> string, bytes: seq<Byte>, staging: string)
    requires HashNames(hash) && Staging(staging)
    ensures hash(bytes) != staging
  {
    StagingIsNoId(staging);
  }

  lemma StepNearly(hash: seq<Byte> -> string, w: World, e: Event)
    requires HashNames(hash) && Sound(hash, w) && Possible(w, e) && Nearly(w)
    ensures Nearly(After(hash, w, e))
  {
    hide ValidId, Staging, Total, Inventory, HashNames, Admit, Room, Over;
    match e {
      case Begin(bytes, staging, names) =>
        if Admit(hash, w.files, bytes, staging, names) == Ok(true) { AdmittedRoom(hash, w, bytes, staging, names); }
      case Write(upTo) => RewrittenApart(w.files, w.phase.staging, w.phase.bytes[..upTo]);
      case Link => LinkNearly(hash, w);
      case Remove => WithinBounds(w.files - {w.phase.staging});
      case Crash => NearlyBounded(w);
    }
  }

  lemma LinkNearly(hash: seq<Byte> -> string, w: World)
    requires HashNames(hash) && Sound(hash, w) && w.phase.Promoting? && Nearly(w)
    ensures Nearly(After(hash, w, Link))
  {
    hide ValidId, Staging, Total, HashNames, Room, Over;
    var staging, id, bytes := w.phase.staging, hash(w.phase.bytes), w.phase.bytes;
    HashIsNoStaging(hash, bytes, staging);
    if id !in w.files {
      LinkedApart(w.files, staging, id, bytes);
      Added(w.files - {staging}, id, bytes);
    } else {
      NearlyBounded(w);
    }
  }

  lemma WithinBounds(fs: Files)
    requires !Over(fs)
    ensures |fs| <= ENTRY_LIMIT + 1 && Total(fs) <= STORE_LIMIT + BLOB_LIMIT
  {
  }

  lemma NearlyBounded(w: World)
    requires Nearly(w)
    ensures |w.files| <= ENTRY_LIMIT + 1 && Total(w.files) <= STORE_LIMIT + BLOB_LIMIT
    ensures Over(w.files) ==> w.phase.Idle? || w.phase.Cleaning?
  {
    hide Total;
    if !w.phase.Idle? { BothParts(w.files, w.phase.staging); }
  }

  lemma BothParts(fs: Files, n: string)
    requires n in fs
    ensures |fs| == |fs - {n}| + 1 && Total(fs) == Total(fs - {n}) + |fs[n]|
  {
    TotalWithout(fs, n);
    CountWithout(fs, n);
  }

  /** In every run whose puts are never cut off, the directory stays within 256 entries and 16 MiB:
      it is at rest between puts, and during one it is so but for the put's own staging file. */
  lemma {:induction false} WithinThroughout(hash: seq<Byte> -> string, ws: seq<World>, es: seq<Event>, i: nat)
    requires HashNames(hash) && Unfolds(hash, ws, es) && i < |ws| && forall k: nat | k < i :: !es[k].Crash?
    ensures Within(hash, ws[i])
    decreases i
  {
    hide Sound, After, Possible, HashNames, Within;
    if i == 0 {
      EmptyWithin(hash);
    } else {
      WithinThroughout(hash, ws, es, i - 1);
      SoundThroughout(hash, ws, es, i - 1);
      assert Follows(hash, ws, es, i - 1);
      StepWithin(hash, ws[i - 1], es[i - 1]);
    }
  }

  lemma EmptyWithin(hash: seq<Byte> -> string)
    ensures Within(hash, World(map[], Idle)) && Nearly(World(map[], Idle))
  {
  }

  lemma {:induction false} NearlyThroughout(hash: seq<Byte> -> string, ws: seq<World>, es: seq<Event>, i: nat)
    requires HashNames(hash) && Unfolds(hash, ws, es) && i < |ws|
    ensures Nearly(ws[i])
    decreases i
  {
    hide Sound, After, Possible, HashNames, Nearly;
    if i == 0 {
      EmptyWithin(hash);
    } else {
      NearlyThroughout(hash, ws, es, i - 1);
      SoundThroughout(hash, ws, es, i - 1);
      assert Follows(hash, ws, es, i - 1);
      StepNearly(hash, ws[i - 1], es[i - 1]);
    }
  }

  /** In every run, with crashes anywhere, every state holds at most 257 entries and at most 16 MiB
      and one blob; and only a put cut off after its promotion can take it over a limit. */
  lemma BoundedThroughout(hash: seq<Byte> -> string, ws: seq<World>, es: seq<Event>, i: nat)
    requires HashNames(hash) && Unfolds(hash, ws, es) && i < |ws|
    ensures |ws[i].files| <= ENTRY_LIMIT + 1 && Total(ws[i].files) <= STORE_LIMIT + BLOB_LIMIT
    ensures Over(ws[i].files) ==> ws[i].phase.Idle? || ws[i].phase.Cleaning?
  {
    hide Total, Unfolds, HashNames;
    NearlyThroughout(hash, ws, es, i);
    NearlyBounded(ws[i]);
  }

  lemma FullStep(hash: seq<Byte> -> string, w: World, e: Event)
    requires Sound(hash, w) && Possible(w, e) && w.phase.Idle? && Over(w.files)
    ensures After(hash, w, e) == w
  {
    hide Sound, Over, Inventory;
    if e.Begin? { InventoryExact(hash, w, e.names); }
  }

  /** The archive removes no staging file that a crash left: once it is over a limit between puts,
      nothing in the directory ever changes again, and every put is refused for the quota, even of
      bytes the archive holds. */
  lemma {:induction false} FullForGood(hash: seq<Byte> -> string, ws: seq<World>, es: seq<Event>, i: nat, k: nat)
    requires HashNames(hash) && Unfolds(hash, ws, es) && i <= k < |ws| && ws[i].phase.Idle? && Over(ws[i].files)
    ensures ws[k] == ws[i]
    ensures forall bytes: seq<Byte>, staging, names | |bytes| <= BLOB_LIMIT && Listing(ws[k].files, names) ::
              Admit(hash, ws[k].files, bytes, staging, names) == Err(QuotaExceeded)
    decreases k
  {
    hide Sound, HashNames, Over, Inventory, After, Possible;
    SoundThroughout(hash, ws, es, k);
    if i < k {
      FullForGood(hash, ws, es, i, k - 1);
      SoundThroughout(hash, ws, es, k - 1);
      assert Follows(hash, ws, es, k - 1);
      FullStep(hash, ws[k - 1], es[k - 1]);
    }
    forall bytes: seq<Byte>, staging, names | |bytes| <= BLOB_LIMIT && Listing(ws[k].files, names)
      ensures Admit(hash, ws[k].files, bytes, staging, names) == Err(QuotaExceeded)
    {
      InventoryExact(hash, ws[k], names);
    }
  }

  /** An admitted put that is cut off between its promotion and the removal of its staging file takes
      the archive over a limit exactly when two more entries, or twice its bytes, do not fit. */
  lemma CutAfterPromotion(hash: seq<Byte> -> string, w: World, bytes: seq<Byte>, staging: string, names: seq<string>)
    requires HashNames(hash) && Sound(hash, w) && Possible(w, Begin(bytes, staging, names))
    requires Admit(hash, w.files, bytes, staging, names) == Ok(true)
    ensures var linked := After(hash, After(hash, After(hash, w, Begin(bytes, staging, names)), Write(|bytes|)), Link);
            var cut := After(hash, linked, Crash);
            && cut.phase.Idle? && Get(hash, cut.files, hash(bytes)) == Ok(bytes)
            && (Over(cut.files) <==> |w.files| + 2 > ENTRY_LIMIT || Total(w.files) + 2 * |bytes| > STORE_LIMIT)
  {
    hide ValidId, Staging, Inventory, Sound, Admit, Listing, Total;
    AdmittedRoom(hash, w, bytes, staging, names);
    HashIsNoStaging(hash, bytes, staging);
    assert bytes[..|bytes|] == bytes;
    TwoMore(w.files, staging, hash(bytes), bytes);
  }

  lemma TwoMore(fs: Files, staging: string, id: string, bytes: seq<Byte>)
    requires staging !in fs && id !in fs && staging != id
    ensures var files := fs[staging := []][staging := bytes][id := bytes];
            |files| == |fs| + 2 && Total(files) == Total(fs) + 2 * |bytes|
  {
    hide Total;
    assert fs[staging := []][staging := bytes] == fs[staging := bytes];
    OneMore(fs, staging, bytes);
    OneMore(fs[staging := bytes], id, bytes);
  }

  // ----- the archive object -----

  class Archive {
    const hash: seq<Byte> -> string
    var files: Files

    constructor (hash: seq<Byte> -> string)
      ensures this.hash == hash && files == map[]
    {
      this.hash := hash;
      files := map[];
    }

    method CheckInventory(names: seq<string>) returns (r: Result<(nat, nat), ArchiveError>)
      requires forall i | 0 <= i < |names| :: names[i] in files
      ensures r == Inventory(files, names)
    {
      hide ValidId, Staging;
      var count, bytes := 0, 0;
      for i := 0 to |names|
        invariant Inventory(files, names[..i]) == Ok((count, bytes))
      {
        assert names[..i + 1][..i] == names[..i];
        if !ValidId(names[i]) && !Staging(names[i]) { InventoryStops(files, names, i + 1); return Err(UnknownEntry); }
        count := count + 1;
        bytes := bytes + |files[names[i]]|;
        if count > ENTRY_LIMIT || bytes > STORE_LIMIT {
          InventoryStops(files, names, i + 1);
          return Err(QuotaExceeded);
        }
      }
      assert names[..|names|] == names;
      return Ok((count, bytes));
    }

    /** `put` when nothing interrupts it: each directory step is one of the events above. */
    method Store(bytes: seq<Byte>, staging: string, names: seq<string>) returns (r: Result<string, ArchiveError>)
      requires Listing(files, names) && Staging(staging) && HashNames(hash)
      modifies this`files
      ensures var w := World(old(files), Idle);
              var written := After(hash, After(hash, w, Begin(bytes, staging, names)), Write(|bytes|));
              files == After(hash, After(hash, written, Link), Remove).files
      ensures var a := Admit(hash, old(files), bytes, staging, names);
              r == if a.Err? then Err(a.error) else Ok(hash(bytes))
    {
      hide Inventory, ValidId;
      StagingIsNoId(staging);
      assert bytes[..|bytes|] == bytes;
      if |bytes| > BLOB_LIMIT { return Err(SizeLimit); }
      var inventory := CheckInventory(names);
      if inventory.Err? { return Err(inventory.error); }
      var id := hash(bytes);
      if id in files {
        var kept := Get(hash, files, id);
        if kept.Err? { return Err(kept.error); }
        if kept.value != bytes { return Err(Mismatch); }
        return Ok(id);
      }
      if inventory.value.0 >= ENTRY_LIMIT || inventory.value.1 + |bytes| > STORE_LIMIT { return Err(QuotaExceeded); }
      if staging in files { return Err(StagingExists); }
      files := files[staging := []];
      files := files[staging := bytes];
      files := files[id := bytes];
      files := files - {staging};
      return Ok(id);
    }
  }

  lemma {:induction false} InventoryStops(fs: Files, names: seq<string>, n: nat)
    requires (forall i | 0 <= i < |names| :: names[i] in fs) && n <= |names| && Inventory(fs, names[..n]).Err?
    ensures Inventory(fs, names) == Inventory(fs, names[..n])
    decreases |names|
  {
    hide ValidId, Staging;
    if n == |names| { assert names[..n] == names; } else {
      assert names[..|names| - 1][..n] == names[..n];
      InventoryStops(fs, names[..|names| - 1], n);
    }
  }
}
