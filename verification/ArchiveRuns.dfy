/** How a result archive gets over its limits: exactly by which crash, and a run that does. */
module ArchiveRuns {
  import opened Wrappers
  import opened ResultArchive

  /** Between puts, over a limit: from here on every put is refused. */
  ghost predicate Stuck(w: World) {
    w.phase.Idle? && Over(w.files)
  }

  /** A crash between the promotion of a result and the removal of its staging file, while both
      together are over a limit. */
  ghost predicate CutOver(w: World, e: Event) {
    e.Crash? && w.phase.Cleaning? && Over(w.files)
  }

  lemma StuckStep(hash: seq<Byte> -> string, w: World, e: Event)
    requires HashNames(hash) && Sound(hash, w) && Nearly(w) && Possible(w, e)
    ensures Stuck(After(hash, w, e)) <==> Stuck(w) || CutOver(w, e)
  {
    hide ValidId, Staging, Total, HashNames, Over, Room, Inventory;
    NearlyBounded(w);
    match e {
      case Begin(bytes, staging, names) => if Over(w.files) && w.phase.Idle? { FullStep(hash, w, e); }
      case Write(_) =>
      case Link =>
      case Remove => NotOver(w);
      case Crash =>
    }
  }

  lemma NotOver(w: World)
    requires Nearly(w) && w.phase.Cleaning?
    ensures !Over(w.files - {w.phase.staging})
  {
  }

  /** In every run: the archive is stuck exactly when some earlier crash cut off a put after its
      promotion in a state over a limit. */
  lemma {:induction false} StuckIff(hash: seq<Byte> -> string, ws: seq<World>, es: seq<Event>, i: nat)
    requires HashNames(hash) && Unfolds(hash, ws, es) && i < |ws|
    ensures Stuck(ws[i]) <==> exists k: nat | k < i :: CutOver(ws[k], es[k])
    decreases i
  {
    hide Sound, After, Possible, HashNames, Nearly, Over, Stuck, CutOver;
    if i == 0 {
      EmptyIsFine();
    } else {
      StuckIff(hash, ws, es, i - 1);
      SoundThroughout(hash, ws, es, i - 1);
      NearlyThroughout(hash, ws, es, i - 1);
      assert Follows(hash, ws, es, i - 1);
      StuckStep(hash, ws[i - 1], es[i - 1]);
    }
  }

  lemma EmptyIsFine()
    ensures !Stuck(World(map[], Idle))
  {
  }

  // ----- a run that gets stuck -----

  lemma Extended(hash: seq<Byte> -> string, ws: seq<World>, es: seq<Event>, e: Event)
    returns (vs: seq<World>, ds: seq<Event>)
    requires Unfolds(hash, ws, es) && Possible(ws[|es|], e)
    ensures Unfolds(hash, vs, ds) && vs[|ds|] == After(hash, ws[|es|], e)
  {
    hide After, Possible;
    vs, ds := ws + [After(hash, ws[|es|], e)], es + [e];
    forall i: nat | i < |ds| ensures Follows(hash, vs, ds, i) {
      if i < |es| { assert Follows(hash, ws, es, i); }
    }
  }

  lemma Listed(fs: Files) returns (names: seq<string>)
    ensures Listing(fs, names)
    decreases |fs|
  {
    if fs == map[] {
      names := [];
    } else {
      var n :| n in fs;
      CountWithout(fs, n);
      names := Listed(fs - {n});
      names := names + [n];
    }
  }

  function OneByte(n: nat): seq<Byte>
    requires n < 256
  {
    [n as Byte]
  }

  ghost predicate TellsBytesApart(hash: seq<Byte> -> string) {
    forall x: nat, y: nat | x < y < 256 :: hash(OneByte(x)) != hash(OneByte(y))
  }

  /** The results of the first `n` puts, one byte each. */
  function Loaded(hash: seq<Byte> -> string, n: nat): Files
    requires n <= 256
  {
    if n == 0 then map[] else Loaded(hash, n - 1)[hash(OneByte(n - 1)) := OneByte(n - 1)]
  }

  lemma {:induction false} LoadedFacts(hash: seq<Byte> -> string, n: nat)
    requires HashNames(hash) && TellsBytesApart(hash) && n <= 256
    ensures var fs := Loaded(hash, n);
            && |fs| == n && Total(fs) == n && (forall m: nat | n <= m < 256 :: hash(OneByte(m)) !in fs)
            && forall name | name in fs :: ValidId(name)
  {
    hide Total, ValidId;
    if n == 0 {
      NothingTotal();
    } else {
      LoadedFacts(hash, n - 1);
      Added(Loaded(hash, n - 1), hash(OneByte(n - 1)), OneByte(n - 1));
    }
  }

  lemma NothingTotal()
    ensures Total(map[]) == 0
  {
  }

  /** The next one-byte put is admitted. */
  lemma NextAdmitted(hash: seq<Byte> -> string, w: World, n: nat, names: seq<string>)
    requires HashNames(hash) && TellsBytesApart(hash) && n < 256 && w == World(Loaded(hash, n), Idle)
    requires Sound(hash, w) && Listing(w.files, names)
    ensures Possible(w, Begin(OneByte(n), STAGING, names))
    ensures Admit(hash, w.files, OneByte(n), STAGING, names) == Ok(true)
  {
    hide ValidId, Total, Inventory, Sound, Listing, Loaded;
    LoadedFacts(hash, n);
    InventoryExact(hash, w, names);
    StagingIsNoId(STAGING);
    ListedOnly(w.files, names);
  }

  lemma ListedOnly(fs: Files, names: seq<string>)
    requires Listing(fs, names)
    ensures forall i | 0 <= i < |names| :: names[i] in fs
  {
  }

  /** A run that has put the first `n` one-byte results, none cut off. */
  lemma {:induction false} LoadingRun(hash: seq<Byte> -> string, n: nat) returns (ws: seq<World>, es: seq<Event>)
    requires HashNames(hash) && TellsBytesApart(hash) && n <= 255
    ensures Unfolds(hash, ws, es) && ws[|es|] == World(Loaded(hash, n), Idle)
    decreases n
  {
    hide Sound, Admit, Listing, HashNames, TellsBytesApart, After, Possible;
    if n == 0 {
      ws, es := [World(map[], Idle)], [];
    } else {
      ws, es := LoadingRun(hash, n - 1);
      SoundThroughout(hash, ws, es, |es|);
      var w := ws[|es|];
      var names := Listed(w.files);
      NextAdmitted(hash, w, n - 1, names);
      var bytes := OneByte(n - 1);
      PutSteps(hash, w, bytes, names);
      PutStores(hash, w, bytes, STAGING, names);
      ws, es := Extended(hash, ws, es, Begin(bytes, STAGING, names));
      ws, es := Extended(hash, ws, es, Write(|bytes|));
      ws, es := Extended(hash, ws, es, Link);
      ws, es := Extended(hash, ws, es, Remove);
    }
  }

  /** The events of an admitted put follow one another. */
  lemma PutSteps(hash: seq<Byte> -> string, w: World, bytes: seq<Byte>, names: seq<string>)
    requires HashNames(hash) && Sound(hash, w) && Possible(w, Begin(bytes, STAGING, names))
    requires Admit(hash, w.files, bytes, STAGING, names) == Ok(true)
    ensures var begun := After(hash, w, Begin(bytes, STAGING, names));
            var written := After(hash, begun, Write(|bytes|));
            && Staging(STAGING) && Possible(begun, Write(|bytes|)) && Possible(written, Link)
            && Possible(After(hash, written, Link), Remove)
  {
    hide ValidId, Inventory, Sound, Admit, Listing;
    AdmittedRoom(hash, w, bytes, STAGING, names);
    HashIsNoStaging(hash, bytes, STAGING);
  }

  /** With any hash that tells the 256 one-byte results apart there is a run, from the empty
      directory, of 255 whole puts and one that is cut off, after which every put is refused. */
  lemma StuckRun(hash: seq<Byte> -> string) returns (ws: seq<World>, es: seq<Event>)
    requires HashNames(hash) && TellsBytesApart(hash)
    ensures Unfolds(hash, ws, es) && Stuck(ws[|es|])
  {
    hide Sound, Admit, Listing, HashNames, TellsBytesApart, After, Possible, Total, Loaded;
    ws, es := LoadingRun(hash, 255);
    SoundThroughout(hash, ws, es, |es|);
    var w := ws[|es|];
    var names := Listed(w.files);
    LoadedFacts(hash, 255);
    NextAdmitted(hash, w, 255, names);
    var bytes := OneByte(255);
    PutSteps(hash, w, bytes, names);
    CutAfterPromotion(hash, w, bytes, STAGING, names);
    ws, es := Extended(hash, ws, es, Begin(bytes, STAGING, names));
    ws, es := Extended(hash, ws, es, Write(|bytes|));
    ws, es := Extended(hash, ws, es, Link);
    CrashPossible(ws[|es|]);
    ws, es := Extended(hash, ws, es, Crash);
  }

  lemma CrashPossible(w: World)
    ensures Possible(w, Crash)
  {
  }
}
