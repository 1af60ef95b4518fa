/** The result archive under power loss. Directory entries reach the disk for certain only when the
    directory is synced, which `put` does after promoting a result and again before its receipt. */
module ArchiveDurability {
  import opened Wrappers
  import opened ResultArchive

  /** What the put in progress has still to do before its receipt. */
  datatype Owed =
    | Nothing
    | AfterLink(id: string)
    | AfterSync(id: string)
    | AfterRemove(id: string)
    | AlreadyThere(id: string)

  /** The archive with the entries that are certainly on the disk and the receipts returned so far. */
  datatype Disk = Disk(w: World, synced: set<string>, owed: Owed, receipts: set<string>)

  datatype DiskEvent =
    | Do(e: Event)
    | SyncDir
    | PowerLoss(kept: Files)

  /** Each unsynced change of the directory may or may not have reached the disk. A promoted file was
      synced before its promotion; a staging file may hold anything. */
  ghost predicate Survives(d: Disk, kept: Files) {
    && (forall n | n in kept :: n in d.w.files || n in d.synced)
    && (forall n | n in d.w.files && n in d.synced :: n in kept)
    && (forall n | n in kept && ValidId(n) :: n in d.w.files && kept[n] == d.w.files[n])
    && (forall n | n in kept && !ValidId(n) :: |kept[n]| <= BLOB_LIMIT)
  }

  ghost predicate Can(d: Disk, e: DiskEvent) {
    match e
    case Do(e) => Possible(d.w, e) && (e.Begin? ==> d.owed.Nothing?) && (e.Remove? ==> d.owed.AfterSync?)
    case SyncDir => d.owed.AfterLink? || d.owed.AfterRemove? || d.owed.AlreadyThere?
    case PowerLoss(kept) => Survives(d, kept)
  }

  function OwedAfter(hash: seq<Byte> -> string, d: Disk, e: Event): Owed {
    match e
    case Begin(bytes, staging, names) =>
      if (forall i | 0 <= i < |names| :: names[i] in d.w.files)
         && Admit(hash, d.w.files, bytes, staging, names) == Ok(false)
      then AlreadyThere(hash(bytes)) else Nothing
    case Write(_) => d.owed
    case Link =>
      if d.w.phase.Promoting? && hash(d.w.phase.bytes) !in d.w.files then AfterLink(hash(d.w.phase.bytes)) else Nothing
    case Remove => if d.owed.AfterSync? then AfterRemove(d.owed.id) else d.owed
    case Crash => Nothing
  }

  function Next(hash: seq<Byte> -> string, d: Disk, e: DiskEvent): Disk {
    match e
    case Do(e) => d.(w := After(hash, d.w, e), owed := OwedAfter(hash, d, e))
    case SyncDir =>
      match d.owed {
        case AfterLink(id) => d.(synced := d.w.files.Keys, owed := AfterSync(id))
        case AfterRemove(id) => d.(synced := d.w.files.Keys, owed := Nothing, receipts := d.receipts + {id})
        case AlreadyThere(id) => d.(synced := d.w.files.Keys, owed := Nothing, receipts := d.receipts + {id})
        case _ => d
      }
    case PowerLoss(kept) => Disk(World(kept, Idle), kept.Keys, Nothing, d.receipts)
  }

  // ----- safety -----

  /** The result the put in progress is about is in the directory. */
  predicate OwedOk(d: Disk) {
    match d.owed
    case Nothing => true
    case AfterLink(id) => d.w.phase.Cleaning? && id in d.w.files && ValidId(id)
    case AfterSync(id) => d.w.phase.Cleaning? && id in d.w.files && ValidId(id)
    case AfterRemove(id) => d.w.phase.Idle? && id in d.w.files && ValidId(id)
    case AlreadyThere(id) => d.w.phase.Idle? && id in d.w.files && ValidId(id)
  }

  ghost predicate Durable(hash: seq<Byte> -> string, d: Disk) {
    && Sound(hash, d.w) && OwedOk(d)
    && (forall n | n in d.synced :: if ValidId(n) then n in d.w.files else Staging(n))
    && (forall id | id in d.receipts :: id in d.synced && ValidId(id))
  }

  lemma StepDurable(hash: seq<Byte> -> string, d: Disk, e: DiskEvent)
    requires HashNames(hash) && Durable(hash, d) && Can(d, e)
    ensures Durable(hash, Next(hash, d, e))
  {
    match e {
      case Do(e) => DoDurable(hash, d, e);
      case SyncDir => hide ValidId, Staging;
      case PowerLoss(kept) => hide ValidId, Staging;
    }
  }

  lemma DoDurable(hash: seq<Byte> -> string, d: Disk, e: Event)
    requires HashNames(hash) && Durable(hash, d) && Can(d, Do(e))
    ensures Durable(hash, Next(hash, d, Do(e)))
  {
    hide ValidId, Staging, Inventory, Sound;
    StepSound(hash, d.w, e);
    IdsStay(hash, d.w, e);
    if e.Begin? { StoredAlready(hash, d.w, e.bytes, e.staging, e.names); }
    if e.Link? { assert ValidId(hash(d.w.phase.bytes)); }
  }

  /** No step of the archive removes a promoted result. */
  lemma IdsStay(hash: seq<Byte> -> string, w: World, e: Event)
    requires Sound(hash, w) && Possible(w, e)
    ensures forall n | n in w.files && ValidId(n) :: n in After(hash, w, e).files
  {
    hide ValidId, Staging, Inventory, Admit;
    if e.Remove? { StagingIsNoId(w.phase.staging); }
  }

  lemma StoredAlready(hash: seq<Byte> -> string, w: World, bytes: seq<Byte>, staging: string, names: seq<string>)
    requires HashNames(hash) && Possible(w, Begin(bytes, staging, names))
    ensures (forall i | 0 <= i < |names| :: names[i] in w.files) ==>
              Admit(hash, w.files, bytes, staging, names) == Ok(false) ==>
                hash(bytes) in w.files && ValidId(hash(bytes)) && After(hash, w, Begin(bytes, staging, names)) == w
  {
    hide ValidId, Inventory;
  }

  /** Whatever happens, a result with a receipt reads as before. */
  lemma StepKeepsReceipts(hash: seq<Byte> -> string, d: Disk, e: DiskEvent, id: string)
    requires HashNames(hash) && Durable(hash, d) && Can(d, e) && id in d.receipts
    ensures Get(hash, d.w.files, id).Ok? && Get(hash, Next(hash, d, e).w.files, id) == Get(hash, d.w.files, id)
    ensures id in Next(hash, d, e).receipts
  {
    hide ValidId, Staging, Inventory;
    if e.Do? {
      hide After, Possible;
      StepKeepsResults(hash, d.w, e.e, id);
    }
  }

  // ----- over whole runs -----

  function Blank(): Disk {
    Disk(World(map[], Idle), {}, Nothing, {})
  }

  ghost predicate Runs(hash: seq<Byte> -> string, ds: seq<Disk>, es: seq<DiskEvent>) {
    && |ds| == |es| + 1 && ds[0] == Blank()
    && forall i: nat | i < |es| :: Leads(hash, ds, es, i)
  }

  ghost predicate Leads(hash: seq<Byte> -> string, ds: seq<Disk>, es: seq<DiskEvent>, i: nat)
    requires |ds| == |es| + 1 && i < |es|
  {
    Can(ds[i], es[i]) && ds[i + 1] == Next(hash, ds[i], es[i])
  }

  lemma {:induction false} DurableThroughout(hash: seq<Byte> -> string, ds: seq<Disk>, es: seq<DiskEvent>, i: nat)
    requires HashNames(hash) && Runs(hash, ds, es) && i < |ds|
    ensures Durable(hash, ds[i])
    decreases i
  {
    hide Durable, Next, Can, HashNames;
    if i == 0 {
      BlankDurable(hash);
    } else {
      DurableThroughout(hash, ds, es, i - 1);
      assert Leads(hash, ds, es, i - 1);
      StepDurable(hash, ds[i - 1], es[i - 1]);
    }
  }

  lemma BlankDurable(hash: seq<Byte> -> string)
    ensures Durable(hash, Blank())
  {
  }

  /** In every run, with process crashes and power losses anywhere: a result whose put returned a
      receipt is readable ever after, and reads the same. */
  lemma {:induction false} ReceiptsDurable(hash: seq<Byte> -> string, ds: seq<Disk>, es: seq<DiskEvent>, i: nat, k: nat,
                                           id: string)
    requires HashNames(hash) && Runs(hash, ds, es) && i <= k < |ds| && id in ds[i].receipts
    ensures id in ds[k].receipts
    ensures Get(hash, ds[i].w.files, id).Ok? && Get(hash, ds[k].w.files, id) == Get(hash, ds[i].w.files, id)
    decreases k
  {
    hide Durable, Next, Can, HashNames, Get;
    if i < k {
      ReceiptsDurable(hash, ds, es, i, k - 1, id);
      DurableThroughout(hash, ds, es, k - 1);
      assert Leads(hash, ds, es, k - 1);
      StepKeepsReceipts(hash, ds[k - 1], es[k - 1], id);
    } else {
      DurableThroughout(hash, ds, es, i);
      ReceiptReads(hash, ds[i], id);
    }
  }

  lemma ReceiptReads(hash: seq<Byte> -> string, d: Disk, id: string)
    requires Durable(hash, d) && id in d.receipts
    ensures Get(hash, d.w.files, id).Ok?
  {
    hide ValidId, Staging;
  }

  /** A receipt is for the bytes that were put. */
  lemma ReceiptsTrue(hash: seq<Byte> -> string, d: Disk, id: string)
    requires Durable(hash, d) && id in d.receipts
    ensures var r := Get(hash, d.w.files, id); r.Ok? && hash(r.value) == id
  {
    ReceiptReads(hash, d, id);
  }

  // ----- without a receipt -----

  /** A readable result is readable after every power loss exactly when its entry was synced. */
  lemma SafeIffSynced(hash: seq<Byte> -> string, d: Disk, id: string)
    requires Durable(hash, d) && Get(hash, d.w.files, id).Ok?
    ensures (forall kept | Survives(d, kept) :: Get(hash, kept, id).Ok?) <==> id in d.synced
  {
    hide ValidId, Staging, OwedOk;
    var some := map n | n in d.w.files && n in d.synced :: if ValidId(n) then d.w.files[n] else [];
    assert Survives(d, some);
    if id !in d.synced { assert Get(hash, some, id).Err?; }
  }

  lemma Then(hash: seq<Byte> -> string, ds: seq<Disk>, es: seq<DiskEvent>, e: DiskEvent)
    returns (ds': seq<Disk>, es': seq<DiskEvent>)
    requires Runs(hash, ds, es) && Can(ds[|es|], e)
    ensures Runs(hash, ds', es') && ds' == ds + [Next(hash, ds[|es|], e)] && es' == es + [e]
  {
    hide Next, Can;
    ds', es' := ds + [Next(hash, ds[|es|], e)], es + [e];
    forall i: nat | i < |es'| ensures Leads(hash, ds', es', i) {
      if i < |es| { assert Leads(hash, ds, es, i); }
    }
  }

  const BYTES: seq<Byte> := [7]

  /** A put is cut off before its first sync, the result is read, and a power loss takes it away: what
      a reader saw without a receipt is not safe. */
  lemma ReadThenLost(hash: seq<Byte> -> string) returns (ds: seq<Disk>, es: seq<DiskEvent>)
    requires HashNames(hash)
    ensures es == [Do(Begin(BYTES, STAGING, [])), Do(Write(1)), Do(Link), Do(Crash), PowerLoss(map[])]
    ensures Runs(hash, ds, es)
    ensures Get(hash, ds[4].w.files, hash(BYTES)) == Ok(BYTES)
    ensures Get(hash, ds[5].w.files, hash(BYTES)) == Err(Unavailable)
  {
    hide ValidId;
    assert ValidId(hash(BYTES));
    StagingIsNoId(STAGING);
    ds, es := [Blank()], [];
    ds, es := Then(hash, ds, es, Do(Begin(BYTES, STAGING, [])));
    assert ds[1] == Disk(World(map[STAGING := []], Writing(STAGING, BYTES)), {}, Nothing, {});
    ds, es := Then(hash, ds, es, Do(Write(1)));
    assert BYTES[..1] == BYTES;
    assert ds[2] == Disk(World(map[STAGING := BYTES], Promoting(STAGING, BYTES)), {}, Nothing, {});
    ds, es := Then(hash, ds, es, Do(Link));
    assert ds[3].w == World(map[STAGING := BYTES, hash(BYTES) := BYTES], Cleaning(STAGING));
    ds, es := Then(hash, ds, es, Do(Crash));
    ds, es := Then(hash, ds, es, PowerLoss(map[]));
  }
}
