/** The database object and the waiter registry as the service runs them: statements applied one
    by one to a transaction, loops over query results, and one commit. Each method is proved equal
    to the transaction function whose properties the other modules prove. */
module ServiceObjects {
  import opened Wrappers
  import opened Tables
  import opened LeaseAndApprovals
  import opened WorkerEvents
  import opened Waiters

  // ----- a loop that stops early stops where the recursion does -----

  lemma {:induction false} RetireAllStops(t: Tables, ids: seq<string>, n: nat, reason: Reason, who: Option<string>,
                                          now: int)
    requires n <= |ids| && RetireAll(t, ids[..n], reason, who, now).Err?
    ensures RetireAll(t, ids, reason, who, now) == RetireAll(t, ids[..n], reason, who, now)
    decreases |ids|
  {
    hide Retire;
    if n == |ids| { assert ids[..n] == ids; } else {
      assert ids[..|ids| - 1][..n] == ids[..n];
      RetireAllStops(t, ids[..|ids| - 1], n, reason, who, now);
    }
  }

  lemma {:induction false} ExpireAllStops(t: Tables, ids: seq<string>, n: nat, now: int)
    requires n <= |ids| && ExpireAll(t, ids[..n], now).Err?
    ensures ExpireAll(t, ids, now) == ExpireAll(t, ids[..n], now)
    decreases |ids|
  {
    hide Expire;
    if n == |ids| { assert ids[..n] == ids; } else {
      assert ids[..|ids| - 1][..n] == ids[..n];
      ExpireAllStops(t, ids[..|ids| - 1], n, now);
    }
  }

  lemma {:induction false} FailRunsStops(t: Tables, ids: seq<string>, n: nat, now: int)
    requires n <= |ids| && FailRuns(t, ids[..n], now).Err?
    ensures FailRuns(t, ids, now) == FailRuns(t, ids[..n], now)
    decreases |ids|
  {
    hide Retire;
    if n == |ids| { assert ids[..n] == ids; } else {
      assert ids[..|ids| - 1][..n] == ids[..n];
      FailRunsStops(t, ids[..|ids| - 1], n, now);
    }
  }

  lemma {:induction false} ApplyAllStops(hash: string -> string, t: Tables, run: string, es: seq<WorkerEvent>, n: nat,
                                         turn: Turn, now: int)
    requires n <= |es| && ApplyAll(hash, t, run, es[..n], turn, now).Err?
    ensures ApplyAll(hash, t, run, es, turn, now) == ApplyAll(hash, t, run, es[..n], turn, now)
    decreases |es|
  {
    hide ApplyOne;
    if n == |es| { assert es[..n] == es; } else {
      assert es[..|es| - 1][..n] == es[..n];
      ApplyAllStops(hash, t, run, es[..|es| - 1], n, turn, now);
    }
  }

  /** The loop every settling transaction runs. */
  method RetireEach(t: Tables, ids: seq<string>, reason: Reason, who: Option<string>,
                    now: int) returns (r: Result<Tables, DbError>)
    ensures r == RetireAll(t, ids, reason, who, now)
  {
    hide Retire;
    var tx := t;
    for i := 0 to |ids|
      invariant RetireAll(t, ids[..i], reason, who, now) == Ok(tx)
    {
      assert ids[..i + 1][..i] == ids[..i];
      var one := Retire(tx, ids[i], reason, who, now);
      if one.Err? {
        RetireAllStops(t, ids, i + 1, reason, who, now);
        return one;
      }
      tx := one.value;
    }
    assert ids[..|ids|] == ids;
    return Ok(tx);
  }

  method ExpireEach(t: Tables, ids: seq<string>, now: int) returns (r: Result<Tables, DbError>)
    ensures r == ExpireAll(t, ids, now)
  {
    hide Expire;
    var tx := t;
    for i := 0 to |ids|
      invariant ExpireAll(t, ids[..i], now) == Ok(tx)
    {
      assert ids[..i + 1][..i] == ids[..i];
      var one := Expire(tx, ids[i], now);
      if one.Err? {
        ExpireAllStops(t, ids, i + 1, now);
        return Err(one.error);
      }
      tx := one.value.0;
    }
    assert ids[..|ids|] == ids;
    return Ok(tx);
  }

  method FailEach(t: Tables, ids: seq<string>, now: int) returns (r: Result<Tables, DbError>)
    ensures r == FailRuns(t, ids, now)
  {
    hide Retire;
    var tx := t;
    for i := 0 to |ids|
      invariant FailRuns(t, ids[..i], now) == Ok(tx)
    {
      assert ids[..i + 1][..i] == ids[..i];
      var one := Retire(tx, ids[i], ServiceRestart, None, now);
      if one.Err? {
        FailRunsStops(t, ids, i + 1, now);
        return one;
      }
      RetireSome(tx, ids[i], ServiceRestart, None, now);
      tx := SetStatus(one.value, tx.approvals[ids[i]].run, Interrupted);
    }
    assert ids[..|ids|] == ids;
    return Ok(tx);
  }

  lemma RetireSome(t: Tables, id: string, reason: Reason, who: Option<string>, now: int)
    requires Retire(t, id, reason, who, now).Ok?
    ensures id in t.approvals
  {
  }

  class Db {
    const hash: string -> string
    var tables: Tables

    constructor (hash: string -> string, tables: Tables)
      ensures this.hash == hash && this.tables == tables
    {
      this.hash := hash;
      this.tables := tables;
    }

    method TakeoverLease(device: string, activeTurn: bool, run: Option<string>, order: seq<string>, now: int)
      returns (r: Result<LeaseOutcome, DbError>)
      modifies this`tables
      ensures Tx(tables, r) == Takeover(old(tables), device, activeTurn, run, order, now)
    {
      hide RetireAll, LeaseRow;
      var tx := tables;
      var g := tx.lease.generation + 1;
      var state := if activeTurn then LeaseState.Pausing else LeaseState.Human;
      tx := tx.(lease := Lease(g, state, Some(device), false, Some(now), Some(now), now));
      var settled := RetireEach(tx, order, LeaseTakeover, None, now);
      if settled.Err? { return Err(settled.error); }
      var journalled := LeaseRow(settled.value, run, "lease.takeover", g);
      if journalled.Err? { return Err(journalled.error); }
      tables := journalled.value;
      return Ok(LeaseOutcome(order, activeTurn));
    }

    method LeaseRevoke(device: string, expected: nat, run: Option<string>, order: seq<string>, now: int)
      returns (r: Result<LeaseOutcome, DbError>)
      modifies this`tables
      ensures Tx(tables, r) == RevokeLease(old(tables), device, expected, run, order, now)
    {
      var tx := tables.(lease := AutoRelease(tables.lease, now));
      var lease := tx.lease;
      if expected != lease.generation { return Err(StaleLease); }
      var settled := RetireEach(tx, order, LeaseRevoked, None, now);
      if settled.Err? { return Err(settled.error); }
      tx := settled.value.(lease := Unheld(lease.generation + 1, now));
      var journalled := LeaseRow(tx, run, "lease.released", lease.generation + 1);
      if journalled.Err? { return Err(journalled.error); }
      tables := journalled.value;
      return Ok(LeaseOutcome(order, lease.state.Pausing?));
    }

    method DecideApproval(id: string, device: string, approve: bool, seen: nat, token: string,
                          now: int) returns (r: Result<Outcome, DbError>)
      modifies this`tables
      ensures Tx(tables, r) == Decide(hash, old(tables), id, device, approve, seen, token, now)
    {
      hide Expire, Retire, ActionIntact, AddStep, ServiceStep, InsertOrIgnore;
      var expired := Expire(tables, id, now);
      if expired.Err? { return Err(expired.error); }
      var tx := expired.value.0;
      if id !in tx.approvals { return Err(ApprovalNotFound); }
      var a := tx.approvals[id];
      if a.state.Expired? {
        tables := tx;
        return Err(if expired.value.1 then ApprovalExpired else AlreadySettled(ApprovalState.Expired));
      }
      if !a.state.Pending? { return Err(AlreadySettled(a.state)); }
      var intact := ActionIntact(hash, a);
      if intact.None? { return Err(UnparseableAction); }
      if !intact.value {
        var revoked := Retire(tx, id, DigestMismatch, Some(device), now);
        if revoked.Err? { return Err(revoked.error); }
        tables := revoked.value;
        return Err(DigestChanged);
      }
      if seen != tx.lease.generation || a.leaseGeneration != tx.lease.generation { return Err(StaleLease); }
      if a.grant != tx.grant { return Err(StaleGrant); }
      if a.run !in tx.runs { return Err(RunNotFound); }
      if !(tx.runs[a.run].status in {WaitingApproval, Interrupted}) { return Err(RunNotWaiting); }
      var b := Ruled(hash, a, device, approve, token, now);
      var waiting := tx.runs[a.run].status.WaitingApproval?;
      tx := PutApproval(tx, id, b);
      if waiting { tx := SetStatus(tx, a.run, Running); }
      tx := AddApprovalRow(tx, a.run, id, "approval.settled");
      if b.state.Denied? { tx := AddServiceStep(tx, id, b, StepDenied); }
      tables := tx;
      return Ok(if approve then WasApproved(token) else WasDenied);
    }

    method SweepExpired(order: seq<string>, now: int) returns (r: Result<seq<string>, DbError>)
      modifies this`tables
      ensures Tx(tables, r) == Sweep(old(tables), order, now)
    {
      var swept := ExpireEach(tables, order, now);
      if swept.Err? { return Err(swept.error); }
      tables := swept.value;
      return Ok(order);
    }

    method RecoverOnStartup(p: RecoveryPlan, now: int) returns (r: Result<Recovery, DbError>)
      modifies this`tables
      ensures Tx(tables, r) == Recover(old(tables), p, now)
    {
      hide RetireAll, ExpireAll, FailRuns, Retire, Expire;
      var generation := tables.lease.generation + 1;
      var tx := tables.(lease := Unheld(generation, now));
      var orphaned := RetireEach(tx, p.orphaned, ServiceRestart, None, now);
      if orphaned.Err? { return Err(orphaned.error); }
      var due := ExpireEach(orphaned.value, p.due, now);
      if due.Err? { return Err(due.error); }
      var survivors := FailEach(due.value, p.survivors, now);
      if survivors.Err? { return Err(survivors.error); }
      tables := survivors.value;
      return Ok(Recovery(|p.orphaned| + |p.survivors|, |p.due|, generation));
    }

    method RevokeAndSettle(device: string, order: seq<string>, now: int) returns (r: Result<DeviceRevocation, DbError>)
      modifies this`tables
      ensures Tx(tables, r) == RevokeDevice(old(tables), device, order, now)
    {
      if device !in tables.devices { return Err(UnknownDevice); }
      var killed := tables.lease.holder == Some(device);
      var settled := RetireEach(tables.(grant := tables.grant + 1), order, DeviceRevoked, None, now);
      if settled.Err? { return Err(settled.error); }
      tables := if killed then Released(settled.value, now) else settled.value;
      return Ok(DeviceRevocation(order, killed));
    }

    method ApplyWorkerEvents(run: string, generation: nat, es: seq<WorkerEvent>, turn: Turn,
                             now: int) returns (r: Result<Batch, DbError>)
      modifies this`tables
      ensures Tx(tables, r) == ApplyBatch(hash, old(tables), run, generation, es, turn, now)
    {
      hide Apply, SeqOf;
      if run !in tables.runs { return Err(RunNotFound); }
      if tables.runs[run].generation != generation { return Err(StaleGeneration); }
      if !Accepting(tables, run, es) { return Err(RunNotActive); }
      var tx := tables;
      var stored: seq<Stored> := [];
      var terminal := false;
      for i := 0 to |es|
        invariant tables == old(tables)
        invariant ApplyAll(hash, tables, run, es[..i], turn, now) == Ok((tx, Batch(stored, terminal)))
      {
        assert es[..i + 1][..i] == es[..i];
        var known := SeqOf(tx.events, run, Source(es[i]));
        if known != 0 {
          stored := stored + [Stored(es[i].id, known, true)];
          continue;
        }
        if exists k | 0 <= k < |tx.events| :: tx.events[k].id == run + ":" + es[i].id {
          ApplyAllStops(hash, tables, run, es, i + 1, turn, now);
          return Err(DuplicateRow);
        }
        tx := tx.(events := tx.events + [RowOf(run, es[i])]);
        var seqno := |tx.events|;
        var projected := Apply(hash, tx, run, es[i].body, turn, now);
        if projected.Err? {
          ApplyAllStops(hash, tables, run, es, i + 1, turn, now);
          return Err(projected.error);
        }
        tx := projected.value;
        if es[i].body.RunTerminated? { terminal := true; }
        stored := stored + [Stored(es[i].id, seqno, false)];
      }
      assert es[..|es|] == es;
      tables := tx;
      return Ok(Batch(stored, terminal));
    }
  }

  /** The registry of blocked workers. */
  class PendingApprovals {
    var waiting: set<string>
    var received: seq<Signal>

    function Contents(): Registry
      reads this
    {
      Registry(waiting, received)
    }

    constructor ()
      ensures Contents() == Registry({}, [])
    {
      waiting := {};
      received := [];
    }

    method Register(id: string)
      modifies this`waiting
      ensures waiting == old(waiting) + {id}
    {
      waiting := waiting + {id};
    }

    method Unregister(id: string)
      modifies this`waiting
      ensures waiting == old(waiting) - {id}
    {
      waiting := waiting - {id};
    }

    method Resolve(id: string, outcome: Outcome) returns (told: bool)
      modifies this
      ensures Contents() == Resolved(old(Contents()), Signal(id, outcome))
      ensures told <==> id in old(waiting)
    {
      told := id in waiting;
      if told {
        waiting := waiting - {id};
        received := received + [Signal(id, outcome)];
      }
    }
  }

  /** Hand over a list of outcomes one after the other. */
  function ResolvedAll(g: Registry, ss: seq<Signal>): Registry {
    if ss == [] then g else Resolved(ResolvedAll(g, ss[..|ss| - 1]), ss[|ss| - 1])
  }

  /** `sweep_once`: expire what is due, wake the waiters, then maintain the lease. */
  method SweepOnce(db: Db, pending: PendingApprovals, order: seq<string>,
                   now: int) returns (r: Result<seq<string>, DbError>)
    modifies db`tables, pending
    ensures r == Sweep(old(db.tables), order, now).result
    ensures r.Ok? ==> db.tables == LeaseMaintenance(Sweep(old(db.tables), order, now).tables, now).tables
    ensures r.Ok? ==> pending.Contents() == ResolvedAll(old(pending.Contents()), Tell(r.value, WasExpired))
    ensures r.Err? ==> db.tables == old(db.tables) && pending.Contents() == old(pending.Contents())
  {
    hide Sweep, LeaseMaintenance, Resolved;
    SweepRollsBack(db.tables, order, now);
    r := db.SweepExpired(order, now);
    if r.Err? { return; }
    var ids := r.value;
    for i := 0 to |ids|
      invariant db.tables == Sweep(old(db.tables), order, now).tables
      invariant pending.Contents() == ResolvedAll(old(pending.Contents()), Tell(ids, WasExpired)[..i])
    {
      ghost var told := Tell(ids, WasExpired);
      assert told[..i + 1][..i] == told[..i] && told[..i + 1][i] == Signal(ids[i], WasExpired);
      var _ := pending.Resolve(ids[i], WasExpired);
    }
    assert Tell(ids, WasExpired)[..|ids|] == Tell(ids, WasExpired);
    db.tables := LeaseMaintenance(db.tables, now).tables;
  }

  lemma SweepRollsBack(t: Tables, order: seq<string>, now: int)
    ensures Sweep(t, order, now).result.Err? ==> Sweep(t, order, now).tables == t
  {
    hide ExpireAll;
  }
}
