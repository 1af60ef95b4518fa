/** Every transaction keeps the invariant and undoes nothing. */
module DbTransactions {
  import opened Wrappers
  import opened Tables
  import opened LeaseAndApprovals
  import opened DbInvariant
  import opened DbStatements
  import Text

  lemma KeepsRefl(hash: string -> string, t: Tables)
    requires Inv(hash, t)
    ensures Keeps(hash, t, t)
  {
    hide Inv;
    EvolvesRefl(t);
  }

  lemma KeepsTrans(hash: string -> string, t: Tables, u: Tables, v: Tables)
    requires Keeps(hash, t, u) && Keeps(hash, u, v)
    ensures Keeps(hash, t, v)
  {
    hide Inv, Evolves;
    EvolvesTrans(t, u, v);
  }

  lemma RowFacts(hash: string -> string, t: Tables, id: string)
    requires Inv(hash, t) && id in t.approvals
    ensures RowOk(t, t.approvals[id]) && StoredCanonically(hash, t.approvals[id]) && LeaseOk(t.lease)
    ensures t.approvals[id].state.Pending? ==>
              forall other | other in PendingIds(t) && t.approvals[other].run == t.approvals[id].run :: other == id
  {
    hide RowOk, StoredCanonically;
    if t.approvals[id].state.Pending? { assert id in PendingIds(t); }
  }

  // ----- retiring and expiring -----

  lemma RetireKeeps(hash: string -> string, t: Tables, id: string, reason: Reason, who: Option<string>, now: int)
    requires Inv(hash, t) && Retire(t, id, reason, who, now).Ok?
    ensures Keeps(hash, t, Retire(t, id, reason, who, now).value)
  {
    hide Inv, Keeps, AddStep, ServiceStep, InsertOrIgnore, StoredCanonically, RowOk, RowEvolves, NeverRuns,
         ReasonAllowed;
    RowFacts(hash, t, id);
    var a := t.approvals[id];
    var b := a.(state := Revoked, reason := Some(reason), decidedBy := who, decidedAt := Some(now));
    PendingRowRevoked(t, a, b);
    RowRetired(hash, t, id, b, StepCancelled);
    var u := AddServiceStep(PutApproval(t, id, b), id, a, StepCancelled);
    KeepsInv(hash, t, u);
    RowAdded(hash, u, id + ":approval.revoked", a.run, "approval.revoked");
    assert id + ":" + "approval.revoked" == id + ":approval.revoked";
    KeepsTrans(hash, t, u, AddRow(u, id + ":approval.revoked", a.run, "approval.revoked"));
  }

  lemma PendingRowRevoked(t: Tables, a: Approval, b: Approval)
    requires RowOk(t, a) && a.state.Pending?
    requires b == a.(state := Revoked, reason := b.reason, decidedBy := b.decidedBy, decidedAt := b.decidedAt)
    ensures RowEvolves(a, b) && RowOk(t, b) && NeverRuns(b) && !NeverRuns(a)
  {
  }

  lemma KeepsInv(hash: string -> string, t: Tables, u: Tables)
    requires Keeps(hash, t, u)
    ensures Inv(hash, u) && Evolves(t, u)
  {
    hide Inv, Evolves;
  }

  /** What retiring does to the approvals and what it leaves alone. */
  lemma RetireEffect(t: Tables, id: string, reason: Reason, who: Option<string>, now: int)
    requires Retire(t, id, reason, who, now).Ok?
    ensures var u := Retire(t, id, reason, who, now).value;
            && PendingIds(u) == PendingIds(t) - {id} && u.approvals.Keys == t.approvals.Keys
            && (forall x | x in t.approvals && x != id :: u.approvals[x] == t.approvals[x])
            && u.approvals[id].state.Revoked? && u.approvals[id].run == t.approvals[id].run
            && u.lease == t.lease && u.grant == t.grant && u.runs == t.runs && u.devices == t.devices
  {
    hide AddStep, ServiceStep, InsertOrIgnore;
  }

  lemma {:induction false} RetireAllKeeps(hash: string -> string, t: Tables, ids: seq<string>, reason: Reason,
                                          who: Option<string>, now: int)
    requires Inv(hash, t) && RetireAll(t, ids, reason, who, now).Ok?
    ensures Keeps(hash, t, RetireAll(t, ids, reason, who, now).value)
    decreases |ids|
  {
    hide Inv, Keeps, Retire;
    if ids == [] {
      KeepsRefl(hash, t);
    } else {
      var init, last := ids[..|ids| - 1], ids[|ids| - 1];
      RetireAllKeeps(hash, t, init, reason, who, now);
      var m := RetireAll(t, init, reason, who, now).value;
      KeepsInv(hash, t, m);
      RetireKeeps(hash, m, last, reason, who, now);
      KeepsTrans(hash, t, m, RetireAll(t, ids, reason, who, now).value);
    }
  }

  function IdSet(ids: seq<string>): set<string> {
    set x | x in ids
  }

  /** The rows `s` were pending and are revoked; nothing else about approvals changes. */
  ghost predicate RowsRetired(t: Tables, u: Tables, s: set<string>) {
    && s <= PendingIds(t) && PendingIds(u) == PendingIds(t) - s && u.approvals.Keys == t.approvals.Keys
    && (forall x | x in t.approvals && x !in s :: u.approvals[x] == t.approvals[x])
    && (forall x | x in s ::
         x in t.approvals && u.approvals[x].state.Revoked? && u.approvals[x].run == t.approvals[x].run)
    && u.lease == t.lease && u.grant == t.grant && u.runs == t.runs && u.devices == t.devices
  }

  lemma RetireOneMore(t: Tables, m: Tables, s: set<string>, id: string, reason: Reason, who: Option<string>, now: int)
    requires RowsRetired(t, m, s) && Retire(m, id, reason, who, now).Ok?
    ensures RowsRetired(t, Retire(m, id, reason, who, now).value, s + {id})
  {
    hide Retire, PendingIds, ReasonAllowed;
    RetireEffect(m, id, reason, who, now);
    RetireOk(m, id, reason, who, now);
    PendingInTable(m);
  }

  lemma {:induction false} RetireAllRetires(t: Tables, ids: seq<string>, reason: Reason, who: Option<string>, now: int)
    requires RetireAll(t, ids, reason, who, now).Ok?
    ensures RowsRetired(t, RetireAll(t, ids, reason, who, now).value, IdSet(ids))
    decreases |ids|
  {
    hide Retire, RowsRetired;
    if ids == [] {
      assert IdSet(ids) == {};
      NoneRetired(t);
    } else {
      var init, last := ids[..|ids| - 1], ids[|ids| - 1];
      RetireAllRetires(t, init, reason, who, now);
      RetireOneMore(t, RetireAll(t, init, reason, who, now).value, IdSet(init), last, reason, who, now);
      assert ids == init + [last];
      assert IdSet(ids) == IdSet(init) + {last};
    }
  }

  lemma NoneRetired(t: Tables)
    ensures RowsRetired(t, t, {})
  {
  }

  lemma RetireAllEffect(t: Tables, ids: seq<string>, reason: Reason, who: Option<string>, now: int)
    requires RetireAll(t, ids, reason, who, now).Ok?
    ensures var u := RetireAll(t, ids, reason, who, now).value;
            && IdSet(ids) <= PendingIds(t) && PendingIds(u) == PendingIds(t) - IdSet(ids)
            && u.approvals.Keys == t.approvals.Keys
            && (forall x | x in t.approvals && x !in ids :: u.approvals[x] == t.approvals[x])
            && (forall x | x in ids ::
                 x in t.approvals && u.approvals[x].state.Revoked? && u.approvals[x].run == t.approvals[x].run)
            && u.lease == t.lease && u.grant == t.grant && u.runs == t.runs && u.devices == t.devices
  {
    hide RetireAll, PendingIds;
    RetireAllRetires(t, ids, reason, who, now);
    assert forall x :: x in ids <==> x in IdSet(ids);
  }

  lemma PendingInTable(t: Tables)
    ensures PendingIds(t) <= t.approvals.Keys
  {
  }

  lemma RetireOk(t: Tables, id: string, reason: Reason, who: Option<string>, now: int)
    ensures Retire(t, id, reason, who, now).Ok? <==>
              id in PendingIds(t) && ReasonAllowed(reason) && t.approvals[id].run in t.runs
  {
  }

  lemma ExpireKeeps(hash: string -> string, t: Tables, id: string, now: int)
    requires Inv(hash, t)
    ensures Expire(t, id, now).Ok? && Keeps(hash, t, Expire(t, id, now).value.0)
  {
    hide Inv, Keeps, AddStep, StoredCanonically;
    if id !in t.approvals || !Due(t.approvals[id], now) {
      KeepsRefl(hash, t);
    } else {
      RowFacts(hash, t, id);
      var a := t.approvals[id];
      var b := a.(state := Expired);
      RowRetired(hash, t, id, b, StepCancelled);
      var u := AddServiceStep(PutApproval(t, id, b), id, a, StepCancelled);
      KeepsInv(hash, t, u);
      var name := "approval.request_timed_out";
      RowAdded(hash, u, id + ":" + name, a.run, name);
      var v := AddRow(u, id + ":" + name, a.run, name);
      KeepsTrans(hash, t, u, v);
      KeepsInv(hash, t, v);
      StatusSet(hash, v, a.run, Interrupted);
      KeepsTrans(hash, t, v, SetStatus(v, a.run, Interrupted));
    }
  }

  lemma ExpireEffect(t: Tables, id: string, now: int)
    requires Expire(t, id, now).Ok?
    ensures var r := Expire(t, id, now).value; var u := r.0;
            && (r.1 <==> id in DueIds(t, now))
            && (!r.1 ==> u == t)
            && PendingIds(u) == PendingIds(t) - (if r.1 then {id} else {}) && u.approvals.Keys == t.approvals.Keys
            && (forall x | x in t.approvals && x != id :: u.approvals[x] == t.approvals[x])
            && (r.1 ==> u.approvals[id] == t.approvals[id].(state := Expired))
            && (r.1 ==> u.runs[t.approvals[id].run].status.Interrupted?)
            && (forall x | x in t.runs && (r.1 ==> x != t.approvals[id].run) :: x in u.runs && u.runs[x] == t.runs[x])
            && u.runs.Keys == t.runs.Keys
            && u.lease == t.lease && u.grant == t.grant && u.devices == t.devices
  {
    hide AddStep, ServiceStep, InsertOrIgnore;
  }

  lemma {:induction false} ExpireAllKeeps(hash: string -> string, t: Tables, ids: seq<string>, now: int)
    requires Inv(hash, t)
    ensures ExpireAll(t, ids, now).Ok? && Keeps(hash, t, ExpireAll(t, ids, now).value)
    decreases |ids|
  {
    hide Inv, Keeps, Expire;
    if ids == [] {
      KeepsRefl(hash, t);
    } else {
      var init := ids[..|ids| - 1];
      ExpireAllKeeps(hash, t, init, now);
      var m := ExpireAll(t, init, now).value;
      KeepsInv(hash, t, m);
      ExpireKeeps(hash, m, ids[|ids| - 1], now);
      KeepsTrans(hash, t, m, ExpireAll(t, ids, now).value);
    }
  }

  // ----- the lease -----

  lemma LeaseRowKeeps(hash: string -> string, t: Tables, run: Option<string>, name: string, generation: nat)
    requires Inv(hash, t) && LeaseRow(t, run, name, generation).Ok?
    ensures Keeps(hash, t, LeaseRow(t, run, name, generation).value)
  {
    hide Inv, Keeps;
    if run.None? { KeepsRefl(hash, t); } else {
      RowAdded(hash, t, run.value + ":" + name + ":" + Text.Decimal(generation), run.value, name);
    }
  }

  /** Set the lease, then journal the transition. */
  lemma LeaseStepKeeps(hash: string -> string, t: Tables, l: Lease, run: Option<string>, name: string, generation: nat)
    requires Inv(hash, t) && LeaseOk(l) && LeaseEvolves(t.lease, l)
    requires LeaseRow(t.(lease := l), run, name, generation).Ok?
    ensures Keeps(hash, t, LeaseRow(t.(lease := l), run, name, generation).value)
  {
    hide Inv, Keeps;
    LeaseSet(hash, t, l);
    KeepsInv(hash, t, t.(lease := l));
    LeaseRowKeeps(hash, t.(lease := l), run, name, generation);
    KeepsTrans(hash, t, t.(lease := l), LeaseRow(t.(lease := l), run, name, generation).value);
  }

  lemma AutoReleaseOk(l: Lease, now: int)
    requires LeaseOk(l)
    ensures LeaseOk(AutoRelease(l, now)) && LeaseEvolves(l, AutoRelease(l, now))
  {
  }

  lemma MaintenanceKeeps(hash: string -> string, t: Tables, now: int)
    requires Inv(hash, t)
    ensures Keeps(hash, t, LeaseMaintenance(t, now).tables)
  {
    hide Keeps;
    AutoReleaseOk(t.lease, now);
    LeaseSet(hash, t, AutoRelease(t.lease, now));
  }

  lemma TakeoverKeeps(hash: string -> string, t: Tables, device: string, active: bool, run: Option<string>,
                      order: seq<string>, now: int)
    requires Inv(hash, t)
    ensures Keeps(hash, t, Takeover(t, device, active, run, order, now).tables)
  {
    hide Inv, Keeps, RetireAll, LeaseRow;
    KeepsRefl(hash, t);
    var g := t.lease.generation + 1;
    var l := Lease(g, if active then LeaseState.Pausing else LeaseState.Human, Some(device), false, Some(now),
                   Some(now), now);
    var t1 := t.(lease := l);
    LeaseSet(hash, t, l);
    KeepsInv(hash, t, t1);
    if RetireAll(t1, order, LeaseTakeover, None, now).Ok? {
      RetireAllKeeps(hash, t1, order, LeaseTakeover, None, now);
      var t2 := RetireAll(t1, order, LeaseTakeover, None, now).value;
      KeepsTrans(hash, t, t1, t2);
      KeepsInv(hash, t, t2);
      if LeaseRow(t2, run, "lease.takeover", g).Ok? {
        LeaseRowKeeps(hash, t2, run, "lease.takeover", g);
        KeepsTrans(hash, t, t2, LeaseRow(t2, run, "lease.takeover", g).value);
      }
    }
  }

  lemma MovedOk(m: HolderMove, l: Lease, now: int)
    requires LeaseOk(l) && MoveAllowed(m, l)
    ensures LeaseOk(Moved(m, l, now)) && LeaseEvolves(l, Moved(m, l, now))
  {
  }

  lemma HoldKeeps(hash: string -> string, t: Tables, m: HolderMove, device: string, expected: nat, run: Option<string>,
                  now: int)
    requires Inv(hash, t)
    ensures Keeps(hash, t, Hold(t, m, device, expected, run, now).tables)
  {
    hide Inv, Keeps, LeaseRow, AutoRelease, Moved, MoveAllowed;
    KeepsRefl(hash, t);
    QuietPieces(hash, t);
    var l := AutoRelease(t.lease, now);
    AutoReleaseOk(t.lease, now);
    if Hold(t, m, device, expected, run, now).result.Ok? {
      MovedOk(m, l, now);
      var l' := Moved(m, l, now);
      if m.Heartbeat? { LeaseSet(hash, t, l'); } else { LeaseStepKeeps(hash, t, l', run, MoveName(m), l'.generation); }
    }
  }

  lemma RevokeLeaseKeeps(hash: string -> string, t: Tables, device: string, expected: nat, run: Option<string>,
                         order: seq<string>, now: int)
    requires Inv(hash, t)
    ensures Keeps(hash, t, RevokeLease(t, device, expected, run, order, now).tables)
  {
    hide Inv, Keeps, LeaseRow, AutoRelease, RetireAll;
    KeepsRefl(hash, t);
    QuietPieces(hash, t);
    var l := AutoRelease(t.lease, now);
    AutoReleaseOk(t.lease, now);
    var t0 := t.(lease := l);
    if RetireAll(t0, order, LeaseRevoked, None, now).Ok? {
      LeaseSet(hash, t, l);
      KeepsInv(hash, t, t0);
      RetireAllKeeps(hash, t0, order, LeaseRevoked, None, now);
      RetireAllEffect(t0, order, LeaseRevoked, None, now);
      var t1 := RetireAll(t0, order, LeaseRevoked, None, now).value;
      KeepsTrans(hash, t, t0, t1);
      KeepsInv(hash, t, t1);
      var l' := Unheld(l.generation + 1, now);
      if LeaseRow(t1.(lease := l'), run, "lease.released", l.generation + 1).Ok? {
        LeaseStepKeeps(hash, t1, l', run, "lease.released", l.generation + 1);
        KeepsTrans(hash, t, t1, LeaseRow(t1.(lease := l'), run, "lease.released", l.generation + 1).value);
      }
    }
  }

  lemma ObservedKeeps(hash: string -> string, t: Tables, run: string, now: int)
    requires Inv(hash, t) && NoteObserved(t, run, now).Ok?
    ensures Keeps(hash, t, NoteObserved(t, run, now).value)
  {
    hide Inv, Keeps, LeaseRow, AutoRelease;
    QuietPieces(hash, t);
    var l := AutoRelease(t.lease, now);
    AutoReleaseOk(t.lease, now);
    var g := l.generation + 1;
    var t1 := LeaseRow(t.(lease := Unheld(g, now)), Some(run), "lease.observed", g).value;
    LeaseStepKeeps(hash, t, Unheld(g, now), Some(run), "lease.observed", g);
    KeepsInv(hash, t, t1);
    LeaseRowKeeps(hash, t1, Some(run), "lease.resumed", g);
    KeepsTrans(hash, t, t1, NoteObserved(t, run, now).value);
  }
}
