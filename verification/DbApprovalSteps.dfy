/** The approval transactions, restart recovery and device revocation keep the invariant. */
module DbApprovalSteps {
  import opened Wrappers
  import opened Tables
  import opened LeaseAndApprovals
  import opened WorkerEvents
  import opened DbInvariant
  import opened DbStatements
  import opened DbTransactions
  import Json = CanonicalJson
  import JsonProofs = CanonicalJsonProofs

  // ----- proposing -----

  /** A fresh pending row on a running run, which then waits for it. */
  lemma RowProposed(hash: string -> string, t: Tables, id: string, a: Approval)
    requires Inv(hash, t) && id !in t.approvals && a.run in t.runs && t.runs[a.run].status.Running?
    requires a.state.Pending? && a.ticketHash.None? && a.consumedAt.None? && a.decidedAt.None?
    requires a.grant == t.grant && a.leaseGeneration == t.lease.generation && StoredCanonically(hash, a)
    requires NoPendingFor(t, a.run)
    ensures Keeps(hash, t, SetStatus(PutApproval(t, id, a), a.run, WaitingApproval))
  {
    hide RowsOk, OnePending, StepsEvolve, RowEvolves, ProjectedUnlessClaimed, Gated, JournaledFor, Numbered;
    var u := SetStatus(PutApproval(t, id, a), a.run, WaitingApproval);
    EvolvesRefl(t);
    ProposedRows(hash, t, id, a);
    ProposedProjection(t, u, id, a);
    forall run: string ensures StepsOf(u, run) == StepsOf(t, run) {}
    forall run: string ensures JournaledFor(u, run) { assert JournaledFor(t, run); QuietJournal(t, u, run); }
    assert AllStepsEvolve(t, u) by {
      forall run: string ensures StepsEvolve(StepsOf(t, run), StepsOf(u, run)) {
        assert StepsEvolve(StepsOf(t, run), StepsOf(t, run));
      }
    }
  }

  lemma ProposedRows(hash: string -> string, t: Tables, id: string, a: Approval)
    requires RowsOk(hash, t) && OnePending(t) && id !in t.approvals && a.run in t.runs && NoPendingFor(t, a.run)
    requires a.state.Pending? && a.ticketHash.None? && a.consumedAt.None? && a.decidedAt.None?
    requires a.grant == t.grant && a.leaseGeneration == t.lease.generation && StoredCanonically(hash, a)
    ensures var u := SetStatus(PutApproval(t, id, a), a.run, WaitingApproval);
            RowsOk(hash, u) && OnePending(u) && RowsEvolve(t, u)
  {
    hide StoredCanonically;
    var u := SetStatus(PutApproval(t, id, a), a.run, WaitingApproval);
    assert PendingIds(u) == PendingIds(t) + {id};
    forall x | x in u.approvals ensures RowOk(u, u.approvals[x]) && StoredCanonically(hash, u.approvals[x]) {
      if x != id { assert RowOk(t, t.approvals[x]); }
    }
  }

  lemma ProposedProjection(t: Tables, u: Tables, id: string, a: Approval)
    requires ProjectedUnlessClaimed(t) && Gated(t) && id !in t.approvals && a.state.Pending?
    requires u.approvals == t.approvals[id := a] && u.steps == t.steps && u.events == t.events
    ensures ProjectedUnlessClaimed(u) && Gated(u)
  {
    forall run: string ensures StepsOf(u, run) == StepsOf(t, run) {}
    forall run: string, x: string ensures Unspoiled(u, run, x) { assert Unspoiled(t, run, x); }
    forall run: string, i | 0 <= i < |StepsOf(u, run)| ensures GatedStep(u, StepsOf(u, run)[i]) {
      assert GatedStep(t, StepsOf(t, run)[i]);
    }
  }

  lemma QuietJournal(t: Tables, u: Tables, run: string)
    requires JournaledFor(t, run) && u.events == t.events && AnswerText(u, run) == AnswerText(t, run)
    ensures JournaledFor(u, run)
  {
  }

  lemma ProposeKeeps(hash: string -> string, t: Tables, id: string, run: string, generation: nat,
                     action: Json.Json, description: string, ttl: int, now: int)
    requires Inv(hash, t)
    ensures Keeps(hash, t, Propose(hash, t, id, run, generation, action, description, ttl, now).tables)
  {
    hide Inv, Keeps, Json.Canonical, Json.WellFormed;
    KeepsRefl(hash, t);
    if Propose(hash, t, id, run, generation, action, description, ttl, now).result.Ok? {
      var text := Json.Canonical(action);
      var a := Approval(run, hash(text), text, description, t.grant, t.lease.generation, now + ttl, now,
                        Pending, None, None, None, None, None);
      RowProposed(hash, t, id, a);
      var u := SetStatus(PutApproval(t, id, a), run, WaitingApproval);
      KeepsInv(hash, t, u);
      RowAdded(hash, u, id + ":" + "approval.requested", run, "approval.requested");
      KeepsTrans(hash, t, u, AddApprovalRow(u, run, id, "approval.requested"));
    }
  }

  // ----- deciding -----

  /** An approval stored by the service always reads back with its digest. */
  lemma StoredActionIntact(hash: string -> string, a: Approval)
    requires StoredCanonically(hash, a)
    ensures ActionIntact(hash, a) == Some(true)
  {
    var v :| Json.WellFormed(v) && a.actionJson == Json.Canonical(v);
    JsonProofs.CanonicalParses(v);
    JsonProofs.CanonicalOfNorm(v);
  }

  lemma OthersNotPending(hash: string -> string, t: Tables, id: string)
    requires Inv(hash, t) && id in t.approvals && t.approvals[id].state.Pending?
    ensures forall b: Approval | !b.state.Pending? && b.run == t.approvals[id].run ::
              NoPendingFor(PutApproval(t, id, b), b.run)
  {
    hide RowOk, StoredCanonically;
    assert id in PendingIds(t);
    forall x | x in t.approvals && x != id && t.approvals[x].run == t.approvals[id].run
      ensures !t.approvals[x].state.Pending?
    {
      assert x in PendingIds(t) <==> t.approvals[x].state.Pending?;
    }
  }

  /** Approving: the row gets its ticket hash and the run resumes. */
  lemma ApproveKeeps(hash: string -> string, t: Tables, id: string, b: Approval)
    requires Inv(hash, t) && id in t.approvals && t.approvals[id].state.Pending?
    requires RowEvolves(t.approvals[id], b) && RowOk(t, b) && b.run in t.runs && b.state.Approved?
    ensures Keeps(hash, t, Conclude(t, id, b))
  {
    hide Inv, Keeps, RowOk;
    var v := PutApproval(t, id, b);
    RowMoved(hash, t, id, b);
    KeepsInv(hash, t, v);
    OthersNotPending(hash, t, id);
    ResumeAndJournal(hash, t, v, b.run, t.runs[b.run].status.WaitingApproval?, id);
  }

  lemma ResumeAndJournal(hash: string -> string, t: Tables, v: Tables, run: string, resume: bool, id: string)
    requires Keeps(hash, t, v) && NoPendingFor(v, run)
    ensures Keeps(hash, t,
                  AddApprovalRow(if resume then SetStatus(v, run, Running) else v, run, id, "approval.settled"))
  {
    hide Inv, Keeps;
    KeepsInv(hash, t, v);
    KeepsRefl(hash, v);
    if resume { StatusSet(hash, v, run, Running); }
    var u := if resume then SetStatus(v, run, Running) else v;
    KeepsInv(hash, v, u);
    KeepsTrans(hash, t, v, u);
    RowAdded(hash, u, id + ":" + "approval.settled", run, "approval.settled");
    KeepsTrans(hash, t, u, AddApprovalRow(u, run, id, "approval.settled"));
  }

  lemma SameServiceStep(id: string, a: Approval, b: Approval)
    requires SameProposal(a, b)
    ensures forall state :: ServiceStep(id, b, state) == ServiceStep(id, a, state)
  {
  }

  lemma DenyKeeps(hash: string -> string, t: Tables, id: string, b: Approval)
    requires Inv(hash, t) && id in t.approvals && t.approvals[id].state.Pending?
    requires RowEvolves(t.approvals[id], b) && RowOk(t, b) && b.run in t.runs && b.state.Denied?
    ensures Keeps(hash, t, Conclude(t, id, b))
  {
    hide Inv, Keeps, RowOk, AddStep, ServiceStep, InsertOrIgnore;
    var a := t.approvals[id];
    RowRetired(hash, t, id, b, StepDenied);
    var v := AddServiceStep(PutApproval(t, id, b), id, a, StepDenied);
    assert ServiceStep(id, b, StepDenied) == ServiceStep(id, a, StepDenied) by { SameServiceStep(id, a, b); }
    KeepsInv(hash, t, v);
    OthersNotPending(hash, t, id);
    assert NoPendingFor(v, b.run) by { assert NoPendingFor(PutApproval(t, id, b), b.run); }
    ResumeAndJournal(hash, t, v, b.run, t.runs[b.run].status.WaitingApproval?, id);
  }

  lemma DecideKeeps(hash: string -> string, t: Tables, id: string, device: string, approve: bool, seen: nat,
                    token: string, now: int)
    requires Inv(hash, t)
    ensures Keeps(hash, t, Decide(hash, t, id, device, approve, seen, token, now).tables)
    ensures var r := Decide(hash, t, id, device, approve, seen, token, now).result;
            r.Err? ==> !r.error.DigestChanged? && !r.error.UnparseableAction? && !r.error.StaleGrant?
  {
    hide Inv, Keeps, Conclude, StoredCanonically, ActionIntact, Retire;
    KeepsRefl(hash, t);
    ExpireKeeps(hash, t, id, now);
    var t1 := Expire(t, id, now).value.0;
    KeepsInv(hash, t, t1);
    if id in t1.approvals && t1.approvals[id].state.Pending? {
      var a := t1.approvals[id];
      RowFacts(hash, t1, id);
      StoredActionIntact(hash, a);
      if Decide(hash, t, id, device, approve, seen, token, now).result.Ok? {
        var b := Ruled(hash, a, device, approve, token, now);
        assert !Due(a, now) by { NoLongerDue(t, id, now); }
        if approve { ApproveKeeps(hash, t1, id, b); } else { DenyKeeps(hash, t1, id, b); }
        KeepsTrans(hash, t, t1, Conclude(t1, id, b));
      }
    }
  }

  lemma NoLongerDue(t: Tables, id: string, now: int)
    requires Expire(t, id, now).Ok?
    ensures id !in DueIds(Expire(t, id, now).value.0, now)
  {
  }

  // ----- revoking one approval, reading, sweeping, redeeming -----

  lemma RevokeApprovalKeeps(hash: string -> string, t: Tables, id: string, device: string, now: int)
    requires Inv(hash, t)
    ensures Keeps(hash, t, RevokeApproval(t, id, device, now).tables)
  {
    hide Inv, Keeps, AddStep, ServiceStep, InsertOrIgnore, StoredCanonically;
    KeepsRefl(hash, t);
    ExpireKeeps(hash, t, id, now);
    var t1 := Expire(t, id, now).value.0;
    KeepsInv(hash, t, t1);
    if RevokeApproval(t, id, device, now).result.Ok? {
      var a := t1.approvals[id];
      RowFacts(hash, t1, id);
      var b := a.(state := Revoked, reason := Some(UserRevoked), decidedBy := Some(device), decidedAt := Some(now));
      var v := if a.consumedAt.Some? then PutApproval(t1, id, b)
          else AddServiceStep(PutApproval(t1, id, b), id, a, StepCancelled);
      if a.consumedAt.Some? { RowMoved(hash, t1, id, b); } else { RowRetired(hash, t1, id, b, StepCancelled); }
      KeepsInv(hash, t1, v);
      RowAdded(hash, v, id + ":" + "approval.revoked", a.run, "approval.revoked");
      KeepsTrans(hash, t1, v, AddApprovalRow(v, a.run, id, "approval.revoked"));
      KeepsTrans(hash, t, t1, RevokeApproval(t, id, device, now).tables);
    }
  }

  lemma ReadAndSweepKeep(hash: string -> string, t: Tables, id: string, order: seq<string>, now: int)
    requires Inv(hash, t)
    ensures Keeps(hash, t, GetApproval(t, id, now).tables) && Keeps(hash, t, Sweep(t, order, now).tables)
  {
    hide Inv, Keeps, Expire, ExpireAll;
    ExpireKeeps(hash, t, id, now);
    ExpireAllKeeps(hash, t, order, now);
  }

  lemma ClaimKeeps(hash: string -> string, t: Tables, run: string, id: string, ticket: string, now: int)
    requires Inv(hash, t) && Claim(hash, t, run, id, ticket, now).Ok?
    ensures Keeps(hash, t, Claim(hash, t, run, id, ticket, now).value)
  {
    hide Inv, Keeps, StoredCanonically;
    RowFacts(hash, t, id);
    RowMoved(hash, t, id, t.approvals[id].(consumedAt := Some(now)));
  }

  // ----- restart and device revocation -----

  lemma {:induction false} InterruptRunsKeeps(hash: string -> string, t: Tables, order: seq<string>)
    requires Inv(hash, t)
    ensures Keeps(hash, t, InterruptRuns(t, order))
    decreases |order|
  {
    hide Inv, Keeps;
    if order == [] {
      KeepsRefl(hash, t);
    } else {
      var t1 := InterruptRuns(t, order[..|order| - 1]);
      var run := order[|order| - 1];
      InterruptRunsKeeps(hash, t, order[..|order| - 1]);
      EndedKeeps(hash, t, t1, run, Interrupted, "run.interrupted");
    }
  }

  /** A status move with its milestone row, after an earlier step. */
  lemma EndedKeeps(hash: string -> string, t: Tables, t1: Tables, run: string, status: RunStatus, name: string)
    requires Keeps(hash, t, t1) && (Parked(status) || NoPendingFor(t1, run)) && !(status in {Queued, Starting})
    ensures Keeps(hash, t, Ended(t1, run, status, name))
  {
    hide Inv, Keeps;
    KeepsInv(hash, t, t1);
    StatusSet(hash, t1, run, status);
    var u := SetStatus(t1, run, status);
    KeepsInv(hash, t1, u);
    KeepsTrans(hash, t, t1, u);
    RowAdded(hash, u, run + ":" + name, run, name);
    KeepsTrans(hash, t, u, Ended(t1, run, status, name));
  }

  lemma {:induction false} FailRunsKeeps(hash: string -> string, t: Tables, ids: seq<string>, now: int)
    requires Inv(hash, t) && FailRuns(t, ids, now).Ok?
    ensures Keeps(hash, t, FailRuns(t, ids, now).value)
    decreases |ids|
  {
    hide Inv, Keeps, Retire;
    if ids == [] {
      KeepsRefl(hash, t);
    } else {
      var init, id := ids[..|ids| - 1], ids[|ids| - 1];
      FailRunsKeeps(hash, t, init, now);
      var t1 := FailRuns(t, init, now).value;
      KeepsInv(hash, t, t1);
      RetireKeeps(hash, t1, id, ServiceRestart, None, now);
      RetireOk(t1, id, ServiceRestart, None, now);
      var t2 := Retire(t1, id, ServiceRestart, None, now).value;
      KeepsInv(hash, t1, t2);
      StatusSet(hash, t2, t1.approvals[id].run, Interrupted);
      KeepsTrans(hash, t, t1, t2);
      KeepsTrans(hash, t, t2, FailRuns(t, ids, now).value);
    }
  }

  lemma RecoverKeeps(hash: string -> string, t: Tables, p: RecoveryPlan, now: int)
    requires Inv(hash, t)
    ensures Keeps(hash, t, Recover(t, p, now).tables)
  {
    hide Inv, Keeps, RetireAll, ExpireAll, FailRuns;
    KeepsRefl(hash, t);
    QuietPieces(hash, t);
    var t0 := Released(t, now);
    LeaseSet(hash, t, t0.lease);
    KeepsInv(hash, t, t0);
    if Recover(t, p, now).result.Ok? {
      RetireAllKeeps(hash, t0, p.orphaned, ServiceRestart, None, now);
      var t1 := RetireAll(t0, p.orphaned, ServiceRestart, None, now).value;
      KeepsTrans(hash, t, t0, t1);
      KeepsInv(hash, t, t1);
      ExpireAllKeeps(hash, t1, p.due, now);
      var t2 := ExpireAll(t1, p.due, now).value;
      KeepsTrans(hash, t, t1, t2);
      KeepsInv(hash, t, t2);
      FailRunsKeeps(hash, t2, p.survivors, now);
      KeepsTrans(hash, t, t2, FailRuns(t2, p.survivors, now).value);
    }
  }

  /** The grant revision plays no part in settling rows. */
  lemma {:induction false} RetireAllIgnoresGrant(t: Tables, ids: seq<string>, reason: Reason, who: Option<string>,
                                                 now: int, g: nat)
    ensures var r := RetireAll(t, ids, reason, who, now);
            RetireAll(t.(grant := g), ids, reason, who, now) == (if r.Err? then r else Ok(r.value.(grant := g)))
    decreases |ids|
  {
    hide Retire;
    if ids != [] {
      RetireAllIgnoresGrant(t, ids[..|ids| - 1], reason, who, now, g);
      var r := RetireAll(t, ids[..|ids| - 1], reason, who, now);
      if r.Ok? { RetireIgnoresGrant(r.value, ids[|ids| - 1], reason, who, now, g); }
    }
  }

  lemma RetireIgnoresGrant(t: Tables, id: string, reason: Reason, who: Option<string>, now: int, g: nat)
    ensures var r := Retire(t, id, reason, who, now);
            Retire(t.(grant := g), id, reason, who, now) == (if r.Err? then r else Ok(r.value.(grant := g)))
  {
    hide AddStep, ServiceStep, InsertOrIgnore;
  }

  lemma ListingIsSet(order: seq<string>, ids: set<string>)
    requires Listing(order, ids)
    ensures IdSet(order) == ids
  {
    forall x ensures x in IdSet(order) <==> x in ids {}
  }

  lemma RevokeDeviceKeeps(hash: string -> string, t: Tables, device: string, order: seq<string>, now: int)
    requires Inv(hash, t) && Listing(order, PendingIds(t))
    ensures Keeps(hash, t, RevokeDevice(t, device, order, now).tables)
  {
    hide Inv, Keeps, RetireAll, PendingIds, Listing;
    KeepsRefl(hash, t);
    QuietPieces(hash, t);
    RetireAllIgnoresGrant(t, order, DeviceRevoked, None, now, t.grant + 1);
    if RevokeDevice(t, device, order, now).result.Ok? {
      RetireAllKeeps(hash, t, order, DeviceRevoked, None, now);
      RetireAllEffect(t, order, DeviceRevoked, None, now);
      ListingIsSet(order, PendingIds(t));
      var t1 := RetireAll(t, order, DeviceRevoked, None, now).value;
      KeepsInv(hash, t, t1);
      GrantBumped(hash, t1);
      var t2 := t1.(grant := t.grant + 1);
      KeepsTrans(hash, t, t1, t2);
      KeepsInv(hash, t, t2);
      QuietPieces(hash, t2);
      LeaseSet(hash, t2, Released(t2, now).lease);
      KeepsTrans(hash, t, t2, Released(t2, now));
    }
  }
}
