/** The statements transactions are made of keep the invariant and undo nothing. */
module DbStatements {
  import opened Wrappers
  import opened Tables
  import opened LeaseAndApprovals
  import opened WorkerEvents
  import opened DbInvariant
  import Json = CanonicalJson

  // ----- tool steps -----

  lemma {:induction false} MaxOrdinalIsLength(ss: seq<ToolStep>)
    requires Numbered(ss)
    ensures MaxOrdinal(ss) == |ss|
  {
    if ss != [] { MaxOrdinalIsLength(ss[..|ss| - 1]); }
  }

  lemma AddStepFacts(ss: seq<ToolStep>, s: ToolStep)
    requires Numbered(ss)
    ensures Numbered(AddStep(ss, s)) && StepsEvolve(ss, AddStep(ss, s))
    ensures HasKey(ss, s.key) ==> AddStep(ss, s) == ss
    ensures !HasKey(ss, s.key) ==> AddStep(ss, s) == ss + [s.(ordinal := |ss| + 1)]
    ensures forall k :: HasKey(AddStep(ss, s), k) <==> HasKey(ss, k) || k == s.key
  {
    MaxOrdinalIsLength(ss);
    var us := AddStep(ss, s);
    forall k ensures HasKey(us, k) <==> HasKey(ss, k) || k == s.key {
      if HasKey(ss, k) {
        var i :| 0 <= i < |ss| && ss[i].key == k;
        assert us[i].key == k;
      }
      if k == s.key && !HasKey(ss, s.key) { assert us[|ss|].key == k; }
    }
  }

  lemma FinishedFacts(ss: seq<ToolStep>, key: string, state: StepState, result: Option<string>)
    requires Numbered(ss)
    ensures var us := Finished(ss, key, state, result);
            Numbered(us) && StepsEvolve(ss, us) && forall k :: HasKey(us, k) <==> HasKey(ss, k)
  {
    var us := Finished(ss, key, state, result);
    forall k ensures HasKey(us, k) <==> HasKey(ss, k) {
      if i :| 0 <= i < |ss| && ss[i].key == k { assert us[i].key == k; }
      if i :| 0 <= i < |us| && us[i].key == k { assert ss[i].key == k; }
    }
  }

  lemma KeyInjective(x: string, y: string)
    ensures ApprovalKey(x) == ApprovalKey(y) <==> x == y
    ensures Reserved(ApprovalKey(x))
  {
    assert ApprovalKey(x)[9..] == x && ApprovalKey(y)[9..] == y;
  }

  // ----- journal rows -----

  lemma RowAdded(hash: string -> string, t: Tables, id: string, run: string, name: string)
    requires Inv(hash, t)
    ensures Keeps(hash, t, AddRow(t, id, run, name))
  {
    hide RowOk, StoredCanonically, Numbered, ProjectedFor, StepsEvolve, RowEvolves;
    var u := AddRow(t, id, run, name);
    EvolvesRefl(t);
    forall r: string ensures JournaledFor(u, r) {
      assert JournaledFor(t, r);
      if u.events != t.events {
        assert u.events[..|u.events| - 1] == t.events;
      }
    }
    SameButEvents(hash, t, u);
  }

  /** Tables that differ only in journal rows. */
  lemma SameButEvents(hash: string -> string, t: Tables, u: Tables)
    requires Inv(hash, t) && u == t.(events := u.events) && t.events <= u.events && Journaled(u)
    ensures Keeps(hash, t, u)
  {
    hide StoredCanonically, Numbered, Json.WellFormed, RowEvolves, StepsEvolve, JournaledFor;
    EvolvesRefl(t);
    forall run: string ensures StepsOf(u, run) == StepsOf(t, run) {}
    forall run: string, id: string ensures Unspoiled(u, run, id) {
      assert Unspoiled(t, run, id);
      ClaimsStay(t.events, u.events, run, ApprovalKey(id));
    }
    assert AllStepsEvolve(t, u) by {
      forall run: string ensures StepsEvolve(StepsOf(t, run), StepsOf(u, run)) {
        assert StepsEvolve(StepsOf(t, run), StepsOf(t, run));
      }
    }
  }

  lemma ClaimsStay(events: seq<Event>, more: seq<Event>, run: string, key: string)
    requires events <= more
    ensures Claimed(events, run, key) ==> Claimed(more, run, key)
  {
    if i :| 0 <= i < |events| && Claims(events[i], run, key) { assert Claims(more[i], run, key); }
  }

  /** Tables that differ only in the lease, the grant revision and the runs. */
  lemma QuietStep(hash: string -> string, t: Tables, u: Tables)
    requires Inv(hash, t)
    requires u.approvals == t.approvals && u.steps == t.steps && u.events == t.events
    requires LeaseOk(u.lease) && LeaseEvolves(t.lease, u.lease) && t.grant <= u.grant && t.runs.Keys <= u.runs.Keys
    requires RowsOk(hash, u) && RunsOk(u) && forall run: string :: AnswerText(u, run) == AnswerText(t, run)
    ensures Keeps(hash, t, u)
  {
    hide StoredCanonically, RowOk, Numbered, Json.WellFormed, StepsEvolve, AnswerText, LeaseOk, LeaseEvolves;
    forall run: string ensures StepsOf(u, run) == StepsOf(t, run) {}
    forall run: string, id: string ensures Unspoiled(u, run, id) { assert Unspoiled(t, run, id); }
    forall run: string ensures JournaledFor(u, run) { assert JournaledFor(t, run); }
    assert AllStepsEvolve(t, u) by {
      EvolvesRefl(t);
      forall run: string ensures StepsEvolve(StepsOf(t, run), StepsOf(u, run)) {
        assert StepsEvolve(StepsOf(t, run), StepsOf(t, run));
      }
    }
    assert RowsEvolve(t, u) by { EvolvesRefl(t); }
  }

  lemma LeaseSet(hash: string -> string, t: Tables, l: Lease)
    requires Inv(hash, t) && LeaseOk(l) && LeaseEvolves(t.lease, l)
    ensures Keeps(hash, t, t.(lease := l))
  {
    hide Inv, Keeps, StoredCanonically, Json.WellFormed;
    QuietPieces(hash, t);
    QuietStep(hash, t, t.(lease := l));
  }

  lemma GrantBumped(hash: string -> string, t: Tables)
    requires Inv(hash, t) && PendingIds(t) == {}
    ensures Keeps(hash, t, t.(grant := t.grant + 1))
  {
    hide Inv, Keeps, StoredCanonically, Json.WellFormed;
    QuietPieces(hash, t);
    var u := t.(grant := t.grant + 1);
    forall id | id in u.approvals ensures RowOk(u, u.approvals[id]) && StoredCanonically(hash, u.approvals[id]) {
      assert id !in PendingIds(t);
    }
    QuietStep(hash, t, u);
  }

  lemma QuietPieces(hash: string -> string, t: Tables)
    requires Inv(hash, t)
    ensures LeaseOk(t.lease) && RowsOk(hash, t) && RunsOk(t) && OnePending(t)
  {
  }

  ghost predicate NoPendingFor(t: Tables, run: string) {
    forall id | id in t.approvals && t.approvals[id].run == run :: !t.approvals[id].state.Pending?
  }

  /** A run's status moves: away from waiting only when nothing is pending on it. */
  lemma StatusSet(hash: string -> string, t: Tables, run: string, status: RunStatus)
    requires Inv(hash, t)
    requires Parked(status) || NoPendingFor(t, run)
    requires status in {Queued, Starting} ==> run in t.runs && t.runs[run].answer.None?
    ensures Keeps(hash, t, SetStatus(t, run, status))
  {
    hide Inv, Keeps, StoredCanonically, Json.WellFormed;
    QuietPieces(hash, t);
    var u := SetStatus(t, run, status);
    assert t.(lease := t.lease) == t;
    if run in t.runs { QuietStep(hash, t, u); } else { LeaseSet(hash, t, t.lease); }
  }

  // ----- approvals -----

  /** The pending set after one row is rewritten. */
  lemma OnePendingKept(t: Tables, u: Tables, id: string, b: Approval)
    requires OnePending(t) && u.approvals == t.approvals[id := b] && id in t.approvals
    requires t.approvals[id].run == b.run && (b.state.Pending? ==> t.approvals[id].state.Pending?)
    ensures OnePending(u)
  {
    assert PendingIds(u) <= PendingIds(t);
  }

  lemma RowsRewritten(hash: string -> string, t: Tables, id: string, b: Approval)
    requires RowsOk(hash, t) && id in t.approvals && RowEvolves(t.approvals[id], b) && RowOk(t, b)
    ensures RowsOk(hash, PutApproval(t, id, b)) && RowsEvolve(t, PutApproval(t, id, b))
  {
    hide Json.WellFormed;
  }

  lemma GatesKept(t: Tables, u: Tables)
    requires Gated(t) && RowsEvolve(t, u) && u.steps == t.steps
    ensures Gated(u)
  {
    forall run: string, i | 0 <= i < |StepsOf(u, run)| ensures GatedStep(u, StepsOf(u, run)[i]) {
      assert GatedStep(t, StepsOf(t, run)[i]);
    }
  }

  /** A row moves without any change to whether its action may still execute. */
  lemma RowMoved(hash: string -> string, t: Tables, id: string, b: Approval)
    requires Inv(hash, t) && id in t.approvals
    requires RowEvolves(t.approvals[id], b) && RowOk(t, b)
    requires !NeverRuns(b) && !NeverRuns(t.approvals[id])
    ensures Keeps(hash, t, PutApproval(t, id, b))
  {
    hide RowOk, StoredCanonically, Numbered, StepsEvolve, JournaledFor;
    var u := PutApproval(t, id, b);
    EvolvesRefl(t);
    RowsRewritten(hash, t, id, b);
    OnePendingKept(t, u, id, b);
    GatesKept(t, u);
    forall run: string ensures StepsOf(u, run) == StepsOf(t, run) {}
    forall run: string, x: string ensures Unspoiled(u, run, x) { assert Unspoiled(t, run, x); }
    forall run: string ensures JournaledFor(u, run) { UnchangedJournal(t, u, run); }
    assert AllStepsEvolve(t, u) by {
      forall run: string ensures StepsEvolve(StepsOf(t, run), StepsOf(u, run)) {
        assert StepsEvolve(StepsOf(t, run), StepsOf(t, run));
      }
    }
  }

  lemma UnchangedJournal(t: Tables, u: Tables, run: string)
    requires Journaled(t) && u.runs == t.runs && u.events == t.events
    ensures JournaledFor(u, run)
  {
    assert JournaledFor(t, run);
  }

  /** A row is settled for good and its service step is written in the same transaction. */
  lemma RowRetired(hash: string -> string, t: Tables, id: string, b: Approval, state: StepState)
    requires Inv(hash, t) && id in t.approvals
    requires RowEvolves(t.approvals[id], b) && RowOk(t, b)
    requires NeverRuns(b) && !NeverRuns(t.approvals[id])
    requires state == if b.state.Denied? then StepDenied else StepCancelled
    ensures Keeps(hash, t, AddServiceStep(PutApproval(t, id, b), id, t.approvals[id], state))
  {
    hide RowOk, StoredCanonically, Numbered, StepsEvolve, JournaledFor, AddStep, ServiceStep, ProjectedFor;
    var v := PutApproval(t, id, b);
    var a := t.approvals[id];
    var u := AddServiceStep(v, id, a, state);
    EvolvesRefl(t);
    RowsRewritten(hash, t, id, b);
    OnePendingKept(t, u, id, b);
    assert Numbered(StepsOf(t, a.run));
    AddStepFacts(StepsOf(t, a.run), ServiceStep(id, a, state));
    forall run: string
      ensures StepsOf(u, run) ==
                if run == a.run then AddStep(StepsOf(t, run), ServiceStep(id, a, state)) else StepsOf(t, run)
    {
    }
    ProjectedAfter(t, u, id, b, state);
    GatedAfter(t, u, id, a, state);
    forall run: string ensures JournaledFor(u, run) { UnchangedJournal(t, u, run); }
    assert AllStepsEvolve(t, u) by {
      forall run: string ensures StepsEvolve(StepsOf(t, run), StepsOf(u, run)) {
        assert StepsEvolve(StepsOf(t, run), StepsOf(t, run));
      }
    }
    assert StepsOk(u) by {
      forall run: string ensures Numbered(StepsOf(u, run)) { assert Numbered(StepsOf(t, run)); }
    }
    assert RowsOk(hash, u) by { RowsFrame(hash, v, u); }
  }

  lemma RowsFrame(hash: string -> string, t: Tables, u: Tables)
    requires RowsOk(hash, t) && u.approvals == t.approvals && u.lease == t.lease && u.grant == t.grant
    requires u.runs == t.runs
    ensures RowsOk(hash, u)
  {
    hide Json.WellFormed;
  }

  /** The service step is new in its run, unless the worker has claimed its key. */
  lemma ServiceStepAdded(t: Tables, id: string, a: Approval, state: StepState)
    requires StepsOk(t) && Unspoiled(t, a.run, id) && id in t.approvals && t.approvals[id] == a && !NeverRuns(a)
    requires !Claimed(t.events, a.run, ApprovalKey(id))
    ensures var ss, s := StepsOf(t, a.run), ServiceStep(id, a, state);
            !HasKey(ss, s.key) && AddStep(ss, s) == ss + [s.(ordinal := |ss| + 1)]
  {
    assert Numbered(StepsOf(t, a.run));
    AddStepFacts(StepsOf(t, a.run), ServiceStep(id, a, state));
  }

  lemma ProjectedAfter(t: Tables, u: Tables, id: string, b: Approval, state: StepState)
    requires StepsOk(t) && ProjectedUnlessClaimed(t) && id in t.approvals && !NeverRuns(t.approvals[id])
    requires NeverRuns(b) && b.run == t.approvals[id].run && u.approvals == t.approvals[id := b] && u.events == t.events
    requires state == if b.state.Denied? then StepDenied else StepCancelled
    requires forall run: string :: StepsOf(u, run) ==
               if run == b.run then AddStep(StepsOf(t, run), ServiceStep(id, t.approvals[id], state))
               else StepsOf(t, run)
    ensures ProjectedUnlessClaimed(u)
  {
    hide AddStep, Numbered, StepsEvolve, Claimed, ProjectedFor, StepsOf;
    forall run: string, x: string ensures Unspoiled(u, run, x) {
      assert Unspoiled(t, run, x);
      if !Claimed(t.events, run, ApprovalKey(x)) { ProjectedOne(t, u, id, b, state, run, x); }
    }
  }

  lemma ProjectedOne(t: Tables, u: Tables, id: string, b: Approval, state: StepState, run: string, x: string)
    requires StepsOk(t) && ProjectedFor(t, run, x) && !Claimed(t.events, run, ApprovalKey(x))
    requires id in t.approvals && !NeverRuns(t.approvals[id])
    requires NeverRuns(b) && b.run == t.approvals[id].run && u.approvals == t.approvals[id := b]
    requires state == if b.state.Denied? then StepDenied else StepCancelled
    requires StepsOf(u, run) ==
               if run == b.run then AddStep(StepsOf(t, run), ServiceStep(id, t.approvals[id], state))
               else StepsOf(t, run)
    ensures ProjectedFor(u, run, x)
  {
    hide AddStep, Numbered, StepsEvolve, Claimed;
    var a := t.approvals[id];
    var s := ServiceStep(id, a, state);
    assert Numbered(StepsOf(t, run));
    AddStepFacts(StepsOf(t, run), s);
    KeyInjective(x, id);
    if x == id && run == b.run { ServiceStepAdded(t, id, a, state); }
    assert OwedStep(u, run, x) <==> OwedStep(t, run, x) || (x == id && run == b.run);
    var us := StepsOf(u, run);
    forall i | 0 <= i < |us| && us[i].key == ApprovalKey(x)
      ensures OwedStep(u, run, x)
      ensures us[i].state == (if u.approvals[x].state.Denied? then StepDenied else StepCancelled)
    {
      if i < |StepsOf(t, run)| { assert us[i] == StepsOf(t, run)[i]; }
    }
  }

  lemma GatedAfter(t: Tables, u: Tables, id: string, a: Approval, state: StepState)
    requires StepsOk(t) && Gated(t) && RowsEvolve(t, u) && id in t.approvals && t.approvals[id] == a
    requires forall run: string :: StepsOf(u, run) ==
               if run == a.run then AddStep(StepsOf(t, run), ServiceStep(id, a, state)) else StepsOf(t, run)
    ensures Gated(u)
  {
    hide AddStep, Numbered, StepsEvolve, NeverRuns;
    assert Numbered(StepsOf(t, a.run));
    AddStepFacts(StepsOf(t, a.run), ServiceStep(id, a, state));
    KeyInjective(id, id);
    forall run: string, i | 0 <= i < |StepsOf(u, run)| ensures GatedStep(u, StepsOf(u, run)[i]) {
      if i < |StepsOf(t, run)| { assert GatedStep(t, StepsOf(t, run)[i]); }
    }
  }
}
