/** Sweeping, restart recovery and the kill switch settle exactly what they should. */
module DbSettlement {
  import opened Wrappers
  import opened Tables
  import opened LeaseAndApprovals
  import opened DbInvariant
  import opened DbTransactions
  import opened DbApprovalSteps
  import DbStatements

  // ----- retiring a listing -----

  predicate Distinct(ids: seq<string>) {
    forall i, j | 0 <= i < j < |ids| :: ids[i] != ids[j]
  }

  lemma DistinctFront(ids: seq<string>)
    requires Distinct(ids) && ids != []
    ensures Distinct(ids[..|ids| - 1]) && ids[|ids| - 1] !in IdSet(ids[..|ids| - 1])
    ensures IdSet(ids) == IdSet(ids[..|ids| - 1]) + {ids[|ids| - 1]}
  {
    assert ids == ids[..|ids| - 1] + [ids[|ids| - 1]];
  }

  lemma {:induction false} DistinctSize(ids: seq<string>)
    requires Distinct(ids)
    ensures |IdSet(ids)| == |ids|
    decreases |ids|
  {
    if ids == [] { assert IdSet(ids) == {}; } else {
      DistinctFront(ids);
      DistinctSize(ids[..|ids| - 1]);
    }
  }

  lemma ListingFacts(order: seq<string>, ids: set<string>)
    requires Listing(order, ids)
    ensures Distinct(order) && IdSet(order) == ids && |order| == |ids|
  {
    ListingIsSet(order, ids);
    DistinctSize(order);
  }

  predicate RunsKnown(t: Tables) {
    forall id | id in t.approvals :: t.approvals[id].run in t.runs
  }

  lemma InvRunsKnown(hash: string -> string, t: Tables)
    requires Inv(hash, t)
    ensures RunsKnown(t)
  {
    hide StoredCanonically;
  }

  /** Retiring distinct pending rows succeeds exactly when there are none or the reason may be stored. */
  lemma {:induction false} RetireAllOk(t: Tables, ids: seq<string>, reason: Reason, who: Option<string>, now: int)
    requires RunsKnown(t) && Distinct(ids) && IdSet(ids) <= PendingIds(t)
    ensures RetireAll(t, ids, reason, who, now).Ok? <==> ids == [] || ReasonAllowed(reason)
    decreases |ids|
  {
    hide Retire, PendingIds, ReasonAllowed;
    if ids != [] {
      var init, last := ids[..|ids| - 1], ids[|ids| - 1];
      DistinctFront(ids);
      RetireAllOk(t, init, reason, who, now);
      if RetireAll(t, init, reason, who, now).Ok? {
        var m := RetireAll(t, init, reason, who, now).value;
        RetireAllEffect(t, init, reason, who, now);
        RetireOk(m, last, reason, who, now);
        PendingInTable(t);
        assert last in PendingIds(m) && m.approvals[last].run in t.runs;
      }
    }
  }

  /** The kill switch commits exactly when the caller's generation is current, nothing is pending,
      and the run to journal to exists: the reason it records for a pending approval is one the
      approvals table refuses. Otherwise no table changes. */
  lemma KillSwitchCommits(hash: string -> string, t: Tables, device: string, expected: nat, run: Option<string>,
                          order: seq<string>, now: int)
    requires Inv(hash, t) && Listing(order, PendingIds(t))
    ensures var r := RevokeLease(t, device, expected, run, order, now);
            && (r.result.Ok? <==>
                  expected == AutoRelease(t.lease, now).generation && PendingIds(t) == {}
                      && (run.Some? ==> run.value in t.runs))
            && (r.result.Err? ==> r.tables == t)
            && (r.result.Err? && expected == AutoRelease(t.lease, now).generation && PendingIds(t) != {} ==>
                  PendingIds(r.tables) == PendingIds(t))
  {
    hide Inv, RetireAll, AutoRelease, Listing, PendingIds;
    InvRunsKnown(hash, t);
    ListingFacts(order, PendingIds(t));
    var t0 := t.(lease := AutoRelease(t.lease, now));
    assert PendingIds(t0) == PendingIds(t) by { SamePendingIds(t, t0); }
    RetireAllOk(t0, order, LeaseRevoked, None, now);
    if order == [] {
      assert RetireAll(t0, order, LeaseRevoked, None, now) == Ok(t0) by { RetireNothing(t0, LeaseRevoked, None, now); }
    }
  }

  lemma RetireNothing(t: Tables, reason: Reason, who: Option<string>, now: int)
    ensures RetireAll(t, [], reason, who, now) == Ok(t)
  {
  }

  lemma SamePendingIds(t: Tables, u: Tables)
    requires u.approvals == t.approvals
    ensures PendingIds(u) == PendingIds(t)
  {
  }

  // ----- sweeping -----

  predicate HasDue(t: Tables, s: set<string>, run: string, id: string) {
    id in s && id in t.approvals && t.approvals[id].run == run
  }

  function TimeoutRow(id: string, run: string): Event {
    var key := id + ":" + "approval.request_timed_out";
    Event(key, run, Service("approval.request_timed_out"), key, true)
  }

  predicate Blocked(events: seq<Event>, e: Event) {
    exists i | 0 <= i < |events| :: Clashes(events[i], e)
  }

  function Rows(events: seq<Event>): set<Event> {
    set e | e in events
  }

  function NewRows(t: Tables, s: set<string>): set<Event> {
    set id | id in s && id in t.approvals && !Blocked(t.events, TimeoutRow(id, t.approvals[id].run)) ::
        TimeoutRow(id, t.approvals[id].run)
  }

  /** Exactly the due rows `s` have expired: each got its step and its journal row, and its run
      was failed closed. Journal rows are compared as a set. */
  ghost predicate ExpiredExactly(t: Tables, u: Tables, s: set<string>) {
    && u.lease == t.lease && u.grant == t.grant && u.devices == t.devices
    && u.approvals.Keys == t.approvals.Keys && u.runs.Keys == t.runs.Keys
    && (forall id | id in t.approvals ::
          u.approvals[id] == if id in s then t.approvals[id].(state := ApprovalState.Expired) else t.approvals[id])
    && (forall run | run in t.runs :: RunAfter(t, u, s, run))
    && (forall run: string :: StepsAfter(t, u, s, run))
    && Rows(u.events) == Rows(t.events) + NewRows(t, s)
  }

  ghost predicate RunAfter(t: Tables, u: Tables, s: set<string>, run: string)
    requires run in t.runs && run in u.runs
  {
    u.runs[run] == if exists id :: HasDue(t, s, run, id) then t.runs[run].(status := Interrupted) else t.runs[run]
  }

  ghost predicate StepsAfter(t: Tables, u: Tables, s: set<string>, run: string) {
    && ((forall id :: !HasDue(t, s, run, id)) ==> StepsOf(u, run) == StepsOf(t, run))
    && (forall id | HasDue(t, s, run, id) ::
         StepsOf(u, run) == AddStep(StepsOf(t, run), ServiceStep(id, t.approvals[id], StepCancelled)))
  }

  /** The same tables up to the order of journal rows. */
  ghost predicate SameUpToOrder(u: Tables, v: Tables) {
    && u.lease == v.lease && u.grant == v.grant && u.devices == v.devices && u.runs == v.runs
       && u.approvals == v.approvals
    && (forall run: string :: StepsOf(u, run) == StepsOf(v, run))
    && Rows(u.events) == Rows(v.events)
  }

  lemma ExpiredOnce(t: Tables, u: Tables, v: Tables, s: set<string>)
    requires ExpiredExactly(t, u, s) && ExpiredExactly(t, v, s)
    ensures SameUpToOrder(u, v)
  {
    hide AddStep, ServiceStep, NewRows, Rows, HasDue;
    forall run: string ensures StepsOf(u, run) == StepsOf(v, run) {
      assert StepsAfter(t, u, s, run) && StepsAfter(t, v, s, run);
    }
    forall run | run in t.runs ensures u.runs[run] == v.runs[run] {
      assert RunAfter(t, u, s, run) && RunAfter(t, v, s, run);
    }
    assert u.runs == v.runs;
    assert u.approvals == v.approvals;
  }

  lemma ExpireNone(t: Tables)
    ensures ExpiredExactly(t, t, {})
  {
    forall run: string ensures StepsAfter(t, t, {}, run) {}
    forall run | run in t.runs ensures RunAfter(t, t, {}, run) {}
    assert NewRows(t, {}) == {};
  }

  lemma TimeoutRowsApart(events: seq<Event>, x: string, r: string, y: string, q: string)
    ensures Clashes(TimeoutRow(x, r), TimeoutRow(y, q)) <==> x == y
  {
    var a, b := TimeoutRow(x, r).id, TimeoutRow(y, q).id;
    assert a[..|a| - 27] == x && b[..|b| - 27] == y;
  }

  lemma InsertedRow(t: Tables, m: Tables, s: set<string>, id: string)
    requires id in t.approvals && id !in s && Rows(m.events) == Rows(t.events) + NewRows(t, s)
    ensures Rows(InsertOrIgnore(m.events, TimeoutRow(id, t.approvals[id].run))) == Rows(t.events) + NewRows(t, s + {id})
  {
    var e := TimeoutRow(id, t.approvals[id].run);
    assert Blocked(m.events, e) <==> Blocked(t.events, e) by {
      if i :| 0 <= i < |t.events| && Clashes(t.events[i], e) {
        assert t.events[i] in Rows(m.events);
      }
      if i :| 0 <= i < |m.events| && Clashes(m.events[i], e) {
        assert m.events[i] in Rows(m.events);
        if m.events[i] in NewRows(t, s) {
          var x :| x in s && x in t.approvals && m.events[i] == TimeoutRow(x, t.approvals[x].run);
          TimeoutRowsApart([], x, t.approvals[x].run, id, t.approvals[id].run);
        }
      }
    }
    var after := InsertOrIgnore(m.events, e);
    assert Rows(after) == Rows(m.events) + if Blocked(m.events, e) then {} else {e};
    assert NewRows(t, s + {id}) == NewRows(t, s) + if Blocked(t.events, e) then {} else {e};
  }

  /** What expiring one due row does to each table. */
  lemma ExpireShape(m: Tables, id: string, now: int)
    requires id in DueIds(m, now) && Expire(m, id, now).Ok?
    ensures var u := Expire(m, id, now).value.0; var a := m.approvals[id];
            && a.run in m.runs && u.approvals == m.approvals[id := a.(state := ApprovalState.Expired)]
            && u.runs == m.runs[a.run := m.runs[a.run].(status := Interrupted)]
            && u.events == InsertOrIgnore(m.events, TimeoutRow(id, a.run))
            && u.lease == m.lease && u.grant == m.grant && u.devices == m.devices
            && forall run: string :: StepsOf(u, run) ==
                 if run == a.run then AddStep(StepsOf(m, run), ServiceStep(id, a, StepCancelled)) else StepsOf(m, run)
  {
    hide AddStep, ServiceStep, InsertOrIgnore;
  }

  /** One more due row. */
  lemma ExpireOneMore(hash: string -> string, t: Tables, m: Tables, s: set<string>, id: string, now: int)
    requires Inv(hash, t) && s <= DueIds(t, now) && ExpiredExactly(t, m, s) && Expire(m, id, now).Ok?
    ensures ExpiredExactly(t, Expire(m, id, now).value.0, if id in DueIds(t, now) then s + {id} else s)
  {
    hide AddStep, ServiceStep, NewRows, Rows, Inv, Expire, RunAfter, StepsAfter, InsertOrIgnore, TimeoutRow;
    var u := Expire(m, id, now).value.0;
    assert id in DueIds(m, now) <==> id in DueIds(t, now) && id !in s;
    if id !in DueIds(m, now) {
      NotDueNow(m, id, now);
      if id in s { assert s + {id} == s; }
    } else {
      assert m.approvals[id] == t.approvals[id];
      ExpireShape(m, id, now);
      InsertedRow(t, m, s, id);
      OneDuePerRun(hash, t, now);
      ExpiredRuns(t, m, u, s, id, now);
      ExpiredSteps(t, m, u, s, id, now);
    }
  }

  lemma NotDueNow(t: Tables, id: string, now: int)
    requires id !in DueIds(t, now)
    ensures Expire(t, id, now) == Ok((t, false))
  {
  }

  ghost predicate SoleDue(t: Tables, now: int) {
    forall x, y | x in DueIds(t, now) && y in DueIds(t, now) && t.approvals[x].run == t.approvals[y].run :: x == y
  }

  lemma OneDuePerRun(hash: string -> string, t: Tables, now: int)
    requires Inv(hash, t)
    ensures SoleDue(t, now)
  {
    hide RowOk, StoredCanonically;
    assert DueIds(t, now) <= PendingIds(t);
  }

  lemma ExpiredRuns(t: Tables, m: Tables, u: Tables, s: set<string>, id: string, now: int)
    requires s <= DueIds(t, now) && id in DueIds(t, now) && id !in s && u.runs.Keys == m.runs.Keys == t.runs.Keys
    requires t.approvals[id].run in t.runs
    requires forall run | run in t.runs :: RunAfter(t, m, s, run)
    requires u.runs == m.runs[t.approvals[id].run := m.runs[t.approvals[id].run].(status := Interrupted)]
    ensures forall run | run in t.runs :: RunAfter(t, u, s + {id}, run)
  {
    forall run | run in t.runs ensures RunAfter(t, u, s + {id}, run) {
      assert RunAfter(t, m, s, run);
      assert HasDue(t, s + {id}, t.approvals[id].run, id);
      assert forall x :: HasDue(t, s + {id}, run, x) <==>
          HasDue(t, s, run, x) || (x == id && run == t.approvals[id].run);
    }
  }

  lemma ExpiredSteps(t: Tables, m: Tables, u: Tables, s: set<string>, id: string, now: int)
    requires SoleDue(t, now) && s <= DueIds(t, now) && id in DueIds(t, now) && id !in s
    requires forall run: string :: StepsAfter(t, m, s, run)
    requires forall run: string :: StepsOf(u, run) ==
               if run == t.approvals[id].run
               then AddStep(StepsOf(m, run), ServiceStep(id, t.approvals[id], StepCancelled)) else StepsOf(m, run)
    ensures forall run: string :: StepsAfter(t, u, s + {id}, run)
  {
    hide AddStep, ServiceStep;
    forall run: string ensures StepsAfter(t, u, s + {id}, run) {
      assert StepsAfter(t, m, s, run);
      assert forall x :: HasDue(t, s + {id}, run, x) <==>
          HasDue(t, s, run, x) || (x == id && run == t.approvals[id].run);
    }
  }

  lemma {:induction false} ExpireAllIs(hash: string -> string, t: Tables, ids: seq<string>, now: int)
    requires Inv(hash, t)
    ensures ExpireAll(t, ids, now).Ok? && ExpiredExactly(t, ExpireAll(t, ids, now).value, IdSet(ids) * DueIds(t, now))
    decreases |ids|
  {
    hide Inv, Expire, ExpiredExactly, DueIds;
    if ids == [] {
      assert IdSet(ids) * DueIds(t, now) == {};
      ExpireNone(t);
    } else {
      var init, last := ids[..|ids| - 1], ids[|ids| - 1];
      ExpireAllIs(hash, t, init, now);
      ExpireAllKeeps(hash, t, init, now);
      var m := ExpireAll(t, init, now).value;
      KeepsInv(hash, t, m);
      ExpireKeeps(hash, m, last, now);
      ExpireOneMore(hash, t, m, IdSet(init) * DueIds(t, now), last, now);
      assert ids == init + [last];
      assert IdSet(ids) == IdSet(init) + {last};
      if last in DueIds(t, now) {
        assert IdSet(ids) * DueIds(t, now) == IdSet(init) * DueIds(t, now) + {last};
      } else {
        assert IdSet(ids) * DueIds(t, now) == IdSet(init) * DueIds(t, now);
      }
    }
  }

  lemma {:induction false} ExpireAllAppend(t: Tables, xs: seq<string>, ys: seq<string>, now: int)
    requires ExpireAll(t, xs, now).Ok?
    ensures ExpireAll(t, xs + ys, now) == ExpireAll(ExpireAll(t, xs, now).value, ys, now)
    decreases |ys|
  {
    hide Expire;
    if ys == [] { assert xs + ys == xs; } else {
      ExpireAllAppend(t, xs, ys[..|ys| - 1], now);
      assert (xs + ys)[..|xs + ys| - 1] == xs + ys[..|ys| - 1];
    }
  }

  /** A sweep expires exactly the due rows, whatever order the query returns them in. */
  lemma SweepExpiresTheDue(hash: string -> string, t: Tables, order: seq<string>, now: int)
    requires Inv(hash, t) && Listing(order, DueIds(t, now))
    ensures Sweep(t, order, now).result == Ok(order) && ExpiredExactly(t, Sweep(t, order, now).tables, DueIds(t, now))
    ensures DueIds(Sweep(t, order, now).tables, now) == {}
  {
    hide Inv, ExpireAll, Listing, DueIds;
    ExpireAllIs(hash, t, order, now);
    ListingFacts(order, DueIds(t, now));
    assert IdSet(order) * DueIds(t, now) == DueIds(t, now);
    NoneDue(t, Sweep(t, order, now).tables, now);
  }

  lemma NoneDue(t: Tables, u: Tables, now: int)
    requires ExpiredExactly(t, u, DueIds(t, now))
    ensures DueIds(u, now) == {}
  {
    hide NewRows, Rows, AddStep, ServiceStep, RunAfter, StepsAfter;
  }

  /** Lazy expiry of any rows (reads), then a sweep, is the sweep alone, up to the order of
      journal rows. */
  lemma LazyThenSweep(hash: string -> string, t: Tables, early: seq<string>, later: seq<string>, order: seq<string>,
                      now: int)
    requires Inv(hash, t) && ExpireAll(t, early, now).Ok?
    requires Listing(later, DueIds(ExpireAll(t, early, now).value, now)) && Listing(order, DueIds(t, now))
    ensures SameUpToOrder(Sweep(ExpireAll(t, early, now).value, later, now).tables, Sweep(t, order, now).tables)
  {
    hide Inv, ExpireAll, ExpiredExactly, Listing, DueIds, SameUpToOrder;
    var m := ExpireAll(t, early, now).value;
    SweepExpiresTheDue(hash, t, order, now);
    ExpireAllKeeps(hash, t, early, now);
    KeepsInv(hash, t, m);
    SweepExpiresTheDue(hash, m, later, now);
    ExpireAllAppend(t, early, later, now);
    ExpireAllIs(hash, t, early, now);
    ExpireAllIs(hash, t, early + later, now);
    ListingFacts(later, DueIds(m, now));
    DueLeft(t, m, IdSet(early) * DueIds(t, now), now);
    assert IdSet(early + later) == IdSet(early) + IdSet(later);
    assert IdSet(early + later) * DueIds(t, now) == DueIds(t, now);
    ExpiredOnce(t, Sweep(m, later, now).tables, Sweep(t, order, now).tables, DueIds(t, now));
  }

  lemma DueLeft(t: Tables, m: Tables, s: set<string>, now: int)
    requires ExpiredExactly(t, m, s)
    ensures DueIds(m, now) == DueIds(t, now) - s
  {
    hide NewRows, Rows, AddStep, ServiceStep, RunAfter, StepsAfter;
  }

  /** A second sweep at the same time changes nothing. */
  lemma SweepIdempotent(hash: string -> string, t: Tables, order: seq<string>, again: seq<string>, now: int)
    requires Inv(hash, t) && Listing(order, DueIds(t, now)) && Listing(again, DueIds(Sweep(t, order, now).tables, now))
    ensures Sweep(Sweep(t, order, now).tables, again, now) == Tx(Sweep(t, order, now).tables, Ok([]))
  {
    hide Inv, DueIds, ExpiredExactly;
    SweepExpiresTheDue(hash, t, order, now);
    ListingFacts(again, DueIds(Sweep(t, order, now).tables, now));
  }

  // ----- restart recovery -----

  /** The rows `s` are revoked and their runs interrupted; nothing else about rows changes. */
  ghost predicate RunsFailed(t: Tables, u: Tables, s: set<string>) {
    && PendingIds(u) == PendingIds(t) - s && u.approvals.Keys == t.approvals.Keys && u.runs.Keys == t.runs.Keys
    && u.lease == t.lease
    && (forall x | x in t.approvals && x !in s :: u.approvals[x] == t.approvals[x])
    && (forall x | x in s :: RunFailed(t, u, x))
    && (forall r | r in t.runs && t.runs[r].status.Interrupted? :: r in u.runs && u.runs[r].status.Interrupted?)
  }

  predicate RunFailed(t: Tables, u: Tables, x: string) {
    x in t.approvals && x in u.approvals && u.approvals[x].state.Revoked? && u.approvals[x].run == t.approvals[x].run
    && t.approvals[x].run in t.runs && t.approvals[x].run in u.runs && u.runs[t.approvals[x].run].status.Interrupted?
  }

  lemma FailOneMore(t: Tables, m: Tables, s: set<string>, id: string, now: int)
    requires RunsKnown(t) && RunsFailed(t, m, s) && id in PendingIds(t) - s
    ensures Retire(m, id, ServiceRestart, None, now).Ok? && id in m.approvals
    ensures RunsFailed(t, SetStatus(Retire(m, id, ServiceRestart, None, now).value, m.approvals[id].run, Interrupted),
                       s + {id})
  {
    hide Retire, PendingIds;
    PendingInTable(t);
    RetireOk(m, id, ServiceRestart, None, now);
    RetireEffect(m, id, ServiceRestart, None, now);
    var v := Retire(m, id, ServiceRestart, None, now).value;
    var u := SetStatus(v, m.approvals[id].run, Interrupted);
    SamePendingIds(v, u);
    forall x | x in s + {id} ensures RunFailed(t, u, x) {
      if x != id { assert RunFailed(t, m, x); }
    }
  }

  lemma {:induction false} FailRunsEffect(t: Tables, ids: seq<string>, now: int)
    requires RunsKnown(t) && Distinct(ids) && IdSet(ids) <= PendingIds(t)
    ensures FailRuns(t, ids, now).Ok? && RunsFailed(t, FailRuns(t, ids, now).value, IdSet(ids))
    decreases |ids|
  {
    hide Retire, PendingIds, RunsFailed, SetStatus;
    if ids == [] {
      assert IdSet(ids) == {};
      NoRunFailed(t);
    } else {
      var init, last := ids[..|ids| - 1], ids[|ids| - 1];
      DistinctFront(ids);
      FailRunsEffect(t, init, now);
      FailOneMore(t, FailRuns(t, init, now).value, IdSet(init), last, now);
    }
  }

  lemma NoRunFailed(t: Tables)
    ensures RunsFailed(t, t, {})
  {
  }

  /** The first pass: rows whose run is already interrupted. */
  lemma OrphansRevoked(hash: string -> string, t: Tables, order: seq<string>, now: int)
    requires Inv(hash, t) && Listing(order, OrphanIds(t))
    ensures var r := RetireAll(Released(t, now), order, ServiceRestart, None, now);
            && r.Ok? && Inv(hash, r.value) && PendingIds(r.value) == PendingIds(t) - OrphanIds(t)
               && |order| == |OrphanIds(t)|
            && r.value.lease == Unheld(t.lease.generation + 1, now) && r.value.runs == t.runs
               && r.value.approvals.Keys == t.approvals.Keys
            && (forall x | x in t.approvals && x !in OrphanIds(t) :: r.value.approvals[x] == t.approvals[x])
            && (forall x | x in OrphanIds(t) ::
                 x in t.approvals && r.value.approvals[x].state.Revoked?
                     && r.value.approvals[x].run == t.approvals[x].run)
  {
    hide Inv, RetireAll, PendingIds, OrphanIds, Listing;
    var t0 := Released(t, now);
    DbStatements.QuietPieces(hash, t);
    DbStatements.LeaseSet(hash, t, t0.lease);
    KeepsInv(hash, t, t0);
    SamePendingIds(t, t0);
    InvRunsKnown(hash, t0);
    OrphansPending(t, now);
    ListingFacts(order, OrphanIds(t));
    RetireAllOk(t0, order, ServiceRestart, None, now);
    RetireAllEffect(t0, order, ServiceRestart, None, now);
    RetireAllKeeps(hash, t0, order, ServiceRestart, None, now);
    KeepsInv(hash, t0, RetireAll(t0, order, ServiceRestart, None, now).value);
  }

  /** The second pass: rows past their deadline. */
  lemma DueExpired(hash: string -> string, t: Tables, order: seq<string>, now: int)
    requires Inv(hash, t) && Listing(order, DueIds(t, now))
    ensures var r := ExpireAll(t, order, now);
            && r.Ok? && Inv(hash, r.value) && |order| == |DueIds(t, now)| && ExpiredExactly(t, r.value, DueIds(t, now))
  {
    hide Inv, ExpireAll, DueIds, Listing, ExpiredExactly;
    ListingFacts(order, DueIds(t, now));
    ExpireAllIs(hash, t, order, now);
    ExpireAllKeeps(hash, t, order, now);
    KeepsInv(hash, t, ExpireAll(t, order, now).value);
    assert IdSet(order) * DueIds(t, now) == DueIds(t, now);
  }

  /** After startup recovery nothing is pending; every row that was is revoked or, when its
      deadline had passed and its run was still live, expired; its run is interrupted; the agent
      holds the lease at a strictly higher generation; and the two counts add up to the number
      of rows that were pending. */
  lemma RecoverySettlesAll(hash: string -> string, t: Tables, p: RecoveryPlan, now: int)
    requires Inv(hash, t) && RecoveryListing(t, p, now)
    ensures var r := Recover(t, p, now); var u := r.tables;
            && r.result.Ok? && PendingIds(u) == {}
            && u.lease == Unheld(t.lease.generation + 1, now) && r.result.value.generation == u.lease.generation
            && r.result.value.revoked + r.result.value.expired == |PendingIds(t)|
            && (forall id | id in PendingIds(t) ::
                  && id in u.approvals && t.approvals[id].run in u.runs
                     && u.runs[t.approvals[id].run].status.Interrupted?
                  && u.approvals[id].state ==
                       (if id in DueIds(t, now) && id !in OrphanIds(t) then ApprovalState.Expired else Revoked))
  {
    hide Inv, RetireAll, ExpireAll, FailRuns, PendingIds, DueIds, OrphanIds, Listing, ExpiredExactly, RunsKnown;
    OrphansRevoked(hash, t, p.orphaned, now);
    var t1 := RetireAll(Released(t, now), p.orphaned, ServiceRestart, None, now).value;
    DueExpired(hash, t1, p.due, now);
    var t2 := ExpireAll(t1, p.due, now).value;
    ExpiredPending(hash, t1, t2, now);
    ListingFacts(p.survivors, PendingIds(t2));
    InvRunsKnown(hash, t1);
    InvRunsKnown(hash, t2);
    FailRunsEffect(t2, p.survivors, now);
    var u := FailRuns(t2, p.survivors, now).value;
    RecoveryCount(t, t1, t2, now);
    assert PendingIds(u) == {};
    forall id | id in PendingIds(t)
      ensures id in u.approvals && t.approvals[id].run in u.runs && u.runs[t.approvals[id].run].status.Interrupted?
              && u.approvals[id].state ==
                   (if id in DueIds(t, now) && id !in OrphanIds(t) then ApprovalState.Expired else Revoked)
    {
      PendingInTable(t);
      RecoveredRow(t, t1, t2, u, id, now);
    }
  }

  lemma RecoveryCount(t: Tables, t1: Tables, t2: Tables, now: int)
    requires PendingIds(t1) == PendingIds(t) - OrphanIds(t) && PendingIds(t2) == PendingIds(t1) - DueIds(t1, now)
    ensures |PendingIds(t)| == |OrphanIds(t)| + |DueIds(t1, now)| + |PendingIds(t2)|
  {
    hide PendingIds, OrphanIds, DueIds;
    OrphansPending(t, now);
    DuePending(t1, now);
    assert PendingIds(t1) == DueIds(t1, now) + PendingIds(t2);
    assert PendingIds(t) == OrphanIds(t) + PendingIds(t1);
  }

  lemma OrphansPending(t: Tables, now: int)
    ensures OrphanIds(t) <= PendingIds(t)
    ensures forall id | id in OrphanIds(t) ::
              id in t.approvals && t.approvals[id].run in t.runs && t.runs[t.approvals[id].run].status.Interrupted?
  {
  }

  lemma DuePending(t: Tables, now: int)
    ensures DueIds(t, now) <= PendingIds(t)
  {
  }

  lemma ExpiredPending(hash: string -> string, t: Tables, u: Tables, now: int)
    requires Inv(hash, t) && ExpiredExactly(t, u, DueIds(t, now))
    ensures PendingIds(u) == PendingIds(t) - DueIds(t, now) && u.approvals.Keys == t.approvals.Keys
    ensures u.runs.Keys == t.runs.Keys && u.lease == t.lease
    ensures forall id | id in t.approvals && id !in DueIds(t, now) :: u.approvals[id] == t.approvals[id]
    ensures forall id | id in DueIds(t, now) ::
              id in t.approvals && u.approvals[id].state.Expired? && u.approvals[id].run == t.approvals[id].run
              && t.approvals[id].run in t.runs && u.runs[t.approvals[id].run].status.Interrupted?
    ensures forall r | r in t.runs && t.runs[r].status.Interrupted? :: u.runs[r].status.Interrupted?
  {
    hide NewRows, Rows, AddStep, ServiceStep, StepsAfter, Inv;
    InvRunsKnown(hash, t);
    forall id | id in DueIds(t, now) ensures u.runs[t.approvals[id].run].status.Interrupted? {
      assert HasDue(t, DueIds(t, now), t.approvals[id].run, id);
      assert RunAfter(t, u, DueIds(t, now), t.approvals[id].run);
    }
    forall r | r in t.runs && t.runs[r].status.Interrupted? ensures u.runs[r].status.Interrupted? {
      assert RunAfter(t, u, DueIds(t, now), r);
    }
  }

  /** Follow one pending row through the three passes. */
  lemma RecoveredRow(t: Tables, t1: Tables, t2: Tables, u: Tables, id: string, now: int)
    requires id in PendingIds(t) && id in t.approvals
    requires t1.runs == t.runs && t1.approvals.Keys == t.approvals.Keys == t2.approvals.Keys == u.approvals.Keys
    requires t.runs.Keys == t2.runs.Keys == u.runs.Keys && RunsKnown(t1)
    requires forall x | x in t.approvals && x !in OrphanIds(t) :: t1.approvals[x] == t.approvals[x]
    requires forall x | x in OrphanIds(t) ::
               x in t.approvals && t1.approvals[x].state.Revoked? && t1.approvals[x].run == t.approvals[x].run
    requires forall x | x in t.approvals && x !in DueIds(t1, now) :: t2.approvals[x] == t1.approvals[x]
    requires forall x | x in DueIds(t1, now) ::
               x in t.approvals && t2.approvals[x].state.Expired? && t2.approvals[x].run == t1.approvals[x].run
               && t1.approvals[x].run in t1.runs && t2.runs[t1.approvals[x].run].status.Interrupted?
    requires forall x | x in t.approvals && x !in PendingIds(t2) :: u.approvals[x] == t2.approvals[x]
    requires forall x | x in PendingIds(t2) ::
               x in t.approvals && u.approvals[x].state.Revoked? && t2.approvals[x].run in t2.runs
                   && u.runs[t2.approvals[x].run].status.Interrupted?
    requires forall r | r in t.runs && t.runs[r].status.Interrupted? :: t2.runs[r].status.Interrupted?
    requires forall r | r in t2.runs && t2.runs[r].status.Interrupted? :: u.runs[r].status.Interrupted?
    ensures t.approvals[id].run in u.runs && u.runs[t.approvals[id].run].status.Interrupted?
    ensures u.approvals[id].state ==
              (if id in DueIds(t, now) && id !in OrphanIds(t) then ApprovalState.Expired else Revoked)
  {
    hide RunsKnown;
    assert id in OrphanIds(t) ==> id !in DueIds(t1, now) && id !in PendingIds(t2);
    assert id !in OrphanIds(t) ==> (id in DueIds(t1, now) <==> id in DueIds(t, now));
  }
}
