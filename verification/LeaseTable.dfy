/** A reference table of the controller lease, written independently of the transactions: which move is
    accepted from whom, and what the lease is afterwards. */
module LeaseTable {
  import opened Wrappers
  import opened Text
  import opened Tables
  import opened LeaseAndApprovals
  import opened DbInvariant
  import opened ApprovalTable
  import DbSettlement

  /** A hold is stale when its holder has been silent for more than five minutes. */
  predicate Silent(l: Lease, now: int) {
    l.holder.Some? && l.heartbeat.Some? && now - l.heartbeat.value > 300_000
  }

  /** The agent has the computer, under a generation of its own. */
  function Free(generation: nat, now: int): Lease {
    Lease(generation, LeaseState.Agent, None, false, None, None, now)
  }

  /** The lease a transaction sees: a stale hold is released first. */
  function Current(l: Lease, now: int): Lease {
    if Silent(l, now) then Free(l.generation + 1, now) else l
  }

  lemma CurrentTable(l: Lease, now: int)
    ensures AutoRelease(l, now) == Current(l, now)
  {
  }

  predicate Known(t: Tables, run: Option<string>) {
    run.None? || run.value in t.runs
  }

  /** The journal with a lease row on the run a transition affects, if any. */
  function LeaseJournal(events: seq<Event>, run: Option<string>, name: string, generation: nat): seq<Event> {
    if run.None? then events
    else Journalled(events, run.value, run.value + ":" + name + ":" + Decimal(generation), name)
  }

  lemma LeaseRowTable(t: Tables, run: Option<string>, name: string, generation: nat)
    ensures LeaseRow(t, run, name, generation) ==
              if Known(t, run) then Ok(t.(events := LeaseJournal(t.events, run, name, generation)))
              else Err(RunNotFound)
  {
    hide Journalled, AddRow;
    if run.Some? { RowTable(t, run.value + ":" + name + ":" + Decimal(generation), run.value, name); }
  }

  lemma MaintenanceTable(t: Tables, now: int)
    ensures LeaseMaintenance(t, now) == Tx(t.(lease := Current(t.lease, now)), Ok(Silent(t.lease, now)))
  {
  }

  // ----- the holder's moves -----

  /** The state and bracket each move is made in. */
  predicate Suits(m: HolderMove, state: LeaseState, bracket: bool) {
    match m
    case TakeoverAck => state == Pausing
    case PrivateBegin => state == Human && !bracket
    case PrivateEnd => state == Human && bracket
    case ResumeAgent => state == Human && !bracket
    case Heartbeat => state == Human || state == Resuming || state == LeaseState.Paused
  }

  function NameOf(m: HolderMove): string {
    match m
    case TakeoverAck => "lease.takeover_ack"
    case PrivateBegin => "lease.private_begin"
    case PrivateEnd => "lease.private_end"
    case ResumeAgent => "lease.resume"
    case Heartbeat => ""
  }

  /** The lease a move leaves: always the same holder, held since the same time, just heard of. */
  predicate MovesTo(m: HolderMove, l: Lease, n: Lease, now: int) {
    && n.holder == l.holder && n.heldSince == l.heldSince && n.heartbeat == Some(now) && n.updated == now
    && n.generation == (if m == Heartbeat then l.generation else l.generation + 1)
    && n.state == (if m == TakeoverAck then LeaseState.Human else if m == ResumeAgent then Resuming else l.state)
    && n.bracket == (if m == PrivateBegin then true else if m == PrivateEnd then false else l.bracket)
  }

  /** A move is accepted exactly when the caller knows the current generation, is the holder, the state
      is one the move is made in, and the run to journal to exists; the three refusals before that are
      told apart in this order. A refusal changes nothing, not even a stale hold. */
  lemma HoldTable(t: Tables, m: HolderMove, device: string, expected: nat, run: Option<string>, now: int)
    ensures var r, l := Hold(t, m, device, expected, run, now), Current(t.lease, now);
            && (r.result.Ok? <==>
                  && expected == l.generation && l.holder == Some(device) && Suits(m, l.state, l.bracket)
                  && (m == Heartbeat || Known(t, run)))
            && (r.result.Err? ==>
                  && r.tables == t
                  && r.result.error ==
                       (if expected != l.generation then StaleLease
                        else if l.holder != Some(device) then NotHolder
                        else if !Suits(m, l.state, l.bracket) then WrongState else RunNotFound))
            && (r.result.Ok? ==>
                  && MovesTo(m, l, r.result.value, now)
                  && r.tables ==
                       t.(lease := r.result.value,
                          events := if m == Heartbeat then t.events
                                    else LeaseJournal(t.events, run, NameOf(m), l.generation + 1)))
  {
    hide LeaseRow, LeaseJournal, Silent, AutoRelease;
    CurrentTable(t.lease, now);
    var l := Current(t.lease, now);
    LeaseRowTable(t.(lease := Moved(m, l, now)), run, MoveName(m), Moved(m, l, now).generation);
  }

  // ----- taking and releasing -----

  /** Any paired device can take the computer at any time: a running turn is paused first, every pending
      approval is revoked, the bracket is closed, and the generation rises. */
  lemma TakeoverTable(hash: string -> string, t: Tables, device: string, active: bool, run: Option<string>,
                      order: seq<string>, now: int)
    requires Inv(hash, t) && Listing(order, PendingIds(t))
    ensures var r := Takeover(t, device, active, run, order, now);
            && r.result == (if Known(t, run) then Ok(LeaseOutcome(order, active)) else Err(RunNotFound))
            && (r.result.Err? ==> r.tables == t)
            && (r.result.Ok? ==>
                  && r.tables.lease ==
                       Lease(t.lease.generation + 1, if active then Pausing else LeaseState.Human, Some(device), false,
                             Some(now), Some(now), now)
                  && AllRevoked(t, r.tables.(lease := t.lease), order, LeaseTakeover, None, now)
                  && (run.Some? ==>
                        Taken(r.tables.events, run.value,
                              run.value + ":lease.takeover:" + Decimal(t.lease.generation + 1))))
  {
    hide Inv, RetireAll, AllRevoked, PendingIds, Listing, LeaseRow, Taken;
    var g := t.lease.generation + 1;
    var t1 := t.(lease := Lease(g, if active then LeaseState.Pausing else LeaseState.Human, Some(device), false,
                                Some(now), Some(now), now));
    DbSettlement.InvRunsKnown(hash, t);
    DbSettlement.ListingFacts(order, PendingIds(t));
    DbSettlement.SamePendingIds(t, t1);
    DbSettlement.RetireAllOk(t1, order, LeaseTakeover, None, now);
    RetireAllTable(t1, order, LeaseTakeover, None, now);
    var t2 := RetireAll(t1, order, LeaseTakeover, None, now).value;
    RevokedFrame(t1, t2, t, order, LeaseTakeover, None, now);
    RevokedRuns(t1, t2, order, LeaseTakeover, None, now);
    LeaseRowTable(t2, run, "lease.takeover", g);
    if run.Some? {
      var key := run.value + ":" + "lease.takeover" + ":" + Decimal(g);
      assert run.value + ":lease.takeover:" + Decimal(g) == key;
      JournalledFacts(t2.events, run.value, key, "lease.takeover");
    }
    if Known(t, run) {
      MoreRows(t, t2.(lease := t.lease), LeaseJournal(t2.events, run, "lease.takeover", g), order, LeaseTakeover, None,
               now);
    }
  }

  lemma RevokedRuns(t: Tables, u: Tables, ids: seq<string>, reason: Reason, who: Option<string>, now: int)
    requires AllRevoked(t, u, ids, reason, who, now)
    ensures u.runs == t.runs && t.events <= u.events
  {
  }

  lemma MoreRows(t: Tables, u: Tables, more: seq<Event>, ids: seq<string>, reason: Reason, who: Option<string>,
                 now: int)
    requires AllRevoked(t, u, ids, reason, who, now) && u.events <= more
    ensures AllRevoked(t, u.(events := more), ids, reason, who, now)
  {
    hide Taken;
    forall x | x in ids ensures RevokedFor(t, u.(events := more), x, reason, who, now) {
      assert RevokedFor(t, u, x, reason, who, now);
      TakenLater(u.events, more, t.approvals[x].run, x + ":approval.revoked");
    }
  }

  /** The kill switch, when nothing is pending: anyone who knows the current generation releases the
      lease; a turn that was being paused is reported as killed. */
  lemma KillTable(hash: string -> string, t: Tables, device: string, expected: nat, run: Option<string>, now: int)
    requires Inv(hash, t) && PendingIds(t) == {}
    ensures var r, l := RevokeLease(t, device, expected, run, [], now), Current(t.lease, now);
            && r.result == (if expected != l.generation then Err(StaleLease)
                            else if Known(t, run) then Ok(LeaseOutcome([], l.state == Pausing)) else Err(RunNotFound))
            && (r.result.Err? ==> r.tables == t)
            && (r.result.Ok? ==>
                  r.tables == t.(lease := Free(l.generation + 1, now),
                                 events := LeaseJournal(t.events, run, "lease.released", l.generation + 1)))
  {
    hide Inv, LeaseRow, LeaseJournal, Silent, AutoRelease, RetireAll;
    CurrentTable(t.lease, now);
    var l := Current(t.lease, now);
    DbSettlement.RetireNothing(t.(lease := l), LeaseRevoked, None, now);
    LeaseRowTable(t.(lease := Free(l.generation + 1, now)), run, "lease.released", l.generation + 1);
  }

  /** The computer goes back to the agent only from a live Resuming lease, with two rows in the journal. */
  lemma ObservedTable(t: Tables, run: string, now: int)
    ensures var r, l := NoteObserved(t, run, now), Current(t.lease, now);
            && (r.Ok? <==> l.state == Resuming && run in t.runs)
            && (r.Err? ==> r.error == if l.state == Resuming then RunNotFound else WrongState)
            && (r.Ok? ==>
                  r.value ==
                    t.(lease := Free(l.generation + 1, now),
                       events := LeaseJournal(LeaseJournal(t.events, Some(run), "lease.observed", l.generation + 1),
                                              Some(run), "lease.resumed", l.generation + 1)))
  {
    hide LeaseRow, LeaseJournal, Silent, AutoRelease;
    CurrentTable(t.lease, now);
    var l := Current(t.lease, now);
    var t0 := t.(lease := Free(l.generation + 1, now));
    LeaseRowTable(t0, Some(run), "lease.observed", l.generation + 1);
    LeaseRowTable(t0.(events := LeaseJournal(t.events, Some(run), "lease.observed", l.generation + 1)), Some(run),
                  "lease.resumed", l.generation + 1);
  }
}
