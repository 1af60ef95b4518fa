/** With the supervisor's order of commits, a pending approval's run always waits or is interrupted. */
module Supervision {
  import opened Wrappers
  import opened Tables
  import opened LeaseAndApprovals
  import opened DbInvariant
  import opened DbRuns
  import opened DbPromise
  import opened Waiters

  /** The turn knows what is pending on its run: what it asks about, or nothing. */
  ghost predicate TurnKnows(w: World) {
    w.turn.InTurn? ==> forall x | x in w.tables.approvals && w.tables.approvals[x].run == w.turn.run
                         && w.tables.approvals[x].state.Pending? :: w.turn.asking == Some(x)
  }

  ghost predicate Supervised(hash: string -> string, w: World) {
    Agree(hash, w) && TurnKnows(w) && PendingRunsWait(w.tables)
  }

  /** A row that is pending after a step was so before, of the same run, or was just proposed. */
  lemma PendingBefore(hash: string -> string, t: Tables, op: Op, x: string)
    requires Inv(hash, t) && Legal(t, op)
    requires var u := Step(hash, t, op); x in u.approvals && u.approvals[x].state.Pending?
    ensures var u := Step(hash, t, op);
            || (x in t.approvals && t.approvals[x] == u.approvals[x])
            || (Proposes(hash, t, op, x) && op.Ask? && op.id == x && u.approvals[x].run == op.run)
  {
    hide Inv, Step, Legal, AllStepsEvolve, LeaseEvolves, Proposes;
    var u := Step(hash, t, op);
    if x in t.approvals {
      StepKeeps(hash, t, op);
      assert RowEvolves(t.approvals[x], u.approvals[x]);
    } else {
      NewRowsPending(hash, t, op, x);
      ProposedId(hash, t, op, x);
      ProposedRow(hash, t, op, x);
    }
  }

  lemma CommitKnows(hash: string -> string, w: World, op: Op)
    requires Agree(hash, w) && TurnKnows(w) && Possible(w, Commit(op))
    ensures TurnKnows(After(hash, w, Commit(op)))
  {
    hide Inv, Step, Signals, Legal, Sound, Single, Covered;
    var u := Step(hash, w.tables, op);
    forall x | x in u.approvals && w.turn.InTurn? && u.approvals[x].run == w.turn.run && u.approvals[x].state.Pending?
      ensures w.turn.asking == Some(x)
    {
      PendingBefore(hash, w.tables, op, x);
    }
  }

  lemma ListKnows(hash: string -> string, w: World, order: seq<string>, now: int)
    requires Agree(hash, w) && TurnKnows(w) && Possible(w, ListRows(order, now))
    ensures TurnKnows(After(hash, w, ListRows(order, now)))
  {
    hide Inv, Sound, Single, Covered, Listing, Step;
    var op := SweepDue(order, now);
    SweepStep(hash, w.tables, order, now);
    var u := Step(hash, w.tables, op);
    forall x | x in u.approvals && w.turn.InTurn? && u.approvals[x].run == w.turn.run && u.approvals[x].state.Pending?
      ensures w.turn.asking == Some(x)
    {
      PendingBefore(hash, w.tables, op, x);
    }
  }

  lemma SweepStep(hash: string -> string, t: Tables, order: seq<string>, now: int)
    ensures Step(hash, t, SweepDue(order, now)) == Sweep(t, order, now).tables
  {
    hide Sweep;
  }

  /** A run that is only claimed has nothing pending. */
  lemma ClaimedKnows(hash: string -> string, w: World, run: string)
    requires Agree(hash, w) && Possible(w, StartTurn(run))
    ensures TurnKnows(After(hash, w, StartTurn(run)))
  {
    hide StoredCanonically, OnePending, StepsOk, ProjectedUnlessClaimed, Gated, Journaled, RunsOk, Sound, Single,
         Covered;
  }

  /** The outcome a turn is handed says that its row is settled. */
  lemma WakeKnows(hash: string -> string, w: World, k: nat)
    requires Agree(hash, w) && TurnKnows(w) && k < |w.inFlight|
    ensures TurnKnows(After(hash, w, Wake(k)))
  {
    hide Inv, Single, Covered;
    assert (w.received + w.inFlight)[|w.received| + k] == w.inFlight[k];
  }

  lemma EventKnows(hash: string -> string, w: World, e: Waiters.Event)
    requires Agree(hash, w) && TurnKnows(w) && Possible(w, e)
    ensures TurnKnows(After(hash, w, e))
  {
    match e {
      case Commit(op) => CommitKnows(hash, w, op);
      case ListRows(order, now) => ListKnows(hash, w, order, now);
      case StartTurn(run) => ClaimedKnows(hash, w, run);
      case Wake(k) => WakeKnows(hash, w, k);
      case _ => hide Agree, Step, Signals, Legal, Sweep;
    }
  }

  /** A turn that reports has nothing pending on its run. */
  lemma ReportsNothingPending(w: World, op: Op)
    requires TurnKnows(w) && InOrder(w, op)
    ensures !Abandons(w.tables, op)
  {
  }

  lemma EventWaits(hash: string -> string, w: World, e: Waiters.Event)
    requires Supervised(hash, w) && Possible(w, e)
    ensures PendingRunsWait(After(hash, w, e).tables)
  {
    hide Inv, Sound, Single, Covered, TurnKnows, PendingRunsWait, Step, Abandons, InOrder, Signals, Sweep, Listing;
    match e {
      case Commit(op) =>
        ReportsNothingPending(w, op);
        PromiseKeptIff(hash, w.tables, op);
      case ListRows(order, now) =>
        SweepStep(hash, w.tables, order, now);
        SweepAbandonsNothing(w.tables, order, now);
        PromiseKeptIff(hash, w.tables, SweepDue(order, now));
      case _ =>
    }
  }

  lemma SweepAbandonsNothing(t: Tables, order: seq<string>, now: int)
    ensures !Abandons(t, SweepDue(order, now))
  {
  }

  lemma {:induction false} SupervisedThroughout(hash: string -> string, ws: seq<World>, es: seq<Waiters.Event>, i: nat)
    requires Unfolds(hash, ws, es) && i < |ws|
    ensures Supervised(hash, ws[i])
    decreases i
  {
    hide Inv, Possible, After, Agree, TurnKnows, PendingRunsWait;
    AgreeThroughout(hash, ws, es, i);
    if i == 0 {
      NobodyAtWork();
    } else {
      SupervisedThroughout(hash, ws, es, i - 1);
      assert Follows(hash, ws, es, i - 1);
      EventKnows(hash, ws[i - 1], es[i - 1]);
      EventWaits(hash, ws[i - 1], es[i - 1]);
    }
  }

  lemma NobodyAtWork()
    ensures TurnKnows(Fresh()) && PendingRunsWait(Fresh().tables)
  {
  }

  /** In every run of the service, across crashes, whatever workers report: a pending approval's run
      waits for it or is interrupted. What the database's methods alone do not promise, the order
      in which the supervisor calls them does. */
  lemma PendingRunsAlwaysWait(hash: string -> string, ws: seq<World>, es: seq<Waiters.Event>, i: nat, id: string)
    requires Unfolds(hash, ws, es) && i < |ws|
    requires id in ws[i].tables.approvals && ws[i].tables.approvals[id].state.Pending?
    ensures var t := ws[i].tables; var run := t.approvals[id].run;
            run in t.runs && t.runs[run].status in {WaitingApproval, Interrupted}
  {
    hide Unfolds, Agree, TurnKnows;
    SupervisedThroughout(hash, ws, es, i);
    PendingListed(ws[i].tables, id);
  }
}
