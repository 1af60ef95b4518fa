/** Worker batches: resending, the journal's projections, and where the design's promises need a
    condition. */
module DbBatches {
  import opened Wrappers
  import opened Tables
  import opened LeaseAndApprovals
  import opened WorkerEvents
  import opened DbInvariant
  import opened DbTransactions
  import opened DbRuns

  // ----- sequences -----

  lemma {:induction false} SeqOfPrefix(events: seq<Event>, more: seq<Event>, run: string, source: string)
    requires events <= more && SeqOf(events, run, source) != 0
    ensures SeqOf(more, run, source) == SeqOf(events, run, source)
    decreases |more|
  {
    if events != more {
      assert events <= more[..|more| - 1];
      SeqOfPrefix(events, more[..|more| - 1], run, source);
    }
  }

  lemma SeqOfAppend(events: seq<Event>, e: Event, run: string, source: string)
    ensures SeqOf(events + [e], run, source) ==
              if SeqOf(events, run, source) != 0 then SeqOf(events, run, source)
              else if e.run == run && e.source == source then |events| + 1 else 0
  {
    assert (events + [e])[..|events|] == events;
  }

  /** A returned sequence is the position of the run's row with that source key. */
  lemma {:induction false} SeqOfPoints(events: seq<Event>, run: string, source: string)
    requires SeqOf(events, run, source) != 0
    ensures var k := SeqOf(events, run, source);
            k <= |events| && events[k - 1].run == run && events[k - 1].source == source
  {
    if SeqOf(events[..|events| - 1], run, source) != 0 { SeqOfPoints(events[..|events| - 1], run, source); }
  }

  // ----- resending -----

  lemma ApplyAppends(hash: string -> string, t: Tables, run: string, b: Body, turn: Turn, now: int)
    requires Apply(hash, t, run, b, turn, now).Ok?
    ensures t.events <= Apply(hash, t, run, b, turn, now).value.events
  {
    hide AddStep, Finished, FinishState, AutoRelease, Clashes;
  }

  /** The journal holds each event of the batch at the sequence it was stored under. */
  predicate AllStored(events: seq<Event>, run: string, es: seq<WorkerEvent>, stored: seq<Stored>) {
    |stored| == |es| && forall i | 0 <= i < |es| :: IsStored(events, run, es[i], stored[i])
  }

  predicate IsStored(events: seq<Event>, run: string, e: WorkerEvent, s: Stored) {
    s.id == e.id && s.seqno != 0 && SeqOf(events, run, Source(e)) == s.seqno
  }

  lemma StoredLater(events: seq<Event>, more: seq<Event>, run: string, es: seq<WorkerEvent>, stored: seq<Stored>)
    requires AllStored(events, run, es, stored) && events <= more
    ensures AllStored(more, run, es, stored)
  {
    forall i | 0 <= i < |es| ensures IsStored(more, run, es[i], stored[i]) {
      assert IsStored(events, run, es[i], stored[i]);
      SeqOfPrefix(events, more, run, Source(es[i]));
    }
  }

  lemma ApplyOneStores(hash: string -> string, t: Tables, run: string, e: WorkerEvent, turn: Turn, now: int)
    requires ApplyOne(hash, t, run, e, turn, now).Ok?
    ensures var r := ApplyOne(hash, t, run, e, turn, now).value;
            t.events <= r.0.events && IsStored(r.0.events, run, e, r.1)
  {
    hide Apply;
    if SeqOf(t.events, run, Source(e)) == 0 {
      var t1 := t.(events := t.events + [RowOf(run, e)]);
      SeqOfAppend(t.events, RowOf(run, e), run, Source(e));
      ApplyAppends(hash, t1, run, e.body, turn, now);
      SeqOfPrefix(t1.events, ApplyOne(hash, t, run, e, turn, now).value.0.events, run, Source(e));
    }
  }

  lemma {:induction false} ApplyAllStores(hash: string -> string, t: Tables, run: string, es: seq<WorkerEvent>,
                                          turn: Turn, now: int)
    requires ApplyAll(hash, t, run, es, turn, now).Ok?
    ensures var r := ApplyAll(hash, t, run, es, turn, now).value;
            t.events <= r.0.events && AllStored(r.0.events, run, es, r.1.stored)
    decreases |es|
  {
    hide ApplyOne, IsStored;
    if es != [] {
      var init, e := es[..|es| - 1], es[|es| - 1];
      ApplyAllStores(hash, t, run, init, turn, now);
      var m := ApplyAll(hash, t, run, init, turn, now).value;
      ApplyOneStores(hash, m.0, run, e, turn, now);
      var r := ApplyAll(hash, t, run, es, turn, now).value;
      StoredLater(m.0.events, r.0.events, run, init, m.1.stored);
      forall i | 0 <= i < |es| ensures IsStored(r.0.events, run, es[i], r.1.stored[i]) {
        if i < |init| { assert IsStored(r.0.events, run, init[i], m.1.stored[i]); }
      }
    }
  }

  function AsDuplicates(stored: seq<Stored>): seq<Stored> {
    seq(|stored|, i requires 0 <= i < |stored| => stored[i].(duplicate := true))
  }

  lemma {:induction false} KnownBatch(hash: string -> string, t: Tables, run: string, es: seq<WorkerEvent>,
                                      stored: seq<Stored>, turn: Turn, now: int)
    requires AllStored(t.events, run, es, stored)
    ensures ApplyAll(hash, t, run, es, turn, now) == Ok((t, Batch(AsDuplicates(stored), false)))
    decreases |es|
  {
    hide Apply;
    if es != [] {
      var init := es[..|es| - 1];
      assert AllStored(t.events, run, init, stored[..|init|]) by {
        forall i | 0 <= i < |init| ensures IsStored(t.events, run, init[i], stored[i]) {
          assert IsStored(t.events, run, es[i], stored[i]);
        }
      }
      KnownBatch(hash, t, run, init, stored[..|init|], turn, now);
      assert IsStored(t.events, run, es[|es| - 1], stored[|es| - 1]);
      assert AsDuplicates(stored) == AsDuplicates(stored[..|init|]) + [stored[|init|].(duplicate := true)];
    } else {
      assert AsDuplicates(stored) == [];
    }
  }

  /** In any run, re-sending a batch that succeeded changes no table, whatever happened since; and
      while the run still accepts it under the same generation, the reply repeats the same
      sequences, every one marked duplicate. */
  lemma ResendChangesNothing(hash: string -> string, h: History, i: nat, j: nat, turn: Turn, now: int)
    requires Behaviour(hash, h) && i < j < |h.states| && h.ops[i].Report?
    requires ApplyBatch(hash, h.states[i], h.ops[i].run, h.ops[i].generation, h.ops[i].es, h.ops[i].turn,
                        h.ops[i].now).result.Ok?
    ensures var op, v := h.ops[i], h.states[j];
            var first := ApplyBatch(hash, h.states[i], op.run, op.generation, op.es, op.turn, op.now).result.value;
            var again := ApplyBatch(hash, v, op.run, op.generation, op.es, turn, now);
            && again.tables == v
            && (again.result.Ok? ==> again.result.value == Batch(AsDuplicates(first.stored), false))
            && (op.run in v.runs && v.runs[op.run].generation == op.generation && Accepting(v, op.run, op.es) ==>
                 again.result.Ok?)
  {
    hide Inv, Legal, AllStored, Empty, ApplyAll, Evolves;
    var op, t, v := h.ops[i], h.states[i], h.states[j];
    var u := h.states[i + 1];
    assert Linked(hash, h, i);
    ReportResult(hash, t, op);
    ApplyAllStores(hash, t, op.run, op.es, op.turn, op.now);
    EventsKept(hash, h, i + 1, j);
    var first := ApplyAll(hash, t, op.run, op.es, op.turn, op.now).value.1;
    StoredLater(u.events, v.events, op.run, op.es, first.stored);
    KnownBatch(hash, v, op.run, op.es, first.stored, turn, now);
  }

  lemma ReportResult(hash: string -> string, t: Tables, op: Op)
    requires op.Report? && ApplyBatch(hash, t, op.run, op.generation, op.es, op.turn, op.now).result.Ok?
    ensures var r := ApplyAll(hash, t, op.run, op.es, op.turn, op.now);
            r.Ok? && Step(hash, t, op) == r.value.0
            && ApplyBatch(hash, t, op.run, op.generation, op.es, op.turn, op.now).result.value == r.value.1
  {
    hide ApplyAll;
  }

  lemma EventsKept(hash: string -> string, h: History, i: nat, j: nat)
    requires Behaviour(hash, h) && i <= j < |h.states|
    ensures h.states[i].events <= h.states[j].events
  {
    hide Behaviour, RowsEvolve, AllStepsEvolve, LeaseEvolves;
    NeverUndone(hash, h, i, j);
  }

  // ----- projections -----

  /** In every state of every run, unless the run's worker has started a tool under that very key:
      the step keyed `approval:<id>` exists exactly when the action will never execute, `denied`
      for a denied row and `cancelled` otherwise, and it is the only one. */
  lemma ApprovalSteps(hash: string -> string, h: History, i: nat, id: string, run: string)
    requires Behaviour(hash, h) && i < |h.states| && !Claimed(h.states[i].events, run, ApprovalKey(id))
    ensures var t := h.states[i]; var ss := StepsOf(t, run);
            && (HasKey(ss, ApprovalKey(id)) <==>
                 id in t.approvals && t.approvals[id].run == run && NeverRuns(t.approvals[id]))
            && (forall k | 0 <= k < |ss| && ss[k].key == ApprovalKey(id) ::
                  id in t.approvals
                      && ss[k].state == (if t.approvals[id].state.Denied? then StepDenied else StepCancelled))
            && (forall k, l | 0 <= k < |ss| && 0 <= l < |ss| && ss[k].key == ApprovalKey(id) == ss[l].key :: k == l)
  {
    hide Behaviour, RowsOk, OnePending, Gated, Journaled, Claimed;
    Reachable(hash, h, i);
    assert Unspoiled(h.states[i], run, id) && Numbered(StepsOf(h.states[i], run));
  }

  /** In every state of every run the lease has a holder, and a heartbeat, exactly in its human
      states, and a private bracket only while the human has it. */
  lemma LeaseFacts(hash: string -> string, h: History, i: nat)
    requires Behaviour(hash, h) && i < |h.states|
    ensures var l := h.states[i].lease;
            && (l.holder.Some? <==> l.state in {LeaseState.Pausing, LeaseState.Human, LeaseState.Resuming})
            && (l.heartbeat.Some? <==> l.holder.Some?)
            && (l.bracket ==> l.state.Human?)
  {
    hide Behaviour, RowsOk, OnePending, ProjectedUnlessClaimed, Gated, Journaled, StepsOk;
    Reachable(hash, h, i);
  }

  /** In every state of every run: at most one approval of a run is pending, it carries the
      current grant revision, and its run waits or was failed closed. */
  lemma PendingFacts(hash: string -> string, h: History, i: nat, x: string, y: string)
    requires Behaviour(hash, h) && i < |h.states| && x in PendingIds(h.states[i]) && y in PendingIds(h.states[i])
    ensures var t := h.states[i]; var a := t.approvals[x];
            && (a.run == t.approvals[y].run ==> x == y)
            && a.grant == t.grant && a.run in t.runs && Parked(t.runs[a.run].status)
  {
    hide Behaviour, StoredCanonically, ProjectedUnlessClaimed, Gated, Journaled, StepsOk;
    Reachable(hash, h, i);
    RowFacts(hash, h.states[i], x);
  }
}
