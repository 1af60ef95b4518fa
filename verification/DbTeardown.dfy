/** Batches of teardown evidence on a run that has ended: what they do, and which are accepted. */
module DbTeardown {
  import opened Wrappers
  import opened Tables
  import opened WorkerEvents
  import opened DbWorkerSteps
  import opened DbBatches

  /** The first event of the batch with its source key, and not journalled yet. */
  predicate IsNew(t: Tables, run: string, es: seq<WorkerEvent>, i: nat)
    requires i < |es|
  {
    SeqOf(t.events, run, Source(es[i])) == 0 && forall j: nat | j < i :: Source(es[j]) != Source(es[i])
  }

  /** A new report that the worker terminated without a clean teardown. */
  predicate DirtyEnd(t: Tables, run: string, es: seq<WorkerEvent>) {
    exists i: nat | i < |es| :: es[i].body == RunTerminated(false) && IsNew(t, run, es, i)
  }

  ghost predicate SourcesKnown(t: Tables, u: Tables, run: string, es: seq<WorkerEvent>) {
    forall s: string :: SeqOf(u.events, run, s) != 0 <==>
        SeqOf(t.events, run, s) != 0 || exists j: nat | j < |es| :: Source(es[j]) == s
  }

  lemma {:induction false} TeardownBatch(hash: string -> string, t: Tables, run: string, es: seq<WorkerEvent>,
                                         turn: Turn, now: int)
    requires run in t.runs && Terminal(t.runs[run].status) && OnlyTerminated(es)
    requires ApplyAll(hash, t, run, es, turn, now).Ok?
    ensures var u := ApplyAll(hash, t, run, es, turn, now).value.0;
            && u.approvals == t.approvals && u.lease == t.lease
            && u.runs == (if DirtyEnd(t, run, es) then t.runs[run := t.runs[run].(status := Failed)] else t.runs)
            && (!DirtyEnd(t, run, es) ==> SourcesKnown(t, u, run, es))
    decreases |es|
  {
    hide SeqOf, InsertOrIgnore, DirtyEnd, SourcesKnown, IsNew;
    if es == [] {
      NothingNew(t, run);
    } else {
      var init, e := es[..|es| - 1], es[|es| - 1];
      TeardownBatch(hash, t, run, init, turn, now);
      var m := ApplyAll(hash, t, run, init, turn, now).value.0;
      DirtyEndGrows(t, run, es);
      if !DirtyEnd(t, run, init) {
        NewWhenUnknown(t, m, run, es);
        var u := ApplyAll(hash, t, run, es, turn, now).value.0;
        if !DirtyEnd(t, run, es) { SourcesGrow(t, m, u, run, es); }
      }
    }
  }

  lemma NothingNew(t: Tables, run: string)
    ensures !DirtyEnd(t, run, []) && SourcesKnown(t, t, run, [])
  {
  }

  lemma NewWhenUnknown(t: Tables, m: Tables, run: string, es: seq<WorkerEvent>)
    requires es != [] && SourcesKnown(t, m, run, es[..|es| - 1])
    ensures SeqOf(m.events, run, Source(es[|es| - 1])) == 0 <==> IsNew(t, run, es, |es| - 1)
  {
    hide SeqOf;
    var init := es[..|es| - 1];
    forall j: nat | j < |init| ensures Source(init[j]) == Source(es[j]) {}
  }

  lemma DirtyEndGrows(t: Tables, run: string, es: seq<WorkerEvent>)
    requires es != []
    ensures DirtyEnd(t, run, es) <==>
              DirtyEnd(t, run, es[..|es| - 1])
                  || (es[|es| - 1].body == RunTerminated(false) && IsNew(t, run, es, |es| - 1))
  {
    hide SeqOf;
    var init := es[..|es| - 1];
    forall i: nat | i < |init| ensures IsNew(t, run, es, i) <==> IsNew(t, run, init, i) {}
    if DirtyEnd(t, run, init) {
      var i: nat :| i < |init| && init[i].body == RunTerminated(false) && IsNew(t, run, init, i);
      assert IsNew(t, run, es, i);
    }
  }

  lemma SourcesGrow(t: Tables, m: Tables, u: Tables, run: string, es: seq<WorkerEvent>)
    requires es != [] && SourcesKnown(t, m, run, es[..|es| - 1])
    requires var e := es[|es| - 1];
             u.events == if SeqOf(m.events, run, Source(e)) != 0 then m.events else m.events + [RowOf(run, e)]
    ensures SourcesKnown(t, u, run, es)
  {
    hide SeqOf;
    var init, e := es[..|es| - 1], es[|es| - 1];
    forall s: string
      ensures SeqOf(u.events, run, s) != 0 <==>
                SeqOf(t.events, run, s) != 0 || exists j: nat | j < |es| :: Source(es[j]) == s
    {
      SeqOfAppend(m.events, RowOf(run, e), run, s);
      if j: nat :| j < |es| && Source(es[j]) == s { assert j < |init| ==> Source(init[j]) == s; }
      if j: nat :| j < |init| && Source(init[j]) == s { assert Source(es[j]) == s; }
      if Source(e) == s { assert Source(es[|es| - 1]) == s; }
    }
  }

  // ----- acceptance -----

  /** The milestone an unclean end adds. */
  function FailedRow(run: string): Event {
    var key := run + ":" + "run.failed";
    Event(key, run, Service("run.failed"), key, true)
  }

  /** The journal after a batch of teardown evidence, or None when a new event's row id is taken:
      a question about the journal and the batch alone. */
  function TeardownJournal(events: seq<Event>, run: string, es: seq<WorkerEvent>): Option<seq<Event>> {
    if es == [] then Some(events) else
    var before := TeardownJournal(events, run, es[..|es| - 1]);
    var e := es[|es| - 1];
    if before.None? then None
    else if SeqOf(before.value, run, Source(e)) == 0 && IdTaken(before.value, run + ":" + e.id) then None
    else Some(WithEvidence(before.value, run, e))
  }

  function WithEvidence(events: seq<Event>, run: string, e: WorkerEvent): seq<Event> {
    if SeqOf(events, run, Source(e)) != 0 then events
    else if e.body == RunTerminated(false) then InsertOrIgnore(events + [RowOf(run, e)], FailedRow(run))
    else events + [RowOf(run, e)]
  }

  predicate IdTaken(events: seq<Event>, id: string) {
    exists i | 0 <= i < |events| :: events[i].id == id
  }

  /** On a run that has ended, teardown evidence is refused only for a row id that is taken. */
  lemma {:induction false} TeardownAccepted(hash: string -> string, t: Tables, run: string, es: seq<WorkerEvent>,
                                            turn: Turn, now: int)
    requires run in t.runs && Terminal(t.runs[run].status) && OnlyTerminated(es)
    ensures var r, j := ApplyAll(hash, t, run, es, turn, now), TeardownJournal(t.events, run, es);
            && (r.Ok? <==> j.Some?)
            && (r.Ok? ==> r.value.0.events == j.value && run in r.value.0.runs && Terminal(r.value.0.runs[run].status))
    decreases |es|
  {
    hide SeqOf, InsertOrIgnore, Ended, IdTaken;
    if es != [] {
      var init, e := es[..|es| - 1], es[|es| - 1];
      TeardownAccepted(hash, t, run, init, turn, now);
      if ApplyAll(hash, t, run, init, turn, now).Ok? {
        EvidenceAccepted(hash, ApplyAll(hash, t, run, init, turn, now).value.0, run, e, turn, now);
      }
    }
  }

  /** One piece of teardown evidence on a run that has ended. */
  lemma EvidenceAccepted(hash: string -> string, t: Tables, run: string, e: WorkerEvent, turn: Turn, now: int)
    requires run in t.runs && Terminal(t.runs[run].status) && e.body.RunTerminated?
    ensures var r := ApplyOne(hash, t, run, e, turn, now);
            && (r.Ok? <==> SeqOf(t.events, run, Source(e)) != 0 || !IdTaken(t.events, run + ":" + e.id))
            && (r.Ok? ==> r.value.0.events == WithEvidence(t.events, run, e))
            && (r.Ok? ==> run in r.value.0.runs && Terminal(r.value.0.runs[run].status))
  {
    hide SeqOf, InsertOrIgnore;
  }

  /** When a batch for a run that has ended is accepted. */
  lemma BatchAccepted(hash: string -> string, t: Tables, run: string, generation: nat, es: seq<WorkerEvent>,
                      turn: Turn, now: int)
    requires run in t.runs && !(t.runs[run].status in {Running, Cancelling})
    ensures ApplyBatch(hash, t, run, generation, es, turn, now).result.Ok? <==>
              && t.runs[run].generation == generation && Terminal(t.runs[run].status)
              && OnlyTerminated(es) && TeardownJournal(t.events, run, es).Some?
  {
    hide ApplyAll, TeardownJournal;
    if Terminal(t.runs[run].status) && OnlyTerminated(es) { TeardownAccepted(hash, t, run, es, turn, now); }
  }

  // ----- the same in closed form -----

  /** No event uses the row id or the source key of the service's own milestone. */
  predicate PlainKeys(run: string, es: seq<WorkerEvent>) {
    forall i | 0 <= i < |es| :: Source(es[i]) != FailedRow(run).source && run + ":" + es[i].id != FailedRow(run).id
  }

  /** No new event's row id is in the journal already or repeated among the batch's new events. */
  predicate FreshIds(t: Tables, run: string, es: seq<WorkerEvent>) {
    forall i: nat | i < |es| && IsNew(t, run, es, i) :: FreshId(t, run, es, i)
  }

  predicate FreshId(t: Tables, run: string, es: seq<WorkerEvent>, i: nat)
    requires i < |es|
  {
    !IdTaken(t.events, run + ":" + es[i].id) && forall j: nat | j < i && IsNew(t, run, es, j) :: es[j].id != es[i].id
  }

  /** What the journal knows after a batch, the service's milestone aside. */
  ghost predicate KnownAfter(t: Tables, events: seq<Event>, run: string, es: seq<WorkerEvent>) {
    && (forall s: string | s != FailedRow(run).source :: KnownSource(t, events, run, es, s))
    && (forall id: string | id != FailedRow(run).id :: KnownId(t, events, run, es, id))
  }

  predicate KnownSource(t: Tables, events: seq<Event>, run: string, es: seq<WorkerEvent>, s: string) {
    SeqOf(events, run, s) != 0 <==> SeqOf(t.events, run, s) != 0 || exists j: nat | j < |es| :: Source(es[j]) == s
  }

  predicate KnownId(t: Tables, events: seq<Event>, run: string, es: seq<WorkerEvent>, id: string) {
    IdTaken(events, id) <==>
      IdTaken(t.events, id) || exists j: nat | j < |es| && IsNew(t, run, es, j) :: run + ":" + es[j].id == id
  }

  lemma NothingKnown(t: Tables, run: string)
    ensures FreshIds(t, run, []) && KnownAfter(t, t.events, run, [])
  {
  }

  lemma NewInFront(t: Tables, run: string, es: seq<WorkerEvent>, i: nat)
    requires es != [] && i < |es| - 1
    ensures IsNew(t, run, es, i) <==> IsNew(t, run, es[..|es| - 1], i)
    ensures FreshId(t, run, es, i) <==> FreshId(t, run, es[..|es| - 1], i)
  {
    hide SeqOf, IdTaken;
    var init := es[..|es| - 1];
    forall j: nat | j <= i ensures IsNew(t, run, es, j) <==> IsNew(t, run, init, j) {
      forall k: nat | k < j ensures Source(init[k]) == Source(es[k]) {}
    }
  }

  lemma FreshIdsGrow(t: Tables, run: string, es: seq<WorkerEvent>)
    requires es != []
    ensures FreshIds(t, run, es) <==>
              FreshIds(t, run, es[..|es| - 1]) && (IsNew(t, run, es, |es| - 1) ==> FreshId(t, run, es, |es| - 1))
  {
    hide IsNew, FreshId;
    var init := es[..|es| - 1];
    forall i: nat | i < |init|
      ensures IsNew(t, run, es, i) <==> IsNew(t, run, init, i)
      ensures FreshId(t, run, es, i) <==> FreshId(t, run, init, i)
    {
      NewInFront(t, run, es, i);
    }
    if FreshIds(t, run, init) && (IsNew(t, run, es, |es| - 1) ==> FreshId(t, run, es, |es| - 1)) {
      forall i: nat | i < |es| && IsNew(t, run, es, i) ensures FreshId(t, run, es, i) {
        if i < |init| { assert IsNew(t, run, init, i); }
      }
    }
    if FreshIds(t, run, es) {
      forall i: nat | i < |init| && IsNew(t, run, init, i) ensures FreshId(t, run, init, i) {
        assert IsNew(t, run, es, i);
      }
    }
  }

  lemma LastIsNew(t: Tables, events: seq<Event>, run: string, es: seq<WorkerEvent>)
    requires es != [] && KnownAfter(t, events, run, es[..|es| - 1]) && Source(es[|es| - 1]) != FailedRow(run).source
    ensures SeqOf(events, run, Source(es[|es| - 1])) == 0 <==> IsNew(t, run, es, |es| - 1)
  {
    hide SeqOf, KnownId;
    var init, s := es[..|es| - 1], Source(es[|es| - 1]);
    assert KnownSource(t, events, run, init, s);
    forall j: nat | j < |init| ensures Source(init[j]) == Source(es[j]) {}
  }

  lemma LastIsFresh(t: Tables, events: seq<Event>, run: string, es: seq<WorkerEvent>)
    requires es != [] && KnownAfter(t, events, run, es[..|es| - 1]) && run + ":" + es[|es| - 1].id != FailedRow(run).id
    ensures IdTaken(events, run + ":" + es[|es| - 1].id) <==> !FreshId(t, run, es, |es| - 1)
  {
    hide IsNew, IdTaken, KnownSource;
    var init, id := es[..|es| - 1], run + ":" + es[|es| - 1].id;
    assert KnownId(t, events, run, init, id);
    forall j: nat | j < |init|
      ensures IsNew(t, run, es, j) <==> IsNew(t, run, init, j)
      ensures run + ":" + init[j].id == id <==> es[j].id == es[|es| - 1].id
    {
      NewInFront(t, run, es, j);
      SameRowId(run, es[j].id, es[|es| - 1].id);
    }
  }

  lemma SameRowId(run: string, x: string, y: string)
    ensures run + ":" + x == run + ":" + y <==> x == y
  {
    assert (run + ":" + x)[|run| + 1..] == x && (run + ":" + y)[|run| + 1..] == y;
  }

  lemma IdTakenAppend(events: seq<Event>, e: Event, id: string)
    ensures IdTaken(events + [e], id) <==> IdTaken(events, id) || e.id == id
  {
    if i :| 0 <= i < |events| && events[i].id == id { assert (events + [e])[i].id == id; }
    assert (events + [e])[|events|] == e;
  }

  /** One more event: its source becomes known, and its row id when it is new. */
  lemma SourceGrows(t: Tables, before: seq<Event>, after: seq<Event>, run: string, es: seq<WorkerEvent>, s: string)
    requires es != [] && KnownSource(t, before, run, es[..|es| - 1], s)
    requires SeqOf(after, run, s) != 0 <==> SeqOf(before, run, s) != 0 || s == Source(es[|es| - 1])
    ensures KnownSource(t, after, run, es, s)
  {
    hide SeqOf;
    var init := es[..|es| - 1];
    if j: nat :| j < |es| && Source(es[j]) == s { assert j < |init| ==> Source(init[j]) == s; }
    if j: nat :| j < |init| && Source(init[j]) == s { assert Source(es[j]) == s; }
    assert Source(es[|es| - 1]) == s ==> exists j: nat | j < |es| :: Source(es[j]) == s;
  }

  lemma IdGrows(t: Tables, before: seq<Event>, after: seq<Event>, run: string, es: seq<WorkerEvent>, id: string)
    requires es != [] && KnownId(t, before, run, es[..|es| - 1], id)
    requires IdTaken(after, id) <==>
               IdTaken(before, id) || (IsNew(t, run, es, |es| - 1) && id == run + ":" + es[|es| - 1].id)
    ensures KnownId(t, after, run, es, id)
  {
    hide IsNew, IdTaken;
    var init := es[..|es| - 1];
    forall j: nat | j < |init| ensures IsNew(t, run, es, j) <==> IsNew(t, run, init, j) { NewInFront(t, run, es, j); }
    if j: nat :| j < |es| && IsNew(t, run, es, j) && run + ":" + es[j].id == id {
      assert j < |init| ==> IsNew(t, run, init, j) && run + ":" + init[j].id == id;
    }
    if j: nat :| j < |init| && IsNew(t, run, init, j) && run + ":" + init[j].id == id {
      assert IsNew(t, run, es, j) && run + ":" + es[j].id == id;
    }
  }

  lemma KnownUnchanged(t: Tables, events: seq<Event>, run: string, es: seq<WorkerEvent>)
    requires es != [] && KnownAfter(t, events, run, es[..|es| - 1])
    requires SeqOf(events, run, Source(es[|es| - 1])) != 0 && !IsNew(t, run, es, |es| - 1)
    ensures KnownAfter(t, events, run, es)
  {
    hide SeqOf, IsNew, IdTaken, KnownSource, KnownId;
    forall s: string | s != FailedRow(run).source ensures KnownSource(t, events, run, es, s) {
      SourceGrows(t, events, events, run, es, s);
    }
    forall id: string | id != FailedRow(run).id ensures KnownId(t, events, run, es, id) {
      IdGrows(t, events, events, run, es, id);
    }
  }

  lemma KnownGrows(t: Tables, before: seq<Event>, run: string, es: seq<WorkerEvent>, after: seq<Event>)
    requires es != [] && KnownAfter(t, before, run, es[..|es| - 1]) && IsNew(t, run, es, |es| - 1)
    requires var rows := before + [RowOf(run, es[|es| - 1])]; after == rows || after == rows + [FailedRow(run)]
    ensures KnownAfter(t, after, run, es)
  {
    hide SeqOf, IsNew, IdTaken, KnownSource, KnownId;
    var row := RowOf(run, es[|es| - 1]);
    forall s: string | s != FailedRow(run).source ensures KnownSource(t, after, run, es, s) {
      SeqOfAppend(before, row, run, s);
      SeqOfAppend(before + [row], FailedRow(run), run, s);
      SourceGrows(t, before, after, run, es, s);
    }
    forall id: string | id != FailedRow(run).id ensures KnownId(t, after, run, es, id) {
      IdTakenAppend(before, row, id);
      IdTakenAppend(before + [row], FailedRow(run), id);
      IdGrows(t, before, after, run, es, id);
    }
  }

  lemma InsertAtMost(events: seq<Event>, e: Event)
    ensures InsertOrIgnore(events, e) == events || InsertOrIgnore(events, e) == events + [e]
  {
  }

  /** A batch that stays off the service's own milestone key is acceptable exactly when the ids of
      its new events are fresh. */
  lemma {:induction false} TeardownClosedForm(t: Tables, run: string, es: seq<WorkerEvent>)
    requires PlainKeys(run, es)
    ensures var j := TeardownJournal(t.events, run, es);
            && (j.Some? <==> FreshIds(t, run, es))
            && (j.Some? ==> KnownAfter(t, j.value, run, es))
    decreases |es|
  {
    hide SeqOf, InsertOrIgnore, KnownAfter, FreshIds, IdTaken;
    if es == [] {
      NothingKnown(t, run);
    } else {
      var init, e := es[..|es| - 1], es[|es| - 1];
      TeardownClosedForm(t, run, init);
      FreshIdsGrow(t, run, es);
      var before := TeardownJournal(t.events, run, init);
      if before.Some? {
        LastIsNew(t, before.value, run, es);
        LastIsFresh(t, before.value, run, es);
        if SeqOf(before.value, run, Source(e)) != 0 {
          KnownUnchanged(t, before.value, run, es);
        } else if !IdTaken(before.value, run + ":" + e.id) {
          InsertAtMost(before.value + [RowOf(run, e)], FailedRow(run));
          KnownGrows(t, before.value, run, es, TeardownJournal(t.events, run, es).value);
        }
      }
    }
  }
}
