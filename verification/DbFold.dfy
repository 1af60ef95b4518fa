/** The steps of a run as a fold of its journal: save those of approvals that will never execute, they
    are what the journalled tool events make, whatever call keys workers use. */
module DbFold {
  import opened Wrappers
  import opened Tables
  import opened LeaseAndApprovals
  import opened WorkerEvents
  import opened DbInvariant
  import opened DbRuns
  import opened DbReserved
  import opened DbServes
  import opened DbTickets
  import DbHonest

  // ----- the fold -----

  /** First write wins: a start adds an unknown key, a finish closes a running one. */
  function FoldBody(ss: seq<ToolStep>, b: Body): seq<ToolStep> {
    match b
    case ToolStarted(key, tool, title, parent, approval) =>
      if HasKey(ss, Or(key)) then ss
      else ss + [ToolStep(Or(key), 0, parent, Or(tool), Or(title), approval, StepRunning, None)]
    case ToolFinished(key, state, result, _) =>
      if FinishState(state).Ok? then Finished(ss, Or(key), FinishState(state).value, result) else ss
    case _ => ss
  }

  /** What a run's journalled tool events make, from nothing. */
  function Fold(events: seq<Event>, run: string): seq<ToolStep> {
    if events == [] then [] else
      var last := events[|events| - 1];
      var before := Fold(events[..|events| - 1], run);
      if last.run == run && last.kind.Worker? then FoldBody(before, last.kind.body) else before
  }

  /** The call keys of the run's approvals whose action will never execute. */
  ghost function VerdictKeys(t: Tables, run: string): iset<string> {
    iset key: string | Reserved(key) && OwedStep(t, run, key[9..])
  }

  /** The steps under other keys, without their ordinals. */
  ghost function Without(ss: seq<ToolStep>, keys: iset<string>): seq<ToolStep> {
    if ss == [] then [] else
      var last := ss[|ss| - 1];
      var before := Without(ss[..|ss| - 1], keys);
      if last.key in keys then before else before + [last.(ordinal := 0)]
  }

  ghost predicate FoldAgrees(t: Tables, run: string) {
    Without(StepsOf(t, run), VerdictKeys(t, run)) == Without(Fold(t.events, run), VerdictKeys(t, run))
  }

  // ----- leaving keys out -----

  lemma {:induction false} WithoutAppend(xs: seq<ToolStep>, ys: seq<ToolStep>, keys: iset<string>)
    ensures Without(xs + ys, keys) == Without(xs, keys) + Without(ys, keys)
    decreases |ys|
  {
    if ys == [] { assert xs + ys == xs; } else {
      assert (xs + ys)[..|xs + ys| - 1] == xs + ys[..|ys| - 1];
      WithoutAppend(xs, ys[..|ys| - 1], keys);
    }
  }

  lemma {:induction false} WithoutMore(ss: seq<ToolStep>, keys: iset<string>, more: iset<string>)
    requires keys <= more
    ensures Without(Without(ss, keys), more) == Without(ss, more)
  {
    if ss != [] {
      var init, last := ss[..|ss| - 1], ss[|ss| - 1];
      WithoutMore(init, keys, more);
      if last.key !in keys { WithoutLast(Without(init, keys), last.(ordinal := 0), more); }
    }
  }

  lemma WithoutLast(ss: seq<ToolStep>, s: ToolStep, keys: iset<string>)
    ensures Without(ss + [s], keys) ==
              if s.key in keys then Without(ss, keys) else Without(ss, keys) + [s.(ordinal := 0)]
  {
    assert (ss + [s])[..|ss|] == ss;
  }

  lemma {:induction false} WithoutAll(ss: seq<ToolStep>, keys: iset<string>)
    requires forall i | 0 <= i < |ss| :: ss[i].key in keys
    ensures Without(ss, keys) == []
  {
    if ss != [] { WithoutAll(ss[..|ss| - 1], keys); }
  }

  lemma {:induction false} WithoutKeys(ss: seq<ToolStep>, keys: iset<string>, key: string)
    requires key !in keys
    ensures HasKey(Without(ss, keys), key) <==> HasKey(ss, key)
  {
    if ss != [] {
      var init, last := ss[..|ss| - 1], ss[|ss| - 1];
      WithoutKeys(init, keys, key);
      assert ss == init + [last];
      KeyOfLast(init, last, key);
      KeyOfLast(Without(init, keys), last.(ordinal := 0), key);
    }
  }

  lemma KeyOfLast(ss: seq<ToolStep>, s: ToolStep, key: string)
    ensures HasKey(ss + [s], key) <==> HasKey(ss, key) || s.key == key
  {
    if i :| 0 <= i < |ss| && ss[i].key == key { assert (ss + [s])[i].key == key; }
    assert (ss + [s])[|ss|] == s;
  }

  lemma {:induction false} WithoutFinished(ss: seq<ToolStep>, keys: iset<string>, key: string, state: StepState,
                                           result: Option<string>)
    ensures Without(Finished(ss, key, state, result), keys) == Finished(Without(ss, keys), key, state, result)
  {
    if ss != [] {
      var init, last := ss[..|ss| - 1], ss[|ss| - 1];
      WithoutFinished(init, keys, key, state, result);
      var done := Finished(ss, key, state, result);
      assert done[..|ss| - 1] == Finished(init, key, state, result);
    }
  }

  // ----- one tool event -----

  /** What a tool event makes of the steps that are left. */
  ghost function FoldRest(ss: seq<ToolStep>, b: Body, keys: iset<string>): seq<ToolStep> {
    if b.ToolStarted? && Or(b.key) in keys then ss else FoldBody(ss, b)
  }

  lemma FoldCommutes(ss: seq<ToolStep>, b: Body, keys: iset<string>)
    ensures Without(FoldBody(ss, b), keys) == FoldRest(Without(ss, keys), b, keys)
  {
    hide HasKey, Finished, FinishState;
    match b {
      case ToolStarted(key, tool, title, parent, approval) =>
        WithoutLast(ss, ToolStep(Or(key), 0, parent, Or(tool), Or(title), approval, StepRunning, None), keys);
        if Or(key) !in keys { WithoutKeys(ss, keys, Or(key)); }
      case ToolFinished(key, state, result, _) =>
        if FinishState(state).Ok? { WithoutFinished(ss, keys, Or(key), FinishState(state).value, result); }
      case _ =>
    }
  }

  lemma StepsCommute(ss: seq<ToolStep>, b: Body, keys: iset<string>)
    ensures Without(NextSteps(ss, b), keys) == FoldRest(Without(ss, keys), b, keys)
  {
    hide HasKey, Finished, FinishState, MaxOrdinal;
    match b {
      case ToolStarted(key, tool, title, parent, approval) =>
        var s := ToolStep(Or(key), 0, parent, Or(tool), Or(title), approval, StepRunning, None);
        WithoutLast(ss, s.(ordinal := MaxOrdinal(ss) + 1), keys);
        if Or(key) !in keys { WithoutKeys(ss, keys, Or(key)); }
      case ToolFinished(key, state, result, _) =>
        if FinishState(state).Ok? { WithoutFinished(ss, keys, Or(key), FinishState(state).value, result); }
      case _ =>
    }
  }

  lemma FoldAppend(events: seq<Event>, e: Event, run: string)
    ensures Fold(events + [e], run) ==
              if e.run == run && e.kind.Worker? then FoldBody(Fold(events, run), e.kind.body) else Fold(events, run)
  {
    assert (events + [e])[..|events|] == events;
  }

  lemma {:induction false} FoldServiceRows(events: seq<Event>, more: seq<Event>, run: string)
    requires ServiceRows(events, more)
    ensures Fold(more, run) == Fold(events, run)
    decreases |more|
  {
    if events != more {
      assert events <= more[..|more| - 1];
      FoldServiceRows(events, more[..|more| - 1], run);
    }
  }

  // ----- every step keeps the agreement -----

  lemma ServedAgrees(t: Tables, u: Tables, run: string)
    requires Served(t, u) && FoldAgrees(t, run)
    ensures FoldAgrees(u, run)
  {
    hide StepsServed, VerdictServed, ServiceRows, Fold, Without;
    assert StepsServed(t, u, run);
    forall id: string ensures VerdictServed(t, u, run, id) {}
    VerdictsGrow(t, u, run);
    FoldServiceRows(t.events, u.events, run);
    NewStepsLeftOut(t, u, run);
    WithoutMore(StepsOf(t, run), VerdictKeys(t, run), VerdictKeys(u, run));
    WithoutMore(Fold(t.events, run), VerdictKeys(t, run), VerdictKeys(u, run));
  }

  lemma VerdictsGrow(t: Tables, u: Tables, run: string)
    requires forall id: string :: VerdictServed(t, u, run, id)
    ensures VerdictKeys(t, run) <= VerdictKeys(u, run)
  {
    hide OwedStep, HasKey;
    forall key: string | key in VerdictKeys(t, run) ensures key in VerdictKeys(u, run) {
      assert VerdictServed(t, u, run, key[9..]);
    }
  }

  lemma NewStepsLeftOut(t: Tables, u: Tables, run: string)
    requires StepsServed(t, u, run)
    ensures Without(StepsOf(u, run), VerdictKeys(u, run)) == Without(StepsOf(t, run), VerdictKeys(u, run))
  {
    hide OwedStep, Without;
    var ss, us := StepsOf(t, run), StepsOf(u, run);
    var added := us[|ss|..];
    assert us == ss + added;
    forall i | 0 <= i < |added| ensures added[i].key in VerdictKeys(u, run) { assert ServiceOwn(u, run, us[|ss| + i]); }
    WithoutAppend(ss, added, VerdictKeys(u, run));
    WithoutAll(added, VerdictKeys(u, run));
  }

  lemma SameKeys(t: Tables, u: Tables, run: string)
    requires SameVerdicts(t, u)
    ensures VerdictKeys(u, run) == VerdictKeys(t, run)
  {
    hide NeverRuns;
    forall id: string ensures OwedStep(u, run, id) <==> OwedStep(t, run, id) {
      assert id in t.approvals ==> SameVerdict(t.approvals[id], u.approvals[id]);
    }
  }

  lemma EventServiceRows(hash: string -> string, t: Tables, run: string, b: Body, turn: Turn, now: int)
    requires Apply(hash, t, run, b, turn, now).Ok?
    ensures ServiceRows(t.events, Apply(hash, t, run, b, turn, now).value.events)
  {
    hide AddMilestone, Ended, NoteObserved, StartStep, FinishStep, Claim;
    match b {
      case Milestone(name) => MilestoneUntouched(t, run, name);
      case RunCompleted => EndedUntouched(t, run, Completed, "run.completed");
      case RunFailed => EndedUntouched(t, run, Failed, "run.failed");
      case RunCancelled => EndedUntouched(t, run, Cancelled, "run.cancelled");
      case RunTerminated(_) => EndedUntouched(t, run, Failed, "run.failed");
      case RunResumed(_) => ObservedRows(t, run, now);
      case ToolStarted(_, _, _, _, _) => StartRows(t, run, b);
      case ToolFinished(_, _, _, _) => FinishRows(t, run, b);
      case ApprovalDispatched(approval, ticket) => ClaimRows(hash, t, run, approval.value, ticket.value, now);
      case _ =>
    }
  }

  lemma ObservedRows(t: Tables, run: string, now: int)
    requires NoteObserved(t, run, now).Ok?
    ensures ServiceRows(t.events, NoteObserved(t, run, now).value.events)
  {
    hide LeaseRow, AutoRelease;
    var g := AutoRelease(t.lease, now).generation + 1;
    var t1 := t.(lease := Unheld(g, now));
    LeaseRowServed(t1, Some(run), "lease.observed", g);
    LeaseRowServed(LeaseRow(t1, Some(run), "lease.observed", g).value, Some(run), "lease.resumed", g);
  }

  lemma StartRows(t: Tables, run: string, b: Body)
    requires b.ToolStarted? && StartStep(t, run, b).Ok?
    ensures StartStep(t, run, b).value.events == t.events
  {
    hide AddStep, HasKey;
  }

  lemma FinishRows(t: Tables, run: string, b: Body)
    requires b.ToolFinished? && FinishStep(t, run, b).Ok?
    ensures FinishStep(t, run, b).value.events == t.events
  {
    hide Finished, FinishState, HasKey;
  }

  lemma ClaimRows(hash: string -> string, t: Tables, run: string, id: string, ticket: string, now: int)
    requires Claim(hash, t, run, id, ticket, now).Ok?
    ensures Claim(hash, t, run, id, ticket, now).value.events == t.events
  {
  }

  /** One new event of a batch. */
  lemma EventAgrees(hash: string -> string, t: Tables, run: string, e: WorkerEvent, turn: Turn, now: int, r: string)
    requires FoldAgrees(t, r)
    requires Apply(hash, t.(events := t.events + [RowOf(run, e)]), run, e.body, turn, now).Ok?
    ensures FoldAgrees(Apply(hash, t.(events := t.events + [RowOf(run, e)]), run, e.body, turn, now).value, r)
  {
    hide Apply, Fold, Without, NextSteps, FoldBody, FoldRest, ServiceRows, SameVerdict, VerdictKeys;
    var row := RowOf(run, e);
    var t1 := t.(events := t.events + [row]);
    var u := Apply(hash, t1, run, e.body, turn, now).value;
    EventSteps(hash, t1, run, e.body, turn, now);
    EventVerdicts(hash, t1, run, e.body, turn, now);
    SameRows(t, t1, u);
    SameKeys(t, u, r);
    EventServiceRows(hash, t1, run, e.body, turn, now);
    FoldServiceRows(t1.events, u.events, r);
    FoldAppend(t.events, row, r);
    if r == run {
      StepsCommute(StepsOf(t, run), e.body, VerdictKeys(t, run));
      FoldCommutes(Fold(t.events, run), e.body, VerdictKeys(t, run));
    }
  }

  lemma {:induction false} BatchAgrees(hash: string -> string, t: Tables, run: string, es: seq<WorkerEvent>, turn: Turn,
                                       now: int, r: string)
    requires FoldAgrees(t, r) && ApplyAll(hash, t, run, es, turn, now).Ok?
    ensures FoldAgrees(ApplyAll(hash, t, run, es, turn, now).value.0, r)
    decreases |es|
  {
    hide FoldAgrees, Apply, SeqOf;
    if es != [] {
      var init, e := es[..|es| - 1], es[|es| - 1];
      BatchAgrees(hash, t, run, init, turn, now, r);
      var m := ApplyAll(hash, t, run, init, turn, now).value.0;
      if SeqOf(m.events, run, Source(e)) == 0 { EventAgrees(hash, m, run, e, turn, now, r); }
    }
  }

  lemma StepAgrees(hash: string -> string, t: Tables, op: Op, run: string)
    requires Inv(hash, t) && FoldAgrees(t, run)
    ensures FoldAgrees(Step(hash, t, op), run)
  {
    hide Inv, FoldAgrees, ApplyAll, PendingUnused, Served;
    if op.Report? {
      if ApplyBatch(hash, t, op.run, op.generation, op.es, op.turn, op.now).result.Ok? {
        BatchAgrees(hash, t, op.run, op.es, op.turn, op.now, run);
      }
    } else {
      hide Step;
      DbHonest.ReachableUnused(hash, t);
      ServedSelf(t);
      StepServes(hash, t, t, op);
      ServedAgrees(t, Step(hash, t, op), run);
    }
  }

  /** In every state of every history, whatever call keys workers use: the steps of a run, those of
      approvals that will never execute aside, are the first-write-wins fold of the run's journalled
      tool events with the same keys left out. */
  lemma {:induction false} StepsFold(hash: string -> string, h: History, i: nat, run: string)
    requires Behaviour(hash, h) && i < |h.states|
    ensures var t := h.states[i];
            Without(StepsOf(t, run), VerdictKeys(t, run)) == Without(Fold(t.events, run), VerdictKeys(t, run))
    decreases i
  {
    hide Inv, Step, Legal, Empty, Without, Fold, VerdictKeys;
    if i == 0 {
      NothingFolded(run);
      assert h.states[0] == Empty();
    } else {
      StepsFold(hash, h, i - 1, run);
      Reachable(hash, h, i - 1);
      assert Linked(hash, h, i - 1);
      StepAgrees(hash, h.states[i - 1], h.ops[i - 1], run);
    }
  }

  lemma NothingFolded(run: string)
    ensures FoldAgrees(Empty(), run)
  {
  }

  /** The step at a position is the next of the folded steps, but for its ordinal. */
  ghost predicate FoldedAt(ss: seq<ToolStep>, folded: seq<ToolStep>, keys: iset<string>, k: nat)
    requires k < |ss|
  {
    var n := |Without(ss[..k], keys)|;
    n < |folded| && folded[n] == ss[k].(ordinal := 0)
  }

  lemma {:induction false} StepAt(ss: seq<ToolStep>, keys: iset<string>, k: nat)
    requires k < |ss| && ss[k].key !in keys
    ensures FoldedAt(ss, Without(ss, keys), keys, k)
    decreases |ss|
  {
    if k < |ss| - 1 {
      var init := ss[..|ss| - 1];
      StepAt(init, keys, k);
      assert init[..k] == ss[..k];
    }
  }

  /** In every state of every history: a run's reply is the concatenation of its journalled answer
      deltas; its steps are numbered 1 to n; and each of them that is not of an approval that will
      never execute is, at its place, the next step the journalled tool events make. */
  lemma ProjectionsAgree(hash: string -> string, h: History, i: nat, run: string)
    requires Behaviour(hash, h) && i < |h.states|
    ensures var t := h.states[i];
            var ss, keys := StepsOf(t, run), VerdictKeys(t, run);
            var folded := Without(Fold(t.events, run), keys);
            && AnswerText(t, run) == AnswerOf(t.events, run)
            && |folded| == |Without(ss, keys)|
            && forall k | 0 <= k < |ss| ::
                 ss[k].ordinal == k + 1 && (ss[k].key !in keys ==> FoldedAt(ss, folded, keys, k))
  {
    hide Behaviour, RowsOk, OnePending, ProjectedUnlessClaimed, Gated, Fold, Without, VerdictKeys, FoldedAt;
    Reachable(hash, h, i);
    StepsFold(hash, h, i, run);
    var t := h.states[i];
    var ss, keys := StepsOf(t, run), VerdictKeys(t, run);
    assert JournaledFor(t, run) && Numbered(ss);
    forall k | 0 <= k < |ss| && ss[k].key !in keys ensures FoldedAt(ss, Without(Fold(t.events, run), keys), keys, k) {
      StepAt(ss, keys, k);
    }
  }
}
