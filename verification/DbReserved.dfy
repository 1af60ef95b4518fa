/** A worker may start a tool under a call key of the service's own form. Exactly which batches
    thereby spoil the approval steps. */
module DbReserved {
  import opened Wrappers
  import opened Tables
  import opened LeaseAndApprovals
  import opened WorkerEvents
  import opened DbInvariant
  import opened DbWorkerSteps
  import opened DbRuns
  import opened DbTeardown
  import DbBatches
  import DbStatements
  import DbTickets

  // ----- what an event does to steps and verdicts -----

  /** The steps of a run after an event that was accepted. */
  function NextSteps(ss: seq<ToolStep>, b: Body): seq<ToolStep> {
    match b
    case ToolStarted(key, tool, title, parent, approval) =>
      AddStep(ss, ToolStep(Or(key), 0, parent, Or(tool), Or(title), approval, StepRunning, None))
    case ToolFinished(key, state, result, _) =>
      if FinishState(state).Ok? then Finished(ss, Or(key), FinishState(state).value, result) else ss
    case _ => ss
  }

  /** The rows agree on which actions will never run, and on which of them were denied. */
  ghost predicate SameVerdicts(t: Tables, u: Tables) {
    && u.approvals.Keys == t.approvals.Keys
    && forall id | id in t.approvals :: SameVerdict(t.approvals[id], u.approvals[id])
  }

  predicate SameVerdict(a: Approval, b: Approval) {
    b.run == a.run && b.state == a.state && (NeverRuns(b) <==> NeverRuns(a))
  }

  ghost predicate StepsBecome(t: Tables, u: Tables, run: string, ss: seq<ToolStep>) {
    StepsOf(u, run) == ss && forall r: string | r != run :: StepsOf(u, r) == StepsOf(t, r)
  }

  lemma EventSteps(hash: string -> string, t: Tables, run: string, b: Body, turn: Turn, now: int)
    requires Apply(hash, t, run, b, turn, now).Ok?
    ensures StepsBecome(t, Apply(hash, t, run, b, turn, now).value, run, NextSteps(StepsOf(t, run), b))
  {
    hide InsertOrIgnore, AddStep, Finished, FinishState, AutoRelease;
  }

  lemma EventVerdicts(hash: string -> string, t: Tables, run: string, b: Body, turn: Turn, now: int)
    requires Apply(hash, t, run, b, turn, now).Ok?
    ensures SameVerdicts(t, Apply(hash, t, run, b, turn, now).value)
  {
    hide Apply;
    var u := Apply(hash, t, run, b, turn, now).value;
    ApplyEffect(hash, t, run, b, turn, now);
    forall id | id in t.approvals ensures SameVerdict(t.approvals[id], u.approvals[id]) {
      DbTickets.ApplyTickets(hash, t, run, b, turn, now, id);
    }
  }

  // ----- one event -----

  /** The event starts a tool under a key of the service's form that the run does not hold. */
  predicate Squats(ss: seq<ToolStep>, b: Body) {
    b.ToolStarted? && Reserved(Or(b.key)) && !HasKey(ss, Or(b.key))
  }

  /** The run holds the step of an approval that may still execute. */
  predicate Stray(t: Tables, run: string, id: string) {
    HasKey(StepsOf(t, run), ApprovalKey(id)) && !OwedStep(t, run, id)
  }

  ghost predicate SomeStray(t: Tables, run: string) {
    exists id: string :: Stray(t, run, id)
  }

  lemma StraySpoils(t: Tables, run: string)
    requires SomeStray(t, run)
    ensures !Projected(t)
  {
    var id: string :| Stray(t, run, id);
    assert !ProjectedFor(t, run, id);
  }

  lemma NextKeys(ss: seq<ToolStep>, b: Body)
    ensures |ss| <= |NextSteps(ss, b)| && forall i | 0 <= i < |ss| :: NextSteps(ss, b)[i].key == ss[i].key
  {
    hide HasKey, FinishState;
  }

  lemma StrayStays(t: Tables, u: Tables, run: string, b: Body, id: string)
    requires Stray(t, run, id) && SameVerdicts(t, u) && StepsOf(u, run) == NextSteps(StepsOf(t, run), b)
    ensures Stray(u, run, id)
  {
    hide NextSteps;
    NextKeys(StepsOf(t, run), b);
    var i :| 0 <= i < |StepsOf(t, run)| && StepsOf(t, run)[i].key == ApprovalKey(id);
    assert StepsOf(u, run)[i].key == ApprovalKey(id);
    assert id in t.approvals ==> SameVerdict(t.approvals[id], u.approvals[id]);
  }

  lemma SquatterStrays(t: Tables, u: Tables, run: string, b: Body)
    requires Projected(t) && SameVerdicts(t, u) && StepsOf(u, run) == NextSteps(StepsOf(t, run), b)
    requires Squats(StepsOf(t, run), b)
    ensures SomeStray(u, run)
  {
    hide MaxOrdinal;
    var ss, key := StepsOf(t, run), Or(b.key);
    var id := key[9..];
    assert key == ApprovalKey(id);
    assert ProjectedFor(t, run, id);
    assert StepsOf(u, run)[|ss|].key == key;
    assert id in t.approvals ==> SameVerdict(t.approvals[id], u.approvals[id]);
    assert Stray(u, run, id);
  }

  /** Steps under keys of the service's form are the same on both sides. */
  predicate ReservedSame(ss: seq<ToolStep>, us: seq<ToolStep>) {
    && |ss| <= |us|
    && (forall i | 0 <= i < |ss| :: us[i].key == ss[i].key)
    && (forall i | 0 <= i < |us| && Reserved(us[i].key) :: i < |ss| && us[i] == ss[i])
  }

  lemma NextReserved(t: Tables, run: string, b: Body)
    requires Projected(t) && !Squats(StepsOf(t, run), b)
    ensures ReservedSame(StepsOf(t, run), NextSteps(StepsOf(t, run), b))
  {
    hide MaxOrdinal, FinishState, ProjectedFor;
    var ss := StepsOf(t, run);
    NextKeys(ss, b);
    forall i | 0 <= i < |ss| && Reserved(ss[i].key) ensures !ss[i].state.StepRunning? { StepDone(t, run, i); }
  }

  lemma StepDone(t: Tables, run: string, i: nat)
    requires Projected(t) && i < |StepsOf(t, run)| && Reserved(StepsOf(t, run)[i].key)
    ensures !StepsOf(t, run)[i].state.StepRunning?
  {
    var key := StepsOf(t, run)[i].key;
    assert key == ApprovalKey(key[9..]);
    assert ProjectedFor(t, run, key[9..]);
  }

  lemma ProjectedOn(t: Tables, u: Tables, run: string)
    requires Projected(t) && SameVerdicts(t, u) && ReservedSame(StepsOf(t, run), StepsOf(u, run))
    requires forall r: string | r != run :: StepsOf(u, r) == StepsOf(t, r)
    ensures Projected(u)
  {
    hide StepsOf, ReservedSame, NeverRuns;
    forall r: string, id: string ensures ProjectedFor(u, r, id) {
      assert ProjectedFor(t, r, id);
      assert id in t.approvals ==> SameVerdict(t.approvals[id], u.approvals[id]);
      if r == run { SameApprovalSteps(StepsOf(t, run), StepsOf(u, run), id); }
    }
  }

  lemma SameApprovalSteps(ss: seq<ToolStep>, us: seq<ToolStep>, id: string)
    requires ReservedSame(ss, us)
    ensures HasKey(us, ApprovalKey(id)) <==> HasKey(ss, ApprovalKey(id))
    ensures forall i | 0 <= i < |us| && us[i].key == ApprovalKey(id) :: i < |ss| && us[i] == ss[i]
  {
    DbStatements.KeyInjective(id, id);
    if i :| 0 <= i < |ss| && ss[i].key == ApprovalKey(id) { assert us[i].key == ApprovalKey(id); }
  }

  /** An accepted event spoils honest approval steps exactly by squatting, and then for good. */
  lemma EventProjected(t: Tables, u: Tables, run: string, b: Body)
    requires Projected(t) && SameVerdicts(t, u) && StepsBecome(t, u, run, NextSteps(StepsOf(t, run), b))
    ensures if Squats(StepsOf(t, run), b) then SomeStray(u, run) else Projected(u)
  {
    hide Projected, SameVerdicts, NextSteps, Squats, Stray, ReservedSame;
    if Squats(StepsOf(t, run), b) {
      SquatterStrays(t, u, run, b);
    } else {
      NextReserved(t, run, b);
      ProjectedOn(t, u, run);
    }
  }

  /** A started step's call key does not use the service's prefix. */
  predicate Permitted(b: Body) {
    b.ToolStarted? ==> !Reserved(Or(b.key))
  }

  /** `tool.call_started` accepts a call key of the service's own form. Doing so keeps the approval
      steps honest exactly when the key is not of that form or the step already exists. */
  lemma ReservedKeyCondition(t: Tables, run: string, b: Body)
    requires Projected(t) && b.ToolStarted? && StartStep(t, run, b).Ok?
    ensures Projected(StartStep(t, run, b).value) <==> Permitted(b) || HasKey(StepsOf(t, run), Or(b.key))
  {
    hide Projected, AddStep, HasKey, Stray;
    var u := StartStep(t, run, b).value;
    EventProjected(t, u, run, b);
    if Squats(StepsOf(t, run), b) { StraySpoils(u, run); }
  }

  // ----- batches -----

  /** The event is new when the batch reaches it: the journal does not hold its source key. */
  predicate NewAt(hash: string -> string, t: Tables, run: string, es: seq<WorkerEvent>, i: nat, turn: Turn, now: int)
    requires i < |es|
  {
    var before := ApplyAll(hash, t, run, es[..i], turn, now);
    before.Ok? && SeqOf(before.value.0.events, run, Source(es[i])) == 0
  }

  /** The batch newly starts a tool under a key of the service's form that the run does not hold. */
  predicate Spoils(hash: string -> string, t: Tables, run: string, es: seq<WorkerEvent>, turn: Turn, now: int) {
    exists i: nat | i < |es| :: Squats(StepsOf(t, run), es[i].body) && NewAt(hash, t, run, es, i, turn, now)
  }

  lemma SpoilsGrows(hash: string -> string, t: Tables, run: string, es: seq<WorkerEvent>, turn: Turn, now: int)
    requires es != []
    ensures Spoils(hash, t, run, es, turn, now) <==>
              || Spoils(hash, t, run, es[..|es| - 1], turn, now)
              || (Squats(StepsOf(t, run), es[|es| - 1].body) && NewAt(hash, t, run, es, |es| - 1, turn, now))
  {
    hide Squats, ApplyAll, SeqOf;
    var init := es[..|es| - 1];
    forall i: nat | i < |init|
      ensures NewAt(hash, t, run, es, i, turn, now) <==> NewAt(hash, t, run, init, i, turn, now)
    {
      assert init[..i] == es[..i];
    }
    if Spoils(hash, t, run, init, turn, now) {
      var i: nat :| i < |init| && Squats(StepsOf(t, run), init[i].body) && NewAt(hash, t, run, init, i, turn, now);
      assert NewAt(hash, t, run, es, i, turn, now) && es[i] == init[i];
    }
  }

  lemma VerdictsJoin(t: Tables, m: Tables, u: Tables)
    requires SameVerdicts(t, m) && SameVerdicts(m, u)
    ensures SameVerdicts(t, u)
  {
    hide NeverRuns;
    forall id | id in t.approvals ensures SameVerdict(t.approvals[id], u.approvals[id]) {
      assert SameVerdict(t.approvals[id], m.approvals[id]) && SameVerdict(m.approvals[id], u.approvals[id]);
    }
  }

  /** With equal verdicts, honest steps agree on which keys of the service's form a run holds. */
  lemma SameSquats(t: Tables, m: Tables, run: string, b: Body)
    requires Projected(t) && Projected(m) && SameVerdicts(t, m)
    ensures Squats(StepsOf(m, run), b) <==> Squats(StepsOf(t, run), b)
  {
    if b.ToolStarted? && Reserved(Or(b.key)) {
      var id := Or(b.key)[9..];
      assert Or(b.key) == ApprovalKey(id);
      assert ProjectedFor(t, run, id) && ProjectedFor(m, run, id);
      assert id in t.approvals ==> SameVerdict(t.approvals[id], m.approvals[id]);
    }
  }

  lemma {:induction false} BatchProjected(hash: string -> string, t: Tables, run: string, es: seq<WorkerEvent>,
                                          turn: Turn, now: int)
    requires Projected(t) && ApplyAll(hash, t, run, es, turn, now).Ok?
    ensures var u := ApplyAll(hash, t, run, es, turn, now).value.0;
            SameVerdicts(t, u) && if Spoils(hash, t, run, es, turn, now) then SomeStray(u, run) else Projected(u)
    decreases |es|
  {
    hide Projected, Spoils, Squats, Stray, SeqOf, NextSteps, Apply, SameVerdicts;
    if es == [] {
      NothingSpoilt(hash, t, run, turn, now);
    } else {
      var init, e := es[..|es| - 1], es[|es| - 1];
      BatchProjected(hash, t, run, init, turn, now);
      SpoilsGrows(hash, t, run, es, turn, now);
      var m := ApplyAll(hash, t, run, init, turn, now).value.0;
      var u := ApplyAll(hash, t, run, es, turn, now).value.0;
      if SeqOf(m.events, run, Source(e)) == 0 {
        OneProjected(hash, t, m, u, run, e, turn, now, Spoils(hash, t, run, init, turn, now));
      }
    }
  }

  lemma NothingSpoilt(hash: string -> string, t: Tables, run: string, turn: Turn, now: int)
    ensures SameVerdicts(t, t) && !Spoils(hash, t, run, [], turn, now)
  {
  }

  lemma OneProjected(hash: string -> string, t: Tables, m: Tables, u: Tables, run: string, e: WorkerEvent, turn: Turn,
                     now: int, spoilt: bool)
    requires Projected(t) && SameVerdicts(t, m) && if spoilt then SomeStray(m, run) else Projected(m)
    requires var r := Apply(hash, m.(events := m.events + [RowOf(run, e)]), run, e.body, turn, now);
             r.Ok? && r.value == u
    ensures SameVerdicts(t, u)
    ensures if spoilt || Squats(StepsOf(t, run), e.body) then SomeStray(u, run) else Projected(u)
  {
    hide Projected, Squats, Stray, NextSteps, Apply, SameVerdicts;
    var m1 := m.(events := m.events + [RowOf(run, e)]);
    EventSteps(hash, m1, run, e.body, turn, now);
    EventVerdicts(hash, m1, run, e.body, turn, now);
    assert SameVerdicts(m, u) by { SameRows(m, m1, u); }
    VerdictsJoin(t, m, u);
    if spoilt {
      var id :| Stray(m, run, id);
      StrayStays(m, u, run, e.body, id);
    } else {
      SameSquats(t, m, run, e.body);
      EventProjected(m, u, run, e.body);
    }
  }

  lemma SameRows(t: Tables, t1: Tables, u: Tables)
    requires t1.approvals == t.approvals && SameVerdicts(t1, u)
    ensures SameVerdicts(t, u)
  {
  }

  /** A batch leaves honest approval steps honest unless it is accepted and newly starts a tool
      under a key of the service's form that the run does not hold: exactly then it spoils them. */
  lemma ReportKeepsIff(hash: string -> string, t: Tables, op: Op)
    requires Projected(t) && op.Report?
    ensures Projected(Step(hash, t, op)) <==>
              !(ApplyBatch(hash, t, op.run, op.generation, op.es, op.turn, op.now).result.Ok?
                && Spoils(hash, t, op.run, op.es, op.turn, op.now))
  {
    hide Projected, Spoils, SameVerdicts, Stray, ApplyAll;
    if ApplyBatch(hash, t, op.run, op.generation, op.es, op.turn, op.now).result.Ok? {
      BatchProjected(hash, t, op.run, op.es, op.turn, op.now);
      if Spoils(hash, t, op.run, op.es, op.turn, op.now) { StraySpoils(Step(hash, t, op), op.run); }
    }
  }

  // ----- newness, told from the journal and the batch alone -----

  /** No event's source key starts like the keys the service makes for the run's own rows. */
  predicate ForeignSources(run: string, es: seq<WorkerEvent>) {
    forall i | 0 <= i < |es| :: !(run + ":" <= Source(es[i]))
  }

  /** Every added row belongs to the run and has a source key the service makes. */
  predicate OwnRows(events: seq<Event>, more: seq<Event>, run: string) {
    events <= more && forall i | |events| <= i < |more| :: run + ":" <= more[i].source
  }

  lemma EventRows(hash: string -> string, t: Tables, run: string, b: Body, turn: Turn, now: int)
    requires Apply(hash, t, run, b, turn, now).Ok?
    ensures OwnRows(t.events, Apply(hash, t, run, b, turn, now).value.events, run)
  {
    hide AddStep, Finished, FinishState, AutoRelease, Clashes;
  }

  lemma {:induction false} OwnRowsUnseen(events: seq<Event>, more: seq<Event>, run: string, source: string)
    requires OwnRows(events, more, run) && !(run + ":" <= source)
    ensures SeqOf(more, run, source) == SeqOf(events, run, source)
    decreases |more|
  {
    if events != more {
      assert events <= more[..|more| - 1];
      OwnRowsUnseen(events, more[..|more| - 1], run, source);
    }
  }

  /** Apart from the service's own keys, a batch makes exactly its sources known. */
  lemma {:induction false} BatchSources(hash: string -> string, t: Tables, run: string, es: seq<WorkerEvent>,
                                        turn: Turn, now: int, s: string)
    requires ApplyAll(hash, t, run, es, turn, now).Ok? && !(run + ":" <= s)
    ensures SeqOf(ApplyAll(hash, t, run, es, turn, now).value.0.events, run, s) != 0 <==>
              SeqOf(t.events, run, s) != 0 || exists j: nat | j < |es| :: Source(es[j]) == s
    decreases |es|
  {
    hide SeqOf, Apply, OwnRows;
    if es != [] {
      var init, e := es[..|es| - 1], es[|es| - 1];
      BatchSources(hash, t, run, init, turn, now, s);
      var m := ApplyAll(hash, t, run, init, turn, now).value.0;
      var u := ApplyAll(hash, t, run, es, turn, now).value.0;
      if SeqOf(m.events, run, Source(e)) == 0 {
        var m1 := m.(events := m.events + [RowOf(run, e)]);
        DbBatches.SeqOfAppend(m.events, RowOf(run, e), run, s);
        EventRows(hash, m1, run, e.body, turn, now);
        OwnRowsUnseen(m1.events, u.events, run, s);
      }
      assert SeqOf(u.events, run, s) != 0 <==> SeqOf(m.events, run, s) != 0 || Source(e) == s;
      SomeSource(es, s);
      forall j: nat | j < |init| ensures Source(init[j]) == Source(es[j]) {}
    }
  }

  lemma SomeSource(es: seq<WorkerEvent>, s: string)
    requires es != []
    ensures (exists j: nat | j < |es| :: Source(es[j]) == s) <==>
              (exists j: nat | j < |es| - 1 :: Source(es[j]) == s) || Source(es[|es| - 1]) == s
  {
    if Source(es[|es| - 1]) == s { assert exists j: nat | j < |es| :: Source(es[j]) == s; }
  }

  /** In an accepted batch an event is new exactly when its source key is neither in the journal nor
      used earlier in the batch. */
  lemma NewnessForeseen(hash: string -> string, t: Tables, run: string, es: seq<WorkerEvent>, i: nat, turn: Turn,
                        now: int)
    requires ForeignSources(run, es) && i < |es| && ApplyAll(hash, t, run, es, turn, now).Ok?
    ensures NewAt(hash, t, run, es, i, turn, now) <==> IsNew(t, run, es, i)
  {
    hide SeqOf, ApplyAll;
    PrefixAccepted(hash, t, run, es, i, turn, now);
    BatchSources(hash, t, run, es[..i], turn, now, Source(es[i]));
    if j: nat :| j < i && Source(es[j]) == Source(es[i]) { assert Source(es[..i][j]) == Source(es[i]); }
  }

  lemma {:induction false} PrefixAccepted(hash: string -> string, t: Tables, run: string, es: seq<WorkerEvent>, i: nat,
                                          turn: Turn, now: int)
    requires i <= |es| && ApplyAll(hash, t, run, es, turn, now).Ok?
    ensures ApplyAll(hash, t, run, es[..i], turn, now).Ok?
    decreases |es|
  {
    hide ApplyOne;
    if i < |es| {
      assert es[..|es| - 1][..i] == es[..i];
      PrefixAccepted(hash, t, run, es[..|es| - 1], i, turn, now);
    } else {
      assert es[..i] == es;
    }
  }
}
