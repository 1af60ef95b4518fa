/** The approval steps over whole histories: they are as they should be in every state up to the
    first batch that spoils them. */
module DbHonest {
  import opened Tables
  import opened WorkerEvents
  import opened DbInvariant
  import opened DbRuns
  import opened DbReserved
  import opened DbServes
  import DbStatements
  import DbTeardown

  /** An accepted batch that newly starts a tool under a key of the service's form its run does not
      hold. */
  predicate Forges(hash: string -> string, t: Tables, op: Op) {
    && op.Report? && ApplyBatch(hash, t, op.run, op.generation, op.es, op.turn, op.now).result.Ok?
    && Spoils(hash, t, op.run, op.es, op.turn, op.now)
  }

  lemma ReachableUnused(hash: string -> string, t: Tables)
    requires Inv(hash, t)
    ensures PendingUnused(t)
  {
    hide StoredCanonically, ProjectedUnlessClaimed, Gated, Journaled, StepsOk, OnePending;
    forall id | id in t.approvals && t.approvals[id].state.Pending? ensures t.approvals[id].consumedAt.None? {
      assert RowOk(t, t.approvals[id]);
    }
  }

  /** What the service does by itself leaves honest approval steps honest. */
  lemma ServedProjected(t: Tables, u: Tables)
    requires Served(t, u) && Projected(t)
    ensures Projected(u)
  {
    hide StepsServed, VerdictServed;
    forall run: string, id: string ensures ProjectedFor(u, run, id) {
      assert ProjectedFor(t, run, id) && StepsServed(t, u, run) && VerdictServed(t, u, run, id);
      StillProjected(t, u, run, id);
    }
  }

  lemma StillProjected(t: Tables, u: Tables, run: string, id: string)
    requires StepsServed(t, u, run) && VerdictServed(t, u, run, id) && ProjectedFor(t, run, id)
    ensures ProjectedFor(u, run, id)
  {
    hide NeverRuns;
    DbStatements.KeyInjective(id, id);
    var ss, us := StepsOf(t, run), StepsOf(u, run);
    forall i | 0 <= i < |us| && us[i].key == ApprovalKey(id)
      ensures OwedStep(u, run, id)
      ensures us[i].state == (if u.approvals[id].state.Denied? then StepDenied else StepCancelled)
    {
      if i < |ss| {
        assert us[i] == ss[i];
      } else {
        assert ServiceOwn(u, run, us[i]) && us[i].key[9..] == id;
      }
    }
    if i :| 0 <= i < |ss| && ss[i].key == ApprovalKey(id) { assert us[i] == ss[i]; }
  }

  lemma ForgeryIff(hash: string -> string, t: Tables, op: Op)
    requires Inv(hash, t) && Projected(t)
    ensures Projected(Step(hash, t, op)) <==> !Forges(hash, t, op)
  {
    hide Inv, Projected, Step, PendingUnused, ApplyBatch, Spoils, Served;
    ReachableUnused(hash, t);
    if op.Report? {
      ReportKeepsIff(hash, t, op);
    } else {
      ServedSelf(t);
      StepServes(hash, t, t, op);
      ServedProjected(t, Step(hash, t, op));
    }
  }

  /** The event newly starts a tool under a key of the service's form its run does not hold, told from
      the tables and the batch. */
  predicate Forgery(t: Tables, run: string, es: seq<WorkerEvent>, i: nat)
    requires i < |es|
  {
    Squats(StepsOf(t, run), es[i].body) && DbTeardown.IsNew(t, run, es, i)
  }

  /** Whether an accepted batch spoils the approval steps, told beforehand: never when it starts no
      tool under such a key; and, when its source keys are not like the service's own, exactly when
      a start of that kind is the first with its source key. */
  lemma ForgeryForeseen(hash: string -> string, t: Tables, op: Op)
    requires Inv(hash, t) && Projected(t) && op.Report?
    ensures (forall i: nat | i < |op.es| :: !Squats(StepsOf(t, op.run), op.es[i].body)) ==> Projected(Step(hash, t, op))
    ensures ForeignSources(op.run, op.es)
            && ApplyBatch(hash, t, op.run, op.generation, op.es, op.turn, op.now).result.Ok? ==>
              (Projected(Step(hash, t, op)) <==> forall i: nat | i < |op.es| :: !Forgery(t, op.run, op.es, i))
  {
    hide Inv, Projected, Step, Squats, ApplyAll, NewAt, Forgery;
    ForgeryIff(hash, t, op);
    if ForeignSources(op.run, op.es) && ApplyBatch(hash, t, op.run, op.generation, op.es, op.turn, op.now).result.Ok? {
      SpoilingForeseen(hash, t, op.run, op.es, op.turn, op.now);
    }
  }

  lemma SpoilingForeseen(hash: string -> string, t: Tables, run: string, es: seq<WorkerEvent>, turn: Turn, now: int)
    requires ForeignSources(run, es) && ApplyAll(hash, t, run, es, turn, now).Ok?
    ensures Spoils(hash, t, run, es, turn, now) <==> exists i: nat | i < |es| :: Forgery(t, run, es, i)
  {
    hide Squats, ApplyAll, NewAt, DbTeardown.IsNew;
    forall i: nat | i < |es| ensures NewAt(hash, t, run, es, i, turn, now) <==> DbTeardown.IsNew(t, run, es, i) {
      NewnessForeseen(hash, t, run, es, i, turn, now);
    }
    if i: nat :| i < |es| && Forgery(t, run, es, i) { assert NewAt(hash, t, run, es, i, turn, now); }
    if i: nat :| i < |es| && Squats(StepsOf(t, run), es[i].body) && NewAt(hash, t, run, es, i, turn, now) {
      assert Forgery(t, run, es, i);
    }
  }

  /** In every history, the approval steps are as they should be in every state up to the first forged
      one, and in that one they are not: the step keyed `approval:<id>` is there exactly when the
      action will never execute, `denied` for a denied row and `cancelled` otherwise. */
  lemma {:induction false} HonestUntilForged(hash: string -> string, h: History, i: nat)
    requires Behaviour(hash, h) && i < |h.states|
    ensures (forall k: nat | k <= i :: Projected(h.states[k])) <==>
              (forall k: nat | k < i :: !Forges(hash, h.states[k], h.ops[k]))
    decreases i
  {
    hide Inv, Projected, Step, Legal, Forges, Empty;
    if i == 0 {
      NothingForged();
      assert h.states[0] == Empty();
    } else {
      HonestUntilForged(hash, h, i - 1);
      Reachable(hash, h, i - 1);
      assert Linked(hash, h, i - 1);
      if forall k: nat | k <= i - 1 :: Projected(h.states[k]) {
        ForgeryIff(hash, h.states[i - 1], h.ops[i - 1]);
      }
    }
  }

  lemma NothingForged()
    ensures Projected(Empty())
  {
  }
}
