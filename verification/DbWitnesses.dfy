/** Concrete runs on which three of the design's promises fail. */
module DbWitnesses {
  import opened Wrappers
  import opened Tables
  import opened LeaseAndApprovals
  import opened WorkerEvents
  import opened DbInvariant
  import opened DbRuns
  import opened DbPromise
  import opened DbReserved
  import opened DbApprovalSteps
  import opened Text
  import Json = CanonicalJson

  const ACTION: Json.Json := Json.Object([
    Json.Entry("arguments", Json.Object([])),
    Json.Entry("target", Json.String("x")),
    Json.Entry("tool", Json.String("t"))])

  lemma ActionIsValid()
    ensures ValidAction(ACTION)
  {
    hide Json.Canonical;
    var es := ACTION.entries;
    assert Lookup(es, "tool") == Some(Json.String("t")) by {
      assert es[1..][0].key == "target" && es[1..][1..][0].key == "tool";
    }
    assert Lookup(es, "target") == Some(Json.String("x")) by { assert es[1..][0].key == "target"; }
    assert Lookup(es, "arguments") == Some(Json.Object([]));
    assert Json.WellFormed(ACTION);
  }

  predicate LongSources(events: seq<Event>) {
    forall i | 0 <= i < |events| :: |events[i].source| > 1 && |events[i].id| > 3
  }

  /** Every row the service journals has a long key, so a worker's one-letter key is new. */
  lemma {:induction false} ShortIsNew(events: seq<Event>, run: string)
    requires LongSources(events)
    ensures SeqOf(events, run, "e") == 0
  {
    if events != [] { ShortIsNew(events[..|events| - 1], run); }
  }

  /** A run starts a turn and proposes an action, which waits. */
  const OPENING: seq<Op> := [Enqueue("r"), Pick("r"), Begin("r", 0), Ask("a", "r", 2, ACTION, "d", 1000, 0)]

  /** The only pending approval is `a`, of the waiting run `r`; the lease is untouched. */
  ghost predicate Waiting(t: Tables, status: RunStatus) {
    && t.runs.Keys == {"r"} && t.runs["r"].status == status && t.runs["r"].generation == 2
    && t.approvals.Keys == {"a"} && t.approvals["a"].run == "r" && t.approvals["a"].state.Pending?
    && t.approvals["a"].expiresAt == 1000 && t.approvals["a"].leaseGeneration == 0 && t.approvals["a"].grant == t.grant
    && t.lease == Empty().lease && t.steps == map[] && LongSources(t.events)
  }

  ghost predicate Stage(t: Tables, status: RunStatus, generation: nat) {
    && t.runs.Keys == {"r"} && t.runs["r"].status == status && t.runs["r"].generation == generation
    && t.approvals == map[] && t.lease == Empty().lease && t.steps == map[] && LongSources(t.events)
  }

  lemma Admitted()
    ensures Stage(Admit(Empty(), "r").tables, Queued, 1)
  {
  }

  lemma Picked(t: Tables)
    requires Stage(t, Queued, 1)
    ensures Stage(ClaimQueued(t, "r").tables, Starting, 1)
  {
  }

  lemma Begun(t: Tables)
    requires Stage(t, Starting, 1)
    ensures Stage(BeginTurn(t, "r", 0).tables, Running, 2)
  {
  }

  lemma Asked(hash: string -> string, t: Tables)
    requires Stage(t, Running, 2)
    ensures Waiting(Propose(hash, t, "a", "r", 2, ACTION, "d", 1000, 0).tables, WaitingApproval)
  {
    hide Json.Canonical, ValidAction;
    ActionIsValid();
  }

  lemma Opening(hash: string -> string) returns (h: History)
    ensures Behaviour(hash, h) && h.ops == OPENING && Waiting(h.states[4], WaitingApproval)
  {
    hide Admit, ClaimQueued, BeginTurn, Propose, Stage, Waiting, LongSources, ACTION, Inv, Empty, Listing,
         RecoveryListing, LeaseMaintenance, Takeover, Hold, RevokeLease, Decide, RevokeApproval, GetApproval, Sweep,
         RevokeDevice, InterruptRuns, Recover, ApplyBatch, MarkInterrupted, StopTask, CancelBeforeSpawn, FailPrecheck,
         Deliver;
    var s0 := Empty();
    var s1 := Admit(s0, "r").tables;
    Admitted();
    var s2 := ClaimQueued(s1, "r").tables;
    Picked(s1);
    var s3 := BeginTurn(s2, "r", 0).tables;
    Begun(s2);
    var s4 := Propose(hash, s3, "a", "r", 2, ACTION, "d", 1000, 0).tables;
    Asked(hash, s3);
    h := History([s0, s1, s2, s3, s4], OPENING);
    assert Linked(hash, h, 0) && Linked(hash, h, 1) && Linked(hash, h, 2) && Linked(hash, h, 3);
  }

  lemma Extended(hash: string -> string, h: History, op: Op) returns (g: History)
    requires Behaviour(hash, h) && Legal(h.states[|h.ops|], op)
    ensures Behaviour(hash, g) && g.ops == h.ops + [op] && g.states == h.states + [Step(hash, h.states[|h.ops|], op)]
  {
    hide Step, Legal, Empty;
    g := History(h.states + [Step(hash, h.states[|h.ops|], op)], h.ops + [op]);
    forall i: nat | i < |g.ops| ensures Linked(hash, g, i) {
      if i < |h.ops| { assert Linked(hash, h, i); }
    }
  }

  const END: WorkerEvent := WorkerEvent("e", None, RunTerminated(false))

  /** With the database's methods alone, in an order the supervisor never produces: a turn fails while
      its approval is pending, and its worker then reports an unclean end. The approval stays pending
      on a failed run. */
  lemma PromiseBroken(hash: string -> string) returns (h: History)
    ensures Behaviour(hash, h) && !PendingRunsWait(h.states[|h.ops|])
    ensures h.ops == OPENING + [Interrupt("r"), Report("r", 2, [END], Turn(false, false), 0)]
  {
    hide Behaviour, Waiting, MarkInterrupted, ApplyBatch, PendingRunsWait, END;
    var h0 := Opening(hash);
    BehaviourShape(hash, h0);
    var t := MarkInterrupted(h0.states[4], "r").tables;
    InterruptedOpening(h0.states[4]);
    var h1 := Extended(hash, h0, Interrupt("r"));
    assert h1.states[|h1.ops|] == t;
    h := Extended(hash, h1, Report("r", 2, [END], Turn(false, false), 0));
    FailsUnder(hash, t);
  }

  lemma BehaviourShape(hash: string -> string, h: History)
    requires Behaviour(hash, h)
    ensures |h.states| == |h.ops| + 1
  {
  }

  lemma InterruptedOpening(t: Tables)
    requires Waiting(t, WaitingApproval)
    ensures Waiting(MarkInterrupted(t, "r").tables, Interrupted)
  {
  }

  lemma FailsUnder(hash: string -> string, t: Tables)
    requires Waiting(t, Interrupted)
    ensures !PendingRunsWait(ApplyBatch(hash, t, "r", 2, [END], Turn(false, false), 0).tables)
  {
    hide InsertOrIgnore;
    ShortIsNew(t.events, "r");
    var turn := Turn(false, false);
    var t1 := t.(events := t.events + [RowOf("r", END)]);
    var u := Ended(t1, "r", Failed, "run.failed");
    assert ApplyOne(hash, t, "r", END, turn, 0) == Ok((u, Stored("e", |t1.events|, false)));
    assert [END][..0] == [];
    assert ApplyAll(hash, t, "r", [], turn, 0) == Ok((t, Batch([], false)));
    assert ApplyBatch(hash, t, "r", 2, [END], turn, 0).tables == u;
    assert "a" in PendingIds(u);
  }

  /** With an approval pending, the kill switch is refused although its generation is current. */
  lemma KillSwitchBroken(hash: string -> string) returns (h: History)
    ensures Behaviour(hash, h) && h.ops == OPENING
    ensures var t := h.states[4]; var r := RevokeLease(t, "d", t.lease.generation, None, ["a"], 0);
            Legal(t, Kill("d", t.lease.generation, None, ["a"], 0)) && r.result == Err(CheckFailed)
                && PendingIds(r.tables) == {"a"}
  {
    hide RevokeLease, ACTION;
    h := Opening(hash);
    RefusedOpening(h.states[4]);
  }

  lemma RefusedOpening(t: Tables)
    requires Waiting(t, WaitingApproval)
    ensures Listing(["a"], PendingIds(t)) && PendingIds(t) == {"a"}
    ensures RevokeLease(t, "d", t.lease.generation, None, ["a"], 0) == Tx(t, Err(CheckFailed))
  {
    hide LongSources;
    assert ["a"][..0] == [];
    assert RetireAll(t, [], LeaseRevoked, None, 0) == Ok(t);
    assert PendingIds(t) == {"a"};
  }

  const SQUAT: WorkerEvent := WorkerEvent("e", None, ToolStarted(Some("approval:a"), Some("t"), Some("t"), None, None))

  /** The owner approves an action, and its worker starts a tool under the key of the service's own
      step for that approval: the step is there although the action may still execute. */
  lemma ApprovalStepForged(hash: string -> string) returns (h: History)
    ensures h.ops == OPENING + [Settle("a", "d", true, 0, "k", 1), Report("r", 2, [SQUAT], Turn(false, true), 1)]
    ensures Behaviour(hash, h) && Projected(h.states[5]) && !Projected(h.states[6])
  {
    hide Behaviour, Waiting, AllowedSoFar, Decide, ApplyBatch, Projected, Spoils, SQUAT, Inv;
    var h0 := Opening(hash);
    BehaviourShape(hash, h0);
    Reachable(hash, h0, 4);
    ApprovedOpening(hash, h0.states[4]);
    var t := Decide(hash, h0.states[4], "a", "d", true, 0, "k", 1).tables;
    var h1 := Extended(hash, h0, Settle("a", "d", true, 0, "k", 1));
    assert h1.states[|h1.ops|] == t;
    var op := Report("r", 2, [SQUAT], Turn(false, true), 1);
    h := Extended(hash, h1, op);
    NothingSquatted(t);
    SquatSpoils(hash, t);
    ReportKeepsIff(hash, t, op);
  }

  /** The row is approved, its run goes on, and the run has no steps. */
  ghost predicate AllowedSoFar(t: Tables) {
    && t.runs.Keys == {"r"} && t.runs["r"].status.Running? && t.runs["r"].generation == 2
    && t.approvals.Keys == {"a"} && t.approvals["a"].state.Approved? && t.steps == map[] && LongSources(t.events)
  }

  lemma ApprovedOpening(hash: string -> string, t: Tables)
    requires Waiting(t, WaitingApproval) && Inv(hash, t)
    ensures AllowedSoFar(Decide(hash, t, "a", "d", true, 0, "k", 1).tables)
  {
    hide ActionIntact, StoredCanonically, Inv;
    RowStored(hash, t, "a");
    StoredActionIntact(hash, t.approvals["a"]);
    NotDue(t, "a", 1);
  }

  lemma RowStored(hash: string -> string, t: Tables, id: string)
    requires Inv(hash, t) && id in t.approvals
    ensures StoredCanonically(hash, t.approvals[id])
  {
    hide StoredCanonically;
  }

  lemma NothingSquatted(t: Tables)
    requires AllowedSoFar(t)
    ensures Projected(t)
  {
    hide LongSources;
    forall run: string, id: string ensures ProjectedFor(t, run, id) {}
  }

  lemma {:induction false} PlainLen(s: string)
    requires forall i | 0 <= i < |s| :: s[i] as int < 0x80
    ensures Utf8Len(s) == |s|
  {
    if s != [] { PlainLen(s[1..]); }
  }

  lemma SquatSpoils(hash: string -> string, t: Tables)
    requires AllowedSoFar(t)
    ensures ApplyBatch(hash, t, "r", 2, [SQUAT], Turn(false, true), 1).result.Ok?
    ensures Spoils(hash, t, "r", [SQUAT], Turn(false, true), 1)
  {
    hide Utf8Len;
    ShortIsNew(t.events, "r");
    PlainLen("approval:a");
    PlainLen("t");
    var turn := Turn(false, true);
    assert [SQUAT][..0] == [];
    assert ApplyAll(hash, t, "r", [], turn, 1) == Ok((t, Batch([], false)));
    assert StartStep(t.(events := t.events + [RowOf("r", SQUAT)]), "r", SQUAT.body).Ok?;
    assert ApplyOne(hash, t, "r", SQUAT, turn, 1).Ok?;
    assert NewAt(hash, t, "r", [SQUAT], 0, turn, 1);
    assert Squats(StepsOf(t, "r"), SQUAT.body);
  }
}
