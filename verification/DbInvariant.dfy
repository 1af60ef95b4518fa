/** What every reachable database satisfies, and how one reachable database may follow another. */
module DbInvariant {
  import opened Wrappers
  import opened Tables
  import Json = CanonicalJson

  // ----- evolution: what no step ever undoes -----

  /** The part of the lease that the generation fences. */
  function Core(l: Lease): (LeaseState, Option<string>, bool) {
    (l.state, l.holder, l.bracket)
  }

  predicate LeaseEvolves(l: Lease, m: Lease) {
    l.generation <= m.generation && (l.generation == m.generation ==> Core(l) == Core(m))
  }

  predicate SameProposal(a: Approval, b: Approval) {
    a.run == b.run && a.digest == b.digest && a.actionJson == b.actionJson && a.description == b.description
    && a.grant == b.grant && a.leaseGeneration == b.leaseGeneration && a.expiresAt == b.expiresAt
    && a.createdAt == b.createdAt
  }

  /** An approval leaves pending once; afterwards only approved to revoked; a ticket and its
      use are never rewritten; a row that is not approved is never used. */
  predicate RowEvolves(a: Approval, b: Approval) {
    && SameProposal(a, b)
    && (a.state == b.state || a.state.Pending? || (a.state.Approved? && b.state.Revoked?))
    && (b.state.Pending? ==> a == b)
    && (!a.state.Pending? ==> b.ticketHash == a.ticketHash)
    && (a.consumedAt.Some? || a.state in {Denied, Expired, Revoked} ==> b.consumedAt == a.consumedAt)
  }

  /** Steps are append-only; a step that is not running is frozen. */
  predicate StepsEvolve(ss: seq<ToolStep>, us: seq<ToolStep>) {
    && |ss| <= |us|
    && (forall i | 0 <= i < |ss| ::
          us[i].key == ss[i].key && us[i].ordinal == ss[i].ordinal && (!ss[i].state.StepRunning? ==> us[i] == ss[i]))
  }

  ghost predicate RowsEvolve(t: Tables, u: Tables) {
    forall id | id in t.approvals :: id in u.approvals && RowEvolves(t.approvals[id], u.approvals[id])
  }

  ghost predicate AllStepsEvolve(t: Tables, u: Tables) {
    forall run: string :: StepsEvolve(StepsOf(t, run), StepsOf(u, run))
  }

  ghost predicate Evolves(t: Tables, u: Tables) {
    && LeaseEvolves(t.lease, u.lease)
    && t.grant <= u.grant
    && t.runs.Keys <= u.runs.Keys
    && RowsEvolve(t, u)
    && AllStepsEvolve(t, u)
    && t.events <= u.events
  }

  // ----- the invariant, table by table -----

  predicate LeaseOk(l: Lease) {
    && (l.holder.Some? <==> l.state in {LeaseState.Pausing, LeaseState.Human, LeaseState.Resuming})
    && (l.heartbeat.Some? <==> l.holder.Some?)
    && (l.bracket ==> l.state.Human?)
    && !l.state.Observed? && !l.state.Paused?
  }

  ghost predicate StoredCanonically(hash: string -> string, a: Approval) {
    a.digest == hash(a.actionJson) && exists v :: Json.WellFormed(v) && a.actionJson == Json.Canonical(v)
  }

  /** A pending row's run waits, or has been failed closed under it. */
  predicate Parked(s: RunStatus) {
    s in {WaitingApproval, Interrupted, Failed}
  }

  predicate RowOk(t: Tables, a: Approval) {
    && a.run in t.runs
    && a.leaseGeneration <= t.lease.generation
    && a.grant <= t.grant
    && (a.state.Pending? ==>
          a.ticketHash.None? && a.decidedAt.None? && a.grant == t.grant && Parked(t.runs[a.run].status))
    && (a.state.Approved? ==> a.ticketHash.Some?)
    && (a.state in {Approved, Denied} ==> a.decidedAt.Some? && a.decidedAt.value < a.expiresAt)
    && (a.state in {Denied, Expired} ==> a.ticketHash.None?)
    && (a.consumedAt.Some? ==> a.ticketHash.Some?)
  }

  ghost predicate RowsOk(hash: string -> string, t: Tables) {
    forall id | id in t.approvals :: RowOk(t, t.approvals[id]) && StoredCanonically(hash, t.approvals[id])
  }

  ghost predicate OnePending(t: Tables) {
    forall x, y | x in PendingIds(t) && y in PendingIds(t) && t.approvals[x].run == t.approvals[y].run :: x == y
  }

  /** Ordinals are 1, 2, ..., n and no call key repeats. */
  predicate Numbered(ss: seq<ToolStep>) {
    && (forall i | 0 <= i < |ss| :: ss[i].ordinal == i + 1)
    && (forall i, j | 0 <= i < j < |ss| :: ss[i].key != ss[j].key)
  }

  ghost predicate StepsOk(t: Tables) {
    forall run: string :: Numbered(StepsOf(t, run))
  }

  /** The action described by the approval will never execute. */
  predicate NeverRuns(a: Approval) {
    a.state in {Denied, Expired} || (a.state.Revoked? && a.consumedAt.None?)
  }

  predicate OwedStep(t: Tables, run: string, id: string) {
    id in t.approvals && t.approvals[id].run == run && NeverRuns(t.approvals[id])
  }

  /** The run's steps keyed by an approval: present exactly when owed, `denied` only for a
      denied row, `cancelled` otherwise. */
  ghost predicate ProjectedFor(t: Tables, run: string, id: string) {
    && (HasKey(StepsOf(t, run), ApprovalKey(id)) <==> OwedStep(t, run, id))
    && (forall i | 0 <= i < |StepsOf(t, run)| && StepsOf(t, run)[i].key == ApprovalKey(id) ::
          OwedStep(t, run, id)
          && StepsOf(t, run)[i].state == (if t.approvals[id].state.Denied? then StepDenied else StepCancelled))
  }

  /** Every approval step is as it should be. */
  ghost predicate Projected(t: Tables) {
    forall run: string, id: string :: ProjectedFor(t, run, id)
  }

  predicate Reserved(key: string) {
    "approval:" <= key
  }

  predicate Claims(e: Event, run: string, key: string) {
    e.run == run && e.kind.Worker? && e.kind.body.ToolStarted? && e.kind.body.key == Some(key)
  }

  /** The run's worker has journalled a tool start of its own under the key. */
  predicate Claimed(events: seq<Event>, run: string, key: string) {
    exists i | 0 <= i < |events| :: Claims(events[i], run, key)
  }

  /** Nothing is assumed of workers: an approval step is as it should be unless the run's worker
      has started a tool under that very key. */
  ghost predicate Unspoiled(t: Tables, run: string, id: string) {
    Claimed(t.events, run, ApprovalKey(id)) || ProjectedFor(t, run, id)
  }

  ghost predicate ProjectedUnlessClaimed(t: Tables) {
    forall run: string, id: string :: Unspoiled(t, run, id)
  }

  /** A worker step that names an approval was started on its consumed ticket. */
  ghost predicate Gated(t: Tables) {
    forall run: string, i | 0 <= i < |StepsOf(t, run)| :: GatedStep(t, StepsOf(t, run)[i])
  }

  predicate GatedStep(t: Tables, s: ToolStep) {
    !Reserved(s.key) && s.approval.Some? ==>
      s.approval.value in t.approvals && t.approvals[s.approval.value].consumedAt.Some?
  }

  // ----- the journal and what it projects to -----

  /** The reply a journal holds for a run: its answer deltas, in order. */
  function AnswerOf(events: seq<Event>, run: string): string {
    if events == [] then "" else
      var last := events[|events| - 1];
      var before := AnswerOf(events[..|events| - 1], run);
      if last.run == run && last.kind.Worker? && last.kind.body.AnswerDelta? then before + last.kind.body.text
      else before
  }

  function AnswerText(t: Tables, run: string): string {
    if run in t.runs && t.runs[run].answer.Some? then t.runs[run].answer.value else ""
  }

  function Or(v: Option<string>): string {
    if v.Some? then v.value else ""
  }

  /** A run's reply is what its journal says. */
  predicate JournaledFor(t: Tables, run: string) {
    AnswerText(t, run) == AnswerOf(t.events, run)
  }

  ghost predicate Journaled(t: Tables) {
    forall run: string :: JournaledFor(t, run)
  }

  /** A run has a reply only once its turn has begun. */
  predicate RunOk(r: Run) {
    r.status in {Queued, Starting} ==> r.answer.None?
  }

  ghost predicate RunsOk(t: Tables) {
    forall run | run in t.runs :: RunOk(t.runs[run])
  }

  ghost predicate Inv(hash: string -> string, t: Tables) {
    && LeaseOk(t.lease) && RowsOk(hash, t) && OnePending(t) && StepsOk(t)
    && ProjectedUnlessClaimed(t) && Gated(t) && Journaled(t) && RunsOk(t)
  }

  /** One committed step: the invariant is kept and nothing is undone. */
  ghost predicate Keeps(hash: string -> string, t: Tables, u: Tables) {
    Inv(hash, u) && Evolves(t, u)
  }

  function Empty(): Tables {
    Tables(Lease(0, LeaseState.Agent, None, false, None, None, 0), 1, {}, map[], map[], map[], [])
  }

  lemma EmptyInv(hash: string -> string)
    ensures Inv(hash, Empty())
  {
  }

  lemma EvolvesRefl(t: Tables)
    ensures Evolves(t, t)
  {
  }

  lemma EvolvesTrans(t: Tables, u: Tables, v: Tables)
    requires Evolves(t, u) && Evolves(u, v)
    ensures Evolves(t, v)
  {
    assert LeaseEvolves(t.lease, v.lease);
    RowsTrans(t, u, v);
    StepsTrans(t, u, v);
  }

  lemma RowsTrans(t: Tables, u: Tables, v: Tables)
    requires RowsEvolve(t, u) && RowsEvolve(u, v)
    ensures RowsEvolve(t, v)
  {
    forall id | id in t.approvals ensures id in v.approvals && RowEvolves(t.approvals[id], v.approvals[id]) {
      assert id in u.approvals;
    }
  }

  lemma StepsTrans(t: Tables, u: Tables, v: Tables)
    requires AllStepsEvolve(t, u) && AllStepsEvolve(u, v)
    ensures AllStepsEvolve(t, v)
  {
    forall run: string ensures StepsEvolve(StepsOf(t, run), StepsOf(v, run)) {
      assert StepsEvolve(StepsOf(t, run), StepsOf(u, run)) && StepsEvolve(StepsOf(u, run), StepsOf(v, run));
    }
  }
}
