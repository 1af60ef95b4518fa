/** Over whole histories: who has the computer, when a turn may begin, and what ended a run. */
module DbControl {
  import opened Wrappers
  import opened Tables
  import opened LeaseAndApprovals
  import opened WorkerEvents
  import opened DbInvariant
  import opened DbRuns
  import opened ApprovalTable
  import opened LeaseTable
  import opened RunTable
  import opened DbLifecycle
  import DbBatches
  import DbHonest
  import DbServes

  // ----- who has the computer -----

  /** A takeover that succeeded. */
  predicate Takes(t: Tables, op: Op) {
    op.Take? && Known(t, op.affected)
  }

  lemma HolderStep(hash: string -> string, t: Tables, op: Op)
    requires Inv(hash, t) && Legal(t, op) && Step(hash, t, op).lease.holder.Some?
    ensures var u := Step(hash, t, op);
            if Takes(t, op) then u.lease.holder == Some(op.device)
            else u.lease.holder == t.lease.holder
  {
    hide Step, Legal, Inv, Silent, Resumes, NothingPending, BeginAnswer, Suits;
    LeaseSteps(hash, t, op);
  }

  /** Whoever has the computer took it, and has had it ever since: no other takeover succeeded and no
      state between is without that holder. */
  lemma {:induction false} HolderOrigin(hash: string -> string, h: History, j: nat, device: string) returns (i: nat)
    requires Behaviour(hash, h) && j < |h.states| && h.states[j].lease.holder == Some(device)
    ensures i < j && Takes(h.states[i], h.ops[i]) && h.ops[i].device == device
    ensures forall k: nat | i < k <= j :: h.states[k].lease.holder == Some(device)
    ensures forall k: nat | i < k < j :: !Takes(h.states[k], h.ops[k])
    decreases j
  {
    hide Inv, Step, Legal, Takes, Empty;
    assert j != 0 by { StartsFree(); }
    assert Linked(hash, h, j - 1);
    Reachable(hash, h, j - 1);
    HolderStep(hash, h.states[j - 1], h.ops[j - 1]);
    if Takes(h.states[j - 1], h.ops[j - 1]) {
      i := j - 1;
      assert h.ops[i].Take? by { TakesIs(h.states[i], h.ops[i]); }
    } else {
      i := HolderOrigin(hash, h, j - 1, device);
    }
  }

  lemma StartsFree()
    ensures Empty().lease.holder.None?
  {
  }

  lemma TakesIs(t: Tables, op: Op)
    requires Takes(t, op)
    ensures op.Take?
  {
  }

  /** A holder's move or heartbeat that succeeded. */
  predicate Moves(t: Tables, op: Op) {
    op.Move? && Hold(t, op.move, op.device, op.expected, op.affected, op.now).result.Ok?
  }

  /** Every successful move of a history is by the device of the latest successful takeover, which has
      held the lease in every state since: a release, a stale hold, a restart or another device's
      takeover in between would have ended it. */
  lemma MoveByTaker(hash: string -> string, h: History, j: nat) returns (i: nat)
    requires Behaviour(hash, h) && j < |h.ops| && Moves(h.states[j], h.ops[j])
    ensures i < j && Takes(h.states[i], h.ops[i]) && h.ops[i].device == h.ops[j].device
    ensures forall k: nat | i < k <= j :: h.states[k].lease.holder == Some(h.ops[j].device)
    ensures forall k: nat | i < k < j :: !Takes(h.states[k], h.ops[k])
    ensures !Silent(h.states[j].lease, h.ops[j].now)
  {
    hide Inv, Step, Legal, Takes, Empty, Hold, Linked, Suits, Known;
    var op, t := h.ops[j], h.states[j];
    HoldTable(t, op.move, op.device, op.expected, op.affected, op.now);
    i := HolderOrigin(hash, h, j, op.device);
  }

  // ----- when a turn begins -----

  /** In any history a run gets a new generation only by beginning a turn from Starting, and the lease is
      then the agent's or being resumed: no step takes a run to a new turn while a human has the
      computer or is being given it. */
  lemma TurnsUnderAgent(hash: string -> string, h: History, j: nat, run: string)
    requires Behaviour(hash, h) && j < |h.ops| && run in h.states[j].runs
    ensures var t, u, op := h.states[j], h.states[j + 1], h.ops[j];
            && run in u.runs
            && (u.runs[run].generation != t.runs[run].generation ==>
                  && op.Begin? && op.run == run && t.runs[run].status == Starting
                  && u.runs[run].status == Running && u.runs[run].generation == t.runs[run].generation + 1
                  && (u.lease.state == LeaseState.Agent || u.lease.state == Resuming) && !u.lease.bracket
                  && BeginTurn(t, run, op.now).result == Ok((u.runs[run].generation, u.lease.state == Resuming)))
  {
    hide Inv, Step, Legal, Silent, BeginTurn, Journalled;
    var t, op := h.states[j], h.ops[j];
    assert Linked(hash, h, j);
    Reachable(hash, h, j);
    Reachable(hash, h, j + 1);
    DbBatches.LeaseFacts(hash, h, j + 1);
    RunSteps(hash, t, op, run);
    LeaseSteps(hash, t, op);
    if op.Begin? { BeginTable(t, op.run, op.now); }
  }

  // ----- what ended a run -----

  /** The step that last gave a run the status it has: it added the run or changed its status. */
  lemma {:induction false} StatusOrigin(hash: string -> string, h: History, i: nat, run: string) returns (j: nat)
    requires Behaviour(hash, h) && i < |h.states| && run in h.states[i].runs
    ensures j < i
    ensures run in h.states[j].runs ==> h.states[j].runs[run].status != h.states[i].runs[run].status
    ensures forall k: nat | j < k <= i ::
              run in h.states[k].runs && h.states[k].runs[run].status == h.states[i].runs[run].status
    decreases i
  {
    hide Inv, Step, Legal, Linked;
    assert i != 0;
    if run in h.states[i - 1].runs && h.states[i - 1].runs[run].status == h.states[i].runs[run].status {
      j := StatusOrigin(hash, h, i - 1, run);
    } else {
      j := i - 1;
    }
  }

  /** The row is the run's worker reporting its end. */
  predicate EndRow(e: Event, run: string) {
    e.run == run && e.kind.Worker?
    && (e.kind.body.RunCompleted? || e.kind.body.RunFailed? || e.kind.body.RunCancelled? || e.kind.body.RunTerminated?)
  }

  /** What the end of a run makes of its status; a clean teardown counts while the run is not over. */
  predicate Concludes(b: Body, s: RunStatus) {
    match b
    case RunCompleted => s == Completed
    case RunFailed => s == Failed
    case RunCancelled => s == Cancelled
    case RunTerminated(_) => s == Failed
    case _ => false
  }

  /** The row can follow the one that gave the run its status. */
  predicate Harmless(b: Body, s: RunStatus) {
    b.RunTerminated? && (s != Failed ==> b.cleanupOk)
  }

  /** The row at `m` gave the run the status, and the ends reported after it are harmless teardowns. */
  predicate EndedAt(events: seq<Event>, run: string, s: RunStatus, m: nat) {
    && m < |events| && EndRow(events[m], run) && Concludes(events[m].kind.body, s)
    && HarmlessFrom(events, run, s, m + 1)
  }

  predicate HarmlessFrom(events: seq<Event>, run: string, s: RunStatus, n: nat) {
    forall k | n <= k < |events| && EndRow(events[k], run) :: Harmless(events[k].kind.body, s)
  }

  lemma {:induction false} StatusChanged(s: RunStatus, rows: seq<Event>, run: string) returns (m: nat)
    requires StatusFrom(s, rows, run) != s
    ensures EndedAt(rows, run, StatusFrom(s, rows, run), m)
  {
    var init, last := rows[..|rows| - 1], rows[|rows| - 1];
    var before, after := StatusFrom(s, init, run), StatusFrom(s, rows, run);
    if EndRow(last, run) && !(last.kind.body == RunTerminated(true) && Over(before)) {
      m := |rows| - 1;
    } else {
      assert before == after;
      m := StatusChanged(s, init, run);
      assert EndedAt(init, run, after, m);
      forall k | m + 1 <= k < |rows| && EndRow(rows[k], run) ensures Harmless(rows[k].kind.body, after) {
        assert k < |init| ==> init[k] == rows[k];
      }
    }
  }

  // ----- the rows a step adds -----

  /** Every added row is the service's own or the row of an event of the batch. */
  ghost predicate BatchRows(events: seq<Event>, more: seq<Event>, run: string, es: seq<WorkerEvent>) {
    && events <= more
    && forall m | |events| <= m < |more| :: more[m].kind.Service? || OfBatch(more[m], run, es)
  }

  predicate OfBatch(row: Event, run: string, es: seq<WorkerEvent>) {
    exists k | 0 <= k < |es| :: row == EventRow(run, es[k])
  }

  lemma {:induction false} ChainRows(hash: string -> string, ss: seq<Tables>, run: string, es: seq<WorkerEvent>,
                                     turn: Turn,
                                     now: int, stored: seq<Stored>, i: nat)
    requires Chain(hash, ss, run, es, turn, now, stored) && i < |ss|
    ensures BatchRows(ss[0].events, ss[i].events, run, es)
    decreases i
  {
    hide Chain, Taking;
    if i > 0 {
      ChainRows(hash, ss, run, es, turn, now, stored, i - 1);
      ChainLink(hash, ss, run, es, turn, now, stored, i - 1);
      TakingStatus(hash, ss[i - 1], ss[i], run, es[i - 1], turn, now, stored[i - 1], run);
      var more := ss[i].events;
      forall m | |ss[0].events| <= m < |more| ensures more[m].kind.Service? || OfBatch(more[m], run, es) {
        if m == |ss[i - 1].events| { assert more[m] == EventRow(run, es[i - 1]); }
        assert m < |ss[i - 1].events| ==> more[m] == ss[i - 1].events[m];
      }
    }
  }

  lemma StepRows(hash: string -> string, t: Tables, op: Op)
    requires Inv(hash, t) && Legal(t, op)
    ensures BatchRows(t.events, Step(hash, t, op).events, if op.Report? then op.run else "",
                      if op.Report? then op.es else [])
    ensures op.Report? && Step(hash, t, op) != t ==> InTurn(t, op.run, op.generation, op.es)
  {
    hide Inv, Chain, ApplyBatch, Takeable, DbServes.StepsServed, DbServes.VerdictServed, DbServes.PendingUnused;
    if op.Report? {
      var ss, stored := BatchTable(hash, t, op.run, op.generation, op.es, op.turn, op.now);
      if ApplyBatch(hash, t, op.run, op.generation, op.es, op.turn, op.now).result.Ok? {
        ChainRows(hash, ss, op.run, op.es, op.turn, op.now, stored, |op.es|);
      }
    } else {
      hide Step, Legal;
      DbHonest.ReachableUnused(hash, t);
      DbServes.ServedSelf(t);
      DbServes.StepServes(hash, t, t, op);
    }
  }

  /** Teardown rows that leave a status as it is are harmless. */
  lemma {:induction false} TeardownHarmless(s: RunStatus, rows: seq<Event>, run: string)
    requires forall k | 0 <= k < |rows| && EndRow(rows[k], run) :: rows[k].kind.body.RunTerminated?
    ensures StatusFrom(s, rows, run) == s || StatusFrom(s, rows, run) == Failed
    ensures StatusFrom(s, rows, run) != Failed ==> HarmlessFrom(rows, run, s, 0)
  {
    if rows != [] {
      var init, last := rows[..|rows| - 1], rows[|rows| - 1];
      TeardownHarmless(s, init, run);
      if StatusFrom(s, rows, run) != Failed {
        assert StatusFrom(s, init, run) != Failed;
        forall k | 0 <= k < |rows| && EndRow(rows[k], run) ensures Harmless(rows[k].kind.body, s) {
          assert k < |init| ==> init[k] == rows[k];
        }
      }
    }
  }

  /** Once a run is over, a step that leaves its status alone adds harmless rows only. */
  lemma StepHarmless(hash: string -> string, t: Tables, op: Op, run: string)
    requires Inv(hash, t) && Legal(t, op) && run in t.runs && Over(t.runs[run].status)
    requires run in Step(hash, t, op).runs && Step(hash, t, op).runs[run].status == t.runs[run].status
    ensures t.events <= Step(hash, t, op).events
    ensures HarmlessFrom(Step(hash, t, op).events, run, t.runs[run].status, |t.events|)
  {
    hide Inv, Step, Legal, Chain;
    var u, s := Step(hash, t, op), t.runs[run].status;
    StepRows(hash, t, op);
    if op.Report? && op.run == run && u != t {
      var rows := u.events[|t.events|..];
      RunSteps(hash, t, op, run);
      assert StatusFrom(s, rows, run) == s;
      forall k | 0 <= k < |rows| && EndRow(rows[k], run) ensures rows[k].kind.body.RunTerminated? {
        assert OfBatch(u.events[|t.events| + k], run, op.es);
      }
      TeardownHarmless(s, rows, run);
      forall k | |t.events| <= k < |u.events| && EndRow(u.events[k], run) ensures Harmless(u.events[k].kind.body, s) {
        assert rows[k - |t.events|] == u.events[k];
      }
    }
  }

  lemma {:induction false} LaterHarmless(hash: string -> string, h: History, j: nat, i: nat, run: string, s: RunStatus)
    requires Behaviour(hash, h) && j <= i < |h.states| && Over(s)
    requires forall k: nat | j <= k <= i :: run in h.states[k].runs && h.states[k].runs[run].status == s
    ensures h.states[j].events <= h.states[i].events
    ensures HarmlessFrom(h.states[i].events, run, s, |h.states[j].events|)
    decreases i
  {
    hide Inv, Step, Legal, Harmless;
    if j < i {
      LaterHarmless(hash, h, j, i - 1, run, s);
      Reachable(hash, h, i - 1);
      assert Linked(hash, h, i - 1);
      StepHarmless(hash, h.states[i - 1], h.ops[i - 1], run);
      var before, after := h.states[i - 1].events, h.states[i].events;
      forall k | |h.states[j].events| <= k < |after| && EndRow(after[k], run) ensures Harmless(after[k].kind.body, s) {
        assert k < |before| ==> before[k] == after[k];
      }
    }
  }

  /** The service's own ends: stopping a queued run, cancelling before the worker starts, failing a run
      that cannot start. */
  predicate ServiceEnds(t: Tables, op: Op, run: string, s: RunStatus)
    requires run in t.runs
  {
    || (op.Stop? && op.run == run && t.runs[run].status == Queued && s == Cancelled)
    || (op.CancelEarly? && op.run == run && t.runs[run].status == Cancelling && s == Cancelled)
    || (op.FailEarly? && op.run == run && s == Failed)
  }

  /** What makes a run completed, failed or cancelled. */
  lemma EndingStep(hash: string -> string, t: Tables, op: Op, run: string) returns (m: nat)
    requires Inv(hash, t) && Legal(t, op) && run in Step(hash, t, op).runs
    requires Step(hash, t, op).runs[run].status in {Completed, Failed, Cancelled}
    requires run in t.runs ==> t.runs[run].status != Step(hash, t, op).runs[run].status
    ensures var u := Step(hash, t, op); var s := u.runs[run].status;
            && run in t.runs && t.events <= u.events
            && (|| ServiceEnds(t, op, run, s)
                || (op.Report? && op.run == run && |t.events| <= m && EndedAt(u.events, run, s, m)))
    ensures !op.Report? ==> BatchRows(t.events, Step(hash, t, op).events, "", [])
  {
    hide Inv, Step, Legal, BeginAnswer, ProposeAnswer, DecideAnswer, Chain;
    var u := Step(hash, t, op);
    var s := u.runs[run].status;
    RunSteps(hash, t, op, run);
    StepRows(hash, t, op);
    if op.Report? {
      var rows := u.events[|t.events|..];
      var k := StatusChanged(t.runs[run].status, rows, run);
      m := |t.events| + k;
      assert u.events[m] == rows[k];
      forall x | m + 1 <= x < |u.events| && EndRow(u.events[x], run) ensures Harmless(u.events[x].kind.body, s) {
        assert rows[x - |t.events|] == u.events[x];
      }
      assert OfBatch(u.events[m], op.run, op.es);
    } else {
      m := 0;
    }
  }

  /** What ended a run, in any state of any history. A run is completed only by its worker's report, and
      the last end its journal holds, harmless teardowns aside, is that report. A failed run was
      failed by its worker's report or before it could start; a cancelled one by its worker's report,
      or by the service while queued or before the worker started; and in each case no end is
      journalled after that but a harmless teardown. */
  lemma RunEnded(hash: string -> string, h: History, i: nat, run: string) returns (j: nat, m: nat)
    requires Behaviour(hash, h) && i < |h.states| && run in h.states[i].runs
    requires h.states[i].runs[run].status in {Completed, Failed, Cancelled}
    ensures j < i && run in h.states[j].runs && |h.states[j].events| <= |h.states[i].events|
    ensures var s, op := h.states[i].runs[run].status, h.ops[j];
            || (&& op.Report? && op.run == run && |h.states[j].events| <= m && EndedAt(h.states[i].events, run, s, m))
            || (ServiceEnds(h.states[j], op, run, s)
                && HarmlessFrom(h.states[i].events, run, s, |h.states[j].events|))
  {
    hide Inv, Step, Legal, Harmless, Concludes, EndRow;
    var s := h.states[i].runs[run].status;
    j := StatusOrigin(hash, h, i, run);
    assert Linked(hash, h, j);
    Reachable(hash, h, j);
    m := EndingStep(hash, h.states[j], h.ops[j], run);
    LaterHarmless(hash, h, j + 1, i, run, s);
    var mid, all := h.states[j + 1].events, h.states[i].events;
    forall k | 0 <= k < |mid| ensures all[k] == mid[k] {}
    if ServiceEnds(h.states[j], h.ops[j], run, s) { ServiceRowsHarmless(h.states[j].events, mid, run, s); }
  }

  lemma ServiceRowsHarmless(events: seq<Event>, more: seq<Event>, run: string, s: RunStatus)
    requires BatchRows(events, more, "", [])
    ensures HarmlessFrom(more, run, s, |events|)
  {
  }

  /** A completed run: the last end in its journal, clean teardowns aside, is its worker's completion. */
  lemma CompletedByWorker(hash: string -> string, h: History, i: nat, run: string) returns (m: nat)
    requires Behaviour(hash, h) && i < |h.states| && run in h.states[i].runs
    requires h.states[i].runs[run].status == Completed
    ensures var events := h.states[i].events;
            && m < |events| && events[m].run == run && events[m].kind == Worker(RunCompleted)
            && forall k | m < k < |events| && EndRow(events[k], run) :: events[k].kind.body == RunTerminated(true)
  {
    hide Behaviour;
    var j;
    j, m := RunEnded(hash, h, i, run);
  }
}
