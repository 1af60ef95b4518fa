/** A reference table of the approval transactions, written independently of their functions: when each
    is accepted, the answer it gives, and field by field what it leaves. */
module ApprovalTable {
  import opened Wrappers
  import opened Text
  import opened Tables
  import opened LeaseAndApprovals
  import opened DbInvariant
  import opened DbTransactions
  import DbApprovalSteps
  import DbStatements
  import DbSettlement
  import Json = CanonicalJson
  import JsonProofs = CanonicalJsonProofs

  // ----- journal rows and verdict steps -----

  /** The key is in use: as a row id anywhere, or as a source key of the run. */
  predicate Taken(events: seq<Event>, run: string, key: string) {
    exists i | 0 <= i < |events| :: events[i].id == key || (events[i].run == run && events[i].source == key)
  }

  /** The journal with the service's own row under a key; the first row under it stays. */
  function Journalled(events: seq<Event>, run: string, key: string, name: string): seq<Event> {
    if Taken(events, run, key) then events else events + [Event(key, run, Service(name), key, true)]
  }

  lemma RowTable(t: Tables, key: string, run: string, name: string)
    ensures AddRow(t, key, run, name) == t.(events := Journalled(t.events, run, key, name))
  {
    var e := Event(key, run, Service(name), key, true);
    forall i | 0 <= i < |t.events|
      ensures Clashes(t.events[i], e) <==>
                t.events[i].id == key || (t.events[i].run == run && t.events[i].source == key)
    {
    }
  }

  /** The steps of a run with the step of a verdict: the first step under its key stays. */
  function WithVerdict(ss: seq<ToolStep>, id: string, a: Approval, state: StepState): seq<ToolStep> {
    if exists i | 0 <= i < |ss| :: ss[i].key == "approval:" + id then ss
    else
      var title := Truncate(Trim(a.description), 256);
      ss + [ToolStep("approval:" + id, |ss| + 1, None, Truncate(ActionTool(a.actionJson), 128),
                     if title == "" then "(approval)" else title, Some(id), state,
                     Some(if state.StepDenied? then "denied" else "cancelled"))]
  }

  lemma VerdictTable(t: Tables, id: string, a: Approval, state: StepState)
    requires StepsOk(t)
    ensures AddServiceStep(t, id, a, state) ==
              t.(steps := t.steps[a.run := WithVerdict(StepsOf(t, a.run), id, a, state)])
  {
    hide ActionTool, Trim, Truncate;
    assert Numbered(StepsOf(t, a.run));
    DbStatements.MaxOrdinalIsLength(StepsOf(t, a.run));
  }

  /** The row under `id` becomes `b`, its journal row is added, and, if a state is given, its step. */
  function Settled(t: Tables, id: string, b: Approval, name: string, step: Option<StepState>): Tables {
    t.(approvals := t.approvals[id := b],
       events := Journalled(t.events, b.run, id + ":" + name, name),
       steps := if step.None? then t.steps
                else t.steps[b.run := WithVerdict(StepsOf(t, b.run), id, b, step.value)])
  }

  lemma SettledTable(t: Tables, id: string, b: Approval, name: string, state: StepState)
    requires StepsOk(t)
    ensures AddApprovalRow(PutApproval(t, id, b), b.run, id, name) == Settled(t, id, b, name, None)
    ensures AddServiceStep(AddApprovalRow(PutApproval(t, id, b), b.run, id, name), id, b, state) ==
              Settled(t, id, b, name, Some(state))
  {
    hide WithVerdict, Journalled, AddRow, AddServiceStep;
    RowTable(PutApproval(t, id, b), id + ":" + name, b.run, name);
    var u := AddApprovalRow(PutApproval(t, id, b), b.run, id, name);
    assert StepsOk(u) by { forall run: string ensures Numbered(StepsOf(u, run)) { assert Numbered(StepsOf(t, run)); } }
    VerdictTable(u, id, b, state);
  }

  /** The step of a verdict depends on the proposal only. */
  lemma SameVerdict(ss: seq<ToolStep>, id: string, a: Approval, b: Approval, state: StepState)
    requires a.description == b.description && a.actionJson == b.actionJson
    ensures WithVerdict(ss, id, a, state) == WithVerdict(ss, id, b, state)
  {
  }

  // ----- proposing -----

  predicate HasText(es: seq<Json.Entry<Json.Json>>, key: string, max: nat) {
    exists i | 0 <= i < |es| :: es[i].key == key && es[i].value.String? && 1 <= |es[i].value.text| <= max
  }

  predicate HasArguments(es: seq<Json.Entry<Json.Json>>) {
    exists i | 0 <= i < |es| ::
      es[i].key == "arguments" && es[i].value.Object? && |es[i].value.entries| <= 16
      && forall k | 0 <= k < |es[i].value.entries| :: Flat(es[i].value.entries[k].value)
  }

  predicate Flat(v: Json.Json) {
    v.Null? || v.Bool? || v.Number? || (v.String? && |v.text| <= 2048)
  }

  /** A proposable action: a tool, a target and flat arguments, all bounded, and nothing else. */
  predicate Proposable(action: Json.Json) {
    && Json.WellFormed(action) && action.Object?
    && (forall i | 0 <= i < |action.entries| ::
          action.entries[i].key == "tool" || action.entries[i].key == "target" || action.entries[i].key == "arguments")
    && HasText(action.entries, "tool", 64) && HasText(action.entries, "target", 512) && HasArguments(action.entries)
  }

  lemma {:induction false} LookupFinds(es: seq<Json.Entry<Json.Json>>, key: string)
    requires JsonProofs.DistinctKeys(es)
    ensures forall i | 0 <= i < |es| && es[i].key == key :: Lookup(es, key) == Some(es[i].value)
    ensures (forall i | 0 <= i < |es| :: es[i].key != key) ==> Lookup(es, key).None?
  {
    if es != [] { LookupFinds(es[1..], key); }
  }

  lemma ProposableIs(action: Json.Json)
    ensures ValidAction(action) <==> Proposable(action)
  {
    if Json.WellFormed(action) && action.Object? {
      var es := action.entries;
      LookupFinds(es, "tool");
      LookupFinds(es, "target");
      LookupFinds(es, "arguments");
    }
  }

  /** What a proposal is answered. */
  function ProposeAnswer(t: Tables, id: string, run: string, generation: nat, action: Json.Json, description: string,
                         ttl: int, now: int): Result<int, DbError>
  {
    if !Proposable(action) || |description| < 1 || |description| > 512 || ttl < 1 || ttl > 300_000
    then Err(MalformedProposal)
    else if run !in t.runs then Err(RunNotFound)
    else if t.runs[run].generation != generation then Err(StaleGeneration)
    else if exists a | a in t.approvals :: t.approvals[a].run == run && t.approvals[a].state.Pending?
    then Err(PendingExists)
    else if t.runs[run].status != Running then Err(RunNotActive)
    else if id in t.approvals then Err(DuplicateApproval)
    else Ok(now + ttl)
  }

  /** A proposal is answered as the table says; accepted, it adds one pending row with the digest of the
      action's canonical text, the current fences and the deadline `now + ttl`, parks its run and
      journals the request; refused, it changes nothing. */
  lemma ProposeTable(hash: string -> string, t: Tables, id: string, run: string, generation: nat,
                     action: Json.Json, description: string, ttl: int, now: int)
    ensures var r := Propose(hash, t, id, run, generation, action, description, ttl, now);
            && r.result == ProposeAnswer(t, id, run, generation, action, description, ttl, now)
            && (r.result.Err? ==> r.tables == t)
            && (r.result.Ok? ==>
                  r.tables ==
                    t.(runs := t.runs[run := t.runs[run].(status := WaitingApproval)],
                       approvals := t.approvals[id := Approval(
                         run, hash(Json.Canonical(action)), Json.Canonical(action), description, t.grant,
                         t.lease.generation, now + ttl, now, Pending, None, None, None, None, None)],
                       events := Journalled(t.events, run, id + ":approval.requested", "approval.requested")))
  {
    hide ValidAction, Proposable, Journalled, AddRow, Json.Canonical;
    ProposableIs(action);
    assert id + ":" + "approval.requested" == id + ":approval.requested";
    var r := Propose(hash, t, id, run, generation, action, description, ttl, now);
    if r.result.Ok? {
      var a := Approval(run, hash(Json.Canonical(action)), Json.Canonical(action), description, t.grant,
                        t.lease.generation, now + ttl, now, Pending, None, None, None, None, None);
      RowTable(SetStatus(PutApproval(t, id, a), run, WaitingApproval), id + ":approval.requested", run,
               "approval.requested");
    }
  }

  // ----- what a verdict step is named after -----

  lemma {:induction false} MemberFinds(es: seq<Json.Entry<Json.Json>>, key: string, e: Json.Entry<Json.Json>)
    requires JsonProofs.DistinctKeys(es) && e in es && e.key == key && e.value.String?
    ensures Member(es, key) == e.value.text
  {
    if es[0] != e {
      JsonProofs.TailMembers(es, e);
      var i :| 0 <= i < |es| && es[i] == e;
      assert es[0].key != key;
      MemberFinds(es[1..], key, e);
    }
  }

  /** The verdict step of a stored proposal carries the tool its action names. */
  lemma ToolNamed(action: Json.Json, i: nat)
    requires Proposable(action) && i < |action.entries| && action.entries[i].key == "tool"
    ensures action.entries[i].value.String?
    ensures ActionTool(Json.Canonical(action)) == action.entries[i].value.text
  {
    hide Json.Canonical, Json.Parse, HasArguments;
    var es := action.entries;
    var k :| 0 <= k < |es| && es[k].key == "tool" && es[k].value.String? && 1 <= |es[k].value.text| <= 64;
    assert k == i;
    JsonProofs.CanonicalParses(action);
    var ns := Json.NormEntries(es);
    NormAtIndex(es, i);
    JsonProofs.SortDistinct(ns);
    assert ns[i] in ns;
    MemberFinds(Json.SortByKey(ns), "tool", ns[i]);
  }

  lemma {:induction false} NormAtIndex(es: seq<Json.Entry<Json.Json>>, i: nat)
    requires i < |es|
    ensures Json.NormEntries(es)[i] == Json.Entry(es[i].key, Json.Norm(es[i].value))
  {
    if i > 0 { NormAtIndex(es[1..], i - 1); }
  }

  // ----- expiring -----

  predicate PastDeadline(a: Approval, now: int) {
    a.state == Pending && now >= a.expiresAt
  }

  /** The row expired, journalled, its step written, its run failed closed. */
  function TimedOut(t: Tables, id: string): Tables
    requires id in t.approvals && t.approvals[id].run in t.runs
  {
    var a := t.approvals[id];
    Settled(t, id, a.(state := Expired), "approval.request_timed_out", Some(StepCancelled)).(
      runs := t.runs[a.run := t.runs[a.run].(status := Interrupted)])
  }

  lemma ExpireTable(hash: string -> string, t: Tables, id: string, now: int)
    requires Inv(hash, t)
    ensures id in t.approvals ==> t.approvals[id].run in t.runs
    ensures Expire(t, id, now) ==
              if id in t.approvals && PastDeadline(t.approvals[id], now) then Ok((TimedOut(t, id), true))
              else Ok((t, false))
  {
    hide StoredCanonically, Settled, AddServiceStep, AddRow;
    if id in t.approvals && PastDeadline(t.approvals[id], now) {
      var a := t.approvals[id];
      assert RowOk(t, a);
      var b := a.(state := Expired);
      SettledTable(t, id, b, "approval.request_timed_out", StepCancelled);
      SameStep(AddApprovalRow(PutApproval(t, id, b), a.run, id, "approval.request_timed_out"), id, a, b);
      SettledFrame(t, id, b, "approval.request_timed_out", Some(StepCancelled));
    }
  }

  lemma SameStep(t: Tables, id: string, a: Approval, b: Approval)
    requires SameProposal(a, b)
    ensures forall state: StepState :: AddServiceStep(t, id, b, state) == AddServiceStep(t, id, a, state)
  {
    hide ActionTool, Trim, Truncate, AddStep;
    DbApprovalSteps.SameServiceStep(id, a, b);
  }

  lemma SettledFrame(t: Tables, id: string, b: Approval, name: string, step: Option<StepState>)
    ensures var u := Settled(t, id, b, name, step);
            u.runs == t.runs && u.lease == t.lease && u.grant == t.grant && u.devices == t.devices
            && u.approvals == t.approvals[id := b]
  {
  }

  // ----- deciding -----

  /** What a decision is answered. */
  function DecideAnswer(t: Tables, id: string, approve: bool, seen: nat, token: string,
                        now: int): Result<Outcome, DbError>
  {
    if id !in t.approvals then Err(ApprovalNotFound) else
    var a := t.approvals[id];
    if PastDeadline(a, now) then Err(ApprovalExpired)
    else if a.state != Pending then Err(AlreadySettled(a.state))
    else if seen != t.lease.generation || a.leaseGeneration != t.lease.generation then Err(StaleLease)
    else if a.run in t.runs && (t.runs[a.run].status == WaitingApproval || t.runs[a.run].status == Interrupted)
    then Ok(if approve then WasApproved(token) else WasDenied)
    else Err(RunNotWaiting)
  }

  /** The decided row: who and when; an approval gets the hash of its token. */
  function Verdict(hash: string -> string, a: Approval, device: string, approve: bool, token: string,
                   now: int): Approval
  {
    a.(state := if approve then Approved else Denied, ticketHash := if approve then Some(hash(token)) else a.ticketHash,
       decidedBy := Some(device), decidedAt := Some(now))
  }

  /** What a decision leaves: only a denial has a step, a waiting run goes on. */
  function Decided(t: Tables, id: string, b: Approval): Tables
    requires b.run in t.runs
  {
    Settled(t, id, b, "approval.settled", if b.state == Denied then Some(StepDenied) else None).(
      runs := if t.runs[b.run].status == WaitingApproval
              then t.runs[b.run := t.runs[b.run].(status := Running)] else t.runs)
  }

  lemma ConcludeTable(t: Tables, id: string, b: Approval)
    requires StepsOk(t) && b.run in t.runs
    ensures Conclude(t, id, b) == Decided(t, id, b)
  {
    hide AddServiceStep, AddRow, WithVerdict, Journalled;
    var resumed := if t.runs[b.run].status.WaitingApproval? then SetStatus(t, b.run, Running) else t;
    assert StepsOk(resumed) by {
      forall run: string ensures Numbered(StepsOf(resumed, run)) { assert Numbered(StepsOf(t, run)); }
    }
    SettledTable(resumed, id, b, "approval.settled", StepDenied);
  }

  /** On reachable tables a decision is answered as the table says. A refusal changes nothing, except
      that deciding past the deadline expires the row. */
  lemma DecideTable(hash: string -> string, t: Tables, id: string, device: string, approve: bool, seen: nat,
                    token: string, now: int)
    requires Inv(hash, t)
    ensures var r := Decide(hash, t, id, device, approve, seen, token, now);
            && r.result == DecideAnswer(t, id, approve, seen, token, now)
            && (id in t.approvals ==> t.approvals[id].run in t.runs)
            && (r.result.Err? ==>
                  r.tables == if id in t.approvals && PastDeadline(t.approvals[id], now) then TimedOut(t, id) else t)
            && (r.result.Ok? ==>
                  r.tables == Decided(t, id, Verdict(hash, t.approvals[id], device, approve, token, now)))
  {
    hide Inv, Expire, Conclude, ActionIntact, Retire, Settled, Decided, StoredCanonically;
    ExpireTable(hash, t, id, now);
    if id in t.approvals && !PastDeadline(t.approvals[id], now) && t.approvals[id].state.Pending? {
      RowFacts(hash, t, id);
      DbApprovalSteps.StoredActionIntact(hash, t.approvals[id]);
      DbStatements.QuietPieces(hash, t);
      assert StepsOk(t) by { InvSteps(hash, t); }
      ConcludeTable(t, id, Ruled(hash, t.approvals[id], device, approve, token, now));
    } else if id in t.approvals && PastDeadline(t.approvals[id], now) {
      SettledFrame(t, id, t.approvals[id].(state := Expired), "approval.request_timed_out", Some(StepCancelled));
    }
  }

  lemma InvSteps(hash: string -> string, t: Tables)
    requires Inv(hash, t)
    ensures StepsOk(t)
  {
  }

  // ----- revoking one approval, redeeming a ticket -----

  function RevokeAnswer(t: Tables, id: string, now: int): Result<Revocation, DbError> {
    if id !in t.approvals then Err(ApprovalNotFound) else
    var a := t.approvals[id];
    if PastDeadline(a, now) then Err(ApprovalExpired)
    else if a.state == Pending || a.state == Approved then Ok(Revocation(a.state == Pending, a.consumedAt.Some?))
    else Err(AlreadySettled(a.state))
  }

  /** A pending or approved row can be revoked by a device; its action gets a step unless its ticket was
      used already; past its deadline a pending row expires instead. */
  lemma RevokeTable(hash: string -> string, t: Tables, id: string, device: string, now: int)
    requires Inv(hash, t)
    ensures var r := RevokeApproval(t, id, device, now);
            && r.result == RevokeAnswer(t, id, now)
            && (id in t.approvals ==> t.approvals[id].run in t.runs)
            && (r.result.Err? ==>
                  r.tables == if id in t.approvals && PastDeadline(t.approvals[id], now) then TimedOut(t, id) else t)
            && (r.result.Ok? ==>
                  r.tables ==
                    Settled(t, id, t.approvals[id].(state := Revoked, reason := Some(UserRevoked),
                                                    decidedBy := Some(device), decidedAt := Some(now)),
                            "approval.revoked",
                            if t.approvals[id].consumedAt.Some? then None else Some(StepCancelled)))
  {
    hide Inv, Expire, AddRow, AddServiceStep, Settled, StoredCanonically;
    ExpireTable(hash, t, id, now);
    if id in t.approvals && !PastDeadline(t.approvals[id], now) {
      var a := t.approvals[id];
      var b := a.(state := Revoked, reason := Some(UserRevoked), decidedBy := Some(device), decidedAt := Some(now));
      RowFacts(hash, t, id);
      InvSteps(hash, t);
      SettledTable(t, id, b, "approval.revoked", StepCancelled);
      SameStep(AddApprovalRow(PutApproval(t, id, b), a.run, id, "approval.revoked"), id, a, b);
    } else if id in t.approvals {
      SettledFrame(t, id, t.approvals[id].(state := Expired), "approval.request_timed_out", Some(StepCancelled));
    }
  }

  /** Reading an approval expires it first when it is due, and says whether it exists. */
  lemma ReadTable(hash: string -> string, t: Tables, id: string, now: int)
    requires Inv(hash, t)
    ensures id in t.approvals ==> t.approvals[id].run in t.runs
    ensures GetApproval(t, id, now) ==
              Tx(if id in t.approvals && PastDeadline(t.approvals[id], now) then TimedOut(t, id) else t,
                 Ok(id in t.approvals))
  {
    hide Inv, Expire, Settled;
    ExpireTable(hash, t, id, now);
    if id in t.approvals && PastDeadline(t.approvals[id], now) {
      SettledFrame(t, id, t.approvals[id].(state := Expired), "approval.request_timed_out", Some(StepCancelled));
    }
  }

  /** A ticket is redeemed exactly by the run of an approved row that is not used yet, with a ticket
      that hashes like the one issued; only the time of use is written. */
  lemma ClaimTable(hash: string -> string, t: Tables, run: string, id: string, ticket: string, now: int)
    ensures var r := Claim(hash, t, run, id, ticket, now);
            && (r.Ok? <==>
                  id in t.approvals && t.approvals[id].run == run && t.approvals[id].state == Approved
                  && t.approvals[id].consumedAt == None && t.approvals[id].ticketHash == Some(hash(ticket)))
            && (r.Ok? ==> r.value == t.(approvals := t.approvals[id := t.approvals[id].(consumedAt := Some(now))]))
  {
  }

  // ----- settling many rows -----

  /** Every row of the list was pending and is revoked for the reason, with a journal row under its key;
      no other row changes, and nothing but steps and journal does. */
  ghost predicate AllRevoked(t: Tables, u: Tables, ids: seq<string>, reason: Reason, who: Option<string>, now: int) {
    && u.lease == t.lease && u.grant == t.grant && u.devices == t.devices && u.runs == t.runs
    && u.approvals.Keys == t.approvals.Keys && t.events <= u.events
    && (forall id | id in t.approvals && id !in ids :: u.approvals[id] == t.approvals[id])
    && (forall id | id in ids :: RevokedFor(t, u, id, reason, who, now))
  }

  predicate RevokedFor(t: Tables, u: Tables, id: string, reason: Reason, who: Option<string>, now: int) {
    && id in t.approvals && t.approvals[id].state == Pending && id in u.approvals
    && u.approvals[id] ==
         t.approvals[id].(state := Revoked, reason := Some(reason), decidedBy := who, decidedAt := Some(now))
    && Taken(u.events, t.approvals[id].run, id + ":approval.revoked")
  }

  lemma JournalledFacts(events: seq<Event>, run: string, key: string, name: string)
    ensures events <= Journalled(events, run, key, name) && Taken(Journalled(events, run, key, name), run, key)
  {
    var e := Event(key, run, Service(name), key, true);
    if !Taken(events, run, key) { assert (events + [e])[|events|] == e; }
  }

  lemma TakenLater(events: seq<Event>, more: seq<Event>, run: string, key: string)
    requires events <= more && Taken(events, run, key)
    ensures Taken(more, run, key)
  {
    var i :| 0 <= i < |events| && (events[i].id == key || (events[i].run == run && events[i].source == key));
    assert more[i] == events[i];
  }

  lemma RetireTable(t: Tables, id: string, reason: Reason, who: Option<string>, now: int)
    requires Retire(t, id, reason, who, now).Ok?
    ensures AllRevoked(t, Retire(t, id, reason, who, now).value, [id], reason, who, now)
  {
    hide AddServiceStep, Journalled, Taken;
    var a := t.approvals[id];
    var b := a.(state := Revoked, reason := Some(reason), decidedBy := who, decidedAt := Some(now));
    var t1 := PutApproval(t, id, b);
    RowTable(t1, id + ":" + "approval.revoked", a.run, "approval.revoked");
    assert id + ":" + "approval.revoked" == id + ":approval.revoked";
    JournalledFacts(t.events, a.run, id + ":approval.revoked", "approval.revoked");
    StepOnly(AddApprovalRow(t1, a.run, id, "approval.revoked"), id, a, StepCancelled);
  }

  lemma StepOnly(t: Tables, id: string, a: Approval, state: StepState)
    ensures AddServiceStep(t, id, a, state).(steps := t.steps) == t
  {
  }

  lemma {:induction false} RetireAllTable(t: Tables, ids: seq<string>, reason: Reason, who: Option<string>, now: int)
    requires RetireAll(t, ids, reason, who, now).Ok?
    ensures AllRevoked(t, RetireAll(t, ids, reason, who, now).value, ids, reason, who, now)
    decreases |ids|
  {
    hide Retire, AllRevoked;
    if ids == [] {
      NoneRevoked(t, reason, who, now);
    } else {
      var init, last := ids[..|ids| - 1], ids[|ids| - 1];
      RetireAllTable(t, init, reason, who, now);
      var m := RetireAll(t, init, reason, who, now).value;
      RetireTable(m, last, reason, who, now);
      RevokedJoin(t, m, Retire(m, last, reason, who, now).value, init, last, reason, who, now);
      assert ids == init + [last];
    }
  }

  lemma NoneRevoked(t: Tables, reason: Reason, who: Option<string>, now: int)
    ensures AllRevoked(t, t, [], reason, who, now)
  {
  }

  lemma RevokedJoin(t: Tables, m: Tables, u: Tables, ids: seq<string>, id: string, reason: Reason, who: Option<string>,
                    now: int)
    requires AllRevoked(t, m, ids, reason, who, now) && AllRevoked(m, u, [id], reason, who, now)
    ensures AllRevoked(t, u, ids + [id], reason, who, now)
  {
    hide Taken;
    assert RevokedFor(m, u, id, reason, who, now);
    forall x | x in ids + [id] ensures RevokedFor(t, u, x, reason, who, now) {
      if x in ids {
        assert RevokedFor(t, m, x, reason, who, now);
        TakenLater(m.events, u.events, t.approvals[x].run, x + ":approval.revoked");
      }
    }
  }

  /** Revoking a paired device bumps the grant, revokes every pending approval for that reason, and
      releases the lease exactly when the device holds it; an unknown device changes nothing. */
  lemma DeviceTable(hash: string -> string, t: Tables, device: string, order: seq<string>, now: int)
    requires Inv(hash, t) && Listing(order, PendingIds(t))
    ensures var r, killed := RevokeDevice(t, device, order, now), t.lease.holder == Some(device);
            && r.result == (if device in t.devices then Ok(DeviceRevocation(order, killed)) else Err(UnknownDevice))
            && (r.result.Err? ==> r.tables == t)
            && (r.result.Ok? ==>
                  && r.tables.grant == t.grant + 1
                  && r.tables.lease ==
                       (if killed then Lease(t.lease.generation + 1, LeaseState.Agent, None, false, None,
                                                             None, now) else t.lease)
                  && AllRevoked(t, r.tables.(grant := t.grant, lease := t.lease), order, DeviceRevoked, None, now))
  {
    hide Inv, RetireAll, AllRevoked, PendingIds, Listing;
    var t0 := t.(grant := t.grant + 1);
    DbSettlement.InvRunsKnown(hash, t);
    DbSettlement.ListingFacts(order, PendingIds(t));
    DbSettlement.SamePendingIds(t, t0);
    DbSettlement.RetireAllOk(t0, order, DeviceRevoked, None, now);
    RetireAllTable(t0, order, DeviceRevoked, None, now);
    RevokedFrame(t0, RetireAll(t0, order, DeviceRevoked, None, now).value, t, order, DeviceRevoked, None, now);
  }

  /** Lease and grant aside, the same rows are revoked. */
  lemma RevokedFrame(t0: Tables, u0: Tables, t: Tables, ids: seq<string>, reason: Reason, who: Option<string>, now: int)
    requires AllRevoked(t0, u0, ids, reason, who, now) && t == t0.(grant := t.grant, lease := t.lease)
    ensures AllRevoked(t, u0.(grant := t.grant, lease := t.lease), ids, reason, who, now)
    ensures u0.grant == t0.grant && u0.lease == t0.lease
  {
    hide Taken;
    forall x | x in ids ensures RevokedFor(t, u0.(grant := t.grant, lease := t.lease), x, reason, who, now) {
      assert RevokedFor(t0, u0, x, reason, who, now);
    }
  }
}
