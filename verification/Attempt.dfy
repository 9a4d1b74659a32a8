/** One live attempt that nobody disturbs and that loses no session, from the readiness
    check to the resolved slot: what every answer from outside leads to.  */
module Attempt {
  import opened Schema
  import opened Transactions
  import opened Evolution
  import opened Budget
  import opened Links
  import opened Protocol
  import opened ProcessInvariant

  /** What the code behind the interfaces answers: whether the root is ready, the sender
      may be used, the network answers and with what, the processor takes the response,
      and the response that comes back is the one asked for.  */
  datatype Outside = Outside(ready: bool, verifies: bool, answers: bool, status: int, processes: bool, accepts: bool)
  {
    predicate Heard() {
      verifies && answers && 100 <= status <= 599
    }

    predicate Success() {
      200 <= status < 300
    }
  }

  function Says(o: Outside, pc: Pc): bool {
    match pc
    case Preparing => o.ready
    case Verifying(_, _, _) => o.verifies
    case Fetching(_, _) => o.answers
    case Processing(_, _, _) => o.processes
    case Finishing(_) => o.accepts
    case _ => true
  }

  /** `n` steps of one process in a row, the first at the `i`-th reading of the clock. */
  function Alone(t: Tables, p: Process, o: Outside, now: nat -> Clock, i: nat, n: nat): (Tables, Process)
    decreases n
  {
    if n == 0 then (t, p)
    else
      var out := Step(t, p, Env(now(i), NoFault, Says(o, p.pc), o.status));
      Alone(out.tables, out.process, o, now, i + 1, n - 1)
  }

  lemma {:induction false} AloneJoins(t: Tables, p: Process, o: Outside, now: nat -> Clock, i: nat, m: nat, n: nat)
    ensures var mid := Alone(t, p, o, now, i, m);
      Alone(t, p, o, now, i, m + n) == Alone(mid.0, mid.1, o, now, i + m, n)
    decreases m
  {
    hide Step, Says;
    if m > 0 {
      var out := Step(t, p, Env(now(i), NoFault, Says(o, p.pc), o.status));
      AloneJoins(out.tables, out.process, o, now, i + 1, m - 1, n);
    }
  }

  lemma {:induction false} EndedStays(t: Tables, p: Process, o: Outside, now: nat -> Clock, i: nat, n: nat)
    requires p.pc.Ended?
    ensures Alone(t, p, o, now, i, n) == (t, p)
    decreases n
  {
    hide Step, Says;
    if n > 0 {
      EndedRests(t, p, Env(now(i), NoFault, Says(o, p.pc), o.status));
      EndedStays(t, p, o, now, i + 1, n - 1);
    }
  }

  lemma EndedRests(t: Tables, p: Process, env: Env)
    requires p.pc.Ended?
    ensures Step(t, p, env) == StepOut(t, p, Nothing)
  {
  }

  lemma OneStep(t: Tables, p: Process, o: Outside, now: nat -> Clock, i: nat)
    ensures var out := Step(t, p, Env(now(i), NoFault, Says(o, p.pc), o.status));
      Alone(t, p, o, now, i, 1) == (out.tables, out.process)
  {
    hide Step;
    var out := Step(t, p, Env(now(i), NoFault, Says(o, p.pc), o.status));
    assert Alone(out.tables, out.process, o, now, i + 1, 0) == (out.tables, out.process);
  }

  lemma TwoSteps(t: Tables, p: Process, o: Outside, now: nat -> Clock, i: nat)
    ensures var one := Step(t, p, Env(now(i), NoFault, Says(o, p.pc), o.status));
            var two := Step(one.tables, one.process, Env(now(i + 1), NoFault, Says(o, one.process.pc), o.status));
      Alone(t, p, o, now, i, 2) == (two.tables, two.process)
  {
    hide Step;
    var one := Step(t, p, Env(now(i), NoFault, Says(o, p.pc), o.status));
    OneStep(one.tables, one.process, o, now, i + 1);
  }

  // ----- the claim

  /** A root that has just claimed its slot, for the request its kernel is configured for. */
  ghost predicate Fresh(t: Tables, p: Process) {
    && p.root && p.pc.Preparing? && SlotMatches(t, p.claim) && t.slots[p.claim.slot].status.SlotClaimed?
    && !SlotHasJournal(t, p.claim.slot)
    && p.claim.approval == p.approval.fingerprint && p.claim.runId == p.runId && p.claim.keyHash == p.keyHash
  }

  function NewJournal(c: Claim, at: Instant): Journal {
    Journal(c.approval, c.runId, c.slot, c.keyHash, None, Claimed, None, at, None, None, None, 0)
  }

  function Journaled(t: Tables, c: Claim, at: Instant): Tables {
    t.(journals := t.journals + [NewJournal(c, at)])
  }

  lemma ReadyClaims(t: Tables, p: Process, o: Outside, now: nat -> Clock)
    requires Fresh(t, p) && o.ready
    ensures Alone(t, p, o, now, 0, 2) == (Journaled(t, p.claim, now(1).at), p.(pc := Authorizing(|t.journals|)))
  {
    TwoSteps(t, p, o, now, 0);
    hide Alone, SettleStep, SendStep, UnknownStep, UnsentStep, ReconcileStep, AuthorizeAndStart, FailJournal, ClaimSlot, ResolveSlot;
  }

  lemma UnreadyGivesUp(t: Tables, p: Process, o: Outside, now: nat -> Clock)
    requires Fresh(t, p) && !o.ready
    ensures Alone(t, p, o, now, 0, 1) == (t, p.(pc := Resolving(false)))
  {
    OneStep(t, p, o, now, 0);
    hide Alone, SettleStep, SendStep, UnknownStep, UnsentStep, ReconcileStep, AuthorizeStep, ClaimSlot, ResolveSlot;
  }

  // ----- the authorization

  /** The kernel's decision on the claimed journal. */
  function Decision(t: Tables, p: Process, now: nat -> Clock): Tx<Transactions.Decision> {
    AuthorizeAndStart(Journaled(t, p.claim, now(1).at), p.approval, p.runId, |t.journals|, p.keyHash, now(2), p.cost)
  }

  predicate Grants(t: Tables, p: Process, now: nat -> Clock) {
    var tx := Decision(t, p, now); tx.Commit? && tx.result.Granted?
  }

  /** The send is started: the rows that the sender will verify. */
  ghost predicate Started(u: Tables, p: Process, j: nat, permit: nat, at: Instant) {
    && SlotMatches(u, p.claim) && u.slots[p.claim.slot].status.SlotClaimed?
    && p.claim.approval == p.approval.fingerprint && p.claim.runId == p.runId && p.claim.keyHash == p.keyHash
    && j < |u.journals| && permit < |u.permits|
    && u.journals[j] == NewJournal(p.claim, u.journals[j].claimedAt).(
         permit := Some(permit), status := SendStarted, sendStartedAt := Some(at), version := 1)
    && var q := u.permits[permit];
       && q.status.Authorized? && q.approval == p.claim.approval && q.keyHash == p.keyHash && q.response.None?
       && q.run < |u.runs| && u.runs[q.run].runId == p.runId && u.runs[q.run].approval == p.claim.approval
       && u.runs[q.run].inFlight >= 1
  }

  lemma ReserveGrants(t: Tables, a: Approval, runId: nat, keyHash: Digest, now: Clock, cost: int)
    requires RowsOk(t) && Reserve(t, a, runId, keyHash, now, cost).Commit? && Reserve(t, a, runId, keyHash, now, cost).result.Granted?
    ensures var tx := Reserve(t, a, runId, keyHash, now, cost); var permit := tx.result.permit;
      && permit == |t.permits| && |tx.tables.permits| == |t.permits| + 1
      && var q := tx.tables.permits[permit];
         && q.status.Authorized? && q.approval == a.fingerprint && q.keyHash == keyHash && q.response.None?
         && q.run < |tx.tables.runs| && tx.tables.runs[q.run].runId == runId && tx.tables.runs[q.run].approval == a.fingerprint
         && tx.tables.runs[q.run].inFlight >= 1
  {
    hide Judge;
    assert RunShape(t.runs[FindRun(t.runs, runId)]);
  }

  lemma GrantStarts(t: Tables, p: Process, now: nat -> Clock)
    requires Good(t) && Fresh(t, p) && Grants(t, p, now)
    ensures var tx := Decision(t, p, now);
      Started(tx.tables, p, |t.journals|, tx.result.permit, now(2).at)
  {
    var u := Journaled(t, p.claim, now(1).at);
    var j := |t.journals|;
    assert RowsOk(t);
    RowsFrame(t, u);
    hide Good, RowsOk;
    AuthorizeForm(u, p.approval, p.runId, j, p.keyHash, now(2), p.cost);
    ReserveGrants(u, p.approval, p.runId, p.keyHash, now(2), p.cost);
    ReserveTouches(u, p.approval, p.runId, p.keyHash, now(2), p.cost);
    hide AuthorizeAndStart, Reserve;
  }

  lemma RowsFrame(t: Tables, u: Tables)
    requires RowsOk(t) && u.runs == t.runs && u.permits == t.permits
    ensures RowsOk(u)
  {
    forall i | 0 <= i < |u.permits| ensures PermitRowOk(u, i) { assert PermitRowOk(t, i); }
  }

  /** Authorized, read back, and the sender called. */
  lemma GrantedCalls(t: Tables, p: Process, o: Outside, now: nat -> Clock)
    requires Good(t) && Fresh(t, p) && Grants(t, p, now)
    ensures var tx := Decision(t, p, now); var j := |t.journals|;
      Alone(Journaled(t, p.claim, now(1).at), p.(pc := Authorizing(j)), o, now, 2, 3)
        == (tx.tables, p.(pc := Verifying(j, tx.result.permit, now(2).at)))
  {
    var t1, j, tx := Journaled(t, p.claim, now(1).at), |t.journals|, Decision(t, p, now);
    var p1, p2 := p.(pc := Authorizing(j)), p.(pc := ReadingBack(j, tx.result.permit));
    GrantStarts(t, p, now);
    hide Good, Alone;
    AuthorizedReadsBack(t1, p1, Env(now(2), NoFault, true, o.status));
    StartedIsCalled(tx.tables, p2, j, tx.result.permit, now(2).at, o, now);
    hide Started, Step, AuthorizeAndStart;
    OneStep(t1, p1, o, now, 2);
    AloneJoins(t1, p1, o, now, 2, 1, 2);
  }

  lemma AuthorizedReadsBack(t: Tables, p: Process, env: Env)
    requires p.pc.Authorizing? && env.fault.NoFault? && p.claim.approval == p.approval.fingerprint
    ensures var tx := AuthorizeAndStart(t, p.approval, p.runId, p.pc.journal, p.keyHash, env.now, p.cost);
      Step(t, p, env) == (
        if tx.Commit? && tx.result.Granted? then Goto(tx.tables, p, ReadingBack(p.pc.journal, tx.result.permit))
        else Goto(if tx.Commit? then tx.tables else t, p, FailingUnauthorized(p.pc.journal)))
  {
    hide AuthorizeAndStart;
  }

  lemma StartedIsCalled(u: Tables, p: Process, j: nat, permit: nat, at: Instant, o: Outside, now: nat -> Clock)
    requires Started(u, p, j, permit, at) && p.pc == ReadingBack(j, permit)
    ensures Alone(u, p, o, now, 3, 2) == (u, p.(pc := Verifying(j, permit, at)))
  {
    TwoSteps(u, p, o, now, 3);
    hide Alone, SettleStep, UnknownStep, UnsentStep, ReconcileStep, AuthorizeAndStart, FailJournal, RootStep, MarkerVerified;
  }

  /** Not authorized: the journal is failed, and `execute` reports it. */
  lemma RefusedFails(t: Tables, p: Process, o: Outside, now: nat -> Clock)
    requires Fresh(t, p) && !Grants(t, p, now)
    ensures var j := |t.journals|;
      var end := Alone(Journaled(t, p.claim, now(1).at), p.(pc := Authorizing(j)), o, now, 2, 2);
      && end.1 == p.(pc := Finishing(Some(AttemptResult(Record(j, end.0.journals[j]), None, None, false))))
      && end.0.slots == t.slots && |end.0.journals| == j + 1
      && end.0.journals[j] == NewJournal(p.claim, now(1).at).(
           status := Failed, failure := Some(PermitAuthorizationFailed), resolvedAt := Some(now(3).at), version := 1)
  {
    var t1, j := Journaled(t, p.claim, now(1).at), |t.journals|;
    var p1, tx := p.(pc := Authorizing(j)), Decision(t, p, now);
    AuthorizeTouches(t1, p.approval, p.runId, j, p.keyHash, now(2), p.cost);
    AuthorizedReadsBack(t1, p1, Env(now(2), NoFault, true, o.status));
    TwoSteps(t1, p1, o, now, 2);
    hide Alone, AuthorizeAndStart, SettleStep, UnknownStep, UnsentStep, ReconcileStep, RootStep, SendStep, ClaimJournal;
  }

  // ----- the send

  lemma SendsAndHears(u: Tables, p: Process, j: nat, permit: nat, at: Instant, o: Outside, now: nat -> Clock)
    requires Started(u, p, j, permit, at) && p.pc == Verifying(j, permit, at) && o.Heard()
    ensures Alone(u, p, o, now, 5, 3) == (u, p.(pc := Recording(j, permit, o.status)))
  {
    var p1 := p.(pc := Verified(j, permit, at));
    VerifyingStep(u, p, j, permit, at, Env(now(5), NoFault, o.verifies, o.status));
    OneStep(u, p, o, now, 5);
    AloneJoins(u, p, o, now, 5, 1, 2);
    FetchesStep(u, p1, j, permit, at, o, now);
    hide Alone, Step, Started;
  }

  lemma VerifyingStep(u: Tables, p: Process, j: nat, permit: nat, at: Instant, env: Env)
    requires Started(u, p, j, permit, at) && p.pc == Verifying(j, permit, at) && env.fault.NoFault?
    ensures Step(u, p, env) == Goto(u, p, if env.ok then Verified(j, permit, at) else ReleasingUnknown(j, permit))
  {
  }

  lemma FetchesStep(u: Tables, p: Process, j: nat, permit: nat, at: Instant, o: Outside, now: nat -> Clock)
    requires p.pc == Verified(j, permit, at)
    ensures Alone(u, p, o, now, 6, 2) ==
      (u, p.(pc := if o.answers && 100 <= o.status <= 599 then Recording(j, permit, o.status) else ReleasingUnknown(j, permit)))
  {
    TwoSteps(u, p, o, now, 6);
    hide Alone, SettleStep, UnknownStep, UnsentStep, ReconcileStep, AuthorizeStep, RootStep, MarkerVerified, RecordTransportFailure;
  }

  /** Nothing heard, be it refused by the verification or lost on the way. */
  lemma SendsInVain(u: Tables, p: Process, j: nat, permit: nat, at: Instant, o: Outside, now: nat -> Clock) returns (n: nat)
    requires Started(u, p, j, permit, at) && p.pc == Verifying(j, permit, at) && !o.Heard()
    ensures n <= 3 && Alone(u, p, o, now, 5, n) == (u, p.(pc := ReleasingUnknown(j, permit)))
  {
    VerifyingStep(u, p, j, permit, at, Env(now(5), NoFault, o.verifies, o.status));
    OneStep(u, p, o, now, 5);
    n := 1;
    if o.verifies {
      n := 3;
      var p1 := p.(pc := Verified(j, permit, at));
      AloneJoins(u, p, o, now, 5, 1, 2);
      FetchesStep(u, p1, j, permit, at, o, now);
    }
    hide Alone, Step, Started;
  }

  // ----- the end of the attempt

  /** The journal is closed with this row, its permit with this status and answer, and the
      slot is still open.  */
  ghost predicate Closed(u: Tables, p: Process, j: nat, row: Journal, permit: nat, spent: PermitStatus, answer: Option<int>) {
    && SlotMatches(u, p.claim) && u.slots[p.claim.slot].status.SlotClaimed?
    && j < |u.journals| && u.journals[j] == row
    && permit < |u.permits| && u.permits[permit].status == spent && u.permits[permit].response == answer
  }

  lemma PermitUsable(u: Tables, p: Process, j: nat, permit: nat, at: Instant)
    requires Started(u, p, j, permit, at)
    ensures PermitError(u, p.approval, p.runId, permit).None?
  {
  }

  lemma Releases(u: Tables, a: Approval, runId: nat, permit: nat, now: Instant)
    requires PermitError(u, a, runId, permit).None?
    ensures var tx := RecordTransportFailure(u, a, runId, permit, now);
      && tx.Commit? && tx.tables.journals == u.journals && tx.tables.slots == u.slots
      && |tx.tables.permits| == |u.permits| && tx.tables.permits[permit].status.TransportFailed?
      && tx.tables.permits[permit].response == u.permits[permit].response
  {
  }

  lemma Records(u: Tables, a: Approval, runId: nat, permit: nat, status: int, now: Instant)
    requires PermitError(u, a, runId, permit).None? && 100 <= status <= 599
    ensures var tx := RecordResponse(u, a, runId, permit, status, now);
      && tx.Commit? && tx.tables.journals == u.journals && tx.tables.slots == u.slots
      && |tx.tables.permits| == |u.permits| && tx.tables.permits[permit].status.Consumed?
      && tx.tables.permits[permit].response == Some(status)
  {
  }

  /** The outcome is unknown: the permit is released and the journal left indeterminate. */
  lemma LosesTheOutcome(u: Tables, p: Process, j: nat, permit: nat, at: Instant, o: Outside, now: nat -> Clock, i: nat)
    requires Started(u, p, j, permit, at) && p.pc == ReleasingUnknown(j, permit)
    ensures var end := Alone(u, p, o, now, i, 2);
      var row := u.journals[j].(status := Indeterminate, failure := Some(TransportResultUnknown),
                                resolvedAt := Some(now(i + 1).at), version := 2);
      && end.1 == p.(pc := Finishing(Some(AttemptResult(Record(j, row), Some(permit), None, true))))
      && Closed(end.0, p, j, row, permit, TransportFailed, None)
      && end.0.slots == u.slots && |end.0.journals| == |u.journals|
  {
    TwoSteps(u, p, o, now, i);
    PermitUsable(u, p, j, permit, at);
    Releases(u, p.approval, p.runId, permit, now(i).at);
    hide Alone, RecordTransportFailure, PermitError, SettleStep, UnsentStep, ReconcileStep, AuthorizeStep, RootStep, MarkerVerified;
  }

  function ClosingCode(o: Outside): Option<FailureCode> {
    if !o.Success() then Some(NonSuccessResponse)
    else if !o.processes then Some(ResponseProcessingFailed)
    else None
  }

  lemma SettlesResponse(u: Tables, p: Process, j: nat, permit: nat, at: Instant, o: Outside, now: nat -> Clock)
    requires Started(u, p, j, permit, at) && p.pc == Recording(j, permit, o.status) && o.Heard()
    ensures var end := Alone(u, p, o, now, 8, 2);
      && end.1 == p.(pc := Processing(j, permit, o.status))
      && Closed(end.0, p, j, u.journals[j].(status := Settled, settledAt := Some(now(9).at), version := 2),
                permit, Consumed, Some(o.status))
      && end.0.slots == u.slots && |end.0.journals| == |u.journals|
  {
    hide Alone, Step, RecordResponse, PermitError;
    TwoSteps(u, p, o, now, 8);
    PermitUsable(u, p, j, permit, at);
    Records(u, p.approval, p.runId, permit, o.status, now(8).at);
    RecordingStep(u, p, Env(now(8), NoFault, true, o.status));
    var u1 := RecordResponse(u, p.approval, p.runId, permit, o.status, now(8).at).tables;
    SettlingStep(u1, p.(pc := Settling(j, permit, o.status)), Env(now(9), NoFault, true, o.status));
  }

  lemma RecordingStep(t: Tables, p: Process, env: Env)
    requires p.pc.Recording? && env.fault.NoFault?
    ensures var tx := RecordResponse(t, p.approval, p.runId, p.pc.permit, p.pc.status, env.now.at);
      tx.Commit? ==> Step(t, p, env) == Goto(tx.tables, p, Settling(p.pc.journal, p.pc.permit, p.pc.status))
  {
    hide RecordResponse;
  }

  lemma SettlingStep(t: Tables, p: Process, env: Env)
    requires p.pc.Settling? && env.fault.NoFault? && p.pc.journal < |t.journals| && p.pc.permit < |t.permits|
    requires t.journals[p.pc.journal].status.SendStarted? && t.journals[p.pc.journal].permit == Some(p.pc.permit)
    requires t.permits[p.pc.permit].status.Consumed?
    ensures var j := p.pc.journal; var row := t.journals[j];
      Step(t, p, env) == Goto(
        t.(journals := t.journals[j := row.(status := Settled, settledAt := Some(env.now.at), version := row.version + 1)]),
        p, Processing(j, p.pc.permit, p.pc.status))
  {
  }

  /** A settled journal is failed with a code, or completed. */
  function ClosingPc(p: Process, o: Outside): Pc
    requires p.pc.Processing?
  {
    match ClosingCode(o)
    case Some(code) => FailingSettled(p.pc.journal, p.pc.permit, p.pc.status, code)
    case None => Completing(p.pc.journal, p.pc.permit, p.pc.status)
  }

  lemma ProcessingStep(t: Tables, p: Process, o: Outside, env: Env)
    requires p.pc.Processing? && p.pc.status == o.status && env.ok == o.processes
    ensures Step(t, p, env) == Goto(t, p, ClosingPc(p, o))
  {
  }

  lemma ClosingStep(t: Tables, p: Process, env: Env)
    requires (p.pc.FailingSettled? || p.pc.Completing?) && env.fault.NoFault?
    requires p.pc.journal < |t.journals| && t.journals[p.pc.journal].status.Settled?
    ensures var j := p.pc.journal; var row := t.journals[j];
      var failure := if p.pc.FailingSettled? then Some(p.pc.code) else None;
      var closed := row.(status := if failure.None? then Completed else Failed, failure := failure,
                         resolvedAt := Some(env.now.at), version := row.version + 1);
      Step(t, p, env) == Goto(t.(journals := t.journals[j := closed]), p,
        Finishing(Some(AttemptResult(Record(j, closed), Some(p.pc.permit), Some(p.pc.status), true))))
  {
  }

  lemma TerminatesResponse(u: Tables, p: Process, j: nat, row: Journal, permit: nat, o: Outside, now: nat -> Clock)
    requires Closed(u, p, j, row, permit, Consumed, Some(o.status)) && p.pc == Processing(j, permit, o.status)
    requires row.status.Settled? && row.failure.None? && row.version == 2
    ensures var end := Alone(u, p, o, now, 10, 2);
      var closed := row.(status := if ClosingCode(o).None? then Completed else Failed, failure := ClosingCode(o),
                         resolvedAt := Some(now(11).at), version := 3);
      && end.1 == p.(pc := Finishing(Some(AttemptResult(Record(j, closed), Some(permit), Some(o.status), true))))
      && Closed(end.0, p, j, closed, permit, Consumed, Some(o.status))
      && end.0.slots == u.slots && |end.0.journals| == |u.journals|
  {
    hide Alone, Step;
    TwoSteps(u, p, o, now, 10);
    var env := Env(now(10), NoFault, o.processes, o.status);
    ProcessingStep(u, p, o, env);
    ClosingStep(u, p.(pc := ClosingPc(p, o)), Env(now(11), NoFault, true, o.status));
  }

  /** The root heeds the journal and the response together. */
  lemma ResolvesSlot(u: Tables, p: Process, outcome: AttemptResult, o: Outside, now: nat -> Clock, i: nat)
    requires p.root && p.pc == Finishing(Some(outcome))
    requires SlotMatches(u, p.claim) && u.slots[p.claim.slot].status.SlotClaimed?
    ensures var end := Alone(u, p, o, now, i, 2);
      var completed := outcome.journal.row.status.Completed? && o.accepts;
      && end.1.pc.Ended? && end.0.journals == u.journals && end.0.permits == u.permits
      && end.0.slots == u.slots[p.claim.slot := u.slots[p.claim.slot].(
           status := SlotTarget(completed), resolvedAt := Some(now(i + 1).at))]
  {
    TwoSteps(u, p, o, now, i);
    hide Alone, SettleStep, SendStep, UnsentStep, ReconcileStep, AuthorizeStep, UnknownStep;
  }

  // ----- the whole attempt

  /** A root that ends early rests for the remaining steps. */
  lemma Rests(t: Tables, p: Process, o: Outside, now: nat -> Clock, n: nat)
    requires n <= 14 && Alone(t, p, o, now, 0, n).1.pc.Ended?
    ensures Alone(t, p, o, now, 0, 14) == Alone(t, p, o, now, 0, n)
  {
    hide *;
    var end := Alone(t, p, o, now, 0, n);
    AloneJoins(t, p, o, now, 0, n, 14 - n);
    EndedStays(end.0, end.1, o, now, n, 14 - n);
  }

  /** The slot of the attempt is resolved, and no other slot has changed. */
  ghost predicate SlotResolved(t: Tables, u: Tables, slot: nat, completed: bool) {
    && slot < |t.slots| == |u.slots| && u.slots == t.slots[slot := u.slots[slot]]
    && u.slots[slot].status == SlotTarget(completed)
  }

  /** What the answers from outside make of the journal, the permit and the slot. */
  ghost predicate Outcome(t: Tables, p: Process, o: Outside, now: nat -> Clock, u: Tables) {
    var j, tx := |t.journals|, Decision(t, p, now);
    if !o.ready then u.journals == t.journals && SlotResolved(t, u, p.claim.slot, false)
    else
      && |u.journals| == j + 1
      && var row := u.journals[j];
         if !Grants(t, p, now) then
           && row.status.Failed? && row.failure == Some(PermitAuthorizationFailed) && row.permit.None?
           && SlotResolved(t, u, p.claim.slot, false)
         else
           && row.permit == Some(tx.result.permit) && tx.result.permit < |u.permits|
           && var permit := u.permits[tx.result.permit];
              if !o.Heard() then
                && row.status.Indeterminate? && row.failure == Some(TransportResultUnknown)
                && permit.status.TransportFailed? && permit.response.None?
                && SlotResolved(t, u, p.claim.slot, false)
              else
                && permit.status.Consumed? && permit.response == Some(o.status)
                && row.failure == ClosingCode(o)
                && (if row.failure.None? then row.status.Completed? else row.status.Failed?)
                && SlotResolved(t, u, p.claim.slot, o.Success() && o.processes && o.accepts)
  }

  lemma GivesUpUnready(t: Tables, p: Process, o: Outside, now: nat -> Clock)
    requires Fresh(t, p) && !o.ready
    ensures var end := Alone(t, p, o, now, 0, 2);
      end.1.pc.Ended? && Outcome(t, p, o, now, end.0)
  {
    var p1 := p.(pc := Resolving(false));
    UnreadyGivesUp(t, p, o, now);
    OneStep(t, p1, o, now, 1);
    AloneJoins(t, p, o, now, 0, 1, 1);
    hide Alone, SettleStep, SendStep, UnsentStep, ReconcileStep, AuthorizeStep, UnknownStep;
  }

  lemma EndsRefused(t: Tables, p: Process, o: Outside, now: nat -> Clock)
    requires Fresh(t, p) && o.ready && !Grants(t, p, now)
    ensures var end := Alone(t, p, o, now, 0, 6);
      end.1.pc.Ended? && Outcome(t, p, o, now, end.0)
  {
    hide Alone, Decision, Step;
    ReadyClaims(t, p, o, now);
    RefusedFails(t, p, o, now);
    var t1, p1 := Journaled(t, p.claim, now(1).at), p.(pc := Authorizing(|t.journals|));
    var mid := Alone(t1, p1, o, now, 2, 2);
    AloneJoins(t, p, o, now, 0, 2, 4);
    AloneJoins(t1, p1, o, now, 2, 2, 2);
    ResolvesSlot(mid.0, mid.1, mid.1.pc.outcome.value, o, now, 4);
  }

  /** Up to the verification the two sent attempts are one. */
  lemma ReachesSender(t: Tables, p: Process, o: Outside, now: nat -> Clock)
    requires Good(t) && Fresh(t, p) && o.ready && Grants(t, p, now)
    ensures var tx := Decision(t, p, now); var j := |t.journals|;
      && Alone(t, p, o, now, 0, 5) == (tx.tables, p.(pc := Verifying(j, tx.result.permit, now(2).at)))
      && Started(tx.tables, p, j, tx.result.permit, now(2).at)
      && tx.tables.slots == t.slots && |tx.tables.journals| == j + 1
  {
    hide Alone, Step, Good;
    ReadyClaims(t, p, o, now);
    GrantedCalls(t, p, o, now);
    GrantStarts(t, p, now);
    hide Started;
    var t1 := Journaled(t, p.claim, now(1).at);
    AloneJoins(t, p, o, now, 0, 2, 3);
    AuthorizeTouches(t1, p.approval, p.runId, |t.journals|, p.keyHash, now(2), p.cost);
    hide AuthorizeAndStart;
  }

  lemma EndsUnknown(t: Tables, p: Process, o: Outside, now: nat -> Clock) returns (n: nat)
    requires Good(t) && Fresh(t, p) && o.ready && Grants(t, p, now) && !o.Heard()
    ensures n <= 14 && var end := Alone(t, p, o, now, 0, n);
      end.1.pc.Ended? && Outcome(t, p, o, now, end.0)
  {
    hide Alone, Step, Good, AuthorizeAndStart, Started, Closed;
    ReachesSender(t, p, o, now);
    var j, tx, at := |t.journals|, Decision(t, p, now), now(2).at;
    var permit, u := tx.result.permit, tx.tables;
    var p1, p2 := p.(pc := Verifying(j, permit, at)), p.(pc := ReleasingUnknown(j, permit));
    StartedAnywhere(u, p, p1, p2, j, permit, at);
    var k := SendsInVain(u, p1, j, permit, at, o, now);
    LosesTheOutcome(u, p2, j, permit, at, o, now, 5 + k);
    var mid := Alone(u, p2, o, now, 5 + k, 2);
    ClosedOpen(mid.0, p, p2, j, mid.1.pc.outcome.value.journal.row, permit, TransportFailed, None);
    ResolvesSlot(mid.0, mid.1, mid.1.pc.outcome.value, o, now, 7 + k);
    n := 9 + k;
    AloneJoins(t, p, o, now, 0, 5, 4 + k);
    AloneJoins(u, p1, o, now, 5, k, 4);
    AloneJoins(u, p2, o, now, 5 + k, 2, 2);
  }

  lemma StartedAnywhere(u: Tables, p: Process, p1: Process, p2: Process, j: nat, permit: nat, at: Instant)
    requires Started(u, p, j, permit, at) && p1 == p.(pc := p1.pc) && p2 == p.(pc := p2.pc)
    ensures Started(u, p1, j, permit, at) && Started(u, p2, j, permit, at)
    ensures u.journals[j].permit == Some(permit) && u.journals[j].failure.None? && u.journals[j].status.SendStarted?
  {
  }

  lemma ClosedOpen(
    u: Tables, p: Process, q: Process, j: nat, row: Journal, permit: nat, spent: PermitStatus, answer: Option<int>)
    requires Closed(u, q, j, row, permit, spent, answer) && q == p.(pc := q.pc)
    ensures SlotMatches(u, p.claim) && u.slots[p.claim.slot].status.SlotClaimed?
    ensures j < |u.journals| && u.journals[j] == row
    ensures permit < |u.permits| && u.permits[permit].status == spent && u.permits[permit].response == answer
  {
  }

  lemma EndsHeard(t: Tables, p: Process, o: Outside, now: nat -> Clock)
    requires Good(t) && Fresh(t, p) && o.ready && Grants(t, p, now) && o.Heard()
    ensures var end := Alone(t, p, o, now, 0, 14);
      end.1.pc.Ended? && Outcome(t, p, o, now, end.0)
  {
    hide Alone, Step, Good, AuthorizeAndStart, Started, Closed;
    ReachesSender(t, p, o, now);
    var j, tx, at := |t.journals|, Decision(t, p, now), now(2).at;
    var permit, u := tx.result.permit, tx.tables;
    var p1, p2 := p.(pc := Verifying(j, permit, at)), p.(pc := Recording(j, permit, o.status));
    StartedAnywhere(u, p, p1, p2, j, permit, at);
    SendsAndHears(u, p1, j, permit, at, o, now);
    var f := SettledAndClosed(u, p2, j, permit, at, o, now);
    ClosedOpen(f.0, p, p2, j, f.1.pc.outcome.value.journal.row, permit, Consumed, Some(o.status));
    ResolvesSlot(f.0, f.1, f.1.pc.outcome.value, o, now, 12);
    AloneJoins(t, p, o, now, 0, 5, 9);
    AloneJoins(u, p1, o, now, 5, 3, 6);
    AloneJoins(u, p2, o, now, 8, 4, 2);
  }

  lemma SettledAndClosed(u: Tables, p: Process, j: nat, permit: nat, at: Instant, o: Outside, now: nat -> Clock)
    returns (f: (Tables, Process))
    requires Started(u, p, j, permit, at) && p.pc == Recording(j, permit, o.status) && o.Heard()
    ensures f == Alone(u, p, o, now, 8, 4) && f.1 == p.(pc := f.1.pc)
    ensures f.0.slots == u.slots && |f.0.journals| == |u.journals|
    ensures f.1.pc.Finishing? && f.1.pc.outcome.Some?
    ensures var row := f.1.pc.outcome.value.journal.row;
      && Closed(f.0, p, j, row, permit, Consumed, Some(o.status))
      && row.permit == Some(permit) && row.failure == ClosingCode(o)
      && row.status == if ClosingCode(o).None? then Completed else Failed
  {
    hide Alone, Step, Closed, Started;
    StartedAnywhere(u, p, p, p, j, permit, at);
    SettlesResponse(u, p, j, permit, at, o, now);
    var s := Alone(u, p, o, now, 8, 2);
    ClosedOpen(s.0, p, p, j, u.journals[j].(status := Settled, settledAt := Some(now(9).at), version := 2), permit, Consumed, Some(o.status));
    ClosedElsewhere(s.0, p, s.1, j, s.0.journals[j], permit, Consumed, Some(o.status));
    TerminatesResponse(s.0, s.1, j, s.0.journals[j], permit, o, now);
    f := Alone(s.0, s.1, o, now, 10, 2);
    ClosedElsewhere(f.0, s.1, p, j, f.1.pc.outcome.value.journal.row, permit, Consumed, Some(o.status));
    AloneJoins(u, p, o, now, 8, 2, 2);
  }

  lemma ClosedElsewhere(
    u: Tables, p: Process, q: Process, j: nat, row: Journal, permit: nat, spent: PermitStatus, answer: Option<int>)
    requires Closed(u, p, j, row, permit, spent, answer) && q == p.(pc := q.pc)
    ensures Closed(u, q, j, row, permit, spent, answer)
  {
  }

  /** From any sound tables, an undisturbed attempt that loses no session is over within
      fourteen steps, and what it leaves is decided by the answers from outside alone.  In
      particular a refused response fails the open slot, although the journal completes.  */
  lemma UndisturbedAttempt(t: Tables, p: Process, o: Outside, now: nat -> Clock)
    requires Good(t) && Fresh(t, p)
    ensures var end := Alone(t, p, o, now, 0, 14);
      end.1.pc.Ended? && Outcome(t, p, o, now, end.0)
  {
    hide *;
    var n := 14;
    if !o.ready {
      GivesUpUnready(t, p, o, now);
      n := 2;
    } else if !Grants(t, p, now) {
      EndsRefused(t, p, o, now);
      n := 6;
    } else if !o.Heard() {
      n := EndsUnknown(t, p, o, now);
    } else {
      EndsHeard(t, p, o, now);
    }
    Rests(t, p, o, now, n);
  }
}
