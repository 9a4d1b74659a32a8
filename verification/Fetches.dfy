/** What a fetch may rest on: the marker was verified in an earlier transaction, and
    whoever came in between, a reconcile included, can have changed only so much.  */
module Fetches {
  import opened Schema
  import opened Transactions
  import opened Evolution
  import opened Budget
  import opened Links
  import opened Protocol
  import opened ProcessInvariant
  import opened WorldInvariant
  import opened KernelTheorems
  import opened Theorems

  // ----- the verification lies in the past

  /** Step `k` of the run was this process's verification, and it succeeded. */
  ghost predicate VerifiedAt(events: seq<Event>, k: nat, pid: nat, pc: Pc)
    requires pc.Verified? && k < |events|
  {
    var w := Run(GENESIS, events[..k]);
    && events[k].Act? && events[k].pid == pid && pid < |w.processes|
    && w.processes[pid].pc == Verifying(pc.journal, pc.permit, pc.startedAt)
    && MarkerVerified(w.tables, w.processes[pid].claim, pc.journal, pc.permit, pc.startedAt)
    && ShowsStarted(w.tables, w.processes[pid].claim, pc.journal, pc.permit)
  }

  /** The send is started, its permit authorized and its slot open, all for one request. */
  ghost predicate ShowsStarted(t: Tables, claim: Claim, journal: nat, permit: nat) {
    && journal < |t.journals| && permit < |t.permits|
    && var j, p := t.journals[journal], t.permits[permit];
       && j.status.SendStarted? && j.permit == Some(permit) && p.status.Authorized?
       && j.approval == p.approval == claim.approval && j.keyHash == p.keyHash == claim.keyHash
       && j.slot < |t.slots| && t.slots[j.slot].status.SlotClaimed?
       && t.slots[j.slot].approval == claim.approval && t.slots[j.slot].keyHash == claim.keyHash
  }

  lemma ArrivesVerified(t: Tables, p: Process, env: Env)
    requires Step(t, p, env).process.pc.Verified?
    ensures var pc := Step(t, p, env).process.pc;
      && p.pc == Verifying(pc.journal, pc.permit, pc.startedAt)
      && MarkerVerified(t, p.claim, pc.journal, pc.permit, pc.startedAt)
      && ShowsStarted(t, p.claim, pc.journal, pc.permit)
  {
    hide AuthorizeAndStart, RecordResponse, RecordTransportFailure, ClaimSlot, ResolveSlot, ClaimJournal,
      SettleJournal, CompleteJournal, FailJournal, MarkIndeterminate, RecoverWithoutResend,
      ConsumeUncertainPermit;
  }

  /** Where one process comes from, over one event. */
  lemma ComesFrom(w: World, e: Event, pid: nat)
    requires pid < |Next(w, e).processes| && Next(w, e).processes[pid].pc.Verified?
    ensures pid < |w.processes|
    ensures || Next(w, e).processes[pid] == w.processes[pid]
            || (e.Act? && e.pid == pid && Next(w, e).processes[pid] == Step(w.tables, w.processes[pid], e.env).process)
  {
    hide Step, CallTx;
  }

  lemma {:induction false} VerifiedEarlier(events: seq<Event>, pid: nat)
    requires pid < |Run(GENESIS, events).processes| && Run(GENESIS, events).processes[pid].pc.Verified?
    ensures exists k: nat :: k < |events| && VerifiedAt(events, k, pid, Run(GENESIS, events).processes[pid].pc)
  {
    if events != [] {
      var before, e := events[..|events| - 1], events[|events| - 1];
      var w := Run(GENESIS, before);
      var pc := Run(GENESIS, events).processes[pid].pc;
      assert events == before + [e];
      ComesFrom(w, e, pid);
      hide Next, Step, VerifiedAt;
      if e.Act? && e.pid == pid && Next(w, e).processes[pid] == Step(w.tables, w.processes[pid], e.env).process {
        VerifiedNow(before, e, pc);
      } else {
        VerifiedEarlier(before, pid);
        VerifiedBefore(before, e, pid, pc);
      }
    }
  }

  lemma VerifiedNow(before: seq<Event>, e: Event, pc: Pc)
    requires e.Act? && e.pid < |Run(GENESIS, before).processes|
    requires pc.Verified? && Step(Run(GENESIS, before).tables, Run(GENESIS, before).processes[e.pid], e.env).process.pc == pc
    ensures VerifiedAt(before + [e], |before|, e.pid, pc)
  {
    var w := Run(GENESIS, before);
    ArrivesVerified(w.tables, w.processes[e.pid], e.env);
    assert (before + [e])[..|before|] == before;
    hide Step, Run, MarkerVerified, ShowsStarted;
  }

  lemma VerifiedBefore(before: seq<Event>, e: Event, pid: nat, pc: Pc)
    requires pc.Verified? && exists k: nat :: k < |before| && VerifiedAt(before, k, pid, pc)
    ensures exists k: nat :: k < |before + [e]| && VerifiedAt(before + [e], k, pid, pc)
  {
    hide Step, Run, MarkerVerified, ShowsStarted;
    var k: nat :| k < |before| && VerifiedAt(before, k, pid, pc);
    assert before[..k] == (before + [e])[..k];
    assert VerifiedAt(before + [e], k, pid, pc);
  }

  // ----- who can have consumed the permit

  /** Somebody outside the live attempts answered for this permit. */
  predicate Foreign(events: seq<Event>, permit: nat) {
    exists i | 0 <= i < |events| :: IsAnswerFor(events[i], permit)
  }

  predicate IsAnswerFor(e: Event, permit: nat) {
    e.Client? && e.call.CallResponse? && e.call.permit == permit
  }

  /** The permit of a journal is consumed only by an answer that its own attempt heard
      from the network, or by a foreign one.  */
  ghost predicate ConsumedOk(w: World, events: seq<Event>, j: nat)
    requires j < |w.tables.journals|
  {
    var permit := w.tables.journals[j].permit;
    permit.Some? && permit.value < |w.tables.permits| && w.tables.permits[permit.value].status.Consumed? ==>
      Foreign(events, permit.value) || exists status: int :: HasAnswer(w.answers, j, status)
  }

  /** From `t` to `u` nobody consumes a permit but `answered`. */
  ghost predicate Consumes(t: Tables, u: Tables, answered: Option<nat>) {
    forall q :: 0 <= q < |u.permits| && u.permits[q].status.Consumed? && Some(q) != answered ==>
      q < |t.permits| && t.permits[q].status.Consumed?
  }

  lemma AuthorizeConsumes(t: Tables, a: Approval, runId: nat, journal: nat, keyHash: Digest, now: Clock, cost: int)
    ensures var tx := AuthorizeAndStart(t, a, runId, journal, keyHash, now, cost);
      tx.Commit? ==>
        && Consumes(t, tx.tables, None)
        && (tx.result.Granted? ==>
              tx.result.permit < |tx.tables.permits| && tx.tables.permits[tx.result.permit].status.Authorized?)
  {
  }

  lemma ReleaseConsumes(t: Tables, a: Approval, runId: nat, permit: nat, now: Instant)
    ensures var tx := RecordTransportFailure(t, a, runId, permit, now);
      tx.Commit? ==> Consumes(t, tx.tables, None)
  {
  }

  lemma RecordConsumes(t: Tables, a: Approval, runId: nat, permit: nat, status: int, now: Instant)
    ensures var tx := RecordResponse(t, a, runId, permit, status, now);
      tx.Commit? ==> Consumes(t, tx.tables, Some(permit))
  {
  }

  lemma RecoverConsumes(t: Tables, r: Record, now: Instant)
    ensures var tx := ConsumeUncertainPermit(t, r, now); tx.Commit? ==> Consumes(t, tx.tables, None)
  {
  }

  lemma StepConsumes(t: Tables, p: Process, env: Env)
    ensures Consumes(t, Step(t, p, env).tables, if p.pc.Recording? then Some(p.pc.permit) else None)
  {
    hide Step, AuthorizeAndStart, RecordTransportFailure, RecordResponse, ConsumeUncertainPermit;
    BudgetStep(t, p, env);
    match p.pc
    case Authorizing(j) => AuthorizeConsumes(t, p.approval, p.runId, j, p.keyHash, env.now, p.cost);
    case ReleasingUnsent(_, permit) => ReleaseConsumes(t, p.approval, p.runId, permit, env.now.at);
    case ReleasingUnknown(_, permit) => ReleaseConsumes(t, p.approval, p.runId, permit, env.now.at);
    case Recording(_, permit, status) => RecordConsumes(t, p.approval, p.runId, permit, status, env.now.at);
    case ReconcilePermit(r) => RecoverConsumes(t, r, env.now.at);
    case _ => QuietSteps(t, p, env);
  }

  /** No journal gets a permit. */
  ghost predicate BindsNone(t: Tables, u: Tables) {
    forall j :: 0 <= j < |u.journals| && u.journals[j].permit.Some? ==>
      j < |t.journals| && t.journals[j].permit == u.journals[j].permit
  }

  /** A journal's permit, or one that was granted in this very step. */
  ghost predicate Binds(t: Tables, u: Tables) {
    forall j :: 0 <= j < |u.journals| && u.journals[j].permit.Some? ==>
      || (j < |t.journals| && t.journals[j].permit == u.journals[j].permit)
      || (u.journals[j].permit.value < |u.permits| && u.permits[u.journals[j].permit.value].status.Authorized?)
  }

  /** What a transaction has to bind is bound when its caller is told, and when not. */
  lemma AfterBindsNone<R>(t: Tables, tx: Tx<R>, fault: Fault)
    requires tx.Commit? ==> BindsNone(t, tx.tables)
    ensures BindsNone(t, After(t, tx, fault))
  {
  }

  lemma JournalTxBindNone(t: Tables, c: Claim, id: nat, permit: nat, code: FailureCode, now: Instant)
    ensures ClaimJournal(t, c, now).Commit? ==> BindsNone(t, ClaimJournal(t, c, now).tables)
    ensures SettleJournal(t, id, permit, now).Commit? ==> BindsNone(t, SettleJournal(t, id, permit, now).tables)
    ensures CompleteJournal(t, id, now).Commit? ==> BindsNone(t, CompleteJournal(t, id, now).tables)
    ensures FailJournal(t, id, code, now).Commit? ==> BindsNone(t, FailJournal(t, id, code, now).tables)
    ensures MarkIndeterminate(t, id, code, now).Commit? ==> BindsNone(t, MarkIndeterminate(t, id, code, now).tables)
    ensures RecoverWithoutResend(t, id, now).Commit? ==> BindsNone(t, RecoverWithoutResend(t, id, now).tables)
  {
  }

  lemma AuthorizeBinds(t: Tables, p: Process, env: Env)
    requires p.pc.Authorizing?
    ensures Binds(t, Step(t, p, env).tables)
  {
    var tx := AuthorizeAndStart(t, p.approval, p.runId, p.pc.journal, p.keyHash, env.now, p.cost);
    assert Step(t, p, env).tables == After(t, tx, env.fault);
    AuthorizeTouches(t, p.approval, p.runId, p.pc.journal, p.keyHash, env.now, p.cost);
    AuthorizeConsumes(t, p.approval, p.runId, p.pc.journal, p.keyHash, env.now, p.cost);
    hide AuthorizeAndStart, Step, Consumes;
  }

  lemma StepBinds(t: Tables, p: Process, env: Env)
    ensures Binds(t, Step(t, p, env).tables)
  {
    hide Step;
    match p.pc
    case Authorizing(_) => AuthorizeBinds(t, p, env);
    case ClaimingJournal | FailingUnauthorized(_) | FailingUnsent(_, _) => EarlyBindsNone(t, p, env);
    case Settling(_, _, _) | Completing(_, _, _) | FailingSettled(_, _, _, _) => SettledBindsNone(t, p, env);
    case Marking(_, _, _, _, _) | Recovering(_, _, _, _) | ReconcileJournal(_) => RecoveredBindsNone(t, p, env);
    case _ => JournalsUntouched(t, p, env);
  }

  lemma EarlyBindsNone(t: Tables, p: Process, env: Env)
    requires p.pc.ClaimingJournal? || p.pc.FailingUnauthorized? || p.pc.FailingUnsent?
    ensures BindsNone(t, Step(t, p, env).tables)
  {
    hide ClaimJournal, FailJournal, AuthorizeAndStart, BindsNone, SendStep, SettleStep, UnknownStep, ReconcileStep, RootStep;
    var at := env.now.at;
    BindsNoneReflexive(t);
    match p.pc
    case ClaimingJournal =>
      JournalTxBindNone(t, p.claim, 0, 0, PermitAuthorizationFailed, at);
      AfterBindsNone(t, ClaimJournal(t, p.claim, at), env.fault);
    case FailingUnauthorized(j) =>
      JournalTxBindNone(t, p.claim, j, 0, PermitAuthorizationFailed, at);
      AfterBindsNone(t, FailJournal(t, j, PermitAuthorizationFailed, at), env.fault);
    case FailingUnsent(j, _) =>
      JournalTxBindNone(t, p.claim, j, 0, SendStartFailed, at);
      AfterBindsNone(t, FailJournal(t, j, SendStartFailed, at), env.fault);
  }

  lemma BindsNoneReflexive(t: Tables)
    ensures BindsNone(t, t)
  {
  }

  lemma SettledBindsNone(t: Tables, p: Process, env: Env)
    requires p.pc.Settling? || p.pc.Completing? || p.pc.FailingSettled?
    ensures BindsNone(t, Step(t, p, env).tables)
  {
    hide SettleJournal, CompleteJournal, FailJournal, RecordResponse, BindsNone;
    var at := env.now.at;
    match p.pc
    case Settling(j, permit, _) =>
      JournalTxBindNone(t, p.claim, j, permit, PermitAuthorizationFailed, at);
      AfterBindsNone(t, SettleJournal(t, j, permit, at), env.fault);
    case Completing(j, _, _) =>
      JournalTxBindNone(t, p.claim, j, 0, PermitAuthorizationFailed, at);
      AfterBindsNone(t, CompleteJournal(t, j, at), env.fault);
    case FailingSettled(j, _, _, code) =>
      JournalTxBindNone(t, p.claim, j, 0, code, at);
      AfterBindsNone(t, FailJournal(t, j, code, at), env.fault);
  }

  lemma RecoveredBindsNone(t: Tables, p: Process, env: Env)
    requires p.pc.Marking? || p.pc.Recovering? || p.pc.ReconcileJournal?
    ensures BindsNone(t, Step(t, p, env).tables)
  {
    hide MarkIndeterminate, RecoverWithoutResend, ConsumeUncertainPermit, ResolveSlot, BindsNone;
    var at := env.now.at;
    match p.pc
    case Marking(j, _, code, _, _) =>
      JournalTxBindNone(t, p.claim, j, 0, code, at);
      AfterBindsNone(t, MarkIndeterminate(t, j, code, at), env.fault);
    case Recovering(j, _, _, _) =>
      JournalTxBindNone(t, p.claim, j, 0, PermitAuthorizationFailed, at);
      AfterBindsNone(t, RecoverWithoutResend(t, j, at), env.fault);
    case ReconcileJournal(j) =>
      JournalTxBindNone(t, p.claim, j, 0, PermitAuthorizationFailed, at);
      AfterBindsNone(t, RecoverWithoutResend(t, j, at), env.fault);
  }

  lemma JournalsUntouched(t: Tables, p: Process, env: Env)
    requires !p.pc.Authorizing? && !p.pc.ClaimingJournal? && !p.pc.Settling? && !p.pc.Completing? && !p.pc.FailingUnauthorized?
    requires !p.pc.FailingUnsent? && !p.pc.FailingSettled? && !p.pc.Marking? && !p.pc.Recovering? && !p.pc.ReconcileJournal?
    ensures Step(t, p, env).tables.journals == t.journals
  {
  }

  // ----- the invariant over runs

  lemma ForeignGrows(events: seq<Event>, e: Event, permit: nat)
    requires Foreign(events, permit) || IsAnswerFor(e, permit)
    ensures Foreign(events + [e], permit)
  {
    if Foreign(events, permit) {
      var i :| 0 <= i < |events| && IsAnswerFor(events[i], permit);
      assert (events + [e])[i] == events[i];
    } else {
      assert (events + [e])[|events|] == e;
    }
  }

  /** Answers once heard stay in the history. */
  lemma AnswersKept(w: World, e: Event)
    ensures forall j: nat, s: int :: HasAnswer(w.answers, j, s) ==> HasAnswer(Next(w, e).answers, j, s)
  {
    var v := Next(w, e);
    assert w.answers <= v.answers;
    hide Next;
    forall j: nat, s: int | HasAnswer(w.answers, j, s) ensures HasAnswer(v.answers, j, s) {
      var i :| 0 <= i < |w.answers| && w.answers[i] == (j, s);
      assert v.answers[i] == (j, s);
    }
  }

  /** An owner that records consumes the permit of its own journal, whose answer it heard. */
  lemma RecordingAnswers(w: World, pid: nat, j: nat)
    requires WorldInv(w) && pid < |w.processes| && w.processes[pid].pc.Recording?
    requires j < |w.tables.journals| && w.tables.journals[j].permit == Some(w.processes[pid].pc.permit)
    ensures HasAnswer(w.answers, j, w.processes[pid].pc.status)
  {
    var p := w.processes[pid];
    assert ProcessOk(w.tables, p) && StandsIn(w, p.pc);
    assert w.tables.journals[p.pc.journal].permit == Some(p.pc.permit);
    assert LinkInv(w.tables);
    hide WorldInv, ProcessOk;
  }

  lemma ActConsumed(w: World, pid: nat, env: Env, events: seq<Event>, j: nat)
    requires WorldInv(w) && pid < |w.processes|
    requires forall k :: 0 <= k < |w.tables.journals| ==> ConsumedOk(w, events, k)
    requires j < |Next(w, Act(pid, env)).tables.journals|
    ensures ConsumedOk(Next(w, Act(pid, env)), events + [Act(pid, env)], j)
  {
    var p := w.processes[pid];
    var t, u := w.tables, Step(w.tables, p, env).tables;
    var e := Act(pid, env);
    var v := Next(w, e);
    assert v.tables == u;
    StepConsumes(t, p, env);
    StepBinds(t, p, env);
    AnswersKept(w, e);
    if j < |t.journals| && t.journals[j].permit == u.journals[j].permit && t.journals[j].permit.Some? {
      var q := t.journals[j].permit.value;
      if p.pc.Recording? && q == p.pc.permit { RecordingAnswers(w, pid, j); }
      assert ConsumedOk(w, events, j);
      if Foreign(events, q) { ForeignGrows(events, e, q); }
    }
    hide Next, Step, WorldInv, Foreign, HasAnswer;
  }

  lemma ClientConsumes(t: Tables, a: Approval, runId: nat, call: Call, now: Clock)
    ensures Consumes(t, CallTx(t, a, runId, call, now), if call.CallResponse? then Some(call.permit) else None)
  {
    match call
    case CallInitialize(_) => hide RecordResponse, RecordTransportFailure, Authorize, StopRun;
    case CallAuthorize(keyHash, cost) =>
      AuthorizeAloneConsumes(t, a, runId, keyHash, now, cost);
      hide Authorize, RecordResponse, RecordTransportFailure, StopRun, Initialize;
    case CallResponse(permit, status) =>
      RecordConsumes(t, a, runId, permit, status, now.at);
      hide Authorize, RecordResponse, RecordTransportFailure, StopRun, Initialize;
    case CallTransportFailure(permit) =>
      ReleaseConsumes(t, a, runId, permit, now.at);
      hide Authorize, RecordResponse, RecordTransportFailure, StopRun, Initialize;
    case CallStop(_, _) => hide RecordResponse, RecordTransportFailure, Authorize, Initialize;
  }

  lemma AuthorizeAloneConsumes(t: Tables, a: Approval, runId: nat, keyHash: Digest, now: Clock, cost: int)
    ensures var tx := Authorize(t, a, runId, keyHash, now, cost); tx.Commit? ==> Consumes(t, tx.tables, None)
  {
  }

  lemma ClientConsumed(w: World, e: Event, events: seq<Event>, j: nat)
    requires e.Client? && j < |w.tables.journals| == |Next(w, e).tables.journals|
    requires ConsumedOk(w, events, j)
    ensures ConsumedOk(Next(w, e), events + [e], j)
  {
    ClientConsumes(w.tables, e.approval, e.runId, e.call, e.now);
    CallTouches(w.tables, e.approval, e.runId, e.call, e.now);
    hide CallTx;
    if w.tables.journals[j].permit.Some? {
      var q := w.tables.journals[j].permit.value;
      if Foreign(events, q) || IsAnswerFor(e, q) { ForeignGrows(events, e, q); }
    }
  }

  lemma IdleConsumed(w: World, e: Event, events: seq<Event>, j: nat)
    requires e.Start? || e.Crash? || (e.Act? && e.pid >= |w.processes|)
    requires j < |w.tables.journals| && ConsumedOk(w, events, j)
    ensures Next(w, e).tables == w.tables && ConsumedOk(Next(w, e), events + [e], j)
  {
    if w.tables.journals[j].permit.Some? {
      var q := w.tables.journals[j].permit.value;
      if Foreign(events, q) { ForeignGrows(events, e, q); }
    }
  }

  lemma {:induction false} ConsumedByAnswer(events: seq<Event>, j: nat)
    requires j < |Run(GENESIS, events).tables.journals|
    ensures ConsumedOk(Run(GENESIS, events), events, j)
  {
    if events != [] {
      var before, e := events[..|events| - 1], events[|events| - 1];
      assert events == before + [e] && Run(GENESIS, events) == Next(Run(GENESIS, before), e);
      hide Run, Next, ConsumedOk;
      forall k | 0 <= k < |Run(GENESIS, before).tables.journals| ensures ConsumedOk(Run(GENESIS, before), before, k) {
        ConsumedByAnswer(before, k);
      }
      NextConsumed(before, e, j);
    }
  }

  lemma NextConsumed(before: seq<Event>, e: Event, j: nat)
    requires var w := Run(GENESIS, before);
      && j < |Next(w, e).tables.journals|
      && forall k :: 0 <= k < |w.tables.journals| ==> ConsumedOk(w, before, k)
    ensures ConsumedOk(Next(Run(GENESIS, before), e), before + [e], j)
  {
    var w := Run(GENESIS, before);
    Reachable(before);
    hide WorldInv, ConsumedOk, Run;
    if e.Act? && e.pid < |w.processes| {
      ActConsumed(w, e.pid, e.env, before, j);
    } else if e.Client? {
      CallTouches(w.tables, e.approval, e.runId, e.call, e.now);
      ClientConsumed(w, e, before, j);
    } else {
      hide Next;
      IdleTables(w, e);
      IdleConsumed(w, e, before, j);
    }
  }

  lemma IdleTables(w: World, e: Event)
    requires e.Start? || e.Crash? || (e.Act? && e.pid >= |w.processes|)
    ensures Next(w, e).tables == w.tables
  {
  }

  // ----- the fetch

  /** What holds of the tables and the logs when a process stands before its fetch. */
  ghost predicate FetchSound(w: World, pc: Pc, events: seq<Event>)
    requires pc.Verified?
  {
    && Called(w.sent, pc.journal) && !Called(w.fetched, pc.journal)
    && pc.journal < |w.tables.journals| && pc.permit < |w.tables.permits|
    && var j, permit := w.tables.journals[pc.journal], w.tables.permits[pc.permit];
       && j.permit == Some(pc.permit) && j.sendStartedAt == Some(pc.startedAt) && j.settledAt.None?
       && (j.status.SendStarted? || j.status.Indeterminate?)
       && permit.approval == j.approval && permit.keyHash == j.keyHash
       && (permit.status.Authorized? || permit.status.TransportFailed?
           || (permit.status.Consumed? && Foreign(events, pc.permit)))
  }

  /** A fetch begins only behind a verification that saw the send as started, the
      permit as authorized and the slot as open.  Whatever came in between, a complete
      reconcile included, the journal still holds that start and that permit, unsettled;
      and the permit is not consumed, unless somebody else answered for it.  */
  lemma FetchFollowsVerification(events: seq<Event>, pid: nat, env: Env)
    requires Run(GENESIS, events + [Act(pid, env)]).fetched != Run(GENESIS, events).fetched
    ensures var w, v := Run(GENESIS, events), Run(GENESIS, events + [Act(pid, env)]);
      && pid < |w.processes| && w.processes[pid].pc.Verified?
      && var pc := w.processes[pid].pc;
         && v.fetched == w.fetched + [MarkNow(w.tables, pc.journal, pc.permit)]
         && (exists k: nat :: k < |events| && VerifiedAt(events, k, pid, pc))
         && FetchSound(w, pc, events)
  {
    hide *;
    OneMore(events, Act(pid, env));
    FetchStep(Run(GENESIS, events), pid, env);
    VerifiedEarlier(events, pid);
    BeforeTheFetch(events, pid);
  }

  lemma OneMore(events: seq<Event>, e: Event)
    ensures Run(GENESIS, events + [e]) == Next(Run(GENESIS, events), e)
  {
    assert (events + [e])[..|events|] == events;
    hide Next;
  }

  lemma BeforeTheFetch(events: seq<Event>, pid: nat)
    requires pid < |Run(GENESIS, events).processes| && Run(GENESIS, events).processes[pid].pc.Verified?
    ensures var w := Run(GENESIS, events);
      FetchSound(w, w.processes[pid].pc, events)
  {
    var w := Run(GENESIS, events);
    Reachable(events);
    var p := w.processes[pid];
    assert ProcessOk(w.tables, p) && Unsettled(w.tables, p) && StandsIn(w, p.pc);
    assert Good(w.tables) && LogsOk(w);
    if p.pc.journal < |w.tables.journals| { ConsumedByAnswer(events, p.pc.journal); }
    hide Run, WorldInv, ConsumedOk, Good, LogsOk, ProcessOk, Unsettled, StandsIn, FetchSound;
    AtTheFetch(w, p, events);
  }

  lemma FetchStep(w: World, pid: nat, env: Env)
    requires Next(w, Act(pid, env)).fetched != w.fetched
    ensures pid < |w.processes| && w.processes[pid].pc.Verified?
    ensures var pc := w.processes[pid].pc;
      Next(w, Act(pid, env)).fetched == w.fetched + [MarkNow(w.tables, pc.journal, pc.permit)]
  {
    if pid < |w.processes| { StepEffects(w.tables, w.processes[pid], env); }
  }

  lemma AtTheFetch(w: World, p: Process, events: seq<Event>)
    requires Good(w.tables) && LogsOk(w)
    requires p.pc.Verified? && ProcessOk(w.tables, p) && Unsettled(w.tables, p) && StandsIn(w, p.pc)
    requires ConsumedOk(w, events, p.pc.journal)
    ensures FetchSound(w, p.pc, events)
  {
    StartedJournal(w.tables, p);
    assert JournalRowOk(w.tables, w.tables.journals[p.pc.journal]);
    assert PermitRowOk(w.tables, p.pc.permit);
    NoAnswerYet(w, p.pc.journal);
    hide Good, LogsOk, Foreign, Called;
  }

  lemma NoAnswerYet(w: World, j: nat)
    requires LogsOk(w)
    ensures forall status: int :: HasAnswer(w.answers, j, status) ==> Called(w.fetched, j)
  {
    forall status: int | HasAnswer(w.answers, j, status) ensures Called(w.fetched, j) {
      var i :| 0 <= i < |w.answers| && w.answers[i] == (j, status);
      assert Called(w.fetched, w.answers[i].0);
    }
  }
}
