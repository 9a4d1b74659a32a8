/** Who may write which journal or slot row, when, and what the write leaves: every
    change of a row is one of a few moves, made by its actor and stamped with its clock.  */
module Moves {
  import opened Schema
  import opened Transactions
  import opened Evolution
  import opened Protocol
  import opened ProcessInvariant
  import opened WorldInvariant
  import opened KernelTheorems
  import opened Fetches

  /** Recovery is open to the journal's own coordinator and to any reconciler. */
  predicate Recovers(pc: Pc, j: nat) {
    (pc.Recovering? && pc.journal == j) || (pc.ReconcileJournal? && pc.journal == j)
  }

  function RecoveryCode(before: JournalStatus): FailureCode {
    match before
    case SendStarted => RecoveryUnknownExternalEffect
    case Claimed => RecoveryBeforeSend
    case _ => RecoveryAfterSettlement
  }

  ghost predicate FailsWith(pc: Pc, j: nat, before: JournalStatus, code: FailureCode) {
    || (pc.FailingUnauthorized? && pc.journal == j && code == PermitAuthorizationFailed)
    || (pc.FailingUnsent? && pc.journal == j && code == SendStartFailed)
    || (pc.FailingSettled? && pc.journal == j && code == pc.code)
    || (Recovers(pc, j) && code == RecoveryCode(before))
  }

  ghost predicate LosesWith(pc: Pc, j: nat, before: JournalStatus, code: FailureCode) {
    || (pc.Marking? && pc.journal == j && code == pc.code)
    || (Recovers(pc, j) && code == RecoveryCode(before))
  }

  /** One write to journal row `j` by an actor at `pc`. */
  ghost predicate JournalMove(pc: Pc, j: nat, now: Instant, before: Journal, after: Journal) {
    && after.version == before.version + 1
    && match after.status
       case Claimed => false
       case SendStarted =>
         && pc.Authorizing? && pc.journal == j && before.status.Claimed? && after.permit.Some?
         && after == before.(status := SendStarted, permit := after.permit, sendStartedAt := Some(now), version := after.version)
       case Settled =>
         && pc.Settling? && pc.journal == j && before.status.SendStarted? && before.permit == Some(pc.permit)
         && after == before.(status := Settled, settledAt := Some(now), version := after.version)
       case Completed =>
         && pc.Completing? && pc.journal == j && before.status.Settled?
         && after == before.(status := Completed, failure := None, resolvedAt := Some(now), version := after.version)
       case Failed =>
         && (before.status.Claimed? || before.status.Settled?)
         && after.failure.Some? && FailsWith(pc, j, before.status, after.failure.value)
         && after == before.(status := Failed, failure := after.failure, resolvedAt := Some(now), version := after.version)
       case Indeterminate =>
         && before.status.SendStarted?
         && after.failure.Some? && LosesWith(pc, j, before.status, after.failure.value)
         && after == before.(status := Indeterminate, failure := after.failure, resolvedAt := Some(now), version := after.version)
  }

  ghost predicate JournalMoves(t: Tables, u: Tables, p: Process, now: Instant) {
    && |t.journals| <= |u.journals| <= |t.journals| + 1
    && (forall j :: 0 <= j < |t.journals| ==>
          u.journals[j] == t.journals[j] || JournalMove(p.pc, j, now, t.journals[j], u.journals[j]))
    && (forall j :: |t.journals| <= j < |u.journals| ==>
          && p.pc.ClaimingJournal? && j == |t.journals|
          && u.journals[j] == Journal(p.claim.approval, p.claim.runId, p.claim.slot, p.claim.keyHash,
                                      None, Claimed, None, now, None, None, None, 0))
  }

  /** One write to slot row `s`: its root or a reconciler resolves it. */
  ghost predicate SlotMove(p: Process, s: nat, now: Instant, before: Slot, after: Slot) {
    && before.status.SlotClaimed?
    && after == before.(status := after.status, resolvedAt := Some(now))
    && (|| (p.pc.Resolving? && p.claim.slot == s && after.status == SlotTarget(p.pc.completed))
        || (p.pc.ReconcileSlot? && p.pc.record.row.slot == s && after.status == SlotTarget(p.pc.record.row.status.Completed?)))
  }

  ghost predicate SlotMoves(t: Tables, u: Tables, p: Process, now: Instant) {
    && |t.slots| <= |u.slots| <= |t.slots| + 1
    && (forall s :: 0 <= s < |t.slots| ==> u.slots[s] == t.slots[s] || SlotMove(p, s, now, t.slots[s], u.slots[s]))
    && (forall s :: |t.slots| <= s < |u.slots| ==>
          && p.pc.ClaimingSlot? && s == |t.slots|
          && u.slots[s] == Slot(p.pc.approval, p.pc.runId, p.keyHash, SlotClaimed, now, None))
  }

  // ----- the transactions

  ghost predicate Wrote(t: Tables, tx: Tx<Record>, p: Process, now: Instant) {
    tx.Commit? ==> JournalMoves(t, tx.tables, p, now)
  }

  lemma AfterMoves<R>(t: Tables, tx: Tx<R>, p: Process, env: Env)
    requires tx.Commit? ==> JournalMoves(t, tx.tables, p, env.now.at)
    ensures JournalMoves(t, After(t, tx, env.fault), p, env.now.at)
  {
  }

  lemma FailMoves(t: Tables, p: Process, j: nat, code: FailureCode, now: Instant)
    requires j < |t.journals| ==> FailsWith(p.pc, j, t.journals[j].status, code)
    ensures Wrote(t, FailJournal(t, j, code, now), p, now)
  {
    hide FailsWith;
  }

  lemma MarkMoves(t: Tables, p: Process, j: nat, code: FailureCode, now: Instant)
    requires j < |t.journals| ==> LosesWith(p.pc, j, t.journals[j].status, code)
    ensures Wrote(t, MarkIndeterminate(t, j, code, now), p, now)
  {
    hide LosesWith;
  }

  lemma RecoverMoves(t: Tables, p: Process, j: nat, now: Instant)
    requires Recovers(p.pc, j)
    ensures Wrote(t, RecoverWithoutResend(t, j, now), p, now)
  {
  }

  lemma AuthorizingMoves(t: Tables, p: Process, env: Env)
    requires p.pc.Authorizing?
    ensures JournalMoves(t, AuthorizeStep(t, p, env).tables, p, env.now.at)
  {
    var tx := AuthorizeAndStart(t, p.approval, p.runId, p.pc.journal, p.keyHash, env.now, p.cost);
    AuthorizeTouches(t, p.approval, p.runId, p.pc.journal, p.keyHash, env.now, p.cost);
    AuthorizeFromClaimed(t, p.approval, p.runId, p.pc.journal, p.keyHash, env.now, p.cost);
    hide AuthorizeAndStart;
    AfterMoves(t, tx, p, env);
  }

  lemma AuthorizeFromClaimed(t: Tables, a: Approval, runId: nat, journal: nat, keyHash: Digest, now: Clock, cost: int)
    ensures var tx := AuthorizeAndStart(t, a, runId, journal, keyHash, now, cost);
      tx.Commit? && tx.result.Granted? ==> journal < |t.journals| && t.journals[journal].status.Claimed?
  {
    AuthorizeForm(t, a, runId, journal, keyHash, now, cost);
    ReserveTouches(t, a, runId, keyHash, now, cost);
    hide AuthorizeAndStart, Reserve;
  }

  lemma EarlyMoves(t: Tables, p: Process, env: Env)
    requires p.pc.ClaimingJournal? || p.pc.FailingUnauthorized? || p.pc.FailingUnsent?
    ensures JournalMoves(t, Step(t, p, env).tables, p, env.now.at)
  {
    hide FailJournal, AuthorizeAndStart, SendStep, SettleStep, UnknownStep, ReconcileStep, RootStep;
    var at := env.now.at;
    match p.pc
    case ClaimingJournal => AfterMoves(t, ClaimJournal(t, p.claim, at), p, env);
    case FailingUnauthorized(j) =>
      FailMoves(t, p, j, PermitAuthorizationFailed, at);
      AfterMoves(t, FailJournal(t, j, PermitAuthorizationFailed, at), p, env);
    case FailingUnsent(j, _) =>
      FailMoves(t, p, j, SendStartFailed, at);
      AfterMoves(t, FailJournal(t, j, SendStartFailed, at), p, env);
  }

  lemma SettledMoves(t: Tables, p: Process, env: Env)
    requires p.pc.Settling? || p.pc.Completing? || p.pc.FailingSettled?
    ensures JournalMoves(t, SettleStep(t, p, env).tables, p, env.now.at)
  {
    hide FailJournal, RecordResponse;
    var at := env.now.at;
    match p.pc
    case Settling(j, permit, _) => AfterMoves(t, SettleJournal(t, j, permit, at), p, env);
    case Completing(j, _, _) => AfterMoves(t, CompleteJournal(t, j, at), p, env);
    case FailingSettled(j, _, _, code) =>
      FailMoves(t, p, j, code, at);
      AfterMoves(t, FailJournal(t, j, code, at), p, env);
  }

  lemma RecoveryMoves(t: Tables, p: Process, env: Env)
    requires p.pc.Marking? || p.pc.Recovering? || p.pc.ReconcileJournal?
    ensures JournalMoves(t, Step(t, p, env).tables, p, env.now.at)
  {
    hide MarkIndeterminate, RecoverWithoutResend, ConsumeUncertainPermit, ResolveSlot, JournalMoves;
    var at := env.now.at;
    match p.pc
    case Marking(j, _, code, _, _) =>
      MarkMoves(t, p, j, code, at);
      AfterMoves(t, MarkIndeterminate(t, j, code, at), p, env);
    case Recovering(j, _, _, _) =>
      RecoverMoves(t, p, j, at);
      AfterMoves(t, RecoverWithoutResend(t, j, at), p, env);
    case ReconcileJournal(j) =>
      RecoverMoves(t, p, j, at);
      AfterMoves(t, RecoverWithoutResend(t, j, at), p, env);
  }

  /** Every step of every process changes journals only by such moves. */
  lemma StepMovesJournals(t: Tables, p: Process, env: Env)
    ensures JournalMoves(t, Step(t, p, env).tables, p, env.now.at)
  {
    match p.pc
    case Authorizing(_) => hide JournalMoves; AuthorizingMoves(t, p, env);
    case ClaimingJournal | FailingUnauthorized(_) | FailingUnsent(_, _) => hide *; EarlyMoves(t, p, env);
    case Settling(_, _, _) | Completing(_, _, _) | FailingSettled(_, _, _, _) => hide JournalMoves; SettledMoves(t, p, env);
    case Marking(_, _, _, _, _) | Recovering(_, _, _, _) | ReconcileJournal(_) => hide *; RecoveryMoves(t, p, env);
    case _ => hide Step; JournalsUntouched(t, p, env);
  }

  // ----- slots

  lemma RootMovesSlots(t: Tables, p: Process, env: Env)
    requires p.pc.ClaimingSlot? || p.pc.Resolving?
    ensures SlotMoves(t, RootStep(t, p, env).tables, p, env.now.at)
  {
  }

  lemma ReconcilerMovesSlots(t: Tables, p: Process, env: Env)
    requires p.pc.ReconcileSlot?
    ensures SlotMoves(t, ReconcileStep(t, p, env).tables, p, env.now.at)
  {
  }

  /** Every step of every process changes slots only by such moves. */
  lemma StepMovesSlots(t: Tables, p: Process, env: Env)
    ensures SlotMoves(t, Step(t, p, env).tables, p, env.now.at)
  {
    match p.pc
    case ClaimingSlot(_, _) | Resolving(_) => hide SlotMoves, RootStep; RootMovesSlots(t, p, env);
    case ReconcileSlot(_) => hide SlotMoves, ReconcileStep; ReconcilerMovesSlots(t, p, env);
    case _ => hide Step; SlotsUntouched(t, p, env);
  }

  lemma SlotsUntouched(t: Tables, p: Process, env: Env)
    requires !p.pc.ClaimingSlot? && !p.pc.Resolving? && !p.pc.ReconcileSlot?
    ensures Step(t, p, env).tables.slots == t.slots
  {
    hide AuthorizeAndStart, BreakerReason, Answered, MarkerVerified, GetJournal;
    if p.pc.Authorizing? {
      AuthorizeTouches(t, p.approval, p.runId, p.pc.journal, p.keyHash, env.now, p.cost);
    }
  }

  // ----- permits

  /** One write to the permits: a new one, authorized by this clock reading, or the spending
      of an authorized one at it.  */
  ghost predicate PermitMoves(t: Tables, u: Tables, now: Clock) {
    && |t.permits| <= |u.permits| <= |t.permits| + 1
    && (forall i :: 0 <= i < |t.permits| ==>
          || u.permits[i] == t.permits[i]
          || (&& t.permits[i].status.Authorized?
              && (|| (exists status: int :: u.permits[i] ==
                        t.permits[i].(status := Consumed, consumedAt := Some(now.at), response := Some(status)))
                  || u.permits[i] == t.permits[i].(status := TransportFailed, consumedAt := Some(now.at)))))
    && (|u.permits| == |t.permits| + 1 ==>
          var p := u.permits[|t.permits|];
          p.status.Authorized? && p.authorizedAt == now && p.consumedAt.None? && p.response.None?)
  }

  lemma AfterPermitMoves<R>(t: Tables, tx: Tx<R>, fault: Fault, now: Clock)
    requires tx.Commit? ==> PermitMoves(t, tx.tables, now)
    ensures PermitMoves(t, After(t, tx, fault), now)
  {
  }

  lemma ReservePermitMoves(t: Tables, a: Approval, runId: nat, keyHash: Digest, now: Clock, cost: int)
    ensures var tx := Reserve(t, a, runId, keyHash, now, cost); tx.Commit? ==> PermitMoves(t, tx.tables, now)
  {
    hide Judge;
  }

  lemma SpendingMoves(t: Tables, a: Approval, runId: nat, permit: nat, status: int, r: Record, now: Clock)
    ensures var tx := RecordResponse(t, a, runId, permit, status, now.at); tx.Commit? ==> PermitMoves(t, tx.tables, now)
    ensures var tx := RecordTransportFailure(t, a, runId, permit, now.at); tx.Commit? ==> PermitMoves(t, tx.tables, now)
    ensures var tx := ConsumeUncertainPermit(t, r, now.at); tx.Commit? ==> PermitMoves(t, tx.tables, now)
  {
  }

  lemma SamePermitMoves(t: Tables, u: Tables, now: Clock)
    requires u.permits == t.permits
    ensures PermitMoves(t, u, now)
  {
  }

  /** Every step of every process changes permits only by such moves. */
  lemma StepMovesPermits(t: Tables, p: Process, env: Env)
    ensures PermitMoves(t, Step(t, p, env).tables, env.now)
  {
    hide Step, PermitMoves, AuthorizeAndStart, RecordResponse, Transactions.RecordTransportFailure, ConsumeUncertainPermit;
    BudgetStep(t, p, env);
    match p.pc
    case Authorizing(j) =>
      AuthorizingPermits(t, p.approval, p.runId, j, p.keyHash, env.now, p.cost);
      AfterPermitMoves(t, AuthorizeAndStart(t, p.approval, p.runId, j, p.keyHash, env.now, p.cost), env.fault, env.now);
    case ReleasingUnsent(_, permit) =>
      SpendingMoves(t, p.approval, p.runId, permit, 200, IdleRecord(), env.now);
      AfterPermitMoves(t, RecordTransportFailure(t, p.approval, p.runId, permit, env.now.at), env.fault, env.now);
    case ReleasingUnknown(_, permit) =>
      SpendingMoves(t, p.approval, p.runId, permit, 200, IdleRecord(), env.now);
      AfterPermitMoves(t, RecordTransportFailure(t, p.approval, p.runId, permit, env.now.at), env.fault, env.now);
    case Recording(_, permit, status) =>
      SpendingMoves(t, p.approval, p.runId, permit, status, IdleRecord(), env.now);
      AfterPermitMoves(t, RecordResponse(t, p.approval, p.runId, permit, status, env.now.at), env.fault, env.now);
    case ReconcilePermit(r) =>
      SpendingMoves(t, p.approval, p.runId, 0, 200, r, env.now);
      AfterPermitMoves(t, ConsumeUncertainPermit(t, r, env.now.at), env.fault, env.now);
    case _ =>
      QuietSteps(t, p, env);
      SamePermitMoves(t, Step(t, p, env).tables, env.now);
  }

  function IdleRecord(): Record {
    Record(0, Journal(0, 0, 0, 0, None, Claimed, None, 0, None, None, None, 0))
  }

  lemma AuthorizingPermits(t: Tables, a: Approval, runId: nat, journal: nat, keyHash: Digest, now: Clock, cost: int)
    ensures var tx := AuthorizeAndStart(t, a, runId, journal, keyHash, now, cost); tx.Commit? ==> PermitMoves(t, tx.tables, now)
  {
    AuthorizeForm(t, a, runId, journal, keyHash, now, cost);
    ReservePermitMoves(t, a, runId, keyHash, now, cost);
    hide AuthorizeAndStart, Reserve;
  }

  lemma CallMovesPermits(t: Tables, a: Approval, runId: nat, call: Call, now: Clock)
    ensures PermitMoves(t, CallTx(t, a, runId, call, now), now)
  {
    hide PermitMoves, Reserve, RecordResponse, Transactions.RecordTransportFailure;
    SamePermitMoves(t, t, now);
    match call
    case CallInitialize(_) => SamePermitMoves(t, CallTx(t, a, runId, call, now), now);
    case CallAuthorize(keyHash, cost) => ReservePermitMoves(t, a, runId, keyHash, now, cost);
    case CallResponse(permit, status) => SpendingMoves(t, a, runId, permit, status, IdleRecord(), now);
    case CallTransportFailure(permit) => SpendingMoves(t, a, runId, permit, 200, IdleRecord(), now);
    case CallStop(_, _) => SamePermitMoves(t, CallTx(t, a, runId, call, now), now);
  }
}
