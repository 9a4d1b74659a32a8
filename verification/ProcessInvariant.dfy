/** What each process may rely on at each program point, and the proof that its
    own steps establish it and no step of anyone else destroys it.  */
module ProcessInvariant {
  import opened Schema
  import opened Transactions
  import opened Evolution
  import opened Links
  import opened Budget
  import opened Protocol

  /** The journal a coordinator created and is still working on. */
  function Owned(pc: Pc): Option<nat> {
    match pc
    case Authorizing(j) => Some(j)
    case FailingUnauthorized(j) => Some(j)
    case ReadingBack(j, _) => Some(j)
    case ReleasingUnsent(j, _) => Some(j)
    case InspectingUnsent(j, _) => Some(j)
    case FailingUnsent(j, _) => Some(j)
    case Calling(j, _, _) => Some(j)
    case Verifying(j, _, _) => Some(j)
    case Verified(j, _, _) => Some(j)
    case Fetching(j, _) => Some(j)
    case ReleasingUnknown(j, _) => Some(j)
    case Recording(j, _, _) => Some(j)
    case Settling(j, _, _) => Some(j)
    case Processing(j, _, _) => Some(j)
    case FailingSettled(j, _, _, _) => Some(j)
    case Completing(j, _, _) => Some(j)
    case Marking(j, _, _, _, _) => Some(j)
    case Recovering(j, _, _, _) => Some(j)
    case _ => None
  }

  /** The permit bound to that journal, once the coordinator has been told of it. */
  function Bound(pc: Pc): Option<nat> {
    match pc
    case ReadingBack(_, p) => Some(p)
    case ReleasingUnsent(_, p) => Some(p)
    case InspectingUnsent(_, p) => Some(p)
    case FailingUnsent(_, p) => Some(p)
    case Calling(_, p, _) => Some(p)
    case Verifying(_, p, _) => Some(p)
    case Verified(_, p, _) => Some(p)
    case Fetching(_, p) => Some(p)
    case ReleasingUnknown(_, p) => Some(p)
    case Recording(_, p, _) => Some(p)
    case Settling(_, p, _) => Some(p)
    case Processing(_, p, _) => Some(p)
    case FailingSettled(_, p, _, _) => Some(p)
    case Completing(_, p, _) => Some(p)
    case Marking(_, p, _, _, _) => Some(p)
    case Recovering(_, p, _, _) => Some(p)
    case _ => None
  }

  /** The coordinator knows its own response to be recorded on its permit. */
  function Answer(pc: Pc): Option<int> {
    match pc
    case Settling(_, _, s) => Some(s)
    case Processing(_, _, s) => Some(s)
    case FailingSettled(_, _, s, _) => Some(s)
    case Completing(_, _, s) => Some(s)
    case _ => None
  }

  /** The sender has not been called for this journal. */
  predicate BeforeCall(pc: Pc) {
    pc.Authorizing? || pc.FailingUnauthorized? || pc.ReadingBack? || pc.Calling?
  }

  /** The journal cannot have been settled yet: only this process settles it. */
  predicate BeforeSettle(pc: Pc) {
    || BeforeCall(pc) || pc.Verifying? || pc.Verified? || pc.Fetching? || pc.Recording? || pc.Settling?
    || pc.ReleasingUnsent? || pc.InspectingUnsent? || pc.FailingUnsent? || pc.ReleasingUnknown? || pc.Marking?
  }

  ghost predicate RecordStands(t: Tables, r: Record) {
    r.id < |t.journals| && t.journals[r.id] == r.row && r.row.Terminal()
  }

  ghost predicate SlotJournalCompleted(t: Tables, slot: nat) {
    exists j :: 0 <= j < |t.journals| && t.journals[j].slot == slot && t.journals[j].status.Completed?
  }

  /** Facts that hold at a program point and, being about committed one-way state,
      go on holding whatever the other processes commit.  */
  ghost predicate ProcessOk(t: Tables, p: Process) {
    && (Owned(p.pc).Some? ==>
          var j := Owned(p.pc).value;
          && j < |t.journals|
          && t.journals[j].slot == p.claim.slot
          && t.journals[j].approval == p.claim.approval
          && t.journals[j].keyHash == p.claim.keyHash == p.keyHash
          && (Bound(p.pc).Some? ==>
                t.journals[j].permit == Bound(p.pc) && t.journals[j].sendStartedAt.Some?)
          && (Answer(p.pc).Some? ==>
                Bound(p.pc).Some? && Bound(p.pc).value < |t.permits|
                && t.permits[Bound(p.pc).value].status.Consumed?
                && t.permits[Bound(p.pc).value].response == Answer(p.pc)))
    && match p.pc
       case Calling(j, _, at) => t.journals[j].sendStartedAt == Some(at)
       case Verifying(j, _, at) => t.journals[j].sendStartedAt == Some(at)
       case Verified(j, _, at) => t.journals[j].sendStartedAt == Some(at)
       case Completing(_, _, status) => 200 <= status < 300
       case Finishing(outcome) =>
         outcome.Some? ==> RecordStands(t, outcome.value.journal) && outcome.value.journal.row.slot == p.claim.slot
       case Resolving(completed) => completed ==> SlotJournalCompleted(t, p.claim.slot)
       case ReconcilePermit(r) => RecordStands(t, r)
       case ReconcileSlot(r) => RecordStands(t, r)
       case ReconcileRead(r) => RecordStands(t, r)
       case Reconciled(r) => RecordStands(t, r)
       case _ => true
  }

  lemma SlotJournalCompletedStable(t: Tables, u: Tables, slot: nat)
    requires Evolves(t, u) && SlotJournalCompleted(t, slot)
    ensures SlotJournalCompleted(u, slot)
  {
    var j :| 0 <= j < |t.journals| && t.journals[j].slot == slot && t.journals[j].status.Completed?;
    assert JournalEvolves(t.journals[j], u.journals[j]);
  }

  /** Non-interference. */
  lemma ProcessOkStable(t: Tables, u: Tables, p: Process)
    requires Evolves(t, u) && ProcessOk(t, p)
    ensures ProcessOk(u, p)
  {
    if Owned(p.pc).Some? {
      assert JournalEvolves(t.journals[Owned(p.pc).value], u.journals[Owned(p.pc).value]);
      if Answer(p.pc).Some? {
        assert PermitEvolves(t.permits[Bound(p.pc).value], u.permits[Bound(p.pc).value]);
      }
    }
    match p.pc
    case Resolving(completed) => if completed { SlotJournalCompletedStable(t, u, p.claim.slot); }
    case Finishing(outcome) =>
      if outcome.Some? {
        assert JournalEvolves(t.journals[outcome.value.journal.id], u.journals[outcome.value.journal.id]);
      }
    case ReconcilePermit(r) => assert JournalEvolves(t.journals[r.id], u.journals[r.id]);
    case ReconcileSlot(r) => assert JournalEvolves(t.journals[r.id], u.journals[r.id]);
    case ReconcileRead(r) => assert JournalEvolves(t.journals[r.id], u.journals[r.id]);
    case Reconciled(r) => assert JournalEvolves(t.journals[r.id], u.journals[r.id]);
    case _ =>
  }

  /** What one step promises the others about the journals and slots: only the
      owner settles or completes a journal, and a slot is completed only after its
      journal was.  */
  ghost predicate Guarantee(t: Tables, u: Tables, pc: Pc) {
    && (forall j :: 0 <= j < |u.journals| && u.journals[j].settledAt.Some? ==>
          || (j < |t.journals| && t.journals[j].settledAt.Some?)
          || (pc.Settling? && pc.journal == j && j < |t.journals|))
    && (forall j :: 0 <= j < |u.journals| && u.journals[j].status.Completed? ==>
          || (j < |t.journals| && t.journals[j].status.Completed?)
          || (pc.Completing? && pc.journal == j && j < |t.journals|))
    && (forall s :: 0 <= s < |u.slots| && u.slots[s].status.SlotCompleted? ==>
          || (s < |t.slots| && t.slots[s].status.SlotCompleted?)
          || SlotJournalCompleted(t, s))
  }

  lemma SilentGuarantee(t: Tables, u: Tables, pc: Pc)
    requires u.slots == t.slots && u.journals == t.journals
    ensures Guarantee(t, u, pc)
  {
  }

  /** A coordinator that has not settled owns an unsettled journal. */
  ghost predicate Unsettled(t: Tables, p: Process) {
    BeforeSettle(p.pc) && Owned(p.pc).Some? ==>
      Owned(p.pc).value < |t.journals| && t.journals[Owned(p.pc).value].settledAt.None?
  }

  // ----- soundness of the tables, step by step

  ghost predicate Onward(t: Tables, u: Tables) {
    Good(u) && Evolves(t, u)
  }

  lemma OnwardReflexive(t: Tables)
    requires Good(t)
    ensures Onward(t, t)
  {
    EvolvesReflexive(t);
  }

  lemma AfterOnward<R>(t: Tables, tx: Tx<R>, fault: Fault)
    requires Good(t) && Sound(t, tx)
    ensures Onward(t, After(t, tx, fault))
  {
    EvolvesReflexive(t);
  }

  lemma RootOnward(t: Tables, p: Process, env: Env)
    requires Good(t)
    requires p.pc.ClaimingSlot? || p.pc.Preparing? || p.pc.Finishing? || p.pc.Resolving?
    ensures Onward(t, RootStep(t, p, env).tables)
  {
    OnwardReflexive(t);
    match p.pc
    case ClaimingSlot(approval, runId) =>
      ClaimSlotSound(t, approval, runId, p.keyHash, env.now.at);
      AfterOnward(t, ClaimSlot(t, approval, runId, p.keyHash, env.now.at), env.fault);
    case Resolving(completed) =>
      ResolveSlotSound(t, p.claim, completed, env.now.at);
      AfterOnward(t, ResolveSlot(t, p.claim, completed, env.now.at), env.fault);
    case _ =>
  }

  lemma AuthorizeOnward(t: Tables, p: Process, env: Env)
    requires Good(t)
    requires p.pc.ClaimingJournal? || p.pc.Authorizing? || p.pc.FailingUnauthorized? || p.pc.ReadingBack?
    ensures Onward(t, AuthorizeStep(t, p, env).tables)
  {
    hide Good, Onward, AuthorizeAndStart, ClaimJournal, FailJournal;
    OnwardReflexive(t);
    match p.pc
    case ClaimingJournal =>
      ClaimJournalSound(t, p.claim, env.now.at);
      AfterOnward(t, ClaimJournal(t, p.claim, env.now.at), env.fault);
    case Authorizing(j) =>
      AuthorizeAndStartSound(t, p.approval, p.runId, j, p.keyHash, env.now, p.cost);
      AfterOnward(t, AuthorizeAndStart(t, p.approval, p.runId, j, p.keyHash, env.now, p.cost), env.fault);
    case FailingUnauthorized(j) =>
      FailSound(t, j, PermitAuthorizationFailed, env.now.at);
      AfterOnward(t, FailJournal(t, j, PermitAuthorizationFailed, env.now.at), env.fault);
    case _ =>
  }

  lemma UnsentOnward(t: Tables, p: Process, env: Env)
    requires Good(t)
    requires p.pc.ReleasingUnsent? || p.pc.InspectingUnsent? || p.pc.FailingUnsent?
    ensures Onward(t, UnsentStep(t, p, env).tables)
  {
    OnwardReflexive(t);
    match p.pc
    case ReleasingUnsent(j, permit) =>
      RecordTransportFailureSound(t, p.approval, p.runId, permit, env.now.at);
      AfterOnward(t, RecordTransportFailure(t, p.approval, p.runId, permit, env.now.at), env.fault);
    case FailingUnsent(j, _) =>
      FailSound(t, j, SendStartFailed, env.now.at);
      AfterOnward(t, FailJournal(t, j, SendStartFailed, env.now.at), env.fault);
    case _ =>
  }

  lemma SendOnward(t: Tables, p: Process, env: Env)
    requires Good(t)
    requires p.pc.Calling? || p.pc.Verifying? || p.pc.Verified? || p.pc.Fetching? || p.pc.ReleasingUnknown?
    ensures Onward(t, SendStep(t, p, env).tables)
  {
    OnwardReflexive(t);
    if p.pc.ReleasingUnknown? {
      RecordTransportFailureSound(t, p.approval, p.runId, p.pc.permit, env.now.at);
      AfterOnward(t, RecordTransportFailure(t, p.approval, p.runId, p.pc.permit, env.now.at), env.fault);
    }
  }

  lemma SettleOnward(t: Tables, p: Process, env: Env)
    requires Good(t)
    requires p.pc.Recording? || p.pc.Settling? || p.pc.Processing? || p.pc.FailingSettled? || p.pc.Completing?
    ensures Onward(t, SettleStep(t, p, env).tables)
  {
    hide Good, Onward, RecordResponse, SettleJournal, FailJournal, CompleteJournal;
    OnwardReflexive(t);
    match p.pc
    case Recording(j, permit, status) =>
      RecordResponseSound(t, p.approval, p.runId, permit, status, env.now.at);
      AfterOnward(t, RecordResponse(t, p.approval, p.runId, permit, status, env.now.at), env.fault);
    case Settling(j, permit, _) =>
      SettleSound(t, j, permit, env.now.at);
      AfterOnward(t, SettleJournal(t, j, permit, env.now.at), env.fault);
    case FailingSettled(j, _, _, code) =>
      FailSound(t, j, code, env.now.at);
      AfterOnward(t, FailJournal(t, j, code, env.now.at), env.fault);
    case Completing(j, _, _) =>
      CompleteSound(t, j, env.now.at);
      AfterOnward(t, CompleteJournal(t, j, env.now.at), env.fault);
    case _ =>
  }

  lemma UnknownOnward(t: Tables, p: Process, env: Env)
    requires Good(t) && (p.pc.Marking? || p.pc.Recovering?)
    ensures Onward(t, UnknownStep(t, p, env).tables)
  {
    match p.pc
    case Marking(j, _, code, _, _) =>
      MarkIndeterminateSound(t, j, code, env.now.at);
      AfterOnward(t, MarkIndeterminate(t, j, code, env.now.at), env.fault);
    case Recovering(j, _, _, _) =>
      RecoverSound(t, j, env.now.at);
      AfterOnward(t, RecoverWithoutResend(t, j, env.now.at), env.fault);
  }

  lemma ReconcileOnward(t: Tables, p: Process, env: Env)
    requires Good(t)
    requires p.pc.ReconcileJournal? || p.pc.ReconcilePermit? || p.pc.ReconcileSlot? || p.pc.ReconcileRead?
    ensures Onward(t, ReconcileStep(t, p, env).tables)
  {
    OnwardReflexive(t);
    match p.pc
    case ReconcileJournal(j) =>
      RecoverSound(t, j, env.now.at);
      AfterOnward(t, RecoverWithoutResend(t, j, env.now.at), env.fault);
    case ReconcilePermit(r) =>
      ConsumeUncertainPermitSound(t, r, env.now.at);
      AfterOnward(t, ConsumeUncertainPermit(t, r, env.now.at), env.fault);
    case ReconcileSlot(r) =>
      ResolveSlotSound(t, ClaimOf(r), r.row.status.Completed?, env.now.at);
      AfterOnward(t, ResolveSlot(t, ClaimOf(r), r.row.status.Completed?, env.now.at), env.fault);
    case ReconcileRead(_) =>
  }

  lemma StepOnward(t: Tables, p: Process, env: Env)
    requires Good(t)
    ensures Onward(t, Step(t, p, env).tables)
  {
    hide Good, Evolves, RootStep, AuthorizeStep, UnsentStep, SendStep, SettleStep, UnknownStep, ReconcileStep;
    match p.pc
    case ClaimingSlot(_, _) | Preparing | Finishing(_) | Resolving(_) => RootOnward(t, p, env);
    case ClaimingJournal | Authorizing(_) | FailingUnauthorized(_) | ReadingBack(_, _) => AuthorizeOnward(t, p, env);
    case ReleasingUnsent(_, _) | InspectingUnsent(_, _) | FailingUnsent(_, _) => UnsentOnward(t, p, env);
    case Calling(_, _, _) | Verifying(_, _, _) | Verified(_, _, _) | Fetching(_, _) | ReleasingUnknown(_, _) =>
      SendOnward(t, p, env);
    case Recording(_, _, _) | Settling(_, _, _) | Processing(_, _, _) | FailingSettled(_, _, _, _) | Completing(_, _, _) =>
      SettleOnward(t, p, env);
    case Marking(_, _, _, _, _) | Recovering(_, _, _, _) => UnknownOnward(t, p, env);
    case ReconcileJournal(_) | ReconcilePermit(_) | ReconcileSlot(_) | ReconcileRead(_) => ReconcileOnward(t, p, env);
    case Reconciled(_) | ReconcileRaised | Ended => OnwardReflexive(t);
  }

  // ----- what each step promises the others

  lemma RootGuarantee(t: Tables, p: Process, env: Env)
    requires ProcessOk(t, p)
    requires p.pc.ClaimingSlot? || p.pc.Preparing? || p.pc.Finishing? || p.pc.Resolving?
    ensures Guarantee(t, RootStep(t, p, env).tables, p.pc)
  {
  }

  /** The authorization writes no row but the awaited journal and the budgets. */
  lemma AuthorizeTouches(t: Tables, a: Approval, runId: nat, journal: nat, keyHash: Digest, now: Clock, cost: int)
    ensures var tx := AuthorizeAndStart(t, a, runId, journal, keyHash, now, cost);
            tx.Commit? ==>
              && tx.tables.slots == t.slots
              && (!tx.result.Granted? ==> tx.tables.journals == t.journals)
              && (tx.result.Granted? ==>
                    && journal < |t.journals|
                    && tx.tables.journals == t.journals[journal :=
                         t.journals[journal].(permit := Some(tx.result.permit), status := SendStarted,
                                              sendStartedAt := Some(now.at), version := t.journals[journal].version + 1)])
  {
    AuthorizeForm(t, a, runId, journal, keyHash, now, cost);
    ReserveTouches(t, a, runId, keyHash, now, cost);
    hide AuthorizeAndStart, Reserve;
  }

  lemma AuthorizeGuarantee(t: Tables, p: Process, env: Env)
    requires p.pc.ClaimingJournal? || p.pc.Authorizing? || p.pc.FailingUnauthorized? || p.pc.ReadingBack?
    ensures Guarantee(t, AuthorizeStep(t, p, env).tables, p.pc)
  {
    hide AuthorizeAndStart;
    if p.pc.Authorizing? {
      AuthorizeTouches(t, p.approval, p.runId, p.pc.journal, p.keyHash, env.now, p.cost);
    }
  }

  lemma UnsentGuarantee(t: Tables, p: Process, env: Env)
    requires p.pc.ReleasingUnsent? || p.pc.InspectingUnsent? || p.pc.FailingUnsent?
    ensures Guarantee(t, UnsentStep(t, p, env).tables, p.pc)
  {
  }

  lemma SendGuarantee(t: Tables, p: Process, env: Env)
    requires p.pc.Calling? || p.pc.Verifying? || p.pc.Verified? || p.pc.Fetching? || p.pc.ReleasingUnknown?
    ensures Guarantee(t, SendStep(t, p, env).tables, p.pc)
  {
    hide MarkerVerified;
  }

  lemma SettleGuarantee(t: Tables, p: Process, env: Env)
    requires p.pc.Recording? || p.pc.Settling? || p.pc.Processing? || p.pc.FailingSettled? || p.pc.Completing?
    ensures Guarantee(t, SettleStep(t, p, env).tables, p.pc)
  {
    match p.pc
    case Recording(_, _, _) | Processing(_, _, _) =>
      SilentGuarantee(t, SettleStep(t, p, env).tables, p.pc);
      hide Guarantee;
    case Settling(_, _, _) =>
    case FailingSettled(_, _, _, _) | Completing(_, _, _) =>
  }

  lemma UnknownGuarantee(t: Tables, p: Process, env: Env)
    requires p.pc.Marking? || p.pc.Recovering?
    ensures Guarantee(t, UnknownStep(t, p, env).tables, p.pc)
  {
  }

  lemma ReconcileGuarantee(t: Tables, p: Process, env: Env)
    requires ProcessOk(t, p)
    requires p.pc.ReconcileJournal? || p.pc.ReconcilePermit? || p.pc.ReconcileSlot? || p.pc.ReconcileRead?
    ensures Guarantee(t, ReconcileStep(t, p, env).tables, p.pc)
  {
    match p.pc
    case ReconcileJournal(j) =>
      RecoverGuarantee(t, j, env.now.at, p.pc);
      SilentGuarantee(t, t, p.pc);
      hide RecoverWithoutResend, Guarantee;
    case ReconcilePermit(r) =>
      SilentGuarantee(t, ReconcileStep(t, p, env).tables, p.pc);
      hide Guarantee;
    case ReconcileSlot(r) =>
      ResolveGuarantee(t, r, env.now.at, p.pc);
      SilentGuarantee(t, t, p.pc);
      hide ResolveSlot, Guarantee;
    case ReconcileRead(_) => SilentGuarantee(t, t, p.pc);
  }

  lemma RecoverGuarantee(t: Tables, id: nat, now: Instant, pc: Pc)
    ensures var tx := RecoverWithoutResend(t, id, now); tx.Commit? ==> Guarantee(t, tx.tables, pc)
  {
  }

  /** The slot follows a record that stands, so it is completed only after its journal. */
  lemma ResolveGuarantee(t: Tables, r: Record, now: Instant, pc: Pc)
    requires RecordStands(t, r)
    ensures var tx := ResolveSlot(t, ClaimOf(r), r.row.status.Completed?, now);
      tx.Commit? ==> Guarantee(t, tx.tables, pc)
  {
  }

  lemma StepGuarantee(t: Tables, p: Process, env: Env)
    requires ProcessOk(t, p)
    ensures Guarantee(t, Step(t, p, env).tables, p.pc)
  {
    hide Guarantee, ProcessOk, RootStep, AuthorizeStep, UnsentStep, SendStep, SettleStep, UnknownStep, ReconcileStep;
    match p.pc
    case ClaimingSlot(_, _) | Preparing | Finishing(_) | Resolving(_) => RootGuarantee(t, p, env);
    case ClaimingJournal | Authorizing(_) | FailingUnauthorized(_) | ReadingBack(_, _) => AuthorizeGuarantee(t, p, env);
    case ReconcileJournal(_) | ReconcilePermit(_) | ReconcileSlot(_) | ReconcileRead(_) => ReconcileGuarantee(t, p, env);
    case Reconciled(_) | ReconcileRaised | Ended => SilentGuarantee(t, t, p.pc);
    case ReleasingUnsent(_, _) | InspectingUnsent(_, _) | FailingUnsent(_, _) => UnsentGuarantee(t, p, env);
    case Calling(_, _, _) | Verifying(_, _, _) | Verified(_, _, _) | Fetching(_, _) | ReleasingUnknown(_, _) =>
      SendGuarantee(t, p, env);
    case Recording(_, _, _) | Settling(_, _, _) | Processing(_, _, _) | FailingSettled(_, _, _, _) | Completing(_, _, _) =>
      SettleGuarantee(t, p, env);
    case Marking(_, _, _, _, _) | Recovering(_, _, _, _) => UnknownGuarantee(t, p, env);
  }

  // ----- what each step establishes for its own process

  lemma RootKeepsProcess(t: Tables, p: Process, env: Env)
    requires p.pc.ClaimingSlot? || p.pc.Preparing? || p.pc.Finishing? || p.pc.Resolving?
    requires ProcessOk(t, p) && Evolves(t, RootStep(t, p, env).tables)
    ensures ProcessOk(RootStep(t, p, env).tables, RootStep(t, p, env).process)
  {
    if p.pc.Finishing? && p.pc.outcome.Some? {
      assert t.journals[p.pc.outcome.value.journal.id] == p.pc.outcome.value.journal.row;
    }
  }

  lemma AuthorizingKeepsProcess(t: Tables, p: Process, env: Env)
    requires p.pc.Authorizing?
    requires ProcessOk(t, p)
    ensures ProcessOk(AuthorizeStep(t, p, env).tables, AuthorizeStep(t, p, env).process)
  {
    var j := p.pc.journal;
    AuthorizeTouches(t, p.approval, p.runId, j, p.keyHash, env.now, p.cost);
    hide AuthorizeAndStart, RecordStands, SlotJournalCompleted;
    var tx := AuthorizeAndStart(t, p.approval, p.runId, j, p.keyHash, env.now, p.cost);
    var u := After(t, tx, env.fault);
    assert j < |u.journals| && u.journals[j] ==
      t.journals[j].(permit := u.journals[j].permit, status := u.journals[j].status,
                     sendStartedAt := u.journals[j].sendStartedAt, version := u.journals[j].version);
    assert Heard(tx, env.fault).Returned? && tx.result.Granted? ==>
      u.journals[j].permit == Some(tx.result.permit) && u.journals[j].sendStartedAt.Some?;
    hide After;
  }

  lemma AuthorizeKeepsProcess(t: Tables, p: Process, env: Env)
    requires p.pc.ClaimingJournal? || p.pc.ReadingBack?
    requires ProcessOk(t, p)
    ensures ProcessOk(AuthorizeStep(t, p, env).tables, AuthorizeStep(t, p, env).process)
  {
    hide RecordStands, SlotJournalCompleted;
  }

  lemma UnauthorizedKeepsProcess(t: Tables, p: Process, env: Env)
    requires p.pc.FailingUnauthorized?
    requires ProcessOk(t, p) && Evolves(t, AuthorizeStep(t, p, env).tables)
    ensures ProcessOk(AuthorizeStep(t, p, env).tables, AuthorizeStep(t, p, env).process)
  {
    ResolvedStands(t, p.pc.journal, PermitAuthorizationFailed, env.now.at);
    hide ProcessOk, Evolves, FailJournal;
    FinishedOk(t, AuthorizeStep(t, p, env).tables, p, AuthorizeStep(t, p, env).process);
  }

  /** The steps that keep the coordinator's context and only move its program counter. */
  lemma SameContext(t: Tables, u: Tables, p: Process, pc: Pc)
    requires ProcessOk(t, p) && Evolves(t, u)
    requires Owned(p.pc).Some? && Owned(pc) == Owned(p.pc) && Bound(pc) == Bound(p.pc) && Bound(pc).Some?
    requires Answer(pc).None? || Answer(pc) == Answer(p.pc)
    requires !pc.Calling? && !pc.Verifying? && !pc.Verified?
    requires pc.Completing? ==> 200 <= pc.status < 300
    ensures ProcessOk(u, p.(pc := pc))
  {
    ProcessOkStable(t, u, p);
  }

  lemma UnsentKeepsProcess(t: Tables, p: Process, env: Env)
    requires p.pc.ReleasingUnsent? || p.pc.InspectingUnsent? || p.pc.FailingUnsent?
    requires ProcessOk(t, p) && Evolves(t, UnsentStep(t, p, env).tables)
    ensures ProcessOk(UnsentStep(t, p, env).tables, UnsentStep(t, p, env).process)
  {
    var out := UnsentStep(t, p, env);
    hide FailJournal, RecordTransportFailure;
    if p.pc.FailingUnsent? { ResolvedStands(t, p.pc.journal, SendStartFailed, env.now.at); }
    if !p.pc.FailingUnsent? && !out.process.pc.Finishing? {
      SameContext(t, out.tables, p, out.process.pc);
    }
  }

  lemma SendKeepsProcess(t: Tables, p: Process, env: Env)
    requires p.pc.Calling? || p.pc.Verifying? || p.pc.Verified? || p.pc.Fetching? || p.pc.ReleasingUnknown?
    requires ProcessOk(t, p) && Evolves(t, SendStep(t, p, env).tables)
    ensures ProcessOk(SendStep(t, p, env).tables, SendStep(t, p, env).process)
  {
    var out := SendStep(t, p, env);
    if !p.pc.Calling? && !out.process.pc.Verified? {
      SameContext(t, out.tables, p, out.process.pc);
    }
  }

  lemma SettleKeepsProcess(t: Tables, p: Process, env: Env)
    requires p.pc.Recording? || p.pc.Settling? || p.pc.Processing? || p.pc.FailingSettled? || p.pc.Completing?
    requires ProcessOk(t, p) && Evolves(t, SettleStep(t, p, env).tables)
    ensures ProcessOk(SettleStep(t, p, env).tables, SettleStep(t, p, env).process)
  {
    if p.pc.Recording? { RecordingKeepsProcess(t, p, env); } else { SettledKeepsProcess(t, p, env); }
  }

  lemma RecordingKeepsProcess(t: Tables, p: Process, env: Env)
    requires p.pc.Recording? && ProcessOk(t, p) && Evolves(t, SettleStep(t, p, env).tables)
    ensures ProcessOk(SettleStep(t, p, env).tables, SettleStep(t, p, env).process)
  {
    var out := SettleStep(t, p, env);
    if out.process.pc.Settling? {
      ProcessOkStable(t, out.tables, p);
    } else {
      SameContext(t, out.tables, p, out.process.pc);
    }
  }

  lemma SettledKeepsProcess(t: Tables, p: Process, env: Env)
    requires p.pc.Settling? || p.pc.Processing? || p.pc.FailingSettled? || p.pc.Completing?
    requires ProcessOk(t, p) && Evolves(t, SettleStep(t, p, env).tables)
    ensures ProcessOk(SettleStep(t, p, env).tables, SettleStep(t, p, env).process)
  {
    hide ProcessOk, Evolves;
    var out := SettleStep(t, p, env);
    SettledArrives(t, p, env);
    if !out.process.pc.Finishing? {
      assert out.process == p.(pc := out.process.pc);
      CompletingContext(t, p, env);
      hide SettleStep;
      SameContext(t, out.tables, p, out.process.pc);
    } else {
      hide SettleStep;
      FinishedOk(t, out.tables, p, out.process);
    }
  }

  /** Where settling leads, and that a reported row stands. */
  lemma SettledArrives(t: Tables, p: Process, env: Env)
    requires p.pc.Settling? || p.pc.Processing? || p.pc.FailingSettled? || p.pc.Completing?
    ensures var out := SettleStep(t, p, env); var pc := out.process.pc;
      && out.process == p.(pc := pc)
      && (!pc.Finishing? ==>
            && Owned(pc) == Owned(p.pc) && Bound(pc) == Bound(p.pc) && Bound(pc).Some?
            && (Answer(pc).None? || Answer(pc) == Answer(p.pc))
            && !pc.Calling? && !pc.Verifying? && !pc.Verified?)
      && (pc.Finishing? && pc.outcome.Some? ==>
            RecordStands(out.tables, pc.outcome.value.journal) && pc.outcome.value.journal.id == Owned(p.pc).value)
  {
    if p.pc.FailingSettled? { ResolvedStands(t, p.pc.journal, p.pc.code, env.now.at); }
    if p.pc.Completing? { ResolvedStands(t, p.pc.journal, NonSuccessResponse, env.now.at); }
    hide SettleJournal, FailJournal, CompleteJournal, RecordResponse;
  }

  lemma CompletingContext(t: Tables, p: Process, env: Env)
    requires p.pc.Settling? || p.pc.Processing? || p.pc.FailingSettled? || p.pc.Completing?
    ensures var pc := SettleStep(t, p, env).process.pc; pc.Completing? ==> 200 <= pc.status < 300
  {
    hide SettleJournal, FailJournal, CompleteJournal, RecordResponse;
  }

  lemma ResolvedStands(t: Tables, id: nat, code: FailureCode, now: Instant)
    ensures var tx := FailJournal(t, id, code, now);
      tx.Commit? ==> RecordStands(tx.tables, tx.result) && tx.result.id == id
    ensures var tx := CompleteJournal(t, id, now);
      tx.Commit? ==> RecordStands(tx.tables, tx.result) && tx.result.id == id
  {
  }

  /** The reported row is the owner's own journal, whose slot never changes. */
  lemma FinishedOk(t: Tables, u: Tables, p: Process, q: Process)
    requires ProcessOk(t, p) && Evolves(t, u) && Owned(p.pc).Some? && q == p.(pc := q.pc) && q.pc.Finishing?
    requires q.pc.outcome.Some? ==>
      RecordStands(u, q.pc.outcome.value.journal) && q.pc.outcome.value.journal.id == Owned(p.pc).value
    ensures ProcessOk(u, q)
  {
    assert JournalEvolves(t.journals[Owned(p.pc).value], u.journals[Owned(p.pc).value]);
  }

  lemma UnknownKeepsProcess(t: Tables, p: Process, env: Env)
    requires p.pc.Marking? || p.pc.Recovering?
    requires ProcessOk(t, p) && Evolves(t, UnknownStep(t, p, env).tables)
    ensures ProcessOk(UnknownStep(t, p, env).tables, UnknownStep(t, p, env).process)
  {
    hide ProcessOk, Evolves;
    var out := UnknownStep(t, p, env);
    UnknownArrives(t, p, env);
    hide UnknownStep;
    if out.process.pc.Recovering? {
      SameContext(t, out.tables, p, out.process.pc);
    } else {
      FinishedOk(t, out.tables, p, out.process);
    }
  }

  lemma UnknownArrives(t: Tables, p: Process, env: Env)
    requires p.pc.Marking? || p.pc.Recovering?
    ensures var out := UnknownStep(t, p, env); var pc := out.process.pc;
      && out.process == p.(pc := pc) && (pc.Recovering? || pc.Finishing?)
      && (pc.Recovering? ==> Owned(pc) == Owned(p.pc) && Bound(pc) == Bound(p.pc) && Bound(pc).Some? && Answer(pc).None?)
      && (pc.Finishing? && pc.outcome.Some? ==>
            RecordStands(out.tables, pc.outcome.value.journal) && pc.outcome.value.journal.id == Owned(p.pc).value)
  {
    if p.pc.Marking? { MarkedStands(t, p.pc.journal, p.pc.code, env.now.at); }
    RecoveredStands(t, p.pc.journal, env.now.at);
    hide MarkIndeterminate, RecoverWithoutResend;
  }

  lemma MarkedStands(t: Tables, id: nat, code: FailureCode, now: Instant)
    ensures var tx := MarkIndeterminate(t, id, code, now);
      tx.Commit? ==> RecordStands(tx.tables, tx.result) && tx.result.id == id
  {
  }

  /** All that a reconciler knows is the record it is working from. */
  function RecordOf(pc: Pc): Option<Record> {
    match pc
    case ReconcilePermit(r) => Some(r)
    case ReconcileSlot(r) => Some(r)
    case ReconcileRead(r) => Some(r)
    case Reconciled(r) => Some(r)
    case _ => None
  }

  lemma ReconcilerOk(t: Tables, p: Process)
    requires RecordOf(p.pc).Some? || p.pc.ReconcileRaised?
    ensures ProcessOk(t, p) <==> RecordOf(p.pc).None? || RecordStands(t, RecordOf(p.pc).value)
  {
  }

  lemma ReconcileArrives(t: Tables, p: Process, env: Env)
    requires p.pc.ReconcilePermit? || p.pc.ReconcileSlot? || p.pc.ReconcileRead?
    ensures var pc := ReconcileStep(t, p, env).process.pc; pc.ReconcileRaised? || RecordOf(pc) == RecordOf(p.pc)
  {
    hide ResolveSlot, ConsumeUncertainPermit, ReadSlotStatus;
  }

  lemma RecoverArrives(t: Tables, p: Process, env: Env)
    requires p.pc.ReconcileJournal?
    ensures var out := ReconcileStep(t, p, env);
      || out.process.pc.ReconcileRaised?
      || (out.process.pc.ReconcilePermit? && RecordStands(out.tables, out.process.pc.record))
  {
    RecoveredStands(t, p.pc.journal, env.now.at);
    hide RecoverWithoutResend;
  }

  lemma ReconcileKeepsProcess(t: Tables, p: Process, env: Env)
    requires p.pc.ReconcileJournal? || p.pc.ReconcilePermit? || p.pc.ReconcileSlot? || p.pc.ReconcileRead?
    requires ProcessOk(t, p) && Evolves(t, ReconcileStep(t, p, env).tables)
    ensures ProcessOk(ReconcileStep(t, p, env).tables, ReconcileStep(t, p, env).process)
  {
    hide ProcessOk, Evolves, ReconcileStep, RecordStands;
    var out := ReconcileStep(t, p, env);
    if p.pc.ReconcileJournal? {
      RecoverArrives(t, p, env);
    } else {
      ReconcileArrives(t, p, env);
      ReconcilerOk(t, p);
      RecordKept(t, out.tables, RecordOf(p.pc).value);
    }
    ReconcilerOk(out.tables, out.process);
  }

  lemma RecordKept(t: Tables, u: Tables, r: Record)
    requires Evolves(t, u) && RecordStands(t, r)
    ensures RecordStands(u, r)
  {
    assert JournalEvolves(t.journals[r.id], u.journals[r.id]);
  }

  lemma RecoveredStands(t: Tables, id: nat, now: Instant)
    ensures var tx := RecoverWithoutResend(t, id, now);
      tx.Commit? ==> RecordStands(tx.tables, tx.result) && tx.result.id == id
  {
  }

  lemma StepKeepsProcess(t: Tables, p: Process, env: Env)
    requires ProcessOk(t, p) && Evolves(t, Step(t, p, env).tables)
    ensures ProcessOk(Step(t, p, env).tables, Step(t, p, env).process)
  {
    hide ProcessOk, Evolves, RootStep, AuthorizeStep, UnsentStep, SendStep, SettleStep, UnknownStep, ReconcileStep;
    match p.pc
    case ClaimingSlot(_, _) | Preparing | Finishing(_) | Resolving(_) => RootKeepsProcess(t, p, env);
    case Authorizing(_) => AuthorizingKeepsProcess(t, p, env);
    case FailingUnauthorized(_) => UnauthorizedKeepsProcess(t, p, env);
    case ClaimingJournal | ReadingBack(_, _) => AuthorizeKeepsProcess(t, p, env);
    case ReleasingUnsent(_, _) | InspectingUnsent(_, _) | FailingUnsent(_, _) => UnsentKeepsProcess(t, p, env);
    case Calling(_, _, _) | Verifying(_, _, _) | Verified(_, _, _) | Fetching(_, _) | ReleasingUnknown(_, _) =>
      SendKeepsProcess(t, p, env);
    case Recording(_, _, _) | Settling(_, _, _) | Processing(_, _, _) | FailingSettled(_, _, _, _) | Completing(_, _, _) =>
      SettleKeepsProcess(t, p, env);
    case Marking(_, _, _, _, _) | Recovering(_, _, _, _) => UnknownKeepsProcess(t, p, env);
    case ReconcileJournal(_) | ReconcilePermit(_) | ReconcileSlot(_) | ReconcileRead(_) => ReconcileKeepsProcess(t, p, env);
    case Reconciled(_) | ReconcileRaised | Ended =>
  }

  /** A coordinator never takes over a journal: it keeps its own or has just created one. */
  ghost predicate KeepsOwnership(t: Tables, pc: Pc, next: Pc) {
    Owned(next).Some? ==> Owned(next) == Owned(pc) || (pc.ClaimingJournal? && next == Authorizing(|t.journals|))
  }

  lemma EarlyOwnership(t: Tables, p: Process, env: Env)
    requires p.pc.ClaimingJournal? || p.pc.Authorizing? || p.pc.FailingUnauthorized? || p.pc.ReadingBack?
    ensures KeepsOwnership(t, p.pc, AuthorizeStep(t, p, env).process.pc)
  {
    hide AuthorizeAndStart, FailJournal;
  }

  lemma LateOwnership(t: Tables, p: Process, env: Env)
    requires p.pc.Recording? || p.pc.Settling? || p.pc.Processing? || p.pc.FailingSettled? || p.pc.Completing?
    ensures KeepsOwnership(t, p.pc, SettleStep(t, p, env).process.pc)
  {
    hide RecordResponse, SettleJournal, FailJournal, CompleteJournal;
  }

  lemma SendOwnership(t: Tables, p: Process, env: Env)
    requires p.pc.Calling? || p.pc.Verifying? || p.pc.Verified? || p.pc.Fetching? || p.pc.ReleasingUnknown?
    ensures KeepsOwnership(t, p.pc, SendStep(t, p, env).process.pc)
  {
    hide RecordTransportFailure, MarkerVerified;
  }

  lemma UnsentOwnership(t: Tables, p: Process, env: Env)
    requires p.pc.ReleasingUnsent? || p.pc.InspectingUnsent? || p.pc.FailingUnsent?
    ensures KeepsOwnership(t, p.pc, UnsentStep(t, p, env).process.pc)
  {
    hide RecordTransportFailure, FailJournal;
  }

  /** The other steps end the coordinator's work or are not a coordinator's. */
  lemma OtherOwnership(t: Tables, p: Process, env: Env)
    requires p.pc.ClaimingSlot? || p.pc.Preparing? || p.pc.Finishing? || p.pc.Resolving?
          || p.pc.Marking? || p.pc.Recovering?
          || p.pc.ReconcileJournal? || p.pc.ReconcilePermit? || p.pc.ReconcileSlot? || p.pc.ReconcileRead?
          || p.pc.Reconciled? || p.pc.ReconcileRaised? || p.pc.Ended?
    ensures KeepsOwnership(t, p.pc, Step(t, p, env).process.pc)
  {
    hide AuthorizeStep, SettleStep, SendStep, UnsentStep, MarkIndeterminate, RecoverWithoutResend, ClaimSlot,
      ResolveSlot, ConsumeUncertainPermit, ReadSlotStatus;
  }

  lemma StepKeepsOwnership(t: Tables, p: Process, env: Env)
    ensures KeepsOwnership(t, p.pc, Step(t, p, env).process.pc)
  {
    hide KeepsOwnership, RootStep, AuthorizeStep, UnsentStep, SendStep, SettleStep, UnknownStep, ReconcileStep;
    match p.pc
    case ClaimingJournal | Authorizing(_) | FailingUnauthorized(_) | ReadingBack(_, _) => EarlyOwnership(t, p, env);
    case ReleasingUnsent(_, _) | InspectingUnsent(_, _) | FailingUnsent(_, _) => UnsentOwnership(t, p, env);
    case Calling(_, _, _) | Verifying(_, _, _) | Verified(_, _, _) | Fetching(_, _) | ReleasingUnknown(_, _) =>
      SendOwnership(t, p, env);
    case Recording(_, _, _) | Settling(_, _, _) | Processing(_, _, _) | FailingSettled(_, _, _, _) | Completing(_, _, _) =>
      LateOwnership(t, p, env);
    case _ => OtherOwnership(t, p, env);
  }

  /** A settled journal has left the points before the settlement. */
  lemma AuthorizeKeepsUnsettled(t: Tables, p: Process, env: Env)
    requires p.pc.ClaimingJournal? || p.pc.Authorizing? || p.pc.FailingUnauthorized? || p.pc.ReadingBack?
    requires Unsettled(t, p)
    ensures Unsettled(AuthorizeStep(t, p, env).tables, AuthorizeStep(t, p, env).process)
  {
    hide AuthorizeAndStart;
    if p.pc.Authorizing? {
      AuthorizeTouches(t, p.approval, p.runId, p.pc.journal, p.keyHash, env.now, p.cost);
    }
  }

  lemma SendKeepsUnsettled(t: Tables, p: Process, env: Env)
    requires BeforeSettle(p.pc) && Owned(p.pc).Some? && Bound(p.pc).Some?
    requires Unsettled(t, p)
    ensures Unsettled(Step(t, p, env).tables, Step(t, p, env).process)
  {
  }

  lemma StepKeepsUnsettled(t: Tables, p: Process, env: Env)
    requires Unsettled(t, p)
    ensures Unsettled(Step(t, p, env).tables, Step(t, p, env).process)
  {
    hide Unsettled;
    if p.pc.ClaimingJournal? || p.pc.Authorizing? || p.pc.FailingUnauthorized? {
      AuthorizeKeepsUnsettled(t, p, env);
    } else if BeforeSettle(p.pc) && Owned(p.pc).Some? {
      SendKeepsUnsettled(t, p, env);
    } else {
      LaterUnsettled(t, p, env);
    }
  }

  lemma LaterUnsettled(t: Tables, p: Process, env: Env)
    requires !p.pc.ClaimingJournal? && !(BeforeSettle(p.pc) && Owned(p.pc).Some?)
    ensures Unsettled(Step(t, p, env).tables, Step(t, p, env).process)
  {
    hide AuthorizeAndStart, RecordResponse, RecordTransportFailure, ClaimSlot, ResolveSlot, ClaimJournal,
      SettleJournal, CompleteJournal, FailJournal, MarkIndeterminate, RecoverWithoutResend,
      ConsumeUncertainPermit, MarkerVerified;
    assert !(BeforeSettle(Step(t, p, env).process.pc) && Owned(Step(t, p, env).process.pc).Some?);
  }
}
