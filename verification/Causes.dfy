/** What a journal's failure code says about the world: the database alone tells whether
    anything was sent, whether it was answered, and how.  */
module Causes {
  import opened Schema
  import opened Transactions
  import opened Evolution
  import opened Links
  import opened Protocol
  import opened ProcessInvariant
  import opened WorldInvariant
  import opened Theorems
  import opened Fetches
  import opened Moves
  import opened Evidence

  // ----- why a coordinator is about to write a code

  /** The coordinator turns to each of its failure paths for one reason only. */
  ghost predicate HasCause(t: Tables, pc: Pc) {
    match pc
    case ReleasingUnsent(j, _) => j < |t.journals| && t.journals[j].Terminal()
    case InspectingUnsent(j, _) => j < |t.journals| && t.journals[j].Terminal()
    case FailingUnsent(_, _) => false
    case Processing(j, _, _) => j < |t.journals| && t.journals[j].settledAt.Some?
    case Completing(j, _, _) => j < |t.journals| && t.journals[j].settledAt.Some?
    case FailingSettled(j, _, status, code) =>
      && j < |t.journals| && t.journals[j].settledAt.Some?
      && code == if 200 <= status < 300 then ResponseProcessingFailed else NonSuccessResponse
    case Marking(j, _, code, attempted, response) =>
      && attempted
      && (|| (code.TransportResultUnknown? && response.None?)
          || (code.PermitSettlementUnknown? && response.Some?)
          || (code.JournalSettlementFailed? && response.Some? && j < |t.journals| && t.journals[j].Terminal()))
    case _ => true
  }

  lemma HasCauseStable(t: Tables, u: Tables, pc: Pc)
    requires Evolves(t, u) && HasCause(t, pc)
    ensures HasCause(u, pc)
  {
    if Owned(pc).Some? && Owned(pc).value < |t.journals| {
      assert JournalEvolves(t.journals[Owned(pc).value], u.journals[Owned(pc).value]);
    }
    if (pc.ReleasingUnsent? || pc.InspectingUnsent? || pc.Marking?) && pc.journal < |t.journals| {
      assert JournalEvolves(t.journals[pc.journal], u.journals[pc.journal]);
    }
  }

  lemma ReadBackCause(t: Tables, p: Process, env: Env)
    requires Good(t) && ProcessOk(t, p) && Unsettled(t, p) && p.pc.ReadingBack?
    ensures HasCause(t, AuthorizeStep(t, p, env).process.pc)
  {
    assert JournalRowOk(t, t.journals[p.pc.journal]);
    hide Good;
  }

  lemma AuthorizingCause(t: Tables, p: Process, env: Env)
    requires ProcessOk(t, p) && p.pc.Authorizing?
    ensures HasCause(AuthorizeStep(t, p, env).tables, AuthorizeStep(t, p, env).process.pc)
  {
    GrantCarriesClaim(t, p, env);
    hide AuthorizeAndStart, ProcessOk;
  }

  lemma UnsentCause(t: Tables, p: Process, env: Env)
    requires p.pc.ReleasingUnsent? || p.pc.InspectingUnsent? || p.pc.FailingUnsent?
    requires HasCause(t, p.pc)
    ensures HasCause(UnsentStep(t, p, env).tables, UnsentStep(t, p, env).process.pc)
  {
  }

  lemma SettlingCause(t: Tables, p: Process, env: Env)
    requires Good(t) && ProcessOk(t, p) && Unsettled(t, p) && p.pc.Settling?
    ensures HasCause(SettleStep(t, p, env).tables, SettleStep(t, p, env).process.pc)
  {
    assert JournalRowOk(t, t.journals[p.pc.journal]);
    hide Good;
  }

  lemma SettleCause(t: Tables, p: Process, env: Env)
    requires p.pc.Recording? || p.pc.Processing? || p.pc.FailingSettled? || p.pc.Completing?
    requires HasCause(t, p.pc)
    ensures HasCause(SettleStep(t, p, env).tables, SettleStep(t, p, env).process.pc)
  {
    hide RecordResponse, FailJournal, CompleteJournal, SettleJournal;
  }

  lemma SendCause(t: Tables, p: Process, env: Env)
    requires p.pc.Calling? || p.pc.Verifying? || p.pc.Verified? || p.pc.Fetching? || p.pc.ReleasingUnknown?
    ensures HasCause(SendStep(t, p, env).tables, SendStep(t, p, env).process.pc)
  {
    hide RecordTransportFailure, MarkerVerified;
  }

  /** The other steps lead to no failure path. */
  lemma OtherCause(t: Tables, p: Process, env: Env)
    requires p.pc.ClaimingSlot? || p.pc.Preparing? || p.pc.Finishing? || p.pc.Resolving?
          || p.pc.ClaimingJournal? || p.pc.FailingUnauthorized? || p.pc.Marking? || p.pc.Recovering?
          || p.pc.ReconcileJournal? || p.pc.ReconcilePermit? || p.pc.ReconcileSlot? || p.pc.ReconcileRead?
          || p.pc.Reconciled? || p.pc.ReconcileRaised? || p.pc.Ended?
    ensures HasCause(Step(t, p, env).tables, Step(t, p, env).process.pc)
  {
    hide SettleStep, SendStep, UnsentStep, MarkIndeterminate, RecoverWithoutResend, ClaimSlot, ClaimJournal, FailJournal,
      ResolveSlot, ConsumeUncertainPermit, ReadSlotStatus, AuthorizeAndStart;
  }

  lemma StepHasCause(t: Tables, p: Process, env: Env)
    requires Good(t) && ProcessOk(t, p) && Unsettled(t, p) && HasCause(t, p.pc)
    ensures HasCause(Step(t, p, env).tables, Step(t, p, env).process.pc)
  {
    hide Good, ProcessOk, Unsettled, HasCause, AuthorizeStep, UnsentStep, SettleStep, UnknownStep, RootStep, SendStep, ReconcileStep;
    match p.pc
    case Authorizing(_) => AuthorizingCause(t, p, env);
    case ReadingBack(_, _) => ReadBackCause(t, p, env); ReadsOnly(t, p, env);
    case ReleasingUnsent(_, _) | InspectingUnsent(_, _) | FailingUnsent(_, _) => UnsentCause(t, p, env);
    case Calling(_, _, _) | Verifying(_, _, _) | Verified(_, _, _) | Fetching(_, _) | ReleasingUnknown(_, _) => SendCause(t, p, env);
    case Settling(_, _, _) => SettlingCause(t, p, env);
    case Recording(_, _, _) | Processing(_, _, _) | FailingSettled(_, _, _, _) | Completing(_, _, _) => SettleCause(t, p, env);
    case _ => OtherCause(t, p, env);
  }

  lemma ReadsOnly(t: Tables, p: Process, env: Env)
    requires p.pc.ReadingBack?
    ensures AuthorizeStep(t, p, env).tables == t
  {
  }

  // ----- what a code in a row means

  /** The permit of the row was consumed with this status. */
  ghost predicate SettledWith(t: Tables, row: Journal, status: int) {
    && row.settledAt.Some? && row.permit.Some? && row.permit.value < |t.permits|
    && t.permits[row.permit.value].status.Consumed?
    && t.permits[row.permit.value].response == Some(status)
  }

  ghost predicate FailedTells(t: Tables, row: Journal, code: FailureCode) {
    match code
    case PermitAuthorizationFailed | RecoveryBeforeSend => row.permit.None?
    case NonSuccessResponse => exists s: int :: SettledWith(t, row, s) && !(200 <= s < 300)
    case ResponseProcessingFailed => exists s: int :: SettledWith(t, row, s) && 200 <= s < 300
    case RecoveryAfterSettlement => row.settledAt.Some?
    case _ => false
  }

  ghost predicate Unheard(w: World, j: nat) {
    forall s: int :: !HasAnswer(w.answers, j, s)
  }

  ghost predicate LostTells(w: World, j: nat, code: FailureCode) {
    match code
    case TransportResultUnknown => Called(w.sent, j) && Unheard(w, j) && Retired(w, j)
    case PermitSettlementUnknown => Called(w.sent, j) && !Unheard(w, j)
    case RecoveryUnknownExternalEffect => true
    case _ => false
  }

  ghost predicate CodeTells(w: World, j: nat)
    requires j < |w.tables.journals|
  {
    var row := w.tables.journals[j];
    && (row.status.Failed? && row.failure.Some? ==> FailedTells(w.tables, row, row.failure.value))
    && (row.status.Indeterminate? && row.failure.Some? ==> LostTells(w, j, row.failure.value))
  }

  /** An unchanged row goes on telling the same. */
  lemma KeptCode(w: World, v: World, j: nat)
    requires j < |w.tables.journals| && Evolves(w.tables, v.tables) && v.tables.journals[j] == w.tables.journals[j]
    requires Called(w.sent, j) ==> Called(v.sent, j)
    requires forall s: int :: HasAnswer(w.answers, j, s) ==> HasAnswer(v.answers, j, s)
    requires Retired(w, j) ==> Retired(v, j) && SameLogs(w, v, j)
    requires CodeTells(w, j)
    ensures CodeTells(v, j)
  {
    var row := w.tables.journals[j];
    hide Called, HasAnswer, Retired;
    if row.status.Failed? && row.failure.Some? && exists s: int :: SettledWith(w.tables, row, s) {
      var s: int :| SettledWith(w.tables, row, s);
      assert PermitEvolves(w.tables.permits[row.permit.value], v.tables.permits[row.permit.value]);
      assert SettledWith(v.tables, row, s);
    }
    hide Evolves;
  }

  /** A row that is failed now fails for the reason its actor has. */
  lemma FailedCode(t: Tables, p: Process, j: nat, now: Instant, after: Journal)
    requires Good(t) && ProcessOk(t, p) && Unsettled(t, p) && HasCause(t, p.pc)
    requires j < |t.journals| && JournalMove(p.pc, j, now, t.journals[j], after) && after.status.Failed?
    ensures after.failure.Some? && FailedTells(t, after, after.failure.value)
  {
    assert JournalRowOk(t, t.journals[j]);
    if p.pc.FailingSettled? && p.pc.journal == j { assert t.permits[p.pc.permit].response == Some(p.pc.status); }
    hide Good;
    if p.pc.FailingSettled? && p.pc.journal == j { assert SettledWith(t, after, p.pc.status); }
  }

  lemma FailedTellsLater(t: Tables, u: Tables, row: Journal, code: FailureCode)
    requires Evolves(t, u) && FailedTells(t, row, code)
    ensures FailedTells(u, row, code)
  {
    if exists s: int :: SettledWith(t, row, s) {
      var s: int :| SettledWith(t, row, s);
      assert PermitEvolves(t.permits[row.permit.value], u.permits[row.permit.value]);
      assert SettledWith(u, row, s);
    }
  }

  /** A row is lost to view by its own coordinator, which then knows the history, or by recovery. */
  lemma LostCode(t: Tables, p: Process, j: nat, now: Instant, after: Journal)
    requires HasCause(t, p.pc)
    requires j < |t.journals| && JournalMove(p.pc, j, now, t.journals[j], after) && after.status.Indeterminate?
    ensures after.failure.Some?
    ensures || after.failure.value.RecoveryUnknownExternalEffect?
            || (&& p.pc.Marking? && p.pc.journal == j && p.pc.attempted && after.failure.value == p.pc.code
                && (|| (p.pc.code.TransportResultUnknown? && p.pc.response.None?)
                    || (p.pc.code.PermitSettlementUnknown? && p.pc.response.Some?)))
  {
  }

  /** The coordinator that marks its journal leaves it. */
  lemma MarkedLeaves(t: Tables, p: Process, env: Env)
    requires p.pc.Marking? && Step(t, p, env).tables != t
    ensures Step(t, p, env).process.pc.Finishing? && Step(t, p, env).effect.Nothing?
  {
  }

  // ----- every event

  lemma LogsMonotone(w: World, e: Event, j: nat)
    ensures Called(w.sent, j) ==> Called(Next(w, e).sent, j)
    ensures forall s: int :: HasAnswer(w.answers, j, s) ==> HasAnswer(Next(w, e).answers, j, s)
  {
    AnswersKept(w, e);
    var v := Next(w, e);
    assert w.sent <= v.sent;
    hide Next, HasAnswer;
    if Called(w.sent, j) {
      var i :| 0 <= i < |w.sent| && w.sent[i].journal == j;
      assert v.sent[i].journal == j;
    }
  }

  ghost predicate CauseInv(w: World) {
    && (forall i :: 0 <= i < |w.processes| ==> HasCause(w.tables, w.processes[i].pc))
    && (forall j :: 0 <= j < |w.tables.journals| ==> CodeTells(w, j))
  }

  lemma ActMarks(w: World, pid: nat, env: Env, j: nat)
    requires EvidenceInv(w) && pid < |w.processes| && j < |w.tables.journals|
    requires var p := w.processes[pid]; p.pc.Marking? && p.pc.journal == j && p.pc.attempted
    requires Step(w.tables, w.processes[pid], env).tables != w.tables
    requires Evolves(w.tables, Next(w, Act(pid, env)).tables)
    ensures var v := Next(w, Act(pid, env));
      && Called(v.sent, j)
      && (w.processes[pid].pc.response.None? ==> Unheard(v, j) && Retired(v, j))
      && (w.processes[pid].pc.response.Some? ==> !Unheard(v, j))
  {
    var p, v := w.processes[pid], Next(w, Act(pid, env));
    assert Truthful(w, p.pc) && Owned(p.pc) == Some(j) && Tried(p.pc) && HeardStatus(p.pc) == p.pc.response;
    ActMoves(w, pid, env);
    MarkedLeaves(w.tables, p, env);
    assert v.sent == w.sent && v.answers == w.answers;
    assert |w.tables.journals| <= |v.tables.journals|;
    FinishedOwnsNothing(v.processes[pid].pc);
    hide Step, Next, Evolves, Called, HasAnswer, Tried, HeardStatus, Truthful;
    forall i | 0 <= i < |v.processes| ensures Owned(v.processes[i].pc) != Some(j) {
      if i != pid { OwnedIsHeld(w.processes[i].pc); FinishedOwnsNothing(w.processes[i].pc); }
    }
    if p.pc.response.Some? { assert HasAnswer(v.answers, j, p.pc.response.value); }
  }

  lemma ActCode(w: World, pid: nat, env: Env, j: nat)
    requires WorldInv(w) && EvidenceInv(w) && CauseInv(w) && pid < |w.processes|
    requires j < |Next(w, Act(pid, env)).tables.journals|
    ensures CodeTells(Next(w, Act(pid, env)), j)
  {
    var p, e := w.processes[pid], Act(pid, env);
    var t, v := w.tables, Next(w, e);
    NextKeepsWorld(w, e);
    assert Good(t) && ProcessOk(t, p) && Unsettled(t, p) && HasCause(t, p.pc);
    assert j < |t.journals| ==> CodeTells(w, j);
    hide WorldInv, CauseInv, Good, ProcessOk, Unsettled, HasCause, CodeTells, EvidenceInv, Step, Next, Evolves;
    ActMoves(w, pid, env);
    StepMovesJournals(t, p, env);
    hide JournalMove;
    if j >= |t.journals| {
      OpenRow(v, j);
    } else if v.tables.journals[j] == t.journals[j] {
      LogsMonotone(w, e, j);
      if Retired(w, j) { ActRetired(w, pid, env, j); }
      KeptCode(w, v, j);
    } else {
      MovedTells(w, pid, env, j);
    }
  }

  lemma MovedTells(w: World, pid: nat, env: Env, j: nat)
    requires Good(w.tables) && EvidenceInv(w) && pid < |w.processes| && j < |w.tables.journals|
    requires var p := w.processes[pid];
      ProcessOk(w.tables, p) && Unsettled(w.tables, p) && HasCause(w.tables, p.pc)
    requires var v := Next(w, Act(pid, env));
      && Evolves(w.tables, v.tables) && j < |v.tables.journals| && v.tables == Step(w.tables, w.processes[pid], env).tables
      && v.tables.journals[j] != w.tables.journals[j]
      && JournalMove(w.processes[pid].pc, j, env.now.at, w.tables.journals[j], v.tables.journals[j])
    ensures CodeTells(Next(w, Act(pid, env)), j)
  {
    hide *;
    var p, v := w.processes[pid], Next(w, Act(pid, env));
    var after := v.tables.journals[j];
    if after.status.Failed? {
      FailedCode(w.tables, p, j, env.now.at, after);
      FailedTellsLater(w.tables, v.tables, after, after.failure.value);
      FailedRow(v, j);
    } else if after.status.Indeterminate? {
      LostCode(w.tables, p, j, env.now.at, after);
      if !after.failure.value.RecoveryUnknownExternalEffect? { ActMarks(w, pid, env, j); }
      LostRow(v, j);
    } else {
      OpenRow(v, j);
    }
  }

  lemma FailedRow(v: World, j: nat)
    requires j < |v.tables.journals|
    requires var row := v.tables.journals[j];
      row.status.Failed? && row.failure.Some? && FailedTells(v.tables, row, row.failure.value)
    ensures CodeTells(v, j)
  {
  }

  lemma LostRow(v: World, j: nat)
    requires j < |v.tables.journals|
    requires var row := v.tables.journals[j];
      && row.status.Indeterminate? && row.failure.Some?
      && (row.failure.value.TransportResultUnknown? ==> Called(v.sent, j) && Unheard(v, j) && Retired(v, j))
      && (row.failure.value.PermitSettlementUnknown? ==> Called(v.sent, j) && !Unheard(v, j))
      && (row.failure.value.TransportResultUnknown? || row.failure.value.PermitSettlementUnknown?
          || row.failure.value.RecoveryUnknownExternalEffect?)
    ensures CodeTells(v, j)
  {
    hide Called, Unheard, Retired;
  }

  lemma OpenRow(v: World, j: nat)
    requires j < |v.tables.journals|
    requires var row := v.tables.journals[j]; !row.status.Failed? && !row.status.Indeterminate?
    ensures CodeTells(v, j)
  {
  }

  lemma ActCauses(w: World, pid: nat, env: Env)
    requires WorldInv(w) && EvidenceInv(w) && CauseInv(w) && pid < |w.processes|
    ensures CauseInv(Next(w, Act(pid, env)))
  {
    var p, v := w.processes[pid], Next(w, Act(pid, env));
    NextKeepsWorld(w, Act(pid, env));
    assert Good(w.tables) && ProcessOk(w.tables, p) && Unsettled(w.tables, p);
    forall j | 0 <= j < |v.tables.journals| ensures CodeTells(v, j) { ActCode(w, pid, env, j); }
    hide WorldInv, Good, ProcessOk, Unsettled, HasCause, CodeTells, EvidenceInv, Step, Next, Evolves;
    ActMoves(w, pid, env);
    StepHasCause(w.tables, p, env);
    forall i | 0 <= i < |v.processes| ensures HasCause(v.tables, v.processes[i].pc) {
      if i != pid { HasCauseStable(w.tables, v.tables, w.processes[i].pc); }
    }
  }

  lemma IdleCauses(w: World, e: Event)
    requires WorldInv(w) && CauseInv(w) && !(e.Act? && e.pid < |w.processes|)
    ensures CauseInv(Next(w, e))
  {
    var v := Next(w, e);
    NextKeepsWorld(w, e);
    IdleForm(w, e);
    hide WorldInv, HasCause, CodeTells, Next, Evolves, Starts;
    forall i | 0 <= i < |v.processes| ensures HasCause(v.tables, v.processes[i].pc) {
      if Starts(v.processes[i].pc) { StartsCauseless(v.tables, v.processes[i].pc); } else { HasCauseStable(w.tables, v.tables, w.processes[i].pc); }
    }
    forall j | 0 <= j < |v.tables.journals| ensures CodeTells(v, j) {
      assert CodeTells(w, j);
      if Retired(w, j) { IdleRetired(w, e, j); }
      hide Retired, SameLogs;
      KeptCode(w, v, j);
    }
  }

  lemma IdleForm(w: World, e: Event)
    requires !(e.Act? && e.pid < |w.processes|)
    ensures var v := Next(w, e);
      && v.tables.journals == w.tables.journals && v.sent == w.sent && v.answers == w.answers
      && forall i :: 0 <= i < |v.processes| ==>
           (i < |w.processes| && v.processes[i].pc == w.processes[i].pc) || Starts(v.processes[i].pc)
  {
    if e.Client? { CallTouches(w.tables, e.approval, e.runId, e.call, e.now); }
    hide CallTx;
  }

  lemma StartsCauseless(t: Tables, pc: Pc)
    requires Starts(pc)
    ensures HasCause(t, pc)
  {
  }

  lemma {:induction false} CausesHold(events: seq<Event>)
    ensures CauseInv(Run(GENESIS, events))
  {
    if events != [] {
      var before, e := events[..|events| - 1], events[|events| - 1];
      var w := Run(GENESIS, before);
      CausesHold(before);
      EvidenceHolds(before);
      Reachable(before);
      hide WorldInv, EvidenceInv, CauseInv, Next;
      if e.Act? && e.pid < |w.processes| { ActCauses(w, e.pid, e.env); } else { IdleCauses(w, e); }
    }
  }

  // ----- the theorem

  lemma SettledHeard(w: World, j: nat, status: int)
    requires j < |w.tables.journals| && SettledOk(w, j) && SettledWith(w.tables, w.tables.journals[j], status)
    ensures HasAnswer(w.answers, j, status)
  {
  }

  lemma NothingBound(w: World, j: nat)
    requires LogsOk(w) && j < |w.tables.journals| && w.tables.journals[j].permit.None?
    ensures !Called(w.sent, j)
  {
    forall i | 0 <= i < |w.sent| ensures w.sent[i].journal != j { assert MarkOk(w.tables, w.sent[i]); }
  }

  /** The failure code of a row says whether the sender was called for its journal and what
      was heard.  Three of the codes are never written.  */
  ghost predicate CodeIsTrue(w: World, j: nat)
    requires j < |w.tables.journals|
  {
    var row := w.tables.journals[j];
    && (row.failure.Some? <==> row.status.Failed? || row.status.Indeterminate?)
    && (row.failure.Some? ==>
          match row.failure.value
          case PermitAuthorizationFailed | RecoveryBeforeSend => row.status.Failed? && !Called(w.sent, j)
          case NonSuccessResponse => row.status.Failed? && exists s: int :: HasAnswer(w.answers, j, s) && !(200 <= s < 300)
          case ResponseProcessingFailed => row.status.Failed? && exists s: int :: HasAnswer(w.answers, j, s) && 200 <= s < 300
          case RecoveryAfterSettlement => row.status.Failed? && exists s: int :: HasAnswer(w.answers, j, s)
          case TransportResultUnknown =>
            row.status.Indeterminate? && Called(w.sent, j) && forall s: int :: !HasAnswer(w.answers, j, s)
          case PermitSettlementUnknown =>
            row.status.Indeterminate? && Called(w.sent, j) && exists s: int :: HasAnswer(w.answers, j, s)
          case RecoveryUnknownExternalEffect => row.status.Indeterminate?
          case SendStartFailed | SendStartCommitUnknown | JournalSettlementFailed => false)
  }

  /** In every reachable state every failure code is true. */
  lemma FailureCodesTell(events: seq<Event>, j: nat)
    requires j < |Run(GENESIS, events).tables.journals|
    ensures CodeIsTrue(Run(GENESIS, events), j)
  {
    var w := Run(GENESIS, events);
    Reachable(events);
    CausesHold(events);
    assert LogsOk(w) && SettledOk(w, j) && JournalRowOk(w.tables, w.tables.journals[j]) && CodeTells(w, j);
    hide Run, WorldInv, CauseInv, LogsOk, Called, HasAnswer, CodeIsTrue;
    RowTells(w, j);
  }

  lemma RowTells(w: World, j: nat)
    requires LogsOk(w) && j < |w.tables.journals| && SettledOk(w, j) && JournalShape(w.tables.journals[j]) && CodeTells(w, j)
    ensures CodeIsTrue(w, j)
  {
    var row := w.tables.journals[j];
    if row.permit.None? { NothingBound(w, j); }
    forall s: int | SettledWith(w.tables, row, s) ensures HasAnswer(w.answers, j, s) { SettledHeard(w, j, s); }
    hide LogsOk, Called, HasAnswer, Retired, SettledWith;
  }

  // ----- when the owner's own writes are refused

  /** The coordinator's next write to its own journal commits, and if it does not, somebody
      has closed the journal before it.  Before the authorization is known to have failed the
      send may also have been started by a commit that the coordinator did not hear of.  */
  ghost predicate WritesUnlessClosed(t: Tables, pc: Pc, now: Instant) {
    match pc
    case FailingUnauthorized(j) =>
      && j < |t.journals|
      && (FailJournal(t, j, PermitAuthorizationFailed, now).Commit? <==> t.journals[j].status.Claimed?)
      && (t.journals[j].status.Claimed? || t.journals[j].status.SendStarted? || t.journals[j].Terminal())
    case Settling(j, permit, _) =>
      j < |t.journals| && (SettleJournal(t, j, permit, now).Commit? <==> !t.journals[j].Terminal())
    case Completing(j, _, _) => j < |t.journals| && (CompleteJournal(t, j, now).Commit? <==> !t.journals[j].Terminal())
    case FailingSettled(j, _, _, code) =>
      j < |t.journals| && (FailJournal(t, j, code, now).Commit? <==> !t.journals[j].Terminal())
    case Marking(j, _, code, _, _) =>
      j < |t.journals| && (MarkIndeterminate(t, j, code, now).Commit? <==> !t.journals[j].Terminal())
    case Recovering(j, _, _, _) => j < |t.journals| && RecoverWithoutResend(t, j, now).Commit?
    case _ => true
  }

  /** In every reachable state a coordinator is refused only by a recovery that came first. */
  lemma OwnersWriteUnlessClosed(events: seq<Event>, pid: nat, now: Instant)
    requires pid < |Run(GENESIS, events).processes|
    ensures var w := Run(GENESIS, events); WritesUnlessClosed(w.tables, w.processes[pid].pc, now)
  {
    var w := Run(GENESIS, events);
    Reachable(events);
    CausesHold(events);
    var p := w.processes[pid];
    assert Good(w.tables) && ProcessOk(w.tables, p) && Unsettled(w.tables, p) && HasCause(w.tables, p.pc);
    hide Run, WorldInv, CauseInv, Good, ProcessOk, Unsettled, HasCause, WritesUnlessClosed;
    OwnerWrites(w.tables, p, now);
  }

  lemma OwnerWrites(t: Tables, p: Process, now: Instant)
    requires Good(t) && ProcessOk(t, p) && Unsettled(t, p) && HasCause(t, p.pc)
    ensures WritesUnlessClosed(t, p.pc, now)
  {
    if Owned(p.pc).Some? { assert JournalRowOk(t, t.journals[Owned(p.pc).value]); }
    hide Good, PermitLinked;
  }
}
