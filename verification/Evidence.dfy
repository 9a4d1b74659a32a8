/** What `execute` answers about the outside world, compared with the log of what was
    really sent and heard.  */
module Evidence {
  import opened Schema
  import opened Transactions
  import opened Evolution
  import opened Budget
  import opened Links
  import opened Protocol
  import opened ProcessInvariant
  import opened WorldInvariant

  // ----- what a coordinator would answer at each point

  /** The journal a coordinator works on or has just reported. */
  function Held(pc: Pc): Option<nat> {
    if pc.Finishing? then (if pc.outcome.Some? then Some(pc.outcome.value.journal.id) else None) else Owned(pc)
  }

  /** It holds that the sender was called. */
  predicate Tried(pc: Pc) {
    match pc
    case Marking(_, _, _, attempted, _) => attempted
    case Recovering(_, _, attempted, _) => attempted
    case Finishing(outcome) => outcome.Some? && outcome.value.attempted
    case Verifying(_, _, _) | Verified(_, _, _) | Fetching(_, _) | ReleasingUnknown(_, _) => true
    case Recording(_, _, _) | Settling(_, _, _) | Processing(_, _, _) => true
    case FailingSettled(_, _, _, _) | Completing(_, _, _) => true
    case _ => false
  }

  /** The status it holds for the one that was heard. */
  function HeardStatus(pc: Pc): Option<int> {
    match pc
    case Marking(_, _, _, _, response) => response
    case Recovering(_, _, _, response) => response
    case Finishing(outcome) => if outcome.Some? then outcome.value.response else None
    case Recording(_, _, status) => Some(status)
    case Settling(_, _, status) => Some(status)
    case Processing(_, _, status) => Some(status)
    case FailingSettled(_, _, status, _) => Some(status)
    case Completing(_, _, status) => Some(status)
    case _ => None
  }

  ghost predicate Truthful(w: World, pc: Pc) {
    Held(pc).Some? ==>
      var j := Held(pc).value;
      && (Tried(pc) <==> Called(w.sent, j))
      && (forall s: int :: HeardStatus(pc) == Some(s) <==> HasAnswer(w.answers, j, s))
  }

  /** The permit in the answer is the row's own, and absent when the row has none. */
  predicate ReportsPermit(pc: Pc) {
    pc.Finishing? && pc.outcome.Some? ==> pc.outcome.value.permit == pc.outcome.value.journal.row.permit
  }

  ghost predicate EvidenceInv(w: World) {
    && (forall i :: 0 <= i < |w.processes| ==> Truthful(w, w.processes[i].pc))
    && (forall i :: 0 <= i < |w.processes| ==> ReportsPermit(w.processes[i].pc))
    && (forall i, k :: 0 <= i < k < |w.processes| && Held(w.processes[i].pc).Some? ==>
          Held(w.processes[i].pc) != Held(w.processes[k].pc))
  }

  // ----- one step's effect and what it makes of the answer

  ghost predicate Follows(t: Tables, pc: Pc, effect: Effect, next: Pc) {
    && (effect.SendCalled? ==> Held(pc) == Some(effect.mark.journal) && Held(next) == Held(pc))
    && (effect.ResponseHeard? ==>
          && Held(pc) == Some(effect.journal) && Held(next) == Held(pc)
          && HeardStatus(pc).None? && HeardStatus(next) == Some(effect.status))
    && (Held(next).Some? ==>
          || (&& Held(next) == Held(pc)
              && (Tried(next) <==> Tried(pc) || effect.SendCalled?)
              && (!effect.ResponseHeard? ==> HeardStatus(next) == HeardStatus(pc)))
          || (pc.ClaimingJournal? && effect.Nothing? && next == Authorizing(|t.journals|)))
  }

  lemma AuthorizeFollows(t: Tables, p: Process, env: Env)
    requires p.pc.ClaimingJournal? || p.pc.Authorizing? || p.pc.FailingUnauthorized? || p.pc.ReadingBack?
    ensures Follows(t, p.pc, AuthorizeStep(t, p, env).effect, AuthorizeStep(t, p, env).process.pc)
  {
    hide AuthorizeAndStart;
  }

  lemma UnsentFollows(t: Tables, p: Process, env: Env)
    requires p.pc.ReleasingUnsent? || p.pc.InspectingUnsent? || p.pc.FailingUnsent?
    ensures Follows(t, p.pc, UnsentStep(t, p, env).effect, UnsentStep(t, p, env).process.pc)
  {
    hide RecordTransportFailure;
  }

  lemma SendFollows(t: Tables, p: Process, env: Env)
    requires p.pc.Calling? || p.pc.Verifying? || p.pc.Verified? || p.pc.Fetching? || p.pc.ReleasingUnknown?
    ensures Follows(t, p.pc, SendStep(t, p, env).effect, SendStep(t, p, env).process.pc)
  {
    hide RecordTransportFailure, MarkerVerified;
  }

  lemma SettleFollows(t: Tables, p: Process, env: Env)
    requires p.pc.Recording? || p.pc.Settling? || p.pc.Processing? || p.pc.FailingSettled? || p.pc.Completing?
    ensures Follows(t, p.pc, SettleStep(t, p, env).effect, SettleStep(t, p, env).process.pc)
  {
    if p.pc.FailingSettled? || p.pc.Completing? {
      hide Follows, SettleStep;
      ClosingFollows(t, p, env);
    } else {
      hide RecordResponse, SettleJournal, FailJournal, CompleteJournal;
    }
  }

  lemma ClosingFollows(t: Tables, p: Process, env: Env)
    requires p.pc.FailingSettled? || p.pc.Completing?
    ensures Follows(t, p.pc, SettleStep(t, p, env).effect, SettleStep(t, p, env).process.pc)
  {
    if p.pc.FailingSettled? { ResolvedStands(t, p.pc.journal, p.pc.code, env.now.at); }
    if p.pc.Completing? { ResolvedStands(t, p.pc.journal, NonSuccessResponse, env.now.at); }
    hide RecordResponse, SettleJournal, FailJournal, CompleteJournal, RecordStands;
  }

  lemma UnknownFollows(t: Tables, p: Process, env: Env)
    requires p.pc.Marking? || p.pc.Recovering?
    ensures Follows(t, p.pc, UnknownStep(t, p, env).effect, UnknownStep(t, p, env).process.pc)
  {
  }

  lemma RootFollows(t: Tables, p: Process, env: Env)
    requires p.pc.ClaimingSlot? || p.pc.Preparing? || p.pc.Finishing? || p.pc.Resolving?
    ensures Follows(t, p.pc, RootStep(t, p, env).effect, RootStep(t, p, env).process.pc)
  {
    hide ClaimSlot, ResolveSlot;
  }

  lemma ReconcileFollows(t: Tables, p: Process, env: Env)
    requires p.pc.ReconcileJournal? || p.pc.ReconcilePermit? || p.pc.ReconcileSlot? || p.pc.ReconcileRead?
    ensures Follows(t, p.pc, ReconcileStep(t, p, env).effect, ReconcileStep(t, p, env).process.pc)
  {
    hide RecoverWithoutResend, ConsumeUncertainPermit, ResolveSlot, ReadSlotStatus;
  }

  lemma StepFollows(t: Tables, p: Process, env: Env)
    ensures Follows(t, p.pc, Step(t, p, env).effect, Step(t, p, env).process.pc)
  {
    hide Follows, RootStep, AuthorizeStep, UnsentStep, SendStep, SettleStep, UnknownStep, ReconcileStep;
    match p.pc
    case ClaimingSlot(_, _) | Preparing | Finishing(_) | Resolving(_) => RootFollows(t, p, env);
    case ClaimingJournal | Authorizing(_) | FailingUnauthorized(_) | ReadingBack(_, _) => AuthorizeFollows(t, p, env);
    case ReleasingUnsent(_, _) | InspectingUnsent(_, _) | FailingUnsent(_, _) => UnsentFollows(t, p, env);
    case Calling(_, _, _) | Verifying(_, _, _) | Verified(_, _, _) | Fetching(_, _) | ReleasingUnknown(_, _) =>
      SendFollows(t, p, env);
    case Recording(_, _, _) | Settling(_, _, _) | Processing(_, _, _) | FailingSettled(_, _, _, _) | Completing(_, _, _) =>
      SettleFollows(t, p, env);
    case Marking(_, _, _, _, _) | Recovering(_, _, _, _) => UnknownFollows(t, p, env);
    case ReconcileJournal(_) | ReconcilePermit(_) | ReconcileSlot(_) | ReconcileRead(_) => ReconcileFollows(t, p, env);
    case Reconciled(_) | ReconcileRaised | Ended => hide *; IdleFollows(t, p);
  }

  lemma IdleFollows(t: Tables, p: Process)
    requires p.pc.Reconciled? || p.pc.ReconcileRaised? || p.pc.Ended?
    ensures Follows(t, p.pc, Nothing, p.pc)
  {
  }

  // ----- the permit in the answer

  /** A terminal write keeps the row's permit. */
  lemma ResolvedKeepsPermit(t: Tables, id: nat, code: FailureCode, now: Instant)
    ensures var tx := FailJournal(t, id, code, now); tx.Commit? ==>
      id < |t.journals| && tx.result.row.permit == t.journals[id].permit && (t.journals[id].status.Claimed? || t.journals[id].status.Settled?)
    ensures var tx := CompleteJournal(t, id, now); tx.Commit? ==>
      id < |t.journals| && tx.result.row.permit == t.journals[id].permit
    ensures var tx := MarkIndeterminate(t, id, code, now); tx.Commit? ==>
      id < |t.journals| && tx.result.row.permit == t.journals[id].permit
    ensures var tx := RecoverWithoutResend(t, id, now); tx.Commit? ==>
      id < |t.journals| && tx.result.row.permit == t.journals[id].permit
  {
  }

  lemma UnauthorizedHasNone(t: Tables, p: Process)
    requires Good(t) && ProcessOk(t, p) && Unsettled(t, p) && p.pc.FailingUnauthorized?
    ensures p.pc.journal < |t.journals|
    ensures var j := t.journals[p.pc.journal]; j.status.Claimed? || j.status.Settled? ==> j.permit.None?
  {
    assert JournalRowOk(t, t.journals[p.pc.journal]);
  }

  /** The row that a coordinator works on holds the permit it was told of. */
  ghost predicate HoldsBound(t: Tables, pc: Pc) {
    Owned(pc).Some? ==>
      Owned(pc).value < |t.journals| && (Bound(pc).Some? ==> t.journals[Owned(pc).value].permit == Bound(pc))
  }

  lemma AuthorizeReportsPermit(t: Tables, p: Process, env: Env)
    requires p.pc.ClaimingJournal? || p.pc.Authorizing? || p.pc.FailingUnauthorized? || p.pc.ReadingBack?
    requires HoldsBound(t, p.pc)
    requires p.pc.FailingUnauthorized? ==>
      var j := t.journals[p.pc.journal]; j.status.Claimed? || j.status.Settled? ==> j.permit.None?
    ensures ReportsPermit(AuthorizeStep(t, p, env).process.pc)
  {
    if p.pc.FailingUnauthorized? { ResolvedKeepsPermit(t, p.pc.journal, PermitAuthorizationFailed, env.now.at); }
    hide ClaimJournal, AuthorizeAndStart, FailJournal;
  }

  lemma UnsentReportsPermit(t: Tables, p: Process, env: Env)
    requires p.pc.ReleasingUnsent? || p.pc.InspectingUnsent? || p.pc.FailingUnsent?
    requires HoldsBound(t, p.pc)
    ensures ReportsPermit(UnsentStep(t, p, env).process.pc)
  {
    ResolvedKeepsPermit(t, p.pc.journal, SendStartFailed, env.now.at);
    hide RecordTransportFailure, FailJournal;
  }

  lemma SettleReportsPermit(t: Tables, p: Process, env: Env)
    requires p.pc.Recording? || p.pc.Settling? || p.pc.Processing? || p.pc.FailingSettled? || p.pc.Completing?
    requires HoldsBound(t, p.pc)
    ensures ReportsPermit(SettleStep(t, p, env).process.pc)
  {
    ResolvedKeepsPermit(t, p.pc.journal, if p.pc.FailingSettled? then p.pc.code else NonSuccessResponse, env.now.at);
    hide RecordResponse, SettleJournal, FailJournal, CompleteJournal;
  }

  lemma UnknownReportsPermit(t: Tables, p: Process, env: Env)
    requires p.pc.Marking? || p.pc.Recovering?
    requires HoldsBound(t, p.pc)
    ensures ReportsPermit(UnknownStep(t, p, env).process.pc)
  {
    ResolvedKeepsPermit(t, p.pc.journal, if p.pc.Marking? then p.pc.code else NonSuccessResponse, env.now.at);
    hide MarkIndeterminate, RecoverWithoutResend;
  }

  /** The other steps report nothing. */
  lemma OthersReportNothing(t: Tables, p: Process, env: Env)
    requires p.pc.ClaimingSlot? || p.pc.Preparing? || p.pc.Finishing? || p.pc.Resolving?
          || p.pc.Calling? || p.pc.Verifying? || p.pc.Verified? || p.pc.Fetching? || p.pc.ReleasingUnknown?
          || p.pc.ReconcileJournal? || p.pc.ReconcilePermit? || p.pc.ReconcileSlot? || p.pc.ReconcileRead?
          || p.pc.Reconciled? || p.pc.ReconcileRaised? || p.pc.Ended?
    ensures !Step(t, p, env).process.pc.Finishing?
  {
    hide AuthorizeStep, UnsentStep, SettleStep, UnknownStep, RecordTransportFailure, ClaimSlot, ResolveSlot,
      RecoverWithoutResend, ConsumeUncertainPermit, MarkerVerified, ReadSlotStatus;
  }

  lemma StepReportsPermit(t: Tables, p: Process, env: Env)
    requires Good(t) && ProcessOk(t, p) && Unsettled(t, p)
    ensures ReportsPermit(Step(t, p, env).process.pc)
  {
    hide Good, ProcessOk, Unsettled;
    if p.pc.FailingUnauthorized? { UnauthorizedHasNone(t, p); }
    BoundIsHeld(t, p);
    hide HoldsBound, ReportsPermit, AuthorizeStep, UnsentStep, SettleStep, UnknownStep,
      RootStep, SendStep, ReconcileStep;
    match p.pc
    case ClaimingJournal | Authorizing(_) | FailingUnauthorized(_) | ReadingBack(_, _) => AuthorizeReportsPermit(t, p, env);
    case ReleasingUnsent(_, _) | InspectingUnsent(_, _) | FailingUnsent(_, _) => UnsentReportsPermit(t, p, env);
    case Recording(_, _, _) | Settling(_, _, _) | Processing(_, _, _) | FailingSettled(_, _, _, _) | Completing(_, _, _) =>
      SettleReportsPermit(t, p, env);
    case Marking(_, _, _, _, _) | Recovering(_, _, _, _) => UnknownReportsPermit(t, p, env);
    case _ =>
      OthersReportNothing(t, p, env);
      hide *;
      NothingToReport(Step(t, p, env).process.pc);
  }

  lemma BoundIsHeld(t: Tables, p: Process)
    requires ProcessOk(t, p)
    ensures HoldsBound(t, p.pc)
  {
  }

  lemma NothingToReport(pc: Pc)
    requires !pc.Finishing?
    ensures ReportsPermit(pc)
  {
  }

  // ----- the logs grow

  lemma LogGrows(w: World, effect: Effect, j: nat)
    ensures Called(Observe(w, effect).sent, j) <==> Called(w.sent, j) || (effect.SendCalled? && effect.mark.journal == j)
    ensures forall s: int :: HasAnswer(Observe(w, effect).answers, j, s) <==>
              HasAnswer(w.answers, j, s) || effect == ResponseHeard(j, s)
  {
    var v := Observe(w, effect);
    match effect
    case SendCalled(m) =>
      assert v.sent[|w.sent|] == m && forall i :: 0 <= i < |w.sent| ==> v.sent[i] == w.sent[i];
    case ResponseHeard(k, status) =>
      assert v.answers[|w.answers|] == (k, status) && forall i :: 0 <= i < |w.answers| ==> v.answers[i] == w.answers[i];
    case _ =>
  }

  /** What somebody else's step adds to the logs is about his journal. */
  lemma BystanderTruthful(w: World, effect: Effect, pc: Pc, q: Pc)
    requires Truthful(w, q) && (Held(q).Some? ==> Held(q) != Held(pc))
    requires effect.SendCalled? ==> Held(pc) == Some(effect.mark.journal)
    requires effect.ResponseHeard? ==> Held(pc) == Some(effect.journal)
    ensures Truthful(Observe(w, effect), q)
  {
    if Held(q).Some? { LogGrows(w, effect, Held(q).value); }
    hide Held, Tried, HeardStatus, Called, HasAnswer, Observe;
  }

  lemma ActorTruthful(w: World, effect: Effect, pc: Pc, next: Pc)
    requires LogsOk(w) && Truthful(w, pc) && Follows(w.tables, pc, effect, next)
    ensures Truthful(Observe(w, effect), next)
  {
    if Held(next).Some? {
      LogGrows(w, effect, Held(next).value);
      FreshUncalled(w);
      FreshUnanswered(w);
      hide LogsOk, Called, HasAnswer, Observe;
    }
  }

  lemma FreshUnanswered(w: World)
    requires LogsOk(w)
    ensures forall s: int :: !HasAnswer(w.answers, |w.tables.journals|, s)
  {
    FreshUncalled(w);
  }

  lemma HeldExists(t: Tables, p: Process)
    requires ProcessOk(t, p) && Held(p.pc).Some?
    ensures Held(p.pc).value < |t.journals|
  {
  }

  lemma SameLogsTruthful(w: World, v: World, pc: Pc)
    requires Truthful(w, pc) && v.sent == w.sent && v.answers == w.answers
    ensures Truthful(v, pc)
  {
  }

  // ----- every event

  lemma ActEvidence(w: World, pid: nat, env: Env)
    requires WorldInv(w) && EvidenceInv(w) && pid < |w.processes|
    ensures EvidenceInv(Next(w, Act(pid, env)))
  {
    var p := w.processes[pid];
    var out := Step(w.tables, p, env);
    var seen, v := Observe(w, out.effect), Next(w, Act(pid, env));
    assert LogsOk(w);
    forall i | 0 <= i < |w.processes| && Held(w.processes[i].pc).Some?
      ensures Held(w.processes[i].pc).value < |w.tables.journals|
    {
      assert ProcessOk(w.tables, w.processes[i]);
      hide WorldInv, ProcessOk, Held;
      HeldExists(w.tables, w.processes[i]);
    }
    assert Good(w.tables) && ProcessOk(w.tables, p) && Unsettled(w.tables, p);
    hide Step, Next, WorldInv, LogsOk, Truthful, Held, Tried, HeardStatus, Observe, ReportsPermit, Good, ProcessOk, Unsettled;
    StepReportsPermit(w.tables, p, env);
    ActMoves(w, pid, env);
    StepFollows(w.tables, p, env);
    ActorTruthful(w, out.effect, p.pc, out.process.pc);
    forall i | 0 <= i < |v.processes| ensures Truthful(v, v.processes[i].pc) {
      if i != pid { BystanderTruthful(w, out.effect, p.pc, w.processes[i].pc); }
      SameLogsTruthful(seen, v, v.processes[i].pc);
    }
    assert Held(out.process.pc).Some? ==>
      Held(out.process.pc) == Held(p.pc) || Held(out.process.pc) == Some(|w.tables.journals|) by { HeldFresh(w.tables); }
  }

  lemma HeldFresh(t: Tables)
    ensures Held(Authorizing(|t.journals|)) == Some(|t.journals|)
  {
  }

  lemma IdleEvidence(w: World, e: Event)
    requires EvidenceInv(w) && !(e.Act? && e.pid < |w.processes|)
    ensures EvidenceInv(Next(w, e))
  {
    var v := Next(w, e);
    assert v.sent == w.sent && v.answers == w.answers && |v.processes| >= |w.processes|;
    assert forall i :: 0 <= i < |v.processes| ==> (i < |w.processes| && v.processes[i].pc == w.processes[i].pc) || Starts(v.processes[i].pc);
    hide Next, Truthful, Held, ReportsPermit, Starts;
    forall i | 0 <= i < |v.processes|
      ensures Truthful(v, v.processes[i].pc) && ReportsPermit(v.processes[i].pc)
      ensures i >= |w.processes| || v.processes[i].pc != w.processes[i].pc ==> Held(v.processes[i].pc).None?
    {
      if Starts(v.processes[i].pc) { StartsTruthful(v, v.processes[i].pc); } else { SameLogsTruthful(w, v, v.processes[i].pc); }
    }
  }

  predicate Starts(pc: Pc) {
    pc.ClaimingSlot? || pc.ClaimingJournal? || pc.ReconcileJournal? || pc.Ended?
  }

  lemma StartsTruthful(w: World, pc: Pc)
    requires Starts(pc)
    ensures Held(pc).None? && Truthful(w, pc) && ReportsPermit(pc)
  {
  }

  lemma {:induction false} EvidenceHolds(events: seq<Event>)
    ensures EvidenceInv(Run(GENESIS, events))
  {
    if events != [] {
      var before, e := events[..|events| - 1], events[|events| - 1];
      var w := Run(GENESIS, before);
      EvidenceHolds(before);
      Reachable(before);
      hide WorldInv, EvidenceInv, Next;
      if e.Act? && e.pid < |w.processes| { ActEvidence(w, e.pid, e.env); } else { IdleEvidence(w, e); }
    }
  }

  // ----- the answer, from then on

  /** Nobody works on the journal any more. */
  ghost predicate Retired(w: World, j: nat) {
    j < |w.tables.journals| && forall i :: 0 <= i < |w.processes| ==> Owned(w.processes[i].pc) != Some(j)
  }

  ghost predicate SameLogs(w: World, v: World, j: nat) {
    && (Called(v.sent, j) <==> Called(w.sent, j))
    && (forall s: int :: HasAnswer(v.answers, j, s) <==> HasAnswer(w.answers, j, s))
  }

  lemma ActRetired(w: World, pid: nat, env: Env, j: nat)
    requires Retired(w, j) && pid < |w.processes|
    requires Evolves(w.tables, Next(w, Act(pid, env)).tables)
    ensures Retired(Next(w, Act(pid, env)), j) && SameLogs(w, Next(w, Act(pid, env)), j)
  {
    var p := w.processes[pid];
    hide Step, Next, Observe, Called, HasAnswer, Owned, Held, Tried, HeardStatus, JournalEvolves;
    ActMoves(w, pid, env);
    StepFollows(w.tables, p, env);
    StepKeepsOwnership(w.tables, p, env);
    StepEffects(w.tables, p, env);
    OwnedIsHeld(p.pc);
    OwnedFresh(w.tables);
    LogGrows(w, Step(w.tables, p, env).effect, j);
  }

  lemma OwnedIsHeld(pc: Pc)
    ensures !pc.Finishing? ==> Held(pc) == Owned(pc)
  {
  }

  lemma OwnedFresh(t: Tables)
    ensures Owned(Authorizing(|t.journals|)) == Some(|t.journals|)
  {
  }

  lemma IdleRetired(w: World, e: Event, j: nat)
    requires Retired(w, j) && !(e.Act? && e.pid < |w.processes|) && Evolves(w.tables, Next(w, e).tables)
    ensures Retired(Next(w, e), j) && SameLogs(w, Next(w, e), j)
  {
    hide Step, CallTx, HasAnswer, Called, JournalEvolves;
  }

  lemma {:induction false} StaysRetired(w: World, more: seq<Event>, j: nat)
    requires WorldInv(w) && Retired(w, j)
    ensures Retired(Run(w, more), j) && SameLogs(w, Run(w, more), j)
  {
    if more != [] {
      var v, e := Run(w, more[..|more| - 1]), more[|more| - 1];
      StaysRetired(w, more[..|more| - 1], j);
      RunKeepsWorld(w, more[..|more| - 1]);
      NextRetired(v, e, j);
      hide WorldInv, Evolves, Retired, Next, Called, HasAnswer;
    }
  }

  lemma NextRetired(w: World, e: Event, j: nat)
    requires WorldInv(w) && Retired(w, j)
    ensures Retired(Next(w, e), j) && SameLogs(w, Next(w, e), j)
  {
    hide WorldInv, Evolves, Retired, SameLogs, Next;
    NextKeepsWorld(w, e);
    if e.Act? && e.pid < |w.processes| { ActRetired(w, e.pid, e.env, j); } else { IdleRetired(w, e, j); }
  }

  /** The answer claims a send exactly if the sender was called for its journal, a status
      exactly if it was heard, and the permit of its row.  */
  ghost predicate AnswersTruly(w: World, r: AttemptResult) {
    && (r.attempted <==> exists i :: 0 <= i < |w.sent| && w.sent[i].journal == r.journal.id)
    && (forall s: int :: r.response == Some(s) <==> exists i :: 0 <= i < |w.answers| && w.answers[i] == (r.journal.id, s))
    && r.permit == r.journal.row.permit
  }

  /** Whatever `execute` returned is the truth about the outside world, and remains it. */
  lemma ResultTellsTheTruth(events: seq<Event>, more: seq<Event>, pid: nat)
    requires var w := Run(GENESIS, events);
             pid < |w.processes| && w.processes[pid].pc.Finishing? && w.processes[pid].pc.outcome.Some?
    ensures AnswersTruly(Run(Run(GENESIS, events), more), Run(GENESIS, events).processes[pid].pc.outcome.value)
  {
    var w := Run(GENESIS, events);
    Reachable(events);
    EvidenceHolds(events);
    hide Run, WorldInv, EvidenceInv, AnswersTruly;
    ResultRetired(w, pid);
    StaysRetired(w, more, w.processes[pid].pc.outcome.value.journal.id);
    FinishedTruth(w, Run(w, more), w.processes[pid].pc.outcome.value);
  }

  lemma FinishedTruth(w: World, v: World, r: AttemptResult)
    requires Truthful(w, Finishing(Some(r))) && ReportsPermit(Finishing(Some(r))) && SameLogs(w, v, r.journal.id)
    ensures AnswersTruly(v, r)
  {
    forall s: int ensures r.response == Some(s) <==>
      exists i :: 0 <= i < |v.answers| && v.answers[i] == (r.journal.id, s)
    {
      assert HasAnswer(v.answers, r.journal.id, s) <==> HasAnswer(w.answers, r.journal.id, s);
    }
  }

  lemma ResultRetired(w: World, pid: nat)
    requires WorldInv(w) && EvidenceInv(w) && pid < |w.processes|
    requires w.processes[pid].pc.Finishing? && w.processes[pid].pc.outcome.Some?
    ensures Retired(w, w.processes[pid].pc.outcome.value.journal.id)
    ensures Truthful(w, w.processes[pid].pc) && ReportsPermit(w.processes[pid].pc)
  {
    assert ProcessOk(w.tables, w.processes[pid]);
    hide WorldInv, Truthful, ReportsPermit;
    HeldExists(w.tables, w.processes[pid]);
    hide ProcessOk, Owned;
    forall i | 0 <= i < |w.processes| ensures Owned(w.processes[i].pc) != Held(w.processes[pid].pc) {
      OwnedIsHeld(w.processes[i].pc);
      FinishedOwnsNothing(w.processes[i].pc);
    }
  }

  lemma FinishedOwnsNothing(pc: Pc)
    ensures pc.Finishing? ==> Owned(pc).None?
  {
  }
}
