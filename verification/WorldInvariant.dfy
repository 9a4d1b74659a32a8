/** The invariant of the whole system: tables, processes and the history of sends
    agree, after every event of every run.  */
module WorldInvariant {
  import opened Schema
  import opened Transactions
  import opened Evolution
  import opened Links
  import opened Protocol
  import opened ProcessInvariant

  // ----- outcomes in the tables

  /** A completed journal holds a consumed permit with a success status. */
  ghost predicate CompletedOk(t: Tables, j: nat)
    requires j < |t.journals|
  {
    t.journals[j].status.Completed? ==>
      && t.journals[j].permit.Some?
      && t.journals[j].permit.value < |t.permits|
      && var p := t.permits[t.journals[j].permit.value];
         p.status.Consumed? && p.response.Some? && 200 <= p.response.value < 300
  }

  ghost predicate OutcomesOk(t: Tables) {
    && (forall j :: 0 <= j < |t.journals| ==> CompletedOk(t, j))
    && (forall s :: 0 <= s < |t.slots| && t.slots[s].status.SlotCompleted? ==> SlotJournalCompleted(t, s))
  }

  // ----- processes

  ghost predicate ProcessesOk(w: World) {
    && (forall i :: 0 <= i < |w.processes| ==> ProcessOk(w.tables, w.processes[i]) && Unsettled(w.tables, w.processes[i]))
    && (forall i, k :: 0 <= i < k < |w.processes| && Owned(w.processes[i].pc).Some? ==>
          Owned(w.processes[i].pc) != Owned(w.processes[k].pc))
  }

  // ----- history

  /** A call to the sender left a durable intent behind it: the journal holds the
      permit and the start time, and showed as much when the call was made.  */
  ghost predicate MarkOk(t: Tables, m: Mark) {
    && m.journal < |t.journals|
    && t.journals[m.journal].approval == m.approval
    && t.journals[m.journal].permit == Some(m.permit)
    && t.journals[m.journal].sendStartedAt.Some?
    && (m.seen.SendStarted? || m.seen.Indeterminate?)
  }

  predicate Called(marks: seq<Mark>, j: nat) {
    exists i | 0 <= i < |marks| :: marks[i].journal == j
  }

  predicate HasAnswer(answers: seq<(nat, int)>, j: nat, status: int) {
    exists i | 0 <= i < |answers| :: answers[i] == (j, status)
  }

  /** Where a coordinator stands in the history of its own journal. */
  ghost predicate StandsIn(w: World, pc: Pc) {
    && (BeforeCall(pc) && Owned(pc).Some? ==> !Called(w.sent, Owned(pc).value) && !Called(w.fetched, Owned(pc).value))
    && (pc.Verifying? || pc.Verified? ==> Called(w.sent, pc.journal) && !Called(w.fetched, pc.journal))
    && (pc.Fetching? ==> Called(w.fetched, pc.journal))
    && (pc.Recording? || pc.Settling? ==> HasAnswer(w.answers, pc.journal, pc.status))
  }

  /** A settled journal's permit holds a status that the network gave for it. */
  ghost predicate SettledOk(w: World, j: nat)
    requires j < |w.tables.journals|
  {
    w.tables.journals[j].settledAt.Some? ==>
      && w.tables.journals[j].permit.Some?
      && w.tables.journals[j].permit.value < |w.tables.permits|
      && w.tables.permits[w.tables.journals[j].permit.value].response.Some?
      && HasAnswer(w.answers, j, w.tables.permits[w.tables.journals[j].permit.value].response.value)
  }

  /** A fetch follows a call, on a journal seen as started or, if a reconcile came in
      between, as indeterminate.  */
  ghost predicate FetchOk(w: World, m: Mark) {
    Called(w.sent, m.journal) && (m.seen.SendStarted? || m.seen.Indeterminate?) && m.journal < |w.tables.journals|
    && m.approval == w.tables.journals[m.journal].approval && w.tables.journals[m.journal].permit == Some(m.permit)
  }

  ghost predicate LogsOk(w: World) {
    && (forall i :: 0 <= i < |w.sent| ==> MarkOk(w.tables, w.sent[i]))
    && (forall i, k :: 0 <= i < k < |w.sent| ==> w.sent[i].journal != w.sent[k].journal)
    && (forall i :: 0 <= i < |w.fetched| ==> FetchOk(w, w.fetched[i]))
    && (forall i, k :: 0 <= i < k < |w.fetched| ==> w.fetched[i].journal != w.fetched[k].journal)
    && (forall i :: 0 <= i < |w.answers| ==> Called(w.fetched, w.answers[i].0))
  }

  ghost predicate HistoryOk(w: World) {
    && LogsOk(w)
    && (forall i :: 0 <= i < |w.processes| ==> StandsIn(w, w.processes[i].pc))
    && (forall j :: 0 <= j < |w.tables.journals| ==> SettledOk(w, j))
  }

  ghost predicate WorldInv(w: World) {
    Good(w.tables) && OutcomesOk(w.tables) && ProcessesOk(w) && HistoryOk(w)
  }

  // ----- tables move under everyone

  /** `u` is what an actor at `pc` may turn `t` into. */
  ghost predicate Rely(t: Tables, u: Tables, pc: Pc) {
    Evolves(t, u) && Guarantee(t, u, pc)
  }

  lemma OutcomesStable(t: Tables, u: Tables, p: Process)
    requires Good(u) && OutcomesOk(t) && Rely(t, u, p.pc) && ProcessOk(t, p)
    ensures OutcomesOk(u)
  {
    forall j | 0 <= j < |u.journals| ensures CompletedOk(u, j) {
      CompletedStable(t, u, p, j);
    }
    forall s | 0 <= s < |u.slots| && u.slots[s].status.SlotCompleted? ensures SlotJournalCompleted(u, s) {
      SlotJournalCompletedStable(t, u, s);
    }
  }

  lemma CompletedStable(t: Tables, u: Tables, p: Process, j: nat)
    requires OutcomesOk(t) && Rely(t, u, p.pc) && ProcessOk(t, p) && j < |u.journals|
    ensures CompletedOk(u, j)
  {
    if u.journals[j].status.Completed? {
      assert j < |t.journals|;
      assert CompletedOk(t, j);
      assert JournalEvolves(t.journals[j], u.journals[j]);
      var permit := t.journals[j].permit.value;
      assert PermitEvolves(t.permits[permit], u.permits[permit]);
    }
  }

  /** A process that is not the actor keeps its facts. */
  lemma BystanderStable(t: Tables, u: Tables, q: Process, pc: Pc)
    requires ProcessOk(t, q) && Unsettled(t, q) && Rely(t, u, pc)
    requires Owned(q.pc).Some? ==> Owned(q.pc) != Owned(pc)
    ensures ProcessOk(u, q) && Unsettled(u, q)
  {
    ProcessOkStable(t, u, q);
    hide ProcessOk, Evolves;
  }

  /** What one step writes into the world. */
  lemma ActMoves(w: World, pid: nat, env: Env)
    requires pid < |w.processes|
    ensures var out := Step(w.tables, w.processes[pid], env); var v := Next(w, Act(pid, env));
      var seen := Observe(w, out.effect);
      && v.tables == out.tables && v.processes == w.processes[pid := out.process]
      && v.sent == seen.sent && v.fetched == seen.fetched && v.answers == seen.answers
      && seen.tables == w.tables && seen.processes == w.processes
  {
    hide Step;
  }

  lemma ActKeepsProcesses(w: World, pid: nat, env: Env)
    requires Good(w.tables) && ProcessesOk(w) && pid < |w.processes|
    requires Rely(w.tables, Step(w.tables, w.processes[pid], env).tables, w.processes[pid].pc)
    ensures ProcessesOk(Next(w, Act(pid, env)))
  {
    var p := w.processes[pid];
    var out := Step(w.tables, p, env);
    var v := Next(w, Act(pid, env));
    assert ProcessOk(w.tables, p) && Unsettled(w.tables, p);
    hide Step, Next, Good, Rely, Owned, BeforeSettle, ProcessOk, Unsettled;
    ActMoves(w, pid, env);
    StepKeepsProcess(w.tables, p, env);
    StepKeepsUnsettled(w.tables, p, env);
    StepKeepsOwnership(w.tables, p, env);
    hide KeepsOwnership;
    forall i | 0 <= i < |v.processes|
      ensures ProcessOk(v.tables, v.processes[i]) && Unsettled(v.tables, v.processes[i])
    {
      if i != pid { BystanderStable(w.tables, v.tables, w.processes[i], p.pc); }
    }
    OwnersApart(w, pid, env);
  }

  /** An actor keeps its journal or takes a new one, so no two processes own the same. */
  lemma OwnersApart(w: World, pid: nat, env: Env)
    requires ProcessesOk(w) && pid < |w.processes|
    requires KeepsOwnership(w.tables, w.processes[pid].pc, Step(w.tables, w.processes[pid], env).process.pc)
    ensures var after := w.processes[pid := Step(w.tables, w.processes[pid], env).process];
      forall i, k :: 0 <= i < k < |after| && Owned(after[i].pc).Some? ==> Owned(after[i].pc) != Owned(after[k].pc)
  {
    hide Step;
    forall i | 0 <= i < |w.processes| && Owned(w.processes[i].pc).Some?
      ensures Owned(w.processes[i].pc).value < |w.tables.journals|
    {
      assert ProcessOk(w.tables, w.processes[i]);
    }
    hide ProcessOk, Unsettled, Owned;
  }

  lemma LogsStable(w: World, u: Tables)
    requires LogsOk(w) && Evolves(w.tables, u)
    ensures LogsOk(w.(tables := u))
  {
    forall i | 0 <= i < |w.sent| ensures MarkOk(u, w.sent[i]) {
      assert MarkOk(w.tables, w.sent[i]);
      assert JournalEvolves(w.tables.journals[w.sent[i].journal], u.journals[w.sent[i].journal]);
    }
    forall i | 0 <= i < |w.fetched| ensures FetchOk(w.(tables := u), w.fetched[i]) {
      assert FetchOk(w, w.fetched[i]);
      assert JournalEvolves(w.tables.journals[w.fetched[i].journal], u.journals[w.fetched[i].journal]);
    }
  }

  lemma SettledStable(w: World, u: Tables, p: Process, j: nat)
    requires j < |u.journals| && Rely(w.tables, u, p.pc) && ProcessOk(w.tables, p) && StandsIn(w, p.pc)
    requires forall k :: 0 <= k < |w.tables.journals| ==> SettledOk(w, k)
    requires Good(w.tables)
    ensures SettledOk(w.(tables := u), j)
  {
    var t := w.tables;
    hide Good;
    if u.journals[j].settledAt.Some? {
      assert j < |t.journals|;
      assert SettledOk(w, j);
      assert JournalEvolves(t.journals[j], u.journals[j]);
      var permit := t.journals[j].permit.value;
      assert permit < |t.permits|;
      if t.journals[j].settledAt.Some? { SettledPermitConsumed(t, j); }
      assert PermitEvolves(t.permits[permit], u.permits[permit]);
    }
  }

  lemma SettledPermitConsumed(t: Tables, j: nat)
    requires Good(t) && j < |t.journals| && t.journals[j].settledAt.Some?
    ensures t.journals[j].permit.Some? && t.journals[j].permit.value < |t.permits|
    ensures t.permits[t.journals[j].permit.value].status.Consumed?
  {
    assert JournalRowOk(t, t.journals[j]);
  }

  /** One more call is recorded for a journal that had none. */
  lemma ObserveCall(w: World, m: Mark)
    requires LogsOk(w) && MarkOk(w.tables, m) && !Called(w.sent, m.journal)
    ensures LogsOk(w.(sent := w.sent + [m]))
    ensures Called(w.sent + [m], m.journal)
    ensures forall j :: j != m.journal ==> Called(w.sent + [m], j) == Called(w.sent, j)
  {
    var v := w.sent + [m];
    assert v[|w.sent|] == m;
    forall j | Called(w.sent, j) ensures Called(v, j) {
      var i :| 0 <= i < |w.sent| && w.sent[i].journal == j;
      assert v[i].journal == j;
    }
    forall i | 0 <= i < |w.fetched| ensures FetchOk(w.(sent := v), w.fetched[i]) { assert FetchOk(w, w.fetched[i]); }
  }

  lemma ObserveFetch(w: World, m: Mark)
    requires LogsOk(w) && FetchOk(w, m) && !Called(w.fetched, m.journal)
    ensures LogsOk(w.(fetched := w.fetched + [m]))
    ensures Called(w.fetched + [m], m.journal)
    ensures forall j :: j != m.journal ==> Called(w.fetched + [m], j) == Called(w.fetched, j)
  {
    var v := w.fetched + [m];
    assert v[|w.fetched|] == m;
    forall i | 0 <= i < |v| ensures FetchOk(w.(fetched := v), v[i]) {
      assert i < |w.fetched| ==> FetchOk(w, w.fetched[i]);
    }
    forall j | Called(w.fetched, j) ensures Called(v, j) {
      var i :| 0 <= i < |w.fetched| && w.fetched[i].journal == j;
      assert v[i].journal == j;
    }
  }

  lemma ObserveAnswer(w: World, j: nat, status: int)
    requires LogsOk(w) && Called(w.fetched, j)
    ensures LogsOk(w.(answers := w.answers + [(j, status)]))
    ensures HasAnswer(w.answers + [(j, status)], j, status)
    ensures forall k: nat, s: int :: HasAnswer(w.answers, k, s) ==> HasAnswer(w.answers + [(j, status)], k, s)
  {
    var v := w.answers + [(j, status)];
    assert v[|w.answers|] == (j, status);
    forall i | 0 <= i < |w.fetched| ensures FetchOk(w.(answers := v), w.fetched[i]) { assert FetchOk(w, w.fetched[i]); }
    forall k: nat, s: int | HasAnswer(w.answers, k, s) ensures HasAnswer(v, k, s) {
      var i :| 0 <= i < |w.answers| && w.answers[i] == (k, s);
      assert v[i] == (k, s);
    }
  }

  /** Before the settlement, a journal whose start its owner knows is send-started, or
      indeterminate when somebody recovered it.  */
  lemma StartedJournal(t: Tables, p: Process)
    requires Good(t) && ProcessOk(t, p) && Unsettled(t, p)
    requires p.pc.Calling? || p.pc.Verifying? || p.pc.Verified?
    ensures MarkOk(t, MarkNow(t, p.pc.journal, p.pc.permit))
  {
    assert JournalRowOk(t, t.journals[p.pc.journal]);
  }

  /** What a step's effect does to the history: the logs stay right, the actor
      stands at its new point, and a process with another journal is unmoved.  */
  ghost predicate Observed(w: World, p: Process, effect: Effect, pc: Pc) {
    var v := Observe(w, effect);
    && LogsOk(v)
    && StandsIn(v, pc)
    && (forall q: Pc :: StandsIn(w, q) && (Owned(q).Some? ==> Owned(q) != Owned(p.pc)) ==> StandsIn(v, q))
    && (forall j: nat, s: int :: HasAnswer(w.answers, j, s) ==> HasAnswer(v.answers, j, s))
  }

  lemma CallingObserved(w: World, p: Process, env: Env)
    requires LogsOk(w) && Good(w.tables) && ProcessOk(w.tables, p) && Unsettled(w.tables, p) && StandsIn(w, p.pc)
    requires p.pc.Calling?
    ensures Observed(w, p, SendStep(w.tables, p, env).effect, SendStep(w.tables, p, env).process.pc)
  {
    StartedJournal(w.tables, p);
    ObserveCall(w, MarkNow(w.tables, p.pc.journal, p.pc.permit));
    hide Good, ProcessOk, LogsOk, Called;
  }

  lemma VerifiedObserved(w: World, p: Process, env: Env)
    requires LogsOk(w) && Good(w.tables) && ProcessOk(w.tables, p) && Unsettled(w.tables, p) && StandsIn(w, p.pc)
    requires p.pc.Verified?
    ensures Observed(w, p, SendStep(w.tables, p, env).effect, SendStep(w.tables, p, env).process.pc)
  {
    StartedJournal(w.tables, p);
    hide Good, ProcessOk, Unsettled, LogsOk, Called;
    FetchObserved(w, p, MarkNow(w.tables, p.pc.journal, p.pc.permit), Fetching(p.pc.journal, p.pc.permit));
  }

  lemma FetchObserved(w: World, p: Process, m: Mark, pc: Pc)
    requires LogsOk(w) && MarkOk(w.tables, m) && StandsIn(w, p.pc)
    requires p.pc.Verified? && m.journal == p.pc.journal && pc == Fetching(p.pc.journal, p.pc.permit)
    ensures Observed(w, p, FetchBegun(m), pc)
  {
    hide LogsOk, Called;
    assert FetchOk(w, m);
    ObserveFetch(w, m);
  }

  lemma FetchingObserved(w: World, p: Process, env: Env)
    requires LogsOk(w) && StandsIn(w, p.pc)
    requires p.pc.Fetching? && SendStep(w.tables, p, env).effect.ResponseHeard?
    ensures Observed(w, p, SendStep(w.tables, p, env).effect, SendStep(w.tables, p, env).process.pc)
  {
    ObserveAnswer(w, p.pc.journal, env.status);
    hide LogsOk, Called;
  }

  /** A step without an effect makes no call and hears nothing. */
  ghost predicate Silent(pc: Pc, next: Pc) {
    && !next.Verifying? && !next.Fetching? && !next.Recording?
    && (next.Verified? ==> pc.Verifying? && next.journal == pc.journal)
    && (next.Settling? ==> pc.Recording? && next.journal == pc.journal && next.status == pc.status)
    && (BeforeCall(next) && Owned(next).Some? ==> BeforeCall(pc) || pc.ClaimingJournal?)
  }

  lemma SilentSend(t: Tables, p: Process, env: Env)
    requires p.pc.Calling? || p.pc.Verifying? || p.pc.Verified? || p.pc.Fetching? || p.pc.ReleasingUnknown?
    requires SendStep(t, p, env).effect.Nothing?
    ensures Silent(p.pc, SendStep(t, p, env).process.pc)
  {
    hide RecordTransportFailure, MarkerVerified;
  }

  lemma SilentUnsent(t: Tables, p: Process, env: Env)
    requires p.pc.ReleasingUnsent? || p.pc.InspectingUnsent? || p.pc.FailingUnsent?
    ensures Silent(p.pc, UnsentStep(t, p, env).process.pc)
  {
    hide RecordTransportFailure, FailJournal;
  }

  lemma SilentAuthorize(t: Tables, p: Process, env: Env)
    requires p.pc.ClaimingJournal? || p.pc.Authorizing? || p.pc.FailingUnauthorized? || p.pc.ReadingBack?
    ensures Silent(p.pc, AuthorizeStep(t, p, env).process.pc)
  {
    hide ClaimJournal, AuthorizeAndStart, FailJournal;
  }

  lemma SilentSettle(t: Tables, p: Process, env: Env)
    requires p.pc.Recording? || p.pc.Settling? || p.pc.Processing? || p.pc.FailingSettled? || p.pc.Completing?
    ensures Silent(p.pc, SettleStep(t, p, env).process.pc)
  {
    hide RecordResponse, SettleJournal, FailJournal, CompleteJournal;
  }

  lemma SilentRoot(t: Tables, p: Process, env: Env)
    requires p.pc.ClaimingSlot? || p.pc.Preparing? || p.pc.Finishing? || p.pc.Resolving?
    ensures Silent(p.pc, RootStep(t, p, env).process.pc)
  {
    hide ClaimSlot, ResolveSlot;
  }

  lemma SilentUnknown(t: Tables, p: Process, env: Env)
    requires p.pc.Marking? || p.pc.Recovering?
    ensures Silent(p.pc, UnknownStep(t, p, env).process.pc)
  {
    hide MarkIndeterminate, RecoverWithoutResend;
  }

  lemma SilentReconcile(t: Tables, p: Process, env: Env)
    requires p.pc.ReconcileJournal? || p.pc.ReconcilePermit? || p.pc.ReconcileSlot? || p.pc.ReconcileRead?
    ensures Silent(p.pc, ReconcileStep(t, p, env).process.pc)
  {
    hide RecoverWithoutResend, ConsumeUncertainPermit, ResolveSlot, ReadSlotStatus;
  }

  lemma StepSilent(t: Tables, p: Process, env: Env)
    requires Step(t, p, env).effect.Nothing?
    ensures Silent(p.pc, Step(t, p, env).process.pc)
  {
    hide RootStep, AuthorizeStep, UnsentStep, SendStep, SettleStep, UnknownStep, ReconcileStep;
    match p.pc
    case ClaimingSlot(_, _) | Preparing | Finishing(_) | Resolving(_) => SilentRoot(t, p, env);
    case ClaimingJournal | Authorizing(_) | FailingUnauthorized(_) | ReadingBack(_, _) => SilentAuthorize(t, p, env);
    case ReleasingUnsent(_, _) | InspectingUnsent(_, _) | FailingUnsent(_, _) => SilentUnsent(t, p, env);
    case Calling(_, _, _) | Verifying(_, _, _) | Verified(_, _, _) | Fetching(_, _) | ReleasingUnknown(_, _) =>
      SilentSend(t, p, env);
    case Recording(_, _, _) | Settling(_, _, _) | Processing(_, _, _) | FailingSettled(_, _, _, _) | Completing(_, _, _) =>
      SilentSettle(t, p, env);
    case Marking(_, _, _, _, _) | Recovering(_, _, _, _) => SilentUnknown(t, p, env);
    case ReconcileJournal(_) | ReconcilePermit(_) | ReconcileSlot(_) | ReconcileRead(_) => SilentReconcile(t, p, env);
    case Reconciled(_) | ReconcileRaised | Ended =>
  }

  /** So it arrives only at points whose history it already has. */
  lemma SilentStands(w: World, p: Process, env: Env)
    requires StandsIn(w, p.pc) && Step(w.tables, p, env).effect.Nothing?
    requires !Called(w.sent, |w.tables.journals|) && !Called(w.fetched, |w.tables.journals|)
    ensures StandsIn(w, Step(w.tables, p, env).process.pc)
  {
    hide Step, Called, HasAnswer;
    StepSilent(w.tables, p, env);
    StepKeepsOwnership(w.tables, p, env);
  }

  lemma FreshUncalled(w: World)
    requires LogsOk(w)
    ensures !Called(w.sent, |w.tables.journals|) && !Called(w.fetched, |w.tables.journals|)
  {
    forall i | 0 <= i < |w.sent| ensures w.sent[i].journal < |w.tables.journals| { assert MarkOk(w.tables, w.sent[i]); }
    forall i | 0 <= i < |w.fetched| ensures w.fetched[i].journal < |w.tables.journals| { assert FetchOk(w, w.fetched[i]); }
  }

  lemma StepObserved(w: World, p: Process, env: Env)
    requires LogsOk(w) && Good(w.tables) && ProcessOk(w.tables, p) && Unsettled(w.tables, p) && StandsIn(w, p.pc)
    ensures Observed(w, p, Step(w.tables, p, env).effect, Step(w.tables, p, env).process.pc)
  {
    var out := Step(w.tables, p, env);
    if out.effect.Nothing? {
      FreshUncalled(w);
      SilentStands(w, p, env);
    } else {
      StepEffects(w.tables, p, env);
      match p.pc
      case Calling(_, _, _) => CallingObserved(w, p, env);
      case Verified(_, _, _) => VerifiedObserved(w, p, env);
      case Fetching(_, _) => FetchingObserved(w, p, env);
    }
  }

  lemma StepEffects(t: Tables, p: Process, env: Env)
    ensures Step(t, p, env).effect.Nothing? || (p.pc.Calling? && Step(t, p, env).effect.SendCalled?)
         || (p.pc.Verified? && Step(t, p, env).effect.FetchBegun?)
         || (p.pc.Fetching? && Step(t, p, env).effect.ResponseHeard?)
    ensures !Step(t, p, env).effect.Nothing? ==> Step(t, p, env) == SendStep(t, p, env)
  {
    hide AuthorizeAndStart, RecordResponse, RecordTransportFailure, ClaimSlot, ResolveSlot, ClaimJournal,
      SettleJournal, CompleteJournal, FailJournal, MarkIndeterminate, RecoverWithoutResend,
      ConsumeUncertainPermit, MarkerVerified;
  }

  // ----- every event

  lemma StepRely(t: Tables, p: Process, env: Env)
    requires Good(t) && ProcessOk(t, p)
    ensures Good(Step(t, p, env).tables) && Rely(t, Step(t, p, env).tables, p.pc)
  {
    hide Good, Evolves, Guarantee, ProcessOk, Step;
    StepOnward(t, p, env);
    StepGuarantee(t, p, env);
  }

  lemma LogsFrame(w: World, v: World)
    requires LogsOk(w) && v.tables == w.tables && v.sent == w.sent && v.fetched == w.fetched && v.answers == w.answers
    ensures LogsOk(v)
  {
    forall i | 0 <= i < |v.fetched| ensures FetchOk(v, v.fetched[i]) { assert FetchOk(w, w.fetched[i]); }
  }

  lemma ActKeepsHistory(w: World, pid: nat, env: Env)
    requires Good(w.tables) && ProcessesOk(w) && HistoryOk(w) && pid < |w.processes|
    requires Rely(w.tables, Step(w.tables, w.processes[pid], env).tables, w.processes[pid].pc)
    ensures HistoryOk(Next(w, Act(pid, env)))
  {
    var p := w.processes[pid];
    var out := Step(w.tables, p, env);
    var v := Next(w, Act(pid, env));
    assert ProcessOk(w.tables, p) && Unsettled(w.tables, p) && StandsIn(w, p.pc);
    hide Step, Next, Good, ProcessOk, Unsettled, StandsIn, LogsOk, SettledOk;
    ActMoves(w, pid, env);
    StepObserved(w, p, env);
    ActedHistory(w, Observe(w, out.effect), v, pid);
  }

  lemma ActedHistory(w: World, seen: World, v: World, pid: nat)
    requires Good(w.tables) && ProcessesOk(w) && HistoryOk(w) && pid < |w.processes|
    requires Rely(w.tables, v.tables, w.processes[pid].pc)
    requires |v.processes| == |w.processes| && v.processes == w.processes[pid := v.processes[pid]]
    requires v.sent == seen.sent && v.fetched == seen.fetched && v.answers == seen.answers
    requires seen.tables == w.tables && LogsOk(seen) && StandsIn(seen, v.processes[pid].pc)
    requires forall q: Pc :: StandsIn(w, q) && (Owned(q).Some? ==> Owned(q) != Owned(w.processes[pid].pc)) ==> StandsIn(seen, q)
    requires forall j: nat, s: int :: HasAnswer(w.answers, j, s) ==> HasAnswer(seen.answers, j, s)
    ensures HistoryOk(v)
  {
    var p := w.processes[pid];
    assert ProcessOk(w.tables, p) && StandsIn(w, p.pc);
    hide Good, ProcessOk, Unsettled, Guarantee, Evolves, LogsOk, Owned;
    assert LogsOk(v) by {
      LogsStable(seen, v.tables);
      LogsFrame(seen.(tables := v.tables), v);
    }
    forall i | 0 <= i < |v.processes| ensures StandsIn(v, v.processes[i].pc) {
      assert StandsIn(seen, v.processes[i].pc) by { hide StandsIn; }
    }
    hide StandsIn;
    forall j | 0 <= j < |v.tables.journals| ensures SettledOk(v, j) { SettledStable(w, v.tables, p, j); }
  }

  lemma ActKeepsWorld(w: World, pid: nat, env: Env)
    requires WorldInv(w) && pid < |w.processes|
    ensures WorldInv(Next(w, Act(pid, env)))
    ensures Evolves(w.tables, Next(w, Act(pid, env)).tables)
  {
    var p := w.processes[pid];
    assert ProcessOk(w.tables, p);
    hide Good, OutcomesOk, ProcessOk, ProcessesOk, HistoryOk, Evolves, Guarantee, Step, Next;
    ActMoves(w, pid, env);
    StepRely(w.tables, p, env);
    ActKeepsProcesses(w, pid, env);
    ActKeepsHistory(w, pid, env);
    OutcomesStable(w.tables, Step(w.tables, p, env).tables, p);
  }

  lemma CallTouches(t: Tables, a: Approval, runId: nat, call: Call, now: Clock)
    ensures CallTx(t, a, runId, call, now).slots == t.slots
    ensures CallTx(t, a, runId, call, now).journals == t.journals
  {
    match call
    case CallInitialize(_) => hide RecordResponse, RecordTransportFailure, Authorize, StopRun;
    case CallAuthorize(keyHash, cost) =>
      ReserveTouches(t, a, runId, keyHash, now, cost);
      hide Reserve, RecordResponse, RecordTransportFailure, StopRun, Initialize;
    case CallResponse(_, _) => hide RecordTransportFailure, Authorize, StopRun, Initialize;
    case CallTransportFailure(_) => hide RecordResponse, Authorize, StopRun, Initialize;
    case CallStop(_, _) => hide RecordResponse, RecordTransportFailure, Authorize, Initialize;
  }

  lemma CallOnward(t: Tables, a: Approval, runId: nat, call: Call, now: Clock)
    requires Good(t)
    ensures Onward(t, CallTx(t, a, runId, call, now))
  {
    match call
    case CallInitialize(known) =>
      InitializeSound(t, a, runId, known, now);
      AfterOnward(t, Initialize(t, a, runId, known, now), NoFault);
    case CallAuthorize(keyHash, cost) =>
      AuthorizeSound(t, a, runId, keyHash, now, cost);
      AfterOnward(t, Authorize(t, a, runId, keyHash, now, cost), NoFault);
    case CallResponse(permit, status) =>
      RecordResponseSound(t, a, runId, permit, status, now.at);
      AfterOnward(t, RecordResponse(t, a, runId, permit, status, now.at), NoFault);
    case CallTransportFailure(permit) =>
      RecordTransportFailureSound(t, a, runId, permit, now.at);
      AfterOnward(t, RecordTransportFailure(t, a, runId, permit, now.at), NoFault);
    case CallStop(reason, trigger) =>
      StopRunSound(t, a, runId, reason, now.at, trigger);
      AfterOnward(t, StopRun(t, a, runId, reason, now.at, trigger), NoFault);
  }

  lemma CallRely(t: Tables, a: Approval, runId: nat, call: Call, now: Clock)
    requires Good(t)
    ensures Good(CallTx(t, a, runId, call, now)) && Rely(t, CallTx(t, a, runId, call, now), Ended)
  {
    hide Good, Evolves;
    CallOnward(t, a, runId, call, now);
    CallTouches(t, a, runId, call, now);
    hide CallTx;
    SilentGuarantee(t, CallTx(t, a, runId, call, now), Ended);
  }

  /** The tables change and nobody moves. */
  lemma TablesMoveKeepsWorld(w: World, u: Tables)
    requires WorldInv(w) && Good(u) && Rely(w.tables, u, Ended)
    ensures WorldInv(w.(tables := u))
  {
    var v := w.(tables := u);
    var idle := Process(false, Approval(0, 0, 0, 0, 0, 0, 0, 0, 0), 0, 0, 0, Claim(0, 0, 0, 0), Ended);
    OutcomesStable(w.tables, u, idle);
    assert ProcessesOk(v) by {
      forall i | 0 <= i < |v.processes| ensures ProcessOk(u, v.processes[i]) && Unsettled(u, v.processes[i]) {
        BystanderStable(w.tables, u, w.processes[i], Ended);
      }
    }
    LogsStable(w, u);
    forall j | 0 <= j < |u.journals| ensures SettledOk(v, j) {
      SettledStable(w, u, idle, j);
    }
  }

  /** Only the processes change. */
  lemma LogsKept(w: World, processes: seq<Process>)
    requires LogsOk(w) && forall j :: 0 <= j < |w.tables.journals| ==> SettledOk(w, j)
    ensures var v := w.(processes := processes);
      LogsOk(v) && forall j :: 0 <= j < |v.tables.journals| ==> SettledOk(v, j)
  {
    var v := w.(processes := processes);
    LogsFrame(w, v);
    hide LogsOk;
    forall j | 0 <= j < |v.tables.journals| ensures SettledOk(v, j) { assert SettledOk(w, j); }
  }

  /** A newcomer knows nothing and owns nothing, and so does the dead. */
  lemma FreshIsOk(w: World, p: Process)
    requires CanStart(p) || p.pc.Ended?
    ensures ProcessOk(w.tables, p) && Unsettled(w.tables, p) && Owned(p.pc).None? && StandsIn(w, p.pc)
  {
  }

  lemma StandsKept(w: World, processes: seq<Process>, pc: Pc)
    requires StandsIn(w, pc)
    ensures StandsIn(w.(processes := processes), pc)
  {
  }

  lemma StartKeepsWorld(w: World, p: Process)
    requires WorldInv(w) && CanStart(p)
    ensures WorldInv(w.(processes := w.processes + [p]))
  {
    var v := w.(processes := w.processes + [p]);
    LogsKept(w, v.processes);
    FreshIsOk(w, p);
    hide Good, OutcomesOk, LogsOk, SettledOk, ProcessOk, Unsettled, StandsIn, Owned;
    forall i | 0 <= i < |v.processes| ensures StandsIn(v, v.processes[i].pc) { StandsKept(w, v.processes, v.processes[i].pc); }
  }

  lemma CrashKeepsWorld(w: World, pid: nat)
    requires WorldInv(w) && pid < |w.processes|
    ensures WorldInv(w.(processes := w.processes[pid := w.processes[pid].(pc := Ended)]))
  {
    var v := w.(processes := w.processes[pid := w.processes[pid].(pc := Ended)]);
    LogsKept(w, v.processes);
    FreshIsOk(w, v.processes[pid]);
    hide Good, OutcomesOk, LogsOk, SettledOk, ProcessOk, Unsettled, StandsIn, Owned;
    forall i | 0 <= i < |v.processes| ensures StandsIn(v, v.processes[i].pc) { StandsKept(w, v.processes, v.processes[i].pc); }
  }

  lemma ClientKeepsWorld(w: World, a: Approval, runId: nat, call: Call, now: Clock)
    requires WorldInv(w)
    ensures var u := CallTx(w.tables, a, runId, call, now);
      WorldInv(w.(tables := u)) && Evolves(w.tables, u)
  {
    assert Good(w.tables);
    hide WorldInv, Good, Evolves, Guarantee, CallTx;
    CallRely(w.tables, a, runId, call, now);
    TablesMoveKeepsWorld(w, CallTx(w.tables, a, runId, call, now));
  }

  lemma NextKeepsWorld(w: World, e: Event)
    requires WorldInv(w)
    ensures WorldInv(Next(w, e)) && Evolves(w.tables, Next(w, e).tables)
  {
    hide WorldInv, Evolves, Step, CallTx;
    EvolvesReflexive(w.tables);
    match e
    case Start(p) => if CanStart(p) { StartKeepsWorld(w, p); }
    case Crash(pid) => if pid < |w.processes| { CrashKeepsWorld(w, pid); }
    case Client(a, runId, call, now) => ClientKeepsWorld(w, a, runId, call, now);
    case Act(pid, env) => if pid < |w.processes| { ActKeepsWorld(w, pid, env); }
  }

  lemma {:induction false} RunKeepsWorld(w: World, events: seq<Event>)
    requires WorldInv(w)
    ensures WorldInv(Run(w, events)) && Evolves(w.tables, Run(w, events).tables)
  {
    if events == [] {
      EvolvesReflexive(w.tables);
    } else {
      var before := Run(w, events[..|events| - 1]);
      RunKeepsWorld(w, events[..|events| - 1]);
      NextKeepsWorld(before, events[|events| - 1]);
      EvolvesTransitive(w.tables, before.tables, Run(w, events).tables);
      hide WorldInv, Evolves;
    }
  }

  lemma GenesisOk()
    ensures WorldInv(GENESIS)
  {
  }

  /** Every reachable state satisfies the invariant. */
  lemma Reachable(events: seq<Event>)
    ensures WorldInv(Run(GENESIS, events))
  {
    GenesisOk();
    RunKeepsWorld(GENESIS, events);
  }
}
