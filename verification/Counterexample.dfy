/** The converse fails: an ambiguous commit of the completion makes a root fail the
    slot of a completed journal, and nothing ever repairs it.  */
module Counterexample {
  import opened Schema
  import opened Ledger
  import opened Transactions
  import opened Evolution
  import opened Links
  import opened Protocol
  import opened ProcessInvariant
  import opened WorldInvariant
  import opened Recovery
  import opened Agreement

  /** From any state in which a root is about to complete its journal, a commit that
      is durable but reported lost makes the root fail the slot.  */
  lemma AmbiguousCompletionDisagrees(w: World, pid: nat, now: Clock, ok: bool, status: int)
    requires pid < |w.processes| && w.processes[pid].pc.Completing? && w.processes[pid].root
    requires var p := w.processes[pid];
             && p.pc.journal < |w.tables.journals|
             && w.tables.journals[p.pc.journal].status.Settled?
             && w.tables.journals[p.pc.journal].slot == p.claim.slot
             && SlotMatches(w.tables, p.claim) && w.tables.slots[p.claim.slot].status.SlotClaimed?
    ensures var lost := Act(pid, Env(now, LostAfter, ok, status));
            var next := Act(pid, Env(now, NoFault, ok, status));
            Disagree(Next(Next(Next(w, lost), next), next).tables, w.processes[pid].claim.slot)
  {
    var p := w.processes[pid];
    var w1 := LostCompletion(w, pid, Env(now, LostAfter, ok, status));
    var w2 := Next(w1, Act(pid, Env(now, NoFault, ok, status)));
    assert w2.processes[pid] == p.(pc := Resolving(false)) && w2.tables == w1.tables;
    FailedSlot(w2, pid, Env(now, NoFault, ok, status), p.pc.journal);
  }

  lemma LostCompletion(w: World, pid: nat, env: Env) returns (v: World)
    requires pid < |w.processes| && w.processes[pid].pc.Completing? && env.fault.LostAfter?
    requires var j := w.processes[pid].pc.journal; j < |w.tables.journals| && w.tables.journals[j].status.Settled?
    ensures v == Next(w, Act(pid, env))
    ensures |v.processes| == |w.processes| && v.processes[pid] == w.processes[pid].(pc := Finishing(None))
    ensures var j := w.processes[pid].pc.journal;
      && v.tables == w.tables.(journals := w.tables.journals[j := v.tables.journals[j]])
      && v.tables.journals[j].status.Completed? && v.tables.journals[j].slot == w.tables.journals[j].slot
  {
    v := Next(w, Act(pid, env));
  }

  lemma FailedSlot(w: World, pid: nat, env: Env, j: nat)
    requires pid < |w.processes| && w.processes[pid].pc == Resolving(false) && env.fault.NoFault?
    requires var p := w.processes[pid];
      && SlotMatches(w.tables, p.claim) && w.tables.slots[p.claim.slot].status.SlotClaimed?
      && j < |w.tables.journals| && w.tables.journals[j].slot == p.claim.slot && w.tables.journals[j].status.Completed?
    ensures Disagree(Next(w, Act(pid, env)).tables, w.processes[pid].claim.slot)
  {
    var v := Next(w, Act(pid, env));
    assert v.tables.journals[j].slot == w.processes[pid].claim.slot;
  }

  lemma Extend(events: seq<Event>, e: Event)
    ensures Run(GENESIS, events + [e]) == Next(Run(GENESIS, events), e)
  {
    assert (events + [e])[..|events|] == events;
  }

  const DEMO_APPROVAL := Approval(1, 0, 1000, 1, 1, 1, 1, 1, 1)
  const DEMO_NOW := Clock(10, YearMonthDay(2026, 8, 23))
  const DEMO_ENV := Env(DEMO_NOW, NoFault, true, 200)
  const DEMO_ROOT := Process(true, DEMO_APPROVAL, 7, 99, 0, Claim(0, 1, 7, 99), ClaimingSlot(1, 7))

  const DEMO_RUN := RunBudget(7, 1, 0, 0, 0, 0, None, 0)
  const DEMO_DAY := DailyBudget(1, YearMonthDay(2026, 8, 23), 0, 0, 0)
  const DEMO_SLOT := Slot(1, 7, 99, SlotClaimed, 10, None)
  const DEMO_JOURNAL := Journal(1, 7, 0, 99, None, Claimed, None, 10, None, None, None, 0)
  const DEMO_PERMIT := Permit(0, 1, 99, 1, 0, Authorized, DEMO_NOW, None, None)

  const DEMO_READY := Tables([DEMO_RUN], [DEMO_DAY], [], [], [], [], [])
  const DEMO_CLAIMED := DEMO_READY.(slots := [DEMO_SLOT])
  const DEMO_JOURNALED := DEMO_CLAIMED.(journals := [DEMO_JOURNAL])
  const DEMO_STARTED := DEMO_JOURNALED.(
    runs := [DEMO_RUN.(requestCount := 1, inFlight := 1, version := 1)],
    dailies := [DEMO_DAY.(requestCount := 1, version := 1)],
    permits := [DEMO_PERMIT],
    journals := [DEMO_JOURNAL.(permit := Some(0), status := SendStarted, sendStartedAt := Some(10), version := 1)])
  const DEMO_RECORDED := DEMO_STARTED.(
    runs := [DEMO_RUN.(requestCount := 1, version := 2)],
    permits := [DEMO_PERMIT.(status := Consumed, consumedAt := Some(10), response := Some(200))],
    responses := [Response(0, 200)])
  const DEMO_SETTLED := DEMO_RECORDED.(
    journals := [DEMO_JOURNAL.(permit := Some(0), status := Settled, sendStartedAt := Some(10), settledAt := Some(10), version := 2)])

  function At(pc: Pc): Process {
    DEMO_ROOT.(pc := pc)
  }

  const DEMO_RECONCILER := Process(false, DEMO_APPROVAL, 7, 99, 0, Claim(0, 1, 7, 99), ReconcileJournal(0))
  const DEMO_LOST := DEMO_JOURNAL.(permit := Some(0), status := Indeterminate,
    failure := Some(RecoveryUnknownExternalEffect), sendStartedAt := Some(10), resolvedAt := Some(10), version := 2)
  const DEMO_MARKED := DEMO_STARTED.(journals := [DEMO_LOST])
  const DEMO_RELEASED := DEMO_MARKED.(
    runs := [DEMO_RUN.(requestCount := 1, version := 2)],
    permits := [DEMO_PERMIT.(status := TransportFailed, consumedAt := Some(10))])
  const DEMO_GIVEN_UP := DEMO_RELEASED.(slots := [DEMO_SLOT.(status := SlotFailed, resolvedAt := Some(10))])

  // The transactions of the undisturbed attempt, one by one.

  lemma DemoInitialize()
    ensures CallTx(EMPTY, DEMO_APPROVAL, 7, CallInitialize(true), DEMO_NOW) == DEMO_READY
  {
  }

  lemma DemoClaims()
    ensures ClaimSlot(DEMO_READY, 1, 7, 99, 10) == Commit(DEMO_CLAIMED, DEMO_ROOT.claim)
    ensures ClaimJournal(DEMO_CLAIMED, DEMO_ROOT.claim, 10) == Commit(DEMO_JOURNALED, Record(0, DEMO_JOURNAL))
  {
    assert DEMO_READY.runs[0].runId == 7 && DEMO_READY.runs[0].approval == 1;
  }

  lemma DemoJudge()
    ensures FindRun(DEMO_JOURNALED.runs, 7) == 0
    ensures FindDaily(DEMO_JOURNALED.dailies, 1, DEMO_NOW.day) == 0
    ensures Judge(DEMO_JOURNALED, DEMO_APPROVAL, 0, 0, DEMO_NOW, 0) == Grant
  {
    assert DEMO_JOURNALED.runs[0].runId == 7;
    assert [] + [DEMO_RUN] == [DEMO_RUN] && [] + [DEMO_DAY] == [DEMO_DAY];
    InFlightSumAppend([], DEMO_RUN, 1);
    MonthCostAppend([], DEMO_DAY, 1, DEMO_NOW.day);
  }

  lemma DemoReserve()
    ensures Reserve(DEMO_JOURNALED, DEMO_APPROVAL, 7, 99, DEMO_NOW, 0)
         == Commit(DEMO_STARTED.(journals := DEMO_JOURNALED.journals), Granted(0))
  {
    DemoJudge();
    hide Judge;
    var granted := GrantPermit(DEMO_JOURNALED, DEMO_APPROVAL, 0, 0, 99, DEMO_NOW, 0);
    assert granted.permits == DEMO_STARTED.permits;
    assert granted.runs == DEMO_STARTED.runs;
    assert granted.dailies == DEMO_STARTED.dailies;
  }

  lemma DemoAuthorize()
    ensures AuthorizeAndStart(DEMO_JOURNALED, DEMO_APPROVAL, 7, 0, 99, DEMO_NOW, 0) == Commit(DEMO_STARTED, Granted(0))
  {
    DemoReserve();
    hide Reserve;
    var t1 := DEMO_STARTED.(journals := DEMO_JOURNALED.journals);
    assert StartSend(t1, 0, 0, 10).journals == DEMO_STARTED.journals;
  }

  lemma DemoSettlement()
    ensures RecordResponse(DEMO_STARTED, DEMO_APPROVAL, 7, 0, 200, 10) == Commit(DEMO_RECORDED, ())
    ensures SettleJournal(DEMO_RECORDED, 0, 0, 10) == Commit(DEMO_SETTLED, Record(0, DEMO_SETTLED.journals[0]))
  {
    var u := RecordResponse(DEMO_STARTED, DEMO_APPROVAL, 7, 0, 200, 10).tables;
    assert u.permits == DEMO_RECORDED.permits;
    assert u.runs == DEMO_RECORDED.runs;
    assert u.responses == DEMO_RECORDED.responses;
  }

  /** A tame run of the lone root that has reached `pc` with tables `t`. */
  ghost predicate Reached(events: seq<Event>, t: Tables, pc: Pc) {
    && TameRun(events)
    && Run(GENESIS, events).tables == t
    && Run(GENESIS, events).processes == [At(pc)]
  }

  lemma Play(events: seq<Event>, t: Tables, pc: Pc, u: Tables, next: Pc) returns (longer: seq<Event>)
    requires Reached(events, t, pc)
    requires var out := Step(t, At(pc), DEMO_ENV); out.tables == u && out.process == At(next)
    ensures Reached(longer, u, next)
  {
    longer := events + [Act(0, DEMO_ENV)];
    Extend(events, Act(0, DEMO_ENV));
    assert longer[..|events|] == events;
  }

  lemma PlayStart() returns (events: seq<Event>)
    ensures Reached(events, DEMO_READY, ClaimingSlot(1, 7))
  {
    DemoInitialize();
    hide CallTx, Step;
    var init, start := Client(DEMO_APPROVAL, 7, CallInitialize(true), DEMO_NOW), Start(DEMO_ROOT);
    assert [init][..0] == [];
    assert Run(GENESIS, [init]) == Next(GENESIS, init);
    assert TameRun([init]);
    Extend([init], start);
    events := [init] + [start];
    assert events[..1] == [init];
  }

  lemma PlayIntent() returns (events: seq<Event>)
    ensures Reached(events, DEMO_STARTED, ReadingBack(0, 0))
  {
    events := PlayStart();
    DemoClaims();
    DemoAuthorize();
    hide Reached, ClaimSlot, ClaimJournal, AuthorizeAndStart;
    events := Play(events, DEMO_READY, ClaimingSlot(1, 7), DEMO_CLAIMED, Preparing);
    events := Play(events, DEMO_CLAIMED, Preparing, DEMO_CLAIMED, ClaimingJournal);
    events := Play(events, DEMO_CLAIMED, ClaimingJournal, DEMO_JOURNALED, Authorizing(0));
    events := Play(events, DEMO_JOURNALED, Authorizing(0), DEMO_STARTED, ReadingBack(0, 0));
  }

  lemma PlayVerified() returns (events: seq<Event>)
    ensures Reached(events, DEMO_STARTED, Verified(0, 0, 10))
  {
    events := PlayIntent();
    hide Reached;
    events := Play(events, DEMO_STARTED, ReadingBack(0, 0), DEMO_STARTED, Calling(0, 0, 10));
    events := Play(events, DEMO_STARTED, Calling(0, 0, 10), DEMO_STARTED, Verifying(0, 0, 10));
    events := Play(events, DEMO_STARTED, Verifying(0, 0, 10), DEMO_STARTED, Verified(0, 0, 10));
  }

  lemma PlaySend() returns (events: seq<Event>)
    ensures Reached(events, DEMO_STARTED, Recording(0, 0, 200))
  {
    events := PlayVerified();
    hide Reached;
    events := Play(events, DEMO_STARTED, Verified(0, 0, 10), DEMO_STARTED, Fetching(0, 0));
    events := Play(events, DEMO_STARTED, Fetching(0, 0), DEMO_STARTED, Recording(0, 0, 200));
  }

  lemma DemoReconcile()
    ensures RecoverWithoutResend(DEMO_STARTED, 0, 10) == Commit(DEMO_MARKED, Record(0, DEMO_LOST))
    ensures ConsumeUncertainPermit(DEMO_MARKED, Record(0, DEMO_LOST), 10) == Commit(DEMO_RELEASED, ())
    ensures ResolveSlot(DEMO_RELEASED, ClaimOf(Record(0, DEMO_LOST)), false, 10) == Commit(DEMO_GIVEN_UP, ())
  {
    assert RecoverWithoutResend(DEMO_STARTED, 0, 10).tables.journals == [DEMO_LOST];
    assert ConsumeUncertainPermit(DEMO_MARKED, Record(0, DEMO_LOST), 10).tables.permits == DEMO_RELEASED.permits;
    assert ConsumeUncertainPermit(DEMO_MARKED, Record(0, DEMO_LOST), 10).tables.runs == DEMO_RELEASED.runs;
    assert ResolveSlot(DEMO_RELEASED, ClaimOf(Record(0, DEMO_LOST)), false, 10).tables.slots == DEMO_GIVEN_UP.slots;
  }

  /** The reconciler takes one step while the root waits at `pc`. */
  lemma Meanwhile(w: World, pc: Pc, from: Pc, u: Tables, to: Pc) returns (v: World)
    requires w.processes == [At(pc), DEMO_RECONCILER.(pc := from)]
    requires Step(w.tables, DEMO_RECONCILER.(pc := from), DEMO_ENV) == StepOut(u, DEMO_RECONCILER.(pc := to), Nothing)
    ensures v == Next(w, Act(1, DEMO_ENV)) == w.(tables := u, processes := [At(pc), DEMO_RECONCILER.(pc := to)])
  {
    v := Next(w, Act(1, DEMO_ENV));
    assert v.processes == [At(pc), DEMO_RECONCILER.(pc := to)];
    hide Step;
  }

  lemma WholeReconcile(w: World) returns (v: World)
    requires w.tables == DEMO_STARTED && w.processes == [At(Verified(0, 0, 10)), DEMO_RECONCILER]
    ensures v == Next(Next(Next(w, Act(1, DEMO_ENV)), Act(1, DEMO_ENV)), Act(1, DEMO_ENV))
    ensures v.tables == DEMO_GIVEN_UP && |v.processes| == 2 && v.processes[0] == At(Verified(0, 0, 10))
  {
    var r, pc := Record(0, DEMO_LOST), Verified(0, 0, 10);
    DemoReconcileSteps();
    hide Next, Step;
    v := Meanwhile(w, pc, ReconcileJournal(0), DEMO_MARKED, ReconcilePermit(r));
    v := Meanwhile(v, pc, ReconcilePermit(r), DEMO_RELEASED, ReconcileSlot(r));
    v := Meanwhile(v, pc, ReconcileSlot(r), DEMO_GIVEN_UP, Reconciled(r));
  }

  lemma DemoReconcileSteps()
    ensures var r, p := Record(0, DEMO_LOST), DEMO_RECONCILER;
      && Step(DEMO_STARTED, p, DEMO_ENV) == StepOut(DEMO_MARKED, p.(pc := ReconcilePermit(r)), Nothing)
      && Step(DEMO_MARKED, p.(pc := ReconcilePermit(r)), DEMO_ENV) == StepOut(DEMO_RELEASED, p.(pc := ReconcileSlot(r)), Nothing)
      && Step(DEMO_RELEASED, p.(pc := ReconcileSlot(r)), DEMO_ENV) == StepOut(DEMO_GIVEN_UP, p.(pc := Reconciled(r)), Nothing)
  {
    DemoReconcile();
    hide RecoverWithoutResend, ConsumeUncertainPermit, ResolveSlot;
  }

  lemma ReconcilerJoins(events: seq<Event>, pc: Pc)
    requires Reached(events, DEMO_STARTED, pc)
    ensures var w := Run(GENESIS, events + [Start(DEMO_RECONCILER)]);
      w.tables == DEMO_STARTED && w.processes == [At(pc), DEMO_RECONCILER]
  {
    Extend(events, Start(DEMO_RECONCILER));
  }

  lemma LateFetch(w: World)
    requires w.tables == DEMO_GIVEN_UP && |w.processes| == 2 && w.processes[0] == At(Verified(0, 0, 10))
    ensures Next(w, Act(0, DEMO_ENV)).fetched == w.fetched + [Mark(0, 0, 1, Indeterminate)]
  {
  }

  /** The race between verification and fetch is real: a whole reconcile fits in
      between, and the fetch still begins.  */
  lemma FetchAfterReconcile() returns (events: seq<Event>)
    ensures var w, v := Run(GENESIS, events), Run(GENESIS, events + [Act(0, DEMO_ENV)]);
      && v.fetched == w.fetched + [Mark(0, 0, 1, Indeterminate)]
      && w.tables == DEMO_GIVEN_UP
    ensures DEMO_GIVEN_UP.journals == [DEMO_LOST] && DEMO_LOST.status.Indeterminate?
    ensures DEMO_GIVEN_UP.permits[0].status.TransportFailed? && DEMO_GIVEN_UP.slots[0].status.SlotFailed?
  {
    var before := PlayVerified();
    var act := Act(1, DEMO_ENV);
    ReconcilerJoins(before, Verified(0, 0, 10));
    var joined := before + [Start(DEMO_RECONCILER)];
    hide Run, Reached, Next;
    var w := WholeReconcile(Run(GENESIS, joined));
    Extend(joined, act);
    Extend(joined + [act], act);
    Extend(joined + [act] + [act], act);
    events := joined + [act] + [act] + [act];
    LateFetch(w);
    Extend(events, Act(0, DEMO_ENV));
  }

  /** One undisturbed attempt, up to the point before the journal is completed. */
  lemma AttemptReachesCompleting() returns (events: seq<Event>)
    ensures Reached(events, DEMO_SETTLED, Completing(0, 0, 200))
  {
    events := PlaySend();
    DemoSettlement();
    hide Reached, RecordResponse, SettleJournal;
    events := Play(events, DEMO_STARTED, Recording(0, 0, 200), DEMO_RECORDED, Settling(0, 0, 200));
    events := Play(events, DEMO_RECORDED, Settling(0, 0, 200), DEMO_SETTLED, Processing(0, 0, 200));
    events := Play(events, DEMO_SETTLED, Processing(0, 0, 200), DEMO_SETTLED, Completing(0, 0, 200));
  }

  /** The disagreement is real: a run from the empty database, with one root and one
      ambiguous commit, ends with a failed slot and a completed journal.  */
  lemma DisagreementReachable() returns (events: seq<Event>)
    ensures Disagree(Run(GENESIS, events).tables, 0)
  {
    var attempt := AttemptReachesCompleting();
    var w := Run(GENESIS, attempt);
    AmbiguousCompletionDisagrees(w, 0, DEMO_NOW, true, 200);
    var lost, next := Act(0, Env(DEMO_NOW, LostAfter, true, 200)), Act(0, Env(DEMO_NOW, NoFault, true, 200));
    Extend(attempt, lost);
    Extend(attempt + [lost], next);
    Extend(attempt + [lost] + [next], next);
    events := attempt + [lost] + [next] + [next];
  }

  /** Once a slot and its journal disagree they do so for ever, and every reconcile
      of that journal raises.  */
  lemma DisagreementIsPermanent(events: seq<Event>, more: seq<Event>, j: nat, now: Instant)
    requires j < |Run(GENESIS, events).tables.journals|
    requires Run(GENESIS, events).tables.journals[j].status.Completed?
    requires Disagree(Run(GENESIS, events).tables, Run(GENESIS, events).tables.journals[j].slot)
    ensures var u := Run(Run(GENESIS, events), more).tables;
            && j < |u.journals| && Disagree(u, u.journals[j].slot)
            && Reconcile(u, j, now).Broke?
  {
    var t, u := Run(GENESIS, events).tables, Run(Run(GENESIS, events), more).tables;
    Reachable(events);
    RunKeepsWorld(Run(GENESIS, events), more);
    assert Good(u);
    hide Run, WorldInv, Good, Disagree, Evolves, Reconcile, Opposed;
    DisagreementStays(t, u, j);
    ReconcileReachesTarget(u, j, now);
  }

  lemma DisagreementStays(t: Tables, u: Tables, j: nat)
    requires Evolves(t, u) && j < |t.journals| && t.journals[j].status.Completed? && Disagree(t, t.journals[j].slot)
    ensures j < |u.journals| && Disagree(u, u.journals[j].slot) && Opposed(u, j)
  {
    assert JournalEvolves(t.journals[j], u.journals[j]);
    assert SlotEvolves(t.slots[t.journals[j].slot], u.slots[t.journals[j].slot]);
  }
}
