/** The safety kernel over every run: limits, conservation and circuit breakers
    hold in every reachable state, with the live protocol and any other users of
    the kernel interleaved.  */
module KernelTheorems {
  import opened Schema
  import opened Ledger
  import opened Transactions
  import opened Budget
  import opened Breakers
  import opened Evolution
  import opened Limits
  import opened Links
  import opened Protocol
  import opened ProcessInvariant
  import opened WorldInvariant

  /** The fingerprint identifies the approval: no event brings a second one. */
  predicate EventDistinguishes(a: Approval, e: Event) {
    match e
    case Start(p) => Distinguishes(a, p.approval)
    case Client(b, _, _, _) => Distinguishes(a, b)
    case _ => true
  }

  predicate AllDistinguish(a: Approval, events: seq<Event>) {
    forall i | 0 <= i < |events| :: EventDistinguishes(a, events[i])
  }

  lemma LimitsFrame(t: Tables, u: Tables, a: Approval)
    requires WithinLimits(t, a) && u.runs == t.runs && u.dailies == t.dailies && u.permits == t.permits
    ensures WithinLimits(u, a)
  {
  }

  lemma AfterWithin<R>(t: Tables, tx: Tx<R>, fault: Fault, a: Approval)
    requires WithinLimits(t, a) && KeepsLimits(a, tx)
    ensures WithinLimits(After(t, tx, fault), a)
  {
  }

  /** The tables with the budgets untouched. */
  ghost predicate SameBudgets(t: Tables, u: Tables) {
    u.runs == t.runs && u.dailies == t.dailies && u.permits == t.permits
  }

  lemma QuietRoot(t: Tables, p: Process, env: Env)
    requires p.pc.ClaimingSlot? || p.pc.Preparing? || p.pc.Finishing? || p.pc.Resolving?
    ensures SameBudgets(t, RootStep(t, p, env).tables)
  {
  }

  lemma QuietCoordinator(t: Tables, p: Process, env: Env)
    requires p.pc.ClaimingJournal? || p.pc.FailingUnauthorized? || p.pc.ReadingBack? || p.pc.InspectingUnsent? || p.pc.FailingUnsent?
    ensures SameBudgets(t, Step(t, p, env).tables)
  {
    hide RootStep, SendStep, SettleStep, UnknownStep, ReconcileStep, AuthorizeAndStart, Transactions.RecordTransportFailure;
  }

  lemma QuietSettle(t: Tables, p: Process, env: Env)
    requires p.pc.Settling? || p.pc.Processing? || p.pc.FailingSettled? || p.pc.Completing?
    ensures SameBudgets(t, SettleStep(t, p, env).tables)
  {
    hide RecordResponse;
  }

  lemma QuietSend(t: Tables, p: Process, env: Env)
    requires p.pc.Calling? || p.pc.Verifying? || p.pc.Verified? || p.pc.Fetching?
    ensures SameBudgets(t, SendStep(t, p, env).tables)
  {
    hide MarkerVerified, Transactions.RecordTransportFailure;
  }

  lemma QuietUnknown(t: Tables, p: Process, env: Env)
    requires p.pc.Marking? || p.pc.Recovering?
    ensures SameBudgets(t, UnknownStep(t, p, env).tables)
  {
  }

  lemma QuietReconcile(t: Tables, p: Process, env: Env)
    requires p.pc.ReconcileJournal? || p.pc.ReconcileSlot? || p.pc.ReconcileRead?
    ensures SameBudgets(t, ReconcileStep(t, p, env).tables)
  {
    hide ConsumeUncertainPermit, ReadSlotStatus;
  }

  /** Slot and journal transactions do not touch the budgets. */
  lemma QuietSteps(t: Tables, p: Process, env: Env)
    requires !p.pc.Authorizing? && !p.pc.ReleasingUnsent? && !p.pc.ReleasingUnknown? && !p.pc.Recording? && !p.pc.ReconcilePermit?
    ensures SameBudgets(t, Step(t, p, env).tables)
  {
    hide RootStep, AuthorizeStep, UnsentStep, SendStep, SettleStep, UnknownStep, ReconcileStep;
    match p.pc
    case ClaimingSlot(_, _) | Preparing | Finishing(_) | Resolving(_) => QuietRoot(t, p, env);
    case ClaimingJournal | FailingUnauthorized(_) | ReadingBack(_, _) | InspectingUnsent(_, _) | FailingUnsent(_, _) =>
      QuietCoordinator(t, p, env);
    case Settling(_, _, _) | Processing(_, _, _) | FailingSettled(_, _, _, _) | Completing(_, _, _) => QuietSettle(t, p, env);
    case Calling(_, _, _) | Verifying(_, _, _) | Verified(_, _, _) | Fetching(_, _) => QuietSend(t, p, env);
    case Marking(_, _, _, _, _) | Recovering(_, _, _, _) => QuietUnknown(t, p, env);
    case ReconcileJournal(_) | ReconcileSlot(_) | ReconcileRead(_) => QuietReconcile(t, p, env);
    case Reconciled(_) | ReconcileRaised | Ended =>
  }

  lemma FailureKeepsLimits(t: Tables, a: Approval, b: Approval, runId: nat, permit: nat, now: Instant)
    requires WithinLimits(t, a) && BudgetInv(t)
    ensures KeepsLimits(a, RecordTransportFailure(t, b, runId, permit, now))
  {
    if RecordTransportFailure(t, b, runId, permit, now).Commit? { ReleaseKeepsLimits(t, a, permit, now); }
  }

  lemma ConsumeKeepsLimits(t: Tables, a: Approval, r: Record, now: Instant)
    requires WithinLimits(t, a) && BudgetInv(t)
    ensures KeepsLimits(a, ConsumeUncertainPermit(t, r, now))
  {
    var tx := ConsumeUncertainPermit(t, r, now);
    if tx.Commit? && tx.tables != t { ReleaseKeepsLimits(t, a, r.row.permit.value, now); }
  }

  lemma StepKeepsLimits(t: Tables, p: Process, env: Env, a: Approval)
    requires WithinLimits(t, a) && BudgetInv(t) && Distinguishes(a, p.approval)
    ensures WithinLimits(Step(t, p, env).tables, a)
  {
    hide Step, WithinLimits, BudgetInv, AuthorizeAndStart, RecordResponse, Transactions.RecordTransportFailure, ConsumeUncertainPermit;
    BudgetStep(t, p, env);
    match p.pc
    case Authorizing(j) =>
      AuthorizeAndStartKeepsLimits(t, a, p.approval, p.runId, j, p.keyHash, env.now, p.cost);
      AfterWithin(t, AuthorizeAndStart(t, p.approval, p.runId, j, p.keyHash, env.now, p.cost), env.fault, a);
    case ReleasingUnsent(_, permit) =>
      FailureKeepsLimits(t, a, p.approval, p.runId, permit, env.now.at);
      AfterWithin(t, RecordTransportFailure(t, p.approval, p.runId, permit, env.now.at), env.fault, a);
    case ReleasingUnknown(_, permit) =>
      FailureKeepsLimits(t, a, p.approval, p.runId, permit, env.now.at);
      AfterWithin(t, RecordTransportFailure(t, p.approval, p.runId, permit, env.now.at), env.fault, a);
    case Recording(_, permit, status) =>
      RecordResponseKeepsLimits(t, a, p.approval, p.runId, permit, status, env.now.at);
      AfterWithin(t, RecordResponse(t, p.approval, p.runId, permit, status, env.now.at), env.fault, a);
    case ReconcilePermit(r) =>
      ConsumeKeepsLimits(t, a, r, env.now.at);
      AfterWithin(t, ConsumeUncertainPermit(t, r, env.now.at), env.fault, a);
    case _ =>
      QuietSteps(t, p, env);
      LimitsFrame(t, Step(t, p, env).tables, a);
  }

  /** The steps that touch the budgets, and their transactions. */
  lemma BudgetStep(t: Tables, p: Process, env: Env)
    ensures var u, at := Step(t, p, env).tables, env.now.at;
      match p.pc
      case Authorizing(j) =>
        u == After(t, AuthorizeAndStart(t, p.approval, p.runId, j, p.keyHash, env.now, p.cost), env.fault)
      case ReleasingUnsent(_, permit) => u == After(t, RecordTransportFailure(t, p.approval, p.runId, permit, at), env.fault)
      case ReleasingUnknown(_, permit) => u == After(t, RecordTransportFailure(t, p.approval, p.runId, permit, at), env.fault)
      case Recording(_, permit, status) => u == After(t, RecordResponse(t, p.approval, p.runId, permit, status, at), env.fault)
      case ReconcilePermit(r) => u == After(t, ConsumeUncertainPermit(t, r, at), env.fault)
      case _ => true
  {
    hide AuthorizeAndStart, RecordResponse, Transactions.RecordTransportFailure, ConsumeUncertainPermit;
  }

  lemma CallKeepsLimits(t: Tables, a: Approval, b: Approval, runId: nat, call: Call, now: Clock)
    requires WithinLimits(t, a) && BudgetInv(t) && Distinguishes(a, b)
    ensures WithinLimits(CallTx(t, b, runId, call, now), a)
  {
    match call
    case CallInitialize(known) =>
      InitializeKeepsLimits(t, a, b, runId, known, now);
      AfterWithin(t, Initialize(t, b, runId, known, now), NoFault, a);
    case CallAuthorize(keyHash, cost) =>
      ReserveKeepsLimits(t, a, b, runId, keyHash, now, cost);
      AfterWithin(t, Authorize(t, b, runId, keyHash, now, cost), NoFault, a);
    case CallResponse(permit, status) =>
      RecordResponseKeepsLimits(t, a, b, runId, permit, status, now.at);
      AfterWithin(t, RecordResponse(t, b, runId, permit, status, now.at), NoFault, a);
    case CallTransportFailure(permit) =>
      FailureKeepsLimits(t, a, b, runId, permit, now.at);
      AfterWithin(t, RecordTransportFailure(t, b, runId, permit, now.at), NoFault, a);
    case CallStop(reason, trigger) =>
      if StopRun(t, b, runId, reason, now.at, trigger).Commit? {
        StopKeepsLimits(t, a, FindRun(t.runs, runId), reason, now.at, trigger);
      }
      AfterWithin(t, StopRun(t, b, runId, reason, now.at, trigger), NoFault, a);
  }

  ghost predicate WorldWithin(w: World, a: Approval) {
    && WithinLimits(w.tables, a)
    && forall i :: 0 <= i < |w.processes| ==> Distinguishes(a, w.processes[i].approval)
  }

  lemma StepKeepsApproval(t: Tables, p: Process, env: Env)
    ensures Step(t, p, env).process.approval == p.approval
  {
  }

  lemma NextKeepsLimits(w: World, e: Event, a: Approval)
    requires WorldWithin(w, a) && BudgetInv(w.tables) && EventDistinguishes(a, e)
    ensures WorldWithin(Next(w, e), a)
  {
    match e
    case Act(pid, env) =>
      if pid < |w.processes| {
        StepKeepsLimits(w.tables, w.processes[pid], env, a);
        StepKeepsApproval(w.tables, w.processes[pid], env);
        hide WithinLimits, BudgetInv, Step;
      }
    case Client(b, runId, call, now) => CallKeepsLimits(w.tables, a, b, runId, call, now);
    case _ =>
  }

  lemma {:induction false} RunKeepsLimits(events: seq<Event>, a: Approval)
    requires AllDistinguish(a, events)
    ensures WorldWithin(Run(GENESIS, events), a)
  {
    if events == [] {
    } else {
      var before := events[..|events| - 1];
      RunKeepsLimits(before, a);
      Reachable(before);
      assert EventDistinguishes(a, events[|events| - 1]);
      NextKeepsLimits(Run(GENESIS, before), events[|events| - 1], a);
      hide WorldWithin, WorldInv;
    }
  }

  /** Every cap of the approval, in every reachable state. */
  lemma AllLimitsHold(events: seq<Event>, a: Approval)
    requires AllDistinguish(a, events)
    ensures var t := Run(GENESIS, events).tables;
            // in any sixty seconds, whatever the order of the clock readings
            && (forall s: Instant :: MinuteCount(t.permits, a.fingerprint, s) <= a.requestsPerMinute)
            // in flight at once, over all runs
            && Total(t.permits, InFlightOfApproval(a.fingerprint)) <= a.concurrency
            && (forall r :: 0 <= r < |t.runs| && t.runs[r].approval == a.fingerprint ==>
                  Total(t.permits, PermitsOfRun(r)) <= a.perRunRequestCap)
            && (forall day: Date :: Total(t.permits, CountOnDay(a.fingerprint, day)) <= a.dailyRequestCap)
            && (forall day: Date :: Total(t.permits, CostOnDay(a.fingerprint, day)) <= a.dailyCostCap)
            && (forall day: Date :: MonthCost(t.dailies, a.fingerprint, day) <= a.monthlyCostCap)
  {
    var t := Run(GENESIS, events).tables;
    RunKeepsLimits(events, a);
    Reachable(events);
    AuthorizedPermitsBounded(t, a);
    forall day: Date
      ensures Total(t.permits, CountOnDay(a.fingerprint, day)) <= a.dailyRequestCap
      ensures Total(t.permits, CostOnDay(a.fingerprint, day)) <= a.dailyCostCap
    {
      var d := FindDaily(t.dailies, a.fingerprint, day);
      if d == |t.dailies| { UnopenedDayIsEmpty(t, a.fingerprint, day); } else { assert DayRowOk(t, t.dailies[d]); }
    }
  }

  /** In every reachable state a fresh request of a known run is granted exactly when
      the run is open, the approval active, and every limit would still hold; a clock
      behind a recorded permit is the only reason to refuse more.  */
  lemma GrantsExactly(events: seq<Event>, a: Approval, runId: nat, keyHash: Digest, now: Clock, cost: int)
    requires AllDistinguish(a, events) && cost >= 0
    requires var t := Run(GENESIS, events).tables; var run := FindRun(t.runs, runId);
      && run < |t.runs| && t.runs[run].approval == a.fingerprint && !HasPermit(t.permits, run, keyHash)
      && forall i :: 0 <= i < |t.permits| && t.permits[i].approval == a.fingerprint ==> t.permits[i].authorizedAt.at <= now.at
    ensures var t := Run(GENESIS, events).tables; var run := FindRun(t.runs, runId);
      var t1 := OpenDay(t, a.fingerprint, now.day);
      var daily := FindDaily(t1.dailies, a.fingerprint, now.day);
      var tx := Authorize(t, a, runId, keyHash, now, cost);
      && daily < |t1.dailies| && run < |t1.runs|
      && tx.Commit?
      && (tx.result.Granted? <==>
          && t.runs[run].stop.None? && a.ActiveAt(now.at)
          && WithinLimits(GrantPermit(t1, a, run, daily, keyHash, now, cost), a))
  {
    var t := Run(GENESIS, events).tables;
    RunKeepsLimits(events, a);
    OpenDayKeepsLimits(t, a, a.fingerprint, now.day);
    var t1 := OpenDay(t, a.fingerprint, now.day);
    var run, daily := FindRun(t.runs, runId), FindDaily(t1.dailies, a.fingerprint, now.day);
    assert t1.runs == t.runs && t1.permits == t.permits;
    hide Run, WorldWithin, AllDistinguish, OpenDay, WithinLimits;
    GrantExactly(t1, a, run, daily, keyHash, now, cost);
  }

  predicate HasSequence(permits: seq<Permit>, run: nat, k: int) {
    exists i | 0 <= i < |permits| :: permits[i].run == run && permits[i].sequence == k
  }

  /** Every counter is the count or sum of the permit rows it stands for. */
  lemma Conservation(events: seq<Event>)
    ensures var t := Run(GENESIS, events).tables;
            && (forall r :: 0 <= r < |t.runs| ==>
                  && t.runs[r].inFlight == Total(t.permits, InFlightOfRun(r))
                  && t.runs[r].requestCount == Total(t.permits, PermitsOfRun(r)))
            && (forall d :: 0 <= d < |t.dailies| ==>
                  && t.dailies[d].requestCount == Total(t.permits, CountOnDay(t.dailies[d].approval, t.dailies[d].day))
                  && t.dailies[d].cost == Total(t.permits, CostOnDay(t.dailies[d].approval, t.dailies[d].day)))
            && (forall r: nat, k: int :: r < |t.runs| ==>
                  (HasSequence(t.permits, r, k) <==> 1 <= k <= t.runs[r].requestCount))
  {
    var t := Run(GENESIS, events).tables;
    Reachable(events);
    forall d | 0 <= d < |t.dailies|
      ensures t.dailies[d].requestCount == Total(t.permits, CountOnDay(t.dailies[d].approval, t.dailies[d].day))
      ensures t.dailies[d].cost == Total(t.permits, CostOnDay(t.dailies[d].approval, t.dailies[d].day))
    {
      assert DayRowOk(t, t.dailies[d]);
    }
    forall r: nat, k: int | r < |t.runs|
      ensures HasSequence(t.permits, r, k) <==> 1 <= k <= t.runs[r].requestCount
    {
      SequencesAreExact(t, r, k);
    }
  }

  /** The breaker counters are the lengths of the runs of equal denials at the end of
      the response log, a repeated denial has stopped the run, and a run is stopped
      exactly when it has its one stop event.  */
  lemma BreakersFollowTheLog(events: seq<Event>, run: nat)
    requires run < |Run(GENESIS, events).tables.runs|
    ensures var t := Run(GENESIS, events).tables; var r := t.runs[run];
            && r.consecutive403 == Trailing(RunLog(t.responses, run), 403)
            && r.consecutive429 == Trailing(RunLog(t.responses, run), 429)
            && (RepeatedDenial(RunLog(t.responses, run)) ==> r.stop.Some?)
            && |StopsOf(t.stops, r.runId)| == (if r.stop.Some? then 1 else 0)
            && (r.stop.Some? ==> StopsOf(t.stops, r.runId)[0].reason == r.stop.value)
  {
    Reachable(events);
    assert BreakerRowOk(Run(GENESIS, events).tables, run);
  }

  /** Once a run is stopped its reason stands and no permit is granted to it again. */
  lemma StoppedForGood(events: seq<Event>, more: seq<Event>, run: nat)
    requires run < |Run(GENESIS, events).tables.runs| && Run(GENESIS, events).tables.runs[run].stop.Some?
    ensures var t, u := Run(GENESIS, events).tables, Run(Run(GENESIS, events), more).tables;
            && run < |u.runs|
            && u.runs[run].stop == t.runs[run].stop
            && StopsOf(u.stops, u.runs[run].runId) == StopsOf(t.stops, t.runs[run].runId)
            && Total(u.permits, PermitsOfRun(run)) == Total(t.permits, PermitsOfRun(run))
  {
    var t, u := Run(GENESIS, events).tables, Run(Run(GENESIS, events), more).tables;
    Reachable(events);
    RunKeepsWorld(Run(GENESIS, events), more);
    assert RunEvolves(t.runs[run], u.runs[run]);
    assert BreakerRowOk(t, run) && BreakerRowOk(u, run);
    assert t.stops <= u.stops;
    StopsOfPrefix(t.stops, u.stops, t.runs[run].runId);
  }

  lemma {:induction false} StopsOfPrefix(s: seq<StopEvent>, u: seq<StopEvent>, runId: nat)
    requires s <= u
    ensures StopsOf(s, runId) <= StopsOf(u, runId)
  {
    if s == u {
    } else {
      StopsOfPrefix(s, u[..|u| - 1], runId);
    }
  }
}
