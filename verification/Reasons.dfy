/** Why the kernel decides as it does: its counters and ordered checks, against the permit
    rows and the response log alone.  */
module Reasons {
  import opened Schema
  import opened Ledger
  import opened Transactions
  import opened Budget
  import opened Breakers
  import opened Evolution
  import opened Links
  import opened Protocol
  import opened ProcessInvariant
  import opened WorldInvariant
  import opened KernelTheorems

  // ----- the month, counted in permits

  /** What the permits of each opened day in the month cost. */
  function Spread(dailies: seq<DailyBudget>, permits: seq<Permit>, approval: Digest, day: Date): int {
    if dailies == [] then 0
    else
      var last := dailies[|dailies| - 1];
      Spread(dailies[..|dailies| - 1], permits, approval, day)
        + (if InMonth(last, approval, day) then Total(permits, CostOnDay(last.approval, last.day)) else 0)
  }

  /** What one permit adds to the opened days of the month. */
  function Hits(dailies: seq<DailyBudget>, p: Permit, approval: Digest, day: Date): int {
    if dailies == [] then 0
    else
      var last := dailies[|dailies| - 1];
      Hits(dailies[..|dailies| - 1], p, approval, day)
        + (if InMonth(last, approval, day) then Weight(CostOnDay(last.approval, last.day), p) else 0)
  }

  lemma {:induction false} SpreadIsMonth(dailies: seq<DailyBudget>, permits: seq<Permit>, approval: Digest, day: Date)
    requires forall d :: 0 <= d < |dailies| ==> dailies[d].cost == Total(permits, CostOnDay(dailies[d].approval, dailies[d].day))
    ensures MonthCost(dailies, approval, day) == Spread(dailies, permits, approval, day)
  {
    if dailies != [] { SpreadIsMonth(dailies[..|dailies| - 1], permits, approval, day); }
  }

  lemma {:induction false} SpreadAppend(dailies: seq<DailyBudget>, permits: seq<Permit>, p: Permit, approval: Digest, day: Date)
    ensures Spread(dailies, permits + [p], approval, day) == Spread(dailies, permits, approval, day) + Hits(dailies, p, approval, day)
  {
    if dailies != [] {
      var last := dailies[|dailies| - 1];
      SpreadAppend(dailies[..|dailies| - 1], permits, p, approval, day);
      TotalAppend(permits, p, CostOnDay(last.approval, last.day));
    }
  }

  lemma {:induction false} SpreadOfNone(dailies: seq<DailyBudget>, approval: Digest, day: Date)
    ensures Spread(dailies, [], approval, day) == 0
  {
    if dailies != [] { SpreadOfNone(dailies[..|dailies| - 1], approval, day); }
  }

  lemma {:induction false} HitsNone(dailies: seq<DailyBudget>, p: Permit, approval: Digest, day: Date)
    requires forall d :: 0 <= d < |dailies| ==> !(dailies[d].approval == p.approval && dailies[d].day == p.authorizedAt.day)
    ensures Hits(dailies, p, approval, day) == 0
  {
    if dailies != [] { HitsNone(dailies[..|dailies| - 1], p, approval, day); }
  }

  /** Each permit's day is opened once. */
  lemma {:induction false} HitsOnce(dailies: seq<DailyBudget>, p: Permit, approval: Digest, day: Date)
    requires forall i, k :: 0 <= i < k < |dailies| ==>
      !(dailies[i].approval == dailies[k].approval && dailies[i].day == dailies[k].day)
    requires FindDaily(dailies, p.approval, p.authorizedAt.day) < |dailies|
    ensures Hits(dailies, p, approval, day) == Weight(CostInMonth(approval, day), p)
  {
    var n := |dailies| - 1;
    var last := dailies[n];
    MonthRange(last.day, day);
    if last.approval == p.approval && last.day == p.authorizedAt.day {
      HitsNone(dailies[..n], p, approval, day);
    } else {
      HitsOnce(dailies[..n], p, approval, day);
    }
  }

  lemma {:induction false} SpreadIsTotal(dailies: seq<DailyBudget>, permits: seq<Permit>, approval: Digest, day: Date)
    requires forall i, k :: 0 <= i < k < |dailies| ==>
      !(dailies[i].approval == dailies[k].approval && dailies[i].day == dailies[k].day)
    requires forall i :: 0 <= i < |permits| ==> FindDaily(dailies, permits[i].approval, permits[i].authorizedAt.day) < |dailies|
    ensures Spread(dailies, permits, approval, day) == Total(permits, CostInMonth(approval, day))
  {
    if permits == [] {
      SpreadOfNone(dailies, approval, day);
    } else {
      var n := |permits| - 1;
      SpreadIsTotal(dailies, permits[..n], approval, day);
      SpreadAppend(dailies, permits[..n], permits[n], approval, day);
      HitsOnce(dailies, permits[n], approval, day);
      assert permits == permits[..n] + [permits[n]];
    }
  }

  /** The monthly query over the daily budgets is the cost of the month's permits. */
  lemma MonthIsItsPermits(t: Tables, approval: Digest, day: Date)
    requires BudgetInv(t)
    ensures MonthCost(t.dailies, approval, day) == Total(t.permits, CostInMonth(approval, day))
  {
    forall d | 0 <= d < |t.dailies|
      ensures t.dailies[d].cost == Total(t.permits, CostOnDay(t.dailies[d].approval, t.dailies[d].day))
    {
      assert DayRowOk(t, t.dailies[d]);
    }
    SpreadIsMonth(t.dailies, t.permits, approval, day);
    SpreadIsTotal(t.dailies, t.permits, approval, day);
  }

  // ----- the decision, from the permit rows

  /** What the permits on record say of one more request: the first limit it would
      break, in the order of the source, or none.  */
  function Due(permits: seq<Permit>, a: Approval, run: nat, now: Clock, cost: int): Decision {
    if now.at < a.approvedAt || a.expiresAt <= now.at then Stopped(ApprovalInactive)
    else if Total(permits, InFlightOfApproval(a.fingerprint)) >= a.concurrency then Deferred(true)
    else if Total(permits, AuthorizedAfter(a.fingerprint, now.at - MICROS_PER_MINUTE)) >= a.requestsPerMinute then Deferred(false)
    else if Total(permits, PermitsOfRun(run)) >= a.perRunRequestCap then Stopped(PerRunRequestCap)
    else if Total(permits, CountOnDay(a.fingerprint, now.day)) >= a.dailyRequestCap then Stopped(DailyRequestCap)
    else if Total(permits, CostOnDay(a.fingerprint, now.day)) + cost > a.dailyCostCap then Stopped(DailyCostCap)
    else if Total(permits, CostInMonth(a.fingerprint, now.day)) + cost > a.monthlyCostCap then Stopped(MonthlyCostCap)
    else Granted(|permits|)
  }

  function OfVerdict(t: Tables, v: Verdict): Decision {
    match v
    case Grant => Granted(|t.permits|)
    case Stop(reason) => Stopped(reason)
    case Defer(atConcurrency) => Deferred(atConcurrency)
  }

  /** The counters decide what the rows say. */
  lemma JudgedByRows(t: Tables, a: Approval, run: nat, now: Clock, cost: int)
    requires BudgetInv(t) && run < |t.runs| && t.runs[run].stop.None?
    requires FindDaily(t.dailies, a.fingerprint, now.day) < |t.dailies|
    ensures OfVerdict(t, Judge(t, a, run, FindDaily(t.dailies, a.fingerprint, now.day), now, cost))
         == Due(t.permits, a, run, now, cost)
  {
    var daily := FindDaily(t.dailies, a.fingerprint, now.day);
    assert DayRowOk(t, t.dailies[daily]);
    assert InFlightSum(t.runs, a.fingerprint) == Total(t.permits, InFlightOfApproval(a.fingerprint));
    MonthIsItsPermits(t, a.fingerprint, now.day);
    hide Total, MonthCost, InFlightSum, FindDaily;
  }

  /** A stop is written once, with the reason, the trigger that belongs to it, and the time. */
  ghost predicate Halts(t: Tables, u: Tables, run: nat, reason: StopReason, trigger: Trigger, at: Instant)
  {
    && run < |t.runs| && u.runs == t.runs[run := t.runs[run].(stop := Some(reason), version := t.runs[run].version + 1)]
    && u.stops == t.stops + [StopEvent(t.runs[run].approval, t.runs[run].runId, reason, trigger, at)]
    && u.permits == t.permits && u.responses == t.responses && u.slots == t.slots && u.journals == t.journals
  }

  /** The transaction that carries out a verdict. */
  function JudgedTx(t: Tables, a: Approval, run: nat, daily: nat, keyHash: Digest, now: Clock, cost: int): Tx<Decision>
    requires run < |t.runs| && daily < |t.dailies|
  {
    match Judge(t, a, run, daily, now, cost)
    case Grant => Commit(GrantPermit(t, a, run, daily, keyHash, now, cost), Granted(|t.permits|))
    case Stop(reason) => Commit(StopOnce(t, run, reason, now.at, TriggerOf(reason)), Stopped(reason))
    case Defer(atConcurrency) => Commit(t, Deferred(atConcurrency))
  }

  lemma ReserveForm(t: Tables, a: Approval, runId: nat, keyHash: Digest, now: Clock, cost: int)
    requires cost >= 0
    requires var run := FindRun(t.runs, runId);
      run < |t.runs| && t.runs[run].approval == a.fingerprint && !HasPermit(t.permits, run, keyHash)
    ensures var t1 := OpenDay(t, a.fingerprint, now.day); var daily := FindDaily(t1.dailies, a.fingerprint, now.day);
      && daily < |t1.dailies| && |t1.runs| == |t.runs|
      && Authorize(t, a, runId, keyHash, now, cost) == JudgedTx(t1, a, FindRun(t.runs, runId), daily, keyHash, now, cost)
  {
    hide Judge, GrantPermit, StopOnce, HasPermit;
  }

  ghost predicate SameStops(t: Tables, u: Tables) {
    |t.runs| <= |u.runs| && forall r :: 0 <= r < |t.runs| ==> u.runs[r].stop == t.runs[r].stop
  }

  /** For a fresh request of a known run the answer is that of the rows; a stopped run
      answers with the reason it was stopped for, and a run is stopped only here and now.  */
  ghost predicate Decides(t: Tables, a: Approval, run: nat, keyHash: Digest, now: Clock, cost: int, tx: Tx<Decision>)
    requires run < |t.runs|
  {
    && tx.Commit?
    && (t.runs[run].stop.Some? ==>
          && tx.result == Stopped(t.runs[run].stop.value)
          && tx.tables.runs == t.runs && tx.tables.stops == t.stops && tx.tables.permits == t.permits)
    && (t.runs[run].stop.None? ==>
          && tx.result == Due(t.permits, a, run, now, cost)
          && (match tx.result
              case Stopped(reason) => Halts(t, tx.tables, run, reason, if reason.ApprovalInactive? then ByApproval else ByBudget, now.at)
              case Deferred(_) => tx.tables.runs == t.runs && tx.tables.stops == t.stops && tx.tables.permits == t.permits
              case Granted(_) =>
                && tx.tables.stops == t.stops && SameStops(t, tx.tables)
                && tx.tables.permits == t.permits + [Permit(run, Total(t.permits, PermitsOfRun(run)) + 1, keyHash,
                                                            a.fingerprint, cost, Authorized, now, None, None)]))
  }

  lemma JudgedDecides(t: Tables, a: Approval, run: nat, keyHash: Digest, now: Clock, cost: int)
    requires BudgetInv(t) && run < |t.runs| && t.runs[run].approval == a.fingerprint
    requires FindDaily(t.dailies, a.fingerprint, now.day) < |t.dailies|
    ensures Decides(t, a, run, keyHash, now, cost,
                    JudgedTx(t, a, run, FindDaily(t.dailies, a.fingerprint, now.day), keyHash, now, cost))
  {
    var daily := FindDaily(t.dailies, a.fingerprint, now.day);
    assert t.runs[run].requestCount == Total(t.permits, PermitsOfRun(run));
    if t.runs[run].stop.None? { JudgedByRows(t, a, run, now, cost); }
    hide BudgetInv, Due, Total, FindDaily;
    JudgedStop(t, a, run, daily, now, cost);
    hide Judge;
  }

  lemma JudgedStop(t: Tables, a: Approval, run: nat, daily: nat, now: Clock, cost: int)
    requires run < |t.runs| && daily < |t.dailies|
    ensures t.runs[run].stop.Some? ==> Judge(t, a, run, daily, now, cost) == Stop(t.runs[run].stop.value)
    ensures t.runs[run].stop.None? ==>
      match Judge(t, a, run, daily, now, cost)
      case Stop(reason) => TriggerOf(reason) == if reason.ApprovalInactive? then ByApproval else ByBudget
      case _ => true
  {
  }

  lemma ReserveDecides(t: Tables, a: Approval, runId: nat, keyHash: Digest, now: Clock, cost: int)
    requires BudgetInv(t) && cost >= 0
    requires var run := FindRun(t.runs, runId);
      run < |t.runs| && t.runs[run].approval == a.fingerprint && !HasPermit(t.permits, run, keyHash)
    ensures Decides(t, a, FindRun(t.runs, runId), keyHash, now, cost, Authorize(t, a, runId, keyHash, now, cost))
  {
    var run, t1 := FindRun(t.runs, runId), OpenDay(t, a.fingerprint, now.day);
    assert SameButDays(t, t1);
    OpenDayKeepsBudget(t, a.fingerprint, now.day);
    ReserveForm(t, a, runId, keyHash, now, cost);
    hide *;
    SameButDaysRow(t, t1, run);
    JudgedDecides(t1, a, run, keyHash, now, cost);
    DecidesAlike(t, t1, a, run, keyHash, now, cost, Authorize(t, a, runId, keyHash, now, cost));
  }

  ghost predicate SameButDays(t: Tables, u: Tables) {
    u.runs == t.runs && u.permits == t.permits && u.stops == t.stops && u.responses == t.responses
    && u.slots == t.slots && u.journals == t.journals
  }

  lemma SameButDaysRow(t: Tables, u: Tables, run: nat)
    requires SameButDays(t, u) && run < |t.runs|
    ensures run < |u.runs| && u.runs[run] == t.runs[run]
  {
  }

  lemma DecidesAlike(
    t: Tables, u: Tables, a: Approval, run: nat, keyHash: Digest, now: Clock, cost: int, tx: Tx<Decision>)
    requires SameButDays(t, u) && run < |t.runs| && run < |u.runs| && Decides(u, a, run, keyHash, now, cost, tx)
    ensures Decides(t, a, run, keyHash, now, cost, tx)
  {
    hide Due, Total;
  }

  /** In every reachable state the kernel decides what the permit rows say. */
  lemma DecisionFollowsTheRows(events: seq<Event>, a: Approval, runId: nat, keyHash: Digest, now: Clock, cost: int)
    requires cost >= 0
    requires var t := Run(GENESIS, events).tables; var run := FindRun(t.runs, runId);
      run < |t.runs| && t.runs[run].approval == a.fingerprint && !HasPermit(t.permits, run, keyHash)
    ensures var t := Run(GENESIS, events).tables;
      Decides(t, a, FindRun(t.runs, runId), keyHash, now, cost, Authorize(t, a, runId, keyHash, now, cost))
  {
    Reachable(events);
    var t := Run(GENESIS, events).tables;
    assert BudgetInv(t);
    hide Run, WorldInv, BudgetInv, HasPermit, Decides, Authorize;
    ReserveDecides(t, a, runId, keyHash, now, cost);
  }

  /** In every reachable state an authorization is refused without a decision exactly for a
      negative cost, for a run that is not this approval's, or for a repeated request.  */
  lemma RefusedExactly(events: seq<Event>, a: Approval, runId: nat, keyHash: Digest, now: Clock, cost: int)
    ensures var t := Run(GENESIS, events).tables;
      Authorize(t, a, runId, keyHash, now, cost).Abort? <==>
        || cost < 0
        || !(exists r :: 0 <= r < |t.runs| && t.runs[r].runId == runId && t.runs[r].approval == a.fingerprint)
        || (exists i :: 0 <= i < |t.permits| && t.permits[i].run < |t.runs| && t.runs[t.permits[i].run].runId == runId
                        && t.permits[i].keyHash == keyHash)
  {
    var t := Run(GENESIS, events).tables;
    Reachable(events);
    assert RowsOk(t);
    hide Run, WorldInv;
    RefusedByRows(t, a, runId, keyHash, now, cost);
  }

  lemma RefusedByRows(t: Tables, a: Approval, runId: nat, keyHash: Digest, now: Clock, cost: int)
    requires RowsOk(t)
    ensures Authorize(t, a, runId, keyHash, now, cost).Abort? <==>
        || cost < 0
        || !(exists r :: 0 <= r < |t.runs| && t.runs[r].runId == runId && t.runs[r].approval == a.fingerprint)
        || (exists i :: 0 <= i < |t.permits| && t.permits[i].run < |t.runs| && t.runs[t.permits[i].run].runId == runId
                        && t.permits[i].keyHash == keyHash)
  {
    var run := FindRun(t.runs, runId);
    hide Judge;
    if run < |t.runs| {
      assert forall r :: 0 <= r < |t.runs| && t.runs[r].runId == runId ==> r == run;
      assert HasPermit(t.permits, run, keyHash) <==>
        exists i :: 0 <= i < |t.permits| && t.permits[i].run < |t.runs| && t.runs[t.permits[i].run].runId == runId
                    && t.permits[i].keyHash == keyHash;
    } else {
      assert forall r :: 0 <= r < |t.runs| ==> t.runs[r].runId != runId;
    }
    hide RowsOk;
  }

  /** In every reachable state a response or a failure is accepted exactly for a permit that
      is out to this run of this approval.  */
  lemma AcceptedExactly(events: seq<Event>, a: Approval, runId: nat, permit: nat, status: int, now: Instant)
    ensures var t := Run(GENESIS, events).tables;
      var out := permit < |t.permits| && var p := t.permits[permit];
        p.status.Authorized? && p.approval == a.fingerprint && p.run < |t.runs| && t.runs[p.run].runId == runId;
      && (RecordResponse(t, a, runId, permit, status, now).Commit? <==> out && 100 <= status <= 599)
      && (RecordTransportFailure(t, a, runId, permit, now).Commit? <==> out)
  {
    var t := Run(GENESIS, events).tables;
    Reachable(events);
    assert BudgetInv(t);
    hide Run, WorldInv;
    if permit < |t.permits| && t.permits[permit].status.Authorized? {
      InFlightAtLeastOne(t, permit);
      assert PermitRowOk(t, permit);
    }
    hide BudgetInv;
  }

  // ----- every stop has its reason

  /** This response is the second equal denial in a row, and stops its run for that. */
  ghost predicate DeniedTwice(t: Tables, u: Tables, run: nat, status: int, at: Instant)
    requires run < |t.runs|
  {
    var log := RunLog(t.responses, run);
    && (status == 403 || status == 429)
    && u.responses == t.responses + [Response(run, status)]
    && log != [] && log[|log| - 1] == status
    && run < |u.runs| && u.runs[run].stop == Some(if status == 403 then Repeated403 else Repeated429)
    && u.stops == t.stops + [StopEvent(t.runs[run].approval, t.runs[run].runId,
                                       if status == 403 then Repeated403 else Repeated429, ByResponse, at)]
  }

  /** The rows have reached a limit for this request, and its authorization stops the run for that. */
  ghost predicate LimitReached(t: Tables, u: Tables, a: Approval, runId: nat, run: nat, now: Clock, cost: int)
    requires run < |t.runs|
  {
    var due := Due(t.permits, a, run, now, cost);
    && t.runs[run].runId == runId && t.runs[run].approval == a.fingerprint
    && due.Stopped?
    && Halts(t, u, run, due.reason, if due.reason.ApprovalInactive? then ByApproval else ByBudget, now.at)
  }

  ghost predicate StopIsEarned(w: World, e: Event, run: nat)
    requires run < |w.tables.runs|
  {
    var t, u := w.tables, Next(w, e).tables;
    match e
    case Client(a, runId, call, now) =>
      (match call
       case CallStop(reason, trigger) =>
         t.runs[run].runId == runId && t.runs[run].approval == a.fingerprint && Halts(t, u, run, reason, trigger, now.at)
       case CallAuthorize(_, cost) => LimitReached(t, u, a, runId, run, now, cost)
       case CallResponse(_, status) => DeniedTwice(t, u, run, status, now.at)
       case _ => false)
    case Act(pid, env) =>
      && pid < |w.processes|
      && var p := w.processes[pid];
         (match p.pc
          case Authorizing(_) => LimitReached(t, u, p.approval, p.runId, run, env.now, p.cost)
          case Recording(_, _, status) => DeniedTwice(t, u, run, status, env.now.at)
          case _ => false)
    case _ => false
  }

  ghost predicate NewlyStopped(t: Tables, u: Tables, run: nat) {
    run < |t.runs| && run < |u.runs| && t.runs[run].stop.None? && u.runs[run].stop.Some?
  }

  lemma ReserveStops(t: Tables, a: Approval, runId: nat, keyHash: Digest, now: Clock, cost: int, run: nat)
    requires BudgetInv(t) && cost >= 0
    requires var tx := Reserve(t, a, runId, keyHash, now, cost); tx.Commit? && NewlyStopped(t, tx.tables, run)
    ensures LimitReached(t, Reserve(t, a, runId, keyHash, now, cost).tables, a, runId, run, now, cost)
  {
    var k := FindRun(t.runs, runId);
    assert k < |t.runs| && t.runs[k].approval == a.fingerprint && !HasPermit(t.permits, k, keyHash);
    ReserveDecides(t, a, runId, keyHash, now, cost);
    hide BudgetInv, Reserve, Due, HasPermit, Total;
  }

  lemma AuthorizeStops(
    t: Tables, a: Approval, runId: nat, journal: nat, keyHash: Digest, now: Clock, cost: int, run: nat)
    requires BudgetInv(t)
    requires var tx := AuthorizeAndStart(t, a, runId, journal, keyHash, now, cost); tx.Commit? && NewlyStopped(t, tx.tables, run)
    ensures LimitReached(t, AuthorizeAndStart(t, a, runId, journal, keyHash, now, cost).tables, a, runId, run, now, cost)
  {
    AuthorizeForm(t, a, runId, journal, keyHash, now, cost);
    hide BudgetInv, AuthorizeAndStart, Reserve;
    ReserveStops(t, a, runId, keyHash, now, cost, run);
    var k := FindRun(t.runs, runId);
    assert Reserve(t, a, runId, keyHash, now, cost).Commit?;
    GrantStopsNobody(t, a, runId, keyHash, now, cost);
  }

  lemma GrantStopsNobody(t: Tables, a: Approval, runId: nat, keyHash: Digest, now: Clock, cost: int)
    ensures var tx := Reserve(t, a, runId, keyHash, now, cost);
      tx.Commit? && tx.result.Granted? ==> SameStops(t, tx.tables)
  {
    hide Judge;
  }

  lemma ResponseStops(t: Tables, a: Approval, runId: nat, permit: nat, status: int, now: Instant, run: nat)
    requires BreakerInv(t)
    requires var tx := RecordResponse(t, a, runId, permit, status, now); tx.Commit? && NewlyStopped(t, tx.tables, run)
    ensures DeniedTwice(t, RecordResponse(t, a, runId, permit, status, now).tables, run, status, now)
  {
    assert run == t.permits[permit].run;
    assert BreakerRowOk(t, run);
    hide RunLog, StopsOf, RepeatedDenial;
  }

  lemma OthersStopNobody(t: Tables, a: Approval, runId: nat, permit: nat, r: Record, known: bool, now: Clock)
    ensures var tx := RecordTransportFailure(t, a, runId, permit, now.at); tx.Commit? ==> SameStops(t, tx.tables)
    ensures var tx := ConsumeUncertainPermit(t, r, now.at); tx.Commit? ==> SameStops(t, tx.tables)
    ensures var tx := Initialize(t, a, runId, known, now); tx.Commit? ==> SameStops(t, tx.tables)
  {
  }

  lemma ActStops(w: World, pid: nat, env: Env, run: nat)
    requires Good(w.tables) && pid < |w.processes|
    requires NewlyStopped(w.tables, Next(w, Act(pid, env)).tables, run)
    ensures StopIsEarned(w, Act(pid, env), run)
  {
    var t, p, u := w.tables, w.processes[pid], Next(w, Act(pid, env)).tables;
    assert BudgetInv(t) && BreakerInv(t);
    hide Good, BudgetInv, BreakerInv, Next, Step, AuthorizeAndStart, RecordResponse, Transactions.RecordTransportFailure,
      ConsumeUncertainPermit, Initialize, LimitReached, DeniedTwice;
    ActMoves(w, pid, env);
    BudgetStep(t, p, env);
    match p.pc
    case Authorizing(j) => AuthorizeStops(t, p.approval, p.runId, j, p.keyHash, env.now, p.cost, run);
    case Recording(_, permit, status) => ResponseStops(t, p.approval, p.runId, permit, status, env.now.at, run);
    case ReleasingUnsent(_, permit) => OthersStopNobody(t, p.approval, p.runId, permit, Record(0, AnyJournal()), true, env.now);
    case ReleasingUnknown(_, permit) => OthersStopNobody(t, p.approval, p.runId, permit, Record(0, AnyJournal()), true, env.now);
    case ReconcilePermit(r) => OthersStopNobody(t, p.approval, p.runId, 0, r, true, env.now);
    case _ => QuietSteps(t, p, env);
  }

  function AnyJournal(): Journal {
    Journal(0, 0, 0, 0, None, Claimed, None, 0, None, None, None, 0)
  }

  lemma CallStops(w: World, a: Approval, runId: nat, call: Call, now: Clock, run: nat)
    requires Good(w.tables)
    requires NewlyStopped(w.tables, CallTx(w.tables, a, runId, call, now), run)
    ensures StopIsEarned(w, Client(a, runId, call, now), run)
  {
    var t := w.tables;
    assert BudgetInv(t) && BreakerInv(t);
    hide Good, BudgetInv, BreakerInv, Reserve, RecordResponse, Transactions.RecordTransportFailure, ConsumeUncertainPermit,
      Initialize, LimitReached, DeniedTwice, Step;
    match call
    case CallAuthorize(keyHash, cost) => ReserveStops(t, a, runId, keyHash, now, cost, run);
    case CallResponse(permit, status) => ResponseStops(t, a, runId, permit, status, now.at, run);
    case CallTransportFailure(permit) => OthersStopNobody(t, a, runId, permit, Record(0, AnyJournal()), true, now);
    case CallInitialize(known) => OthersStopNobody(t, a, runId, 0, Record(0, AnyJournal()), known, now);
    case CallStop(_, _) =>
  }

  /** Whenever an event stops a run, the reason it records is the truth: a limit that the
      permit rows have reached, the first in order; the denial that the run's last two
      answers were; or the reason that somebody gave.  */
  lemma EveryStopIsEarned(events: seq<Event>, e: Event, run: nat)
    requires NewlyStopped(Run(GENESIS, events).tables, Run(GENESIS, events + [e]).tables, run)
    ensures StopIsEarned(Run(GENESIS, events), e, run)
  {
    var w := Run(GENESIS, events);
    Reachable(events);
    assert (events + [e])[..|events|] == events;
    assert Run(GENESIS, events + [e]) == Next(w, e);
    assert Good(w.tables);
    hide Run, WorldInv, Good, Step, CallTx, StopIsEarned;
    match e
    case Act(pid, env) => if pid < |w.processes| { ActStops(w, pid, env, run); }
    case Client(a, runId, call, now) => CallStops(w, a, runId, call, now, run);
    case Start(_) =>
    case Crash(_) =>
  }
}
