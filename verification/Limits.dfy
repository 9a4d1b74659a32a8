/** Every limit of an approval holds in every state, not only when it is checked:
    concurrency over all runs, per-run and daily counts, daily and monthly cost,
    and the requests in any sixty seconds, whatever the clock readings were.  */
module Limits {
  import opened Schema
  import opened Ledger
  import opened Transactions
  import opened Budget

  /** Permits of an approval authorized in the sixty seconds after `s`. */
  function MinuteCount(permits: seq<Permit>, approval: Digest, s: Instant): int {
    Total(permits, AuthorizedWithin(approval, s, s + MICROS_PER_MINUTE))
  }

  ghost predicate MinuteOk(permits: seq<Permit>, a: Approval) {
    forall s: Instant :: MinuteCount(permits, a.fingerprint, s) <= a.requestsPerMinute
  }

  ghost predicate RunCapOk(runs: seq<RunBudget>, a: Approval) {
    forall r :: 0 <= r < |runs| && runs[r].approval == a.fingerprint ==> runs[r].requestCount <= a.perRunRequestCap
  }

  ghost predicate DayCapsOk(dailies: seq<DailyBudget>, a: Approval) {
    forall d :: 0 <= d < |dailies| && dailies[d].approval == a.fingerprint ==>
      dailies[d].requestCount <= a.dailyRequestCap && dailies[d].cost <= a.dailyCostCap
  }

  ghost predicate MonthCapOk(dailies: seq<DailyBudget>, a: Approval) {
    forall day: Date :: MonthCost(dailies, a.fingerprint, day) <= a.monthlyCostCap
  }

  ghost predicate WithinLimits(t: Tables, a: Approval) {
    && MinuteOk(t.permits, a)
    && InFlightSum(t.runs, a.fingerprint) <= a.concurrency
    && RunCapOk(t.runs, a)
    && DayCapsOk(t.dailies, a)
    && MonthCapOk(t.dailies, a)
  }

  /** No two approvals in play share a fingerprint: what collision freedom of the hash gives. */
  predicate Distinguishes(a: Approval, b: Approval) {
    b.fingerprint == a.fingerprint ==> b == a
  }

  lemma {:induction false} MonthCostSame(dailies: seq<DailyBudget>, approval: Digest, d: Date, e: Date)
    requires d.year == e.year && d.month == e.month
    ensures MonthCost(dailies, approval, d) == MonthCost(dailies, approval, e)
  {
    if dailies != [] {
      MonthCostSame(dailies[..|dailies| - 1], approval, d, e);
    }
  }

  /** A new permit at `now` fits every sixty-second window: a window that holds it
      reaches back no further than the minute that was counted.  */
  lemma GrantKeepsMinute(permits: seq<Permit>, p: Permit, a: Approval)
    requires MinuteOk(permits, a)
    requires p.approval == a.fingerprint ==>
               Total(permits, AuthorizedAfter(a.fingerprint, p.authorizedAt.at - MICROS_PER_MINUTE)) < a.requestsPerMinute
    ensures MinuteOk(permits + [p], a)
  {
    forall s: Instant ensures MinuteCount(permits + [p], a.fingerprint, s) <= a.requestsPerMinute {
      var window := AuthorizedWithin(a.fingerprint, s, s + MICROS_PER_MINUTE);
      TotalAppend(permits, p, window);
      assert MinuteCount(permits, a.fingerprint, s) <= a.requestsPerMinute;
      if Weight(window, p) == 1 {
        TotalMonotone(permits, window, AuthorizedAfter(a.fingerprint, p.authorizedAt.at - MICROS_PER_MINUTE));
      }
    }
  }

  lemma GrantKeepsMonth(t: Tables, a: Approval, b: Approval, run: nat, daily: nat, keyHash: Digest, now: Clock, cost: int)
    requires MonthCapOk(t.dailies, a) && Distinguishes(a, b)
    requires run < |t.runs| && daily < |t.dailies|
    requires t.dailies[daily].approval == b.fingerprint && t.dailies[daily].day == now.day
    requires MonthCost(t.dailies, b.fingerprint, now.day) + cost <= b.monthlyCostCap
    ensures MonthCapOk(GrantPermit(t, b, run, daily, keyHash, now, cost).dailies, a)
  {
    var u := GrantPermit(t, b, run, daily, keyHash, now, cost);
    forall day: Date ensures MonthCost(u.dailies, a.fingerprint, day) <= a.monthlyCostCap {
      MonthCostUpdate(t.dailies, daily, u.dailies[daily], a.fingerprint, day);
      assert MonthCost(t.dailies, a.fingerprint, day) <= a.monthlyCostCap;
      if InMonth(u.dailies[daily], a.fingerprint, day) {
        MonthRange(now.day, day);
        MonthCostSame(t.dailies, a.fingerprint, day, now.day);
      }
    }
  }

  lemma GrantKeepsLimits(t: Tables, a: Approval, b: Approval, run: nat, daily: nat, keyHash: Digest, now: Clock, cost: int)
    requires WithinLimits(t, a) && Distinguishes(a, b)
    requires run < |t.runs| && daily < |t.dailies| && t.runs[run].approval == b.fingerprint
    requires t.dailies[daily].approval == b.fingerprint && t.dailies[daily].day == now.day
    requires Judge(t, b, run, daily, now, cost).Grant?
    ensures WithinLimits(GrantPermit(t, b, run, daily, keyHash, now, cost), a)
  {
    var u := GrantPermit(t, b, run, daily, keyHash, now, cost);
    GrantKeepsMinute(t.permits, NewPermit(t, b, run, keyHash, now, cost), a);
    GrantKeepsMonth(t, a, b, run, daily, keyHash, now, cost);
    InFlightSumUpdate(t.runs, run, u.runs[run], a.fingerprint);
    assert InFlightSum(u.runs, a.fingerprint) <= a.concurrency;
  }

  /** With no later permit on record, the look-back count is the window that ends now. */
  lemma {:induction false} MinuteBehind(permits: seq<Permit>, approval: Digest, now: Instant)
    requires forall i :: 0 <= i < |permits| && permits[i].approval == approval ==> permits[i].authorizedAt.at <= now
    ensures Total(permits, AuthorizedAfter(approval, now - MICROS_PER_MINUTE))
         == MinuteCount(permits, approval, now - MICROS_PER_MINUTE)
  {
    if permits != [] { MinuteBehind(permits[..|permits| - 1], approval, now); }
  }

  lemma GrantedState(t: Tables, a: Approval, run: nat, daily: nat, keyHash: Digest, now: Clock, cost: int)
    requires run < |t.runs| && daily < |t.dailies| && t.runs[run].approval == a.fingerprint
    requires t.dailies[daily].approval == a.fingerprint && t.dailies[daily].day == now.day
    ensures var u := GrantPermit(t, a, run, daily, keyHash, now, cost);
      && InFlightSum(u.runs, a.fingerprint) == InFlightSum(t.runs, a.fingerprint) + 1
      && MonthCost(u.dailies, a.fingerprint, now.day) == MonthCost(t.dailies, a.fingerprint, now.day) + cost
      && MinuteCount(u.permits, a.fingerprint, now.at - MICROS_PER_MINUTE)
         == MinuteCount(t.permits, a.fingerprint, now.at - MICROS_PER_MINUTE) + 1
      && u.runs[run].requestCount == t.runs[run].requestCount + 1
      && u.dailies[daily].requestCount == t.dailies[daily].requestCount + 1
      && u.dailies[daily].cost == t.dailies[daily].cost + cost
  {
    var u := GrantPermit(t, a, run, daily, keyHash, now, cost);
    hide InFlightSum, MonthCost, Total;
    InFlightSumUpdate(t.runs, run, u.runs[run], a.fingerprint);
    MonthOfDay(u.dailies[daily], a.fingerprint);
    MonthCostUpdate(t.dailies, daily, u.dailies[daily], a.fingerprint, now.day);
    hide InMonth;
    TotalAppend(t.permits, NewPermit(t, a, run, keyHash, now, cost),
      AuthorizedWithin(a.fingerprint, now.at - MICROS_PER_MINUTE, now.at - MICROS_PER_MINUTE + MICROS_PER_MINUTE));
  }

  lemma MonthOfDay(d: DailyBudget, approval: Digest)
    requires d.approval == approval
    ensures InMonth(d, approval, d.day)
  {
    MonthRange(d.day, d.day);
  }

  /** No needless refusal: unless the clock is behind a recorded permit, a request is
      granted exactly when its run is open, the approval active, and the tables would
      still be within every limit.  */
  lemma GrantExactly(t: Tables, a: Approval, run: nat, daily: nat, keyHash: Digest, now: Clock, cost: int)
    requires WithinLimits(t, a) && run < |t.runs| && daily < |t.dailies| && t.runs[run].approval == a.fingerprint
    requires t.dailies[daily].approval == a.fingerprint && t.dailies[daily].day == now.day
    requires forall i :: 0 <= i < |t.permits| && t.permits[i].approval == a.fingerprint ==>
      t.permits[i].authorizedAt.at <= now.at
    ensures Judge(t, a, run, daily, now, cost).Grant?
      <==> t.runs[run].stop.None? && a.ActiveAt(now.at)
           && WithinLimits(GrantPermit(t, a, run, daily, keyHash, now, cost), a)
  {
    var u := GrantPermit(t, a, run, daily, keyHash, now, cost);
    GrantedState(t, a, run, daily, keyHash, now, cost);
    MinuteBehind(t.permits, a.fingerprint, now.at);
    if Judge(t, a, run, daily, now, cost).Grant? {
      GrantKeepsLimits(t, a, a, run, daily, keyHash, now, cost);
    }
    if WithinLimits(u, a) {
      assert MinuteCount(u.permits, a.fingerprint, now.at - MICROS_PER_MINUTE) <= a.requestsPerMinute;
      assert MonthCost(u.dailies, a.fingerprint, now.day) <= a.monthlyCostCap;
      assert u.runs[run].approval == a.fingerprint && u.dailies[daily].approval == a.fingerprint;
    }
    hide GrantPermit, MinuteOk, MonthCapOk;
  }

  lemma OpenDayKeepsLimits(t: Tables, a: Approval, approval: Digest, day: Date)
    requires WithinLimits(t, a)
    ensures WithinLimits(OpenDay(t, approval, day), a)
  {
    var u := OpenDay(t, approval, day);
    if u == t { return; }
    var row := DailyBudget(approval, day, 0, 0, 0);
    forall d: Date ensures MonthCost(u.dailies, a.fingerprint, d) <= a.monthlyCostCap {
      MonthCostAppend(t.dailies, row, a.fingerprint, d);
      assert MonthCost(t.dailies, a.fingerprint, d) <= a.monthlyCostCap;
    }
    assert DayCapsOk(u.dailies, a);
  }

  lemma StopKeepsLimits(t: Tables, a: Approval, run: nat, reason: StopReason, at: Instant, trigger: Trigger)
    requires WithinLimits(t, a) && run < |t.runs|
    ensures WithinLimits(StopOnce(t, run, reason, at, trigger), a)
  {
    var u := StopOnce(t, run, reason, at, trigger);
    if u == t { return; }
    InFlightSumUpdate(t.runs, run, u.runs[run], a.fingerprint);
  }

  lemma SpendKeepsLimits(t: Tables, u: Tables, a: Approval, permit: nat)
    requires WithinLimits(t, a) && Spends(t, u, permit)
    ensures WithinLimits(u, a)
  {
    var run := t.permits[permit].run;
    InFlightSumUpdate(t.runs, run, u.runs[run], a.fingerprint);
    forall s: Instant ensures MinuteCount(u.permits, a.fingerprint, s) <= a.requestsPerMinute {
      TotalUpdate(t.permits, permit, u.permits[permit], AuthorizedWithin(a.fingerprint, s, s + MICROS_PER_MINUTE));
      assert MinuteCount(t.permits, a.fingerprint, s) <= a.requestsPerMinute;
    }
  }

  // ----- whole transactions

  ghost predicate KeepsLimits<R>(a: Approval, tx: Tx<R>) {
    tx.Commit? ==> WithinLimits(tx.tables, a)
  }

  lemma ReserveKeepsLimits(t: Tables, a: Approval, b: Approval, runId: nat, keyHash: Digest, now: Clock, cost: int)
    requires WithinLimits(t, a) && Distinguishes(a, b)
    ensures KeepsLimits(a, Reserve(t, b, runId, keyHash, now, cost))
  {
    var run := FindRun(t.runs, runId);
    if run < |t.runs| && t.runs[run].approval == b.fingerprint && !HasPermit(t.permits, run, keyHash) {
      OpenDayKeepsLimits(t, a, b.fingerprint, now.day);
      var t1 := OpenDay(t, b.fingerprint, now.day);
      var daily := FindDaily(t1.dailies, b.fingerprint, now.day);
      match Judge(t1, b, run, daily, now, cost)
      case Grant => GrantKeepsLimits(t1, a, b, run, daily, keyHash, now, cost);
      case Stop(reason) => StopKeepsLimits(t1, a, run, reason, now.at, TriggerOf(reason));
      case Defer(_) =>
    }
  }

  lemma AuthorizeAndStartKeepsLimits(
    t: Tables, a: Approval, b: Approval, runId: nat, journal: nat, keyHash: Digest, now: Clock, cost: int)
    requires WithinLimits(t, a) && Distinguishes(a, b)
    ensures KeepsLimits(a, AuthorizeAndStart(t, b, runId, journal, keyHash, now, cost))
  {
    ReserveKeepsLimits(t, a, b, runId, keyHash, now, cost);
  }

  lemma RecordResponseKeepsLimits(t: Tables, a: Approval, b: Approval, runId: nat, permit: nat, status: int, now: Instant)
    requires WithinLimits(t, a) && BudgetInv(t)
    ensures KeepsLimits(a, RecordResponse(t, b, runId, permit, status, now))
  {
    if RecordResponse(t, b, runId, permit, status, now).Commit? {
      var p := t.permits[permit];
      assert PermitRowOk(t, permit);
      var r := Answered(t.runs[p.run], status);
      var t1 := t.(permits := t.permits[permit := p.(status := Consumed, consumedAt := Some(now), response := Some(status))],
                   runs := t.runs[p.run := r],
                   responses := t.responses + [Response(p.run, status)]);
      SpendKeepsLimits(t, t1, a, permit);
      if BreakerReason(r).Some? {
        StopKeepsLimits(t1, a, p.run, BreakerReason(r).value, now, ByResponse);
      }
    }
  }

  lemma ReleaseKeepsLimits(t: Tables, a: Approval, permit: nat, now: Instant)
    requires WithinLimits(t, a) && BudgetInv(t) && permit < |t.permits| && t.permits[permit].status.Authorized?
    ensures t.permits[permit].run < |t.runs| && WithinLimits(ReleaseFailed(t, permit, now), a)
  {
    assert PermitRowOk(t, permit);
    SpendKeepsLimits(t, ReleaseFailed(t, permit, now), a, permit);
  }

  lemma InitializeKeepsLimits(t: Tables, a: Approval, b: Approval, runId: nat, known: bool, now: Clock)
    requires WithinLimits(t, a)
    ensures KeepsLimits(a, Initialize(t, b, runId, known, now))
  {
    var tx := Initialize(t, b, runId, known, now);
    if tx.Commit? {
      if FindRun(t.runs, runId) == |t.runs| {
        var r := RunBudget(runId, b.fingerprint, 0, 0, 0, 0, None, 0);
        InFlightSumAppend(t.runs, r, a.fingerprint);
        OpenDayKeepsLimits(t.(runs := t.runs + [r]), a, b.fingerprint, now.day);
      } else {
        OpenDayKeepsLimits(t, a, b.fingerprint, now.day);
      }
    }
  }

  /** Concurrency again, counted in permits: the authorized permits of an approval
      over all of its runs never outnumber its concurrency.  */
  lemma AuthorizedPermitsBounded(t: Tables, a: Approval)
    requires BudgetInv(t) && WithinLimits(t, a)
    ensures Total(t.permits, InFlightOfApproval(a.fingerprint)) <= a.concurrency
  {
    assert InFlightSum(t.runs, a.fingerprint) == Total(t.permits, InFlightOfApproval(a.fingerprint));
  }
}
