/** Conservation: every budget counter is the count, or the sum, over the permit
    rows that it stands for.  */
module Budget {
  import opened Schema
  import opened Ledger
  import opened Transactions

  ghost predicate RowsOk(t: Tables) {
    && (forall i, k :: 0 <= i < k < |t.runs| ==> t.runs[i].runId != t.runs[k].runId)
    && (forall i :: 0 <= i < |t.runs| ==> RunShape(t.runs[i]))
    && (forall i :: 0 <= i < |t.permits| ==> PermitRowOk(t, i))
    && (forall i, k :: 0 <= i < k < |t.permits| ==>
          !(t.permits[i].run == t.permits[k].run && t.permits[i].keyHash == t.permits[k].keyHash))
  }

  /** A permit belongs to a run of its approval, is numbered by the permits of
      that run before it, and holds a response exactly when it is consumed.  */
  ghost predicate PermitRowOk(t: Tables, i: nat)
    requires i < |t.permits|
  {
    var p := t.permits[i];
    && PermitShape(p)
    && !p.status.Cancelled?
    && (p.status.Consumed? <==> p.response.Some?)
    && p.run < |t.runs|
    && p.approval == t.runs[p.run].approval
    && p.sequence == Total(t.permits[..i], PermitsOfRun(p.run)) + 1
  }

  ghost predicate CountsOk(t: Tables) {
    forall r :: 0 <= r < |t.runs| ==>
      && t.runs[r].inFlight == Total(t.permits, InFlightOfRun(r))
      && t.runs[r].requestCount == Total(t.permits, PermitsOfRun(r))
  }

  ghost predicate SumsOk(t: Tables) {
    forall a: Digest :: InFlightSum(t.runs, a) == Total(t.permits, InFlightOfApproval(a))
  }

  ghost predicate DaysOk(t: Tables) {
    && (forall i, k :: 0 <= i < k < |t.dailies| ==>
          !(t.dailies[i].approval == t.dailies[k].approval && t.dailies[i].day == t.dailies[k].day))
    && (forall i :: 0 <= i < |t.dailies| ==> DayRowOk(t, t.dailies[i]))
    && (forall i :: 0 <= i < |t.permits| ==>
          FindDaily(t.dailies, t.permits[i].approval, t.permits[i].authorizedAt.day) < |t.dailies|)
  }

  ghost predicate DayRowOk(t: Tables, d: DailyBudget) {
    && DailyShape(d)
    && d.requestCount == Total(t.permits, CountOnDay(d.approval, d.day))
    && d.cost == Total(t.permits, CostOnDay(d.approval, d.day))
  }

  ghost predicate BudgetInv(t: Tables) {
    RowsOk(t) && CountsOk(t) && SumsOk(t) && DaysOk(t)
  }

  /** The invariant reads only the runs, the daily budgets and the permits. */
  lemma BudgetFrame(t: Tables, u: Tables)
    requires BudgetInv(t)
    requires u.runs == t.runs && u.dailies == t.dailies && u.permits == t.permits
    ensures BudgetInv(u)
  {
    forall i | 0 <= i < |u.permits| ensures PermitRowOk(u, i) { assert PermitRowOk(t, i); }
    forall i | 0 <= i < |u.dailies| ensures DayRowOk(u, u.dailies[i]) { assert DayRowOk(t, t.dailies[i]); }
  }

  // ----- opening a day

  lemma FindDailyAppend(dailies: seq<DailyBudget>, d: DailyBudget, approval: Digest, day: Date)
    requires FindDaily(dailies, approval, day) < |dailies|
    ensures FindDaily(dailies + [d], approval, day) == FindDaily(dailies, approval, day)
  {
    assert (dailies + [d])[..|dailies|] == dailies;
  }

  /** A day with no row has no permits. */
  lemma UnopenedDayIsEmpty(t: Tables, approval: Digest, day: Date)
    requires BudgetInv(t) && FindDaily(t.dailies, approval, day) == |t.dailies|
    ensures Total(t.permits, CountOnDay(approval, day)) == 0
    ensures Total(t.permits, CostOnDay(approval, day)) == 0
  {
    forall k | 0 <= k < |t.permits|
      ensures !(t.permits[k].approval == approval && t.permits[k].authorizedAt.day == day)
    {
      assert FindDaily(t.dailies, t.permits[k].approval, t.permits[k].authorizedAt.day) < |t.dailies|;
    }
    TotalZero(t.permits, CountOnDay(approval, day));
    TotalZero(t.permits, CostOnDay(approval, day));
  }

  lemma OpenDayKeepsBudget(t: Tables, approval: Digest, day: Date)
    requires BudgetInv(t)
    ensures BudgetInv(OpenDay(t, approval, day))
  {
    var u := OpenDay(t, approval, day);
    if u == t { return; }
    var row := DailyBudget(approval, day, 0, 0, 0);
    assert u == t.(dailies := t.dailies + [row]);
    OpenDayRows(t, u, row);
    OpenDayDays(t, u, row);
    hide RowsOk, DaysOk, OpenDay;
  }

  lemma OpenDayRows(t: Tables, u: Tables, row: DailyBudget)
    requires RowsOk(t) && u == t.(dailies := t.dailies + [row]) && FindDaily(t.dailies, row.approval, row.day) == |t.dailies|
    requires row == DailyBudget(row.approval, row.day, 0, 0, 0)
    ensures RowsOk(u)
  {
    forall i | 0 <= i < |t.permits| ensures PermitRowOk(u, i) { assert PermitRowOk(t, i); }
  }

  lemma OpenDayDays(t: Tables, u: Tables, row: DailyBudget)
    requires BudgetInv(t) && u == t.(dailies := t.dailies + [row]) && FindDaily(t.dailies, row.approval, row.day) == |t.dailies|
    requires row == DailyBudget(row.approval, row.day, 0, 0, 0)
    ensures DaysOk(u)
  {
    forall i | 0 <= i < |t.permits|
      ensures FindDaily(u.dailies, t.permits[i].approval, t.permits[i].authorizedAt.day) < |u.dailies|
    {
      FindDailyAppend(t.dailies, row, t.permits[i].approval, t.permits[i].authorizedAt.day);
    }
    UnopenedDayIsEmpty(t, row.approval, row.day);
    forall i | 0 <= i < |u.dailies| ensures DayRowOk(u, u.dailies[i]) {
      if i < |t.dailies| { assert DayRowOk(t, t.dailies[i]); }
    }
  }

  // ----- a new run budget

  lemma AppendRunKeepsBudget(t: Tables, runId: nat, approval: Digest)
    requires BudgetInv(t) && FindRun(t.runs, runId) == |t.runs|
    ensures BudgetInv(t.(runs := t.runs + [RunBudget(runId, approval, 0, 0, 0, 0, None, 0)]))
  {
    var r := RunBudget(runId, approval, 0, 0, 0, 0, None, 0);
    var u := t.(runs := t.runs + [r]);
    AppendRunKeepsCounts(t, r);
    hide CountsOk;
    forall i | 0 <= i < |t.permits| ensures PermitRowOk(u, i) { assert PermitRowOk(t, i); }
    forall a: Digest ensures InFlightSum(u.runs, a) == Total(u.permits, InFlightOfApproval(a)) {
      InFlightSumAppend(t.runs, r, a);
    }
    forall i | 0 <= i < |u.dailies| ensures DayRowOk(u, u.dailies[i]) { assert DayRowOk(t, t.dailies[i]); }
  }

  /** Nobody has a permit of a run that is new. */
  lemma AppendRunKeepsCounts(t: Tables, r: RunBudget)
    requires RowsOk(t) && CountsOk(t) && r.inFlight == 0 == r.requestCount
    ensures CountsOk(t.(runs := t.runs + [r]))
  {
    forall k | 0 <= k < |t.permits| ensures t.permits[k].run < |t.runs| { assert PermitRowOk(t, k); }
    TotalZero(t.permits, InFlightOfRun(|t.runs|));
    TotalZero(t.permits, PermitsOfRun(|t.runs|));
    hide RowsOk, Total;
  }

  // ----- a stop

  lemma StopKeepsBudget(t: Tables, run: nat, reason: StopReason, at: Instant, trigger: Trigger)
    requires BudgetInv(t) && run < |t.runs|
    ensures BudgetInv(StopOnce(t, run, reason, at, trigger))
  {
    var u := StopOnce(t, run, reason, at, trigger);
    if u == t { return; }
    forall i | 0 <= i < |t.permits| ensures PermitRowOk(u, i) { assert PermitRowOk(t, i); }
    forall a: Digest ensures InFlightSum(u.runs, a) == Total(u.permits, InFlightOfApproval(a)) {
      InFlightSumUpdate(t.runs, run, u.runs[run], a);
    }
    forall i | 0 <= i < |u.dailies| ensures DayRowOk(u, u.dailies[i]) { assert DayRowOk(t, t.dailies[i]); }
  }

  // ----- a granted permit

  lemma GrantKeepsBudget(t: Tables, a: Approval, run: nat, daily: nat, keyHash: Digest, now: Clock, cost: int)
    requires BudgetInv(t) && run < |t.runs| && daily < |t.dailies| && cost >= 0
    requires t.runs[run].approval == a.fingerprint
    requires daily == FindDaily(t.dailies, a.fingerprint, now.day)
    requires !HasPermit(t.permits, run, keyHash)
    ensures BudgetInv(GrantPermit(t, a, run, daily, keyHash, now, cost))
  {
    var u := GrantPermit(t, a, run, daily, keyHash, now, cost);
    var p := NewPermit(t, a, run, keyHash, now, cost);
    GrantKeepsRows(t, u, a, run, daily, keyHash, now, cost);
    forall r | 0 <= r < |t.runs|
      ensures u.runs[r].inFlight == Total(u.permits, InFlightOfRun(r))
      ensures u.runs[r].requestCount == Total(u.permits, PermitsOfRun(r))
    {
      TotalAppend(t.permits, p, InFlightOfRun(r));
      TotalAppend(t.permits, p, PermitsOfRun(r));
    }
    forall d: Digest ensures InFlightSum(u.runs, d) == Total(u.permits, InFlightOfApproval(d)) {
      TotalAppend(t.permits, p, InFlightOfApproval(d));
      InFlightSumUpdate(t.runs, run, u.runs[run], d);
    }
    GrantKeepsDays(t, u, a, run, daily, keyHash, now, cost);
    hide RowsOk, DaysOk, GrantPermit, NewPermit;
  }

  lemma GrantKeepsRows(t: Tables, u: Tables, a: Approval, run: nat, daily: nat, keyHash: Digest, now: Clock, cost: int)
    requires BudgetInv(t) && run < |t.runs| && daily < |t.dailies| && cost >= 0
    requires t.runs[run].approval == a.fingerprint
    requires !HasPermit(t.permits, run, keyHash)
    requires u == GrantPermit(t, a, run, daily, keyHash, now, cost)
    ensures RowsOk(u)
  {
    forall i | 0 <= i < |u.permits| ensures PermitRowOk(u, i) {
      assert u.permits[..|t.permits|] == t.permits;
      if i < |t.permits| {
        assert PermitRowOk(t, i);
        assert u.permits[..i] == t.permits[..i];
      }
    }
  }

  lemma FindDailySame(xs: seq<DailyBudget>, ys: seq<DailyBudget>, approval: Digest, day: Date)
    requires |xs| == |ys|
    requires forall i :: 0 <= i < |xs| ==> xs[i].approval == ys[i].approval && xs[i].day == ys[i].day
    ensures FindDaily(xs, approval, day) == FindDaily(ys, approval, day)
  {
  }

  lemma GrantKeepsDays(t: Tables, u: Tables, a: Approval, run: nat, daily: nat, keyHash: Digest, now: Clock, cost: int)
    requires BudgetInv(t) && run < |t.runs| && daily < |t.dailies| && cost >= 0
    requires daily == FindDaily(t.dailies, a.fingerprint, now.day)
    requires u == GrantPermit(t, a, run, daily, keyHash, now, cost)
    ensures DaysOk(u)
  {
    var p := NewPermit(t, a, run, keyHash, now, cost);
    forall i | 0 <= i < |u.dailies| ensures DayRowOk(u, u.dailies[i]) {
      assert DayRowOk(t, t.dailies[i]);
      TotalAppend(t.permits, p, CountOnDay(u.dailies[i].approval, u.dailies[i].day));
      TotalAppend(t.permits, p, CostOnDay(u.dailies[i].approval, u.dailies[i].day));
    }
    forall i | 0 <= i < |u.permits|
      ensures FindDaily(u.dailies, u.permits[i].approval, u.permits[i].authorizedAt.day) < |u.dailies|
    {
      FindDailySame(t.dailies, u.dailies, u.permits[i].approval, u.permits[i].authorizedAt.day);
    }
  }

  // ----- a spent permit

  /** `u` spends one authorized permit of `t` and releases it from its run. */
  ghost predicate Spends(t: Tables, u: Tables, permit: nat) {
    && permit < |t.permits| && t.permits[permit].status.Authorized? && t.permits[permit].run < |t.runs|
    && var run := t.permits[permit].run;
       && |u.permits| == |t.permits| && |u.runs| == |t.runs|
       && u.permits == t.permits[permit := u.permits[permit]]
       && u.runs == t.runs[run := u.runs[run]]
       && u.dailies == t.dailies
       && (u.permits[permit].status.Consumed? || u.permits[permit].status.TransportFailed?)
       && t.permits[permit] ==
            u.permits[permit].(status := Authorized, consumedAt := t.permits[permit].consumedAt, response := t.permits[permit].response)
       && (u.permits[permit].status.Consumed? <==> u.permits[permit].response.Some?)
       && PermitShape(u.permits[permit])
       && u.runs[run].inFlight == t.runs[run].inFlight - 1
       && u.runs[run].requestCount == t.runs[run].requestCount
       && u.runs[run].runId == t.runs[run].runId
       && u.runs[run].approval == t.runs[run].approval
       && (t.runs[run].inFlight >= 1 ==> RunShape(u.runs[run]))
  }

  /** An authorized permit is counted in flight, so a run never underflows. */
  lemma InFlightAtLeastOne(t: Tables, permit: nat)
    requires BudgetInv(t) && permit < |t.permits| && t.permits[permit].status.Authorized?
    ensures t.permits[permit].run < |t.runs| && t.runs[t.permits[permit].run].inFlight >= 1
  {
    assert PermitRowOk(t, permit);
    TotalAtLeast(t.permits, permit, InFlightOfRun(t.permits[permit].run));
  }

  lemma {:induction false} PrefixTotalSame(xs: seq<Permit>, ys: seq<Permit>, run: nat)
    requires |xs| == |ys| && forall k :: 0 <= k < |xs| ==> xs[k].run == ys[k].run
    ensures Total(xs, PermitsOfRun(run)) == Total(ys, PermitsOfRun(run))
  {
    if xs != [] {
      PrefixTotalSame(xs[..|xs| - 1], ys[..|ys| - 1], run);
    }
  }

  lemma SpendKeepsBudget(t: Tables, u: Tables, permit: nat)
    requires BudgetInv(t) && Spends(t, u, permit)
    ensures BudgetInv(u)
  {
    var run := t.permits[permit].run;
    var p := u.permits[permit];
    SpendKeepsRows(t, u, permit);
    SpendKeepsCounts(t, u, permit);
    SpendKeepsDays(t, u, permit);
    forall d: Digest ensures InFlightSum(u.runs, d) == Total(u.permits, InFlightOfApproval(d)) {
      assert PermitRowOk(t, permit);
      TotalUpdate(t.permits, permit, p, InFlightOfApproval(d));
      InFlightSumUpdate(t.runs, run, u.runs[run], d);
    }
    hide RowsOk, CountsOk, DaysOk, Total, InFlightSum;
  }

  lemma SpendKeepsCounts(t: Tables, u: Tables, permit: nat)
    requires BudgetInv(t) && Spends(t, u, permit)
    ensures CountsOk(u)
  {
    InFlightAtLeastOne(t, permit);
    hide Total;
    forall r | 0 <= r < |t.runs|
      ensures u.runs[r].inFlight == Total(u.permits, InFlightOfRun(r))
      ensures u.runs[r].requestCount == Total(u.permits, PermitsOfRun(r))
    {
      TotalUpdate(t.permits, permit, u.permits[permit], InFlightOfRun(r));
      TotalUpdate(t.permits, permit, u.permits[permit], PermitsOfRun(r));
    }
  }

  lemma SpendKeepsDays(t: Tables, u: Tables, permit: nat)
    requires BudgetInv(t) && Spends(t, u, permit)
    ensures DaysOk(u)
  {
    hide Total;
    forall i | 0 <= i < |u.dailies| ensures DayRowOk(u, u.dailies[i]) {
      assert DayRowOk(t, t.dailies[i]);
      TotalUpdate(t.permits, permit, u.permits[permit], CountOnDay(u.dailies[i].approval, u.dailies[i].day));
      TotalUpdate(t.permits, permit, u.permits[permit], CostOnDay(u.dailies[i].approval, u.dailies[i].day));
    }
  }

  lemma SpendKeepsRows(t: Tables, u: Tables, permit: nat)
    requires BudgetInv(t) && Spends(t, u, permit)
    ensures RowsOk(u)
  {
    InFlightAtLeastOne(t, permit);
    forall i | 0 <= i < |u.permits| ensures PermitRowOk(u, i) {
      assert PermitRowOk(t, i);
      PrefixTotalSame(t.permits[..i], u.permits[..i], u.permits[i].run);
    }
  }

  // ----- whole transactions

  lemma ReserveKeepsBudget(t: Tables, a: Approval, runId: nat, keyHash: Digest, now: Clock, cost: int)
    requires BudgetInv(t) && cost >= 0
    ensures var tx := Reserve(t, a, runId, keyHash, now, cost); tx.Commit? ==> BudgetInv(tx.tables)
  {
    var run := FindRun(t.runs, runId);
    if run < |t.runs| && t.runs[run].approval == a.fingerprint && !HasPermit(t.permits, run, keyHash) {
      OpenDayKeepsBudget(t, a.fingerprint, now.day);
      var t1 := OpenDay(t, a.fingerprint, now.day);
      var daily := FindDaily(t1.dailies, a.fingerprint, now.day);
      match Judge(t1, a, run, daily, now, cost)
      case Grant => GrantKeepsBudget(t1, a, run, daily, keyHash, now, cost);
      case Stop(reason) => StopKeepsBudget(t1, run, reason, now.at, TriggerOf(reason));
      case Defer(_) =>
    }
  }

  lemma AuthorizeAndStartKeepsBudget(
    t: Tables, a: Approval, runId: nat, journal: nat, keyHash: Digest, now: Clock, cost: int)
    requires BudgetInv(t)
    ensures var tx := AuthorizeAndStart(t, a, runId, journal, keyHash, now, cost); tx.Commit? ==> BudgetInv(tx.tables)
  {
    var tx := AuthorizeAndStart(t, a, runId, journal, keyHash, now, cost);
    if tx.Commit? {
      ReserveKeepsBudget(t, a, runId, keyHash, now, cost);
      BudgetFrame(Reserve(t, a, runId, keyHash, now, cost).tables, tx.tables);
    }
  }

  lemma RecordResponseKeepsBudget(t: Tables, a: Approval, runId: nat, permit: nat, status: int, now: Instant)
    requires BudgetInv(t)
    ensures var tx := RecordResponse(t, a, runId, permit, status, now); tx.Commit? ==> BudgetInv(tx.tables)
  {
    if RecordResponse(t, a, runId, permit, status, now).Commit? {
      var p := t.permits[permit];
      assert PermitRowOk(t, permit);
      var r := Answered(t.runs[p.run], status);
      var t1 := t.(permits := t.permits[permit := p.(status := Consumed, consumedAt := Some(now), response := Some(status))],
                   runs := t.runs[p.run := r],
                   responses := t.responses + [Response(p.run, status)]);
      SpendKeepsBudget(t, t1, permit);
      if BreakerReason(r).Some? {
        StopKeepsBudget(t1, p.run, BreakerReason(r).value, now, ByResponse);
      }
    }
  }

  lemma ReleaseKeepsBudget(t: Tables, permit: nat, now: Instant)
    requires BudgetInv(t) && permit < |t.permits| && t.permits[permit].status.Authorized?
    ensures t.permits[permit].run < |t.runs| && BudgetInv(ReleaseFailed(t, permit, now))
  {
    assert PermitRowOk(t, permit);
    SpendKeepsBudget(t, ReleaseFailed(t, permit, now), permit);
  }

  lemma InitializeKeepsBudget(t: Tables, a: Approval, runId: nat, exists': bool, now: Clock)
    requires BudgetInv(t)
    ensures var tx := Initialize(t, a, runId, exists', now); tx.Commit? ==> BudgetInv(tx.tables)
  {
    if Initialize(t, a, runId, exists', now).Commit? {
      if FindRun(t.runs, runId) == |t.runs| {
        AppendRunKeepsBudget(t, runId, a.fingerprint);
        OpenDayKeepsBudget(t.(runs := t.runs + [RunBudget(runId, a.fingerprint, 0, 0, 0, 0, None, 0)]), a.fingerprint, now.day);
      } else {
        OpenDayKeepsBudget(t, a.fingerprint, now.day);
      }
    }
  }

  // ----- what the invariant means

  /** The permits of a run are numbered 1, 2, ..., requestCount without gap or repeat. */
  lemma SequencesAreExact(t: Tables, run: nat, k: int)
    requires BudgetInv(t) && run < |t.runs|
    ensures 1 <= k <= t.runs[run].requestCount <==>
            exists i :: 0 <= i < |t.permits| && t.permits[i].run == run && t.permits[i].sequence == k
    ensures forall i, j :: 0 <= i < j < |t.permits| && t.permits[i].run == run && t.permits[j].run == run ==>
            t.permits[i].sequence < t.permits[j].sequence
  {
    if 1 <= k <= t.runs[run].requestCount {
      var i := RankedPermit(t.permits, run, k);
      assert PermitRowOk(t, i);
    }
    forall i | 0 <= i < |t.permits| && t.permits[i].run == run
      ensures 1 <= t.permits[i].sequence <= t.runs[run].requestCount
    {
      assert PermitRowOk(t, i);
      PrefixTotalStrict(t.permits, i, |t.permits|, run);
      TotalNonNegative(t.permits[..i], PermitsOfRun(run));
      assert t.permits[..|t.permits|] == t.permits;
    }
    forall i, j | 0 <= i < j < |t.permits| && t.permits[i].run == run && t.permits[j].run == run
      ensures t.permits[i].sequence < t.permits[j].sequence
    {
      assert PermitRowOk(t, i) && PermitRowOk(t, j);
      PrefixTotalStrict(t.permits, i, j, run);
    }
  }

  lemma {:induction false} PrefixTotalStrict(permits: seq<Permit>, i: nat, j: nat, run: nat)
    requires i < j <= |permits| && permits[i].run == run
    ensures Total(permits[..i], PermitsOfRun(run)) < Total(permits[..j], PermitsOfRun(run))
  {
    assert permits[..j][..j - 1] == permits[..j - 1];
    if i < j - 1 {
      PrefixTotalStrict(permits, i, j - 1, run);
    }
  }

  lemma {:induction false} RankedPermit(permits: seq<Permit>, run: nat, k: int) returns (i: nat)
    requires 1 <= k <= Total(permits, PermitsOfRun(run))
    ensures i < |permits| && permits[i].run == run && Total(permits[..i], PermitsOfRun(run)) + 1 == k
  {
    var n := |permits| - 1;
    if k <= Total(permits[..n], PermitsOfRun(run)) {
      i := RankedPermit(permits[..n], run, k);
      assert permits[..n][..i] == permits[..i];
    } else {
      i := n;
    }
  }
}
