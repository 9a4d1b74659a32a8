/** Sums over the permit, run and daily tables, with the two facts every
    transaction needs: what an appended row and an updated row do to a sum.  */
module Ledger {
  import opened Schema

  /** What a query counts or adds up over the permit table. */
  datatype Measure =
    | InFlightOfRun(run: nat)
    | InFlightOfApproval(approval: Digest)
    | PermitsOfRun(run: nat)
    | CountOnDay(approval: Digest, day: Date)
    | CostOnDay(approval: Digest, day: Date)
    | CostInMonth(approval: Digest, day: Date)
    | AuthorizedAfter(approval: Digest, after: Instant)
    | AuthorizedWithin(approval: Digest, after: Instant, upTo: Instant)

  function Weight(m: Measure, p: Permit): int {
    match m
    case InFlightOfRun(run) => if p.run == run && p.status.Authorized? then 1 else 0
    case InFlightOfApproval(approval) => if p.approval == approval && p.status.Authorized? then 1 else 0
    case PermitsOfRun(run) => if p.run == run then 1 else 0
    case CountOnDay(approval, day) => if p.approval == approval && p.authorizedAt.day == day then 1 else 0
    case CostOnDay(approval, day) => if p.approval == approval && p.authorizedAt.day == day then p.cost else 0
    case CostInMonth(approval, day) =>
      if p.approval == approval && p.authorizedAt.day.year == day.year && p.authorizedAt.day.month == day.month then p.cost else 0
    case AuthorizedAfter(approval, after) => if p.approval == approval && after < p.authorizedAt.at then 1 else 0
    case AuthorizedWithin(approval, after, upTo) =>
      if p.approval == approval && after < p.authorizedAt.at <= upTo then 1 else 0
  }

  function Total(permits: seq<Permit>, m: Measure): int {
    if permits == [] then 0
    else Total(permits[..|permits| - 1], m) + Weight(m, permits[|permits| - 1])
  }

  lemma TotalAppend(permits: seq<Permit>, p: Permit, m: Measure)
    ensures Total(permits + [p], m) == Total(permits, m) + Weight(m, p)
  {
    assert (permits + [p])[..|permits|] == permits;
  }

  lemma {:induction false} TotalUpdate(permits: seq<Permit>, i: nat, p: Permit, m: Measure)
    requires i < |permits|
    ensures Total(permits[i := p], m) == Total(permits, m) - Weight(m, permits[i]) + Weight(m, p)
  {
    var n := |permits| - 1;
    if i == n {
      assert permits[i := p][..n] == permits[..n];
    } else {
      assert permits[i := p][..n] == permits[..n][i := p];
      TotalUpdate(permits[..n], i, p, m);
    }
  }

  /** A measure with no negative weight is at least the weight of any one row. */
  lemma {:induction false} TotalAtLeast(permits: seq<Permit>, i: nat, m: Measure)
    requires i < |permits|
    requires forall k :: 0 <= k < |permits| ==> Weight(m, permits[k]) >= 0
    ensures Total(permits, m) >= Weight(m, permits[i])
  {
    var n := |permits| - 1;
    TotalNonNegative(permits[..n], m);
    if i < n {
      TotalAtLeast(permits[..n], i, m);
    }
  }

  lemma {:induction false} TotalNonNegative(permits: seq<Permit>, m: Measure)
    requires forall k :: 0 <= k < |permits| ==> Weight(m, permits[k]) >= 0
    ensures Total(permits, m) >= 0
  {
    if permits != [] {
      TotalNonNegative(permits[..|permits| - 1], m);
    }
  }

  /** A wider measure totals at least as much. */
  lemma {:induction false} TotalMonotone(permits: seq<Permit>, small: Measure, large: Measure)
    requires forall p :: Weight(small, p) <= Weight(large, p)
    ensures Total(permits, small) <= Total(permits, large)
  {
    if permits != [] {
      TotalMonotone(permits[..|permits| - 1], small, large);
    }
  }

  lemma {:induction false} TotalZero(permits: seq<Permit>, m: Measure)
    requires forall k :: 0 <= k < |permits| ==> Weight(m, permits[k]) == 0
    ensures Total(permits, m) == 0
  {
    if permits != [] {
      TotalZero(permits[..|permits| - 1], m);
    }
  }

  // ----- run budgets of one approval

  function InFlightSum(runs: seq<RunBudget>, approval: Digest): int {
    if runs == [] then 0
    else
      var last := runs[|runs| - 1];
      InFlightSum(runs[..|runs| - 1], approval) + (if last.approval == approval then last.inFlight else 0)
  }

  lemma InFlightSumAppend(runs: seq<RunBudget>, r: RunBudget, approval: Digest)
    ensures InFlightSum(runs + [r], approval)
         == InFlightSum(runs, approval) + (if r.approval == approval then r.inFlight else 0)
  {
    assert (runs + [r])[..|runs|] == runs;
  }

  lemma {:induction false} InFlightSumUpdate(runs: seq<RunBudget>, i: nat, r: RunBudget, approval: Digest)
    requires i < |runs| && runs[i].approval == r.approval
    ensures InFlightSum(runs[i := r], approval)
         == InFlightSum(runs, approval) + (if r.approval == approval then r.inFlight - runs[i].inFlight else 0)
  {
    var n := |runs| - 1;
    if i == n {
      assert runs[i := r][..n] == runs[..n];
    } else {
      assert runs[i := r][..n] == runs[..n][i := r];
      InFlightSumUpdate(runs[..n], i, r, approval);
    }
  }

  // ----- daily budgets of one approval in one calendar month

  predicate Before(a: Date, b: Date) {
    a.year < b.year || (a.year == b.year && (a.month < b.month || (a.month == b.month && a.day < b.day)))
  }

  function MonthStart(day: Date): Date {
    day.(day := 1)
  }

  function NextMonth(day: Date): Date {
    if day.month == 12 then YearMonthDay(day.year + 1, 1, 1) else YearMonthDay(day.year, day.month + 1, 1)
  }

  /** The half-open range the monthly query selects is exactly the calendar month. */
  lemma MonthRange(d: Date, day: Date)
    ensures !Before(d, MonthStart(day)) && Before(d, NextMonth(day)) <==> d.year == day.year && d.month == day.month
  {
  }

  predicate InMonth(d: DailyBudget, approval: Digest, day: Date) {
    d.approval == approval && !Before(d.day, MonthStart(day)) && Before(d.day, NextMonth(day))
  }

  function MonthCost(dailies: seq<DailyBudget>, approval: Digest, day: Date): int {
    if dailies == [] then 0
    else
      var last := dailies[|dailies| - 1];
      MonthCost(dailies[..|dailies| - 1], approval, day) + (if InMonth(last, approval, day) then last.cost else 0)
  }

  lemma MonthCostAppend(dailies: seq<DailyBudget>, d: DailyBudget, approval: Digest, day: Date)
    ensures MonthCost(dailies + [d], approval, day)
         == MonthCost(dailies, approval, day) + (if InMonth(d, approval, day) then d.cost else 0)
  {
    assert (dailies + [d])[..|dailies|] == dailies;
  }

  lemma {:induction false} MonthCostUpdate(dailies: seq<DailyBudget>, i: nat, d: DailyBudget, approval: Digest, day: Date)
    requires i < |dailies| && dailies[i].approval == d.approval && dailies[i].day == d.day
    ensures MonthCost(dailies[i := d], approval, day)
         == MonthCost(dailies, approval, day) + (if InMonth(d, approval, day) then d.cost - dailies[i].cost else 0)
  {
    var n := |dailies| - 1;
    if i == n {
      assert dailies[i := d][..n] == dailies[..n];
    } else {
      assert dailies[i := d][..n] == dailies[..n][i := d];
      MonthCostUpdate(dailies[..n], i, d, approval, day);
    }
  }
}
