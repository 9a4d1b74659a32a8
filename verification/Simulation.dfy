/** On one run within one day, with fresh request keys and validated limits, the
    persistent kernel and the in-memory controller take the same decisions, as long
    as the per-minute limit, which only the kernel has, does not defer.  */
module Simulation {
  import opened Schema
  import opened Ledger
  import opened Transactions
  import opened Budget
  import opened Evolution
  import opened Links
  import opened Reasons
  import Controller

  /** The permits of a run that are still out, by sequence number. */
  ghost predicate Out(permits: seq<Permit>, run: nat, k: nat) {
    exists i :: 0 <= i < |permits| && permits[i].run == run && permits[i].status.Authorized? && permits[i].sequence == k
  }

  /** The kernel's rows for one run of `a` and the controller's fields say the same. */
  ghost predicate Related(t: Tables, run: nat, s: Controller.State, a: Approval) {
    && run < |t.runs|
    && t.runs[run].approval == a.fingerprint
    && (forall r :: 0 <= r < |t.runs| && r != run ==> t.runs[r].approval != a.fingerprint)
    && (forall d :: 0 <= d < |t.dailies| && t.dailies[d].approval == a.fingerprint ==> t.dailies[d].day == s.day)
    && s.runRequests == t.runs[run].requestCount
    && s.dailyRequests == DayCount(t, a, s.day)
    && s.dailyCost == DayCost(t, a, s.day)
    && |s.inFlight| == t.runs[run].inFlight
    && (forall k: nat :: k in s.inFlight <==> Out(t.permits, run, k))
    && s.consecutive403 == t.runs[run].consecutive403
    && s.consecutive429 == t.runs[run].consecutive429
    && (s.stop.Some? <==> t.runs[run].stop.Some?)
  }

  function DayCount(t: Tables, a: Approval, day: Date): int {
    var d := FindDaily(t.dailies, a.fingerprint, day);
    if d < |t.dailies| then t.dailies[d].requestCount else 0
  }

  function DayCost(t: Tables, a: Approval, day: Date): int {
    var d := FindDaily(t.dailies, a.fingerprint, day);
    if d < |t.dailies| then t.dailies[d].cost else 0
  }

  datatype Kind = Grants | Stops | Defers | Refuses

  function KindOf(tx: Tx<Decision>): Kind {
    match tx
    case Abort(_) => Refuses
    case Commit(_, Granted(_)) => Grants
    case Commit(_, Stopped(_)) => Stops
    case Commit(_, Deferred(_)) => Defers
  }

  function KindOfVerdict(v: Controller.Verdict): Kind {
    match v
    case Permitted(_) => Grants
    case Halted(_) => Stops
    case Postponed => Defers
    case Rejected => Refuses
  }

  // ----- sums with a single run and a single day

  lemma {:induction false} SingleRunInFlight(runs: seq<RunBudget>, run: nat, approval: Digest)
    requires run < |runs| && runs[run].approval == approval
    requires forall r :: 0 <= r < |runs| && r != run ==> runs[r].approval != approval
    ensures InFlightSum(runs, approval) == runs[run].inFlight
  {
    var n := |runs| - 1;
    if run == n { NoRunInFlight(runs[..n], approval); } else { SingleRunInFlight(runs[..n], run, approval); }
  }

  lemma {:induction false} NoRunInFlight(runs: seq<RunBudget>, approval: Digest)
    requires forall r :: 0 <= r < |runs| ==> runs[r].approval != approval
    ensures InFlightSum(runs, approval) == 0
  {
    if runs != [] { NoRunInFlight(runs[..|runs| - 1], approval); }
  }

  lemma {:induction false} SingleDayMonth(dailies: seq<DailyBudget>, d: nat, approval: Digest)
    requires d < |dailies| && dailies[d].approval == approval
    requires forall k :: 0 <= k < |dailies| && k != d ==> dailies[k].approval != approval
    ensures MonthCost(dailies, approval, dailies[d].day) == dailies[d].cost
  {
    var n := |dailies| - 1;
    MonthRange(dailies[d].day, dailies[d].day);
    if d == n { NoDayMonth(dailies[..n], approval, dailies[d].day); } else { SingleDayMonth(dailies[..n], d, approval); }
  }

  lemma {:induction false} NoDayMonth(dailies: seq<DailyBudget>, approval: Digest, day: Date)
    requires forall k :: 0 <= k < |dailies| ==> dailies[k].approval != approval
    ensures MonthCost(dailies, approval, day) == 0
  {
    if dailies != [] { NoDayMonth(dailies[..|dailies| - 1], approval, day); }
  }

  // ----- authorization

  lemma OpenDayRelated(t: Tables, run: nat, s: Controller.State, a: Approval)
    requires Related(t, run, s, a)
    ensures Related(OpenDay(t, a.fingerprint, s.day), run, s, a)
  {
  }

  /** The monthly cap never binds: the month holds only this day. */
  lemma JudgeIsTheController(t: Tables, run: nat, s: Controller.State, a: Approval, now: Clock, cost: int)
    requires Related(t, run, s, a) && BudgetInv(t) && a.Validated() && cost >= 0 && now.day == s.day
    requires FindDaily(t.dailies, a.fingerprint, now.day) < |t.dailies|
    ensures var judged := Judge(t, a, run, FindDaily(t.dailies, a.fingerprint, now.day), now, cost);
            var kind := KindOfVerdict(Controller.Admit(s, a, now, cost).1);
            judged != Defer(false) ==>
              && (judged.Grant? <==> kind == Grants) && (judged.Stop? <==> kind == Stops) && (judged.Defer? <==> kind == Defers)
              && (judged.Stop? && t.runs[run].stop.None? ==> Controller.Admit(s, a, now, cost).1 == Controller.Halted(judged.reason))
  {
    var d := FindDaily(t.dailies, a.fingerprint, now.day);
    SingleRunInFlight(t.runs, run, a.fingerprint);
    SingleDayMonth(t.dailies, d, a.fingerprint);
  }

  /** Same decision, and related again. */
  lemma AuthorizeSimulates(t: Tables, runId: nat, s: Controller.State, a: Approval, keyHash: Digest, now: Clock, cost: int)
    requires Good(t) && a.Validated() && now.day == s.day
    requires var run := FindRun(t.runs, runId); Related(t, run, s, a) && !HasPermit(t.permits, run, keyHash)
    requires var tx := Authorize(t, a, runId, keyHash, now, cost); tx.Commit? ==> tx.result != Deferred(false)
    ensures var tx := Authorize(t, a, runId, keyHash, now, cost); var (u, v) := Controller.Admit(s, a, now, cost);
            && KindOf(tx) == KindOfVerdict(v)
            && (tx.Commit? && tx.result.Granted? ==>
                  v == Controller.Permitted(tx.tables.permits[tx.result.permit].sequence))
            && (tx.Commit? && tx.result.Stopped? && t.runs[FindRun(t.runs, runId)].stop.None? ==>
                  v == Controller.Halted(tx.result.reason))
            && Related(if tx.Commit? then tx.tables else t, FindRun(t.runs, runId), u, a)
  {
    if cost < 0 {
      hide Related, Good, Reserve;
      return;
    }
    var run := FindRun(t.runs, runId);
    var t1 := OpenDay(t, a.fingerprint, now.day);
    assert t1.runs == t.runs && t1.permits == t.permits;
    assert t.runs[run].approval == a.fingerprint && s.runRequests == t.runs[run].requestCount;
    assert BudgetInv(t);
    OpenDayRelated(t, run, s, a);
    OpenDayKeepsBudget(t, a.fingerprint, now.day);
    ReserveForm(t, a, runId, keyHash, now, cost);
    hide Related, Good, BudgetInv, Controller.Admit, OpenDay, HasPermit, Reserve, JudgedTx;
    JudgedSimulates(t1, run, s, a, FindDaily(t1.dailies, a.fingerprint, now.day), keyHash, now, cost);
  }

  lemma JudgedSimulates(
    t: Tables, run: nat, s: Controller.State, a: Approval, daily: nat, keyHash: Digest, now: Clock, cost: int)
    requires BudgetInv(t) && Related(t, run, s, a) && a.Validated() && cost >= 0 && now.day == s.day
    requires run < |t.runs| && s.runRequests == t.runs[run].requestCount
    requires daily == FindDaily(t.dailies, a.fingerprint, now.day) < |t.dailies|
    requires JudgedTx(t, a, run, daily, keyHash, now, cost).result != Deferred(false)
    ensures var tx := JudgedTx(t, a, run, daily, keyHash, now, cost); var (u, v) := Controller.Admit(s, a, now, cost);
            && KindOf(tx) == KindOfVerdict(v)
            && (tx.result.Granted? ==>
                  tx.result.permit < |tx.tables.permits|
                  && v == Controller.Permitted(tx.tables.permits[tx.result.permit].sequence))
            && (tx.result.Stopped? && t.runs[run].stop.None? ==> v == Controller.Halted(tx.result.reason))
            && Related(tx.tables, run, u, a)
  {
    JudgeIsTheController(t, run, s, a, now, cost);
    SameDayController(s, a, now, cost);
    hide Related, BudgetInv, Judge, Controller.Admit, StopOnce;
    match Judge(t, a, run, daily, now, cost)
    case Grant =>
      GrantRelated(t, run, s, a, daily, keyHash, now, cost);
      GrantForm(t, a, run, daily, keyHash, now, cost);
      hide GrantPermit;
    case Stop(reason) =>
      var v := Controller.Admit(s, a, now, cost).0;
      hide GrantPermit;
      StopRelated(t, run, s, a, reason, now.at, TriggerOf(reason), v.stop.value);
    case Defer(_) => hide GrantPermit;
  }

  lemma SameDayController(s: Controller.State, a: Approval, now: Clock, cost: int)
    requires now.day == s.day
    ensures var (u, v) := Controller.Admit(s, a, now, cost);
            && (v.Halted? ==> u == s.(stop := Some(v.reason)))
            && (v.Postponed? || v.Rejected? ==> u == s)
            && (v.Permitted? ==> v.sequence == s.runRequests + 1)
  {
  }

  lemma StopRelated(t: Tables, run: nat, s: Controller.State, a: Approval, reason: StopReason, at: Instant, trigger: Trigger, other: StopReason)
    requires Related(t, run, s, a)
    ensures Related(StopOnce(t, run, reason, at, trigger), run, s.(stop := Some(other)), a)
  {
  }

  lemma GrantRelated(t: Tables, run: nat, s: Controller.State, a: Approval, daily: nat, keyHash: Digest, now: Clock, cost: int)
    requires BudgetInv(t) && Related(t, run, s, a) && now.day == s.day && cost >= 0
    requires daily < |t.dailies| && daily == FindDaily(t.dailies, a.fingerprint, now.day)
    requires Controller.Admit(s, a, now, cost).1.Permitted?
    ensures Related(GrantPermit(t, a, run, daily, keyHash, now, cost), run, Controller.Admit(s, a, now, cost).0, a)
  {
    hide Controller.Admit, GrantPermit, BudgetInv, FindDaily, DayCount, DayCost, Out;
    assert s.runRequests == t.runs[run].requestCount && run < |t.runs|;
    assert s.dailyRequests == DayCount(t, a, s.day) && s.dailyCost == DayCost(t, a, s.day);
    assert forall k: nat :: k in s.inFlight <==> Out(t.permits, run, k);
    hide *;
    var u := GrantPermit(t, a, run, daily, keyHash, now, cost);
    GrantForm(t, a, run, daily, keyHash, now, cost);
    GrantedOut(t, u.permits, run, s.runRequests + 1);
    PermittedForm(s, a, now, cost);
    GrantedDays(t, a, run, daily, keyHash, now, cost);
    GrantedFits(t, u, run, s, Controller.Admit(s, a, now, cost).0, a);
  }

  lemma GrantForm(t: Tables, a: Approval, run: nat, daily: nat, keyHash: Digest, now: Clock, cost: int)
    requires run < |t.runs| && daily < |t.dailies|
    ensures var u := GrantPermit(t, a, run, daily, keyHash, now, cost); var r := t.runs[run];
      && u.runs == t.runs[run := r.(requestCount := r.requestCount + 1, inFlight := r.inFlight + 1, version := r.version + 1)]
      && |u.permits| == |t.permits| + 1 && u.permits[..|t.permits|] == t.permits
      && u.permits[|t.permits|].run == run && u.permits[|t.permits|].status.Authorized?
      && u.permits[|t.permits|].sequence == r.requestCount + 1
      && |u.dailies| == |t.dailies|
      && forall d :: 0 <= d < |u.dailies| ==>
           u.dailies[d].approval == t.dailies[d].approval && u.dailies[d].day == t.dailies[d].day
  {
  }

  lemma GrantedFits(t: Tables, u: Tables, run: nat, s: Controller.State, v: Controller.State, a: Approval)
    requires Related(t, run, s, a)
    requires var r := t.runs[run];
      u.runs == t.runs[run := r.(requestCount := r.requestCount + 1, inFlight := r.inFlight + 1, version := r.version + 1)]
    requires |u.dailies| == |t.dailies|
    requires forall d :: 0 <= d < |u.dailies| ==> u.dailies[d].approval == t.dailies[d].approval && u.dailies[d].day == t.dailies[d].day
    requires DayCount(u, a, s.day) >= 0
    requires v == s.(runRequests := s.runRequests + 1, dailyRequests := DayCount(u, a, s.day),
                     dailyCost := DayCost(u, a, s.day), inFlight := s.inFlight + {s.runRequests + 1})
    requires forall k: nat :: Out(u.permits, run, k) <==> k == s.runRequests + 1 || Out(t.permits, run, k)
    requires !Out(t.permits, run, s.runRequests + 1) && s.runRequests + 1 >= 0
    ensures Related(u, run, v, a)
  {
    hide Out, DayCount, DayCost;
    assert s.runRequests + 1 !in s.inFlight;
  }

  lemma GrantedDays(t: Tables, a: Approval, run: nat, daily: nat, keyHash: Digest, now: Clock, cost: int)
    requires run < |t.runs| && daily < |t.dailies| && daily == FindDaily(t.dailies, a.fingerprint, now.day)
    ensures var u := GrantPermit(t, a, run, daily, keyHash, now, cost);
      DayCount(u, a, now.day) == DayCount(t, a, now.day) + 1 && DayCost(u, a, now.day) == DayCost(t, a, now.day) + cost
  {
    FindDailySame(t.dailies, GrantPermit(t, a, run, daily, keyHash, now, cost).dailies, a.fingerprint, now.day);
    hide FindDaily;
  }

  lemma PermittedForm(s: Controller.State, a: Approval, now: Clock, cost: int)
    requires now.day == s.day && Controller.Admit(s, a, now, cost).1.Permitted?
    ensures Controller.Admit(s, a, now, cost).0 ==
      s.(runRequests := s.runRequests + 1, dailyRequests := s.dailyRequests + 1,
         dailyCost := s.dailyCost + cost, inFlight := s.inFlight + {s.runRequests + 1})
  {
  }

  lemma GrantedOut(t: Tables, permits: seq<Permit>, run: nat, next: int)
    requires BudgetInv(t) && run < |t.runs| && next == t.runs[run].requestCount + 1
    requires |permits| == |t.permits| + 1 && permits[..|t.permits|] == t.permits
    requires var p := permits[|t.permits|]; p.run == run && p.status.Authorized? && p.sequence == next
    ensures forall k: nat :: Out(permits, run, k) <==> k == next || Out(t.permits, run, k)
    ensures forall k: nat :: Out(t.permits, run, k) ==> k != next
  {
    assert forall i :: 0 <= i < |t.permits| ==> permits[i] == t.permits[i];
    forall k: nat | Out(t.permits, run, k) ensures k != next && Out(permits, run, k) {
      var i :| 0 <= i < |t.permits| && t.permits[i].run == run && t.permits[i].status.Authorized? && t.permits[i].sequence == k;
      SequencesAreExact(t, run, k);
      assert permits[i] == t.permits[i];
    }
    forall k: nat | Out(permits, run, k) ensures k == next || Out(t.permits, run, k) {
      var i :| 0 <= i < |permits| && permits[i].run == run && permits[i].status.Authorized? && permits[i].sequence == k;
      if i < |t.permits| { assert permits[i] == t.permits[i]; }
    }
  }

  // ----- consumption

  /** Spending the permit numbered `k` takes exactly `k` out of flight. */
  lemma SpentSequence(t: Tables, permit: nat, spent: Permit, run: nat, k: nat)
    requires BudgetInv(t) && permit < |t.permits| && run < |t.runs|
    requires var p := t.permits[permit]; p.run == run && p.sequence == k && p.status.Authorized?
    requires !spent.status.Authorized?
    ensures forall m: nat :: Out(t.permits[permit := spent], run, m) <==> Out(t.permits, run, m) && m != k
  {
    var after := t.permits[permit := spent];
    SequencesAreExact(t, run, k);
    forall m: nat | Out(t.permits, run, m) && m != k ensures Out(after, run, m) {
      var i :| 0 <= i < |t.permits| && t.permits[i].run == run && t.permits[i].status.Authorized? && t.permits[i].sequence == m;
      assert after[i] == t.permits[i];
    }
    forall m: nat | Out(after, run, m) ensures Out(t.permits, run, m) && m != k {
      var i :| 0 <= i < |after| && after[i].run == run && after[i].status.Authorized? && after[i].sequence == m;
      assert i != permit && after[i] == t.permits[i];
    }
  }

  /** The kernel accepts a permit of the run exactly when the controller knows its number. */
  lemma SamePermits(t: Tables, runId: nat, s: Controller.State, a: Approval, permit: nat)
    requires Good(t)
    requires var run := FindRun(t.runs, runId); Related(t, run, s, a)
    requires permit < |t.permits| && t.permits[permit].run == FindRun(t.runs, runId) && t.permits[permit].sequence >= 0
    ensures PermitError(t, a, runId, permit).None? <==> t.permits[permit].sequence in s.inFlight
  {
    var run := FindRun(t.runs, runId);
    assert PermitRowOk(t, permit);
    if t.permits[permit].status.Authorized? { InFlightAtLeastOne(t, permit); }
    if Out(t.permits, run, t.permits[permit].sequence) {
      SequencesAreExact(t, run, t.permits[permit].sequence);
    }
  }

  lemma ResponseSimulates(t: Tables, runId: nat, s: Controller.State, a: Approval, permit: nat, status: int, now: Instant)
    requires Good(t) && 100 <= status <= 599
    requires var run := FindRun(t.runs, runId); Related(t, run, s, a)
    requires permit < |t.permits| && t.permits[permit].run == FindRun(t.runs, runId) && t.permits[permit].sequence >= 0
    ensures var tx := RecordResponse(t, a, runId, permit, status, now);
            var next := Controller.Responded(s, t.permits[permit].sequence, status);
            && tx.Commit? == next.Some?
            && (tx.Commit? ==> Related(tx.tables, FindRun(t.runs, runId), next.value, a))
  {
    SamePermits(t, runId, s, a, permit);
    assert BudgetInv(t);
    hide Good, BudgetInv, RecordResponse, PermitError, Related, Out, FindRun;
    var tx := RecordResponse(t, a, runId, permit, status, now);
    if tx.Commit? {
      var p := t.permits[permit];
      ResponseForm(t, runId, a, permit, status, now);
      SpentSequence(t, permit, tx.tables.permits[permit], p.run, p.sequence);
      RespondedRelated(t, tx.tables, p.run, s, a, p.sequence, status);
    }
  }

  lemma RespondedRelated(t: Tables, u: Tables, run: nat, s: Controller.State, a: Approval, k: nat, status: int)
    requires Related(t, run, s, a) && k in s.inFlight
    requires |u.runs| == |t.runs| && u.dailies == t.dailies
    requires forall m: nat :: Out(u.permits, run, m) <==> Out(t.permits, run, m) && m != k
    requires forall r :: 0 <= r < |t.runs| ==> u.runs[r].approval == t.runs[r].approval
    requires u.runs[run].requestCount == t.runs[run].requestCount && u.runs[run].inFlight == t.runs[run].inFlight - 1
    requires u.runs[run].consecutive403 == if status == 403 then t.runs[run].consecutive403 + 1 else 0
    requires u.runs[run].consecutive429 == if status == 429 then t.runs[run].consecutive429 + 1 else 0
    requires u.runs[run].stop.Some? <==>
      t.runs[run].stop.Some? || u.runs[run].consecutive403 >= 2 || u.runs[run].consecutive429 >= 2
    ensures Controller.Responded(s, k, status).Some?
    ensures Related(u, run, Controller.Responded(s, k, status).value, a)
  {
    hide Out;
  }

  /** What a committed response leaves in the run, and what it leaves alone. */
  lemma ResponseForm(t: Tables, runId: nat, a: Approval, permit: nat, status: int, now: Instant)
    requires permit < |t.permits| && t.permits[permit].run == FindRun(t.runs, runId) < |t.runs|
    requires RecordResponse(t, a, runId, permit, status, now).Commit?
    ensures var u := RecordResponse(t, a, runId, permit, status, now).tables;
            var run := FindRun(t.runs, runId); var before := t.runs[run]; var after := u.runs[run];
            && |u.runs| == |t.runs| && FindRun(u.runs, runId) == run && u.dailies == t.dailies
            && |u.permits| == |t.permits| && u.permits == t.permits[permit := u.permits[permit]]
            && t.permits[permit].status.Authorized? && !u.permits[permit].status.Authorized?
            && (forall r :: 0 <= r < |t.runs| ==> u.runs[r].approval == t.runs[r].approval)
            && after.requestCount == before.requestCount && after.inFlight == before.inFlight - 1
            && after.consecutive403 == (if status == 403 then before.consecutive403 + 1 else 0)
            && after.consecutive429 == (if status == 429 then before.consecutive429 + 1 else 0)
            && (after.stop.Some? <==> before.stop.Some? || after.consecutive403 >= 2 || after.consecutive429 >= 2)
  {
    hide FindRun;
  }

  lemma FailureSimulates(t: Tables, runId: nat, s: Controller.State, a: Approval, permit: nat, now: Instant)
    requires Good(t)
    requires var run := FindRun(t.runs, runId); Related(t, run, s, a)
    requires permit < |t.permits| && t.permits[permit].run == FindRun(t.runs, runId) && t.permits[permit].sequence >= 0
    ensures var tx := RecordTransportFailure(t, a, runId, permit, now);
            var next := Controller.Released(s, t.permits[permit].sequence);
            && tx.Commit? == next.Some?
            && (tx.Commit? ==> Related(tx.tables, FindRun(t.runs, runId), next.value, a))
  {
    SamePermits(t, runId, s, a, permit);
    assert BudgetInv(t);
    hide Good, BudgetInv, RecordTransportFailure, PermitError, Related, Out, FindRun;
    var tx := RecordTransportFailure(t, a, runId, permit, now);
    if tx.Commit? {
      var p := t.permits[permit];
      FailureForm(t, runId, a, permit, now);
      SpentSequence(t, permit, tx.tables.permits[permit], p.run, p.sequence);
      ReleasedFits(t, tx.tables, p.run, s, p.sequence, a);
    }
  }

  lemma ReleasedFits(t: Tables, u: Tables, run: nat, s: Controller.State, k: nat, a: Approval)
    requires Related(t, run, s, a) && k in s.inFlight && u.dailies == t.dailies
    requires u.runs == t.runs[run := t.runs[run].(inFlight := t.runs[run].inFlight - 1, version := t.runs[run].version + 1)]
    requires forall m: nat :: Out(u.permits, run, m) <==> Out(t.permits, run, m) && m != k
    ensures Related(u, run, s.(inFlight := s.inFlight - {k}), a)
  {
    hide Out, FindDaily;
  }

  lemma FailureForm(t: Tables, runId: nat, a: Approval, permit: nat, now: Instant)
    requires permit < |t.permits| && t.permits[permit].run == FindRun(t.runs, runId) < |t.runs|
    requires RecordTransportFailure(t, a, runId, permit, now).Commit?
    ensures var u := RecordTransportFailure(t, a, runId, permit, now).tables; var run := FindRun(t.runs, runId);
            && |u.runs| == |t.runs| && u.dailies == t.dailies
            && |u.permits| == |t.permits| && u.permits == t.permits[permit := u.permits[permit]]
            && t.permits[permit].status.Authorized? && !u.permits[permit].status.Authorized?
            && u.runs == t.runs[run := t.runs[run].(inFlight := t.runs[run].inFlight - 1, version := t.runs[run].version + 1)]
  {
  }

  lemma StopSimulates(t: Tables, runId: nat, s: Controller.State, a: Approval, reason: StopReason, now: Instant, trigger: Trigger)
    requires var run := FindRun(t.runs, runId); Related(t, run, s, a)
    ensures var tx := StopRun(t, a, runId, reason, now, trigger);
            tx.Commit? && Related(tx.tables, FindRun(t.runs, runId), s.(stop := Some(reason)), a)
  {
  }

  // ----- whole runs

  /** One use of either controller; permits are named by their sequence number. */
  datatype Use =
    | Ask(keyHash: Digest, now: Clock, cost: int)
    | Answer(sequence: nat, status: int, at: Instant)
    | Lose(sequence: nat, at: Instant)
    | Halt(reason: StopReason, at: Instant, trigger: Trigger)

  function Numbered(permits: seq<Permit>, run: nat, k: nat): (i: nat)
    ensures i <= |permits|
    ensures i < |permits| ==> permits[i].run == run && permits[i].sequence == k
    ensures i == |permits| ==> forall j :: 0 <= j < |permits| ==> !(permits[j].run == run && permits[j].sequence == k)
  {
    if permits == [] then 0
    else
      var last := permits[|permits| - 1];
      var i := Numbered(permits[..|permits| - 1], run, k);
      if i < |permits| - 1 || (last.run == run && last.sequence == k) then i else |permits|
  }

  function KernelTx(t: Tables, a: Approval, runId: nat, use: Use): (Tables, Kind) {
    match use
    case Ask(keyHash, now, cost) =>
      var tx := Authorize(t, a, runId, keyHash, now, cost);
      (if tx.Commit? then tx.tables else t, KindOf(tx))
    case Answer(k, status, at) =>
      var tx := RecordResponse(t, a, runId, Numbered(t.permits, FindRun(t.runs, runId), k), status, at);
      if tx.Commit? then (tx.tables, Grants) else (t, Refuses)
    case Lose(k, at) =>
      var tx := RecordTransportFailure(t, a, runId, Numbered(t.permits, FindRun(t.runs, runId), k), at);
      if tx.Commit? then (tx.tables, Grants) else (t, Refuses)
    case Halt(reason, at, trigger) =>
      var tx := StopRun(t, a, runId, reason, at, trigger);
      if tx.Commit? then (tx.tables, Stops) else (t, Refuses)
  }

  function ControllerUse(s: Controller.State, a: Approval, use: Use): (Controller.State, Kind) {
    match use
    case Ask(_, now, cost) => var (u, v) := Controller.Admit(s, a, now, cost); (u, KindOfVerdict(v))
    case Answer(k, status, _) =>
      var r := Controller.Responded(s, k, status);
      if r.Some? then (r.value, Grants) else (s, Refuses)
    case Lose(k, _) =>
      var r := Controller.Released(s, k);
      if r.Some? then (r.value, Grants) else (s, Refuses)
    case Halt(reason, _, _) => (s.(stop := Some(reason)), Stops)
  }

  function KernelRun(t: Tables, a: Approval, runId: nat, uses: seq<Use>): seq<Kind>
    decreases |uses|
  {
    if uses == [] then []
    else var (u, kind) := KernelTx(t, a, runId, uses[0]); [kind] + KernelRun(u, a, runId, uses[1..])
  }

  function ControllerRun(s: Controller.State, a: Approval, uses: seq<Use>): seq<Kind>
    decreases |uses|
  {
    if uses == [] then []
    else var (u, kind) := ControllerUse(s, a, uses[0]); [kind] + ControllerRun(u, a, uses[1..])
  }

  /** A use within the day, with a fresh key, a real status, and no per-minute deferral. */
  predicate Ordinary(t: Tables, a: Approval, runId: nat, day: Date, use: Use) {
    match use
    case Ask(keyHash, now, cost) =>
      && now.day == day
      && !HasPermit(t.permits, FindRun(t.runs, runId), keyHash)
      && var tx := Authorize(t, a, runId, keyHash, now, cost); (tx.Commit? ==> tx.result != Deferred(false))
    case Answer(_, status, _) => 100 <= status <= 599
    case _ => true
  }

  predicate AllOrdinary(t: Tables, a: Approval, runId: nat, day: Date, uses: seq<Use>)
    decreases |uses|
  {
    uses == [] || (Ordinary(t, a, runId, day, uses[0]) && AllOrdinary(KernelTx(t, a, runId, uses[0]).0, a, runId, day, uses[1..]))
  }

  lemma AbsentSequence(t: Tables, run: nat, s: Controller.State, a: Approval, k: nat)
    requires Related(t, run, s, a) && Numbered(t.permits, run, k) == |t.permits|
    ensures k !in s.inFlight
  {
    assert !Out(t.permits, run, k);
  }

  lemma FindRunKept(t: Tables, u: Tables, runId: nat)
    requires Evolves(t, u) && FindRun(t.runs, runId) < |t.runs|
    ensures FindRun(u.runs, runId) == FindRun(t.runs, runId)
  {
    forall r | 0 <= r < |t.runs| ensures u.runs[r].runId == t.runs[r].runId { assert RunEvolves(t.runs[r], u.runs[r]); }
  }

  lemma UseGood(t: Tables, a: Approval, runId: nat, use: Use)
    requires Good(t)
    ensures Good(KernelTx(t, a, runId, use).0) && Evolves(t, KernelTx(t, a, runId, use).0)
  {
    EvolvesReflexive(t);
    hide Good, Evolves;
    match use
    case Ask(keyHash, now, cost) => AuthorizeSound(t, a, runId, keyHash, now, cost);
    case Answer(k, status, at) =>
      RecordResponseSound(t, a, runId, Numbered(t.permits, FindRun(t.runs, runId), k), status, at);
    case Lose(k, at) =>
      RecordTransportFailureSound(t, a, runId, Numbered(t.permits, FindRun(t.runs, runId), k), at);
    case Halt(reason, at, trigger) => StopRunSound(t, a, runId, reason, at, trigger);
  }

  lemma UseSimulates(t: Tables, runId: nat, s: Controller.State, a: Approval, use: Use)
    requires Good(t) && a.Validated() && Related(t, FindRun(t.runs, runId), s, a)
    requires Ordinary(t, a, runId, s.day, use)
    ensures var (u, kind) := KernelTx(t, a, runId, use); var (v, other) := ControllerUse(s, a, use);
            kind == other && v.day == s.day && Related(u, FindRun(t.runs, runId), v, a)
  {
    var run := FindRun(t.runs, runId);
    hide Related, Good;
    match use
    case Ask(keyHash, now, cost) =>
      AuthorizeSimulates(t, runId, s, a, keyHash, now, cost);
      SameDayController(s, a, now, cost);
      hide Authorize, Controller.Admit;
    case Answer(k, status, at) =>
      var permit := Numbered(t.permits, run, k);
      if permit < |t.permits| {
        ResponseSimulates(t, runId, s, a, permit, status, at);
      } else {
        AbsentSequence(t, run, s, a, k);
      }
    case Lose(k, at) =>
      var permit := Numbered(t.permits, run, k);
      if permit < |t.permits| {
        FailureSimulates(t, runId, s, a, permit, at);
      } else {
        AbsentSequence(t, run, s, a, k);
      }
    case Halt(reason, at, trigger) => StopSimulates(t, runId, s, a, reason, at, trigger);
  }

  /** The two controllers decide alike for the whole day. */
  lemma {:induction false} SameDecisions(t: Tables, runId: nat, s: Controller.State, a: Approval, uses: seq<Use>)
    requires Good(t) && a.Validated() && Related(t, FindRun(t.runs, runId), s, a)
    requires AllOrdinary(t, a, runId, s.day, uses)
    ensures KernelRun(t, a, runId, uses) == ControllerRun(s, a, uses)
    decreases |uses|
  {
    if uses == [] {
    } else {
      var u, v := KernelTx(t, a, runId, uses[0]).0, ControllerUse(s, a, uses[0]).0;
      UseSimulates(t, runId, s, a, uses[0]);
      UseGood(t, a, runId, uses[0]);
      assert FindRun(t.runs, runId) < |t.runs|;
      FindRunKept(t, u, runId);
      hide Good, Related, KernelTx, ControllerUse, Evolves, Ordinary;
      SameDecisions(u, runId, v, a, uses[1..]);
    }
  }

  // ----- the reason of the first stop

  function KernelTables(t: Tables, a: Approval, runId: nat, uses: seq<Use>): Tables
    decreases |uses|
  {
    if uses == [] then t else KernelTables(KernelTx(t, a, runId, uses[0]).0, a, runId, uses[1..])
  }

  /** The reason the controller first stops for; later it may put another in its place. */
  function FirstStop(s: Controller.State, a: Approval, uses: seq<Use>): Option<StopReason>
    decreases |uses|
  {
    if s.stop.Some? || uses == [] then s.stop else FirstStop(ControllerUse(s, a, uses[0]).0, a, uses[1..])
  }

  lemma AskStopsAlike(t: Tables, runId: nat, s: Controller.State, a: Approval, keyHash: Digest, now: Clock, cost: int)
    requires Good(t) && a.Validated() && Related(t, FindRun(t.runs, runId), s, a)
    requires Ordinary(t, a, runId, s.day, Ask(keyHash, now, cost)) && t.runs[FindRun(t.runs, runId)].stop.None?
    ensures var run := FindRun(t.runs, runId); var u := KernelTx(t, a, runId, Ask(keyHash, now, cost)).0;
      run < |u.runs| && u.runs[run].stop == Controller.Admit(s, a, now, cost).0.stop
  {
    var run := FindRun(t.runs, runId);
    assert run < |t.runs| && t.runs[run].approval == a.fingerprint && s.stop.None?;
    assert BudgetInv(t);
    hide Good, BudgetInv, HasPermit, Controller.Admit, Reserve, Due, Total;
    AuthorizeSimulates(t, runId, s, a, keyHash, now, cost);
    hide Related;
    SameDayController(s, a, now, cost);
    if cost >= 0 { ReserveDecides(t, a, runId, keyHash, now, cost); }
    AdmitStops(s, a, now, cost);
  }

  lemma AdmitStops(s: Controller.State, a: Approval, now: Clock, cost: int)
    requires s.stop.None?
    ensures var (u, v) := Controller.Admit(s, a, now, cost); u.stop == if v.Halted? then Some(v.reason) else None
  {
  }

  lemma AnswerStopsAlike(t: Tables, run: nat, s: Controller.State, a: Approval, permit: nat, status: int, runId: nat, at: Instant)
    requires Related(t, run, s, a) && t.runs[run].stop.None? && permit < |t.permits| && t.permits[permit].run == run
    requires t.permits[permit].sequence >= 0
    requires var tx := RecordResponse(t, a, runId, permit, status, at);
      tx.Commit? == Controller.Responded(s, t.permits[permit].sequence, status).Some?
    ensures var tx := RecordResponse(t, a, runId, permit, status, at);
      tx.Commit? ==>
        run < |tx.tables.runs| && tx.tables.runs[run].stop == Controller.Responded(s, t.permits[permit].sequence, status).value.stop
  {
    hide Out;
  }

  /** While the run is open, a use that stops it stops both for the same reason. */
  lemma UseStopsAlike(t: Tables, runId: nat, s: Controller.State, a: Approval, use: Use)
    requires Good(t) && a.Validated() && Related(t, FindRun(t.runs, runId), s, a)
    requires Ordinary(t, a, runId, s.day, use) && t.runs[FindRun(t.runs, runId)].stop.None?
    ensures var run := FindRun(t.runs, runId); var u := KernelTx(t, a, runId, use).0;
      run < |u.runs| && u.runs[run].stop == ControllerUse(s, a, use).0.stop
  {
    var run := FindRun(t.runs, runId);
    assert run < |t.runs| && t.runs[run].approval == a.fingerprint && s.stop.None?;
    match use
    case Ask(keyHash, now, cost) =>
      AskStopsAlike(t, runId, s, a, keyHash, now, cost);
    case Answer(k, status, at) =>
      var permit := Numbered(t.permits, run, k);
      hide Good, Related, Authorize, RecordResponse, Controller.Responded, Controller.Admit;
      if permit < |t.permits| {
        ResponseSimulates(t, runId, s, a, permit, status, at);
        AnswerStopsAlike(t, run, s, a, permit, status, runId, at);
      } else {
        AbsentSequence(t, run, s, a, k);
        AbsentUnheard(s, k, status);
      }
    case Lose(k, at) =>
      hide Good, Related, Authorize, RecordResponse, Controller.Responded, Controller.Admit;
      LosingStopsNothing(t, a, runId, Numbered(t.permits, run, k), at, run);
    case Halt(reason, at, trigger) => hide Good, Related, Authorize, RecordResponse, Controller.Responded, Controller.Admit;
  }

  lemma AbsentUnheard(s: Controller.State, k: nat, status: int)
    requires k !in s.inFlight
    ensures Controller.Responded(s, k, status).None?
  {
  }

  lemma LosingStopsNothing(t: Tables, a: Approval, runId: nat, permit: nat, at: Instant, run: nat)
    requires run < |t.runs|
    ensures var tx := RecordTransportFailure(t, a, runId, permit, at);
      tx.Commit? ==> run < |tx.tables.runs| && tx.tables.runs[run].stop == t.runs[run].stop
  {
  }

  /** Over a whole day the kernel's run is stopped for the reason the controller first
      stopped for.  */
  lemma {:induction false} FirstStopAgrees(t: Tables, runId: nat, s: Controller.State, a: Approval, uses: seq<Use>)
    requires Good(t) && a.Validated() && Related(t, FindRun(t.runs, runId), s, a)
    requires t.runs[FindRun(t.runs, runId)].stop == s.stop
    requires AllOrdinary(t, a, runId, s.day, uses)
    ensures var run := FindRun(t.runs, runId); var u := KernelTables(t, a, runId, uses);
      run < |u.runs| && u.runs[run].stop == FirstStop(s, a, uses)
    decreases |uses|
  {
    var run := FindRun(t.runs, runId);
    assert run < |t.runs|;
    if s.stop.Some? {
      TablesStay(t, a, runId, uses, run);
      hide Good, Related;
    } else if uses != [] {
      var u, v := KernelTx(t, a, runId, uses[0]).0, ControllerUse(s, a, uses[0]).0;
      UseSimulates(t, runId, s, a, uses[0]);
      UseStopsAlike(t, runId, s, a, uses[0]);
      UseGood(t, a, runId, uses[0]);
      FindRunKept(t, u, runId);
      hide Good, Related, KernelTx, ControllerUse, Evolves, Ordinary;
      FirstStopAgrees(u, runId, v, a, uses[1..]);
    }
  }

  lemma {:induction false} TablesStay(t: Tables, a: Approval, runId: nat, uses: seq<Use>, run: nat)
    requires Good(t) && run < |t.runs| && t.runs[run].stop.Some?
    ensures var u := KernelTables(t, a, runId, uses); run < |u.runs| && u.runs[run].stop == t.runs[run].stop
    decreases |uses|
  {
    if uses != [] {
      var u := KernelTx(t, a, runId, uses[0]).0;
      UseGood(t, a, runId, uses[0]);
      assert RunEvolves(t.runs[run], u.runs[run]);
      hide Good, Evolves, KernelTx;
      TablesStay(u, a, runId, uses[1..], run);
    }
  }

  /** After the first stop the reasons may part: with the approval expired the controller
      answers that, and the kernel what the run was stopped for.  */
  lemma LaterReasonsPart(t: Tables, runId: nat, s: Controller.State, a: Approval, keyHash: Digest, now: Clock)
    requires Good(t) && Related(t, FindRun(t.runs, runId), s, a) && now.day == s.day && !a.ActiveAt(now.at)
    requires var run := FindRun(t.runs, runId);
      t.runs[run].stop.Some? && !HasPermit(t.permits, run, keyHash)
    ensures var tx := Authorize(t, a, runId, keyHash, now, 0);
      tx.Commit? && tx.result == Stopped(t.runs[FindRun(t.runs, runId)].stop.value)
    ensures Controller.Admit(s, a, now, 0).1 == Controller.Halted(ApprovalInactive)
  {
    var run := FindRun(t.runs, runId);
    assert run < |t.runs| && t.runs[run].approval == a.fingerprint && BudgetInv(t);
    hide Good, BudgetInv, Related, HasPermit, Reserve, Due, Total;
    ReserveDecides(t, a, runId, keyHash, now, 0);
  }

  /** They start related: an initialized run and a new controller on the same day. */
  lemma StartRelated(t: Tables, a: Approval, runId: nat, now: Clock)
    requires FindRun(t.runs, runId) == |t.runs|
    requires forall r :: 0 <= r < |t.runs| ==> t.runs[r].approval != a.fingerprint
    requires forall d :: 0 <= d < |t.dailies| ==> t.dailies[d].approval != a.fingerprint
    requires BudgetInv(t) && a.ActiveAt(now.at)
    ensures var tx := Initialize(t, a, runId, true, now);
            tx.Commit? && Related(tx.tables, FindRun(tx.tables.runs, runId), Controller.Fresh(now.day), a)
  {
    var u := Initialize(t, a, runId, true, now).tables;
    assert u.runs[|t.runs|].runId == runId;
    assert FindRun(u.runs, runId) == |t.runs|;
    forall i | 0 <= i < |t.permits| ensures t.permits[i].run < |t.runs| { assert PermitRowOk(t, i); }
    assert forall k: nat :: !Out(u.permits, |t.runs|, k);
  }

  /** From a freshly initialized run and a new controller, a whole day alike. */
  lemma SameDecisionsFromTheStart(t: Tables, a: Approval, runId: nat, now: Clock, uses: seq<Use>)
    requires Good(t) && a.Validated() && a.ActiveAt(now.at) && FindRun(t.runs, runId) == |t.runs|
    requires forall r :: 0 <= r < |t.runs| ==> t.runs[r].approval != a.fingerprint
    requires forall d :: 0 <= d < |t.dailies| ==> t.dailies[d].approval != a.fingerprint
    requires var tx := Initialize(t, a, runId, true, now); tx.Commit? ==> AllOrdinary(tx.tables, a, runId, now.day, uses)
    ensures var tx := Initialize(t, a, runId, true, now);
            tx.Commit? && KernelRun(tx.tables, a, runId, uses) == ControllerRun(Controller.Fresh(now.day), a, uses)
  {
    StartRelated(t, a, runId, now);
    InitializeSound(t, a, runId, true, now);
    hide Good, Related, Evolves, Initialize, AllOrdinary, KernelRun, ControllerRun;
    SameDecisions(Initialize(t, a, runId, true, now).tables, runId, Controller.Fresh(now.day), a, uses);
  }
}
