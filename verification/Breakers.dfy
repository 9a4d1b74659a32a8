/** The circuit breakers against the log of committed responses. */
module Breakers {
  import opened Schema
  import opened Transactions
  import opened Budget

  /** The statuses answered to one run, in commit order. */
  function RunLog(responses: seq<Response>, run: nat): seq<int> {
    if responses == [] then []
    else
      var last := responses[|responses| - 1];
      RunLog(responses[..|responses| - 1], run) + (if last.run == run then [last.status] else [])
  }

  /** How many entries at the end of the log equal `status`. */
  function Trailing(log: seq<int>, status: int): nat {
    if log == [] || log[|log| - 1] != status then 0 else Trailing(log[..|log| - 1], status) + 1
  }

  /** Two equal denials next to each other. */
  ghost predicate RepeatedDenial(log: seq<int>) {
    exists i :: 0 <= i < |log| - 1 && log[i] == log[i + 1] && (log[i] == 403 || log[i] == 429)
  }

  function StopsOf(stops: seq<StopEvent>, runId: nat): seq<StopEvent> {
    if stops == [] then []
    else
      var last := stops[|stops| - 1];
      StopsOf(stops[..|stops| - 1], runId) + (if last.runId == runId then [last] else [])
  }

  ghost predicate BreakerRowOk(t: Tables, run: nat)
    requires run < |t.runs|
  {
    var r, log, stops := t.runs[run], RunLog(t.responses, run), StopsOf(t.stops, t.runs[run].runId);
    && r.consecutive403 == Trailing(log, 403)
    && r.consecutive429 == Trailing(log, 429)
    && (RepeatedDenial(log) ==> r.stop.Some?)
    && (r.stop.None? ==> stops == [])
    && (r.stop.Some? ==> |stops| == 1 && stops[0].reason == r.stop.value && stops[0].approval == r.approval)
  }

  ghost predicate BreakerInv(t: Tables) {
    && (forall r :: 0 <= r < |t.runs| ==> BreakerRowOk(t, r))
    && (forall e :: e in t.responses ==> e.run < |t.runs|)
    && (forall e :: e in t.stops ==> FindRun(t.runs, e.runId) < |t.runs|)
  }

  lemma BreakerFrame(t: Tables, u: Tables)
    requires BreakerInv(t) && u.runs == t.runs && u.stops == t.stops && u.responses == t.responses
    ensures BreakerInv(u)
  {
    forall r | 0 <= r < |u.runs| ensures BreakerRowOk(u, r) { assert BreakerRowOk(t, r); }
  }

  /** A row whose breaker columns are untouched stays right. */
  lemma BreakerColumns(t: Tables, u: Tables)
    requires BreakerInv(t) && u.stops == t.stops && u.responses == t.responses && |u.runs| == |t.runs|
    requires forall r :: 0 <= r < |t.runs| ==>
      && u.runs[r].runId == t.runs[r].runId && u.runs[r].approval == t.runs[r].approval
      && u.runs[r].stop == t.runs[r].stop
      && u.runs[r].consecutive403 == t.runs[r].consecutive403
      && u.runs[r].consecutive429 == t.runs[r].consecutive429
    ensures BreakerInv(u)
  {
    forall r | 0 <= r < |u.runs| ensures BreakerRowOk(u, r) { assert BreakerRowOk(t, r); }
    forall e | e in u.stops ensures FindRun(u.runs, e.runId) < |u.runs| {
      assert u.runs[FindRun(t.runs, e.runId)].runId == e.runId;
    }
  }

  lemma {:induction false} NoStopsOf(stops: seq<StopEvent>, runId: nat)
    requires forall e :: e in stops ==> e.runId != runId
    ensures StopsOf(stops, runId) == []
  {
    if stops != [] {
      NoStopsOf(stops[..|stops| - 1], runId);
    }
  }

  lemma {:induction false} EmptyRunLog(responses: seq<Response>, run: nat)
    requires forall e :: e in responses ==> e.run != run
    ensures RunLog(responses, run) == []
  {
    if responses != [] {
      EmptyRunLog(responses[..|responses| - 1], run);
    }
  }

  lemma AppendRunKeepsBreakers(t: Tables, runId: nat, approval: Digest)
    requires BreakerInv(t) && FindRun(t.runs, runId) == |t.runs|
    ensures BreakerInv(t.(runs := t.runs + [RunBudget(runId, approval, 0, 0, 0, 0, None, 0)]))
  {
    var u := t.(runs := t.runs + [RunBudget(runId, approval, 0, 0, 0, 0, None, 0)]);
    NoStopsOf(t.stops, runId);
    EmptyRunLog(t.responses, |t.runs|);
    forall r | 0 <= r < |u.runs| ensures BreakerRowOk(u, r) {
      if r < |t.runs| { assert BreakerRowOk(t, r); }
    }
    forall e | e in u.stops ensures FindRun(u.runs, e.runId) < |u.runs| {
      assert u.runs[FindRun(t.runs, e.runId)].runId == e.runId;
    }
  }

  lemma StopKeepsBreakers(t: Tables, run: nat, reason: StopReason, at: Instant, trigger: Trigger)
    requires BreakerInv(t) && RowsOk(t) && run < |t.runs|
    ensures BreakerInv(StopOnce(t, run, reason, at, trigger))
  {
    var u := StopOnce(t, run, reason, at, trigger);
    if u == t { return; }
    assert u.stops[..|t.stops|] == t.stops;
    forall r | 0 <= r < |u.runs| ensures BreakerRowOk(u, r) { assert BreakerRowOk(t, r); }
    forall e | e in u.stops ensures FindRun(u.runs, e.runId) < |u.runs| {
      if e in t.stops {
        assert u.runs[FindRun(t.runs, e.runId)].runId == e.runId;
      } else {
        assert u.runs[run].runId == e.runId;
      }
    }
  }

  lemma RepeatedDenialStep(log: seq<int>, status: int)
    requires RepeatedDenial(log + [status])
    ensures RepeatedDenial(log) || Trailing(log + [status], 403) >= 2 || Trailing(log + [status], 429) >= 2
  {
    var l := log + [status];
    var i :| 0 <= i < |l| - 1 && l[i] == l[i + 1] && (l[i] == 403 || l[i] == 429);
    assert l[..|l| - 1] == log;
    if i + 1 < |log| {
      assert log[i] == log[i + 1];
    } else {
      assert log[|log| - 1] == status;
    }
  }

  /** A response to one run leaves the rows of the other runs right. */
  lemma OtherRunsUnanswered(t: Tables, u: Tables, run: nat, status: int, r: nat)
    requires BreakerInv(t) && r < |t.runs| && r < |u.runs| && r != run
    requires u.responses == t.responses + [Response(run, status)] && u.runs[r] == t.runs[r]
    requires StopsOf(u.stops, t.runs[r].runId) == StopsOf(t.stops, t.runs[r].runId)
    ensures BreakerRowOk(u, r)
  {
    assert u.responses[..|t.responses|] == t.responses;
    assert RunLog(u.responses, r) == RunLog(t.responses, r);
    assert BreakerRowOk(t, r);
  }

  /** The answered run: its log grows by the status, and a repeat has stopped it. */
  lemma AnsweredRunOk(t: Tables, u: Tables, run: nat, status: int)
    requires BreakerInv(t) && run < |t.runs| && run < |u.runs|
    requires u.responses == t.responses + [Response(run, status)]
    requires u.runs[run].(stop := t.runs[run].stop, version := t.runs[run].version + 1) == Answered(t.runs[run], status)
    requires t.runs[run].stop.Some? || BreakerReason(Answered(t.runs[run], status)).None? ==>
               u.runs[run].stop == t.runs[run].stop
               && StopsOf(u.stops, t.runs[run].runId) == StopsOf(t.stops, t.runs[run].runId)
    requires t.runs[run].stop.None? && BreakerReason(Answered(t.runs[run], status)).Some? ==>
               && u.runs[run].stop.Some?
               && |StopsOf(u.stops, t.runs[run].runId)| == |StopsOf(t.stops, t.runs[run].runId)| + 1
               && StopsOf(u.stops, t.runs[run].runId)[|StopsOf(t.stops, t.runs[run].runId)|].reason == u.runs[run].stop.value
               && StopsOf(u.stops, t.runs[run].runId)[|StopsOf(t.stops, t.runs[run].runId)|].approval == t.runs[run].approval
    ensures BreakerRowOk(u, run)
  {
    var log := RunLog(t.responses, run);
    assert BreakerRowOk(t, run);
    assert u.responses[..|t.responses|] == t.responses;
    assert RunLog(u.responses, run) == log + [status];
    assert (log + [status])[..|log|] == log;
    if RepeatedDenial(log + [status]) { RepeatedDenialStep(log, status); }
  }

  lemma RecordResponseKeepsBreakers(t: Tables, a: Approval, runId: nat, permit: nat, status: int, now: Instant)
    requires BreakerInv(t) && RowsOk(t)
    ensures var tx := RecordResponse(t, a, runId, permit, status, now); tx.Commit? ==> BreakerInv(tx.tables)
  {
    var tx := RecordResponse(t, a, runId, permit, status, now);
    if tx.Abort? { return; }
    var run := t.permits[permit].run;
    var u := tx.tables;
    assert u.stops == t.stops || u.stops[..|t.stops|] == t.stops;
    forall r | 0 <= r < |u.runs| ensures BreakerRowOk(u, r) {
      if r != run {
        assert t.runs[r].runId != t.runs[run].runId;
        OtherRunsUnanswered(t, u, run, status, r);
      } else {
        AnsweredRunOk(t, u, run, status);
      }
    }
    StopsKnown(t, u, run);
  }

  lemma StopsKnown(t: Tables, u: Tables, run: nat)
    requires BreakerInv(t) && run < |t.runs| == |u.runs|
    requires forall r :: 0 <= r < |t.runs| ==> u.runs[r].runId == t.runs[r].runId
    requires forall e :: e in u.stops ==> e in t.stops || e.runId == t.runs[run].runId
    ensures forall e :: e in u.stops ==> FindRun(u.runs, e.runId) < |u.runs|
  {
    forall e | e in u.stops ensures FindRun(u.runs, e.runId) < |u.runs| {
      if e in t.stops {
        assert u.runs[FindRun(t.runs, e.runId)].runId == e.runId;
      } else {
        assert u.runs[run].runId == e.runId;
      }
    }
  }

  lemma ReserveKeepsBreakers(t: Tables, a: Approval, runId: nat, keyHash: Digest, now: Clock, cost: int)
    requires BreakerInv(t) && RowsOk(t)
    ensures var tx := Reserve(t, a, runId, keyHash, now, cost); tx.Commit? ==> BreakerInv(tx.tables)
  {
    var run := FindRun(t.runs, runId);
    if run < |t.runs| && t.runs[run].approval == a.fingerprint && !HasPermit(t.permits, run, keyHash) {
      var t1 := OpenDay(t, a.fingerprint, now.day);
      var daily := FindDaily(t1.dailies, a.fingerprint, now.day);
      OpenDayKeepsBreakers(t, a.fingerprint, now.day);
      hide BreakerInv, RowsOk;
      match Judge(t1, a, run, daily, now, cost)
      case Grant => GrantKeepsBreakers(t1, a, run, daily, keyHash, now, cost);
      case Stop(reason) => StopKeepsBreakers(t1, run, reason, now.at, TriggerOf(reason));
      case Defer(_) =>
    }
  }

  lemma OpenDayKeepsBreakers(t: Tables, approval: Digest, day: Date)
    requires BreakerInv(t) && RowsOk(t)
    ensures BreakerInv(OpenDay(t, approval, day)) && RowsOk(OpenDay(t, approval, day))
  {
    var u := OpenDay(t, approval, day);
    BreakerFrame(t, u);
    forall i | 0 <= i < |u.permits| ensures PermitRowOk(u, i) { assert PermitRowOk(t, i); }
  }

  lemma GrantKeepsBreakers(t: Tables, a: Approval, run: nat, daily: nat, keyHash: Digest, now: Clock, cost: int)
    requires BreakerInv(t) && run < |t.runs| && daily < |t.dailies|
    ensures BreakerInv(GrantPermit(t, a, run, daily, keyHash, now, cost))
  {
    BreakerColumns(t, GrantPermit(t, a, run, daily, keyHash, now, cost));
  }

  lemma InitializeKeepsBreakers(t: Tables, a: Approval, runId: nat, known: bool, now: Clock)
    requires BreakerInv(t)
    ensures var tx := Initialize(t, a, runId, known, now); tx.Commit? ==> BreakerInv(tx.tables)
  {
    var tx := Initialize(t, a, runId, known, now);
    if tx.Commit? {
      if FindRun(t.runs, runId) == |t.runs| {
        AppendRunKeepsBreakers(t, runId, a.fingerprint);
        BreakerFrame(t.(runs := t.runs + [RunBudget(runId, a.fingerprint, 0, 0, 0, 0, None, 0)]), tx.tables);
      } else {
        BreakerFrame(t, tx.tables);
      }
    }
  }
}
