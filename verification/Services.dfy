/** The services as objects that change rows inside a transaction, each method
    proved equal to its transaction function and to what its caller hears when the
    session is lost before or after the commit.  */
module Services {
  import opened Schema
  import opened Ledger
  import opened Transactions
  import opened Protocol

  class Database {
    var runs: seq<RunBudget>
    var dailies: seq<DailyBudget>
    var permits: seq<Permit>
    var stops: seq<StopEvent>
    var slots: seq<Slot>
    var journals: seq<Journal>
    var responses: seq<Response> // history only

    function View(): Tables
      reads this
    {
      Tables(runs, dailies, permits, stops, slots, journals, responses)
    }

    constructor ()
      ensures View() == EMPTY
    {
      runs, dailies, permits, stops, slots, journals, responses := [], [], [], [], [], [], [];
    }

    method Load(t: Tables)
      modifies this
      ensures View() == t
    {
      runs, dailies, permits, stops := t.runs, t.dailies, t.permits, t.stops;
      slots, journals, responses := t.slots, t.journals, t.responses;
    }

    /** Leave a transaction block: an exception inside it, or a session lost before
        the commit, rolls back; a lost session is all the caller hears.  */
    method Close<R>(before: Tables, inside: Reply<R>, fault: Fault) returns (reply: Reply<R>)
      modifies this
      ensures View() == if inside.Raised? || fault.LostBefore? then before else old(View())
      ensures reply == if fault.NoFault? then inside else Raised(SessionLost)
    {
      if inside.Raised? || fault.LostBefore? { Load(before); }
      reply := if fault.NoFault? then inside else Raised(SessionLost);
    }
  }

  /** A transaction block that changed `before` into `now` and produced `inside` did
      what the transaction function says.  */
  ghost predicate Inside<R>(before: Tables, now: Tables, inside: Reply<R>, tx: Tx<R>) {
    match tx
    case Commit(t, r) => now == t && inside == Returned(r)
    case Abort(e) => inside == Raised(e)
  }

  lemma PermitInRange(t: Tables, a: Approval, runId: nat, permit: nat)
    requires PermitError(t, a, runId, permit).None?
    ensures permit < |t.permits| && t.permits[permit].run < |t.runs|
  {
  }

  class PersistentAcquisitionSafety {
    const db: Database
    const approval: Approval
    const runId: nat

    constructor (db: Database, approval: Approval, runId: nat)
      ensures this.db == db && this.approval == approval && this.runId == runId
    {
      this.db, this.approval, this.runId := db, approval, runId;
    }

    method Initialize(crawlRunExists: bool, now: Clock, fault: Fault) returns (reply: Reply<()>)
      modifies db
      ensures var tx := Transactions.Initialize(old(db.View()), approval, runId, crawlRunExists, now);
              db.View() == After(old(db.View()), tx, fault) && reply == Heard(tx, fault)
    {
      var before := db.View();
      if !approval.ActiveAt(now.at) { reply := db.Close(before, Raised(Inactive), fault); return; }
      if !crawlRunExists { reply := db.Close(before, Raised(UnknownRun), fault); return; }
      var run := FindRun(db.runs, runId);
      if run == |db.runs| {
        db.runs := db.runs + [RunBudget(runId, approval.fingerprint, 0, 0, 0, 0, None, 0)];
      } else if db.runs[run].approval != approval.fingerprint {
        reply := db.Close(before, Raised(OtherApproval), fault);
        return;
      }
      var daily := LockedDailyBudget(now.day);
      reply := db.Close(before, Returned(()), fault);
    }

    method LockedDailyBudget(day: Date) returns (daily: nat)
      modifies db
      ensures db.View() == OpenDay(old(db.View()), approval.fingerprint, day)
      ensures daily == FindDaily(db.dailies, approval.fingerprint, day) && daily < |db.dailies|
    {
      daily := FindDaily(db.dailies, approval.fingerprint, day);
      if daily == |db.dailies| {
        db.dailies := db.dailies + [DailyBudget(approval.fingerprint, day, 0, 0, 0)];
        daily := FindDaily(db.dailies, approval.fingerprint, day);
      }
    }

    method RecordStop(run: nat, reason: StopReason, at: Instant, trigger: Trigger)
      requires run < |db.runs|
      modifies db
      ensures db.View() == Transactions.RecordStop(old(db.View()), run, reason, at, trigger)
    {
      db.runs := db.runs[run := db.runs[run].(stop := Some(reason))];
      db.runs := db.runs[run := db.runs[run].(version := db.runs[run].version + 1)];
      db.stops := db.stops + [StopEvent(db.runs[run].approval, db.runs[run].runId, reason, trigger, at)];
    }

    /** Reserve one permit: the counters of the run and the day move with the new row. */
    method InsertPermit(run: nat, daily: nat, keyHash: Digest, now: Clock, cost: int) returns (permit: nat)
      requires run < |db.runs| && daily < |db.dailies|
      modifies db
      ensures db.View() == GrantPermit(old(db.View()), approval, run, daily, keyHash, now, cost)
      ensures permit == old(|db.permits|)
    {
      var sequence := db.runs[run].requestCount + 1;
      permit := |db.permits|;
      db.permits := db.permits
        + [Permit(run, sequence, keyHash, approval.fingerprint, cost, Authorized, now, None, None)];
      db.runs := db.runs[run := db.runs[run].(requestCount := sequence)];
      db.runs := db.runs[run := db.runs[run].(inFlight := db.runs[run].inFlight + 1)];
      db.runs := db.runs[run := db.runs[run].(version := db.runs[run].version + 1)];
      db.dailies := db.dailies[daily := db.dailies[daily].(requestCount := db.dailies[daily].requestCount + 1)];
      db.dailies := db.dailies[daily := db.dailies[daily].(cost := db.dailies[daily].cost + cost)];
      db.dailies := db.dailies[daily := db.dailies[daily].(version := db.dailies[daily].version + 1)];
    }

    /** The kernel shared by both authorizations, inside their transaction. */
    method ReserveInSession(keyHash: Digest, now: Clock, cost: int) returns (inside: Reply<Decision>)
      modifies db
      ensures Inside(old(db.View()), db.View(), inside, Reserve(old(db.View()), approval, runId, keyHash, now, cost))
    {
      var run := FindRun(db.runs, runId);
      if run == |db.runs| { return Raised(NotInitialized); }
      if db.runs[run].approval != approval.fingerprint { return Raised(OtherApproval); }
      var daily := LockedDailyBudget(now.day);
      if HasPermit(db.permits, run, keyHash) { return Raised(DuplicateRequest); }
      ghost var today := db.View();
      assert daily == FindDaily(today.dailies, approval.fingerprint, now.day);
      hide OpenDay, FindRun, FindDaily, HasPermit;
      var stopped: Option<StopReason> := None;
      if db.runs[run].stop.Some? {
        stopped := db.runs[run].stop;
      } else if !approval.ActiveAt(now.at) {
        stopped := Some(ApprovalInactive);
      } else {
        var inFlight := InFlightSum(db.runs, approval.fingerprint);
        var minuteCount := Total(db.permits, AuthorizedAfter(approval.fingerprint, now.at - MICROS_PER_MINUTE));
        var projectedDaily := db.dailies[daily].cost + cost;
        var projectedMonthly := MonthCost(db.dailies, approval.fingerprint, now.day) + cost;
        if inFlight >= approval.concurrency {
          return Returned(Deferred(true));
        } else if minuteCount >= approval.requestsPerMinute {
          return Returned(Deferred(false));
        } else if db.runs[run].requestCount >= approval.perRunRequestCap {
          stopped := Some(PerRunRequestCap);
        } else if db.dailies[daily].requestCount >= approval.dailyRequestCap {
          stopped := Some(DailyRequestCap);
        } else if projectedDaily > approval.dailyCostCap {
          stopped := Some(DailyCostCap);
        } else if projectedMonthly > approval.monthlyCostCap {
          stopped := Some(MonthlyCostCap);
        } else {
          var permit := InsertPermit(run, daily, keyHash, now, cost);
          return Returned(Granted(permit));
        }
      }
      if db.runs[run].stop.None? { RecordStop(run, stopped.value, now.at, TriggerOf(stopped.value)); }
      return Returned(Stopped(stopped.value));
    }

    method AuthorizeRequest(keyHash: Digest, now: Clock, cost: int, fault: Fault) returns (reply: Reply<Decision>)
      modifies db
      ensures var tx := Authorize(old(db.View()), approval, runId, keyHash, now, cost);
              db.View() == After(old(db.View()), tx, fault) && reply == Heard(tx, fault)
    {
      var before := db.View();
      if cost < 0 { reply := db.Close(before, Raised(NegativeCost), fault); return; }
      var inside := ReserveInSession(keyHash, now, cost);
      reply := db.Close(before, inside, fault);
    }

    /** Reserve a permit and commit the matching send intent, or roll both back. */
    method AuthorizeAndStartLiveSend(journal: nat, keyHash: Digest, now: Clock, cost: int, fault: Fault)
      returns (reply: Reply<Decision>)
      modifies db
      ensures var tx := AuthorizeAndStart(old(db.View()), approval, runId, journal, keyHash, now, cost);
              db.View() == After(old(db.View()), tx, fault) && reply == Heard(tx, fault)
    {
      var before := db.View();
      var inside := StartInSession(journal, keyHash, now, cost);
      hide AuthorizeAndStart;
      reply := db.Close(before, inside, fault);
    }

    /** The reservation and the send intent, inside one transaction. */
    method StartInSession(journal: nat, keyHash: Digest, now: Clock, cost: int) returns (inside: Reply<Decision>)
      modifies db
      ensures Inside(old(db.View()), db.View(), inside,
        AuthorizeAndStart(old(db.View()), approval, runId, journal, keyHash, now, cost))
    {
      if cost < 0 { return Raised(NegativeCost); }
      inside := ReserveInSession(keyHash, now, cost);
      hide Reserve;
      if inside.Returned? && inside.value.Granted? {
        if !JournalAwaits(db.View(), approval, runId, journal, keyHash) { return Raised(JournalMismatch); }
        if !SlotAwaits(db.View(), approval, runId, db.journals[journal].slot, keyHash) { return Raised(SlotMismatch); }
        WriteIntent(journal, inside.value.permit, now.at);
      }
    }

    method WriteIntent(journal: nat, permit: nat, at: Instant)
      requires journal < |db.journals|
      modifies db`journals
      ensures db.View() == StartSend(old(db.View()), journal, permit, at)
    {
      db.journals := db.journals[journal := db.journals[journal].(permit := Some(permit))];
      db.journals := db.journals[journal := db.journals[journal].(status := SendStarted)];
      db.journals := db.journals[journal := db.journals[journal].(sendStartedAt := Some(at))];
      db.journals := db.journals[journal := db.journals[journal].(version := db.journals[journal].version + 1)];
    }

    /** Consume one permit and advance the consecutive 403 and 429 breakers. */
    method RecordResponse(permit: nat, status: int, now: Instant, fault: Fault) returns (reply: Reply<()>)
      modifies db
      ensures var tx := Transactions.RecordResponse(old(db.View()), approval, runId, permit, status, now);
              db.View() == After(old(db.View()), tx, fault) && reply == Heard(tx, fault)
    {
      var before := db.View();
      if !(100 <= status <= 599) { reply := db.Close(before, Raised(StatusOutOfRange), fault); return; }
      var error := PermitError(db.View(), approval, runId, permit);
      hide PermitError;
      if error.Some? { reply := db.Close(before, Raised(error.value), fault); return; }
      PermitInRange(db.View(), approval, runId, permit);
      var run := db.permits[permit].run;
      db.permits := db.permits[permit := db.permits[permit].(status := Consumed)];
      db.permits := db.permits[permit := db.permits[permit].(consumedAt := Some(now), response := Some(status))];
      var reason := AdvanceBreakers(run, status);
      db.responses := db.responses + [Response(run, status)];
      if reason.Some? && db.runs[run].stop.None? { RecordStop(run, reason.value, now, ByResponse); }
      reply := db.Close(before, Returned(()), fault);
    }

    /** Release the permit and count consecutive 403 and 429 answers; the stop that is due. */
    method AdvanceBreakers(run: nat, status: int) returns (reason: Option<StopReason>)
      requires run < |db.runs|
      modifies db`runs
      ensures db.runs == old(db.runs)[run := Answered(old(db.runs)[run], status)]
      ensures reason == BreakerReason(db.runs[run])
    {
      reason := None;
      db.runs := db.runs[run := db.runs[run].(inFlight := db.runs[run].inFlight - 1, version := db.runs[run].version + 1)];
      if status == 403 {
        db.runs := db.runs[run := db.runs[run].(consecutive403 := db.runs[run].consecutive403 + 1, consecutive429 := 0)];
        if db.runs[run].consecutive403 >= 2 { reason := Some(Repeated403); }
      } else if status == 429 {
        db.runs := db.runs[run := db.runs[run].(consecutive429 := db.runs[run].consecutive429 + 1, consecutive403 := 0)];
        if db.runs[run].consecutive429 >= 2 { reason := Some(Repeated429); }
      } else {
        db.runs := db.runs[run := db.runs[run].(consecutive403 := 0, consecutive429 := 0)];
      }
    }

    /** Consume a failed permit; neither its request nor its cost is refunded. */
    method RecordTransportFailure(permit: nat, now: Instant, fault: Fault) returns (reply: Reply<()>)
      modifies db
      ensures var tx := Transactions.RecordTransportFailure(old(db.View()), approval, runId, permit, now);
              db.View() == After(old(db.View()), tx, fault) && reply == Heard(tx, fault)
    {
      var before := db.View();
      var error := PermitError(db.View(), approval, runId, permit);
      if error.Some? { reply := db.Close(before, Raised(error.value), fault); return; }
      var run := db.permits[permit].run;
      db.permits := db.permits[permit := db.permits[permit].(status := TransportFailed)];
      db.permits := db.permits[permit := db.permits[permit].(consumedAt := Some(now))];
      db.runs := db.runs[run := db.runs[run].(inFlight := db.runs[run].inFlight - 1)];
      db.runs := db.runs[run := db.runs[run].(version := db.runs[run].version + 1)];
      reply := db.Close(before, Returned(()), fault);
    }

    /** The operator's and the parser's stop. */
    method Stop(reason: StopReason, now: Instant, trigger: Trigger, fault: Fault) returns (reply: Reply<()>)
      modifies db
      ensures var tx := StopRun(old(db.View()), approval, runId, reason, now, trigger);
              db.View() == After(old(db.View()), tx, fault) && reply == Heard(tx, fault)
    {
      var before := db.View();
      var inside := StopInSession(reason, now, trigger);
      hide StopRun;
      reply := db.Close(before, inside, fault);
    }

    method StopInSession(reason: StopReason, now: Instant, trigger: Trigger) returns (inside: Reply<()>)
      modifies db
      ensures Inside(old(db.View()), db.View(), inside, StopRun(old(db.View()), approval, runId, reason, now, trigger))
    {
      var run := FindRun(db.runs, runId);
      if run == |db.runs| { return Raised(NotInitialized); }
      if db.runs[run].approval != approval.fingerprint { return Raised(OtherApproval); }
      if db.runs[run].stop.None? { RecordStop(run, reason, now, trigger); }
      return Returned(());
    }
  }

  class FirstRequestSlotService {
    const db: Database

    constructor (db: Database)
      ensures this.db == db
    {
      this.db := db;
    }

    /** Spend the approval's only slot. */
    method Claim(approval: Digest, runId: nat, keyHash: Digest, now: Instant, fault: Fault)
      returns (reply: Reply<Transactions.Claim>)
      modifies db
      ensures var tx := ClaimSlot(old(db.View()), approval, runId, keyHash, now);
              db.View() == After(old(db.View()), tx, fault) && reply == Heard(tx, fault)
    {
      var before := db.View();
      if !RunBound(before, runId, approval) { reply := db.Close(before, Raised(SlotBinding), fault); return; }
      if SlotTaken(before, approval) { reply := db.Close(before, Raised(SlotSpent), fault); return; }
      var id := |db.slots|;
      db.slots := db.slots + [Slot(approval, runId, keyHash, SlotClaimed, now, None)];
      reply := db.Close(before, Returned(Transactions.Claim(id, approval, runId, keyHash)), fault);
    }

    method Resolve(claim: Transactions.Claim, completed: bool, now: Instant, fault: Fault) returns (reply: Reply<()>)
      modifies db
      ensures var tx := ResolveSlot(old(db.View()), claim, completed, now);
              db.View() == After(old(db.View()), tx, fault) && reply == Heard(tx, fault)
    {
      var before := db.View();
      if !SlotMatches(before, claim) { reply := db.Close(before, Raised(SlotBinding), fault); return; }
      if !db.slots[claim.slot].status.SlotClaimed? { reply := db.Close(before, Raised(SlotTerminal), fault); return; }
      db.slots := db.slots[claim.slot := db.slots[claim.slot].(status := SlotTarget(completed))];
      db.slots := db.slots[claim.slot := db.slots[claim.slot].(resolvedAt := Some(now))];
      reply := db.Close(before, Returned(()), fault);
    }
  }

  class LiveExecutionJournalService {
    const db: Database

    constructor (db: Database)
      ensures this.db == db
    {
      this.db := db;
    }

    method Claim(claim: Transactions.Claim, now: Instant, fault: Fault) returns (reply: Reply<Record>)
      modifies db
      ensures var tx := ClaimJournal(old(db.View()), claim, now);
              db.View() == After(old(db.View()), tx, fault) && reply == Heard(tx, fault)
    {
      var before := db.View();
      if !SlotMatches(before, claim) { reply := db.Close(before, Raised(JournalBinding), fault); return; }
      if !db.slots[claim.slot].status.SlotClaimed? { reply := db.Close(before, Raised(JournalTransition), fault); return; }
      if SlotHasJournal(before, claim.slot) { reply := db.Close(before, Raised(JournalTaken), fault); return; }
      var id := |db.journals|;
      db.journals := db.journals
        + [Journal(claim.approval, claim.runId, claim.slot, claim.keyHash, None, Claimed, None, now, None, None, None, 0)];
      reply := db.Close(before, Returned(Record(id, db.journals[id])), fault);
    }

    method Settle(id: nat, permit: nat, now: Instant, fault: Fault) returns (reply: Reply<Record>)
      modifies db
      ensures var tx := SettleJournal(old(db.View()), id, permit, now);
              db.View() == After(old(db.View()), tx, fault) && reply == Heard(tx, fault)
    {
      var before := db.View();
      if id >= |db.journals| { reply := db.Close(before, Raised(JournalMissing), fault); return; }
      if !db.journals[id].status.SendStarted? { reply := db.Close(before, Raised(JournalTransition), fault); return; }
      if db.journals[id].permit != Some(permit) { reply := db.Close(before, Raised(JournalBinding), fault); return; }
      if permit >= |db.permits| || !db.permits[permit].status.Consumed? {
        reply := db.Close(before, Raised(JournalTransition), fault);
        return;
      }
      db.journals := db.journals[id := db.journals[id].(status := Settled)];
      db.journals := db.journals[id := db.journals[id].(settledAt := Some(now))];
      db.journals := db.journals[id := db.journals[id].(version := db.journals[id].version + 1)];
      reply := db.Close(before, Returned(Record(id, db.journals[id])), fault);
    }

    /** Write a terminal status. */
    method Terminalize(id: nat, status: JournalStatus, failure: Option<FailureCode>, now: Instant)
      requires id < |db.journals|
      modifies db
      ensures db.View() == old(db.View()).(journals := old(db.journals)[id := old(db.journals)[id].(
                status := status, failure := failure, resolvedAt := Some(now), version := old(db.journals)[id].version + 1)])
    {
      db.journals := db.journals[id := db.journals[id].(status := status)];
      db.journals := db.journals[id := db.journals[id].(failure := failure)];
      db.journals := db.journals[id := db.journals[id].(resolvedAt := Some(now))];
      db.journals := db.journals[id := db.journals[id].(version := db.journals[id].version + 1)];
    }

    method Complete(id: nat, now: Instant, fault: Fault) returns (reply: Reply<Record>)
      modifies db
      ensures var tx := CompleteJournal(old(db.View()), id, now);
              db.View() == After(old(db.View()), tx, fault) && reply == Heard(tx, fault)
    {
      var before := db.View();
      if id >= |db.journals| { reply := db.Close(before, Raised(JournalMissing), fault); return; }
      if !db.journals[id].status.Settled? { reply := db.Close(before, Raised(JournalTransition), fault); return; }
      Terminalize(id, Completed, None, now);
      reply := db.Close(before, Returned(Record(id, db.journals[id])), fault);
    }

    method Fail(id: nat, code: FailureCode, now: Instant, fault: Fault) returns (reply: Reply<Record>)
      modifies db
      ensures var tx := FailJournal(old(db.View()), id, code, now);
              db.View() == After(old(db.View()), tx, fault) && reply == Heard(tx, fault)
    {
      var before := db.View();
      if id >= |db.journals| { reply := db.Close(before, Raised(JournalMissing), fault); return; }
      if !(db.journals[id].status.Claimed? || db.journals[id].status.Settled?) {
        reply := db.Close(before, Raised(JournalTransition), fault);
        return;
      }
      Terminalize(id, Failed, Some(code), now);
      reply := db.Close(before, Returned(Record(id, db.journals[id])), fault);
    }

    method MarkIndeterminate(id: nat, code: FailureCode, now: Instant, fault: Fault) returns (reply: Reply<Record>)
      modifies db
      ensures var tx := Transactions.MarkIndeterminate(old(db.View()), id, code, now);
              db.View() == After(old(db.View()), tx, fault) && reply == Heard(tx, fault)
    {
      var before := db.View();
      if id >= |db.journals| { reply := db.Close(before, Raised(JournalMissing), fault); return; }
      if !db.journals[id].status.SendStarted? { reply := db.Close(before, Raised(JournalTransition), fault); return; }
      Terminalize(id, Indeterminate, Some(code), now);
      reply := db.Close(before, Returned(Record(id, db.journals[id])), fault);
    }

    method RecoverWithoutResend(id: nat, now: Instant, fault: Fault) returns (reply: Reply<Record>)
      modifies db
      ensures var tx := Transactions.RecoverWithoutResend(old(db.View()), id, now);
              db.View() == After(old(db.View()), tx, fault) && reply == Heard(tx, fault)
    {
      var before := db.View();
      if id >= |db.journals| { reply := db.Close(before, Raised(JournalMissing), fault); return; }
      if !db.journals[id].Terminal() {
        if db.journals[id].status.SendStarted? {
          Terminalize(id, Indeterminate, Some(RecoveryUnknownExternalEffect), now);
        } else if db.journals[id].status.Claimed? {
          Terminalize(id, Failed, Some(RecoveryBeforeSend), now);
        } else {
          Terminalize(id, Failed, Some(RecoveryAfterSettlement), now);
        }
      }
      reply := db.Close(before, Returned(Record(id, db.journals[id])), fault);
    }

    method Get(id: nat, fault: Fault) returns (reply: Reply<Record>)
      ensures reply == Heard(GetJournal(db.View(), id), fault)
    {
      if !fault.NoFault? { return Raised(SessionLost); }
      if id >= |db.journals| { return Raised(JournalMissing); }
      return Returned(Record(id, db.journals[id]));
    }
  }
}
