/** Every database transaction of the live protocol as a function from the tables
    it starts on to the tables it commits, or to the error that rolls it back.  */
module Transactions {
  import opened Schema
  import opened Ledger

  datatype Error =
    // safety kernel
    | NotInitialized | OtherApproval | UnknownRun | Inactive | NegativeCost | DuplicateRequest | UnknownPermit
    | PermitSpent | OtherRun | InFlightInconsistent | StatusOutOfRange
    | JournalMismatch | SlotMismatch
    // journal service
    | JournalMissing | JournalBinding | JournalTransition | JournalTaken
    // slot service
    | SlotSpent | SlotBinding | SlotTerminal
    // reconciler
    | PermitUnavailable | PermitStateInvalid | BudgetUnavailable
    // the session failed, before or after its commit
    | SessionLost
  {
    /** The exceptions that derive from the journal service's base error. */
    predicate OfJournal() {
      this in {JournalMissing, JournalBinding, JournalTransition, JournalTaken}
    }
  }

  /** Commit carries the whole new state; Abort leaves the old state in place. */
  datatype Tx<+R> = Commit(tables: Tables, result: R) | Abort(error: Error)

  // ----- PersistentAcquisitionSafety

  datatype Decision = Granted(permit: nat) | Stopped(reason: StopReason) | Deferred(atConcurrency: bool)

  function TriggerOf(reason: StopReason): Trigger {
    match reason
    case ApprovalInactive => ByApproval
    case PerRunRequestCap | DailyRequestCap | DailyCostCap | MonthlyCostCap => ByBudget
    case _ => BySystem
  }

  /** Stop the run and append the stop event. */
  function RecordStop(t: Tables, run: nat, reason: StopReason, at: Instant, trigger: Trigger): Tables
    requires run < |t.runs|
  {
    var r := t.runs[run];
    t.(runs := t.runs[run := r.(stop := Some(reason), version := r.version + 1)],
       stops := t.stops + [StopEvent(r.approval, r.runId, reason, trigger, at)])
  }

  function StopOnce(t: Tables, run: nat, reason: StopReason, at: Instant, trigger: Trigger): Tables
    requires run < |t.runs|
  {
    if t.runs[run].stop.None? then RecordStop(t, run, reason, at, trigger) else t
  }

  function OpenDay(t: Tables, approval: Digest, day: Date): (r: Tables)
    ensures FindDaily(r.dailies, approval, day) < |r.dailies|
  {
    if FindDaily(t.dailies, approval, day) < |t.dailies| then t
    else
      assert (t.dailies + [DailyBudget(approval, day, 0, 0, 0)])[..|t.dailies|] == t.dailies;
      t.(dailies := t.dailies + [DailyBudget(approval, day, 0, 0, 0)])
  }

  predicate HasPermit(permits: seq<Permit>, run: nat, keyHash: Digest) {
    exists i | 0 <= i < |permits| :: permits[i].run == run && permits[i].keyHash == keyHash
  }

  datatype Verdict = Grant | Stop(reason: StopReason) | Defer(atConcurrency: bool)

  /** The ordered limit checks of one authorization. */
  function Judge(t: Tables, a: Approval, run: nat, daily: nat, now: Clock, cost: int): Verdict
    requires run < |t.runs| && daily < |t.dailies|
  {
    if t.runs[run].stop.Some? then Stop(t.runs[run].stop.value)
    else if !a.ActiveAt(now.at) then Stop(ApprovalInactive)
    else if InFlightSum(t.runs, a.fingerprint) >= a.concurrency then Defer(true)
    else if Total(t.permits, AuthorizedAfter(a.fingerprint, now.at - MICROS_PER_MINUTE)) >= a.requestsPerMinute then
      Defer(false)
    else if t.runs[run].requestCount >= a.perRunRequestCap then Stop(PerRunRequestCap)
    else if t.dailies[daily].requestCount >= a.dailyRequestCap then Stop(DailyRequestCap)
    else if t.dailies[daily].cost + cost > a.dailyCostCap then Stop(DailyCostCap)
    else if MonthCost(t.dailies, a.fingerprint, now.day) + cost > a.monthlyCostCap then Stop(MonthlyCostCap)
    else Grant
  }

  function NewPermit(t: Tables, a: Approval, run: nat, keyHash: Digest, now: Clock, cost: int): Permit
    requires run < |t.runs|
  {
    Permit(run, t.runs[run].requestCount + 1, keyHash, a.fingerprint, cost, Authorized, now, None, None)
  }

  function GrantPermit(t: Tables, a: Approval, run: nat, daily: nat, keyHash: Digest, now: Clock, cost: int): Tables
    requires run < |t.runs| && daily < |t.dailies|
  {
    var r, d := t.runs[run], t.dailies[daily];
    t.(permits := t.permits + [NewPermit(t, a, run, keyHash, now, cost)],
       runs := t.runs[run := r.(requestCount := r.requestCount + 1, inFlight := r.inFlight + 1, version := r.version + 1)],
       dailies := t.dailies[daily := d.(requestCount := d.requestCount + 1, cost := d.cost + cost, version := d.version + 1)])
  }

  /** The kernel shared by both authorizations. */
  function Reserve(t: Tables, a: Approval, runId: nat, keyHash: Digest, now: Clock, cost: int): Tx<Decision> {
    var run := FindRun(t.runs, runId);
    if run == |t.runs| then Abort(NotInitialized)
    else if t.runs[run].approval != a.fingerprint then Abort(OtherApproval)
    else if HasPermit(t.permits, run, keyHash) then Abort(DuplicateRequest)
    else
      var t1 := OpenDay(t, a.fingerprint, now.day);
      var daily := FindDaily(t1.dailies, a.fingerprint, now.day);
      match Judge(t1, a, run, daily, now, cost)
      case Grant => Commit(GrantPermit(t1, a, run, daily, keyHash, now, cost), Granted(|t.permits|))
      case Stop(reason) => Commit(StopOnce(t1, run, reason, now.at, TriggerOf(reason)), Stopped(reason))
      case Defer(atConcurrency) => Commit(t1, Deferred(atConcurrency))
  }

  function Authorize(t: Tables, a: Approval, runId: nat, keyHash: Digest, now: Clock, cost: int): Tx<Decision> {
    if cost < 0 then Abort(NegativeCost) else Reserve(t, a, runId, keyHash, now, cost)
  }

  predicate JournalAwaits(t: Tables, a: Approval, runId: nat, journal: nat, keyHash: Digest) {
    && journal < |t.journals|
    && var j := t.journals[journal];
       j.status.Claimed? && j.approval == a.fingerprint && j.runId == runId && j.keyHash == keyHash
  }

  predicate SlotAwaits(t: Tables, a: Approval, runId: nat, slot: nat, keyHash: Digest) {
    && slot < |t.slots|
    && var s := t.slots[slot];
       s.status.SlotClaimed? && s.approval == a.fingerprint && s.runId == runId && s.keyHash == keyHash
  }

  function StartSend(t: Tables, journal: nat, permit: nat, at: Instant): Tables
    requires journal < |t.journals|
  {
    var j := t.journals[journal];
    t.(journals := t.journals[journal :=
         j.(permit := Some(permit), status := SendStarted, sendStartedAt := Some(at), version := j.version + 1)])
  }

  /** Reserve a permit and write the send intent in the same transaction. */
  function AuthorizeAndStart(
    t: Tables, a: Approval, runId: nat, journal: nat, keyHash: Digest, now: Clock, cost: int): Tx<Decision>
  {
    if cost < 0 then Abort(NegativeCost)
    else
      match Reserve(t, a, runId, keyHash, now, cost)
      case Abort(e) => Abort(e)
      case Commit(t1, decision) =>
        if !decision.Granted? then Commit(t1, decision)
        else if !JournalAwaits(t1, a, runId, journal, keyHash) then Abort(JournalMismatch)
        else if !SlotAwaits(t1, a, runId, t1.journals[journal].slot, keyHash) then Abort(SlotMismatch)
        else Commit(StartSend(t1, journal, decision.permit, now.at), decision)
  }

  /** The checks shared by the two ways to consume a permit. */
  function PermitError(t: Tables, a: Approval, runId: nat, permit: nat): Option<Error> {
    if permit >= |t.permits| || t.permits[permit].approval != a.fingerprint then Some(UnknownPermit)
    else if !t.permits[permit].status.Authorized? then Some(PermitSpent)
    else
      var run := t.permits[permit].run;
      if run >= |t.runs| || t.runs[run].runId != runId then Some(OtherRun)
      else if t.runs[run].inFlight < 1 then Some(InFlightInconsistent)
      else None
  }

  function BreakerReason(r: RunBudget): Option<StopReason> {
    if r.consecutive403 >= 2 then Some(Repeated403)
    else if r.consecutive429 >= 2 then Some(Repeated429)
    else None
  }

  /** The run after one response: its permit is released and its breakers advance. */
  function Answered(r: RunBudget, status: int): RunBudget {
    r.(inFlight := r.inFlight - 1,
       version := r.version + 1,
       consecutive403 := if status == 403 then r.consecutive403 + 1 else 0,
       consecutive429 := if status == 429 then r.consecutive429 + 1 else 0)
  }

  function RecordResponse(t: Tables, a: Approval, runId: nat, permit: nat, status: int, now: Instant): Tx<()> {
    if !(100 <= status <= 599) then Abort(StatusOutOfRange)
    else
      var error := PermitError(t, a, runId, permit);
      if error.Some? then Abort(error.value)
      else
        var p := t.permits[permit];
        var r := Answered(t.runs[p.run], status);
        var t1 := t.(permits := t.permits[permit := p.(status := Consumed, consumedAt := Some(now), response := Some(status))],
                     runs := t.runs[p.run := r],
                     responses := t.responses + [Response(p.run, status)]);
        var reason := BreakerReason(r);
        Commit(if reason.Some? then StopOnce(t1, p.run, reason.value, now, ByResponse) else t1, ())
  }

  /** The permit is spent and its run released; no request and no cost is refunded. */
  function ReleaseFailed(t: Tables, permit: nat, now: Instant): Tables
    requires permit < |t.permits| && t.permits[permit].run < |t.runs|
  {
    var p := t.permits[permit];
    var r := t.runs[p.run];
    t.(permits := t.permits[permit := p.(status := TransportFailed, consumedAt := Some(now))],
       runs := t.runs[p.run := r.(inFlight := r.inFlight - 1, version := r.version + 1)])
  }

  function RecordTransportFailure(t: Tables, a: Approval, runId: nat, permit: nat, now: Instant): Tx<()> {
    var error := PermitError(t, a, runId, permit);
    if error.Some? then Abort(error.value) else Commit(ReleaseFailed(t, permit, now), ())
  }

  function StopRun(t: Tables, a: Approval, runId: nat, reason: StopReason, now: Instant, trigger: Trigger): Tx<()> {
    var run := FindRun(t.runs, runId);
    if run == |t.runs| then Abort(NotInitialized)
    else if t.runs[run].approval != a.fingerprint then Abort(OtherApproval)
    else Commit(StopOnce(t, run, reason, now, trigger), ())
  }

  function Initialize(t: Tables, a: Approval, runId: nat, crawlRunExists: bool, now: Clock): Tx<()> {
    if !a.ActiveAt(now.at) then Abort(Inactive)
    else if !crawlRunExists then Abort(UnknownRun)
    else
      var run := FindRun(t.runs, runId);
      if run < |t.runs| && t.runs[run].approval != a.fingerprint then Abort(OtherApproval)
      else
        var t1 := if run < |t.runs| then t
                  else t.(runs := t.runs + [RunBudget(runId, a.fingerprint, 0, 0, 0, 0, None, 0)]);
        Commit(OpenDay(t1, a.fingerprint, now.day), ())
  }

  // ----- FirstRequestSlotService

  datatype Claim = Claim(slot: nat, approval: Digest, runId: nat, keyHash: Digest)

  predicate SlotTaken(t: Tables, approval: Digest) {
    exists i | 0 <= i < |t.slots| :: t.slots[i].approval == approval
  }

  predicate RunBound(t: Tables, runId: nat, approval: Digest) {
    exists i | 0 <= i < |t.runs| :: t.runs[i].runId == runId && t.runs[i].approval == approval
  }

  function ClaimSlot(t: Tables, approval: Digest, runId: nat, keyHash: Digest, now: Instant): Tx<Claim> {
    if !RunBound(t, runId, approval) then Abort(SlotBinding)
    else if SlotTaken(t, approval) then Abort(SlotSpent)
    else Commit(t.(slots := t.slots + [Slot(approval, runId, keyHash, SlotClaimed, now, None)]),
                Claim(|t.slots|, approval, runId, keyHash))
  }

  predicate SlotMatches(t: Tables, c: Claim) {
    && c.slot < |t.slots|
    && t.slots[c.slot].approval == c.approval
    && t.slots[c.slot].runId == c.runId
    && t.slots[c.slot].keyHash == c.keyHash
  }

  function SlotTarget(completed: bool): SlotStatus {
    if completed then SlotCompleted else SlotFailed
  }

  function ResolveSlot(t: Tables, c: Claim, completed: bool, now: Instant): Tx<()> {
    if !SlotMatches(t, c) then Abort(SlotBinding)
    else if !t.slots[c.slot].status.SlotClaimed? then Abort(SlotTerminal)
    else Commit(t.(slots := t.slots[c.slot := t.slots[c.slot].(status := SlotTarget(completed), resolvedAt := Some(now))]), ())
  }

  // ----- LiveExecutionJournalService

  /** A journal row together with its identity, as the service returns it. */
  datatype Record = Record(id: nat, row: Journal)

  predicate SlotHasJournal(t: Tables, slot: nat) {
    exists i | 0 <= i < |t.journals| :: t.journals[i].slot == slot
  }

  function ClaimJournal(t: Tables, c: Claim, now: Instant): Tx<Record> {
    if !SlotMatches(t, c) then Abort(JournalBinding)
    else if !t.slots[c.slot].status.SlotClaimed? then Abort(JournalTransition)
    else if SlotHasJournal(t, c.slot) then Abort(JournalTaken)
    else
      var j := Journal(c.approval, c.runId, c.slot, c.keyHash, None, Claimed, None, now, None, None, None, 0);
      Commit(t.(journals := t.journals + [j]), Record(|t.journals|, j))
  }

  function WriteJournal(t: Tables, id: nat, j: Journal): Tx<Record>
    requires id < |t.journals|
  {
    Commit(t.(journals := t.journals[id := j]), Record(id, j))
  }

  function SettleJournal(t: Tables, id: nat, permit: nat, now: Instant): Tx<Record> {
    if id >= |t.journals| then Abort(JournalMissing)
    else
      var j := t.journals[id];
      if !j.status.SendStarted? then Abort(JournalTransition)
      else if j.permit != Some(permit) then Abort(JournalBinding)
      else if permit >= |t.permits| || !t.permits[permit].status.Consumed? then Abort(JournalTransition)
      else WriteJournal(t, id, j.(status := Settled, settledAt := Some(now), version := j.version + 1))
  }

  function CompleteJournal(t: Tables, id: nat, now: Instant): Tx<Record> {
    if id >= |t.journals| then Abort(JournalMissing)
    else
      var j := t.journals[id];
      if !j.status.Settled? then Abort(JournalTransition)
      else WriteJournal(t, id, j.(status := Completed, failure := None, resolvedAt := Some(now), version := j.version + 1))
  }

  function FailJournal(t: Tables, id: nat, code: FailureCode, now: Instant): Tx<Record> {
    if id >= |t.journals| then Abort(JournalMissing)
    else
      var j := t.journals[id];
      if !(j.status.Claimed? || j.status.Settled?) then Abort(JournalTransition)
      else WriteJournal(t, id, j.(status := Failed, failure := Some(code), resolvedAt := Some(now), version := j.version + 1))
  }

  function MarkIndeterminate(t: Tables, id: nat, code: FailureCode, now: Instant): Tx<Record> {
    if id >= |t.journals| then Abort(JournalMissing)
    else
      var j := t.journals[id];
      if !j.status.SendStarted? then Abort(JournalTransition)
      else WriteJournal(t, id,
        j.(status := Indeterminate, failure := Some(code), resolvedAt := Some(now), version := j.version + 1))
  }

  function RecoverWithoutResend(t: Tables, id: nat, now: Instant): Tx<Record> {
    if id >= |t.journals| then Abort(JournalMissing)
    else
      var j := t.journals[id];
      if j.Terminal() then Commit(t, Record(id, j))
      else
        var (status, code) :=
          match j.status
          case SendStarted => (Indeterminate, RecoveryUnknownExternalEffect)
          case Claimed => (Failed, RecoveryBeforeSend)
          case _ => (Failed, RecoveryAfterSettlement);
        WriteJournal(t, id,
          j.(status := status, failure := Some(code), resolvedAt := Some(now), version := j.version + 1))
  }

  function GetJournal(t: Tables, id: nat): Tx<Record> {
    if id >= |t.journals| then Abort(JournalMissing) else Commit(t, Record(id, t.journals[id]))
  }

  // ----- LiveSlotReconciliationService

  function ClaimOf(r: Record): Claim {
    Claim(r.row.slot, r.row.approval, r.row.runId, r.row.keyHash)
  }

  function ConsumeUncertainPermit(t: Tables, r: Record, now: Instant): Tx<()> {
    if r.row.permit.None? || !(r.row.status.Failed? || r.row.status.Indeterminate?) then Commit(t, ())
    else
      var permit := r.row.permit.value;
      if permit >= |t.permits| then Abort(PermitUnavailable)
      else if t.permits[permit].status.Consumed? || t.permits[permit].status.TransportFailed? then Commit(t, ())
      else if !t.permits[permit].status.Authorized? then Abort(PermitStateInvalid)
      else
        var run := t.permits[permit].run;
        if run >= |t.runs| || t.runs[run].inFlight < 1 then Abort(BudgetUnavailable)
        else Commit(ReleaseFailed(t, permit, now), ())
  }

  /** The status a lookup by the full slot identity finds. */
  function ReadSlotStatus(t: Tables, c: Claim): Option<SlotStatus> {
    if SlotMatches(t, c) then Some(t.slots[c.slot].status) else None
  }

  // ----- DurableMarkerExternalSender

  /** What the sender verifies against committed rows right before it fetches.
      `claimed` is the binding it was built for; `startedAt` is the coordinator's evidence.  */
  predicate MarkerVerified(t: Tables, claimed: Claim, journal: nat, permit: nat, startedAt: Instant) {
    && journal < |t.journals| && permit < |t.permits|
    && var j, p := t.journals[journal], t.permits[permit];
       && j.slot < |t.slots| && p.run < |t.runs|
       && var s, r := t.slots[j.slot], t.runs[p.run];
          && j.status.SendStarted?
          && j.permit == Some(permit)
          && j.keyHash == claimed.keyHash
          && j.approval == p.approval == s.approval == r.approval == claimed.approval
          && j.runId == s.runId == r.runId
          && s.status.SlotClaimed?
          && s.keyHash == claimed.keyHash
          && p.status.Authorized?
          && p.keyHash == claimed.keyHash
          && j.sendStartedAt == Some(startedAt)
  }
}
