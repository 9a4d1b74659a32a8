/** The durable rows of the acquisition schema, one datatype per table, and the
    table constraints that the transitions are proved to imply.  A row's primary
    key is its position in its table: rows are only ever appended or updated.  */
module Schema {
  datatype Option<+T> = None | Some(value: T)

  /** SHA-256 values are numbers; nothing depends on their bits. */
  type Digest = nat

  /** Microseconds since the epoch. */
  type Instant = int

  const MICROS_PER_MINUTE := 60_000_000

  datatype YearMonthDay = YearMonthDay(year: int, month: int, day: int)

  type Date = d: YearMonthDay | 1 <= d.month <= 12 && 1 <= d.day <= 31
    witness YearMonthDay(1970, 1, 1)

  /** One clock reading: the instant and its UTC calendar day.  The two are not
      related to each other, so every statement holds for any calendar.  */
  datatype Clock = Clock(at: Instant, day: Date)

  /** The part of a validated G0 approval that the safety kernel reads.
      Money is an integer number of micro-units (six decimal places).  */
  datatype Approval = Approval(
    fingerprint: Digest,
    approvedAt: Instant,
    expiresAt: Instant,
    requestsPerMinute: nat,
    concurrency: nat,
    dailyRequestCap: nat,
    perRunRequestCap: nat,
    dailyCostCap: nat,
    monthlyCostCap: nat)
  {
    predicate ActiveAt(now: Instant) {
      approvedAt <= now < expiresAt
    }

    /** What the G0 validators accept. */
    predicate Validated() {
      && 1 <= requestsPerMinute <= 30
      && 1 <= concurrency <= 2
      && 1 <= perRunRequestCap <= 250
      && perRunRequestCap <= dailyRequestCap <= 1000
      && 0 < dailyCostCap <= 50_000_000
      && dailyCostCap <= monthlyCostCap <= 500_000_000
      && approvedAt < expiresAt
    }
  }

  datatype StopReason =
    | ApprovalInactive | PerRunRequestCap | DailyRequestCap | DailyCostCap | MonthlyCostCap
    | Repeated403 | Repeated429 | SchemaDrift | Manual

  datatype Trigger = BySystem | ByOperator | ByResponse | BySchema | ByBudget | ByApproval

  datatype RunBudget = RunBudget(
    runId: nat,
    approval: Digest,
    requestCount: int,
    inFlight: int,
    consecutive403: int,
    consecutive429: int,
    stop: Option<StopReason>,
    version: int)

  datatype DailyBudget = DailyBudget(
    approval: Digest,
    day: Date,
    requestCount: int,
    cost: int,
    version: int)

  datatype PermitStatus = Authorized | Consumed | TransportFailed | Cancelled

  datatype Permit = Permit(
    run: nat, // primary key of the run budget
    sequence: int,
    keyHash: Digest,
    approval: Digest,
    cost: int,
    status: PermitStatus,
    authorizedAt: Clock,
    consumedAt: Option<Instant>,
    response: Option<int>)

  datatype StopEvent = StopEvent(
    approval: Digest,
    runId: nat,
    reason: StopReason,
    trigger: Trigger,
    at: Instant)

  datatype SlotStatus = SlotClaimed | SlotCompleted | SlotFailed

  datatype Slot = Slot(
    approval: Digest,
    runId: nat,
    keyHash: Digest,
    status: SlotStatus,
    claimedAt: Instant,
    resolvedAt: Option<Instant>)

  datatype JournalStatus = Claimed | SendStarted | Settled | Completed | Failed | Indeterminate

  datatype FailureCode =
    | PermitAuthorizationFailed | SendStartFailed | SendStartCommitUnknown
    | TransportResultUnknown | PermitSettlementUnknown | JournalSettlementFailed
    | NonSuccessResponse | ResponseProcessingFailed
    | RecoveryUnknownExternalEffect | RecoveryBeforeSend | RecoveryAfterSettlement

  datatype Journal = Journal(
    approval: Digest,
    runId: nat,
    slot: nat, // primary key of the slot
    keyHash: Digest,
    permit: Option<nat>, // primary key of the permit
    status: JournalStatus,
    failure: Option<FailureCode>,
    claimedAt: Instant,
    sendStartedAt: Option<Instant>,
    settledAt: Option<Instant>,
    resolvedAt: Option<Instant>,
    version: int)
  {
    predicate Terminal() {
      status in {Completed, Failed, Indeterminate}
    }
  }

  /** One committed response, in commit order.  No table stores this log; it is
      the history that the breaker counters are compared with.  */
  datatype Response = Response(run: nat, status: int)

  datatype Tables = Tables(
    runs: seq<RunBudget>,
    dailies: seq<DailyBudget>,
    permits: seq<Permit>,
    stops: seq<StopEvent>,
    slots: seq<Slot>,
    journals: seq<Journal>,
    responses: seq<Response>)

  const EMPTY := Tables([], [], [], [], [], [], [])

  // ----- table constraints

  /** The six-way CHECK constraint on a journal row. */
  predicate JournalShape(j: Journal) {
    && j.version >= 0
    && match j.status
       case Claimed =>
         j.permit.None? && j.sendStartedAt.None? && j.settledAt.None? && j.resolvedAt.None? && j.failure.None?
       case SendStarted =>
         j.permit.Some? && j.sendStartedAt.Some? && j.settledAt.None? && j.resolvedAt.None? && j.failure.None?
       case Settled =>
         j.permit.Some? && j.sendStartedAt.Some? && j.settledAt.Some? && j.resolvedAt.None? && j.failure.None?
       case Completed =>
         j.permit.Some? && j.sendStartedAt.Some? && j.settledAt.Some? && j.resolvedAt.Some? && j.failure.None?
       case Failed =>
         && j.resolvedAt.Some? && j.failure.Some?
         && (|| (j.permit.None? && j.sendStartedAt.None? && j.settledAt.None?)
             || (j.permit.Some? && j.sendStartedAt.Some? && j.settledAt.Some?))
       case Indeterminate =>
         j.permit.Some? && j.sendStartedAt.Some? && j.settledAt.None? && j.resolvedAt.Some? && j.failure.Some?
  }

  predicate SlotShape(s: Slot) {
    s.status.SlotClaimed? <==> s.resolvedAt.None?
  }

  predicate PermitShape(p: Permit) {
    && p.sequence >= 1
    && p.cost >= 0
    && (p.response.Some? ==> 100 <= p.response.value <= 599)
  }

  predicate RunShape(r: RunBudget) {
    r.requestCount >= 0 && r.inFlight >= 0 && r.consecutive403 >= 0 && r.consecutive429 >= 0 && r.version >= 0
  }

  predicate DailyShape(d: DailyBudget) {
    d.requestCount >= 0 && d.cost >= 0 && d.version >= 0
  }

  // ----- lookups by a unique column; the table's length means "no such row"

  function FindRun(runs: seq<RunBudget>, runId: nat): (i: nat)
    ensures i <= |runs|
    ensures forall k :: 0 <= k < i ==> runs[k].runId != runId
    ensures i < |runs| ==> runs[i].runId == runId
  {
    if runs == [] then 0
    else
      var i := FindRun(runs[..|runs| - 1], runId);
      if i < |runs| - 1 || runs[|runs| - 1].runId == runId then i else |runs|
  }

  function FindDaily(dailies: seq<DailyBudget>, approval: Digest, day: Date): (i: nat)
    ensures i <= |dailies|
    ensures forall k :: 0 <= k < i ==> !(dailies[k].approval == approval && dailies[k].day == day)
    ensures i < |dailies| ==> dailies[i].approval == approval && dailies[i].day == day
  {
    if dailies == [] then 0
    else
      var last := dailies[|dailies| - 1];
      var i := FindDaily(dailies[..|dailies| - 1], approval, day);
      if i < |dailies| - 1 || (last.approval == approval && last.day == day) then i else |dailies|
  }
}
