/** The in-memory safety controller: an object under one lock, and the state
    functions its methods are proved against.  */
module Controller {
  import opened Schema
  import opened Ledger

  datatype State = State(
    day: Date,
    runRequests: nat,
    dailyRequests: nat,
    dailyCost: int,
    inFlight: set<nat>,
    consecutive403: nat,
    consecutive429: nat,
    stop: Option<StopReason>)

  datatype Verdict = Permitted(sequence: nat) | Halted(reason: StopReason) | Postponed | Rejected

  function Fresh(day: Date): State {
    State(day, 0, 0, 0, {}, 0, 0, None)
  }

  function Halt(s: State, reason: StopReason): (State, Verdict) {
    (s.(stop := Some(reason)), Halted(reason))
  }

  /** The daily window: a new day resets the day's counters and the breakers. */
  function Rolled(s: State, day: Date): State {
    if day == s.day then s
    else s.(day := day, dailyRequests := 0, dailyCost := 0, consecutive403 := 0, consecutive429 := 0)
  }

  function Admit(s: State, a: Approval, now: Clock, cost: int): (State, Verdict) {
    if cost < 0 then (s, Rejected)
    else if now.day != s.day && Before(now.day, s.day) then Halt(s, ApprovalInactive)
    else
      var r := Rolled(s, now.day);
      if !a.ActiveAt(now.at) then Halt(r, ApprovalInactive)
      else if r.stop.Some? then (r, Halted(r.stop.value))
      else if |r.inFlight| >= a.concurrency then (r, Postponed)
      else if r.runRequests >= a.perRunRequestCap then Halt(r, PerRunRequestCap)
      else if r.dailyRequests >= a.dailyRequestCap then Halt(r, DailyRequestCap)
      else if r.dailyCost + cost > a.dailyCostCap then Halt(r, DailyCostCap)
      else
        (r.(runRequests := r.runRequests + 1, dailyRequests := r.dailyRequests + 1,
            dailyCost := r.dailyCost + cost, inFlight := r.inFlight + {r.runRequests + 1}),
         Permitted(r.runRequests + 1))
  }

  /** None: the permit is unknown or already consumed, and nothing changes. */
  function Responded(s: State, sequence: nat, status: int): Option<State> {
    if sequence !in s.inFlight then None
    else
      var r := s.(inFlight := s.inFlight - {sequence});
      if status == 403 then
        Some(r.(consecutive403 := s.consecutive403 + 1, consecutive429 := 0,
                stop := if s.consecutive403 + 1 >= 2 then Some(Repeated403) else s.stop))
      else if status == 429 then
        Some(r.(consecutive429 := s.consecutive429 + 1, consecutive403 := 0,
                stop := if s.consecutive429 + 1 >= 2 then Some(Repeated429) else s.stop))
      else Some(r.(consecutive403 := 0, consecutive429 := 0))
  }

  function Released(s: State, sequence: nat): Option<State> {
    if sequence !in s.inFlight then None else Some(s.(inFlight := s.inFlight - {sequence}))
  }

  class AcquisitionSafetyController {
    const approval: Approval
    var budgetDay: Date
    var runRequests: nat
    var dailyRequests: nat
    var dailyCost: int
    var inFlight: set<nat>
    var consecutive403: nat
    var consecutive429: nat
    var stopReason: Option<StopReason>

    function Snapshot(): State
      reads this
    {
      State(budgetDay, runRequests, dailyRequests, dailyCost, inFlight, consecutive403, consecutive429, stopReason)
    }

    constructor (approval: Approval, day: Date)
      ensures this.approval == approval && Snapshot() == Fresh(day)
    {
      this.approval, budgetDay := approval, day;
      runRequests, dailyRequests, dailyCost, inFlight := 0, 0, 0, {};
      consecutive403, consecutive429, stopReason := 0, 0, None;
    }

    method AuthorizeRequest(now: Clock, cost: int) returns (verdict: Verdict)
      modifies this
      ensures (Snapshot(), verdict) == Admit(old(Snapshot()), approval, now, cost)
    {
      if cost < 0 { return Rejected; }
      if now.day != budgetDay {
        if Before(now.day, budgetDay) { verdict := StopAndRaise(ApprovalInactive); return; }
        budgetDay := now.day;
        dailyRequests, dailyCost := 0, 0;
        consecutive403, consecutive429 := 0, 0;
      }
      if !approval.ActiveAt(now.at) { verdict := StopAndRaise(ApprovalInactive); return; }
      if stopReason.Some? { return Halted(stopReason.value); }
      if |inFlight| >= approval.concurrency { return Postponed; }
      if runRequests >= approval.perRunRequestCap { verdict := StopAndRaise(PerRunRequestCap); return; }
      if dailyRequests >= approval.dailyRequestCap { verdict := StopAndRaise(DailyRequestCap); return; }
      var projectedCost := dailyCost + cost;
      if projectedCost > approval.dailyCostCap { verdict := StopAndRaise(DailyCostCap); return; }
      runRequests := runRequests + 1;
      dailyRequests := dailyRequests + 1;
      dailyCost := projectedCost;
      inFlight := inFlight + {runRequests};
      return Permitted(runRequests);
    }

    method StopAndRaise(reason: StopReason) returns (verdict: Verdict)
      modifies this
      ensures (Snapshot(), verdict) == Halt(old(Snapshot()), reason)
    {
      stopReason := Some(reason);
      return Halted(reason);
    }

    method RecordResponse(sequence: nat, status: int) returns (known: bool)
      modifies this
      ensures var r := Responded(old(Snapshot()), sequence, status);
              known == r.Some? && Snapshot() == if r.Some? then r.value else old(Snapshot())
    {
      known := ConsumePermit(sequence);
      if !known { return; }
      if status == 403 {
        consecutive403, consecutive429 := consecutive403 + 1, 0;
        if consecutive403 >= 2 { stopReason := Some(Repeated403); }
      } else if status == 429 {
        consecutive429, consecutive403 := consecutive429 + 1, 0;
        if consecutive429 >= 2 { stopReason := Some(Repeated429); }
      } else {
        consecutive403, consecutive429 := 0, 0;
      }
    }

    method ConsumePermit(sequence: nat) returns (known: bool)
      modifies this
      ensures var r := Released(old(Snapshot()), sequence);
              known == r.Some? && Snapshot() == if r.Some? then r.value else old(Snapshot())
    {
      known := sequence in inFlight;
      if known { inFlight := inFlight - {sequence}; }
    }

    /** Manual stop and schema drift overwrite whatever reason stood before. */
    method Stop(reason: StopReason)
      modifies this
      ensures Snapshot() == old(Snapshot()).(stop := Some(reason))
    {
      stopReason := Some(reason);
    }
  }
}
