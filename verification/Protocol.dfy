/** The live protocol as a state machine: any number of composition roots,
    coordinators, reconcilers and budget clients take one step at a time over the
    shared tables.  A step is one transaction or one external effect.  */
module Protocol {
  import opened Schema
  import opened Transactions

  // ----- what a caller hears of a transaction

  /** The session can fail before its commit, or after it: the caller then sees an
      exception although the transaction is durable.  */
  datatype Fault = NoFault | LostBefore | LostAfter

  datatype Reply<+R> = Returned(value: R) | Raised(error: Error)

  function After<R>(t: Tables, tx: Tx<R>, fault: Fault): Tables {
    if fault.LostBefore? || tx.Abort? then t else tx.tables
  }

  function Heard<R>(tx: Tx<R>, fault: Fault): Reply<R> {
    if !fault.NoFault? then Raised(SessionLost)
    else match tx case Commit(_, r) => Returned(r) case Abort(e) => Raised(e)
  }

  // ----- processes

  datatype AttemptResult = AttemptResult(journal: Record, permit: Option<nat>, response: Option<int>, attempted: bool)

  datatype Pc =
    // composition root: claim the slot, check readiness
    | ClaimingSlot(approval: Digest, runId: nat)
    | Preparing
    // coordinator: claim the journal, authorize and write the send intent
    | ClaimingJournal
    | Authorizing(journal: nat)
    | FailingUnauthorized(journal: nat)
    | ReadingBack(journal: nat, permit: nat)
    // coordinator: give up before the send
    | ReleasingUnsent(journal: nat, permit: nat)
    | InspectingUnsent(journal: nat, permit: nat)
    | FailingUnsent(journal: nat, permit: nat)
    // coordinator: call the sender, which verifies the marker and, later, fetches
    | Calling(journal: nat, permit: nat, startedAt: Instant)
    | Verifying(journal: nat, permit: nat, startedAt: Instant)
    | Verified(journal: nat, permit: nat, startedAt: Instant)
    | Fetching(journal: nat, permit: nat)
    | ReleasingUnknown(journal: nat, permit: nat)
    // coordinator: settle a known response
    | Recording(journal: nat, permit: nat, status: int)
    | Settling(journal: nat, permit: nat, status: int)
    | Processing(journal: nat, permit: nat, status: int)
    | FailingSettled(journal: nat, permit: nat, status: int, code: FailureCode)
    | Completing(journal: nat, permit: nat, status: int)
    // coordinator: terminalize when the outcome is unknown
    | Marking(journal: nat, permit: nat, code: FailureCode, attempted: bool, response: Option<int>)
    | Recovering(journal: nat, permit: nat, attempted: bool, response: Option<int>)
    // `execute` is over: it returned a result, or it raised
    | Finishing(outcome: Option<AttemptResult>)
    // composition root: resolve the slot
    | Resolving(completed: bool)
    // reconciler
    | ReconcileJournal(journal: nat)
    | ReconcilePermit(record: Record)
    | ReconcileSlot(record: Record)
    | ReconcileRead(record: Record)
    | Reconciled(record: Record)
    | ReconcileRaised
    | Ended

  /** A root runs the coordinator for the slot it claimed; a bare coordinator gets
      its claim, true or forged, from its caller.  `approval` and `runId` configure
      the process's safety kernel and need not agree with the claim.  */
  datatype Process = Process(
    root: bool,
    approval: Approval,
    runId: nat,
    keyHash: Digest,
    cost: int,
    claim: Claim,
    pc: Pc)

  /** Everything one step learns from outside the tables: the clock, the fate of
      its session, a yes or no from code behind an interface, an HTTP status.  */
  datatype Env = Env(now: Clock, fault: Fault, ok: bool, status: int)

  /** Evidence of a call: the journal and permit it was made for, and the status
      the journal row had at that moment.  */
  datatype Mark = Mark(journal: nat, permit: nat, approval: Digest, seen: JournalStatus)

  datatype Effect = Nothing | SendCalled(mark: Mark) | FetchBegun(mark: Mark) | ResponseHeard(journal: nat, status: int)

  datatype StepOut = StepOut(tables: Tables, process: Process, effect: Effect)

  function Goto(t: Tables, p: Process, pc: Pc): StepOut {
    StepOut(t, p.(pc := pc), Nothing)
  }

  // ----- composition root

  function RootStep(t: Tables, p: Process, env: Env): StepOut
    requires p.pc.ClaimingSlot? || p.pc.Preparing? || p.pc.Finishing? || p.pc.Resolving?
  {
    match p.pc
    case ClaimingSlot(approval, runId) =>
      var tx := ClaimSlot(t, approval, runId, p.keyHash, env.now.at);
      (match Heard(tx, env.fault)
       case Returned(claim) => StepOut(After(t, tx, env.fault), p.(claim := claim, pc := Preparing), Nothing)
       case Raised(_) => Goto(After(t, tx, env.fault), p, Ended))
    case Preparing =>
      Goto(t, p, if env.ok then ClaimingJournal else Resolving(false))
    case Finishing(outcome) =>
      if !p.root then Goto(t, p, Ended)
      else Goto(t, p, Resolving(outcome.Some? && outcome.value.journal.row.status.Completed? && env.ok))
    case Resolving(completed) =>
      Goto(After(t, ResolveSlot(t, p.claim, completed, env.now.at), env.fault), p, Ended)
  }

  // ----- coordinator

  function Raise(t: Tables, p: Process): StepOut {
    Goto(t, p, Finishing(None))
  }

  function Report(t: Tables, p: Process, r: Record, permit: Option<nat>, response: Option<int>, attempted: bool): StepOut {
    Goto(t, p, Finishing(Some(AttemptResult(r, permit, response, attempted))))
  }

  function AuthorizeStep(t: Tables, p: Process, env: Env): StepOut
    requires p.pc.ClaimingJournal? || p.pc.Authorizing? || p.pc.FailingUnauthorized? || p.pc.ReadingBack?
  {
    match p.pc
    case ClaimingJournal =>
      if p.keyHash != p.claim.keyHash then Raise(t, p)
      else
        var tx := ClaimJournal(t, p.claim, env.now.at);
        (match Heard(tx, env.fault)
         case Returned(r) => Goto(After(t, tx, env.fault), p, Authorizing(r.id))
         case Raised(_) => Raise(After(t, tx, env.fault), p))
    case Authorizing(j) =>
      var tx := AuthorizeAndStart(t, p.approval, p.runId, j, p.keyHash, env.now, p.cost);
      var heard := Heard(tx, env.fault);
      var u := After(t, tx, env.fault);
      if !(heard.Returned? && heard.value.Granted?) then Goto(u, p, FailingUnauthorized(j))
      else if p.approval.fingerprint != p.claim.approval then Goto(u, p, ReleasingUnsent(j, heard.value.permit))
      else Goto(u, p, ReadingBack(j, heard.value.permit))
    case FailingUnauthorized(j) =>
      var tx := FailJournal(t, j, PermitAuthorizationFailed, env.now.at);
      (match Heard(tx, env.fault)
       case Returned(r) => Report(After(t, tx, env.fault), p, r, None, None, false)
       case Raised(_) => Raise(After(t, tx, env.fault), p))
    case ReadingBack(j, permit) =>
      match Heard(GetJournal(t, j), env.fault)
      case Raised(_) => Raise(t, p)
      case Returned(r) =>
        if !r.row.status.SendStarted? || r.row.permit != Some(permit) then Goto(t, p, ReleasingUnsent(j, permit))
        else if r.row.sendStartedAt.None? then Raise(t, p)
        else Goto(t, p, Calling(j, permit, r.row.sendStartedAt.value))
  }

  function UnsentStep(t: Tables, p: Process, env: Env): StepOut
    requires p.pc.ReleasingUnsent? || p.pc.InspectingUnsent? || p.pc.FailingUnsent?
  {
    match p.pc
    case ReleasingUnsent(j, permit) =>
      var tx := RecordTransportFailure(t, p.approval, p.runId, permit, env.now.at);
      Goto(After(t, tx, env.fault), p, InspectingUnsent(j, permit))
    case InspectingUnsent(j, permit) =>
      (match Heard(GetJournal(t, j), env.fault)
       case Raised(_) => Raise(t, p)
       case Returned(r) =>
         match r.row.status
         case Claimed => Goto(t, p, FailingUnsent(j, permit))
         case SendStarted => Goto(t, p, Marking(j, permit, SendStartCommitUnknown, false, None))
         case _ => Goto(t, p, Recovering(j, permit, false, None)))
    case FailingUnsent(j, permit) =>
      var tx := FailJournal(t, j, SendStartFailed, env.now.at);
      (match Heard(tx, env.fault)
       case Returned(r) => Report(After(t, tx, env.fault), p, r, Some(permit), None, false)
       case Raised(_) => Raise(After(t, tx, env.fault), p))
  }

  function MarkNow(t: Tables, journal: nat, permit: nat): Mark {
    if journal < |t.journals| then Mark(journal, permit, t.journals[journal].approval, t.journals[journal].status)
    else Mark(journal, permit, 0, Claimed)
  }

  function SendStep(t: Tables, p: Process, env: Env): StepOut
    requires p.pc.Calling? || p.pc.Verifying? || p.pc.Verified? || p.pc.Fetching? || p.pc.ReleasingUnknown?
  {
    match p.pc
    case Calling(j, permit, startedAt) =>
      StepOut(t, p.(pc := Verifying(j, permit, startedAt)), SendCalled(MarkNow(t, j, permit)))
    case Verifying(j, permit, startedAt) =>
      if env.ok && env.fault.NoFault? && MarkerVerified(t, p.claim, j, permit, startedAt) then
        Goto(t, p, Verified(j, permit, startedAt))
      else Goto(t, p, ReleasingUnknown(j, permit))
    case Verified(j, permit, _) =>
      StepOut(t, p.(pc := Fetching(j, permit)), FetchBegun(MarkNow(t, j, permit)))
    case Fetching(j, permit) =>
      if env.ok && 100 <= env.status <= 599 then
        StepOut(t, p.(pc := Recording(j, permit, env.status)), ResponseHeard(j, env.status))
      else Goto(t, p, ReleasingUnknown(j, permit))
    case ReleasingUnknown(j, permit) =>
      var tx := RecordTransportFailure(t, p.approval, p.runId, permit, env.now.at);
      Goto(After(t, tx, env.fault), p, Marking(j, permit, TransportResultUnknown, true, None))
  }

  function SettleStep(t: Tables, p: Process, env: Env): StepOut
    requires p.pc.Recording? || p.pc.Settling? || p.pc.Processing? || p.pc.FailingSettled? || p.pc.Completing?
  {
    match p.pc
    case Recording(j, permit, status) =>
      var tx := RecordResponse(t, p.approval, p.runId, permit, status, env.now.at);
      Goto(After(t, tx, env.fault), p,
           if Heard(tx, env.fault).Returned? then Settling(j, permit, status)
           else Marking(j, permit, PermitSettlementUnknown, true, Some(status)))
    case Settling(j, permit, status) =>
      var tx := SettleJournal(t, j, permit, env.now.at);
      (match Heard(tx, env.fault)
       case Returned(_) => Goto(After(t, tx, env.fault), p, Processing(j, permit, status))
       case Raised(e) =>
         if e.OfJournal() then
           Goto(After(t, tx, env.fault), p, Marking(j, permit, JournalSettlementFailed, true, Some(status)))
         else Raise(After(t, tx, env.fault), p))
    case Processing(j, permit, status) =>
      if !(200 <= status < 300) then Goto(t, p, FailingSettled(j, permit, status, NonSuccessResponse))
      else if env.ok then Goto(t, p, Completing(j, permit, status))
      else Goto(t, p, FailingSettled(j, permit, status, ResponseProcessingFailed))
    case FailingSettled(j, permit, status, code) =>
      ResolveSettled(t, p, FailJournal(t, j, code, env.now.at), j, permit, status, env)
    case Completing(j, permit, status) =>
      ResolveSettled(t, p, CompleteJournal(t, j, env.now.at), j, permit, status, env)
  }

  function ResolveSettled(t: Tables, p: Process, tx: Tx<Record>, j: nat, permit: nat, status: int, env: Env): StepOut {
    var u := After(t, tx, env.fault);
    match Heard(tx, env.fault)
    case Returned(r) => Report(u, p, r, Some(permit), Some(status), true)
    case Raised(e) =>
      if e.OfJournal() then Goto(u, p, Recovering(j, permit, true, Some(status))) else Raise(u, p)
  }

  function UnknownStep(t: Tables, p: Process, env: Env): StepOut
    requires p.pc.Marking? || p.pc.Recovering?
  {
    match p.pc
    case Marking(j, permit, code, attempted, response) =>
      var tx := MarkIndeterminate(t, j, code, env.now.at);
      var u := After(t, tx, env.fault);
      (match Heard(tx, env.fault)
       case Returned(r) => Report(u, p, r, Some(permit), response, attempted)
       case Raised(e) =>
         if e.OfJournal() then Goto(u, p, Recovering(j, permit, attempted, response)) else Raise(u, p))
    case Recovering(j, permit, attempted, response) =>
      var tx := RecoverWithoutResend(t, j, env.now.at);
      var u := After(t, tx, env.fault);
      (match Heard(tx, env.fault)
       case Returned(r) => Report(u, p, r, Some(permit), response, attempted)
       case Raised(_) => Raise(u, p))
  }

  // ----- reconciler

  function ReconcileStep(t: Tables, p: Process, env: Env): StepOut
    requires p.pc.ReconcileJournal? || p.pc.ReconcilePermit? || p.pc.ReconcileSlot? || p.pc.ReconcileRead?
  {
    match p.pc
    case ReconcileJournal(j) =>
      var tx := RecoverWithoutResend(t, j, env.now.at);
      (match Heard(tx, env.fault)
       case Returned(r) => Goto(After(t, tx, env.fault), p, ReconcilePermit(r))
       case Raised(_) => Goto(After(t, tx, env.fault), p, ReconcileRaised))
    case ReconcilePermit(r) =>
      var tx := ConsumeUncertainPermit(t, r, env.now.at);
      Goto(After(t, tx, env.fault), p, if Heard(tx, env.fault).Returned? then ReconcileSlot(r) else ReconcileRaised)
    case ReconcileSlot(r) =>
      var tx := ResolveSlot(t, ClaimOf(r), r.row.status.Completed?, env.now.at);
      (match Heard(tx, env.fault)
       case Returned(_) => Goto(After(t, tx, env.fault), p, Reconciled(r))
       case Raised(e) =>
         Goto(After(t, tx, env.fault), p, if e.SlotBinding? || e.SlotTerminal? then ReconcileRead(r) else ReconcileRaised))
    case ReconcileRead(r) =>
      Goto(t, p,
           if env.fault.NoFault? && ReadSlotStatus(t, ClaimOf(r)) == Some(SlotTarget(r.row.status.Completed?))
           then Reconciled(r) else ReconcileRaised)
  }

  // ----- one step of any process

  function Step(t: Tables, p: Process, env: Env): StepOut {
    match p.pc
    case ClaimingSlot(_, _) | Preparing | Finishing(_) | Resolving(_) => RootStep(t, p, env)
    case ClaimingJournal | Authorizing(_) | FailingUnauthorized(_) | ReadingBack(_, _) => AuthorizeStep(t, p, env)
    case ReleasingUnsent(_, _) | InspectingUnsent(_, _) | FailingUnsent(_, _) => UnsentStep(t, p, env)
    case Calling(_, _, _) | Verifying(_, _, _) | Verified(_, _, _) | Fetching(_, _) | ReleasingUnknown(_, _) =>
      SendStep(t, p, env)
    case Recording(_, _, _) | Settling(_, _, _) | Processing(_, _, _) | FailingSettled(_, _, _, _) | Completing(_, _, _) =>
      SettleStep(t, p, env)
    case Marking(_, _, _, _, _) | Recovering(_, _, _, _) => UnknownStep(t, p, env)
    case ReconcileJournal(_) | ReconcilePermit(_) | ReconcileSlot(_) | ReconcileRead(_) => ReconcileStep(t, p, env)
    case Reconciled(_) | ReconcileRaised | Ended => Goto(t, p, p.pc)
  }

  // ----- the world

  /** Users of the safety kernel that are not part of a live attempt. */
  datatype Call =
    | CallInitialize(known: bool)
    | CallAuthorize(keyHash: Digest, cost: int)
    | CallResponse(permit: nat, status: int)
    | CallTransportFailure(permit: nat)
    | CallStop(reason: StopReason, trigger: Trigger)

  function CallTx(t: Tables, a: Approval, runId: nat, call: Call, now: Clock): Tables {
    match call
    case CallInitialize(known) => After(t, Initialize(t, a, runId, known, now), NoFault)
    case CallAuthorize(keyHash, cost) => After(t, Authorize(t, a, runId, keyHash, now, cost), NoFault)
    case CallResponse(permit, status) => After(t, RecordResponse(t, a, runId, permit, status, now.at), NoFault)
    case CallTransportFailure(permit) => After(t, RecordTransportFailure(t, a, runId, permit, now.at), NoFault)
    case CallStop(reason, trigger) => After(t, StopRun(t, a, runId, reason, now.at, trigger), NoFault)
  }

  datatype Event =
    | Start(process: Process)
    | Act(pid: nat, env: Env)
    | Crash(pid: nat)
    | Client(approval: Approval, runId: nat, call: Call, now: Clock)

  /** `sent`, `fetched` and `answers` are the history of external effects. */
  datatype World = World(
    tables: Tables,
    processes: seq<Process>,
    sent: seq<Mark>,
    fetched: seq<Mark>,
    answers: seq<(nat, int)>)

  const GENESIS := World(EMPTY, [], [], [], [])

  predicate CanStart(p: Process) {
    || (p.root && p.pc.ClaimingSlot?)
    || (!p.root && (p.pc.ClaimingJournal? || p.pc.ReconcileJournal?))
  }

  function Observe(w: World, effect: Effect): World {
    match effect
    case Nothing => w
    case SendCalled(m) => w.(sent := w.sent + [m])
    case FetchBegun(m) => w.(fetched := w.fetched + [m])
    case ResponseHeard(j, status) => w.(answers := w.answers + [(j, status)])
  }

  function Next(w: World, e: Event): World {
    match e
    case Start(p) => if CanStart(p) then w.(processes := w.processes + [p]) else w
    case Crash(pid) =>
      if pid < |w.processes| then w.(processes := w.processes[pid := w.processes[pid].(pc := Ended)]) else w
    case Client(a, runId, call, now) => w.(tables := CallTx(w.tables, a, runId, call, now))
    case Act(pid, env) =>
      if pid >= |w.processes| then w
      else
        var out := Step(w.tables, w.processes[pid], env);
        Observe(w.(tables := out.tables, processes := w.processes[pid := out.process]), out.effect)
  }

  /** The state after a whole run of events, in order. */
  function Run(w: World, events: seq<Event>): World {
    if events == [] then w else Next(Run(w, events[..|events| - 1]), events[|events| - 1])
  }
}
