/** The coordinator and the reconciler as programs, with everyone else running in
    between their steps.  Each one walks the program points of the state machine,
    so what holds in every reachable state holds around them.  */
module Coordinator {
  import opened Schema
  import opened Transactions
  import opened Protocol
  import opened ProcessInvariant
  import opened WorldInvariant
  import opened Links
  import opened Evidence
  import opened Services
  import opened Recovery

  /** None of the events is a step or a crash of this process. */
  predicate Spares(pid: nat, events: seq<Event>) {
    forall i | 0 <= i < |events| :: match events[i] case Act(q, _) => q != pid case Crash(q) => q != pid case _ => true
  }

  lemma SparedEvent(w: World, pid: nat, e: Event)
    requires pid < |w.processes| && Spares(pid, [e])
    ensures pid < |Next(w, e).processes| && Next(w, e).processes[pid] == w.processes[pid]
  {
    assert [e][0] == e;
    hide Step, CallTx;
  }

  /** The shared database with all of its processes.  `envs` is what the n-th step of
      the modelled program meets, `others` what everyone else does after it.  */
  class Cluster {
    const db: Database
    const pid: nat
    const envs: nat -> Env
    const others: nat -> seq<Event>
    var world: World
    var tick: nat
    ghost var trace: seq<Event>

    /** A fresh database, then any run that leaves a process `pid` behind. */
    constructor (pid: nat, history: seq<Event>, envs: nat -> Env, others: nat -> seq<Event>)
      requires pid < |Run(GENESIS, history).processes| && forall n: nat :: Spares(pid, others(n))
      ensures Valid() && this.pid == pid && this.envs == envs && this.others == others
      ensures world == Run(GENESIS, history)
    {
      db := new Database();
      this.pid, this.envs, this.others := pid, envs, others;
      world, tick, trace := Run(GENESIS, history), 0, history;
      new;
      db.Load(world.tables);
    }

    ghost predicate Valid()
      reads this, db
    {
      && world == Run(GENESIS, trace)
      && world.tables == db.View()
      && pid < |world.processes|
      && forall n: nat :: Spares(pid, others(n))
    }

    /** The modelled process is at `pc`. */
    ghost predicate At(p: Process, pc: Pc)
      reads this, db
    {
      Valid() && world.processes[pid] == p.(pc := pc)
    }

    function Now(): Env
      reads this
    {
      envs(tick)
    }

    /** The program has carried out its step on the database; now it counts as done,
        and the others have their turn.  */
    method Advance(ghost p: Process, ghost pc: Pc)
      requires pid < |world.processes| && world.processes[pid] == p.(pc := pc)
      requires world == Run(GENESIS, trace) && forall n: nat :: Spares(pid, others(n))
      requires db.View() == Step(world.tables, p.(pc := pc), Now()).tables
      modifies this, db
      ensures Valid()
      ensures world.processes[pid] == Step(old(world.tables), p.(pc := pc), old(Now())).process
    {
      var e := Act(pid, Now());
      trace := trace + [e];
      assert trace[..|trace| - 1] == old(trace);
      world := Next(world, e);
      var turn := others(tick);
      tick := tick + 1;
      hide Step;
      ghost var mine := world.processes[pid];
      for i := 0 to |turn|
        invariant Valid() && world.processes[pid] == mine
        invariant forall n: nat :: Spares(pid, others(n))
      {
        SparedEvent(world, pid, turn[i]);
        ghost var before := trace;
        trace := trace + [turn[i]];
        assert trace[..|trace| - 1] == before;
        world := Next(world, turn[i]);
        db.Load(world.tables);
      }
    }
  }

  lemma ResultStands(events: seq<Event>, pid: nat, outcome: Option<AttemptResult>)
    requires pid < |Run(GENESIS, events).processes| && Run(GENESIS, events).processes[pid].pc == Finishing(outcome)
    ensures outcome.Some? ==>
      var r := outcome.value.journal; var t := Run(GENESIS, events).tables;
      r.row.Terminal() && r.id < |t.journals| && t.journals[r.id] == r.row
  {
    Reachable(events);
    var t, p := Run(GENESIS, events).tables, Run(GENESIS, events).processes[pid];
    assert ProcessOk(t, p);
    hide WorldInv, Run, Owned, Bound, Answer;
  }

  lemma ResultIsTrue(events: seq<Event>, pid: nat, outcome: Option<AttemptResult>)
    requires pid < |Run(GENESIS, events).processes| && Run(GENESIS, events).processes[pid].pc == Finishing(outcome)
    ensures outcome.Some? ==> AnswersTruly(Run(GENESIS, events), outcome.value)
  {
    if outcome.Some? {
      assert Run(Run(GENESIS, events), []) == Run(GENESIS, events);
      ResultTellsTheTruth(events, [], pid);
    }
    hide Run;
  }

  class LiveAttemptCoordinator {
    const cluster: Cluster
    const safety: PersistentAcquisitionSafety
    const journals: LiveExecutionJournalService

    constructor (cluster: Cluster, safety: PersistentAcquisitionSafety, journals: LiveExecutionJournalService)
      ensures this.cluster == cluster && this.safety == safety && this.journals == journals
    {
      this.cluster, this.safety, this.journals := cluster, safety, journals;
    }

    /** The process stands at `pc`, and its services are bound as the process says. */
    ghost predicate Ready(p: Process, pc: Pc)
      reads cluster, cluster.db
    {
      && cluster.At(p, pc)
      && safety.db == cluster.db && journals.db == cluster.db
      && safety.approval == p.approval && safety.runId == p.runId
    }

    /** Execute at most one send and terminalize what was started.  None: raised. */
    method Execute(ghost p: Process, claim: Claim, keyHash: Digest, cost: int) returns (outcome: Option<AttemptResult>)
      requires Ready(p, ClaimingJournal) && claim == p.claim && keyHash == p.keyHash && cost == p.cost
      modifies cluster, cluster.db
      ensures Ready(p, Finishing(outcome))
      ensures outcome.Some? ==>
                && outcome.value.journal.row.Terminal()
                && outcome.value.journal.id < |cluster.db.journals|
                && cluster.db.journals[outcome.value.journal.id] == outcome.value.journal.row
      ensures outcome.Some? ==> AnswersTruly(cluster.world, outcome.value)
    {
      outcome := Attempt(p, claim, keyHash, cost);
      ResultStands(cluster.trace, cluster.pid, outcome);
      ResultIsTrue(cluster.trace, cluster.pid, outcome);
      hide Run;
    }

    method Attempt(ghost p: Process, claim: Claim, keyHash: Digest, cost: int) returns (outcome: Option<AttemptResult>)
      requires Ready(p, ClaimingJournal) && claim == p.claim && keyHash == p.keyHash && cost == p.cost
      modifies cluster, cluster.db
      ensures Ready(p, Finishing(outcome))
    {
      var journal := ClaimJournal(p, claim, keyHash);
      if journal.None? { return None; }
      var permit := Authorize(p, journal.value, claim, keyHash, cost);
      if permit.None? {
        outcome := FailUnauthorized(p, journal.value);
        return;
      }
      if safety.approval.fingerprint != claim.approval {
        outcome := GiveUpUnsent(p, journal.value, permit.value);
        return;
      }
      var started := ReadBack(p, journal.value, permit.value);
      match started
      case Raised(_) => return None;
      case Returned(None) => outcome := GiveUpUnsent(p, journal.value, permit.value);
      case Returned(Some(startedAt)) =>
        var response := Send(p, journal.value, permit.value, claim, startedAt);
        if response.None? {
          ConsumeFailedPermit(p, ReleasingUnknown(journal.value, permit.value), permit.value);
          outcome := MarkIndeterminate(p, journal.value, permit.value, TransportResultUnknown, true, None);
        } else {
          outcome := Settle(p, journal.value, permit.value, response.value);
        }
    }

    method ClaimJournal(ghost p: Process, claim: Claim, keyHash: Digest) returns (journal: Option<nat>)
      requires Ready(p, ClaimingJournal) && claim == p.claim && keyHash == p.keyHash
      modifies cluster, cluster.db
      ensures Ready(p, if journal.Some? then Authorizing(journal.value) else Finishing(None))
    {
      var env := cluster.Now();
      if keyHash != claim.keyHash {
        cluster.Advance(p, ClaimingJournal);
        return None;
      }
      var reply := journals.Claim(claim, env.now.at, env.fault);
      cluster.Advance(p, ClaimingJournal);
      return if reply.Returned? then Some(reply.value.id) else None;
    }

    /** None: the authorization raised, for whatever reason. */
    method Authorize(ghost p: Process, journal: nat, claim: Claim, keyHash: Digest, cost: int) returns (permit: Option<nat>)
      requires Ready(p, Authorizing(journal)) && claim == p.claim && keyHash == p.keyHash && cost == p.cost
      modifies cluster, cluster.db
      ensures Ready(p, if permit.None? then FailingUnauthorized(journal)
                       else if p.approval.fingerprint != claim.approval then ReleasingUnsent(journal, permit.value)
                       else ReadingBack(journal, permit.value))
    {
      var env := cluster.Now();
      var reply := safety.AuthorizeAndStartLiveSend(journal, keyHash, env.now, cost, env.fault);
      hide AuthorizeAndStart;
      cluster.Advance(p, Authorizing(journal));
      return if reply.Returned? && reply.value.Granted? then Some(reply.value.permit) else None;
    }

    method FailUnauthorized(ghost p: Process, journal: nat) returns (outcome: Option<AttemptResult>)
      requires Ready(p, FailingUnauthorized(journal))
      modifies cluster, cluster.db
      ensures Ready(p, Finishing(outcome))
    {
      var env := cluster.Now();
      var reply := journals.Fail(journal, PermitAuthorizationFailed, env.now.at, env.fault);
      cluster.Advance(p, FailingUnauthorized(journal));
      return if reply.Returned? then Some(AttemptResult(reply.value, None, None, false)) else None;
    }

    /** The committed start time, unless the journal no longer shows our permit started. */
    method ReadBack(ghost p: Process, journal: nat, permit: nat) returns (reply: Reply<Option<Instant>>)
      requires Ready(p, ReadingBack(journal, permit))
      modifies cluster, cluster.db
      ensures Ready(p, match reply
                       case Raised(_) => Finishing(None)
                       case Returned(None) => ReleasingUnsent(journal, permit)
                       case Returned(Some(at)) => Calling(journal, permit, at))
    {
      var env := cluster.Now();
      var got := journals.Get(journal, env.fault);
      cluster.Advance(p, ReadingBack(journal, permit));
      if got.Raised? { return Raised(got.error); }
      var row := got.value.row;
      if !row.status.SendStarted? || row.permit != Some(permit) { return Returned(None); }
      return if row.sendStartedAt.None? then Raised(SessionLost) else Returned(row.sendStartedAt);
    }

    /** Call the one-shot sender.  None: it raised, or its status is no HTTP status. */
    method Send(ghost p: Process, journal: nat, permit: nat, claim: Claim, startedAt: Instant) returns (response: Option<int>)
      requires Ready(p, Calling(journal, permit, startedAt)) && claim == p.claim
      modifies cluster, cluster.db
      ensures Ready(p, if response.Some? then Recording(journal, permit, response.value)
                       else ReleasingUnknown(journal, permit))
    {
      cluster.Advance(p, Calling(journal, permit, startedAt));
      var verified := VerifyDurableMarker(p, journal, permit, claim, startedAt);
      if !verified { return None; }
      response := Fetch(p, journal, permit, startedAt);
    }

    /** One transaction: the rows show the marker that the sender was built for. */
    method VerifyDurableMarker(ghost p: Process, journal: nat, permit: nat, claim: Claim, startedAt: Instant)
      returns (verified: bool)
      requires Ready(p, Verifying(journal, permit, startedAt)) && claim == p.claim
      modifies cluster, cluster.db
      ensures verified ==> old(MarkerVerified(cluster.db.View(), claim, journal, permit, startedAt))
      ensures Ready(p, if verified then Verified(journal, permit, startedAt) else ReleasingUnknown(journal, permit))
    {
      var env := cluster.Now();
      verified := env.ok && env.fault.NoFault? && MarkerVerified(cluster.db.View(), claim, journal, permit, startedAt);
      hide MarkerVerified;
      cluster.Advance(p, Verifying(journal, permit, startedAt));
    }

    /** No transaction: what was verified may have changed by now. */
    method Fetch(ghost p: Process, journal: nat, permit: nat, startedAt: Instant) returns (response: Option<int>)
      requires Ready(p, Verified(journal, permit, startedAt))
      modifies cluster, cluster.db
      ensures Ready(p, if response.Some? then Recording(journal, permit, response.value)
                       else ReleasingUnknown(journal, permit))
    {
      cluster.Advance(p, Verified(journal, permit, startedAt));
      var env := cluster.Now();
      cluster.Advance(p, Fetching(journal, permit));
      return if env.ok && 100 <= env.status <= 599 then Some(env.status) else None;
    }

    /** Settle a known response, then complete or fail. */
    method Settle(ghost p: Process, journal: nat, permit: nat, status: int) returns (outcome: Option<AttemptResult>)
      requires Ready(p, Recording(journal, permit, status))
      modifies cluster, cluster.db
      ensures Ready(p, Finishing(outcome))
    {
      var env := cluster.Now();
      var recorded := safety.RecordResponse(permit, status, env.now.at, env.fault);
      AdvanceRecording(p, journal, permit, status, recorded);
      if recorded.Raised? {
        outcome := MarkIndeterminate(p, journal, permit, PermitSettlementUnknown, true, Some(status));
        return;
      }
      var settled := SettleJournal(p, journal, permit, status);
      if settled.Returned? {
        outcome := Finish(p, journal, permit, status);
      } else if settled.error.OfJournal() {
        outcome := MarkIndeterminate(p, journal, permit, JournalSettlementFailed, true, Some(status));
      } else {
        outcome := None;
      }
    }

    method SettleJournal(ghost p: Process, journal: nat, permit: nat, status: int) returns (settled: Reply<Record>)
      requires Ready(p, Settling(journal, permit, status))
      modifies cluster, cluster.db
      ensures Ready(p, match settled
                       case Returned(_) => Processing(journal, permit, status)
                       case Raised(e) => if e.OfJournal() then Marking(journal, permit, JournalSettlementFailed, true, Some(status))
                                         else Finishing(None))
    {
      var env := cluster.Now();
      settled := journals.Settle(journal, permit, env.now.at, env.fault);
      hide Transactions.SettleJournal;
      cluster.Advance(p, Settling(journal, permit, status));
    }

    method AdvanceRecording(ghost p: Process, journal: nat, permit: nat, status: int, recorded: Reply<()>)
      requires safety.db == cluster.db && journals.db == cluster.db
      requires safety.approval == p.approval && safety.runId == p.runId
      requires cluster.pid < |cluster.world.processes| && cluster.world == Run(GENESIS, cluster.trace)
      requires forall n: nat :: Spares(cluster.pid, cluster.others(n))
      requires cluster.world.processes[cluster.pid] == p.(pc := Recording(journal, permit, status))
      requires var env := cluster.Now();
               var tx := Transactions.RecordResponse(cluster.world.tables, p.approval, p.runId, permit, status, env.now.at);
               cluster.db.View() == After(cluster.world.tables, tx, env.fault) && recorded == Heard(tx, env.fault)
      modifies cluster, cluster.db
      ensures Ready(p, if recorded.Returned? then Settling(journal, permit, status)
                       else Marking(journal, permit, PermitSettlementUnknown, true, Some(status)))
    {
      hide Transactions.RecordResponse;
      cluster.Advance(p, Recording(journal, permit, status));
    }

    method Finish(ghost p: Process, journal: nat, permit: nat, status: int) returns (outcome: Option<AttemptResult>)
      requires Ready(p, Processing(journal, permit, status))
      modifies cluster, cluster.db
      ensures Ready(p, Finishing(outcome))
    {
      var env := cluster.Now();
      var accepted := env.ok;
      cluster.Advance(p, Processing(journal, permit, status));
      var terminal: Reply<Record>;
      if !(200 <= status < 300) {
        terminal := FailSettled(p, journal, permit, status, NonSuccessResponse);
      } else if accepted {
        terminal := CompleteSettled(p, journal, permit, status);
      } else {
        terminal := FailSettled(p, journal, permit, status, ResponseProcessingFailed);
      }
      if terminal.Returned? { return Some(AttemptResult(terminal.value, Some(permit), Some(status), true)); }
      if !terminal.error.OfJournal() { return None; }
      outcome := Recover(p, journal, permit, true, Some(status));
    }

    /** Where the program stands after it tried to terminalize a settled journal. */
    ghost function Resolved(journal: nat, permit: nat, status: int, terminal: Reply<Record>): Pc {
      match terminal
      case Returned(r) => Finishing(Some(AttemptResult(r, Some(permit), Some(status), true)))
      case Raised(e) => if e.OfJournal() then Recovering(journal, permit, true, Some(status)) else Finishing(None)
    }

    method FailSettled(ghost p: Process, journal: nat, permit: nat, status: int, code: FailureCode)
      returns (terminal: Reply<Record>)
      requires Ready(p, FailingSettled(journal, permit, status, code))
      modifies cluster, cluster.db
      ensures Ready(p, Resolved(journal, permit, status, terminal))
    {
      var env := cluster.Now();
      terminal := journals.Fail(journal, code, env.now.at, env.fault);
      hide Transactions.FailJournal, Transactions.CompleteJournal;
      cluster.Advance(p, FailingSettled(journal, permit, status, code));
    }

    method CompleteSettled(ghost p: Process, journal: nat, permit: nat, status: int) returns (terminal: Reply<Record>)
      requires Ready(p, Completing(journal, permit, status))
      modifies cluster, cluster.db
      ensures Ready(p, Resolved(journal, permit, status, terminal))
    {
      var env := cluster.Now();
      terminal := journals.Complete(journal, env.now.at, env.fault);
      hide Transactions.FailJournal, Transactions.CompleteJournal;
      cluster.Advance(p, Completing(journal, permit, status));
    }

    /** Consume the permit; whatever goes wrong is swallowed. */
    method ConsumeFailedPermit(ghost p: Process, ghost pc: Pc, permit: nat)
      requires Ready(p, pc)
      requires (pc.ReleasingUnsent? || pc.ReleasingUnknown?) && pc.permit == permit
      modifies cluster, cluster.db
      ensures Ready(p, if pc.ReleasingUnsent? then InspectingUnsent(pc.journal, permit)
                       else Marking(pc.journal, permit, TransportResultUnknown, true, None))
    {
      var env := cluster.Now();
      var _ := safety.RecordTransportFailure(permit, env.now.at, env.fault);
      hide Transactions.RecordTransportFailure;
      cluster.Advance(p, pc);
    }

    /** Terminalize before the send. */
    method GiveUpUnsent(ghost p: Process, journal: nat, permit: nat) returns (outcome: Option<AttemptResult>)
      requires Ready(p, ReleasingUnsent(journal, permit))
      modifies cluster, cluster.db
      ensures Ready(p, Finishing(outcome))
    {
      ConsumeFailedPermit(p, ReleasingUnsent(journal, permit), permit);
      var current := InspectUnsent(p, journal, permit);
      if current.Raised? { return None; }
      match current.value.row.status
      case Claimed => outcome := FailUnsent(p, journal, permit);
      case SendStarted =>
        outcome := MarkIndeterminate(p, journal, permit, SendStartCommitUnknown, false, None);
      case _ =>
        outcome := Recover(p, journal, permit, false, None);
    }

    method InspectUnsent(ghost p: Process, journal: nat, permit: nat) returns (current: Reply<Record>)
      requires Ready(p, InspectingUnsent(journal, permit))
      modifies cluster, cluster.db
      ensures Ready(p, match current
                       case Raised(_) => Finishing(None)
                       case Returned(r) =>
                         if r.row.status.Claimed? then FailingUnsent(journal, permit)
                         else if r.row.status.SendStarted? then Marking(journal, permit, SendStartCommitUnknown, false, None)
                         else Recovering(journal, permit, false, None))
    {
      var env := cluster.Now();
      current := journals.Get(journal, env.fault);
      cluster.Advance(p, InspectingUnsent(journal, permit));
    }

    method FailUnsent(ghost p: Process, journal: nat, permit: nat) returns (outcome: Option<AttemptResult>)
      requires Ready(p, FailingUnsent(journal, permit))
      modifies cluster, cluster.db
      ensures Ready(p, Finishing(outcome))
    {
      var env := cluster.Now();
      var reply := journals.Fail(journal, SendStartFailed, env.now.at, env.fault);
      cluster.Advance(p, FailingUnsent(journal, permit));
      return if reply.Returned? then Some(AttemptResult(reply.value, Some(permit), None, false)) else None;
    }

    method MarkIndeterminate(ghost p: Process, journal: nat, permit: nat, code: FailureCode, attempted: bool, response: Option<int>)
      returns (outcome: Option<AttemptResult>)
      requires Ready(p, Marking(journal, permit, code, attempted, response))
      modifies cluster, cluster.db
      ensures Ready(p, Finishing(outcome))
      ensures outcome.Some? ==>
                outcome.value.permit == Some(permit) && outcome.value.response == response && outcome.value.attempted == attempted
    {
      var env := cluster.Now();
      var reply := journals.MarkIndeterminate(journal, code, env.now.at, env.fault);
      cluster.Advance(p, Marking(journal, permit, code, attempted, response));
      if reply.Returned? { return Some(AttemptResult(reply.value, Some(permit), response, attempted)); }
      if !reply.error.OfJournal() { return None; }
      outcome := Recover(p, journal, permit, attempted, response);
    }

    method Recover(ghost p: Process, journal: nat, permit: nat, attempted: bool, response: Option<int>)
      returns (outcome: Option<AttemptResult>)
      requires Ready(p, Recovering(journal, permit, attempted, response))
      modifies cluster, cluster.db
      ensures Ready(p, Finishing(outcome))
      ensures outcome.Some? ==>
                outcome.value.permit == Some(permit) && outcome.value.response == response && outcome.value.attempted == attempted
    {
      var env := cluster.Now();
      var reply := journals.RecoverWithoutResend(journal, env.now.at, env.fault);
      cluster.Advance(p, Recovering(journal, permit, attempted, response));
      return if reply.Returned? then Some(AttemptResult(reply.value, Some(permit), response, attempted)) else None;
    }
  }
}
