/** The reconciler as a program over the services, without interference. */
module Reconciler {
  import opened Schema
  import opened Transactions
  import opened Protocol
  import opened Services
  import opened Recovery

  class LiveSlotReconciliationService {
    const db: Database
    const journals: LiveExecutionJournalService
    const slots: FirstRequestSlotService

    constructor (db: Database)
      ensures this.db == db && journals.db == db && slots.db == db
    {
      this.db := db;
      journals := new LiveExecutionJournalService(db);
      slots := new FirstRequestSlotService(db);
    }

    /** Recover the journal, release its uncertain permit, resolve its slot.
        None: some step raised.  */
    method Reconcile(id: nat, now: Instant) returns (result: Option<(Record, SlotStatus)>)
      requires journals.db == db && slots.db == db
      modifies db
      ensures var out := Recovery.Reconcile(old(db.View()), id, now);
              && db.View() == out.tables
              && result == match out case Done(_, r, s) => Some((r, s)) case Broke(_) => None
    {
      var journal := journals.RecoverWithoutResend(id, now, NoFault);
      if journal.Raised? { return None; }
      var record := journal.value;
      var consumed := ConsumeUncertainPermit(record, now);
      if consumed.Raised? { return None; }
      var completed := record.row.status.Completed?;
      var resolved := slots.Resolve(ClaimOf(record), completed, now, NoFault);
      if resolved.Raised? {
        if ReadSlotStatus(db.View(), ClaimOf(record)) != Some(SlotTarget(completed)) { return None; }
      }
      return Some((record, SlotTarget(completed)));
    }

    method ConsumeUncertainPermit(r: Record, now: Instant) returns (reply: Reply<()>)
      modifies db
      ensures var tx := Transactions.ConsumeUncertainPermit(old(db.View()), r, now);
              db.View() == After(old(db.View()), tx, NoFault) && reply == Heard(tx, NoFault)
    {
      if r.row.permit.None? || !(r.row.status.Failed? || r.row.status.Indeterminate?) { return Returned(()); }
      var permit := r.row.permit.value;
      if permit >= |db.permits| { return Raised(PermitUnavailable); }
      if db.permits[permit].status.Consumed? || db.permits[permit].status.TransportFailed? { return Returned(()); }
      if !db.permits[permit].status.Authorized? { return Raised(PermitStateInvalid); }
      var run := db.permits[permit].run;
      if run >= |db.runs| || db.runs[run].inFlight < 1 { return Raised(BudgetUnavailable); }
      db.permits := db.permits[permit := db.permits[permit].(status := TransportFailed)];
      db.permits := db.permits[permit := db.permits[permit].(consumedAt := Some(now))];
      db.runs := db.runs[run := db.runs[run].(inFlight := db.runs[run].inFlight - 1)];
      db.runs := db.runs[run := db.runs[run].(version := db.runs[run].version + 1)];
      return Returned(());
    }
  }

  /** A process stepped `n` times in a row. */
  function Drive(t: Tables, p: Process, env: Env, n: nat): StepOut {
    if n == 0 then StepOut(t, p, Nothing)
    else var out := Drive(t, p, env, n - 1); Step(out.tables, out.process, env)
  }

  lemma ResolveRaisesSlotErrors(t: Tables, c: Claim, completed: bool, now: Instant)
    ensures var tx := ResolveSlot(t, c, completed, now); tx.Abort? ==> tx.error.SlotBinding? || tx.error.SlotTerminal?
  {
  }

  lemma DriveFour(t: Tables, p: Process, env: Env)
    ensures var one := Step(t, p, env);
            var two := Step(one.tables, one.process, env);
            var three := Step(two.tables, two.process, env);
            Drive(t, p, env, 4) == Step(three.tables, three.process, env)
  {
    hide Step;
    assert Drive(t, p, env, 1) == Step(t, p, env);
    assert Drive(t, p, env, 2) == Step(Drive(t, p, env, 1).tables, Drive(t, p, env, 1).process, env);
    assert Drive(t, p, env, 3) == Step(Drive(t, p, env, 2).tables, Drive(t, p, env, 2).process, env);
  }

  lemma JournalStage(t: Tables, p: Process, id: nat, env: Env)
    requires p.pc == ReconcileJournal(id) && env.fault.NoFault?
    ensures var tx := RecoverWithoutResend(t, id, env.now.at);
            Step(t, p, env) == (match tx
              case Commit(u, r) => Goto(u, p, ReconcilePermit(r))
              case Abort(_) => Goto(t, p, ReconcileRaised))
  {
    hide RecoverWithoutResend;
  }

  lemma PermitStage(t: Tables, p: Process, r: Record, env: Env)
    requires p.pc == ReconcilePermit(r) && env.fault.NoFault?
    ensures var tx := Transactions.ConsumeUncertainPermit(t, r, env.now.at);
            Step(t, p, env) == (match tx
              case Commit(u, _) => Goto(u, p, ReconcileSlot(r))
              case Abort(_) => Goto(t, p, ReconcileRaised))
  {
    hide Transactions.ConsumeUncertainPermit;
  }

  /** The slot is resolved, or read back when it could not be. */
  lemma SlotStages(t: Tables, p: Process, r: Record, env: Env)
    requires p.pc == ReconcileSlot(r) && env.fault.NoFault?
    ensures var completed := r.row.status.Completed?;
            var tx := ResolveSlot(t, ClaimOf(r), completed, env.now.at);
            var one := Step(t, p, env);
            Step(one.tables, one.process, env) == (match tx
              case Commit(u, _) => Goto(u, p, Reconciled(r))
              case Abort(_) =>
                Goto(t, p, if ReadSlotStatus(t, ClaimOf(r)) == Some(SlotTarget(completed)) then Reconciled(r) else ReconcileRaised))
  {
    ResolveRaisesSlotErrors(t, ClaimOf(r), r.row.status.Completed?, env.now.at);
    hide ResolveSlot, ReadSlotStatus;
  }

  lemma RestStage(t: Tables, p: Process, env: Env)
    requires p.pc.Reconciled? || p.pc.ReconcileRaised?
    ensures Step(t, p, env) == Goto(t, p, p.pc)
  {
  }

  /** A reconciler process that nobody disturbs computes exactly `Reconcile`. */
  lemma UndisturbedReconciler(t: Tables, p: Process, id: nat, env: Env)
    requires p.pc == ReconcileJournal(id) && env.fault.NoFault?
    ensures var out := Drive(t, p, env, 4); var alone := Recovery.Reconcile(t, id, env.now.at);
            && out.tables == alone.tables
            && out.process.pc == (match alone case Done(_, r, _) => Reconciled(r) case Broke(_) => ReconcileRaised)
  {
    hide Step, Drive, RecoverWithoutResend, Transactions.ConsumeUncertainPermit, ResolveSlot, ReadSlotStatus;
    DriveFour(t, p, env);
    JournalStage(t, p, id, env);
    var one := Step(t, p, env);
    if one.process.pc.ReconcilePermit? {
      var r := one.process.pc.record;
      PermitStage(one.tables, one.process, r, env);
      var two := Step(one.tables, one.process, env);
      if two.process.pc.ReconcileSlot? {
        SlotStages(two.tables, two.process, r, env);
      } else {
        RestStage(two.tables, two.process, env);
      }
    } else {
      RestStage(one.tables, one.process, env);
    }
  }
}
