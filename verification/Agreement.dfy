/** When do a slot and its journal agree?  A completed slot always has a completed
    journal; a failed slot can have one only after an ambiguous commit of the
    completion, a response that was rejected after it, or a bare coordinator.  */
module Agreement {
  import opened Schema
  import opened Transactions
  import opened Evolution
  import opened Links
  import opened Protocol
  import opened ProcessInvariant
  import opened WorldInvariant
  import opened Moves

  /** The slot failed although its journal completed. */
  predicate Disagree(t: Tables, s: nat) {
    && s < |t.slots| && t.slots[s].status.SlotFailed?
    && exists j | 0 <= j < |t.journals| :: t.journals[j].slot == s && t.journals[j].status.Completed?
  }

  /** An event that is none of the three causes. */
  predicate Tame(w: World, e: Event) {
    match e
    case Start(p) => p.root || p.pc.ReconcileJournal?
    case Act(pid, env) =>
      pid < |w.processes| ==>
        && (w.processes[pid].pc.Completing? ==> !env.fault.LostAfter?)
        && (w.processes[pid].pc.Finishing? ==> env.ok)
    case _ => true
  }

  predicate TameRun(events: seq<Event>) {
    events == [] ||
    (TameRun(events[..|events| - 1]) && Tame(Run(GENESIS, events[..|events| - 1]), events[|events| - 1]))
  }

  // ----- the invariant of tame runs

  /** The process works on a slot that it claimed itself. */
  predicate HoldsClaim(p: Process) {
    p.root && !p.pc.ClaimingSlot? && !p.pc.Ended? && !Reconciling(p.pc)
  }

  predicate Reconciling(pc: Pc) {
    || pc.ReconcileJournal? || pc.ReconcilePermit? || pc.ReconcileSlot? || pc.ReconcileRead?
    || pc.Reconciled? || pc.ReconcileRaised?
  }

  /** The process has completed its journal and knows it. */
  predicate KnowsCompleted(pc: Pc) {
    || (pc.Finishing? && pc.outcome.Some? && pc.outcome.value.journal.row.status.Completed?)
    || (pc.Resolving? && pc.completed)
  }

  ghost predicate SlotClosed(t: Tables, s: nat) {
    exists j :: 0 <= j < |t.journals| && t.journals[j].slot == s && t.journals[j].Terminal()
  }

  ghost predicate TameProcess(t: Tables, p: Process) {
    && (p.root || Reconciling(p.pc) || p.pc.Ended?)
    && (p.root ==> !Reconciling(p.pc))
    && (HoldsClaim(p) ==>
          && p.claim.slot < |t.slots|
          && (!KnowsCompleted(p.pc) ==> !SlotJournalCompleted(t, p.claim.slot))
          && (t.slots[p.claim.slot].status.SlotFailed? ==> SlotClosed(t, p.claim.slot)))
  }

  ghost predicate TameInv(w: World) {
    && (forall i :: 0 <= i < |w.processes| ==> TameProcess(w.tables, w.processes[i]))
    && (forall i, k :: 0 <= i < k < |w.processes| && HoldsClaim(w.processes[i]) && HoldsClaim(w.processes[k]) ==>
          w.processes[i].claim.slot != w.processes[k].claim.slot)
    && (forall s: nat :: !Disagree(w.tables, s))
  }

  /** One step's effect on slots and journals, as far as agreement is concerned:
      `done` is the slot whose journal it completes, `failed` the slot it fails.  */
  ghost predicate Touches(t: Tables, u: Tables, done: Option<nat>, failed: Option<nat>) {
    && Evolves(t, u)
    && (forall s: nat :: SlotJournalCompleted(u, s) && Some(s) != done ==> SlotJournalCompleted(t, s))
    && (forall s: nat :: s < |u.slots| && u.slots[s].status.SlotFailed? && Some(s) != failed ==>
          s < |t.slots| && t.slots[s].status.SlotFailed?)
  }

  lemma SlotClosedStable(t: Tables, u: Tables, s: nat)
    requires Evolves(t, u) && SlotClosed(t, s)
    ensures SlotClosed(u, s)
  {
    var j :| 0 <= j < |t.journals| && t.journals[j].slot == s && t.journals[j].Terminal();
    assert JournalEvolves(t.journals[j], u.journals[j]);
  }

  /** A bystander with another slot is unaffected. */
  lemma TameBystander(t: Tables, u: Tables, q: Process, done: Option<nat>, failed: Option<nat>)
    requires TameProcess(t, q) && Touches(t, u, done, failed)
    requires HoldsClaim(q) ==> Some(q.claim.slot) != done && (Some(q.claim.slot) != failed || SlotClosed(t, q.claim.slot))
    ensures TameProcess(u, q)
  {
    if HoldsClaim(q) && u.slots[q.claim.slot].status.SlotFailed? {
      SlotClosedStable(t, u, q.claim.slot);
    }
  }

  /** Where the actor ends up, and which slot it fails or whose journal it completes. */
  ghost predicate ActorTame(t: Tables, p: Process, u: Tables, q: Process, done: Option<nat>, failed: Option<nat>) {
    && Touches(t, u, done, failed)
    && TameProcess(u, q)
    && (HoldsClaim(q) ==> (q.claim == p.claim && HoldsClaim(p)) || q.claim.slot == |t.slots|)
    && (done.Some? ==>
          && HoldsClaim(p) && done.value == p.claim.slot
          && (done.value < |u.slots| ==> !u.slots[done.value].status.SlotFailed?))
    && (failed.Some? ==>
          && !SlotJournalCompleted(u, failed.value)
          && (SlotClosed(t, failed.value) || (HoldsClaim(p) && failed.value == p.claim.slot)))
  }

  lemma ActorKeepsTame(w: World, pid: nat, u: Tables, q: Process, done: Option<nat>, failed: Option<nat>)
    requires TameInv(w) && pid < |w.processes|
    requires ActorTame(w.tables, w.processes[pid], u, q, done, failed)
    ensures TameInv(w.(tables := u, processes := w.processes[pid := q]))
  {
    var p, v := w.processes[pid], w.(tables := u, processes := w.processes[pid := q]);
    forall i | 0 <= i < |v.processes| ensures TameProcess(u, v.processes[i]) {
      if i != pid { TameBystander(w.tables, u, w.processes[i], done, failed); }
    }
    forall s: nat ensures !Disagree(u, s) {
      assert !Disagree(w.tables, s);
      assert SlotJournalCompleted(w.tables, s) && s < |w.tables.slots| ==> !w.tables.slots[s].status.SlotFailed?;
    }
    hide SlotJournalCompleted, SlotClosed, Disagree, Evolves;
  }

  // ----- the steps

  /** Steps that complete no journal and resolve no slot. */
  lemma QuietTouches(t: Tables, u: Tables, pc: Pc)
    requires Evolves(t, u) && Guarantee(t, u, pc) && !pc.Completing? && u.slots == t.slots
    ensures Touches(t, u, None, None)
  {
    forall s: nat | SlotJournalCompleted(u, s) ensures SlotJournalCompleted(t, s) {
      var j :| 0 <= j < |u.journals| && u.journals[j].slot == s && u.journals[j].status.Completed?;
      assert JournalEvolves(t.journals[j], u.journals[j]);
    }
  }

  /** Program counters of a tame process that is not at one of the decisive steps. */
  lemma QuietMoves(t: Tables, p: Process, env: Env)
    requires TameProcess(t, p) && ProcessOk(t, p)
    requires !p.pc.ClaimingSlot? && !p.pc.Resolving? && !p.pc.Completing? && (p.pc.Finishing? ==> env.ok)
    ensures var q := Step(t, p, env).process;
            && q.root == p.root && q.claim == p.claim
            && (Reconciling(p.pc) <==> Reconciling(q.pc))
            && (p.pc.Ended? ==> q.pc.Ended?)
            && (HoldsClaim(q) ==> HoldsClaim(p))
            && (KnowsCompleted(p.pc) ==> KnowsCompleted(q.pc) || q.pc.Ended?)
            && (q.pc.Ended? ==> p.pc.Ended? || !p.root)
  {
    hide AuthorizeAndStart, RecordResponse, RecordTransportFailure, ClaimSlot, ResolveSlot, ClaimJournal,
      SettleJournal, CompleteJournal, FailJournal, MarkIndeterminate, RecoverWithoutResend,
      ConsumeUncertainPermit, MarkerVerified, ReadSlotStatus, ProcessOk, SlotClosed, SlotJournalCompleted;
  }

  lemma QuietStepTame(t: Tables, p: Process, env: Env)
    requires Good(t) && TameProcess(t, p) && ProcessOk(t, p)
    requires !p.pc.ClaimingSlot? && !p.pc.Resolving? && !p.pc.Completing? && !p.pc.ReconcileSlot?
    requires p.pc.Finishing? ==> env.ok
    ensures ActorTame(t, p, Step(t, p, env).tables, Step(t, p, env).process, None, None)
  {
    var out := Step(t, p, env);
    StepRely(t, p, env);
    SlotsUntouched(t, p, env);
    QuietMoves(t, p, env);
    QuietTouches(t, out.tables, p.pc);
    hide Good, ProcessOk, Guarantee, Step;
    TameBystander(t, out.tables, p, None, None);
  }

  lemma ClaimingSlotTame(t: Tables, p: Process, env: Env)
    requires Good(t) && TameProcess(t, p) && ProcessOk(t, p) && p.pc.ClaimingSlot?
    ensures ActorTame(t, p, Step(t, p, env).tables, Step(t, p, env).process, None, None)
  {
    var out := Step(t, p, env);
    hide ProcessOk, Guarantee, TameProcess, ActorTame, Evolves, Step;
    StepRely(t, p, env);
    forall j | 0 <= j < |t.journals| ensures t.journals[j].slot < |t.slots| { assert JournalRowOk(t, t.journals[j]); }
    hide Good;
    ClaimingSlotForm(t, p, env);
    ClaimedTame(t, out.tables, p, out.process);
  }

  /** The claim appends an open slot, or nothing happens. */
  lemma ClaimingSlotForm(t: Tables, p: Process, env: Env)
    requires p.pc.ClaimingSlot?
    ensures var out := Step(t, p, env); var u := out.tables;
      && u.journals == t.journals
      && (u.slots == t.slots || (|u.slots| == |t.slots| + 1 && u.slots[..|t.slots|] == t.slots && u.slots[|t.slots|].status.SlotClaimed?))
      && out.process.root == p.root
      && ((out.process.pc.Ended? && out.process.claim == p.claim)
          || (out.process.pc.Preparing? && |u.slots| == |t.slots| + 1 && out.process.claim.slot == |t.slots|))
  {
  }

  lemma ClaimedTame(t: Tables, u: Tables, p: Process, q: Process)
    requires TameProcess(t, p) && p.pc.ClaimingSlot? && Evolves(t, u) && u.journals == t.journals
    requires forall j :: 0 <= j < |t.journals| ==> t.journals[j].slot < |t.slots|
    requires u.slots == t.slots || (|u.slots| == |t.slots| + 1 && u.slots[..|t.slots|] == t.slots && u.slots[|t.slots|].status.SlotClaimed?)
    requires q.root == p.root
    requires (q.pc.Ended? && q.claim == p.claim) || (q.pc.Preparing? && |u.slots| == |t.slots| + 1 && q.claim.slot == |t.slots|)
    ensures ActorTame(t, p, u, q, None, None)
  {
    assert forall s: nat :: SlotJournalCompleted(u, s) == SlotJournalCompleted(t, s);
    assert forall k :: 0 <= k < |t.slots| && |u.slots| > |t.slots| ==> u.slots[k] == t.slots[k];
    hide Evolves;
  }

  lemma ResolvingForm(t: Tables, p: Process, env: Env)
    requires p.pc.Resolving?
    ensures var out := Step(t, p, env); var s := p.claim.slot;
            && out.process == p.(pc := Ended)
            && (|| out.tables == t
                || (s < |t.slots| && out.tables == t.(slots := t.slots[s := out.tables.slots[s]])
                    && (out.tables.slots[s].status.SlotFailed? <==> !p.pc.completed)))
  {
  }

  lemma ResolvingTame(t: Tables, p: Process, env: Env)
    requires Good(t) && TameProcess(t, p) && ProcessOk(t, p) && p.pc.Resolving?
    ensures ActorTame(t, p, Step(t, p, env).tables, Step(t, p, env).process, None,
                      if p.pc.completed then None else Some(p.claim.slot))
  {
    var u := Step(t, p, env).tables;
    StepRely(t, p, env);
    ResolvingForm(t, p, env);
    hide Good, Step, Guarantee, ProcessOk;
    ResolvedTame(t, u, p);
  }

  lemma ResolvedTame(t: Tables, u: Tables, p: Process)
    requires Evolves(t, u) && TameProcess(t, p) && p.pc.Resolving?
    requires var s := p.claim.slot;
      || u == t
      || (s < |t.slots| && u == t.(slots := t.slots[s := u.slots[s]]) && (u.slots[s].status.SlotFailed? <==> !p.pc.completed))
    requires !p.pc.completed ==> HoldsClaim(p)
    ensures ActorTame(t, p, u, p.(pc := Ended), None, if p.pc.completed then None else Some(p.claim.slot))
  {
    hide Evolves;
    assert u.journals == t.journals;
    assert forall s: nat :: SlotJournalCompleted(u, s) == SlotJournalCompleted(t, s);
  }

  /** The two results of resolving a slot from a record: the slot row, or nothing. */
  lemma ReconcileSlotForm(t: Tables, p: Process, env: Env)
    requires p.pc.ReconcileSlot?
    ensures var out := Step(t, p, env); var r := p.pc.record;
            && out.process == p.(pc := out.process.pc) && Reconciling(out.process.pc)
            && (|| out.tables == t
                || (r.row.slot < |t.slots| && out.tables == t.(slots := t.slots[r.row.slot := out.tables.slots[r.row.slot]])
                    && (out.tables.slots[r.row.slot].status.SlotFailed? <==> !r.row.status.Completed?)))
  {
  }

  /** The journal of a slot is the only one. */
  lemma OneJournalPerSlot(t: Tables, j: nat)
    requires Good(t) && j < |t.journals|
    ensures forall k :: 0 <= k < |t.journals| && t.journals[k].slot == t.journals[j].slot ==> k == j
  {
  }

  lemma ResolvedFromRecord(t: Tables, u: Tables, p: Process, q: Process, r: Record)
    requires Evolves(t, u) && TameProcess(t, p) && RecordStands(t, r)
    requires q == p.(pc := q.pc) && Reconciling(p.pc) && Reconciling(q.pc)
    requires forall k :: 0 <= k < |t.journals| && t.journals[k].slot == r.row.slot ==> k == r.id
    requires || u == t
             || (r.row.slot < |t.slots| && u == t.(slots := t.slots[r.row.slot := u.slots[r.row.slot]])
                 && (u.slots[r.row.slot].status.SlotFailed? <==> !r.row.status.Completed?))
    ensures ActorTame(t, p, u, q, None, if r.row.status.Completed? then None else Some(r.row.slot))
  {
    hide Evolves;
    assert t.journals[r.id] == r.row;
    assert SlotClosed(t, r.row.slot);
    assert u.journals == t.journals;
  }

  lemma ReconcileSlotTame(t: Tables, p: Process, env: Env)
    requires Good(t) && TameProcess(t, p) && ProcessOk(t, p) && p.pc.ReconcileSlot?
    ensures ActorTame(t, p, Step(t, p, env).tables, Step(t, p, env).process, None,
                      if p.pc.record.row.status.Completed? then None else Some(p.pc.record.row.slot))
  {
    var r := p.pc.record;
    assert RecordStands(t, r);
    hide Good, Step, Guarantee, ProcessOk, Evolves, TameProcess, ActorTame;
    OneJournalPerSlot(t, r.id);
    StepRely(t, p, env);
    ReconcileSlotForm(t, p, env);
    ResolvedFromRecord(t, Step(t, p, env).tables, p, Step(t, p, env).process, r);
  }

  /** Completing either does nothing to the tables, or completes the one journal of
      the slot and knows it, unless the commit was ambiguous.  */
  lemma CompletingForm(t: Tables, p: Process, env: Env)
    requires p.pc.Completing? && !env.fault.LostAfter?
    ensures var out := Step(t, p, env); var j := p.pc.journal;
            && out.process == p.(pc := out.process.pc) && !Reconciling(out.process.pc) && !out.process.pc.Ended?
            && !out.process.pc.ClaimingSlot?
            && (|| (out.tables == t && !KnowsCompleted(out.process.pc))
                || (&& j < |t.journals| && t.journals[j].status.Settled?
                    && out.tables == t.(journals := t.journals[j := out.tables.journals[j]])
                    && out.tables.journals[j].slot == t.journals[j].slot
                    && KnowsCompleted(out.process.pc)))
  {
  }

  lemma CompletedByOwner(t: Tables, u: Tables, p: Process, q: Process, j: nat)
    requires Evolves(t, u) && TameProcess(t, p) && HoldsClaim(p) && HoldsClaim(q) && q == p.(pc := q.pc)
    requires j < |t.journals| && t.journals[j].slot == p.claim.slot && t.journals[j].status.Settled?
    requires forall k :: 0 <= k < |t.journals| && t.journals[k].slot == p.claim.slot ==> k == j
    requires u == t.(journals := t.journals[j := u.journals[j]]) && u.journals[j].slot == t.journals[j].slot
    requires KnowsCompleted(q.pc)
    ensures ActorTame(t, p, u, q, Some(p.claim.slot), None)
  {
    hide Evolves;
    assert !SlotClosed(t, p.claim.slot);
    forall s: nat | SlotJournalCompleted(u, s) && s != p.claim.slot ensures SlotJournalCompleted(t, s) {
      var k :| 0 <= k < |u.journals| && u.journals[k].slot == s && u.journals[k].status.Completed?;
      assert t.journals[k] == u.journals[k];
    }
  }

  lemma CompletingTame(t: Tables, p: Process, env: Env)
    requires Good(t) && TameProcess(t, p) && ProcessOk(t, p) && p.pc.Completing? && !env.fault.LostAfter?
    ensures var done := if KnowsCompleted(Step(t, p, env).process.pc) then Some(p.claim.slot) else None;
            ActorTame(t, p, Step(t, p, env).tables, Step(t, p, env).process, done, None)
  {
    var out := Step(t, p, env);
    var j := p.pc.journal;
    CompletingContextOk(t, p);
    hide Good, Step, Guarantee, ProcessOk, Evolves, ActorTame, TameProcess;
    OneJournalPerSlot(t, j);
    StepRely(t, p, env);
    CompletingForm(t, p, env);
    if KnowsCompleted(out.process.pc) {
      CompletedByOwner(t, out.tables, p, out.process, j);
    } else {
      UnmovedTame(t, p, out.process);
    }
  }

  lemma CompletingContextOk(t: Tables, p: Process)
    requires TameProcess(t, p) && ProcessOk(t, p) && p.pc.Completing?
    ensures p.pc.journal < |t.journals| && t.journals[p.pc.journal].slot == p.claim.slot && HoldsClaim(p)
  {
  }

  lemma UnmovedTame(t: Tables, p: Process, q: Process)
    requires TameProcess(t, p) && HoldsClaim(p) && HoldsClaim(q) && q == p.(pc := q.pc)
    requires !KnowsCompleted(p.pc) && !KnowsCompleted(q.pc)
    ensures ActorTame(t, p, t, q, None, None)
  {
    EvolvesReflexive(t);
  }

  // ----- runs

  lemma ActKeepsTame(w: World, pid: nat, env: Env)
    requires WorldInv(w) && TameInv(w) && pid < |w.processes| && Tame(w, Act(pid, env))
    ensures TameInv(Next(w, Act(pid, env)))
  {
    var p := w.processes[pid];
    var out := Step(w.tables, p, env);
    assert ProcessOk(w.tables, p) && Good(w.tables);
    var after := w.(tables := out.tables, processes := w.processes[pid := out.process]);
    ActMoves(w, pid, env);
    hide *;
    ActedTame(w, pid, env);
    TameInvSame(after, Next(w, Act(pid, env)));
  }

  /** The invariant says nothing about the ghost history. */
  lemma TameInvSame(v: World, w: World)
    requires TameInv(v) && v.tables == w.tables && v.processes == w.processes
    ensures TameInv(w)
  {
  }

  lemma ActedTame(w: World, pid: nat, env: Env)
    requires Good(w.tables) && TameInv(w) && pid < |w.processes| && Tame(w, Act(pid, env))
    requires ProcessOk(w.tables, w.processes[pid])
    ensures var out := Step(w.tables, w.processes[pid], env);
      TameInv(w.(tables := out.tables, processes := w.processes[pid := out.process]))
  {
    var p := w.processes[pid];
    var out := Step(w.tables, p, env);
    assert TameProcess(w.tables, p);
    hide Good, ProcessOk, TameProcess, ActorTame, Step, TameInv;
    match p.pc
    case ClaimingSlot(_, _) =>
      ClaimingSlotTame(w.tables, p, env);
      ActorKeepsTame(w, pid, out.tables, out.process, None, None);
    case Resolving(completed) =>
      ResolvingTame(w.tables, p, env);
      ActorKeepsTame(w, pid, out.tables, out.process, None, if completed then None else Some(p.claim.slot));
    case ReconcileSlot(r) =>
      ReconcileSlotTame(w.tables, p, env);
      ActorKeepsTame(w, pid, out.tables, out.process, None, if r.row.status.Completed? then None else Some(r.row.slot));
    case Completing(_, _, _) =>
      CompletingTame(w.tables, p, env);
      ActorKeepsTame(w, pid, out.tables, out.process,
                     if KnowsCompleted(out.process.pc) then Some(p.claim.slot) else None, None);
    case _ =>
      QuietStepTame(w.tables, p, env);
      ActorKeepsTame(w, pid, out.tables, out.process, None, None);
  }

  lemma NextKeepsTame(w: World, e: Event)
    requires WorldInv(w) && TameInv(w) && Tame(w, e)
    ensures TameInv(Next(w, e))
  {
    hide WorldInv, TameInv, Step, CallTx;
    match e
    case Act(pid, env) => if pid < |w.processes| { ActKeepsTame(w, pid, env); }
    case Client(a, runId, call, now) => ClientKeepsTame(w, a, runId, call, now);
    case Start(p) => StartKeepsTame(w, p);
    case Crash(pid) => if pid < |w.processes| { CrashKeepsTame(w, pid); }
  }

  lemma StartKeepsTame(w: World, p: Process)
    requires TameInv(w) && (p.root || p.pc.ReconcileJournal?)
    ensures CanStart(p) ==> TameInv(w.(processes := w.processes + [p]))
  {
    hide SlotClosed, SlotJournalCompleted, Disagree;
  }

  lemma CrashKeepsTame(w: World, pid: nat)
    requires TameInv(w) && pid < |w.processes|
    ensures TameInv(w.(processes := w.processes[pid := w.processes[pid].(pc := Ended)]))
  {
    hide SlotClosed, SlotJournalCompleted, Disagree;
  }

  lemma ClientKeepsTame(w: World, a: Approval, runId: nat, call: Call, now: Clock)
    requires WorldInv(w) && TameInv(w)
    ensures TameInv(w.(tables := CallTx(w.tables, a, runId, call, now)))
  {
    var u := CallTx(w.tables, a, runId, call, now);
    hide CallTx, Evolves, Guarantee;
    CallRely(w.tables, a, runId, call, now);
    CallTouches(w.tables, a, runId, call, now);
    QuietTouches(w.tables, u, Ended);
    hide WorldInv, TameProcess, Touches;
    forall i | 0 <= i < |w.processes| ensures TameProcess(u, w.processes[i]) {
      TameBystander(w.tables, u, w.processes[i], None, None);
    }
    forall s: nat ensures !Disagree(u, s) {
      assert !Disagree(w.tables, s);
      NoNewDisagreement(w.tables, u, s);
    }
  }

  lemma NoNewDisagreement(t: Tables, u: Tables, s: nat)
    requires Touches(t, u, None, None) && !Disagree(t, s)
    ensures !Disagree(u, s)
  {
    assert SlotJournalCompleted(u, s) ==> SlotJournalCompleted(t, s);
    hide Evolves;
  }

  lemma {:induction false} TameRunInv(events: seq<Event>)
    requires TameRun(events)
    ensures TameInv(Run(GENESIS, events))
  {
    if events == [] {
    } else {
      var before := events[..|events| - 1];
      TameRunInv(before);
      Reachable(before);
      NextKeepsTame(Run(GENESIS, before), events[|events| - 1]);
      hide TameInv, WorldInv;
    }
  }

  /** Without an ambiguous completion, a late rejection or a bare coordinator, every
      resolved slot with a journal is completed exactly when the journal is.  */
  lemma TameRunsAgree(events: seq<Event>, j: nat)
    requires TameRun(events) && j < |Run(GENESIS, events).tables.journals|
    ensures var t := Run(GENESIS, events).tables;
            && t.journals[j].slot < |t.slots|
            && (!t.slots[t.journals[j].slot].status.SlotClaimed? ==>
                  (t.slots[t.journals[j].slot].status.SlotCompleted? <==> t.journals[j].status.Completed?))
  {
    var t := Run(GENESIS, events).tables;
    Reachable(events);
    TameRunInv(events);
    assert JournalRowOk(t, t.journals[j]);
    OneJournalPerSlot(t, j);
    assert !Disagree(t, t.journals[j].slot);
  }
}
