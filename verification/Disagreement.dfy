/** Exactly when a slot and its journal come to disagree: a root gives its slot up
    although the journal completed, or a journal completes after its slot failed.  */
module Disagreement {
  import opened Schema
  import opened Transactions
  import opened Evolution
  import opened Links
  import opened Protocol
  import opened ProcessInvariant
  import opened WorldInvariant
  import opened Moves
  import opened Agreement
  import opened Theorems

  /** A root is about to fail its open slot while the journal of the slot is completed. */
  ghost predicate GivesUp(t: Tables, p: Process, env: Env) {
    && p.pc.Resolving? && !p.pc.completed && !env.fault.LostBefore?
    && SlotMatches(t, p.claim) && t.slots[p.claim.slot].status.SlotClaimed?
    && SlotJournalCompleted(t, p.claim.slot)
  }

  /** A coordinator is about to complete a journal whose slot has failed. */
  ghost predicate CompletesLate(t: Tables, p: Process, env: Env) {
    && p.pc.Completing? && !env.fault.LostBefore?
    && p.pc.journal < |t.journals| && t.journals[p.pc.journal].status.Settled?
    && t.journals[p.pc.journal].slot < |t.slots|
    && t.slots[t.journals[p.pc.journal].slot].status.SlotFailed?
  }

  ghost predicate Spoils(t: Tables, p: Process, env: Env, s: nat) {
    || (GivesUp(t, p, env) && s == p.claim.slot)
    || (CompletesLate(t, p, env) && s == t.journals[p.pc.journal].slot)
  }

  ghost predicate SpoiledBy(w: World, e: Event, s: nat) {
    e.Act? && e.pid < |w.processes| && Spoils(w.tables, w.processes[e.pid], e.env, s)
  }

  /** The event is one of the two, as can be seen in the state before it. */
  ghost predicate Spoiling(w: World, e: Event) {
    && e.Act? && e.pid < |w.processes|
    && (GivesUp(w.tables, w.processes[e.pid], e.env) || CompletesLate(w.tables, w.processes[e.pid], e.env))
  }

  ghost predicate Spoiled(events: seq<Event>) {
    events != [] &&
    (Spoiled(events[..|events| - 1]) || Spoiling(Run(GENESIS, events[..|events| - 1]), events[|events| - 1]))
  }

  lemma DisagreeMeans(t: Tables, s: nat)
    ensures Disagree(t, s) <==> s < |t.slots| && t.slots[s].status.SlotFailed? && SlotJournalCompleted(t, s)
  {
  }

  /** Disagreement is for ever. */
  lemma DisagreeStable(t: Tables, u: Tables, s: nat)
    requires Evolves(t, u) && Disagree(t, s)
    ensures Disagree(u, s)
  {
    DisagreeMeans(t, s);
    DisagreeMeans(u, s);
    SlotJournalCompletedStable(t, u, s);
    assert SlotEvolves(t.slots[s], u.slots[s]);
  }

  /** Nothing new from a move that completes no journal and fails no slot. */
  lemma TouchesNothing(t: Tables, u: Tables, s: nat)
    requires Touches(t, u, None, None)
    ensures Disagree(u, s) <==> Disagree(t, s)
  {
    if Disagree(t, s) { DisagreeStable(t, u, s); }
    DisagreeMeans(t, s);
    DisagreeMeans(u, s);
    hide SlotJournalCompleted, Evolves;
  }

  lemma ResolvingDisagrees(t: Tables, p: Process, env: Env, s: nat)
    requires p.pc.Resolving?
    ensures Disagree(Step(t, p, env).tables, s) <==> Disagree(t, s) || Spoils(t, p, env, s)
  {
    var u := Step(t, p, env).tables;
    assert u == After(t, ResolveSlot(t, p.claim, p.pc.completed, env.now.at), env.fault);
    assert SlotJournalCompleted(u, s) == SlotJournalCompleted(t, s);
    DisagreeMeans(t, s);
    DisagreeMeans(u, s);
    hide Step, Disagree, SlotJournalCompleted;
  }

  /** The reconciler resolves a slot by the journal row that stands. */
  lemma ReconcileSlotDisagrees(t: Tables, p: Process, env: Env, s: nat)
    requires Good(t) && ProcessOk(t, p) && p.pc.ReconcileSlot?
    ensures Disagree(Step(t, p, env).tables, s) <==> Disagree(t, s)
  {
    var u := Step(t, p, env).tables;
    var r := p.pc.record;
    assert RecordStands(t, r);
    OneJournalPerSlot(t, r.id);
    assert SlotJournalCompleted(t, r.row.slot) ==> r.row.status.Completed?;
    ReconcileSlotForm(t, p, env);
    assert u.journals == t.journals;
    assert SlotJournalCompleted(u, s) == SlotJournalCompleted(t, s);
    DisagreeMeans(t, s);
    DisagreeMeans(u, s);
    ResolvedOnce(t, p, env);
    hide Good, ProcessOk, Step, Disagree, SlotJournalCompleted;
  }

  /** Only an open slot is resolved. */
  lemma ResolvedOnce(t: Tables, p: Process, env: Env)
    requires p.pc.ReconcileSlot?
    ensures var s := p.pc.record.row.slot; var u := Step(t, p, env).tables;
      s < |t.slots| && !t.slots[s].status.SlotClaimed? ==> u.slots == t.slots
  {
  }

  lemma CompletingDisagrees(t: Tables, p: Process, env: Env, s: nat)
    requires Good(t) && p.pc.Completing?
    ensures Disagree(Step(t, p, env).tables, s) <==> Disagree(t, s) || Spoils(t, p, env, s)
  {
    var u := Step(t, p, env).tables;
    var j := p.pc.journal;
    CompletingTables(t, p, env);
    hide Step, Good;
    if j < |t.journals| && t.journals[j].status.Settled? && !env.fault.LostBefore? {
      OneJournalPerSlot(t, j);
      assert JournalRowOk(t, t.journals[j]);
      CompletedSlots(t, u, j, s);
    }
    DisagreeMeans(t, s);
    DisagreeMeans(u, s);
    hide SlotJournalCompleted, Disagree;
  }

  lemma CompletingTables(t: Tables, p: Process, env: Env)
    requires p.pc.Completing?
    ensures var u := Step(t, p, env).tables; var j := p.pc.journal;
      if j < |t.journals| && t.journals[j].status.Settled? && !env.fault.LostBefore? then
        && u == t.(journals := t.journals[j := u.journals[j]])
        && u.journals[j].status.Completed? && u.journals[j].slot == t.journals[j].slot
      else u == t
  {
  }

  lemma CompletedSlots(t: Tables, u: Tables, j: nat, s: nat)
    requires j < |t.journals| == |u.journals| && u.journals == t.journals[j := u.journals[j]]
    requires u.journals[j].status.Completed? && u.journals[j].slot == t.journals[j].slot && t.journals[j].status.Settled?
    ensures SlotJournalCompleted(u, s) <==> SlotJournalCompleted(t, s) || s == t.journals[j].slot
  {
    if SlotJournalCompleted(u, s) && s != t.journals[j].slot {
      var k :| 0 <= k < |u.journals| && u.journals[k].slot == s && u.journals[k].status.Completed?;
      assert t.journals[k] == u.journals[k];
    }
    if SlotJournalCompleted(t, s) {
      var k :| 0 <= k < |t.journals| && t.journals[k].slot == s && t.journals[k].status.Completed?;
      assert u.journals[k] == t.journals[k];
    }
  }

  lemma ClaimingDisagrees(t: Tables, p: Process, env: Env, s: nat)
    requires Good(t) && p.pc.ClaimingSlot?
    ensures Disagree(Step(t, p, env).tables, s) <==> Disagree(t, s)
  {
    var u := Step(t, p, env).tables;
    forall j | 0 <= j < |t.journals| ensures t.journals[j].slot < |t.slots| { assert JournalRowOk(t, t.journals[j]); }
    assert u.journals == t.journals && t.slots <= u.slots;
    assert forall k :: |t.slots| <= k < |u.slots| ==> u.slots[k].status.SlotClaimed?;
    DisagreeMeans(t, s);
    DisagreeMeans(u, s);
    assert SlotJournalCompleted(u, s) == SlotJournalCompleted(t, s);
    hide Good, Step, SlotJournalCompleted, Disagree;
  }

  lemma StepDisagrees(t: Tables, p: Process, env: Env, s: nat)
    requires Good(t) && ProcessOk(t, p)
    ensures Disagree(Step(t, p, env).tables, s) <==> Disagree(t, s) || Spoils(t, p, env, s)
  {
    hide Good, ProcessOk, Step, Disagree, SlotJournalCompleted, SlotMatches;
    match p.pc
    case ClaimingSlot(_, _) => ClaimingDisagrees(t, p, env, s);
    case Resolving(_) => ResolvingDisagrees(t, p, env, s);
    case ReconcileSlot(_) => ReconcileSlotDisagrees(t, p, env, s);
    case Completing(_, _, _) => CompletingDisagrees(t, p, env, s);
    case _ =>
      SlotsUntouched(t, p, env);
      StepRely(t, p, env);
      QuietTouches(t, Step(t, p, env).tables, p.pc);
      TouchesNothing(t, Step(t, p, env).tables, s);
  }

  lemma NextDisagrees(w: World, e: Event, s: nat)
    requires WorldInv(w)
    ensures Disagree(Next(w, e).tables, s) <==> Disagree(w.tables, s) || SpoiledBy(w, e, s)
  {
    hide WorldInv, CallTx, Step, Disagree, Spoils;
    match e
    case Act(pid, env) => if pid < |w.processes| { ActDisagrees(w, pid, env, s); }
    case Client(a, runId, call, now) => ClientDisagrees(w, a, runId, call, now, s);
    case Start(_) =>
    case Crash(_) =>
  }

  lemma ActDisagrees(w: World, pid: nat, env: Env, s: nat)
    requires WorldInv(w) && pid < |w.processes|
    ensures Disagree(Step(w.tables, w.processes[pid], env).tables, s) <==>
            Disagree(w.tables, s) || Spoils(w.tables, w.processes[pid], env, s)
  {
    assert Good(w.tables) && ProcessOk(w.tables, w.processes[pid]);
    hide WorldInv, Good, ProcessOk, Step, Disagree, Spoils;
    StepDisagrees(w.tables, w.processes[pid], env, s);
  }

  lemma ClientDisagrees(w: World, a: Approval, runId: nat, call: Call, now: Clock, s: nat)
    requires WorldInv(w)
    ensures Disagree(CallTx(w.tables, a, runId, call, now), s) <==> Disagree(w.tables, s)
  {
    hide CallTx, Evolves, Guarantee, Disagree, Touches;
    CallRely(w.tables, a, runId, call, now);
    CallTouches(w.tables, a, runId, call, now);
    QuietTouches(w.tables, CallTx(w.tables, a, runId, call, now), Ended);
    TouchesNothing(w.tables, CallTx(w.tables, a, runId, call, now), s);
  }

  ghost predicate SomewhereDisagree(t: Tables) {
    exists s: nat :: Disagree(t, s)
  }

  lemma NextSomewhere(w: World, e: Event)
    requires WorldInv(w)
    ensures SomewhereDisagree(Next(w, e).tables) <==> SomewhereDisagree(w.tables) || Spoiling(w, e)
  {
    hide WorldInv, Disagree, GivesUp, CompletesLate, Next;
    forall s: nat ensures Disagree(Next(w, e).tables, s) <==> Disagree(w.tables, s) || SpoiledBy(w, e, s) {
      NextDisagrees(w, e, s);
    }
    if Spoiling(w, e) {
      var p := w.processes[e.pid];
      assert SpoiledBy(w, e, if GivesUp(w.tables, p, e.env) then p.claim.slot else LateSlot(w.tables, p, e.env));
    }
  }

  ghost function LateSlot(t: Tables, p: Process, env: Env): nat
    requires CompletesLate(t, p, env)
  {
    t.journals[p.pc.journal].slot
  }

  /** A run ends in disagreement exactly when one of its events is one of the two. */
  lemma {:induction false} RunDisagrees(events: seq<Event>)
    ensures SomewhereDisagree(Run(GENESIS, events).tables) <==> Spoiled(events)
  {
    if events != [] {
      var before, e := events[..|events| - 1], events[|events| - 1];
      RunDisagrees(before);
      Reachable(before);
      hide WorldInv, SomewhereDisagree, Spoiling, Next;
      NextSomewhere(Run(GENESIS, before), e);
    }
  }

  ghost predicate AgreesAt(t: Tables, j: nat)
    requires j < |t.journals|
  {
    var s := t.journals[j].slot;
    && s < |t.slots|
    && (!t.slots[s].status.SlotClaimed? ==> (t.slots[s].status.SlotCompleted? <==> t.journals[j].status.Completed?))
  }

  /** Every resolved slot with a journal is completed exactly when its journal is,
      unless the run contains one of the two spoiling events; and only then.  */
  lemma AgreementExactly(events: seq<Event>)
    ensures var t := Run(GENESIS, events).tables;
      (forall j :: 0 <= j < |t.journals| ==> AgreesAt(t, j)) <==> !Spoiled(events)
  {
    var t := Run(GENESIS, events).tables;
    Reachable(events);
    RunDisagrees(events);
    assert Good(t);
    hide Run, WorldInv, Spoiled, Good;
    forall j | 0 <= j < |t.journals|
      ensures AgreesAt(t, j) <==> !Disagree(t, t.journals[j].slot)
    {
      JournalAgrees(events, j);
    }
    if s: nat :| Disagree(t, s) {
      var j :| 0 <= j < |t.journals| && t.journals[j].slot == s && t.journals[j].status.Completed?;
      assert !AgreesAt(t, j);
    }
  }

  lemma JournalAgrees(events: seq<Event>, j: nat)
    requires j < |Run(GENESIS, events).tables.journals|
    ensures var t := Run(GENESIS, events).tables;
      AgreesAt(t, j) <==> !Disagree(t, t.journals[j].slot)
  {
    var t := Run(GENESIS, events).tables;
    Reachable(events);
    assert Good(t) && JournalRowOk(t, t.journals[j]);
    OneJournalPerSlot(t, j);
    hide WorldInv, Good, Run;
    var s := t.journals[j].slot;
    if s < |t.slots| && t.slots[s].status.SlotCompleted? { CompletedSlotHasCompletedJournal(events, s); }
  }
}
