/** When a claim is granted: over every run, a slot, a journal or a run budget can be
    claimed exactly if no earlier event has claimed it.  */
module Claims {
  import opened Schema
  import opened Transactions
  import opened Evolution
  import opened Budget
  import opened Links
  import opened Protocol
  import opened ProcessInvariant
  import opened WorldInvariant
  import opened KernelTheorems
  import opened Moves
  import opened Verdicts

  function TablesAt(events: seq<Event>, k: nat): Tables
    requires k <= |events|
  {
    Run(GENESIS, events[..k]).tables
  }

  /** Event `k` of the run committed a slot for this approval. */
  ghost predicate CommitsSlot(events: seq<Event>, k: nat, approval: Digest)
    requires k < |events|
  {
    var t, u := TablesAt(events, k), TablesAt(events, k + 1);
    |u.slots| == |t.slots| + 1 && u.slots[|t.slots|].approval == approval
  }

  /** Event `k` of the run committed a journal for this slot. */
  ghost predicate CommitsJournal(events: seq<Event>, k: nat, slot: nat)
    requires k < |events|
  {
    var t, u := TablesAt(events, k), TablesAt(events, k + 1);
    |u.journals| == |t.journals| + 1 && u.journals[|t.journals|].slot == slot
  }

  /** Event `k` of the run gave this run its budget, under an approval active at the time. */
  ghost predicate CommitsRun(events: seq<Event>, k: nat, runId: nat, approval: Digest)
    requires k < |events|
  {
    var t, u := TablesAt(events, k), TablesAt(events, k + 1);
    && events[k].Client? && events[k].call == CallInitialize(true) && events[k].runId == runId
    && events[k].approval.fingerprint == approval
    && events[k].approval.approvedAt <= events[k].now.at < events[k].approval.expiresAt
    && |u.runs| == |t.runs| + 1
  }

  lemma TablesKept(events: seq<Event>, e: Event)
    ensures forall k: nat :: k <= |events| ==> TablesAt(events + [e], k) == TablesAt(events, k)
    ensures TablesAt(events, |events|) == Run(GENESIS, events).tables
    ensures TablesAt(events + [e], |events| + 1) == Next(Run(GENESIS, events), e).tables
  {
    hide Next;
    forall k: nat | k <= |events| ensures TablesAt(events + [e], k) == TablesAt(events, k) {
      assert (events + [e])[..k] == events[..k];
    }
    assert events[..|events|] == events;
    assert (events + [e])[..|events| + 1] == events + [e];
    assert (events + [e])[..|events|] == events;
  }

  // ----- what one event adds

  /** No event takes a claim away, and one event makes at most one claim. */
  ghost predicate Adds(t: Tables, u: Tables) {
    && |t.slots| <= |u.slots| <= |t.slots| + 1
    && (forall s :: 0 <= s < |t.slots| ==> u.slots[s].approval == t.slots[s].approval)
    && |t.journals| <= |u.journals| <= |t.journals| + 1
    && (forall j :: 0 <= j < |t.journals| ==> u.journals[j].slot == t.journals[j].slot)
  }

  lemma MovesAdd(t: Tables, u: Tables, p: Process, now: Instant)
    requires SlotMoves(t, u, p, now) && JournalMoves(t, u, p, now)
    ensures Adds(t, u)
  {
  }

  lemma NextClaims(w: World, e: Event)
    ensures Adds(w.tables, Next(w, e).tables)
  {
    hide Step, CallTx, SlotMoves, JournalMoves;
    var t := w.tables;
    if e.Act? && e.pid < |w.processes| {
      ActMoves(w, e.pid, e.env);
      StepMovesSlots(t, w.processes[e.pid], e.env);
      StepMovesJournals(t, w.processes[e.pid], e.env);
      MovesAdd(t, Step(t, w.processes[e.pid], e.env).tables, w.processes[e.pid], e.env.now.at);
    } else if e.Client? {
      CallTouches(t, e.approval, e.runId, e.call, e.now);
    }
  }

  // ----- slots

  lemma TakenNext(t: Tables, u: Tables, approval: Digest)
    requires |t.slots| <= |u.slots| <= |t.slots| + 1
    requires forall s :: 0 <= s < |t.slots| ==> u.slots[s].approval == t.slots[s].approval
    ensures SlotTaken(u, approval) <==>
      SlotTaken(t, approval) || (|u.slots| == |t.slots| + 1 && u.slots[|t.slots|].approval == approval)
  {
    if SlotTaken(t, approval) {
      var s :| 0 <= s < |t.slots| && t.slots[s].approval == approval;
      assert u.slots[s].approval == approval;
    }
  }

  lemma SlotCommits(before: seq<Event>, e: Event, approval: Digest)
    ensures var t, u := Run(GENESIS, before).tables, Next(Run(GENESIS, before), e).tables;
      (exists k: nat :: k < |before + [e]| && CommitsSlot(before + [e], k, approval)) <==>
      (exists k: nat :: k < |before| && CommitsSlot(before, k, approval)) || (|u.slots| == |t.slots| + 1 && u.slots[|t.slots|].approval == approval)
  {
    TablesKept(before, e);
    hide Run, Next, TablesAt;
    forall k: nat | k < |before| ensures CommitsSlot(before + [e], k, approval) <==> CommitsSlot(before, k, approval) {}
    assert (before + [e])[|before|] == e;
    var t, u := Run(GENESIS, before).tables, Next(Run(GENESIS, before), e).tables;
    assert TablesAt(before + [e], |before|) == t && TablesAt(before + [e], |before| + 1) == u;
    assert CommitsSlot(before + [e], |before|, approval) <==> |u.slots| == |t.slots| + 1 && u.slots[|t.slots|].approval == approval;
  }

  /** An approval's slot is taken exactly if an earlier event of the run claimed it. */
  lemma {:induction false} SlotTakenExactly(events: seq<Event>, approval: Digest)
    ensures SlotTaken(Run(GENESIS, events).tables, approval)
       <==> exists k: nat :: k < |events| && CommitsSlot(events, k, approval)
  {
    if events != [] {
      var before, e := events[..|events| - 1], events[|events| - 1];
      var w := Run(GENESIS, before);
      assert events == before + [e];
      SlotTakenExactly(before, approval);
      hide WorldInv, Evolves, Next, SlotTaken, TablesAt, CommitsSlot;
      NextClaims(w, e);
      SlotCommits(before, e, approval);
      hide Run;
      TakenNext(w.tables, Next(w, e).tables, approval);
    }
  }

  /** A claim by a bound run is refused exactly if an earlier event claimed the slot of that
      same approval; otherwise it commits a fresh open slot with the claimed identity.  */
  lemma SlotIsGrantedExactly(events: seq<Event>, approval: Digest, runId: nat, keyHash: Digest, now: Instant)
    ensures var t := Run(GENESIS, events).tables; var tx := ClaimSlot(t, approval, runId, keyHash, now);
      var bound := exists r :: 0 <= r < |t.runs| && t.runs[r].runId == runId && t.runs[r].approval == approval;
      var spent := exists k: nat :: k < |events| && CommitsSlot(events, k, approval);
      && (!bound ==> tx == Abort(SlotBinding))
      && (bound && spent ==> tx == Abort(SlotSpent))
      && (bound && !spent ==>
            && tx.Commit? && tx.result == Claim(|t.slots|, approval, runId, keyHash)
            && tx.tables == t.(slots := t.slots + [Slot(approval, runId, keyHash, SlotClaimed, now, None)]))
  {
    SlotTakenExactly(events, approval);
    hide Run, SlotTaken, CommitsSlot;
  }

  // ----- journals

  lemma HasJournalNext(t: Tables, u: Tables, slot: nat)
    requires |t.journals| <= |u.journals| <= |t.journals| + 1
    requires forall j :: 0 <= j < |t.journals| ==> u.journals[j].slot == t.journals[j].slot
    ensures SlotHasJournal(u, slot) <==>
      SlotHasJournal(t, slot) || (|u.journals| == |t.journals| + 1 && u.journals[|t.journals|].slot == slot)
  {
    if SlotHasJournal(t, slot) {
      var j :| 0 <= j < |t.journals| && t.journals[j].slot == slot;
      assert u.journals[j].slot == slot;
    }
  }

  lemma JournalCommits(before: seq<Event>, e: Event, slot: nat)
    ensures var t, u := Run(GENESIS, before).tables, Next(Run(GENESIS, before), e).tables;
      (exists k: nat :: k < |before + [e]| && CommitsJournal(before + [e], k, slot)) <==>
      (exists k: nat :: k < |before| && CommitsJournal(before, k, slot)) || (|u.journals| == |t.journals| + 1 && u.journals[|t.journals|].slot == slot)
  {
    TablesKept(before, e);
    hide Run, Next, TablesAt;
    forall k: nat | k < |before| ensures CommitsJournal(before + [e], k, slot) <==> CommitsJournal(before, k, slot) {}
    assert (before + [e])[|before|] == e;
    var t, u := Run(GENESIS, before).tables, Next(Run(GENESIS, before), e).tables;
    assert TablesAt(before + [e], |before|) == t && TablesAt(before + [e], |before| + 1) == u;
    assert CommitsJournal(before + [e], |before|, slot) <==> |u.journals| == |t.journals| + 1 && u.journals[|t.journals|].slot == slot;
  }

  lemma {:induction false} JournalClaimedExactly(events: seq<Event>, slot: nat)
    ensures SlotHasJournal(Run(GENESIS, events).tables, slot)
       <==> exists k: nat :: k < |events| && CommitsJournal(events, k, slot)
  {
    if events != [] {
      var before, e := events[..|events| - 1], events[|events| - 1];
      var w := Run(GENESIS, before);
      assert events == before + [e];
      JournalClaimedExactly(before, slot);
      hide WorldInv, Evolves, Next, SlotHasJournal, TablesAt, CommitsJournal;
      NextClaims(w, e);
      JournalCommits(before, e, slot);
      hide Run;
      HasJournalNext(w.tables, Next(w, e).tables, slot);
    }
  }

  /** A journal claim on an open slot of that identity is refused exactly if an earlier event
      claimed a journal for the slot; otherwise it commits a fresh one.  */
  lemma JournalIsGrantedExactly(events: seq<Event>, c: Claim, now: Instant)
    ensures var t := Run(GENESIS, events).tables; var tx := ClaimJournal(t, c, now);
      var matches := c.slot < |t.slots| && var s := t.slots[c.slot]; s.approval == c.approval && s.runId == c.runId && s.keyHash == c.keyHash;
      var taken := exists k: nat :: k < |events| && CommitsJournal(events, k, c.slot);
      && (!matches ==> tx == Abort(JournalBinding))
      && (matches && !t.slots[c.slot].status.SlotClaimed? ==> tx == Abort(JournalTransition))
      && (matches && t.slots[c.slot].status.SlotClaimed? && taken ==> tx == Abort(JournalTaken))
      && (matches && t.slots[c.slot].status.SlotClaimed? && !taken ==>
            var row := Journal(c.approval, c.runId, c.slot, c.keyHash, None, Claimed, None, now, None, None, None, 0);
            tx == Commit(t.(journals := t.journals + [row]), Record(|t.journals|, row)))
  {
    JournalClaimedExactly(events, c.slot);
    hide Run, SlotHasJournal, CommitsJournal;
  }

  // ----- run budgets

  lemma InitializeBinds(t: Tables, a: Approval, runId: nat, known: bool, now: Clock)
    ensures var tx := Initialize(t, a, runId, known, now); tx.Commit? ==>
      && |t.runs| <= |tx.tables.runs| <= |t.runs| + 1
      && (forall r :: 0 <= r < |t.runs| ==> tx.tables.runs[r] == t.runs[r])
      && (|tx.tables.runs| == |t.runs| + 1 ==>
            && known && a.approvedAt <= now.at < a.expiresAt
            && tx.tables.runs[|t.runs|] == RunBudget(runId, a.fingerprint, 0, 0, 0, 0, None, 0))
  {
    hide FindRun;
  }

  /** Only an initialization adds a run. */
  ghost predicate AddsRun(t: Tables, u: Tables, e: Event) {
    && |t.runs| <= |u.runs| <= |t.runs| + 1
    && (forall r :: 0 <= r < |t.runs| ==> u.runs[r].runId == t.runs[r].runId && u.runs[r].approval == t.runs[r].approval)
    && (|u.runs| == |t.runs| + 1 ==>
          && e.Client? && e.call == CallInitialize(true)
          && e.approval.approvedAt <= e.now.at < e.approval.expiresAt
          && u.runs[|t.runs|].runId == e.runId && u.runs[|t.runs|].approval == e.approval.fingerprint)
  }

  lemma ReserveAddsNone(t: Tables, a: Approval, runId: nat, keyHash: Digest, now: Clock, cost: int)
    ensures var tx := Reserve(t, a, runId, keyHash, now, cost); tx.Commit? ==> |tx.tables.runs| == |t.runs|
  {
    hide Judge;
  }

  lemma OthersAddNone(t: Tables, a: Approval, runId: nat, permit: nat, status: int, r: Record, reason: StopReason, trigger: Trigger, now: Instant)
    ensures var tx := RecordResponse(t, a, runId, permit, status, now); tx.Commit? ==> |tx.tables.runs| == |t.runs|
    ensures var tx := RecordTransportFailure(t, a, runId, permit, now); tx.Commit? ==> |tx.tables.runs| == |t.runs|
    ensures var tx := ConsumeUncertainPermit(t, r, now); tx.Commit? ==> |tx.tables.runs| == |t.runs|
    ensures var tx := StopRun(t, a, runId, reason, now, trigger); tx.Commit? ==> |tx.tables.runs| == |t.runs|
  {
    hide BreakerReason, Answered;
  }

  lemma StepAddsNone(t: Tables, p: Process, env: Env)
    ensures |Step(t, p, env).tables.runs| == |t.runs|
  {
    hide Step, AuthorizeAndStart, RecordResponse, Transactions.RecordTransportFailure, ConsumeUncertainPermit;
    BudgetStep(t, p, env);
    match p.pc
    case Authorizing(j) =>
      AuthorizeForm(t, p.approval, p.runId, j, p.keyHash, env.now, p.cost);
      ReserveAddsNone(t, p.approval, p.runId, p.keyHash, env.now, p.cost);
      hide Reserve;
    case ReleasingUnsent(_, permit) => OthersAddNone(t, p.approval, p.runId, permit, 200, AnyRecord(), Manual, BySystem, env.now.at);
    case ReleasingUnknown(_, permit) => OthersAddNone(t, p.approval, p.runId, permit, 200, AnyRecord(), Manual, BySystem, env.now.at);
    case Recording(_, permit, status) => OthersAddNone(t, p.approval, p.runId, permit, status, AnyRecord(), Manual, BySystem, env.now.at);
    case ReconcilePermit(r) => OthersAddNone(t, p.approval, p.runId, 0, 200, r, Manual, BySystem, env.now.at);
    case _ => QuietSteps(t, p, env);
  }

  function AnyRecord(): Record {
    Record(0, Journal(0, 0, 0, 0, None, Claimed, None, 0, None, None, None, 0))
  }

  lemma CallAddsRun(t: Tables, a: Approval, runId: nat, call: Call, now: Clock)
    requires Evolves(t, CallTx(t, a, runId, call, now))
    ensures AddsRun(t, CallTx(t, a, runId, call, now), Client(a, runId, call, now))
  {
    var u := CallTx(t, a, runId, call, now);
    forall r | 0 <= r < |t.runs| ensures u.runs[r].runId == t.runs[r].runId && u.runs[r].approval == t.runs[r].approval {
      assert RunEvolves(t.runs[r], u.runs[r]);
    }
    hide Evolves, Reserve, RecordResponse, RecordTransportFailure, StopRun, Initialize;
    match call
    case CallInitialize(known) => InitializeBinds(t, a, runId, known, now);
    case CallAuthorize(keyHash, cost) => ReserveAddsNone(t, a, runId, keyHash, now, cost);
    case CallResponse(permit, status) => OthersAddNone(t, a, runId, permit, status, AnyRecord(), Manual, BySystem, now.at);
    case CallTransportFailure(permit) => OthersAddNone(t, a, runId, permit, 200, AnyRecord(), Manual, BySystem, now.at);
    case CallStop(reason, trigger) => OthersAddNone(t, a, runId, 0, 200, AnyRecord(), reason, trigger, now.at);
  }

  lemma NextAddsRun(w: World, e: Event)
    requires Evolves(w.tables, Next(w, e).tables)
    ensures AddsRun(w.tables, Next(w, e).tables, e)
  {
    var t, u := w.tables, Next(w, e).tables;
    forall r | 0 <= r < |t.runs| ensures u.runs[r].runId == t.runs[r].runId && u.runs[r].approval == t.runs[r].approval {
      assert RunEvolves(t.runs[r], u.runs[r]);
    }
    if e.Act? && e.pid < |w.processes| {
      StepAddsNone(t, w.processes[e.pid], e.env);
    } else if e.Client? {
      CallAddsRun(t, e.approval, e.runId, e.call, e.now);
    }
    hide Step, CallTx, Evolves;
  }

  lemma BoundNext(t: Tables, u: Tables, e: Event, runId: nat, approval: Digest)
    requires AddsRun(t, u, e)
    ensures RunBound(u, runId, approval) <==>
      RunBound(t, runId, approval)
      || (|u.runs| == |t.runs| + 1 && u.runs[|t.runs|].runId == runId && u.runs[|t.runs|].approval == approval)
  {
    if RunBound(t, runId, approval) {
      var r :| 0 <= r < |t.runs| && t.runs[r].runId == runId && t.runs[r].approval == approval;
      assert u.runs[r].runId == runId;
    }
  }

  lemma ReachableAdds(before: seq<Event>, e: Event)
    ensures AddsRun(Run(GENESIS, before).tables, Next(Run(GENESIS, before), e).tables, e)
  {
    hide *;
    Reachable(before);
    NextKeepsWorld(Run(GENESIS, before), e);
    NextAddsRun(Run(GENESIS, before), e);
  }

  lemma RunCommits(before: seq<Event>, e: Event, runId: nat, approval: Digest)
    requires AddsRun(Run(GENESIS, before).tables, Next(Run(GENESIS, before), e).tables, e)
    ensures var t, u := Run(GENESIS, before).tables, Next(Run(GENESIS, before), e).tables;
      (exists k: nat :: k < |before + [e]| && CommitsRun(before + [e], k, runId, approval)) <==>
      (exists k: nat :: k < |before| && CommitsRun(before, k, runId, approval)) || (|u.runs| == |t.runs| + 1 && u.runs[|t.runs|].runId == runId && u.runs[|t.runs|].approval == approval)
  {
    TablesKept(before, e);
    hide Run, Next, TablesAt;
    forall k: nat | k < |before| ensures CommitsRun(before + [e], k, runId, approval) <==> CommitsRun(before, k, runId, approval) {}
    assert (before + [e])[|before|] == e;
    var t, u := Run(GENESIS, before).tables, Next(Run(GENESIS, before), e).tables;
    assert TablesAt(before + [e], |before|) == t && TablesAt(before + [e], |before| + 1) == u;
    assert CommitsRun(before + [e], |before|, runId, approval) <==> |u.runs| == |t.runs| + 1 && u.runs[|t.runs|].runId == runId && u.runs[|t.runs|].approval == approval;
  }

  /** A run is bound to an approval exactly if an earlier event initialized it under that
      approval while it was active.  */
  lemma {:induction false} RunBoundExactly(events: seq<Event>, runId: nat, approval: Digest)
    ensures RunBound(Run(GENESIS, events).tables, runId, approval)
       <==> exists k: nat :: k < |events| && CommitsRun(events, k, runId, approval)
  {
    if events != [] {
      var before, e := events[..|events| - 1], events[|events| - 1];
      var w := Run(GENESIS, before);
      assert events == before + [e];
      RunBoundExactly(before, runId, approval);
      hide WorldInv, Evolves, Next, RunBound, TablesAt, CommitsRun;
      ReachableAdds(before, e);
      RunCommits(before, e, runId, approval);
      hide Run;
      BoundNext(w.tables, Next(w, e).tables, e, runId, approval);
    }
  }

  /** In every reachable state a run is initialized exactly if the approval is active, the run
      exists and is bound to no other approval; a new run starts at zero and an old one is
      left as it is.  */
  lemma InitializedExactly(events: seq<Event>, a: Approval, runId: nat, known: bool, now: Clock)
    ensures var t := Run(GENESIS, events).tables; var tx := Initialize(t, a, runId, known, now);
      && (tx.Commit? <==>
            && a.approvedAt <= now.at < a.expiresAt && known
            && forall r :: 0 <= r < |t.runs| && t.runs[r].runId == runId ==> t.runs[r].approval == a.fingerprint)
      && (tx.Commit? ==>
            && tx.tables.runs == (if exists r :: 0 <= r < |t.runs| && t.runs[r].runId == runId then t.runs
                                  else t.runs + [RunBudget(runId, a.fingerprint, 0, 0, 0, 0, None, 0)])
            && exists d :: 0 <= d < |tx.tables.dailies| && tx.tables.dailies[d].approval == a.fingerprint
                           && tx.tables.dailies[d].day == now.day)
  {
    var t := Run(GENESIS, events).tables;
    Reachable(events);
    assert RowsOk(t);
    hide Run, WorldInv;
    InitializedByRows(t, a, runId, known, now);
  }

  lemma InitializedByRows(t: Tables, a: Approval, runId: nat, known: bool, now: Clock)
    requires RowsOk(t)
    ensures var tx := Initialize(t, a, runId, known, now);
      && (tx.Commit? <==>
            && a.approvedAt <= now.at < a.expiresAt && known
            && forall r :: 0 <= r < |t.runs| && t.runs[r].runId == runId ==> t.runs[r].approval == a.fingerprint)
      && (tx.Commit? ==>
            && tx.tables.runs == (if exists r :: 0 <= r < |t.runs| && t.runs[r].runId == runId then t.runs
                                  else t.runs + [RunBudget(runId, a.fingerprint, 0, 0, 0, 0, None, 0)])
            && exists d :: 0 <= d < |tx.tables.dailies| && tx.tables.dailies[d].approval == a.fingerprint
                           && tx.tables.dailies[d].day == now.day)
  {
    var run, tx := FindRun(t.runs, runId), Initialize(t, a, runId, known, now);
    if run < |t.runs| {
      assert forall r :: 0 <= r < |t.runs| && t.runs[r].runId == runId ==> r == run;
    }
    if tx.Commit? {
      var d := FindDaily(tx.tables.dailies, a.fingerprint, now.day);
      assert d < |tx.tables.dailies|;
    }
    hide RowsOk, FindRun;
  }
}
