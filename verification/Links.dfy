/** The joint invariant across tables: slot, journal, permit and run agree on one
    identity, and each approval owns at most one of each.  */
module Links {
  import opened Schema
  import opened Transactions
  import opened Budget
  import opened Breakers
  import opened Evolution

  ghost predicate SlotRowOk(t: Tables, s: Slot) {
    SlotShape(s) && RunBound(t, s.runId, s.approval)
  }

  ghost predicate PermitLinked(t: Tables, j: Journal, permit: nat) {
    && permit < |t.permits|
    && t.permits[permit].approval == j.approval
    && t.permits[permit].keyHash == j.keyHash
    && t.permits[permit].run < |t.runs|
    && t.runs[t.permits[permit].run].runId == j.runId
    && (j.settledAt.Some? ==> t.permits[permit].status.Consumed?)
  }

  ghost predicate JournalRowOk(t: Tables, j: Journal) {
    && JournalShape(j)
    && j.slot < |t.slots|
    && t.slots[j.slot].approval == j.approval
    && t.slots[j.slot].runId == j.runId
    && t.slots[j.slot].keyHash == j.keyHash
    && (j.permit.Some? ==> PermitLinked(t, j, j.permit.value))
  }

  ghost predicate LinkInv(t: Tables) {
    && (forall i :: 0 <= i < |t.slots| ==> SlotRowOk(t, t.slots[i]))
    && (forall i, k :: 0 <= i < k < |t.slots| ==> t.slots[i].approval != t.slots[k].approval)
    && (forall i :: 0 <= i < |t.journals| ==> JournalRowOk(t, t.journals[i]))
    && (forall i, k :: 0 <= i < k < |t.journals| ==> t.journals[i].slot != t.journals[k].slot)
    && (forall i, k :: 0 <= i < k < |t.journals| && t.journals[i].permit.Some? ==> t.journals[i].permit != t.journals[k].permit)
  }

  /** Every table constraint and every cross-table fact that all actors keep. */
  ghost predicate Good(t: Tables) {
    BudgetInv(t) && BreakerInv(t) && LinkInv(t)
  }

  /** One approval, one journal. */
  lemma OneJournalPerApproval(t: Tables, i: nat, k: nat)
    requires LinkInv(t) && i < |t.journals| && k < |t.journals|
    requires t.journals[i].approval == t.journals[k].approval
    ensures i == k
  {
    assert JournalRowOk(t, t.journals[i]) && JournalRowOk(t, t.journals[k]);
    assert t.journals[i].slot == t.journals[k].slot;
  }

  lemma RunBoundStable(t: Tables, u: Tables, runId: nat, approval: Digest)
    requires Evolves(t, u) && RunBound(t, runId, approval)
    ensures RunBound(u, runId, approval)
  {
    var i :| 0 <= i < |t.runs| && t.runs[i].runId == runId && t.runs[i].approval == approval;
    assert RunEvolves(t.runs[i], u.runs[i]);
  }

  lemma SlotRowStable(t: Tables, u: Tables, s: Slot)
    requires Evolves(t, u) && SlotRowOk(t, s)
    ensures SlotRowOk(u, s)
  {
    RunBoundStable(t, u, s.runId, s.approval);
  }

  lemma JournalRowStable(t: Tables, u: Tables, j: Journal)
    requires Evolves(t, u) && JournalRowOk(t, j)
    ensures JournalRowOk(u, j)
  {
    assert SlotEvolves(t.slots[j.slot], u.slots[j.slot]);
    if j.permit.Some? {
      var p := t.permits[j.permit.value];
      assert PermitEvolves(p, u.permits[j.permit.value]);
      assert RunEvolves(t.runs[p.run], u.runs[p.run]);
    }
  }

  lemma LinkFrame(t: Tables, u: Tables)
    requires LinkInv(t) && Evolves(t, u) && u.slots == t.slots && u.journals == t.journals
    ensures LinkInv(u)
  {
    forall i | 0 <= i < |u.slots| ensures SlotRowOk(u, u.slots[i]) { SlotRowStable(t, u, t.slots[i]); }
    forall i | 0 <= i < |u.journals| ensures JournalRowOk(u, u.journals[i]) { JournalRowStable(t, u, t.journals[i]); }
  }

  lemma AppendSlotKeepsLinks(t: Tables, s: Slot)
    requires LinkInv(t) && SlotRowOk(t, s) && !SlotTaken(t, s.approval)
    ensures LinkInv(t.(slots := t.slots + [s]))
  {
    var u := t.(slots := t.slots + [s]);
    forall i | 0 <= i < |u.slots| ensures SlotRowOk(u, u.slots[i]) {
      SlotRowStable(t, u, if i < |t.slots| then t.slots[i] else s);
    }
    forall i | 0 <= i < |u.journals| ensures JournalRowOk(u, u.journals[i]) { JournalRowStable(t, u, t.journals[i]); }
  }

  lemma WriteSlotKeepsLinks(t: Tables, id: nat, s: Slot)
    requires LinkInv(t) && id < |t.slots| && SlotEvolves(t.slots[id], s) && SlotShape(s)
    ensures LinkInv(t.(slots := t.slots[id := s]))
  {
    var u := t.(slots := t.slots[id := s]);
    forall i | 0 <= i < |u.slots| ensures SlotRowOk(u, u.slots[i]) {
      SlotRowStable(t, u, t.slots[i]);
    }
    forall i | 0 <= i < |u.journals| ensures JournalRowOk(u, u.journals[i]) { JournalRowStable(t, u, t.journals[i]); }
  }

  lemma AppendJournalKeepsLinks(t: Tables, j: Journal)
    requires LinkInv(t) && JournalRowOk(t, j) && j.permit.None? && !SlotHasJournal(t, j.slot)
    ensures LinkInv(t.(journals := t.journals + [j]))
  {
    var u := t.(journals := t.journals + [j]);
    forall i | 0 <= i < |u.slots| ensures SlotRowOk(u, u.slots[i]) { SlotRowStable(t, u, t.slots[i]); }
    forall i | 0 <= i < |u.journals| ensures JournalRowOk(u, u.journals[i]) {
      JournalRowStable(t, u, if i < |t.journals| then t.journals[i] else j);
    }
  }

  lemma WriteJournalKeepsLinks(t: Tables, id: nat, j: Journal)
    requires LinkInv(t) && id < |t.journals| && JournalRowOk(t, j)
    requires j.slot == t.journals[id].slot
    requires j.permit == t.journals[id].permit
          || forall i :: 0 <= i < |t.journals| ==> t.journals[i].permit != j.permit
    ensures LinkInv(t.(journals := t.journals[id := j]))
  {
    var u := t.(journals := t.journals[id := j]);
    forall i | 0 <= i < |u.slots| ensures SlotRowOk(u, u.slots[i]) { assert SlotRowOk(t, t.slots[i]); }
    forall i | 0 <= i < |u.journals| ensures JournalRowOk(u, u.journals[i]) {
      assert JournalRowOk(t, if i == id then j else t.journals[i]);
    }
  }

  // ----- every transaction keeps the joint invariant and moves forward

  ghost predicate Sound<R>(t: Tables, tx: Tx<R>) {
    tx.Commit? ==> Good(tx.tables) && Evolves(t, tx.tables)
  }

  lemma InitializeSound(t: Tables, a: Approval, runId: nat, known: bool, now: Clock)
    requires Good(t)
    ensures Sound(t, Initialize(t, a, runId, known, now))
  {
    var tx := Initialize(t, a, runId, known, now);
    InitializeKeepsBudget(t, a, runId, known, now);
    InitializeKeepsBreakers(t, a, runId, known, now);
    InitializeAdvances(t, a, runId, known, now);
    if tx.Commit? { LinkFrame(t, tx.tables); }
  }

  lemma AuthorizeSound(t: Tables, a: Approval, runId: nat, keyHash: Digest, now: Clock, cost: int)
    requires Good(t)
    ensures Sound(t, Authorize(t, a, runId, keyHash, now, cost))
  {
    var tx := Authorize(t, a, runId, keyHash, now, cost);
    if tx.Commit? {
      ReserveKeepsBudget(t, a, runId, keyHash, now, cost);
      ReserveKeepsBreakers(t, a, runId, keyHash, now, cost);
      ReservedKeepsLinks(t, a, runId, keyHash, now, cost);
      ReserveAdvances(t, a, runId, keyHash, now, cost);
      hide LinkInv, BudgetInv, BreakerInv, Evolves, Reserve;
    }
  }

  /** The new permit carries the journal's identity, and no journal had it before. */
  lemma GrantedPermitLinks(t: Tables, a: Approval, runId: nat, journal: nat, keyHash: Digest, now: Clock, cost: int)
    requires Good(t) && cost >= 0
    requires var tx := Reserve(t, a, runId, keyHash, now, cost);
             tx.Commit? && tx.result.Granted? && JournalAwaits(tx.tables, a, runId, journal, keyHash)
    ensures var t1 := Reserve(t, a, runId, keyHash, now, cost).tables;
            && |t1.permits| == |t.permits| + 1 && t1.journals == t.journals && t1.slots == t.slots
            && JournalRowOk(t1, StartSend(t1, journal, |t.permits|, now.at).journals[journal])
  {
    var t1 := Reserve(t, a, runId, keyHash, now, cost).tables;
    ReserveAdvances(t, a, runId, keyHash, now, cost);
    ReserveTouches(t, a, runId, keyHash, now, cost);
    JournalRowStable(t, t1, t.journals[journal]);
    assert RunEvolves(t.runs[FindRun(t.runs, runId)], t1.runs[FindRun(t.runs, runId)]);
  }

  lemma AuthorizeAndStartKeepsLinks(
    t: Tables, a: Approval, runId: nat, journal: nat, keyHash: Digest, now: Clock, cost: int)
    requires Good(t)
    ensures var tx := AuthorizeAndStart(t, a, runId, journal, keyHash, now, cost); tx.Commit? ==> LinkInv(tx.tables)
  {
    var tx := AuthorizeAndStart(t, a, runId, journal, keyHash, now, cost);
    if tx.Abort? { return; }
    var reserved := Reserve(t, a, runId, keyHash, now, cost);
    assert reserved.Commit? && cost >= 0;
    assert LinkInv(t);
    if tx.result.Granted? {
      assert JournalAwaits(reserved.tables, a, runId, journal, keyHash);
      assert tx.tables == StartSend(reserved.tables, journal, |t.permits|, now.at);
      hide *;
      StartedKeepsLinks(t, a, runId, journal, keyHash, now, cost);
    } else {
      assert tx.tables == reserved.tables;
      hide *;
      ReservedKeepsLinks(t, a, runId, keyHash, now, cost);
    }
  }

  lemma ReservedKeepsLinks(t: Tables, a: Approval, runId: nat, keyHash: Digest, now: Clock, cost: int)
    requires Good(t) && cost >= 0
    requires Reserve(t, a, runId, keyHash, now, cost).Commit?
    ensures LinkInv(Reserve(t, a, runId, keyHash, now, cost).tables)
  {
    ReserveAdvances(t, a, runId, keyHash, now, cost);
    hide BudgetInv, BreakerInv, Evolves, LinkInv;
    LinkFrame(t, Reserve(t, a, runId, keyHash, now, cost).tables);
  }

  lemma StartedKeepsLinks(t: Tables, a: Approval, runId: nat, journal: nat, keyHash: Digest, now: Clock, cost: int)
    requires Good(t) && cost >= 0
    requires var tx := Reserve(t, a, runId, keyHash, now, cost);
             tx.Commit? && tx.result.Granted? && JournalAwaits(tx.tables, a, runId, journal, keyHash)
    ensures var t1 := Reserve(t, a, runId, keyHash, now, cost).tables;
            LinkInv(StartSend(t1, journal, |t.permits|, now.at))
  {
    var t1 := Reserve(t, a, runId, keyHash, now, cost).tables;
    assert journal < |t1.journals|;
    hide *;
    ReservedKeepsLinks(t, a, runId, keyHash, now, cost);
    GrantedPermitLinks(t, a, runId, journal, keyHash, now, cost);
    FreshPermitUnbound(t);
    StartSendForm(t1, journal, |t.permits|, now.at);
    WriteJournalKeepsLinks(t1, journal, StartSend(t1, journal, |t.permits|, now.at).journals[journal]);
  }

  lemma StartSendForm(t: Tables, journal: nat, permit: nat, at: Instant)
    requires journal < |t.journals|
    ensures var u := StartSend(t, journal, permit, at);
      && |u.journals| == |t.journals| && u == t.(journals := t.journals[journal := u.journals[journal]])
      && u.journals[journal].slot == t.journals[journal].slot && u.journals[journal].permit == Some(permit)
  {
  }

  lemma FreshPermitUnbound(t: Tables)
    requires Good(t)
    ensures forall i :: 0 <= i < |t.journals| ==> t.journals[i].permit != Some(|t.permits|)
  {
    forall i | 0 <= i < |t.journals| ensures t.journals[i].permit != Some(|t.permits|) {
      assert JournalRowOk(t, t.journals[i]);
    }
  }

  lemma AuthorizeAndStartSound(
    t: Tables, a: Approval, runId: nat, journal: nat, keyHash: Digest, now: Clock, cost: int)
    requires Good(t)
    ensures Sound(t, AuthorizeAndStart(t, a, runId, journal, keyHash, now, cost))
  {
    var tx := AuthorizeAndStart(t, a, runId, journal, keyHash, now, cost);
    if tx.Abort? { return; }
    forall j | 0 <= j < |t.journals| ensures JournalShape(t.journals[j]) { assert JournalRowOk(t, t.journals[j]); }
    AuthorizeAndStartKeepsBudget(t, a, runId, journal, keyHash, now, cost);
    AuthorizeAndStartAdvances(t, a, runId, journal, keyHash, now, cost);
    AuthorizeAndStartKeepsLinks(t, a, runId, journal, keyHash, now, cost);
    ReserveKeepsBreakers(t, a, runId, keyHash, now, cost);
    BreakerFrame(Reserve(t, a, runId, keyHash, now, cost).tables, tx.tables);
  }

  lemma RecordResponseSound(t: Tables, a: Approval, runId: nat, permit: nat, status: int, now: Instant)
    requires Good(t)
    ensures Sound(t, RecordResponse(t, a, runId, permit, status, now))
  {
    var tx := RecordResponse(t, a, runId, permit, status, now);
    RecordResponseKeepsBudget(t, a, runId, permit, status, now);
    RecordResponseKeepsBreakers(t, a, runId, permit, status, now);
    RecordResponseAdvances(t, a, runId, permit, status, now);
    if tx.Commit? { LinkFrame(t, tx.tables); }
  }

  lemma ReleaseSound(t: Tables, permit: nat, now: Instant)
    requires Good(t) && permit < |t.permits| && t.permits[permit].status.Authorized?
    ensures t.permits[permit].run < |t.runs|
    ensures Good(ReleaseFailed(t, permit, now)) && Evolves(t, ReleaseFailed(t, permit, now))
  {
    ReleaseKeepsBudget(t, permit, now);
    var u := ReleaseFailed(t, permit, now);
    BreakerColumns(t, u);
    ReleaseAdvances(t, permit, now);
    LinkFrame(t, u);
  }

  lemma RecordTransportFailureSound(t: Tables, a: Approval, runId: nat, permit: nat, now: Instant)
    requires Good(t)
    ensures Sound(t, RecordTransportFailure(t, a, runId, permit, now))
  {
    if RecordTransportFailure(t, a, runId, permit, now).Commit? { ReleaseSound(t, permit, now); }
  }

  lemma ConsumeUncertainPermitSound(t: Tables, r: Record, now: Instant)
    requires Good(t)
    ensures Sound(t, ConsumeUncertainPermit(t, r, now))
  {
    var tx := ConsumeUncertainPermit(t, r, now);
    EvolvesReflexive(t);
    if tx.Commit? && tx.tables != t { ReleaseSound(t, r.row.permit.value, now); }
  }

  lemma StopRunSound(t: Tables, a: Approval, runId: nat, reason: StopReason, now: Instant, trigger: Trigger)
    requires Good(t)
    ensures Sound(t, StopRun(t, a, runId, reason, now, trigger))
  {
    var tx := StopRun(t, a, runId, reason, now, trigger);
    if tx.Commit? {
      var run := FindRun(t.runs, runId);
      StopKeepsBudget(t, run, reason, now, trigger);
      StopKeepsBreakers(t, run, reason, now, trigger);
      StopOnceAdvances(t, run, reason, now, trigger);
      LinkFrame(t, tx.tables);
    }
  }

  lemma ClaimSlotSound(t: Tables, approval: Digest, runId: nat, keyHash: Digest, now: Instant)
    requires Good(t)
    ensures Sound(t, ClaimSlot(t, approval, runId, keyHash, now))
  {
    var tx := ClaimSlot(t, approval, runId, keyHash, now);
    if tx.Commit? {
      AppendSlotKeepsLinks(t, Slot(approval, runId, keyHash, SlotClaimed, now, None));
      BudgetFrame(t, tx.tables);
      BreakerFrame(t, tx.tables);
      SlotsAdvance(t, Claim(0, approval, runId, keyHash), false, now);
    }
  }

  lemma ResolveSlotSound(t: Tables, c: Claim, completed: bool, now: Instant)
    requires Good(t)
    ensures Sound(t, ResolveSlot(t, c, completed, now))
  {
    var tx := ResolveSlot(t, c, completed, now);
    if tx.Commit? {
      WriteSlotKeepsLinks(t, c.slot, tx.tables.slots[c.slot]);
      BudgetFrame(t, tx.tables);
      BreakerFrame(t, tx.tables);
      SlotsAdvance(t, c, completed, now);
    }
  }

  lemma ClaimJournalSound(t: Tables, c: Claim, now: Instant)
    requires Good(t)
    ensures Sound(t, ClaimJournal(t, c, now))
  {
    var tx := ClaimJournal(t, c, now);
    ClaimJournalAdvances(t, c, now);
    if tx.Commit? {
      AppendJournalKeepsLinks(t, tx.result.row);
      BudgetFrame(t, tx.tables);
      BreakerFrame(t, tx.tables);
    }
  }

  /** A transaction that rewrites one journal row, one step further on its path. */
  lemma RewriteSound(t: Tables, id: nat, j: Journal)
    requires Good(t) && id < |t.journals|
    requires JournalEvolves(t.journals[id], j) && JournalRowOk(t, j) && j.permit == t.journals[id].permit
    requires j.slot == t.journals[id].slot
    ensures Sound(t, WriteJournal(t, id, j))
  {
    var u := t.(journals := t.journals[id := j]);
    WriteJournalKeepsLinks(t, id, j);
    BudgetFrame(t, u);
    BreakerFrame(t, u);
    WriteAdvances(t, id, j);
  }

  lemma SettleSound(t: Tables, id: nat, permit: nat, now: Instant)
    requires Good(t)
    ensures Sound(t, SettleJournal(t, id, permit, now))
  {
    var tx := SettleJournal(t, id, permit, now);
    if tx.Commit? {
      assert JournalRowOk(t, t.journals[id]);
      RewriteSound(t, id, tx.result.row);
    }
  }

  lemma CompleteSound(t: Tables, id: nat, now: Instant)
    requires Good(t)
    ensures Sound(t, CompleteJournal(t, id, now))
  {
    var tx := CompleteJournal(t, id, now);
    if tx.Commit? {
      assert JournalRowOk(t, t.journals[id]);
      RewriteSound(t, id, tx.result.row);
    }
  }

  lemma FailSound(t: Tables, id: nat, code: FailureCode, now: Instant)
    requires Good(t)
    ensures Sound(t, FailJournal(t, id, code, now))
  {
    var tx := FailJournal(t, id, code, now);
    if tx.Commit? {
      assert JournalRowOk(t, t.journals[id]);
      RewriteSound(t, id, tx.result.row);
    }
  }

  lemma MarkIndeterminateSound(t: Tables, id: nat, code: FailureCode, now: Instant)
    requires Good(t)
    ensures Sound(t, MarkIndeterminate(t, id, code, now))
  {
    var tx := MarkIndeterminate(t, id, code, now);
    if tx.Commit? {
      assert JournalRowOk(t, t.journals[id]);
      RewriteSound(t, id, tx.result.row);
    }
  }

  lemma RecoverSound(t: Tables, id: nat, now: Instant)
    requires Good(t)
    ensures Sound(t, RecoverWithoutResend(t, id, now))
  {
    var tx := RecoverWithoutResend(t, id, now);
    if tx.Commit? {
      assert JournalRowOk(t, t.journals[id]);
      if tx.tables == t { EvolvesReflexive(t); } else { RewriteSound(t, id, tx.result.row); }
    }
  }
}
