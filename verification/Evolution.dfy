/** The one-way order that every committed transaction respects: rows are never
    removed, keys never change, terminal rows never change.  Whatever another
    process does between two steps of this one is bounded by this order.  */
module Evolution {
  import opened Schema
  import opened Transactions
  import opened Budget

  /** Position of a status on the journal's one-way path. */
  function Rank(s: JournalStatus): nat {
    match s
    case Claimed => 0
    case SendStarted => 1
    case Settled => 2
    case _ => 3
  }

  ghost predicate JournalEvolves(j: Journal, k: Journal) {
    || k == j
    || (&& !j.Terminal()
        && k.approval == j.approval && k.runId == j.runId && k.slot == j.slot && k.keyHash == j.keyHash
        && k.claimedAt == j.claimedAt
        && Rank(j.status) < Rank(k.status)
        && j.version < k.version
        && (j.permit.Some? ==> k.permit == j.permit && k.sendStartedAt == j.sendStartedAt)
        && (j.settledAt.Some? ==> k.settledAt == j.settledAt))
  }

  ghost predicate SlotEvolves(s: Slot, u: Slot) {
    || u == s
    || (s.status.SlotClaimed? && u == s.(status := u.status, resolvedAt := u.resolvedAt))
  }

  /** A spent permit is final; no column but the outcome ever changes. */
  ghost predicate PermitEvolves(p: Permit, q: Permit) {
    || q == p
    || (p.status.Authorized? && q == p.(status := q.status, consumedAt := q.consumedAt, response := q.response))
  }

  /** The first stop reason stands, and a stopped run is granted nothing more. */
  ghost predicate RunEvolves(r: RunBudget, s: RunBudget) {
    && s.runId == r.runId && s.approval == r.approval
    && r.requestCount <= s.requestCount
    && r.version <= s.version
    && (r.stop.Some? ==> s.stop == r.stop && s.requestCount == r.requestCount)
  }

  /** Neither requests nor costs are refunded. */
  ghost predicate DailyEvolves(d: DailyBudget, e: DailyBudget) {
    e.approval == d.approval && e.day == d.day && d.requestCount <= e.requestCount && d.cost <= e.cost
  }

  ghost predicate Evolves(t: Tables, u: Tables) {
    && |t.runs| <= |u.runs| && (forall i :: 0 <= i < |t.runs| ==> RunEvolves(t.runs[i], u.runs[i]))
    && |t.dailies| <= |u.dailies| && (forall i :: 0 <= i < |t.dailies| ==> DailyEvolves(t.dailies[i], u.dailies[i]))
    && |t.permits| <= |u.permits| && (forall i :: 0 <= i < |t.permits| ==> PermitEvolves(t.permits[i], u.permits[i]))
    && |t.slots| <= |u.slots| && (forall i :: 0 <= i < |t.slots| ==> SlotEvolves(t.slots[i], u.slots[i]))
    && |t.journals| <= |u.journals| && (forall i :: 0 <= i < |t.journals| ==> JournalEvolves(t.journals[i], u.journals[i]))
    && t.stops <= u.stops
    && t.responses <= u.responses
  }

  lemma EvolvesReflexive(t: Tables)
    ensures Evolves(t, t)
  {
  }

  lemma EvolvesTransitive(t: Tables, u: Tables, v: Tables)
    requires Evolves(t, u) && Evolves(u, v)
    ensures Evolves(t, v)
  {
    forall i | 0 <= i < |t.journals| ensures JournalEvolves(t.journals[i], v.journals[i]) {
      assert JournalEvolves(t.journals[i], u.journals[i]) && JournalEvolves(u.journals[i], v.journals[i]);
    }
    forall i | 0 <= i < |t.permits| ensures PermitEvolves(t.permits[i], v.permits[i]) {
      assert PermitEvolves(t.permits[i], u.permits[i]) && PermitEvolves(u.permits[i], v.permits[i]);
    }
    forall i | 0 <= i < |t.slots| ensures SlotEvolves(t.slots[i], v.slots[i]) {
      assert SlotEvolves(t.slots[i], u.slots[i]) && SlotEvolves(u.slots[i], v.slots[i]);
    }
    forall i | 0 <= i < |t.runs| ensures RunEvolves(t.runs[i], v.runs[i]) {
      assert RunEvolves(t.runs[i], u.runs[i]) && RunEvolves(u.runs[i], v.runs[i]);
    }
    forall i | 0 <= i < |t.dailies| ensures DailyEvolves(t.dailies[i], v.dailies[i]) {
      assert DailyEvolves(t.dailies[i], u.dailies[i]) && DailyEvolves(u.dailies[i], v.dailies[i]);
    }
  }

  // ----- each transaction

  ghost predicate Advances<R>(t: Tables, tx: Tx<R>) {
    tx.Commit? ==> Evolves(t, tx.tables)
  }

  lemma StopOnceAdvances(t: Tables, run: nat, reason: StopReason, at: Instant, trigger: Trigger)
    requires run < |t.runs|
    ensures Evolves(t, StopOnce(t, run, reason, at, trigger))
  {
    EvolvesReflexive(t);
    hide JournalEvolves, SlotEvolves, PermitEvolves, DailyEvolves;
    var u := StopOnce(t, run, reason, at, trigger);
    assert forall r :: 0 <= r < |t.runs| && r != run ==> u.runs[r] == t.runs[r];
  }

  lemma GrantAdvances(t: Tables, a: Approval, run: nat, daily: nat, keyHash: Digest, now: Clock, cost: int)
    requires run < |t.runs| && daily < |t.dailies| && cost >= 0 && t.runs[run].stop.None?
    ensures Evolves(t, GrantPermit(t, a, run, daily, keyHash, now, cost))
  {
  }

  lemma OpenDayAdvances(t: Tables, approval: Digest, day: Date)
    ensures Evolves(t, OpenDay(t, approval, day))
  {
  }

  lemma ReserveAdvances(t: Tables, a: Approval, runId: nat, keyHash: Digest, now: Clock, cost: int)
    requires cost >= 0
    ensures Advances(t, Reserve(t, a, runId, keyHash, now, cost))
  {
    var run := FindRun(t.runs, runId);
    if run < |t.runs| && t.runs[run].approval == a.fingerprint && !HasPermit(t.permits, run, keyHash) {
      var t1 := OpenDay(t, a.fingerprint, now.day);
      var daily := FindDaily(t1.dailies, a.fingerprint, now.day);
      OpenDayAdvances(t, a.fingerprint, now.day);
      var t2 := Reserve(t, a, runId, keyHash, now, cost).tables;
      assert Evolves(t1, t2) by {
        match Judge(t1, a, run, daily, now, cost)
        case Grant => GrantAdvances(t1, a, run, daily, keyHash, now, cost);
        case Stop(reason) => StopOnceAdvances(t1, run, reason, now.at, TriggerOf(reason));
        case Defer(_) => EvolvesReflexive(t1);
      }
      EvolvesTransitive(t, t1, t2);
    }
  }

  /** A reservation writes no slot and no journal. */
  lemma ReserveTouches(t: Tables, a: Approval, runId: nat, keyHash: Digest, now: Clock, cost: int)
    ensures var tx := Reserve(t, a, runId, keyHash, now, cost);
      tx.Commit? ==> tx.tables.slots == t.slots && tx.tables.journals == t.journals
  {
    hide Judge;
  }

  lemma AuthorizeAndStartAdvances(
    t: Tables, a: Approval, runId: nat, journal: nat, keyHash: Digest, now: Clock, cost: int)
    requires forall j :: 0 <= j < |t.journals| ==> JournalShape(t.journals[j])
    ensures Advances(t, AuthorizeAndStart(t, a, runId, journal, keyHash, now, cost))
  {
    var tx := AuthorizeAndStart(t, a, runId, journal, keyHash, now, cost);
    if tx.Commit? {
      var reserved := Reserve(t, a, runId, keyHash, now, cost);
      AuthorizeForm(t, a, runId, journal, keyHash, now, cost);
      ReserveAdvances(t, a, runId, keyHash, now, cost);
      ReserveTouches(t, a, runId, keyHash, now, cost);
      hide AuthorizeAndStart, Reserve, Evolves, StartSend, JournalAwaits, JournalShape;
      StartSendAdvances(reserved.tables, a, runId, journal, keyHash, tx.result, now);
      EvolvesTransitive(t, reserved.tables, tx.tables);
    }
  }

  lemma AuthorizeForm(
    t: Tables, a: Approval, runId: nat, journal: nat, keyHash: Digest, now: Clock, cost: int)
    ensures var tx := AuthorizeAndStart(t, a, runId, journal, keyHash, now, cost);
      tx.Commit? ==>
        var reserved := Reserve(t, a, runId, keyHash, now, cost);
        && cost >= 0 && reserved.Commit? && reserved.result == tx.result
        && (if tx.result.Granted? then
              JournalAwaits(reserved.tables, a, runId, journal, keyHash)
              && tx.tables == StartSend(reserved.tables, journal, tx.result.permit, now.at)
            else tx.tables == reserved.tables)
  {
    hide Reserve;
  }

  lemma StartSendAdvances(t: Tables, a: Approval, runId: nat, journal: nat, keyHash: Digest, decision: Decision, now: Clock)
    requires forall j :: 0 <= j < |t.journals| ==> JournalShape(t.journals[j])
    ensures Evolves(t, t)
    ensures decision.Granted? && JournalAwaits(t, a, runId, journal, keyHash)
      ==> Evolves(t, StartSend(t, journal, decision.permit, now.at))
  {
    EvolvesReflexive(t);
  }

  lemma RecordResponseAdvances(t: Tables, a: Approval, runId: nat, permit: nat, status: int, now: Instant)
    ensures Advances(t, RecordResponse(t, a, runId, permit, status, now))
  {
    if RecordResponse(t, a, runId, permit, status, now).Commit? {
      var p := t.permits[permit];
      var r := Answered(t.runs[p.run], status);
      var t1 := t.(permits := t.permits[permit := p.(status := Consumed, consumedAt := Some(now), response := Some(status))],
                   runs := t.runs[p.run := r],
                   responses := t.responses + [Response(p.run, status)]);
      assert Evolves(t, t1);
      var reason := BreakerReason(r);
      if reason.Some? {
        StopOnceAdvances(t1, p.run, reason.value, now, ByResponse);
        EvolvesTransitive(t, t1, StopOnce(t1, p.run, reason.value, now, ByResponse));
      }
    }
  }

  lemma ReleaseAdvances(t: Tables, permit: nat, now: Instant)
    requires permit < |t.permits| && t.permits[permit].status.Authorized? && t.permits[permit].run < |t.runs|
    ensures Evolves(t, ReleaseFailed(t, permit, now))
  {
  }

  lemma InitializeAdvances(t: Tables, a: Approval, runId: nat, known: bool, now: Clock)
    ensures Advances(t, Initialize(t, a, runId, known, now))
  {
    var begun := t.(runs := t.runs + [RunBudget(runId, a.fingerprint, 0, 0, 0, 0, None, 0)]);
    EvolvesReflexive(t);
    assert Evolves(t, begun);
    OpenDayAdvances(t, a.fingerprint, now.day);
    OpenDayAdvances(begun, a.fingerprint, now.day);
    hide Evolves, OpenDay;
    EvolvesTransitive(t, begun, OpenDay(begun, a.fingerprint, now.day));
  }

  lemma SlotsAdvance(t: Tables, c: Claim, completed: bool, now: Instant)
    ensures Advances(t, ClaimSlot(t, c.approval, c.runId, c.keyHash, now))
    ensures Advances(t, ResolveSlot(t, c, completed, now))
  {
  }

  lemma WriteAdvances(t: Tables, id: nat, j: Journal)
    requires id < |t.journals| && JournalEvolves(t.journals[id], j)
    ensures Evolves(t, t.(journals := t.journals[id := j]))
  {
  }

  lemma ClaimJournalAdvances(t: Tables, c: Claim, now: Instant)
    ensures Advances(t, ClaimJournal(t, c, now))
  {
  }
}
