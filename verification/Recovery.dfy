/** Reconciliation of one journal, uninterrupted or interrupted and started over. */
module Recovery {
  import opened Schema
  import opened Transactions
  import opened Budget
  import opened Evolution
  import opened Links
  import opened Protocol
  import opened ProcessInvariant
  import opened WorldInvariant
  import opened Theorems

  /** The end of one `reconcile` call: it returned, or it raised. */
  datatype Outcome = Done(tables: Tables, record: Record, slot: SlotStatus) | Broke(tables: Tables)

  function Reconcile(t: Tables, id: nat, now: Instant): Outcome {
    match RecoverWithoutResend(t, id, now)
    case Abort(_) => Broke(t)
    case Commit(t1, r) =>
      match ConsumeUncertainPermit(t1, r, now)
      case Abort(_) => Broke(t1)
      case Commit(t2, _) =>
        var target := SlotTarget(r.row.status.Completed?);
        match ResolveSlot(t2, ClaimOf(r), r.row.status.Completed?, now)
        case Commit(t3, _) => Done(t3, r, target)
        case Abort(_) => if ReadSlotStatus(t2, ClaimOf(r)) == Some(target) then Done(t2, r, target) else Broke(t2)
  }

  /** The tables left by a `reconcile` that died after `steps` of its transactions. */
  function Interrupted(t: Tables, id: nat, now: Instant, steps: nat): Tables {
    if steps == 0 then t
    else
      match RecoverWithoutResend(t, id, now)
      case Abort(_) => t
      case Commit(t1, r) =>
        if steps == 1 then t1
        else
          match ConsumeUncertainPermit(t1, r, now)
          case Abort(_) => t1
          case Commit(t2, _) => if steps == 2 then t2 else Reconcile(t, id, now).tables
  }

  /** The slot was already resolved against its journal. */
  predicate Opposed(t: Tables, id: nat)
    requires id < |t.journals| && t.journals[id].slot < |t.slots|
  {
    var s := t.slots[t.journals[id].slot].status;
    !s.SlotClaimed? && s != SlotTarget(t.journals[id].status.Completed?)
  }

  // ----- the three transactions on good tables

  /** The journal row once recovered. */
  function RecoveredRow(j: Journal, now: Instant): Journal {
    if j.Terminal() then j
    else
      j.(status := if j.status.SendStarted? then Indeterminate else Failed,
         failure := Some(match j.status
                         case SendStarted => RecoveryUnknownExternalEffect
                         case Claimed => RecoveryBeforeSend
                         case _ => RecoveryAfterSettlement),
         resolvedAt := Some(now),
         version := j.version + 1)
  }

  lemma RecoverShape(t: Tables, id: nat, now: Instant)
    requires Good(t) && id < |t.journals|
    ensures var row := RecoveredRow(t.journals[id], now);
            var u := t.(journals := t.journals[id := row]);
            && RecoverWithoutResend(t, id, now) == Commit(u, Record(id, row))
            && Good(u) && RecordStands(u, Record(id, row))
            && row.slot < |t.slots| && SlotMatches(t, ClaimOf(Record(id, row)))
  {
    assert JournalRowOk(t, t.journals[id]);
    assert SlotMatches(t, ClaimOf(Record(id, RecoveredRow(t.journals[id], now)))) && t.journals[id].slot < |t.slots|;
    hide Good;
    RecoveredIs(t, id, now);
    RecoverSound(t, id, now);
    hide RecoverWithoutResend;
    SoundMeans(t, RecoverWithoutResend(t, id, now));
  }

  lemma RecoveredIs(t: Tables, id: nat, now: Instant)
    requires id < |t.journals|
    ensures var row := RecoveredRow(t.journals[id], now);
            && RecoverWithoutResend(t, id, now) == Commit(t.(journals := t.journals[id := row]), Record(id, row))
            && row.Terminal() && row.slot == t.journals[id].slot
  {
    var row := RecoveredRow(t.journals[id], now);
    if t.journals[id].Terminal() { assert t.(journals := t.journals[id := row]) == t; }
  }

  /** The permit that recovery has to release, if there is one. */
  predicate Releases(t: Tables, row: Journal) {
    && row.permit.Some? && !row.status.Completed?
    && row.permit.value < |t.permits| && t.permits[row.permit.value].status.Authorized?
    && t.permits[row.permit.value].run < |t.runs|
  }

  lemma ConsumeShape(t: Tables, r: Record, now: Instant)
    requires Good(t) && RecordStands(t, r)
    ensures ConsumeUncertainPermit(t, r, now)
         == Commit(if Releases(t, r.row) then ReleaseFailed(t, r.row.permit.value, now) else t, ())
  {
    if r.row.permit.Some? { ReconcilerPermitUsable(t, r); }
  }

  /** All of `reconcile` in one expression: recover the row, release its permit,
      resolve its slot if it is still open.  */
  function Target(t: Tables, id: nat, now: Instant): Tables
    requires id < |t.journals| && t.journals[id].slot < |t.slots|
  {
    var row := RecoveredRow(t.journals[id], now);
    var t1 := t.(journals := t.journals[id := row]);
    var t2 := if Releases(t1, row) then ReleaseFailed(t1, row.permit.value, now) else t1;
    if t2.slots[row.slot].status.SlotClaimed? then
      t2.(slots := t2.slots[row.slot :=
        t2.slots[row.slot].(status := SlotTarget(row.status.Completed?), resolvedAt := Some(now))])
    else t2
  }

  lemma ReconcileReachesTarget(t: Tables, id: nat, now: Instant)
    requires Good(t) && id < |t.journals|
    ensures t.journals[id].slot < |t.slots|
    ensures Reconcile(t, id, now).tables == Target(t, id, now)
    ensures Reconcile(t, id, now).Done? <==> !Opposed(t, id)
    ensures Reconcile(t, id, now).Done? ==>
              && Reconcile(t, id, now).record == Record(id, RecoveredRow(t.journals[id], now))
              && Reconcile(t, id, now).slot == SlotTarget(t.journals[id].status.Completed?)
  {
    RecoverShape(t, id, now);
    var row := RecoveredRow(t.journals[id], now);
    ConsumeShape(t.(journals := t.journals[id := row]), Record(id, row), now);
    hide Good;
  }

  /** Convergence, exactly: `reconcile` returns unless the slot was resolved against
      the journal; either way the journal ends terminal and its permit is not left
      authorized, and when it returns the slot is completed iff the journal is.  */
  lemma ReconcileConverges(events: seq<Event>, id: nat, now: Instant)
    requires id < |Run(GENESIS, events).tables.journals|
    ensures var t := Run(GENESIS, events).tables; var out := Reconcile(t, id, now);
            && t.journals[id].slot < |t.slots|
            && (out.Done? <==> !Opposed(t, id))
            && id < |out.tables.journals| && t.journals[id].slot < |out.tables.slots|
            && out.tables.journals[id].Terminal()
            && (out.tables.journals[id].permit.Some? ==>
                  && out.tables.journals[id].permit.value < |out.tables.permits|
                  && !out.tables.permits[out.tables.journals[id].permit.value].status.Authorized?)
            && (out.Done? ==>
                  && !out.tables.slots[t.journals[id].slot].status.SlotClaimed?
                  && (out.tables.slots[t.journals[id].slot].status.SlotCompleted? <==>
                      out.tables.journals[id].status.Completed?))
  {
    Reachable(events);
    hide WorldInv, Run, Reconcile;
    ConvergesFrom(Run(GENESIS, events).tables, id, now);
  }

  lemma ConvergesFrom(t: Tables, id: nat, now: Instant)
    requires Good(t) && id < |t.journals|
    ensures var out := Reconcile(t, id, now);
            && t.journals[id].slot < |t.slots|
            && (out.Done? <==> !Opposed(t, id))
            && id < |out.tables.journals| && t.journals[id].slot < |out.tables.slots|
            && out.tables.journals[id].Terminal()
            && (out.tables.journals[id].permit.Some? ==>
                  && out.tables.journals[id].permit.value < |out.tables.permits|
                  && !out.tables.permits[out.tables.journals[id].permit.value].status.Authorized?)
            && (out.Done? ==>
                  && !out.tables.slots[t.journals[id].slot].status.SlotClaimed?
                  && (out.tables.slots[t.journals[id].slot].status.SlotCompleted? <==>
                      out.tables.journals[id].status.Completed?))
  {
    hide *;
    ReconcileReachesTarget(t, id, now);
    RecoverShape(t, id, now);
    var row := RecoveredRow(t.journals[id], now);
    var t1 := t.(journals := t.journals[id := row]);
    PermitOfRow(t1, Record(id, row));
    TargetMeets(t, id, now);
  }

  lemma PermitOfRow(t: Tables, r: Record)
    requires Good(t) && RecordStands(t, r)
    ensures r.row.permit.Some? ==>
      && r.row.permit.value < |t.permits|
      && (t.permits[r.row.permit.value].status.Authorized? ==>
            t.permits[r.row.permit.value].run < |t.runs| && !r.row.status.Completed?)
  {
    if r.row.permit.Some? {
      ReconcilerPermitUsable(t, r);
      assert JournalRowOk(t, t.journals[r.id]);
    }
  }

  /** What the target tables show, from what is known of the recovered row's permit. */
  lemma TargetMeets(t: Tables, id: nat, now: Instant)
    requires id < |t.journals| && t.journals[id].slot < |t.slots|
    requires var row := RecoveredRow(t.journals[id], now);
      row.permit.Some? ==>
        && row.permit.value < |t.permits|
        && (t.permits[row.permit.value].status.Authorized? ==>
              t.permits[row.permit.value].run < |t.runs| && !row.status.Completed?)
    ensures var u := Target(t, id, now);
            && id < |u.journals| && t.journals[id].slot < |u.slots| && u.journals[id].Terminal()
            && (u.journals[id].permit.Some? ==>
                  && u.journals[id].permit.value < |u.permits|
                  && !u.permits[u.journals[id].permit.value].status.Authorized?)
            && (!Opposed(t, id) ==>
                  && !u.slots[t.journals[id].slot].status.SlotClaimed?
                  && (u.slots[t.journals[id].slot].status.SlotCompleted? <==> u.journals[id].status.Completed?))
  {
  }

  /** A second reconcile, at any later time, changes nothing and says the same. */
  lemma ReconcileIsIdempotent(events: seq<Event>, id: nat, now: Instant, later: Instant)
    requires id < |Run(GENESIS, events).tables.journals|
    requires Reconcile(Run(GENESIS, events).tables, id, now).Done?
    ensures var out := Reconcile(Run(GENESIS, events).tables, id, now);
            Reconcile(out.tables, id, later) == out
  {
    Reachable(events);
    hide WorldInv, Run, Reconcile;
    IdempotentFrom(Run(GENESIS, events).tables, id, now, later);
  }

  lemma IdempotentFrom(t: Tables, id: nat, now: Instant, later: Instant)
    requires Good(t) && id < |t.journals| && Reconcile(t, id, now).Done?
    ensures var out := Reconcile(t, id, now); Reconcile(out.tables, id, later) == out
  {
    hide Good, Reconcile;
    ReconcileSound(t, id, now);
    ReconcileReachesTarget(t, id, now);
    TargetIsFixed(t, id, now, later);
    ReconcileReachesTarget(Target(t, id, now), id, later);
    TargetRow(t, id, now, later);
    hide Target, RecoveredRow;
  }

  lemma TargetRow(t: Tables, id: nat, now: Instant, later: Instant)
    requires id < |t.journals| && t.journals[id].slot < |t.slots|
    ensures id < |Target(t, id, now).journals|
    ensures var row := Target(t, id, now).journals[id];
      && row == RecoveredRow(t.journals[id], now) == RecoveredRow(row, later)
      && (row.status.Completed? <==> t.journals[id].status.Completed?)
  {
  }

  lemma ReconcileSound(t: Tables, id: nat, now: Instant)
    requires Good(t) && id < |t.journals|
    ensures Good(Reconcile(t, id, now).tables)
  {
    var r := Record(id, RecoveredRow(t.journals[id], now));
    var t1 := t.(journals := t.journals[id := r.row]);
    hide *;
    RecoverShape(t, id, now);
    ConsumeUncertainPermitSound(t1, r, now);
    var tx := ConsumeUncertainPermit(t1, r, now);
    if tx.Commit? { ResolveSlotSound(tx.tables, ClaimOf(r), r.row.status.Completed?, now); }
    ReconcileTables(t, id, now, t1, r);
    SoundMeans(t1, tx);
    if tx.Commit? { SoundMeans(tx.tables, ResolveSlot(tx.tables, ClaimOf(r), r.row.status.Completed?, now)); }
  }

  lemma SoundMeans<R>(t: Tables, tx: Tx<R>)
    requires Sound(t, tx)
    ensures tx.Commit? ==> Good(tx.tables)
  {
    hide Good;
  }

  /** The tables that `reconcile` leaves, transaction by transaction. */
  lemma ReconcileTables(t: Tables, id: nat, now: Instant, t1: Tables, r: Record)
    requires RecoverWithoutResend(t, id, now) == Commit(t1, r)
    ensures Reconcile(t, id, now).tables ==
      match ConsumeUncertainPermit(t1, r, now)
      case Abort(_) => t1
      case Commit(t2, _) =>
        match ResolveSlot(t2, ClaimOf(r), r.row.status.Completed?, now)
        case Commit(t3, _) => t3
        case Abort(_) => t2
  {
    hide RecoverWithoutResend, ConsumeUncertainPermit, ResolveSlot, ReadSlotStatus, ClaimOf;
  }

  lemma TargetIsFixed(t: Tables, id: nat, now: Instant, later: Instant)
    requires id < |t.journals| && t.journals[id].slot < |t.slots| && Good(t)
    ensures var u := Target(t, id, now);
            id < |u.journals| && u.journals[id].slot < |u.slots| && Target(u, id, later) == u
  {
    assert JournalRowOk(t, t.journals[id]);
    hide Good;
    var u := Target(t, id, now);
    assert u.journals[id := u.journals[id]] == u.journals;
  }

  // ----- interruption

  function Rewound(at: Option<Instant>): Option<Instant> {
    if at.Some? then Some(0) else None
  }

  /** The tables without the time stamps that recovery writes. */
  predicate SameButForTimes(t: Tables, u: Tables) {
    && t.runs == u.runs && t.dailies == u.dailies && t.stops == u.stops && t.responses == u.responses
    && |t.permits| == |u.permits| && |t.slots| == |u.slots| && |t.journals| == |u.journals|
    && (forall i | 0 <= i < |t.permits| ::
          t.permits[i].(consumedAt := Rewound(t.permits[i].consumedAt)) == u.permits[i].(consumedAt := Rewound(u.permits[i].consumedAt)))
    && (forall i | 0 <= i < |t.slots| ::
          t.slots[i].(resolvedAt := Rewound(t.slots[i].resolvedAt)) == u.slots[i].(resolvedAt := Rewound(u.slots[i].resolvedAt)))
    && (forall i | 0 <= i < |t.journals| ::
          t.journals[i].(resolvedAt := Rewound(t.journals[i].resolvedAt)) == u.journals[i].(resolvedAt := Rewound(u.journals[i].resolvedAt)))
  }

  /** The tables after the first transaction, and after the second. */
  function FirstStage(t: Tables, id: nat, now: Instant): Tables
    requires id < |t.journals|
  {
    t.(journals := t.journals[id := RecoveredRow(t.journals[id], now)])
  }

  function SecondStage(t: Tables, id: nat, now: Instant): Tables
    requires id < |t.journals|
  {
    var row, t1 := RecoveredRow(t.journals[id], now), FirstStage(t, id, now);
    if Releases(t1, row) then ReleaseFailed(t1, row.permit.value, now) else t1
  }

  lemma InterruptedStages(t: Tables, id: nat, now: Instant, steps: nat)
    requires Good(t) && id < |t.journals|
    ensures t.journals[id].slot < |t.slots|
    ensures Interrupted(t, id, now, steps)
         == if steps == 0 then t else if steps == 1 then FirstStage(t, id, now)
            else if steps == 2 then SecondStage(t, id, now) else Target(t, id, now)
    ensures Good(Interrupted(t, id, now, steps))
  {
    RecoverShape(t, id, now);
    ReconcileSound(t, id, now);
    ReconcileReachesTarget(t, id, now);
    var r := Record(id, RecoveredRow(t.journals[id], now));
    ConsumeShape(FirstStage(t, id, now), r, now);
    ConsumeUncertainPermitSound(FirstStage(t, id, now), r, now);
    hide Good, ReleaseFailed, Reconcile;
  }

  lemma RecoveredTwice(j: Journal, first: Instant, second: Instant)
    ensures RecoveredRow(RecoveredRow(j, first), second) == RecoveredRow(j, first)
    ensures RecoveredRow(j, first).(resolvedAt := Rewound(RecoveredRow(j, first).resolvedAt))
         == RecoveredRow(j, second).(resolvedAt := Rewound(RecoveredRow(j, second).resolvedAt))
  {
  }

  /** The second stage from the start and from the first stage, at any times. */
  lemma SecondStageAgrees(t: Tables, id: nat, first: Instant, second: Instant, third: Instant)
    requires id < |t.journals|
    ensures SameButForTimes(SecondStage(t, id, second), SecondStage(t, id, third))
    ensures SameButForTimes(SecondStage(FirstStage(t, id, first), id, second), SecondStage(t, id, third))
  {
    RecoveredTwice(t.journals[id], first, second);
    RecoveredTwice(t.journals[id], first, third);
    RecoveredTwice(t.journals[id], second, third);
    assert FirstStage(FirstStage(t, id, first), id, second) == FirstStage(t, id, first);
  }

  lemma SecondStageIsFixed(t: Tables, id: nat, first: Instant, second: Instant)
    requires id < |t.journals|
    ensures SecondStage(SecondStage(t, id, first), id, second) == SecondStage(t, id, first)
  {
    var u := SecondStage(t, id, first);
    RecoveredTwice(t.journals[id], first, second);
    assert u.journals[id] == RecoveredRow(t.journals[id], first);
    assert u.journals[id := u.journals[id]] == u.journals;
    assert FirstStage(u, id, second) == u;
  }

  function LastStage(t: Tables, id: nat, now: Instant): Tables
    requires id < |t.journals| && t.journals[id].slot < |t.slots|
  {
    var row := t.journals[id];
    if t.slots[row.slot].status.SlotClaimed? then
      t.(slots := t.slots[row.slot :=
        t.slots[row.slot].(status := SlotTarget(row.status.Completed?), resolvedAt := Some(now))])
    else t
  }

  lemma TargetStages(t: Tables, id: nat, now: Instant)
    requires id < |t.journals| && t.journals[id].slot < |t.slots|
    ensures var u := SecondStage(t, id, now);
            id < |u.journals| && u.journals[id].slot < |u.slots| && Target(t, id, now) == LastStage(u, id, now)
  {
  }

  lemma LastStageAgrees(u: Tables, v: Tables, id: nat, second: Instant, third: Instant)
    requires SameButForTimes(u, v) && id < |u.journals| && u.journals[id].slot < |u.slots|
    ensures v.journals[id].slot < |v.slots|
    ensures SameButForTimes(LastStage(u, id, second), LastStage(v, id, third))
  {
    assert u.journals[id].(resolvedAt := Rewound(u.journals[id].resolvedAt))
        == v.journals[id].(resolvedAt := Rewound(v.journals[id].resolvedAt));
    var slot := u.journals[id].slot;
    assert u.slots[slot].(resolvedAt := Rewound(u.slots[slot].resolvedAt))
        == v.slots[slot].(resolvedAt := Rewound(v.slots[slot].resolvedAt));
  }

  /** Reconciling from any stage ends in the same state as from the start. */
  lemma StagesAgree(t: Tables, id: nat, first: Instant, second: Instant, third: Instant, steps: nat)
    requires Good(t) && id < |t.journals|
    ensures var u := Interrupted(t, id, first, steps);
            && t.journals[id].slot < |t.slots|
            && id < |u.journals| && u.journals[id].slot < |u.slots|
            && SameButForTimes(Target(u, id, second), Target(t, id, third))
            && Opposed(u, id) == Opposed(t, id)
  {
    InterruptedStages(t, id, first, steps);
    TargetIsFixed(t, id, first, second);
    hide Good;
    SecondStageAgrees(t, id, first, second, third);
    SecondStageAgrees(t, id, first, first, third);
    SecondStageIsFixed(t, id, first, second);
    TargetStages(t, id, first);
    TargetStages(t, id, third);
    LastStageAgrees(SecondStage(t, id, first), SecondStage(t, id, third), id, first, third);
    LastStageAgrees(SecondStage(t, id, first), SecondStage(t, id, third), id, second, third);
    TargetStages(Interrupted(t, id, first, steps), id, second);
    var u := SecondStage(Interrupted(t, id, first, steps), id, second);
    if steps < 2 { LastStageAgrees(u, SecondStage(t, id, third), id, second, third); }
    StageOpposed(t, id, first);
    hide SecondStage, FirstStage, LastStage, SameButForTimes, Target;
  }

  lemma StageOpposed(t: Tables, id: nat, now: Instant)
    requires id < |t.journals| && t.journals[id].slot < |t.slots|
    ensures Opposed(FirstStage(t, id, now), id) == Opposed(t, id)
    ensures Opposed(SecondStage(t, id, now), id) == Opposed(t, id)
    ensures Opposed(Target(t, id, now), id) == Opposed(t, id)
  {
  }

  /** Dying after any prefix of the transactions and reconciling again ends in the
      same state, up to time stamps, as one uninterrupted reconcile.  */
  lemma InterruptionIsHarmless(events: seq<Event>, id: nat, first: Instant, second: Instant, third: Instant, steps: nat)
    requires id < |Run(GENESIS, events).tables.journals|
    ensures var t := Run(GENESIS, events).tables;
            var restarted := Reconcile(Interrupted(t, id, first, steps), id, second);
            && SameButForTimes(restarted.tables, Reconcile(t, id, third).tables)
            && restarted.Done? == Reconcile(t, id, third).Done?
  {
    Reachable(events);
    hide WorldInv, Run, Reconcile, Interrupted, SameButForTimes;
    HarmlessFrom(Run(GENESIS, events).tables, id, first, second, third, steps);
  }

  lemma HarmlessFrom(t: Tables, id: nat, first: Instant, second: Instant, third: Instant, steps: nat)
    requires Good(t) && id < |t.journals|
    ensures var restarted := Reconcile(Interrupted(t, id, first, steps), id, second);
            && SameButForTimes(restarted.tables, Reconcile(t, id, third).tables)
            && restarted.Done? == Reconcile(t, id, third).Done?
  {
    hide Good, Reconcile, Interrupted, SameButForTimes, Target, RecoveredRow;
    InterruptedStages(t, id, first, steps);
    ReconcileReachesTarget(t, id, third);
    StagesAgree(t, id, first, second, third, steps);
    ReconcileReachesTarget(Interrupted(t, id, first, steps), id, second);
  }
}
