/** What stands behind a completed slot and behind a root's attempt: earlier steps of the
    same process, found in the run.  */
module Verdicts {
  import opened Schema
  import opened Transactions
  import opened Evolution
  import opened Links
  import opened Protocol
  import opened ProcessInvariant
  import opened WorldInvariant
  import opened Theorems
  import opened Moves

  /** Step `k` of the run was this root's: `execute` had returned a completed journal of the
      claimed slot, and the response was accepted.  */
  ghost predicate AcceptedAt(events: seq<Event>, k: nat, pid: nat, claim: Claim)
    requires k < |events|
  {
    var w := Run(GENESIS, events[..k]);
    && events[k].Act? && events[k].pid == pid && events[k].env.ok && pid < |w.processes|
    && var p := w.processes[pid];
       && p.root && p.claim == claim && p.pc.Finishing? && p.pc.outcome.Some?
       && var r := p.pc.outcome.value.journal;
          r.row.status.Completed? && r.row.slot == claim.slot && r.id < |w.tables.journals| && w.tables.journals[r.id] == r.row
  }

  /** Step `k` of the run was this root's, and it found everything ready. */
  ghost predicate ReadyAt(events: seq<Event>, k: nat, pid: nat, claim: Claim)
    requires k < |events|
  {
    var w := Run(GENESIS, events[..k]);
    && events[k].Act? && events[k].pid == pid && events[k].env.ok && pid < |w.processes|
    && var p := w.processes[pid];
       p.root && p.claim == claim && p.pc.Preparing?
  }

  lemma Prefix(before: seq<Event>, e: Event)
    ensures (before + [e])[..|before|] == before && (before + [e])[|before|] == e
    ensures forall k: nat :: k < |before| ==> before[..k] == (before + [e])[..k] && before[k] == (before + [e])[k]
  {
  }

  // ----- where one step comes from

  lemma ArrivesResolving(t: Tables, p: Process, env: Env)
    requires Step(t, p, env).process.pc == Resolving(true)
    ensures var q := Step(t, p, env).process;
      && p.root && q.claim == p.claim && env.ok && p.pc.Finishing? && p.pc.outcome.Some?
      && p.pc.outcome.value.journal.row.status.Completed?
  {
    hide AuthorizeAndStart, RecordResponse, RecordTransportFailure, ClaimSlot, ResolveSlot, ClaimJournal,
      SettleJournal, CompleteJournal, FailJournal, MarkIndeterminate, RecoverWithoutResend,
      ConsumeUncertainPermit, MarkerVerified;
  }

  /** The points of the coordinator. */
  predicate Engaged(pc: Pc) {
    pc.ClaimingJournal? || Owned(pc).Some?
  }

  lemma ArrivesEngaged(t: Tables, p: Process, env: Env)
    requires Engaged(Step(t, p, env).process.pc)
    ensures var q := Step(t, p, env).process;
      && q.claim == p.claim && q.root == p.root
      && (Engaged(p.pc) || (p.pc.Preparing? && env.ok))
  {
    StepKeepsOwnership(t, p, env);
    StepKeepsIdentity(t, p, env);
    ArrivesClaiming(t, p, env);
    hide Step;
  }

  lemma ArrivesClaiming(t: Tables, p: Process, env: Env)
    ensures Step(t, p, env).process.pc.ClaimingJournal? ==> p.pc.Preparing? && env.ok
    ensures Step(t, p, env).process.pc.Preparing? ==> p.pc.ClaimingSlot?
  {
    hide AuthorizeAndStart, RecordResponse, RecordTransportFailure, ClaimSlot, ResolveSlot, ClaimJournal,
      SettleJournal, CompleteJournal, FailJournal, MarkIndeterminate, RecoverWithoutResend,
      ConsumeUncertainPermit, MarkerVerified;
  }

  lemma StepKeepsIdentity(t: Tables, p: Process, env: Env)
    ensures Step(t, p, env).process.root == p.root
    ensures !p.pc.ClaimingSlot? ==> Step(t, p, env).process.claim == p.claim
  {
    hide AuthorizeAndStart, RecordResponse, RecordTransportFailure, ClaimSlot, ResolveSlot, ClaimJournal,
      SettleJournal, CompleteJournal, FailJournal, MarkIndeterminate, RecoverWithoutResend,
      ConsumeUncertainPermit, MarkerVerified;
  }

  /** A process is what it was before the event, or it has just taken a step, started or died. */
  lemma Whence(w: World, e: Event, pid: nat)
    requires pid < |Next(w, e).processes|
    ensures var q := Next(w, e).processes[pid];
      || (pid < |w.processes| && q == w.processes[pid])
      || (e.Act? && e.pid == pid && pid < |w.processes| && q == Step(w.tables, w.processes[pid], e.env).process)
      || q.pc.Ended? || (CanStart(q) && pid >= |w.processes|)
  {
    hide Step, CallTx;
  }

  // ----- the verdict

  lemma {:induction false} AcceptedEarlier(events: seq<Event>, pid: nat)
    requires pid < |Run(GENESIS, events).processes| && Run(GENESIS, events).processes[pid].pc == Resolving(true)
    ensures exists k: nat :: k < |events| && AcceptedAt(events, k, pid, Run(GENESIS, events).processes[pid].claim)
  {
    if events != [] {
      var before, e := events[..|events| - 1], events[|events| - 1];
      var w, q := Run(GENESIS, before), Run(GENESIS, events).processes[pid];
      assert events == before + [e];
      Prefix(before, e);
      Whence(w, e, pid);
      hide Next, Step, AcceptedAt;
      if pid < |w.processes| && q == w.processes[pid] {
        AcceptedEarlier(before, pid);
        var k: nat :| k < |before| && AcceptedAt(before, k, pid, q.claim);
        AcceptedBefore(before, e, k, pid, q.claim);
      } else {
        AcceptedNow(before, e, q.claim);
      }
    }
  }

  lemma AcceptedBefore(before: seq<Event>, e: Event, k: nat, pid: nat, claim: Claim)
    requires k < |before| && AcceptedAt(before, k, pid, claim)
    ensures AcceptedAt(before + [e], k, pid, claim)
  {
    hide Run;
    Prefix(before, e);
  }

  lemma AcceptedNow(before: seq<Event>, e: Event, claim: Claim)
    requires e.Act? && e.pid < |Run(GENESIS, before).processes|
    requires var w := Run(GENESIS, before); var q := Step(w.tables, w.processes[e.pid], e.env).process;
      q.pc == Resolving(true) && q.claim == claim
    ensures AcceptedAt(before + [e], |before|, e.pid, claim)
  {
    var w := Run(GENESIS, before);
    Reachable(before);
    hide Run, Step;
    Prefix(before, e);
    ArrivesResolving(w.tables, w.processes[e.pid], e.env);
    ReturnedRow(w, e.pid);
    hide WorldInv;
  }

  lemma ReturnedRow(w: World, pid: nat)
    requires WorldInv(w) && pid < |w.processes| && w.processes[pid].pc.Finishing? && w.processes[pid].pc.outcome.Some?
    ensures var p := w.processes[pid]; var r := p.pc.outcome.value.journal;
      r.row.slot == p.claim.slot && r.id < |w.tables.journals| && w.tables.journals[r.id] == r.row
  {
    assert ProcessOk(w.tables, w.processes[pid]);
    hide WorldInv, Owned;
  }

  lemma ReconciledRow(w: World, pid: nat)
    requires WorldInv(w) && pid < |w.processes| && w.processes[pid].pc.ReconcileSlot?
    ensures var r := w.processes[pid].pc.record; r.id < |w.tables.journals| && w.tables.journals[r.id] == r.row
  {
    assert ProcessOk(w.tables, w.processes[pid]);
    hide WorldInv, Owned;
  }

  /** Whoever completes a slot: either its root, which earlier was returned the slot's
      completed journal and accepted the response, or a reconciler that holds the slot's
      completed journal.  */
  lemma CompletionIsEarned(events: seq<Event>, e: Event, s: nat)
    requires s < |Run(GENESIS, events + [e]).tables.slots|
    requires Run(GENESIS, events + [e]).tables.slots[s].status.SlotCompleted?
    requires var w := Run(GENESIS, events); s < |w.tables.slots| ==> !w.tables.slots[s].status.SlotCompleted?
    ensures var w := Run(GENESIS, events);
      && e.Act? && e.pid < |w.processes|
      && var p := w.processes[e.pid];
         || (&& p.pc == Resolving(true) && p.claim.slot == s
             && exists k: nat :: k < |events| && AcceptedAt(events, k, e.pid, p.claim))
         || (&& p.pc.ReconcileSlot? && p.pc.record.row.slot == s && p.pc.record.row.status.Completed?
             && p.pc.record.id < |w.tables.journals| && w.tables.journals[p.pc.record.id] == p.pc.record.row)
  {
    var w := Run(GENESIS, events);
    Prefix(events, e);
    assert Run(GENESIS, events + [e]) == Next(w, e);
    Reachable(events);
    hide Run, WorldInv, AcceptedAt, Next;
    CompletesSlot(w, e, s);
    if w.processes[e.pid].pc.Resolving? { AcceptedEarlier(events, e.pid); } else { ReconciledRow(w, e.pid); }
  }

  lemma CompletesSlot(w: World, e: Event, s: nat)
    requires s < |Next(w, e).tables.slots| && Next(w, e).tables.slots[s].status.SlotCompleted?
    requires s < |w.tables.slots| ==> !w.tables.slots[s].status.SlotCompleted?
    ensures e.Act? && e.pid < |w.processes|
    ensures var p := w.processes[e.pid];
      || (p.pc == Resolving(true) && p.claim.slot == s)
      || (p.pc.ReconcileSlot? && p.pc.record.row.slot == s && p.pc.record.row.status.Completed?)
  {
    if e.Act? && e.pid < |w.processes| {
      ActMoves(w, e.pid, e.env);
      StepMovesSlots(w.tables, w.processes[e.pid], e.env);
    } else if e.Client? {
      CallTouches(w.tables, e.approval, e.runId, e.call, e.now);
    }
    hide Step, CallTx;
  }

  // ----- the readiness

  /** A root that works on an attempt, and so calls the sender, has passed its readiness check. */
  lemma {:induction false} ReadyEarlier(events: seq<Event>, pid: nat)
    requires pid < |Run(GENESIS, events).processes|
    requires var p := Run(GENESIS, events).processes[pid]; p.root && Engaged(p.pc)
    ensures exists k: nat :: k < |events| && ReadyAt(events, k, pid, Run(GENESIS, events).processes[pid].claim)
  {
    if events != [] {
      var before, e := events[..|events| - 1], events[|events| - 1];
      var w, q := Run(GENESIS, before), Run(GENESIS, events).processes[pid];
      assert events == before + [e];
      Whence(w, e, pid);
      hide Next, Step, ReadyAt, Run;
      if pid < |w.processes| && q == w.processes[pid] {
        ReadyEarlier(before, pid);
        ReadyBefore(before, e, pid, q.claim);
      } else {
        ArrivesEngaged(w.tables, w.processes[pid], e.env);
        if Engaged(w.processes[pid].pc) {
          ReadyEarlier(before, pid);
          ReadyBefore(before, e, pid, q.claim);
        } else {
          ReadyNow(before, e, pid);
        }
      }
    }
  }

  lemma ReadyBefore(before: seq<Event>, e: Event, pid: nat, claim: Claim)
    requires exists k: nat :: k < |before| && ReadyAt(before, k, pid, claim)
    ensures exists k: nat :: k < |before + [e]| && ReadyAt(before + [e], k, pid, claim)
  {
    hide Run;
    var k: nat :| k < |before| && ReadyAt(before, k, pid, claim);
    Prefix(before, e);
    assert ReadyAt(before + [e], k, pid, claim);
  }

  lemma ReadyNow(before: seq<Event>, e: Event, pid: nat)
    requires e.Act? && e.pid == pid < |Run(GENESIS, before).processes| && e.env.ok
    requires var p := Run(GENESIS, before).processes[pid]; p.root && p.pc.Preparing?
    ensures exists k: nat :: k < |before + [e]| && ReadyAt(before + [e], k, pid, Run(GENESIS, before).processes[pid].claim)
  {
    hide Run;
    Prefix(before, e);
    assert ReadyAt(before + [e], |before|, pid, Run(GENESIS, before).processes[pid].claim);
  }
}
