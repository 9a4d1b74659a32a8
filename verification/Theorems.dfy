/** What the protocol promises, over every run of every mix of processes: any
    interleaving, any crash, any lost or ambiguous commit, any clock.  */
module Theorems {
  import opened Schema
  import opened Transactions
  import opened Budget
  import opened Evolution
  import opened Links
  import opened Protocol
  import opened ProcessInvariant
  import opened WorldInvariant

  /** At most one call to the sender, and at most one fetch, per approval. */
  lemma AtMostOneSend(events: seq<Event>)
    ensures var w := Run(GENESIS, events);
            && (forall i, k :: 0 <= i < k < |w.sent| ==> w.sent[i].approval != w.sent[k].approval)
            && (forall i, k :: 0 <= i < k < |w.fetched| ==> w.fetched[i].approval != w.fetched[k].approval)
  {
    var w := Run(GENESIS, events);
    Reachable(events);
    forall i, k | 0 <= i < k < |w.sent| ensures w.sent[i].approval != w.sent[k].approval {
      assert MarkOk(w.tables, w.sent[i]) && MarkOk(w.tables, w.sent[k]);
      if w.sent[i].approval == w.sent[k].approval {
        OneJournalPerApproval(w.tables, w.sent[i].journal, w.sent[k].journal);
      }
    }
    forall i, k | 0 <= i < k < |w.fetched| ensures w.fetched[i].approval != w.fetched[k].approval {
      assert FetchOk(w, w.fetched[i]) && FetchOk(w, w.fetched[k]);
      if w.fetched[i].approval == w.fetched[k].approval {
        OneJournalPerApproval(w.tables, w.fetched[i].journal, w.fetched[k].journal);
      }
    }
  }

  /** Write-ahead intent: a call is made only on a journal that durably holds a start
      time and a counted permit of the same approval and request.  */
  lemma IntentIsDurableFirst(events: seq<Event>, pid: nat, env: Env)
    ensures var w, v := Run(GENESIS, events), Run(GENESIS, events + [Act(pid, env)]);
            v.sent != w.sent ==>
              && |v.sent| == |w.sent| + 1
              && var m := v.sent[|w.sent|];
                 && m.journal < |w.tables.journals| && m.permit < |w.tables.permits|
                 && var j, p := w.tables.journals[m.journal], w.tables.permits[m.permit];
                    && j.sendStartedAt.Some? && j.permit == Some(m.permit)
                    && (j.status.SendStarted? || j.status.Indeterminate?)
                    && p.approval == j.approval && p.keyHash == j.keyHash
                    && p.run < |w.tables.runs| && w.tables.runs[p.run].requestCount >= p.sequence >= 1
  {
    var w, v := Run(GENESIS, events), Run(GENESIS, events + [Act(pid, env)]);
    assert (events + [Act(pid, env)])[..|events|] == events;
    Reachable(events);
    if pid < |w.processes| {
      var p := w.processes[pid];
      assert ProcessOk(w.tables, p) && Unsettled(w.tables, p);
      StepEffects(w.tables, p, env);
      if p.pc.Calling? {
        StartedJournal(w.tables, p);
        CountedPermit(w.tables, p.pc.journal);
      }
      hide WorldInv, ProcessOk, Unsettled;
    }
  }

  /** The permit bound to a journal is one of the counted requests of its run. */
  lemma CountedPermit(t: Tables, j: nat)
    requires Good(t) && j < |t.journals| && t.journals[j].permit.Some?
    ensures PermitLinked(t, t.journals[j], t.journals[j].permit.value)
    ensures var p := t.permits[t.journals[j].permit.value];
            1 <= p.sequence <= t.runs[p.run].requestCount
  {
    assert JournalRowOk(t, t.journals[j]);
    var permit := t.journals[j].permit.value;
    SequencesAreExact(t, t.permits[permit].run, t.permits[permit].sequence);
  }

  /** A journal that failed without a permit is proof, for ever, that nothing was
      and nothing will be sent for its approval.  */
  lemma NoSendEvidenceIsForever(events: seq<Event>, more: seq<Event>, j: nat)
    requires var t := Run(GENESIS, events).tables;
             j < |t.journals| && t.journals[j].status.Failed? && t.journals[j].permit.None?
    ensures var w := Run(Run(GENESIS, events), more);
            forall i :: 0 <= i < |w.sent| ==> w.sent[i].approval != Run(GENESIS, events).tables.journals[j].approval
  {
    var t := Run(GENESIS, events).tables;
    var w := Run(Run(GENESIS, events), more);
    Reachable(events);
    RunKeepsWorld(Run(GENESIS, events), more);
    assert JournalEvolves(t.journals[j], w.tables.journals[j]);
    forall i | 0 <= i < |w.sent| ensures w.sent[i].approval != t.journals[j].approval {
      assert MarkOk(w.tables, w.sent[i]);
      if w.sent[i].approval == t.journals[j].approval {
        OneJournalPerApproval(w.tables, w.sent[i].journal, j);
      }
    }
  }

  /** A completed journal means one call, one fetch, and a permit consumed with the
      success status that the network answered.  */
  lemma CompletedMeansOneSuccess(events: seq<Event>, j: nat)
    requires j < |Run(GENESIS, events).tables.journals| && Run(GENESIS, events).tables.journals[j].status.Completed?
    ensures var w := Run(GENESIS, events);
            && (exists i :: 0 <= i < |w.sent| && w.sent[i].journal == j)
            && (forall i, k :: 0 <= i < |w.sent| && 0 <= k < |w.sent| && w.sent[i].journal == j == w.sent[k].journal ==> i == k)
            && (exists i :: 0 <= i < |w.fetched| && w.fetched[i].journal == j)
            && w.tables.journals[j].permit.Some? && w.tables.journals[j].permit.value < |w.tables.permits|
            && var p := w.tables.permits[w.tables.journals[j].permit.value];
               p.status.Consumed? && p.response.Some? && 200 <= p.response.value < 300
               && HasAnswer(w.answers, j, p.response.value)
  {
    var w := Run(GENESIS, events);
    Reachable(events);
    assert CompletedOk(w.tables, j) && SettledOk(w, j) && JournalRowOk(w.tables, w.tables.journals[j]);
    assert LogsOk(w);
    hide Run, WorldInv, LogsOk;
    AnsweredOnce(w, j, w.tables.permits[w.tables.journals[j].permit.value].response.value);
  }

  /** Behind an answer stand one fetch and one call. */
  lemma AnsweredOnce(w: World, j: nat, status: int)
    requires LogsOk(w) && HasAnswer(w.answers, j, status)
    ensures exists i :: 0 <= i < |w.sent| && w.sent[i].journal == j
    ensures forall i, k :: 0 <= i < |w.sent| && 0 <= k < |w.sent| && w.sent[i].journal == j == w.sent[k].journal ==> i == k
    ensures exists i :: 0 <= i < |w.fetched| && w.fetched[i].journal == j
  {
    var i :| 0 <= i < |w.answers| && w.answers[i] == (j, status);
    assert Called(w.fetched, w.answers[i].0);
    var f :| 0 <= f < |w.fetched| && w.fetched[f].journal == j;
    assert FetchOk(w, w.fetched[f]);
  }

  /** A slot is completed only if its journal is. */
  lemma CompletedSlotHasCompletedJournal(events: seq<Event>, s: nat)
    requires s < |Run(GENESIS, events).tables.slots| && Run(GENESIS, events).tables.slots[s].status.SlotCompleted?
    ensures exists j :: 0 <= j < |Run(GENESIS, events).tables.journals|
                     && Run(GENESIS, events).tables.journals[j].slot == s
                     && Run(GENESIS, events).tables.journals[j].status.Completed?
  {
    Reachable(events);
    assert SlotJournalCompleted(Run(GENESIS, events).tables, s);
  }

  /** When `execute` returns, whatever interfered, its journal is terminal, and the
      row it reports is the row that stands from then on.  */
  lemma ReturnedResultIsFinal(events: seq<Event>, more: seq<Event>, pid: nat)
    requires var w := Run(GENESIS, events);
             pid < |w.processes| && w.processes[pid].pc.Finishing? && w.processes[pid].pc.outcome.Some?
    ensures var r := Run(GENESIS, events).processes[pid].pc.outcome.value.journal;
            && r.row.Terminal()
            && r.id < |Run(Run(GENESIS, events), more).tables.journals|
            && Run(Run(GENESIS, events), more).tables.journals[r.id] == r.row
  {
    var w := Run(GENESIS, events);
    Reachable(events);
    RunKeepsWorld(w, more);
    assert ProcessOk(w.tables, w.processes[pid]);
    hide *;
    ReportStands(w.tables, Run(w, more).tables, w.processes[pid]);
  }

  lemma ReportStands(t: Tables, u: Tables, p: Process)
    requires ProcessOk(t, p) && Evolves(t, u) && p.pc.Finishing? && p.pc.outcome.Some?
    ensures var r := p.pc.outcome.value.journal; r.row.Terminal() && r.id < |u.journals| && u.journals[r.id] == r.row
  {
    var r := p.pc.outcome.value.journal;
    assert JournalEvolves(t.journals[r.id], u.journals[r.id]);
  }

  /** One-way rows, over any continuation of any run. */
  lemma RowsOnlyMoveForward(events: seq<Event>, more: seq<Event>)
    ensures Evolves(Run(GENESIS, events).tables, Run(Run(GENESIS, events), more).tables)
    ensures forall j :: 0 <= j < |Run(GENESIS, events).tables.journals| ==> JournalShape(Run(GENESIS, events).tables.journals[j])
  {
    var t := Run(GENESIS, events).tables;
    Reachable(events);
    RunKeepsWorld(Run(GENESIS, events), more);
    forall j | 0 <= j < |t.journals| ensures JournalShape(t.journals[j]) { assert JournalRowOk(t, t.journals[j]); }
  }

  /** The errors that guard against inconsistent tables cannot occur. */
  lemma InconsistencyErrorsUnreachable(events: seq<Event>, pid: nat, now: Instant)
    requires pid < |Run(GENESIS, events).processes|
    ensures var w := Run(GENESIS, events); var p := w.processes[pid];
            // the reconciler always finds a usable permit and budget
            && (p.pc.ReconcilePermit? ==> ConsumeUncertainPermit(w.tables, p.pc.record, now).Commit?)
            // no run budget underflows
            && (forall a: Approval, runId: nat, permit: nat ::
                  PermitError(w.tables, a, runId, permit) != Some(InFlightInconsistent))
            // a coordinator's own permit is the one its journal holds
            && (Bound(p.pc).Some? ==>
                  && Owned(p.pc).Some? && Owned(p.pc).value < |w.tables.journals|
                  && w.tables.journals[Owned(p.pc).value].permit == Bound(p.pc))
            && (p.pc.Settling? ==> SettleJournal(w.tables, p.pc.journal, p.pc.permit, now) != Abort(JournalBinding))
            // after a grant the journal is never found unstarted
            && (p.pc.InspectingUnsent? ==>
                  p.pc.journal < |w.tables.journals| && !w.tables.journals[p.pc.journal].status.Claimed?)
  {
    var w := Run(GENESIS, events);
    Reachable(events);
    assert ProcessOk(w.tables, w.processes[pid]);
    hide *;
    forall a: Approval, runId: nat, permit: nat
      ensures PermitError(w.tables, a, runId, permit) != Some(InFlightInconsistent)
    {
      NoUnderflow(w.tables, a, runId, permit);
    }
    BoundAgrees(w.tables, w.processes[pid], now);
    PermitStepCommits(w.tables, w.processes[pid], now);
  }

  lemma NoUnderflow(t: Tables, a: Approval, runId: nat, permit: nat)
    requires Good(t)
    ensures PermitError(t, a, runId, permit) != Some(InFlightInconsistent)
  {
    if permit < |t.permits| && t.permits[permit].status.Authorized? { InFlightAtLeastOne(t, permit); }
  }

  lemma PermitStepCommits(t: Tables, p: Process, now: Instant)
    requires Good(t) && ProcessOk(t, p)
    ensures p.pc.ReconcilePermit? ==> ConsumeUncertainPermit(t, p.pc.record, now).Commit?
  {
    if p.pc.ReconcilePermit? && p.pc.record.row.permit.Some? { ReconcilerPermitUsable(t, p.pc.record); }
    hide Good;
  }

  lemma BoundAgrees(t: Tables, p: Process, now: Instant)
    requires Good(t) && ProcessOk(t, p)
    ensures Bound(p.pc).Some? ==>
      && Owned(p.pc).Some? && Owned(p.pc).value < |t.journals|
      && t.journals[Owned(p.pc).value].permit == Bound(p.pc)
    ensures p.pc.Settling? ==> SettleJournal(t, p.pc.journal, p.pc.permit, now) != Abort(JournalBinding)
    ensures p.pc.InspectingUnsent? ==> p.pc.journal < |t.journals| && !t.journals[p.pc.journal].status.Claimed?
  {
    if p.pc.InspectingUnsent? { assert JournalRowOk(t, t.journals[p.pc.journal]); }
    hide Good;
  }

  /** A granted permit always carries the claim's approval, although the coordinator
      and its safety kernel are configured apart.  */
  lemma GrantMatchesClaim(events: seq<Event>, pid: nat, env: Env)
    requires pid < |Run(GENESIS, events).processes| && Run(GENESIS, events).processes[pid].pc.Authorizing?
    ensures var w := Run(GENESIS, events);
            !Step(w.tables, w.processes[pid], env).process.pc.ReleasingUnsent?
  {
    var w := Run(GENESIS, events);
    Reachable(events);
    assert ProcessOk(w.tables, w.processes[pid]);
    hide Run, WorldInv;
    GrantCarriesClaim(w.tables, w.processes[pid], env);
  }

  lemma GrantCarriesClaim(t: Tables, p: Process, env: Env)
    requires ProcessOk(t, p) && p.pc.Authorizing?
    ensures !Step(t, p, env).process.pc.ReleasingUnsent?
  {
    GrantAwaits(t, p.approval, p.runId, p.pc.journal, p.keyHash, env.now, p.cost);
    hide AuthorizeAndStart;
  }

  lemma GrantAwaits(t: Tables, a: Approval, runId: nat, journal: nat, keyHash: Digest, now: Clock, cost: int)
    ensures var tx := AuthorizeAndStart(t, a, runId, journal, keyHash, now, cost);
      tx.Commit? && tx.result.Granted? ==> journal < |t.journals| && t.journals[journal].approval == a.fingerprint
  {
  }

  lemma ReconcilerPermitUsable(t: Tables, r: Record)
    requires Good(t) && RecordStands(t, r) && r.row.permit.Some?
    ensures var permit := r.row.permit.value;
            && permit < |t.permits| && !t.permits[permit].status.Cancelled?
            && (t.permits[permit].status.Authorized? ==>
                  t.permits[permit].run < |t.runs| && t.runs[t.permits[permit].run].inFlight >= 1)
  {
    assert JournalRowOk(t, t.journals[r.id]);
    var permit := r.row.permit.value;
    assert PermitRowOk(t, permit);
    if t.permits[permit].status.Authorized? { InFlightAtLeastOne(t, permit); }
  }
}
