/** The bounded acquisition pipeline under an arbitrary completion schedule. */
module Pipeline {
  /** What one fetch, or one local task, comes to. */
  datatype Outcome<+T> = Success(value: T) | Failure

  datatype PipelineRun<+T> = Finished(results: seq<T>, peakPending: nat) | Raised

  const MAX_LOCAL_WORKERS := 8
  const MAX_PENDING_LOCAL_TASKS := 64

  predicate Unique(keys: seq<string>) {
    forall i, k :: 0 <= i < k < |keys| ==> keys[i] != keys[k]
  }

  /** Request `i` is served and its response is processed without failure. */
  ghost predicate Succeeds<R, T>(served: seq<Outcome<R>>, processor: R -> Outcome<T>, i: nat)
    requires i < |served|
  {
    served[i].Success? && processor(served[i].value).Success?
  }

  /** More tasks than collected results: some task is still pending. */
  lemma {:induction false} AllCollected(n: nat, keys: set<nat>)
    requires forall i :: 0 <= i < n ==> i in keys
    ensures |keys| >= n
  {
    if n > 0 {
      AllCollected(n - 1, keys - {n - 1});
      assert keys == (keys - {n - 1}) + {n - 1};
    }
  }

  // ----- which tasks are pending, by the schedule alone

  /** The first task not yet collected. */
  function Oldest(n: nat, keys: set<nat>): (i: nat)
    ensures i <= n && (i < n ==> i !in keys) && forall k :: 0 <= k < i ==> k in keys
  {
    if n == 0 then 0
    else
      var i := Oldest(n - 1, keys);
      if i < n - 1 || n - 1 !in keys then i else n
  }

  lemma OldestIs(n: nat, keys: set<nat>, i: nat)
    requires i < n && i !in keys && forall k :: 0 <= k < i ==> k in keys
    ensures Oldest(n, keys) == i
  {
  }

  /** Of the first `n` tasks, those finished when request `t` is about to be fetched. */
  ghost function Done(done: (nat, nat) -> bool, t: nat, n: nat): set<nat> {
    set i: nat | i < n && done(t, i)
  }

  /** `before` and the finished ones among the first `n` tasks. */
  ghost function Having(before: set<nat>, done: (nat, nat) -> bool, t: nat, n: nat): set<nat> {
    before + Done(done, t, n)
  }

  lemma HavingStep(before: set<nat>, done: (nat, nat) -> bool, t: nat, n: nat)
    ensures var having := Having(before, done, t, n);
      Having(before, done, t, n + 1) == if done(t, n) && n !in having then having + {n} else having
  {
  }

  lemma HavingNone(before: set<nat>, done: (nat, nat) -> bool, t: nat)
    ensures Having(before, done, t, 0) == before
  {
  }

  lemma HavingAll(before: set<nat>, done: (nat, nat) -> bool, t: nat, n: nat)
    ensures forall i: nat :: i < n && done(t, i) ==> i in Having(before, done, t, n)
  {
  }

  /** The tasks collected when request `t` is about to be fetched: those waited for while
      the queue was full, and everything finished by then.  */
  ghost function Harvested(done: (nat, nat) -> bool, limit: nat, t: nat): set<nat>
    decreases t, 1
  {
    Having(WaitedFor(done, limit, t), done, t, t)
  }

  ghost function WaitedFor(done: (nat, nat) -> bool, limit: nat, t: nat): set<nat>
    decreases t, 0
  {
    if t == 0 then {}
    else
      var harvested := Harvested(done, limit, t - 1);
      if t - |harvested| >= limit then harvested + {Oldest(t, harvested)} else harvested
  }

  /** How many tasks are pending right after request `t` was submitted. */
  ghost function PendingAfter(done: (nat, nat) -> bool, limit: nat, t: nat): int {
    t + 1 - |Harvested(done, limit, t)|
  }

  /** The most tasks that were ever pending over the first `n` requests. */
  ghost function Peak(done: (nat, nat) -> bool, limit: nat, n: nat): int {
    if n == 0 then 0
    else
      var before := Peak(done, limit, n - 1);
      if PendingAfter(done, limit, n - 1) > before then PendingAfter(done, limit, n - 1) else before
  }

  lemma Submits(done: (nat, nat) -> bool, limit: nat, t: nat)
    ensures var harvested, pending := Harvested(done, limit, t), PendingAfter(done, limit, t);
      && harvested == Having(WaitedFor(done, limit, t), done, t, t)
      && pending == t + 1 - |harvested|
      && WaitedFor(done, limit, t + 1) == (if pending >= limit then harvested + {Oldest(t + 1, harvested)} else harvested)
      && Peak(done, limit, t + 1) == (if pending > Peak(done, limit, t) then pending else Peak(done, limit, t))
  {
  }

  lemma {:induction false} MoreKeys<T>(before: map<nat, T>, resolved: map<nat, T>)
    requires before.Keys <= resolved.Keys
    ensures |before| <= |resolved|
  {
    FewerElements(before.Keys, resolved.Keys);
    assert |before| == |before.Keys| && |resolved| == |resolved.Keys|;
  }

  lemma {:induction false} FewerElements(small: set<nat>, large: set<nat>)
    requires small <= large
    ensures |small| <= |large|
  {
    if small != {} {
      var x :| x in small;
      FewerElements(small - {x}, large - {x});
    }
  }

  lemma KeysCount<T>(resolved: map<nat, T>, keys: set<nat>)
    requires resolved.Keys == keys
    ensures |resolved| == |keys|
  {
  }

  class BoundedAcquisitionPipeline<R, T> {
    const processor: R -> Outcome<T>
    const localWorkers: nat
    const pendingLimit: nat

    ghost predicate Valid() {
      1 <= localWorkers <= MAX_LOCAL_WORKERS && localWorkers <= pendingLimit <= MAX_PENDING_LOCAL_TASKS
    }

    constructor (processor: R -> Outcome<T>, localWorkers: nat, pendingLimit: nat)
      requires 1 <= localWorkers <= MAX_LOCAL_WORKERS && localWorkers <= pendingLimit <= MAX_PENDING_LOCAL_TASKS
      ensures Valid() && this.processor == processor && this.pendingLimit == pendingLimit
    {
      this.processor, this.localWorkers, this.pendingLimit := processor, localWorkers, pendingLimit;
    }

    /** What has been collected is what the tasks produced. */
    ghost predicate Collected(futures: seq<R>, resolved: map<nat, T>) {
      forall i :: i in resolved ==> i < |futures| && processor(futures[i]) == Success(resolved[i])
    }

    /** `served[i]` is what the provider answers to request `i`; `done(t, i)` is whether
        task `i` has finished when request `t` is about to be fetched.  */
    method Run(keys: seq<string>, served: seq<Outcome<R>>, done: (nat, nat) -> bool)
      returns (run: PipelineRun<T>, fetched: nat)
      requires Valid() && |served| == |keys|
      ensures fetched <= |keys| && (!Unique(keys) ==> fetched == 0)
      ensures run.Finished? <==> Unique(keys) && forall i :: 0 <= i < |keys| ==> Succeeds(served, processor, i)
      ensures run.Finished? ==>
        && fetched == |keys| == |run.results|
        && (forall i :: 0 <= i < |keys| ==> served[i].Success? && processor(served[i].value) == Success(run.results[i]))
        && run.peakPending <= pendingLimit && run.peakPending == Peak(done, pendingLimit, |keys|)
      ensures run.Raised? && Unique(keys) ==> exists i :: 0 <= i < fetched && !Succeeds(served, processor, i)
      ensures NoLateFetch(served, done, fetched)
    {
      if !Unique(keys) { return Raised, 0; }
      hide *;
      Begins(served, done);
      var futures: seq<R> := [];
      var resolved: map<nat, T> := map[];
      var peak: nat := 0;
      fetched := 0;
      for t := 0 to |keys|
        invariant fetched == |futures| == t
        invariant Standing(served, done, futures, resolved, peak)
      {
        ghost var before, high := resolved, peak;
        Underway(served, done, futures, resolved, peak);
        var failed;
        failed, resolved := HarvestCompleted(futures, resolved, done, t);
        if failed { FailureShows(served, futures); return Raised, fetched; }
        FetchesNext(served, done, futures, before, resolved, peak);
        fetched := fetched + 1;
        if served[t].Failure? { FetchFailure(served, t); return Raised, fetched; }
        futures := futures + [served[t].value];
        if |futures| - |resolved| > peak { peak := |futures| - |resolved|; }
        if |futures| - |resolved| >= pendingLimit {
          ghost var harvested := resolved;
          failed, resolved := ResolveOldest(futures, resolved);
          if failed { FailureShows(served, futures); return Raised, fetched; }
          WaitedOne(served, done, futures, harvested, resolved, high, peak);
        } else {
          WaitedNone(served, done, futures, resolved, high, peak);
        }
      }
      Underway(served, done, futures, resolved, peak);
      var failed, results := CollectRest(futures, resolved);
      if failed { FailureShows(served, futures); return Raised, fetched; }
      Ends(served, futures, results);
      return Finished(results, peak), fetched;
    }

    /** Everything fetched so far is submitted, what is collected follows the schedule, the
        queue has room, and nothing was fetched too late.  */
    ghost predicate Standing(
      served: seq<Outcome<R>>, done: (nat, nat) -> bool, futures: seq<R>, resolved: map<nat, T>, peak: nat)
    {
      && Submitted(served, futures) && Collected(futures, resolved)
      && resolved.Keys == WaitedFor(done, pendingLimit, |futures|) && peak == Peak(done, pendingLimit, |futures|)
      && |futures| - |resolved| < pendingLimit && peak <= pendingLimit
      && NoLateFetch(served, done, |futures|)
    }

    /** The same between a submission and the wait that may follow it. */
    ghost predicate Sent(
      served: seq<Outcome<R>>, done: (nat, nat) -> bool, futures: seq<R>, resolved: map<nat, T>, before: nat)
    {
      && |futures| > 0 && Submitted(served, futures) && Collected(futures, resolved)
      && resolved.Keys == Harvested(done, pendingLimit, |futures| - 1)
      && before == Peak(done, pendingLimit, |futures| - 1) && before <= pendingLimit
      && |futures| - |resolved| <= pendingLimit
      && NoLateFetch(served, done, |futures|)
    }

    lemma Begins(served: seq<Outcome<R>>, done: (nat, nat) -> bool)
      requires Valid()
      ensures Standing(served, done, [], map[], 0)
    {
    }

    lemma Underway(served: seq<Outcome<R>>, done: (nat, nat) -> bool, futures: seq<R>, resolved: map<nat, T>, peak: nat)
      requires Standing(served, done, futures, resolved, peak)
      ensures Submitted(served, futures) && Collected(futures, resolved) && NoLateFetch(served, done, |futures|)
      ensures peak == Peak(done, pendingLimit, |futures|) && peak <= pendingLimit
    {
    }

    lemma FetchesNext(
      served: seq<Outcome<R>>, done: (nat, nat) -> bool, futures: seq<R>, before: map<nat, T>, resolved: map<nat, T>, peak: nat)
      requires Standing(served, done, futures, before, peak) && |futures| < |served|
      requires Collected(futures, resolved) && |before| <= |resolved|
      requires resolved.Keys == Having(before.Keys, done, |futures|, |futures|)
      ensures NoLateFetch(served, done, |futures| + 1)
      ensures served[|futures|].Success? ==> Sent(served, done, futures + [served[|futures|].value], resolved, peak)
    {
      HavingAll(before.Keys, done, |futures|, |futures|);
      NoLateFetchStep(served, done, futures, resolved);
      Submits(done, pendingLimit, |futures|);
      if served[|futures|].Success? { SubmittedOne(served, futures, resolved); }
      hide Submitted, Collected, Having, NoLateFetch, WaitedFor, Harvested, Peak;
    }

    lemma WaitedOne(
      served: seq<Outcome<R>>, done: (nat, nat) -> bool, futures: seq<R>, harvested: map<nat, T>, resolved: map<nat, T>,
      before: nat, peak: nat)
      requires |futures| > 0 && |futures| - |harvested| >= pendingLimit && Valid()
      requires Sent(served, done, futures, harvested, before)
      requires peak == if |futures| - |harvested| > before then |futures| - |harvested| else before
      requires Collected(futures, resolved) && resolved.Keys == harvested.Keys + {Oldest(|futures|, harvested.Keys)}
      requires |resolved| == |harvested| + 1
      ensures Standing(served, done, futures, resolved, peak)
    {
      hide Submitted, Collected, Having, NoLateFetch, WaitedFor, Harvested, Peak, PendingAfter, Oldest;
      KeysCount(harvested, Harvested(done, pendingLimit, |futures| - 1));
      Submits(done, pendingLimit, |futures| - 1);
    }

    lemma WaitedNone(
      served: seq<Outcome<R>>, done: (nat, nat) -> bool, futures: seq<R>, resolved: map<nat, T>, before: nat, peak: nat)
      requires |futures| > 0 && |futures| - |resolved| < pendingLimit
      requires Sent(served, done, futures, resolved, before)
      requires peak == if |futures| - |resolved| > before then |futures| - |resolved| else before
      ensures Standing(served, done, futures, resolved, peak)
    {
      hide Submitted, Collected, Having, NoLateFetch, WaitedFor, Harvested, Peak, PendingAfter, Oldest;
      KeysCount(resolved, Harvested(done, pendingLimit, |futures| - 1));
      Submits(done, pendingLimit, |futures| - 1);
    }

    /** Wait for what is still pending; the results in request order. */
    method CollectRest(futures: seq<R>, before: map<nat, T>) returns (failed: bool, results: seq<T>)
      requires Collected(futures, before)
      ensures failed ==> SomeFailure(futures)
      ensures !failed ==>
        |results| == |futures| && forall i :: 0 <= i < |futures| ==> processor(futures[i]) == Success(results[i])
    {
      var resolved: map<nat, T> := before;
      for i := 0 to |futures|
        invariant Collected(futures, resolved)
        invariant forall k :: 0 <= k < i ==> k in resolved
      {
        if i !in resolved {
          var outcome := processor(futures[i]);
          if outcome.Failure? { return true, []; }
          resolved := resolved[i := outcome.value];
        }
      }
      return false, seq(|futures|, i requires 0 <= i < |futures| && i in resolved => resolved[i]);
    }

    lemma SubmittedOne(served: seq<Outcome<R>>, futures: seq<R>, resolved: map<nat, T>)
      requires Submitted(served, futures) && Collected(futures, resolved)
      requires |futures| < |served| && served[|futures|].Success?
      ensures Submitted(served, futures + [served[|futures|].value]) && Collected(futures + [served[|futures|].value], resolved)
    {
    }

    lemma Ends(served: seq<Outcome<R>>, futures: seq<R>, results: seq<T>)
      requires Submitted(served, futures) && |futures| == |served| == |results|
      requires forall i :: 0 <= i < |futures| ==> processor(futures[i]) == Success(results[i])
      ensures forall i :: 0 <= i < |served| ==> served[i].Success? && processor(served[i].value) == Success(results[i])
      ensures forall i :: 0 <= i < |served| ==> Succeeds(served, processor, i)
    {
    }

    lemma FetchFailure(served: seq<Outcome<R>>, t: nat)
      requires t < |served| && served[t].Failure?
      ensures !Succeeds(served, processor, t)
    {
    }

    lemma NoLateFetchStep(served: seq<Outcome<R>>, done: (nat, nat) -> bool, futures: seq<R>, resolved: map<nat, T>)
      requires Submitted(served, futures) && Collected(futures, resolved) && |futures| < |served|
      requires NoLateFetch(served, done, |futures|)
      requires forall i :: 0 <= i < |futures| && done(|futures|, i) ==> i in resolved
      ensures NoLateFetch(served, done, |futures| + 1)
    {
    }

    ghost predicate Submitted(served: seq<Outcome<R>>, futures: seq<R>) {
      |futures| <= |served| && forall i :: 0 <= i < |futures| ==> served[i] == Success(futures[i])
    }

    /** No request is fetched once an earlier task is known to have failed. */
    ghost predicate NoLateFetch(served: seq<Outcome<R>>, done: (nat, nat) -> bool, fetched: nat) {
      fetched <= |served| &&
      forall t, i :: 0 <= i < t < fetched && done(t, i) ==> Succeeds(served, processor, i)
    }

    ghost predicate SomeFailure(futures: seq<R>) {
      exists i :: 0 <= i < |futures| && processor(futures[i]).Failure?
    }

    lemma FailureShows(served: seq<Outcome<R>>, futures: seq<R>)
      requires Submitted(served, futures) && SomeFailure(futures)
      ensures exists i :: 0 <= i < |futures| && !Succeeds(served, processor, i)
    {
      var i :| 0 <= i < |futures| && processor(futures[i]).Failure?;
      assert !Succeeds(served, processor, i);
    }

    /** Collect whatever has finished; stop at the first failure. */
    method HarvestCompleted(futures: seq<R>, before: map<nat, T>, done: (nat, nat) -> bool, t: nat)
      returns (failed: bool, resolved: map<nat, T>)
      requires Collected(futures, before)
      ensures failed ==> SomeFailure(futures)
      ensures Collected(futures, resolved) && before.Keys <= resolved.Keys && |before| <= |resolved|
      ensures !failed ==> resolved.Keys == Having(before.Keys, done, t, |futures|)
    {
      hide Collected, Having;
      failed, resolved := false, before;
      HavingNone(before.Keys, done, t);
      for i := 0 to |futures|
        invariant Collected(futures, resolved) && !failed && before.Keys <= resolved.Keys
        invariant resolved.Keys == Having(before.Keys, done, t, i)
      {
        HavingStep(before.Keys, done, t, i);
        if i !in resolved && done(t, i) {
          var outcome := processor(futures[i]);
          if outcome.Failure? { FailureHere(futures, i); MoreKeys(before, resolved); return true, resolved; }
          CollectedOne(futures, resolved, i, outcome.value);
          resolved := resolved[i := outcome.value];
        }
      }
      MoreKeys(before, resolved);
    }

    lemma CollectedOne(futures: seq<R>, resolved: map<nat, T>, i: nat, value: T)
      requires Collected(futures, resolved) && i < |futures| && processor(futures[i]) == Success(value)
      ensures Collected(futures, resolved[i := value]) && resolved[i := value].Keys == resolved.Keys + {i}
    {
    }

    lemma FailureHere(futures: seq<R>, i: nat)
      requires i < |futures| && processor(futures[i]).Failure?
      ensures SomeFailure(futures)
    {
    }

    /** Wait for the oldest task not yet collected. */
    method ResolveOldest(futures: seq<R>, before: map<nat, T>) returns (failed: bool, resolved: map<nat, T>)
      requires Collected(futures, before) && |futures| > |before|
      ensures failed ==> SomeFailure(futures)
      ensures !failed ==> Collected(futures, resolved) && |resolved| == |before| + 1
      ensures !failed ==>
        var i := Oldest(|futures|, before.Keys); i < |futures| && resolved.Keys == before.Keys + {i}
    {
      for i := 0 to |futures|
        invariant forall k :: 0 <= k < i ==> k in before
      {
        if i !in before {
          var outcome := processor(futures[i]);
          if outcome.Failure? { return true, before; }
          resolved := before[i := outcome.value];
          OldestIs(|futures|, before.Keys, i);
          assert resolved.Keys == before.Keys + {i};
          return false, resolved;
        }
      }
      AllCollected(|futures|, before.Keys);
      assert false;
    }
  }

  // ----- what the peak means

  /** The queue is never over its limit, and holds at least the task just submitted. */
  lemma {:induction false} PeakWithin(done: (nat, nat) -> bool, limit: nat, n: nat)
    requires limit >= 1
    ensures |WaitedFor(done, limit, n)| <= n && n - |WaitedFor(done, limit, n)| < limit
    ensures forall i :: i in WaitedFor(done, limit, n) ==> i < n
    ensures 0 <= Peak(done, limit, n) <= limit && (n > 0 ==> Peak(done, limit, n) >= 1)
  {
    if n > 0 {
      PeakWithin(done, limit, n - 1);
      HarvestWithin(done, limit, n - 1);
    }
  }

  lemma HarvestWithin(done: (nat, nat) -> bool, limit: nat, t: nat)
    requires limit >= 1 && |WaitedFor(done, limit, t)| <= t && t - |WaitedFor(done, limit, t)| < limit
    requires forall i :: i in WaitedFor(done, limit, t) ==> i < t
    ensures var harvested := Harvested(done, limit, t);
      && (forall i :: i in harvested ==> i < t)
      && |WaitedFor(done, limit, t)| <= |harvested| <= t
      && Oldest(t + 1, harvested) < t + 1 && Oldest(t + 1, harvested) !in harvested
  {
    var waited, harvested := WaitedFor(done, limit, t), Harvested(done, limit, t);
    FewerElements(waited, harvested);
    UnderHas(t);
    FewerElements(harvested, Under(t));
    assert t !in harvested;
  }

  ghost function Under(n: nat): set<nat> {
    if n == 0 then {} else Under(n - 1) + {n - 1}
  }

  lemma {:induction false} UnderHas(n: nat)
    ensures |Under(n)| == n && forall i: nat :: i in Under(n) <==> i < n
  {
    if n > 0 { UnderHas(n - 1); }
  }

  /** When every task is finished at once, one is pending at a time. */
  lemma {:induction false} PeakWhenPrompt(done: (nat, nat) -> bool, limit: nat, n: nat)
    requires limit >= 1 && n >= 1 && forall t: nat, i: nat :: i < t ==> done(t, i)
    ensures Peak(done, limit, n) == 1
  {
    forall t: nat | t < n ensures PendingAfter(done, limit, t) == 1 {
      PeakWithin(done, limit, t);
      UnderHas(t);
      assert Harvested(done, limit, t) == Under(t);
    }
    PeakOfOnes(done, limit, n);
  }

  lemma {:induction false} PeakOfOnes(done: (nat, nat) -> bool, limit: nat, n: nat)
    requires n >= 1 && forall t: nat :: t < n ==> PendingAfter(done, limit, t) == 1
    ensures Peak(done, limit, n) == 1
  {
    if n > 1 { PeakOfOnes(done, limit, n - 1); }
  }

  lemma {:induction false} StuckWaits(done: (nat, nat) -> bool, limit: nat, n: nat)
    requires limit >= 1 && forall t: nat, i: nat :: !done(t, i)
    ensures |WaitedFor(done, limit, n)| == if n < limit then 0 else n - limit + 1
  {
    hide *;
    if n == 0 {
      NobodyWaits(done, limit);
    } else {
      StuckWaits(done, limit, n - 1);
      StuckHarvest(done, limit, n - 1);
      PeakWithin(done, limit, n - 1);
      HarvestWithin(done, limit, n - 1);
      WaitsOneMore(done, limit, n - 1);
    }
  }

  lemma NobodyWaits(done: (nat, nat) -> bool, limit: nat)
    ensures WaitedFor(done, limit, 0) == {}
  {
  }

  lemma WaitsOneMore(done: (nat, nat) -> bool, limit: nat, t: nat)
    requires Oldest(t + 1, Harvested(done, limit, t)) !in Harvested(done, limit, t)
    ensures var h := |Harvested(done, limit, t)|;
      |WaitedFor(done, limit, t + 1)| == if t + 1 - h >= limit then h + 1 else h
  {
    hide Having, Oldest;
  }

  /** When no task finishes by itself, the queue fills up to its limit. */
  lemma {:induction false} PeakWhenStuck(done: (nat, nat) -> bool, limit: nat, n: nat)
    requires limit >= 1 && forall t: nat, i: nat :: !done(t, i)
    ensures Peak(done, limit, n) == if n < limit then n else limit
  {
    if n > 0 {
      PeakWhenStuck(done, limit, n - 1);
      StuckWaits(done, limit, n - 1);
      StuckHarvest(done, limit, n - 1);
      assert PendingAfter(done, limit, n - 1) == n - |WaitedFor(done, limit, n - 1)|;
      hide WaitedFor, Harvested, PendingAfter;
    }
  }

  lemma StuckHarvest(done: (nat, nat) -> bool, limit: nat, t: nat)
    requires forall i: nat :: !done(t, i)
    ensures Harvested(done, limit, t) == WaitedFor(done, limit, t)
  {
    assert Done(done, t, t) == {};
    hide WaitedFor;
  }
}
