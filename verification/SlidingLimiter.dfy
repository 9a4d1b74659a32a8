/** The in-process consumer rate limiter: buckets of admission times, proved against
    the log of every admission ever made.  Times are real seconds.  */
module SlidingLimiter {
  datatype Admission = Admission(consumer: string, at: real)

  datatype Limits = Limits(maxRequests: nat, windowSeconds: nat, maxConsumers: nat)

  datatype Decision = Allowed | Denied(retryAfter: int) | CapacityReached | BadKey

  // ----- the specification: one log, nothing forgotten

  /** The admission times of one consumer in (from, until], in log order. */
  function Between(log: seq<Admission>, consumer: string, from: real, until: real): seq<real> {
    if log == [] then []
    else
      var last := log[|log| - 1];
      Between(log[..|log| - 1], consumer, from, until) +
        if last.consumer == consumer && from < last.at <= until then [last.at] else []
  }

  /** The admission times of one consumer after the cutoff, in log order. */
  function Recent(log: seq<Admission>, consumer: string, cutoff: real): seq<real> {
    if log == [] then []
    else
      var last := log[|log| - 1];
      Recent(log[..|log| - 1], consumer, cutoff) +
        if last.consumer == consumer && last.at > cutoff then [last.at] else []
  }

  ghost function Live(log: seq<Admission>, cutoff: real): set<string> {
    set a | a in log && Recent(log, a.consumer, cutoff) != [] :: a.consumer
  }

  /** Every admission found fewer than `limit` of its consumer in the window behind it. */
  ghost predicate Fair(log: seq<Admission>, limit: nat, window: real) {
    log == [] ||
    var init, last := log[..|log| - 1], log[|log| - 1];
    Fair(init, limit, window) && |Recent(init, last.consumer, last.at - window)| < limit
  }

  /** How many of the consumer's admissions are still counted after `wait` seconds. */
  ghost function CountedAfter(log: seq<Admission>, consumer: string, now: real, window: real, wait: int): nat {
    |Recent(log, consumer, now + wait as real - window)|
  }

  /** The least whole number of seconds, at least one, after which the consumer
      would have a free slot if nothing else happened.  */
  ghost predicate LeastWait(log: seq<Admission>, consumer: string, now: real, limit: nat, window: real, wait: int) {
    && wait >= 1
    && CountedAfter(log, consumer, now, window, wait) < limit
    && forall s: int :: 1 <= s < wait ==> CountedAfter(log, consumer, now, window, s) >= limit
  }

  lemma {:induction false} BetweenAtMostRecent(log: seq<Admission>, consumer: string, from: real, until: real, cutoff: real)
    requires cutoff <= from
    ensures |Between(log, consumer, from, until)| <= |Recent(log, consumer, cutoff)|
  {
    if log != [] { BetweenAtMostRecent(log[..|log| - 1], consumer, from, until, cutoff); }
  }

  lemma FairStep(log: seq<Admission>, limit: nat, window: real, a: Admission)
    requires Fair(log, limit, window) && |Recent(log, a.consumer, a.at - window)| < limit
    ensures Fair(log + [a], limit, window)
  {
    assert (log + [a])[..|log|] == log;
  }

  /** Wherever a window is laid, it holds at most `limit` admissions of one consumer. */
  lemma {:induction false} NoBurst(log: seq<Admission>, limit: nat, window: real, consumer: string, from: real)
    requires Fair(log, limit, window)
    ensures |Between(log, consumer, from, from + window)| <= limit
  {
    if log != [] {
      var init, last := log[..|log| - 1], log[|log| - 1];
      NoBurst(init, limit, window, consumer, from);
      if last.consumer == consumer && from < last.at <= from + window {
        BetweenAtMostRecent(init, consumer, from, from + window, last.at - window);
      }
    }
  }

  // ----- buckets

  /** Drop the leading times at or before the cutoff. */
  function Expire(times: seq<real>, cutoff: real): (rest: seq<real>)
    ensures |rest| <= |times| && (forall x :: x in rest ==> x in times)
    ensures rest != [] ==> rest[0] > cutoff
  {
    if times != [] && times[0] <= cutoff then Expire(times[1..], cutoff) else times
  }

  lemma {:induction false} ExpireTwice(times: seq<real>, first: real, second: real)
    requires first <= second
    ensures Expire(Expire(times, first), second) == Expire(times, second)
  {
    if times != [] && times[0] <= first { ExpireTwice(times[1..], first, second); }
  }

  lemma {:induction false} ExpireLast(times: seq<real>, last: real, cutoff: real)
    requires forall x :: x in times ==> x <= last
    ensures last > cutoff ==> Expire(times + [last], cutoff) == Expire(times, cutoff) + [last]
    ensures last <= cutoff ==> Expire(times + [last], cutoff) == [] == Expire(times, cutoff)
  {
    if times != [] {
      assert times[0] in times;
      assert (times + [last])[1..] == times[1..] + [last];
      assert forall x :: x in times[1..] ==> x in times;
      if times[0] <= cutoff { ExpireLast(times[1..], last, cutoff); }
    } else {
      assert [last][1..] == [];
    }
  }

  function Bucket(requests: map<string, seq<real>>, consumer: string): seq<real> {
    if consumer in requests then requests[consumer] else []
  }

  ghost predicate Bounded(requests: map<string, seq<real>>, limit: nat, latest: real) {
    forall consumer :: consumer in requests ==> BucketBounded(requests[consumer], limit, latest)
  }

  ghost predicate BucketBounded(bucket: seq<real>, limit: nat, latest: real) {
    |bucket| <= limit && forall x :: x in bucket ==> x <= latest
  }

  lemma BoundedReplace(requests: map<string, seq<real>>, limit: nat, latest: real, consumer: string, bucket: seq<real>)
    requires Bounded(requests, limit, latest) && BucketBounded(bucket, limit, latest)
    ensures Bounded(requests[consumer := bucket], limit, latest)
  {
  }

  lemma BoundedAt(requests: map<string, seq<real>>, limit: nat, latest: real, consumer: string)
    requires Bounded(requests, limit, latest) && consumer in requests
    ensures BucketBounded(requests[consumer], limit, latest)
  {
  }

  lemma StillBounded(requests: map<string, seq<real>>, limit: nat, latest: real, now: real)
    requires Bounded(requests, limit, latest) && latest <= now
    ensures Bounded(requests, limit, now)
  {
  }

  /** From the cutoff on, the bucket answers for the whole log. */
  ghost predicate Faithful(log: seq<Admission>, consumer: string, cutoff: real, bucket: seq<real>) {
    forall c :: c >= cutoff ==> Expire(bucket, c) == Recent(log, consumer, c)
  }

  ghost predicate AllFaithful(log: seq<Admission>, cutoff: real, requests: map<string, seq<real>>) {
    forall consumer :: Faithful(log, consumer, cutoff, Bucket(requests, consumer))
  }

  lemma ExpiredIsFaithful(log: seq<Admission>, consumer: string, earlier: real, cutoff: real, bucket: seq<real>)
    requires earlier <= cutoff && Faithful(log, consumer, earlier, bucket)
    ensures Faithful(log, consumer, cutoff, Expire(bucket, cutoff))
    ensures Expire(bucket, cutoff) == Recent(log, consumer, cutoff)
  {
    forall c | c >= cutoff ensures Expire(Expire(bucket, cutoff), c) == Recent(log, consumer, c) {
      ExpireTwice(bucket, cutoff, c);
    }
  }

  lemma AppendIsFaithful(log: seq<Admission>, consumer: string, cutoff: real, bucket: seq<real>, now: real)
    requires Faithful(log, consumer, cutoff, bucket) && forall x :: x in bucket ==> x <= now
    ensures Faithful(log + [Admission(consumer, now)], consumer, cutoff, bucket + [now])
  {
    var longer := log + [Admission(consumer, now)];
    assert longer[..|longer| - 1] == log;
    forall c | c >= cutoff ensures Expire(bucket + [now], c) == Recent(longer, consumer, c) {
      ExpireLast(bucket, now, c);
    }
  }

  lemma OtherIsFaithful(log: seq<Admission>, consumer: string, cutoff: real, bucket: seq<real>, a: Admission)
    requires Faithful(log, consumer, cutoff, bucket) && a.consumer != consumer
    ensures Faithful(log + [a], consumer, cutoff, bucket)
  {
    assert (log + [a])[..|log + [a]| - 1] == log;
  }

  lemma StillFaithful(log: seq<Admission>, earlier: real, cutoff: real, requests: map<string, seq<real>>)
    requires earlier <= cutoff && AllFaithful(log, earlier, requests)
    ensures AllFaithful(log, cutoff, requests)
  {
  }

  lemma BucketIsFaithful(log: seq<Admission>, cutoff: real, requests: map<string, seq<real>>, consumer: string)
    requires AllFaithful(log, cutoff, requests)
    ensures Faithful(log, consumer, cutoff, Bucket(requests, consumer))
  {
  }

  lemma ReplaceKeeps(
    log: seq<Admission>, cutoff: real, requests: map<string, seq<real>>, consumer: string, bucket: seq<real>)
    requires AllFaithful(log, cutoff, requests) && Faithful(log, consumer, cutoff, bucket)
    ensures AllFaithful(log, cutoff, requests[consumer := bucket])
  {
    hide Faithful;
    var after := requests[consumer := bucket];
    forall other ensures Faithful(log, other, cutoff, Bucket(after, other)) {
      assert Faithful(log, other, cutoff, Bucket(requests, other));
    }
  }

  lemma AdmitKeeps(
    log: seq<Admission>, cutoff: real, requests: map<string, seq<real>>, consumer: string, bucket: seq<real>, now: real)
    requires AllFaithful(log, cutoff, requests) && Faithful(log, consumer, cutoff, bucket)
    requires forall x :: x in bucket ==> x <= now
    ensures AllFaithful(log + [Admission(consumer, now)], cutoff, requests[consumer := bucket + [now]])
  {
    var a := Admission(consumer, now);
    AppendIsFaithful(log, consumer, cutoff, bucket, now);
    hide Faithful;
    var after := requests[consumer := bucket + [now]];
    forall other ensures Faithful(log + [a], other, cutoff, Bucket(after, other)) {
      if other != consumer {
        assert Faithful(log, other, cutoff, Bucket(requests, other));
        OtherIsFaithful(log, other, cutoff, Bucket(requests, other), a);
      }
    }
  }

  lemma {:induction false} RecentInLog(log: seq<Admission>, consumer: string, cutoff: real)
    requires Recent(log, consumer, cutoff) != []
    ensures consumer in Live(log, cutoff)
    ensures exists a :: a in log && a.consumer == consumer
  {
    var init, last := log[..|log| - 1], log[|log| - 1];
    if last.consumer == consumer {
      assert last in log;
    } else {
      RecentInLog(init, consumer, cutoff);
      var a :| a in init && a.consumer == consumer;
      assert a in log;
    }
  }

  /** Pruning loses nothing: what is left answers as before, and its keys are exactly
      the consumers with a live admission.  */
  lemma PrunedIsFaithful(log: seq<Admission>, earlier: real, cutoff: real, before: map<string, seq<real>>)
    requires earlier <= cutoff && AllFaithful(log, earlier, before)
    ensures AllFaithful(log, cutoff, Pruned(before, cutoff))
    ensures Pruned(before, cutoff).Keys == Live(log, cutoff)
  {
    var after := Pruned(before, cutoff);
    forall consumer
      ensures Faithful(log, consumer, cutoff, Bucket(after, consumer))
      ensures consumer in after.Keys <==> consumer in Live(log, cutoff)
    {
      assert Faithful(log, consumer, earlier, Bucket(before, consumer));
      hide *;
      PrunedBucket(log, consumer, earlier, cutoff, before);
    }
    hide *;
  }

  lemma PrunedIsSmaller(requests: map<string, seq<real>>, cutoff: real)
    ensures |Pruned(requests, cutoff)| <= |requests| && Pruned(requests, cutoff).Keys <= requests.Keys
    ensures forall limit, latest :: Bounded(requests, limit, latest) ==> Bounded(Pruned(requests, cutoff), limit, latest)
  {
    var before, after := requests.Keys, Pruned(requests, cutoff).Keys;
    assert before == after + (before - after);
    assert |after| <= |before|;
  }

  lemma PrunedBucket(log: seq<Admission>, consumer: string, earlier: real, cutoff: real, before: map<string, seq<real>>)
    requires earlier <= cutoff && Faithful(log, consumer, earlier, Bucket(before, consumer))
    ensures Faithful(log, consumer, cutoff, Bucket(Pruned(before, cutoff), consumer))
    ensures consumer in Pruned(before, cutoff) <==> consumer in Live(log, cutoff)
  {
    ExpiredIsFaithful(log, consumer, earlier, cutoff, Bucket(before, consumer));
    assert Bucket(Pruned(before, cutoff), consumer) == Expire(Bucket(before, consumer), cutoff);
    if Recent(log, consumer, cutoff) != [] { RecentInLog(log, consumer, cutoff); }
  }

  function Pruned(requests: map<string, seq<real>>, cutoff: real): map<string, seq<real>> {
    map consumer | consumer in requests && Expire(requests[consumer], cutoff) != [] :: Expire(requests[consumer], cutoff)
  }

  function Ceiling(x: real): (n: int)
    ensures n as real - 1.0 < x <= n as real
  {
    -((-x).Floor)
  }

  lemma WaitIsLeast(log: seq<Admission>, consumer: string, now: real, limit: nat, window: real, bucket: seq<real>)
    requires |bucket| == limit >= 1 && Faithful(log, consumer, now - window, bucket) && now - window < bucket[0]
    ensures LeastWait(log, consumer, now, limit, window, Ceiling(bucket[0] + window - now))
  {
    var wait := Ceiling(bucket[0] + window - now);
    assert Expire(bucket, now + wait as real - window) == Expire(bucket[1..], now + wait as real - window);
    forall s: int | 1 <= s < wait ensures CountedAfter(log, consumer, now, window, s) >= limit {
      assert s as real <= (wait - 1) as real;
      assert Expire(bucket, now + s as real - window) == bucket;
    }
  }

  // ----- one call, for any clock

  predicate LimitsOk(l: Limits) {
    1 <= l.maxRequests <= 100_000 && 1 <= l.windowSeconds <= 86_400 && 1 <= l.maxConsumers <= 1_000_000
  }

  /** The call of a consumer whose bucket is at hand. */
  function Consumed(l: Limits, requests: map<string, seq<real>>, consumer: string, now: real): (map<string, seq<real>>, Decision)
    requires LimitsOk(l)
  {
    var window := l.windowSeconds as real;
    var bucket := Expire(Bucket(requests, consumer), now - window);
    if |bucket| >= l.maxRequests then
      var seconds := Ceiling(bucket[0] + window - now);
      (requests[consumer := bucket], Denied(if seconds < 1 then 1 else seconds))
    else (requests[consumer := bucket + [now]], Allowed)
  }

  function Checked(l: Limits, requests: map<string, seq<real>>, consumer: string, now: real): (map<string, seq<real>>, Decision)
    requires LimitsOk(l)
  {
    if |consumer| != 64 then (requests, BadKey)
    else if consumer in requests then Consumed(l, requests, consumer, now)
    else
      var pruned := Pruned(requests, now - l.windowSeconds as real);
      if |pruned| >= l.maxConsumers then (pruned, CapacityReached)
      else Consumed(l, pruned[consumer := []], consumer, now)
  }

  class FixedWindowConsumerRateLimiter {
    const limits: Limits
    var requests: map<string, seq<real>>

    constructor (limits: Limits)
      requires LimitsOk(limits)
      ensures this.limits == limits && requests == map[]
    {
      this.limits, requests := limits, map[];
    }

    method Check(consumer: string, now: real) returns (decision: Decision)
      requires LimitsOk(limits)
      modifies this
      ensures (requests, decision) == Checked(limits, old(requests), consumer, now)
    {
      if |consumer| != 64 {
        return BadKey;
      }
      var cutoff := now - limits.windowSeconds as real;
      if consumer !in requests {
        PruneEmpty(cutoff);
        if |requests| >= limits.maxConsumers {
          return CapacityReached;
        }
        requests := requests[consumer := []];
      }
      var bucket := PopExpired(requests[consumer], cutoff);
      hide Pruned;
      if |bucket| >= limits.maxRequests {
        requests := requests[consumer := bucket];
        var seconds := Ceiling(bucket[0] + limits.windowSeconds as real - now);
        return Denied(if seconds < 1 then 1 else seconds);
      }
      requests := requests[consumer := bucket + [now]];
      return Allowed;
    }

    method PopExpired(times: seq<real>, cutoff: real) returns (bucket: seq<real>)
      ensures bucket == Expire(times, cutoff)
    {
      bucket := times;
      while bucket != [] && bucket[0] <= cutoff
        invariant Expire(bucket, cutoff) == Expire(times, cutoff)
        decreases |bucket|
      {
        bucket := bucket[1..];
      }
    }

    method PruneEmpty(cutoff: real)
      modifies this`requests
      ensures requests == Pruned(old(requests), cutoff)
    {
      var expired: set<string> := {};
      var rest := requests.Keys;
      while rest != {}
        invariant rest <= requests.Keys == old(requests).Keys
        invariant expired <= requests.Keys - rest
        invariant forall consumer :: consumer in rest ==> requests[consumer] == old(requests)[consumer]
        invariant forall consumer :: consumer in requests.Keys - rest ==>
          && requests[consumer] == Expire(old(requests)[consumer], cutoff)
          && (consumer in expired <==> requests[consumer] == [])
      {
        var consumer :| consumer in rest;
        rest := rest - {consumer};
        var bucket := PopExpired(requests[consumer], cutoff);
        requests := requests[consumer := bucket];
        if bucket == [] { expired := expired + {consumer}; }
      }
      requests := requests - expired;
    }
  }

  // ----- with clock readings in order, the buckets answer for the whole log

  ghost predicate Follows(l: Limits, requests: map<string, seq<real>>, log: seq<Admission>, latest: real) {
    && |requests| <= l.maxConsumers
    && AllFaithful(log, latest - l.windowSeconds as real, requests)
    && Bounded(requests, l.maxRequests, latest)
    && Fair(log, l.maxRequests, l.windowSeconds as real)
  }

  /** What a decision means, in terms of the log before it. */
  ghost predicate Meets(l: Limits, log: seq<Admission>, consumer: string, now: real, known: bool, decision: Decision) {
    var window := l.windowSeconds as real;
    var recent := |Recent(log, consumer, now - window)|;
    && (decision.BadKey? <==> |consumer| != 64)
    && (decision.Allowed? ==> recent < l.maxRequests)
    && (decision.Denied? ==>
          && recent == l.maxRequests && decision.retryAfter <= l.windowSeconds
          && LeastWait(log, consumer, now, l.maxRequests, window, decision.retryAfter))
    && (decision.CapacityReached? <==> |consumer| == 64 && !known && |Live(log, now - window)| >= l.maxConsumers)
  }

  lemma ConsumedFollows(l: Limits, requests: map<string, seq<real>>, log: seq<Admission>, consumer: string, now: real)
    requires LimitsOk(l) && |consumer| == 64 && consumer in requests && Follows(l, requests, log, now)
    ensures var (next, decision) := Consumed(l, requests, consumer, now);
      && Follows(l, next, log + if decision.Allowed? then [Admission(consumer, now)] else [], now)
      && Meets(l, log, consumer, now, true, decision)
  {
    var cutoff := now - l.windowSeconds as real;
    var bucket := Expire(requests[consumer], cutoff);
    assert Bucket(requests, consumer) == requests[consumer];
    hide Recent, Live, Fair, Faithful, LeastWait, AllFaithful, Expire, Pruned, Bounded;
    BucketIsFaithful(log, cutoff, requests, consumer);
    ExpiredIsFaithful(log, consumer, cutoff, cutoff, requests[consumer]);
    BoundedAt(requests, l.maxRequests, now, consumer);
    ReplaceSize(requests, consumer, bucket);
    ReplaceSize(requests, consumer, bucket + [now]);
    assert BucketBounded(bucket, l.maxRequests, now) && forall x :: x in bucket ==> x <= now;
    if |bucket| >= l.maxRequests {
      DeniedFollows(l, requests, log, consumer, now, bucket);
    } else {
      AllowedFollows(l, requests, log, consumer, now, bucket);
    }
  }

  lemma ReplaceSize(requests: map<string, seq<real>>, consumer: string, bucket: seq<real>)
    requires consumer in requests
    ensures |requests[consumer := bucket]| == |requests|
  {
    assert requests[consumer := bucket].Keys == requests.Keys;
    assert |requests[consumer := bucket].Keys| == |requests.Keys|;
  }

  lemma DeniedFollows(
    l: Limits, requests: map<string, seq<real>>, log: seq<Admission>, consumer: string, now: real, bucket: seq<real>)
    requires LimitsOk(l) && consumer in requests && Follows(l, requests, log, now)
    requires var cutoff := now - l.windowSeconds as real;
      Faithful(log, consumer, cutoff, bucket) && bucket == Recent(log, consumer, cutoff) && (bucket != [] ==> bucket[0] > cutoff)
    requires BucketBounded(bucket, l.maxRequests, now) && |bucket| >= l.maxRequests
    requires |requests[consumer := bucket]| == |requests|
    ensures Follows(l, requests[consumer := bucket], log + [], now)
    ensures |Recent(log, consumer, now - l.windowSeconds as real)| == l.maxRequests
    ensures var seconds := Ceiling(bucket[0] + l.windowSeconds as real - now);
      && 1 <= seconds <= l.windowSeconds
      && LeastWait(log, consumer, now, l.maxRequests, l.windowSeconds as real, seconds)
  {
    var window := l.windowSeconds as real;
    assert log + [] == log && bucket[0] in bucket;
    hide Recent, Fair, Faithful, AllFaithful, Bounded;
    ReplaceKeeps(log, now - window, requests, consumer, bucket);
    BoundedReplace(requests, l.maxRequests, now, consumer, bucket);
    WaitIsLeast(log, consumer, now, l.maxRequests, window, bucket);
    WaitIsShort(bucket[0], now, l.windowSeconds);
  }

  lemma AllowedFollows(
    l: Limits, requests: map<string, seq<real>>, log: seq<Admission>, consumer: string, now: real, bucket: seq<real>)
    requires LimitsOk(l) && consumer in requests && Follows(l, requests, log, now)
    requires var cutoff := now - l.windowSeconds as real;
      Faithful(log, consumer, cutoff, bucket) && bucket == Recent(log, consumer, cutoff)
    requires BucketBounded(bucket, l.maxRequests, now) && |bucket| < l.maxRequests
    requires |requests[consumer := bucket + [now]]| == |requests|
    ensures Follows(l, requests[consumer := bucket + [now]], log + [Admission(consumer, now)], now)
  {
    var window := l.windowSeconds as real;
    AdmitKeeps(log, now - window, requests, consumer, bucket, now);
    FairStep(log, l.maxRequests, window, Admission(consumer, now));
    assert BucketBounded(bucket + [now], l.maxRequests, now);
    hide Recent, Fair, Faithful, AllFaithful, Bounded;
    BoundedReplace(requests, l.maxRequests, now, consumer, bucket + [now]);
  }

  lemma WaitIsShort(head: real, now: real, windowSeconds: nat)
    requires head <= now
    ensures Ceiling(head + windowSeconds as real - now) <= windowSeconds
  {
    assert (Ceiling(head + windowSeconds as real - now) - 1) as real < windowSeconds as real;
  }

  lemma CheckedFollows(
    l: Limits, requests: map<string, seq<real>>, log: seq<Admission>, latest: real, consumer: string, now: real)
    requires LimitsOk(l) && Follows(l, requests, log, latest) && latest <= now
    ensures var (next, decision) := Checked(l, requests, consumer, now);
      && Follows(l, next, log + if decision.Allowed? then [Admission(consumer, now)] else [], now)
      && Meets(l, log, consumer, now, consumer in requests, decision)
  {
    var cutoff := now - l.windowSeconds as real;
    hide Recent, Live, Fair, Faithful, LeastWait, AllFaithful, Expire, Pruned, Bounded;
    StillFaithful(log, latest - l.windowSeconds as real, cutoff, requests);
    StillBounded(requests, l.maxRequests, latest, now);
    assert log + [] == log;
    if |consumer| == 64 {
      if consumer in requests {
        hide Consumed;
        ConsumedFollows(l, requests, log, consumer, now);
      } else {
        var pruned := Pruned(requests, cutoff);
        PrunedIsFaithful(log, cutoff, cutoff, requests);
        PrunedIsSmaller(requests, cutoff);
        if |pruned| < l.maxConsumers {
          BucketIsFaithful(log, cutoff, pruned, consumer);
          ReplaceKeeps(log, cutoff, pruned, consumer, []);
          BoundedReplace(pruned, l.maxRequests, now, consumer, []);
          hide Consumed;
          ConsumedFollows(l, pruned[consumer := []], log, consumer, now);
        }
      }
    }
  }

  datatype Call = Call(consumer: string, at: real)

  /** The buckets and the log of admissions after a sequence of calls, for any clock. */
  function After(l: Limits, calls: seq<Call>): (map<string, seq<real>>, seq<Admission>)
    requires LimitsOk(l)
  {
    if calls == [] then (map[], [])
    else
      var (requests, log) := After(l, calls[..|calls| - 1]);
      var call := calls[|calls| - 1];
      var (next, decision) := Checked(l, requests, call.consumer, call.at);
      (next, log + if decision.Allowed? then [Admission(call.consumer, call.at)] else [])
  }

  ghost predicate InOrder(calls: seq<Call>) {
    forall i, k :: 0 <= i < k < |calls| ==> calls[i].at <= calls[k].at
  }

  lemma {:induction false} RunFollows(l: Limits, calls: seq<Call>, now: real)
    requires LimitsOk(l) && InOrder(calls + [Call("", now)])
    ensures var (requests, log) := After(l, calls); Follows(l, requests, log, now)
  {
    if calls == [] {
      assert AllFaithful([], now - l.windowSeconds as real, map[]);
    } else {
      var before, call := calls[..|calls| - 1], calls[|calls| - 1];
      var longer := calls + [Call("", now)];
      assert forall i :: 0 <= i < |calls| ==> longer[i] == calls[i];
      assert call.at <= now by { assert longer[|before|].at <= longer[|calls|].at; }
      assert InOrder(before + [Call("", call.at)]);
      RunFollows(l, before, call.at);
      var (requests, log) := After(l, before);
      hide Follows, Checked, Meets;
      CheckedFollows(l, requests, log, call.at, call.consumer, call.at);
      FollowsLater(l, After(l, calls).0, After(l, calls).1, call.at, now);
    }
  }

  lemma FollowsLater(l: Limits, requests: map<string, seq<real>>, log: seq<Admission>, latest: real, now: real)
    requires Follows(l, requests, log, latest) && latest <= now
    ensures Follows(l, requests, log, now)
  {
    hide Fair, Faithful, AllFaithful, Bounded;
    StillFaithful(log, latest - l.windowSeconds as real, now - l.windowSeconds as real, requests);
    StillBounded(requests, l.maxRequests, latest, now);
  }

  /** After calls in clock order, the decision on the next is what the whole log says:
      admitted with fewer than the limit in the window behind it, denied with the least
      wait otherwise, refused for capacity only as an unknown consumer among enough live
      ones.  */
  lemma DecidesByTheLog(l: Limits, calls: seq<Call>, consumer: string, now: real)
    requires LimitsOk(l) && InOrder(calls + [Call("", now)])
    ensures var (requests, log) := After(l, calls);
      Meets(l, log, consumer, now, consumer in requests, Checked(l, requests, consumer, now).1)
  {
    RunFollows(l, calls, now);
    var (requests, log) := After(l, calls);
    hide Follows, Checked, Meets;
    CheckedFollows(l, requests, log, now, consumer, now);
  }

  /** And no window, wherever it is laid, holds more than the limit of one consumer. */
  lemma NeverABurst(l: Limits, calls: seq<Call>, consumer: string, from: real)
    requires LimitsOk(l) && InOrder(calls)
    ensures |Between(After(l, calls).1, consumer, from, from + l.windowSeconds as real)| <= l.maxRequests
  {
    var now := if calls == [] then 0.0 else calls[|calls| - 1].at;
    RunFollows(l, calls, now);
    hide After, Fair;
    NoBurst(After(l, calls).1, l.maxRequests, l.windowSeconds as real, consumer, from);
  }
}
