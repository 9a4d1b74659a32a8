/** The shared-store consumer rate limiter: one counter per consumer, restarted when
    the aligned window of the current call differs from the stored one.  */
module AlignedLimiter {
  datatype Limits = Limits(maxRequests: nat, windowSeconds: nat, maxConsumers: nat)

  datatype Row = Row(startedAt: int, count: nat)

  datatype Decision = Allowed | Denied(retryAfter: int) | CapacityReached | BadKey

  /** A call and, in a log, an admission; `at` counts microseconds since the epoch. */
  datatype Call = Call(consumer: string, at: nat)

  const MICROS := 1_000_000

  predicate LimitsOk(l: Limits) {
    1 <= l.maxRequests <= 100_000 && 1 <= l.windowSeconds <= 86_400 && 1 <= l.maxConsumers <= 1_000_000
  }

  predicate KeyOk(key: string) {
    |key| == 64 && forall c :: c in key ==> '0' <= c <= '9' || 'a' <= c <= 'f'
  }

  function WindowStart(at: nat, windowSeconds: nat): int
    requires windowSeconds > 0
  {
    var epoch := at / MICROS;
    epoch - epoch % windowSeconds
  }

  function CeilingSeconds(micros: int): int {
    -((-micros) / MICROS)
  }

  /** One call, as a function of the table. */
  function Checked(l: Limits, rows: map<string, Row>, call: Call): (map<string, Row>, Decision)
    requires LimitsOk(l)
  {
    var start := WindowStart(call.at, l.windowSeconds);
    if !KeyOk(call.consumer) then (rows, BadKey)
    else if call.consumer !in rows then
      if |rows| >= l.maxConsumers then (rows, CapacityReached)
      else (rows[call.consumer := Row(start, 1)], Allowed)
    else
      var row := rows[call.consumer];
      if row.startedAt != start then (rows[call.consumer := Row(start, 1)], Allowed)
      else if row.count >= l.maxRequests then
        var wait := CeilingSeconds((row.startedAt + l.windowSeconds) * MICROS - call.at);
        (rows, Denied(if wait < 1 then 1 else wait))
      else (rows[call.consumer := Row(start, row.count + 1)], Allowed)
  }

  class PostgresFixedWindowConsumerRateLimiter {
    const limits: Limits
    var rows: map<string, Row>

    constructor (limits: Limits)
      requires LimitsOk(limits)
      ensures this.limits == limits && rows == map[]
    {
      this.limits, rows := limits, map[];
    }

    method Check(consumer: string, at: nat) returns (decision: Decision)
      requires LimitsOk(limits)
      modifies this
      ensures (rows, decision) == Checked(limits, old(rows), Call(consumer, at))
    {
      if !KeyOk(consumer) { return BadKey; }
      var start := WindowStart(at, limits.windowSeconds);
      if consumer !in rows {
        if |rows| >= limits.maxConsumers { return CapacityReached; }
        rows := rows[consumer := Row(start, 1)];
        return Allowed;
      }
      var row := rows[consumer];
      if row.startedAt != start {
        rows := rows[consumer := Row(start, 1)];
        return Allowed;
      }
      if row.count >= limits.maxRequests {
        var wait := CeilingSeconds((row.startedAt + limits.windowSeconds) * MICROS - at);
        return Denied(if wait < 1 then 1 else wait);
      }
      rows := rows[consumer := row.(count := row.count + 1)];
      return Allowed;
    }
  }

  // ----- runs

  /** The table and the admissions after a sequence of calls in commit order. */
  function After(l: Limits, calls: seq<Call>): (map<string, Row>, seq<Call>)
    requires LimitsOk(l)
  {
    if calls == [] then (map[], [])
    else
      var (rows, log) := After(l, calls[..|calls| - 1]);
      var call := calls[|calls| - 1];
      var (next, decision) := Checked(l, rows, call);
      (next, if decision.Allowed? then log + [call] else log)
  }

  /** The admissions of one consumer in one aligned window. */
  function InWindow(log: seq<Call>, consumer: string, start: int, windowSeconds: nat): nat
    requires windowSeconds > 0
  {
    if log == [] then 0
    else
      var last := log[|log| - 1];
      InWindow(log[..|log| - 1], consumer, start, windowSeconds) +
        if last.consumer == consumer && WindowStart(last.at, windowSeconds) == start then 1 else 0
  }

  /** The admissions of one consumer in [from, until). */
  function Within(log: seq<Call>, consumer: string, from: int, until: int): nat {
    if log == [] then 0
    else
      var last := log[|log| - 1];
      Within(log[..|log| - 1], consumer, from, until) +
        if last.consumer == consumer && from <= last.at < until then 1 else 0
  }

  lemma StartsGrow(a: nat, b: nat, windowSeconds: nat)
    requires windowSeconds > 0 && a <= b
    ensures WindowStart(a, windowSeconds) <= WindowStart(b, windowSeconds)
  {
    var x, y := WindowStart(a, windowSeconds), WindowStart(b, windowSeconds);
    var p, q := a / MICROS / windowSeconds, b / MICROS / windowSeconds;
    StartIsMultiple(a, windowSeconds);
    StartIsMultiple(b, windowSeconds);
    hide WindowStart;
    assert (q - p + 1) * windowSeconds == y - x + windowSeconds > 0;
    Positive(q - p + 1, windowSeconds);
    Positive(q - p, windowSeconds);
  }

  lemma Positive(k: int, w: nat)
    requires w > 0
    ensures k * w > 0 <==> k > 0
    ensures k >= 0 ==> k * w >= 0
  {
    if k <= 0 { assert (-k) * w >= 0; }
  }

  lemma StartIsMultiple(at: nat, windowSeconds: nat)
    requires windowSeconds > 0
    ensures WindowStart(at, windowSeconds) == (at / MICROS / windowSeconds) * windowSeconds
    ensures WindowStart(at, windowSeconds) <= at / MICROS < WindowStart(at, windowSeconds) + windowSeconds
  {
  }

  lemma StartShifts(at: nat, windowSeconds: nat)
    requires windowSeconds > 0
    ensures WindowStart(at + windowSeconds * MICROS, windowSeconds) == WindowStart(at, windowSeconds) + windowSeconds
  {
    assert (at + windowSeconds * MICROS) / MICROS == at / MICROS + windowSeconds;
    RemainderShifts(at / MICROS, windowSeconds);
  }

  lemma RemainderShifts(epoch: nat, w: nat)
    requires w > 0
    ensures (epoch + w) % w == epoch % w
  {
    var p, r := (epoch + w) / w, (epoch + w) % w;
    var q, s := epoch / w, epoch % w;
    assert (p - q - 1) * w == s - r;
    Positive(p - q - 1, w);
    Positive(q - p + 1, w);
    if p - q - 1 >= 1 { Positive(p - q - 2, w); }
    if q - p + 1 >= 1 { Positive(q - p, w); }
  }

  // ----- what one consumer's readings decide

  /** The windows of the calls of one consumer that met its row or found room for one,
      in commit order: every call but those refused for capacity.  */
  function Served(l: Limits, calls: seq<Call>, consumer: string): seq<int>
    requires LimitsOk(l)
  {
    if calls == [] then []
    else
      var before, call := calls[..|calls| - 1], calls[|calls| - 1];
      Served(l, before, consumer) +
        if call.consumer == consumer && KeyOk(consumer) && !Checked(l, After(l, before).0, call).1.CapacityReached?
        then [WindowStart(call.at, l.windowSeconds)] else []
  }

  /** A maximal run of equal windows. */
  datatype Block = Block(start: int, length: nat)

  function Extend(blocks: seq<Block>, start: int): seq<Block> {
    if blocks != [] && blocks[|blocks| - 1].start == start
    then blocks[..|blocks| - 1] + [Block(start, blocks[|blocks| - 1].length + 1)]
    else blocks + [Block(start, 1)]
  }

  function Blocks(starts: seq<int>): seq<Block> {
    if starts == [] then [] else Extend(Blocks(starts[..|starts| - 1]), starts[|starts| - 1])
  }

  lemma BlocksStep(starts: seq<int>, start: int)
    ensures Blocks(starts + [start]) == Extend(Blocks(starts), start)
  {
    assert (starts + [start])[..|starts|] == starts;
  }

  function Repeat(start: int, length: nat): seq<int> {
    seq(length, _ => start)
  }

  function Spread(blocks: seq<Block>): seq<int> {
    if blocks == [] then []
    else Spread(blocks[..|blocks| - 1]) + Repeat(blocks[|blocks| - 1].start, blocks[|blocks| - 1].length)
  }

  lemma SpreadStep(blocks: seq<Block>, start: int)
    ensures Spread(Extend(blocks, start)) == Spread(blocks) + [start]
  {
    var longer := Extend(blocks, start);
    if blocks != [] && blocks[|blocks| - 1].start == start {
      assert longer[..|longer| - 1] == blocks[..|blocks| - 1];
      assert Repeat(start, blocks[|blocks| - 1].length + 1) == Repeat(start, blocks[|blocks| - 1].length) + [start];
    } else {
      assert longer[..|longer| - 1] == blocks;
      assert Repeat(start, 1) == [start];
    }
  }

  /** No block is empty and neighbours differ. */
  ghost predicate Proper(blocks: seq<Block>) {
    && (forall i :: 0 <= i < |blocks| ==> blocks[i].length >= 1)
    && (forall i :: 0 <= i < |blocks| - 1 ==> blocks[i].start != blocks[i + 1].start)
  }

  lemma ExtendIsProper(blocks: seq<Block>, start: int)
    requires Proper(blocks)
    ensures Proper(Extend(blocks, start))
  {
  }

  /** The blocks are the readings, cut exactly where the window changes. */
  lemma {:induction false} BlocksAreMaximal(starts: seq<int>)
    ensures Spread(Blocks(starts)) == starts && Proper(Blocks(starts))
  {
    if starts != [] {
      var before, start := starts[..|starts| - 1], starts[|starts| - 1];
      assert Blocks(starts) == Extend(Blocks(before), start);
      hide *;
      BlocksAreMaximal(before);
      SpreadStep(Blocks(before), start);
      ExtendIsProper(Blocks(before), start);
      assert starts == before + [start];
    }
  }

  function Min(a: nat, b: nat): nat {
    if a < b then a else b
  }

  /** What the blocks of one window admit: each at most the limit. */
  function Quota(blocks: seq<Block>, start: int, limit: nat): nat {
    if blocks == [] then 0
    else
      var last := blocks[|blocks| - 1];
      Quota(blocks[..|blocks| - 1], start, limit) + if last.start == start then Min(last.length, limit) else 0
  }

  /** The row is the last block, its count cut at the limit; the log holds in every
      window what the blocks of that window admit.  */
  ghost predicate FollowsBlocks(l: Limits, rows: map<string, Row>, log: seq<Call>, consumer: string, blocks: seq<Block>)
    requires LimitsOk(l)
  {
    && (consumer in rows <==> blocks != [])
    && (blocks != [] ==>
          var last := blocks[|blocks| - 1];
          last.length >= 1 && rows[consumer] == Row(last.start, Min(last.length, l.maxRequests)))
    && forall start: int :: InWindow(log, consumer, start, l.windowSeconds) == Quota(blocks, start, l.maxRequests)
  }

  lemma QuotaSnoc(blocks: seq<Block>, b: Block, s: int, limit: nat)
    ensures Quota(blocks + [b], s, limit) == Quota(blocks, s, limit) + if b.start == s then Min(b.length, limit) else 0
  {
    assert (blocks + [b])[..|blocks|] == blocks;
  }

  /** One more reading admits one more call, unless its block is full. */
  lemma QuotaStep(blocks: seq<Block>, start: int, limit: nat, s: int)
    requires limit >= 1
    ensures var same := blocks != [] && blocks[|blocks| - 1].start == start;
      Quota(Extend(blocks, start), s, limit) == Quota(blocks, s, limit) +
        if s == start && (same ==> blocks[|blocks| - 1].length < limit) then 1 else 0
  {
    if blocks != [] && blocks[|blocks| - 1].start == start {
      var init, last := blocks[..|blocks| - 1], blocks[|blocks| - 1];
      assert blocks == init + [last];
      QuotaSnoc(init, last, s, limit);
      QuotaSnoc(init, Block(start, last.length + 1), s, limit);
    } else {
      QuotaSnoc(blocks, Block(start, 1), s, limit);
    }
    hide Quota;
  }

  lemma LogStep(log: seq<Call>, call: Call, consumer: string, s: int, windowSeconds: nat)
    requires windowSeconds > 0
    ensures InWindow(log + [call], consumer, s, windowSeconds) == InWindow(log, consumer, s, windowSeconds) +
      if call.consumer == consumer && WindowStart(call.at, windowSeconds) == s then 1 else 0
  {
    assert (log + [call])[..|log|] == log;
  }

  /** One served call extends the blocks, and the row and the log follow. */
  lemma ServedCall(l: Limits, rows: map<string, Row>, log: seq<Call>, call: Call, starts: seq<int>)
    requires LimitsOk(l) && KeyOk(call.consumer) && FollowsBlocks(l, rows, log, call.consumer, Blocks(starts))
    requires !Checked(l, rows, call).1.CapacityReached?
    ensures var (next, decision) := Checked(l, rows, call);
      FollowsBlocks(l, next, if decision.Allowed? then log + [call] else log, call.consumer,
        Blocks(starts + [WindowStart(call.at, l.windowSeconds)]))
  {
    var start := WindowStart(call.at, l.windowSeconds);
    BlocksStep(starts, start);
    ServedRow(l, rows, log, call, Blocks(starts));
    var (next, decision) := Checked(l, rows, call);
    hide Checked, WindowStart, KeyOk, InWindow, Quota, Blocks;
    forall s: int ensures InWindow(if decision.Allowed? then log + [call] else log, call.consumer, s, l.windowSeconds)
                       == Quota(Blocks(starts + [start]), s, l.maxRequests)
    {
      QuotaStep(Blocks(starts), start, l.maxRequests, s);
      LogStep(log, call, call.consumer, s, l.windowSeconds);
    }
  }

  /** The row becomes the last block's, and the call is admitted unless its block is full. */
  lemma ServedRow(l: Limits, rows: map<string, Row>, log: seq<Call>, call: Call, blocks: seq<Block>)
    requires LimitsOk(l) && KeyOk(call.consumer) && FollowsBlocks(l, rows, log, call.consumer, blocks)
    requires !Checked(l, rows, call).1.CapacityReached?
    ensures var (next, decision) := Checked(l, rows, call);
      var start := WindowStart(call.at, l.windowSeconds);
      var extended := Extend(blocks, start);
      var last := extended[|extended| - 1];
      && call.consumer in next && next[call.consumer] == Row(last.start, Min(last.length, l.maxRequests))
      && (decision.Allowed? <==>
            (blocks != [] && blocks[|blocks| - 1].start == start ==> blocks[|blocks| - 1].length < l.maxRequests))
  {
    hide WindowStart, KeyOk, InWindow, Quota;
  }

  /** A call of somebody else, or one refused before it is counted, leaves them be. */
  lemma UnservedCall(l: Limits, rows: map<string, Row>, log: seq<Call>, call: Call, consumer: string, blocks: seq<Block>)
    requires LimitsOk(l) && FollowsBlocks(l, rows, log, consumer, blocks)
    requires call.consumer != consumer || !KeyOk(consumer) || Checked(l, rows, call).1.CapacityReached?
    ensures var (next, decision) := Checked(l, rows, call);
      FollowsBlocks(l, next, if decision.Allowed? then log + [call] else log, consumer, blocks)
  {
    hide KeyOk, Quota, WindowStart;
    forall s: int ensures InWindow(log + [call], consumer, s, l.windowSeconds)
      == InWindow(log, consumer, s, l.windowSeconds) + if call.consumer == consumer && WindowStart(call.at, l.windowSeconds) == s then 1 else 0
    {
      LogStep(log, call, consumer, s, l.windowSeconds);
    }
    hide InWindow;
  }

  lemma {:induction false} RunFollowsBlocks(l: Limits, calls: seq<Call>, consumer: string)
    requires LimitsOk(l)
    ensures var (rows, log) := After(l, calls);
      FollowsBlocks(l, rows, log, consumer, Blocks(Served(l, calls, consumer)))
  {
    if calls != [] {
      var before, call := calls[..|calls| - 1], calls[|calls| - 1];
      RunFollowsBlocks(l, before, consumer);
      var (rows, log) := After(l, before);
      hide FollowsBlocks, Blocks, Checked, KeyOk, WindowStart;
      if call.consumer == consumer && KeyOk(consumer) && !Checked(l, rows, call).1.CapacityReached? {
        ServedCall(l, rows, log, call, Served(l, before, consumer));
      } else {
        UnservedCall(l, rows, log, call, consumer, Blocks(Served(l, before, consumer)));
        assert Served(l, before, consumer) + [] == Served(l, before, consumer);
      }
    }
  }

  /** For any clocks whatever: a window admits, of each block of consecutive calls of
      the consumer that read that window, at most the limit; no more and no less.  */
  lemma AdmittedByBlocks(l: Limits, calls: seq<Call>, consumer: string, start: int)
    requires LimitsOk(l)
    ensures InWindow(After(l, calls).1, consumer, start, l.windowSeconds)
         == Quota(Blocks(Served(l, calls, consumer)), start, l.maxRequests)
  {
    RunFollowsBlocks(l, calls, consumer);
  }

  // ----- when nobody is refused for capacity, the readings alone decide

  /** The windows that the clock readings of one consumer's calls fall in. */
  function Readings(l: Limits, calls: seq<Call>, consumer: string): seq<int>
    requires LimitsOk(l)
  {
    if calls == [] then []
    else
      var before, call := calls[..|calls| - 1], calls[|calls| - 1];
      Readings(l, before, consumer) +
        if call.consumer == consumer && KeyOk(consumer) then [WindowStart(call.at, l.windowSeconds)] else []
  }

  function Consumers(calls: seq<Call>): set<string> {
    set call | call in calls && KeyOk(call.consumer) :: call.consumer
  }

  lemma {:induction false} RowsAreConsumers(l: Limits, calls: seq<Call>)
    requires LimitsOk(l)
    ensures After(l, calls).0.Keys <= Consumers(calls)
  {
    if calls != [] {
      RowsAreConsumers(l, calls[..|calls| - 1]);
      hide KeyOk, WindowStart;
    }
  }

  /** Those who were ever admitted. */
  function Admitted(log: seq<Call>): set<string> {
    set c | c in log :: c.consumer
  }

  lemma AdmittedOneMore(log: seq<Call>, call: Call)
    ensures Admitted(log + [call]) == Admitted(log) + {call.consumer}
  {
    assert forall c :: c in log + [call] <==> c in log || c == call;
    assert call in log + [call];
  }

  /** The rows are those of the consumers admitted so far, and never too many. */
  lemma {:induction false} RowsAreTheAdmitted(l: Limits, calls: seq<Call>)
    requires LimitsOk(l)
    ensures After(l, calls).0.Keys == Admitted(After(l, calls).1) && |Admitted(After(l, calls).1)| <= l.maxConsumers
  {
    if calls != [] {
      var before, call := calls[..|calls| - 1], calls[|calls| - 1];
      var (rows, log) := After(l, before);
      RowsAreTheAdmitted(l, before);
      AdmittedOneMore(log, call);
      CheckedKeys(l, rows, call);
      hide Checked, Admitted;
    }
  }

  lemma CheckedKeys(l: Limits, rows: map<string, Row>, call: Call)
    requires LimitsOk(l)
    ensures var (next, decision) := Checked(l, rows, call);
      && next.Keys == (if decision.Allowed? then rows.Keys + {call.consumer} else rows.Keys)
      && (decision.Allowed? ==> call.consumer in rows.Keys || |rows.Keys| < l.maxConsumers)
  {
    assert |rows| == |rows.Keys|;
    hide KeyOk, WindowStart;
  }

  /** Capacity refuses exactly a newcomer who finds the full number of consumers admitted
      before, and a key is refused exactly if it is no key; nothing else is refused but by
      the limit, and then with a positive delay.  */
  lemma RefusalsAreExact(l: Limits, calls: seq<Call>, call: Call)
    requires LimitsOk(l)
    ensures var (rows, log) := After(l, calls); var decision := Checked(l, rows, call).1;
      && (decision.BadKey? <==> !KeyOk(call.consumer))
      && (decision.CapacityReached? <==>
            KeyOk(call.consumer) && call.consumer !in Admitted(log) && |Admitted(log)| == l.maxConsumers)
      && (decision.Denied? ==> call.consumer in Admitted(log) && decision.retryAfter >= 1)
  {
    RowsAreTheAdmitted(l, calls);
    var rows := After(l, calls).0;
    assert |rows| == |rows.Keys|;
    hide After, Admitted, KeyOk, WindowStart;
  }

  lemma Fewer(a: set<string>, b: set<string>, x: string)
    requires a <= b && x in b && x !in a
    ensures |a| < |b|
  {
    assert b == a + (b - a) && x in b - a;
  }

  lemma {:induction false} ServedIsReadings(l: Limits, calls: seq<Call>, consumer: string)
    requires LimitsOk(l) && |Consumers(calls)| <= l.maxConsumers
    ensures Served(l, calls, consumer) == Readings(l, calls, consumer)
  {
    if calls != [] {
      var before, call := calls[..|calls| - 1], calls[|calls| - 1];
      var rows := After(l, before).0;
      RowsAreConsumers(l, before);
      assert Consumers(before) <= Consumers(calls);
      Subset(Consumers(before), Consumers(calls));
      ServedIsReadings(l, before, consumer);
      if KeyOk(call.consumer) && call.consumer !in rows {
        assert call in calls;
        Fewer(rows.Keys, Consumers(calls), call.consumer);
      }
      hide KeyOk, WindowStart, Consumers, After;
    }
  }

  lemma Subset(a: set<string>, b: set<string>)
    requires a <= b
    ensures |a| <= |b|
  {
    assert b == a + (b - a);
  }

  /** The exact law of the limit, from the readings alone and for any clocks: a window
      holds at most the limit if and only if its blocks of readings, each cut at the
      limit, add up to at most the limit.  */
  lemma LimitHoldsExactly(l: Limits, calls: seq<Call>, consumer: string, start: int)
    requires LimitsOk(l) && |Consumers(calls)| <= l.maxConsumers
    ensures InWindow(After(l, calls).1, consumer, start, l.windowSeconds) <= l.maxRequests
      <==> Quota(Blocks(Readings(l, calls, consumer)), start, l.maxRequests) <= l.maxRequests
  {
    AdmittedByBlocks(l, calls, consumer, start);
    ServedIsReadings(l, calls, consumer);
  }

  // ----- readings in order

  ghost predicate Sorted(starts: seq<int>) {
    forall i, k :: 0 <= i < k < |starts| ==> starts[i] <= starts[k]
  }

  /** Sorted readings give one block a window. */
  lemma {:induction false} SortedQuota(starts: seq<int>, limit: nat)
    requires Sorted(starts) && limit >= 1
    ensures var blocks := Blocks(starts);
      && (forall s: int :: Quota(blocks, s, limit) <= limit)
      && (starts == [] <==> blocks == [])
      && (starts != [] ==>
            var last := blocks[|blocks| - 1];
            && last.start == starts[|starts| - 1] && last.length >= 1
            && Quota(blocks, last.start, limit) == Min(last.length, limit)
            && forall s: int :: s > last.start ==> Quota(blocks, s, limit) == 0)
      && (starts == [] ==> forall s: int :: Quota(blocks, s, limit) == 0)
  {
    if starts != [] {
      var before, start := starts[..|starts| - 1], starts[|starts| - 1];
      SortedQuota(before, limit);
      if before != [] { assert before[|before| - 1] <= start; }
      forall s: int ensures Quota(Blocks(starts), s, limit) == Quota(Blocks(before), s, limit) +
        if s == start && (Blocks(before) != [] && Blocks(before)[|Blocks(before)| - 1].start == start
                          ==> Blocks(before)[|Blocks(before)| - 1].length < limit) then 1 else 0
      {
        QuotaStep(Blocks(before), start, limit, s);
      }
      hide Quota;
    }
  }

  /** The consumer's own calls read their windows in commit order. */
  ghost predicate WindowsInOrder(l: Limits, calls: seq<Call>, consumer: string)
    requires LimitsOk(l)
  {
    Sorted(Served(l, calls, consumer))
  }

  /** With its windows read in order, a consumer never exceeds the limit in any. */
  lemma LimitHolds(l: Limits, calls: seq<Call>, consumer: string, start: int)
    requires LimitsOk(l) && WindowsInOrder(l, calls, consumer)
    ensures InWindow(After(l, calls).1, consumer, start, l.windowSeconds) <= l.maxRequests
  {
    AdmittedByBlocks(l, calls, consumer, start);
    SortedQuota(Served(l, calls, consumer), l.maxRequests);
  }

  /** Clock readings in commit order put every consumer's windows in order. */
  lemma {:induction false} OrderedClocksOrderWindows(l: Limits, calls: seq<Call>, consumer: string)
    requires LimitsOk(l) && forall i, k :: 0 <= i < k < |calls| ==> calls[i].at <= calls[k].at
    ensures WindowsInOrder(l, calls, consumer)
    ensures calls != [] ==>
      forall s :: s in Served(l, calls, consumer) ==> s <= WindowStart(calls[|calls| - 1].at, l.windowSeconds)
  {
    if calls != [] {
      var before, call := calls[..|calls| - 1], calls[|calls| - 1];
      OrderedClocksOrderWindows(l, before, consumer);
      if before != [] { StartsGrow(before[|before| - 1].at, call.at, l.windowSeconds); }
      var earlier := Served(l, before, consumer);
      assert forall i :: 0 <= i < |earlier| ==> earlier[i] in earlier;
      hide WindowStart, Checked, After, KeyOk;
    }
  }

  /** In order, the next call is admitted iff its consumer has fewer than the limit in
      the call's aligned window.  */
  lemma AdmittedIffRoom(l: Limits, calls: seq<Call>, call: Call)
    requires LimitsOk(l) && KeyOk(call.consumer)
    requires Sorted(Served(l, calls, call.consumer) + [WindowStart(call.at, l.windowSeconds)])
    ensures var (rows, log) := After(l, calls);
      var decision := Checked(l, rows, call).1;
      var count := InWindow(log, call.consumer, WindowStart(call.at, l.windowSeconds), l.windowSeconds);
      && (decision.CapacityReached? <==> call.consumer !in rows && |rows| >= l.maxConsumers)
      && (!decision.CapacityReached? ==> (decision.Allowed? <==> count < l.maxRequests))
      && (decision.CapacityReached? ==> count == 0)
  {
    var starts, start := Served(l, calls, call.consumer), WindowStart(call.at, l.windowSeconds);
    RunFollowsBlocks(l, calls, call.consumer);
    SortedInit(starts, start);
    SortedQuota(starts, l.maxRequests);
    hide InWindow, WindowStart, After, Quota, Blocks, KeyOk, Served;
  }

  lemma SortedInit(starts: seq<int>, start: int)
    requires Sorted(starts + [start])
    ensures Sorted(starts) && (starts != [] ==> starts[|starts| - 1] <= start)
  {
    var longer := starts + [start];
    assert forall i :: 0 <= i < |starts| ==> longer[i] == starts[i];
    if starts != [] { assert longer[|starts| - 1] <= longer[|starts|]; }
  }

  // ----- no burst beyond twice the limit

  /** Two instants less than a window apart lie in one aligned window or in
      neighbouring ones.  */
  lemma Neighbours(at: nat, last: nat, windowSeconds: nat)
    requires windowSeconds > 0 && at <= last < at + windowSeconds * MICROS
    ensures WindowStart(at, windowSeconds) == WindowStart(last, windowSeconds)
         || WindowStart(at, windowSeconds) == WindowStart(last, windowSeconds) - windowSeconds
  {
    StartsGrow(at, last, windowSeconds);
    StartsGrow(last, at + windowSeconds * MICROS, windowSeconds);
    StartShifts(at, windowSeconds);
    StartIsMultiple(at, windowSeconds);
    StartIsMultiple(last, windowSeconds);
    hide WindowStart;
    Steps(at / MICROS / windowSeconds, last / MICROS / windowSeconds, windowSeconds);
  }

  lemma Steps(p: int, q: int, w: nat)
    requires w > 0 && p * w <= q * w <= p * w + w
    ensures q * w == p * w || q * w == p * w + w
  {
    assert (q - p - 1) * w == q * w - p * w - w <= 0;
    assert (p - q) * w == p * w - q * w <= 0;
    Positive(q - p - 1, w);
    Positive(p - q, w);
  }

  lemma {:induction false} WithinIsCovered(log: seq<Call>, consumer: string, from: int, until: nat, windowSeconds: nat)
    requires windowSeconds > 0 && until == from + windowSeconds * MICROS && until > 0
    ensures var start := WindowStart(until - 1, windowSeconds);
      Within(log, consumer, from, until)
      <= InWindow(log, consumer, start, windowSeconds) + InWindow(log, consumer, start - windowSeconds, windowSeconds)
  {
    if log != [] {
      var last := log[|log| - 1];
      WithinIsCovered(log[..|log| - 1], consumer, from, until, windowSeconds);
      if from <= last.at < until { Neighbours(last.at, until - 1, windowSeconds); }
    }
  }

  /** Any interval as long as the window, wherever it starts, holds at most twice the
      limit of the admissions of a consumer whose windows are read in order.  */
  lemma AtMostTwice(l: Limits, calls: seq<Call>, consumer: string, from: int)
    requires LimitsOk(l) && WindowsInOrder(l, calls, consumer)
    ensures Within(After(l, calls).1, consumer, from, from + l.windowSeconds * MICROS) <= 2 * l.maxRequests
  {
    var log := After(l, calls).1;
    var until := from + l.windowSeconds * MICROS;
    if until > 0 {
      var start := WindowStart(until - 1, l.windowSeconds);
      LimitHolds(l, calls, consumer, start);
      LimitHolds(l, calls, consumer, start - l.windowSeconds);
      hide After, WindowStart, Within, InWindow;
      WithinIsCovered(log, consumer, from, until, l.windowSeconds);
    } else {
      NothingBeforeZero(log, consumer, from, until);
    }
  }

  lemma {:induction false} NothingBeforeZero(log: seq<Call>, consumer: string, from: int, until: int)
    requires until <= 0
    ensures Within(log, consumer, from, until) == 0
  {
    if log != [] { NothingBeforeZero(log[..|log| - 1], consumer, from, until); }
  }

  // ----- the retry delay

  /** The delay is the least whole number of seconds, at least one, that reaches
      another window; there the consumer starts afresh.  */
  lemma RetryIsLeast(l: Limits, rows: map<string, Row>, call: Call)
    requires LimitsOk(l) && Checked(l, rows, call).1.Denied?
    ensures var wait := Checked(l, rows, call).1.retryAfter;
      && 1 <= wait <= l.windowSeconds
      && Checked(l, rows, call.(at := call.at + wait * MICROS)).1.Allowed?
      && forall s: nat :: 1 <= s < wait ==> Checked(l, rows, Later(call, s)).1.Denied?
  {
    var w := l.windowSeconds;
    var start := WindowStart(call.at, w);
    var left := (start + w) * MICROS - call.at;
    var wait := CeilingSeconds(left);
    StartIsMultiple(call.at, w);
    assert 0 < left <= w * MICROS;
    assert left <= wait * MICROS < left + MICROS;
    StartIsMultiple(call.at + wait * MICROS, w);
    forall s: nat | 1 <= s < wait ensures WindowStart(Later(call, s).at, w) == start {
      SameWindow(call.at, Later(call, s).at, w);
    }
  }

  /** Until the window ends the start stays the same. */
  lemma SameWindow(at: nat, later: nat, w: nat)
    requires w > 0 && at <= later < (WindowStart(at, w) + w) * MICROS
    ensures WindowStart(later, w) == WindowStart(at, w)
  {
    StartsGrow(at, later, w);
    StartIsMultiple(at, w);
    StartIsMultiple(later, w);
    hide WindowStart;
    StepsBelow(at / MICROS / w, later / MICROS / w, w);
  }

  lemma StepsBelow(p: int, q: int, w: nat)
    requires w > 0 && p * w <= q * w < p * w + w
    ensures q * w == p * w
  {
    assert (p + 1 - q) * w == p * w + w - q * w > 0;
    assert (p - q) * w == p * w - q * w <= 0;
    Positive(p + 1 - q, w);
    Positive(p - q, w);
  }

  function Later(call: Call, seconds: nat): Call {
    call.(at := call.at + seconds * MICROS)
  }

  // ----- clocks that step back

  function Alternating(n: nat, consumer: string, windowSeconds: nat): seq<Call> {
    if n == 0 then []
    else Alternating(n - 1, consumer, windowSeconds) + [Call(consumer, 0)] + [Call(consumer, windowSeconds * MICROS)]
  }

  lemma StartsOfTwo(w: nat)
    requires w > 0
    ensures WindowStart(0, w) == 0 && WindowStart(w * MICROS, w) == w
  {
    StartShifts(0, w);
  }

  lemma ReadOne(l: Limits, calls: seq<Call>, call: Call)
    requires LimitsOk(l) && KeyOk(call.consumer)
    ensures Readings(l, calls + [call], call.consumer)
         == Readings(l, calls, call.consumer) + [WindowStart(call.at, l.windowSeconds)]
  {
    assert (calls + [call])[..|calls|] == calls;
  }

  /** What is left of a sequence of readings: what window zero admits, and that another
      window was read last.  */
  ghost predicate Ends(starts: seq<int>, quota: nat, w: int, limit: nat) {
    && Quota(Blocks(starts), 0, limit) == quota
    && (Blocks(starts) != [] ==> Blocks(starts)[|Blocks(starts)| - 1].start == w)
  }

  lemma TwoMoreReadings(starts: seq<int>, quota: nat, w: int, limit: nat)
    requires w != 0 && limit >= 1 && Ends(starts, quota, w, limit)
    ensures Ends(starts + [0] + [w], quota + 1, w, limit)
  {
    BlocksStep(starts, 0);
    BlocksStep(starts + [0], w);
    TwoMore(Blocks(starts), w, limit);
    hide Quota, Blocks, Extend;
  }

  /** Their readings are blocks of one. */
  lemma {:induction false} AlternatingBlocks(l: Limits, n: nat, consumer: string)
    requires LimitsOk(l) && KeyOk(consumer)
    ensures Ends(Readings(l, Alternating(n, consumer, l.windowSeconds), consumer), n, l.windowSeconds, l.maxRequests)
  {
    assert l.maxRequests >= 1 && l.windowSeconds != 0;
    hide *;
    if n == 0 {
      NothingRead(l, consumer);
      NoBlocks(l.windowSeconds, l.maxRequests);
    } else {
      var before := Alternating(n - 1, consumer, l.windowSeconds);
      AlternatingStep(n, consumer, l.windowSeconds);
      AlternatingBlocks(l, n - 1, consumer);
      ReadTwo(l, before, consumer);
      TwoMoreReadings(Readings(l, before, consumer), n - 1, l.windowSeconds, l.maxRequests);
    }
  }

  lemma NothingRead(l: Limits, consumer: string)
    requires LimitsOk(l)
    ensures Readings(l, Alternating(0, consumer, l.windowSeconds), consumer) == []
  {
  }

  lemma NoBlocks(w: int, limit: nat)
    ensures Ends([], 0, w, limit)
  {
  }

  lemma AlternatingStep(n: nat, consumer: string, windowSeconds: nat)
    requires n > 0
    ensures Alternating(n, consumer, windowSeconds) == Alternating(n - 1, consumer, windowSeconds)
      + [Call(consumer, 0)] + [Call(consumer, windowSeconds * MICROS)]
  {
  }

  lemma ReadTwo(l: Limits, calls: seq<Call>, consumer: string)
    requires LimitsOk(l) && KeyOk(consumer)
    ensures Readings(l, calls + [Call(consumer, 0)] + [Call(consumer, l.windowSeconds * MICROS)], consumer)
         == Readings(l, calls, consumer) + [0] + [l.windowSeconds]
  {
    StartsOfTwo(l.windowSeconds);
    hide Readings, KeyOk, WindowStart;
    ReadOne(l, calls, Call(consumer, 0));
    ReadOne(l, calls + [Call(consumer, 0)], Call(consumer, l.windowSeconds * MICROS));
  }

  lemma TwoMore(blocks: seq<Block>, w: int, limit: nat)
    requires w != 0 && limit >= 1 && (blocks != [] ==> blocks[|blocks| - 1].start == w)
    ensures var longer := Extend(Extend(blocks, 0), w);
      && Quota(longer, 0, limit) == Quota(blocks, 0, limit) + 1
      && longer != [] && longer[|longer| - 1].start == w
  {
    QuotaStep(blocks, 0, limit, 0);
    QuotaStep(Extend(blocks, 0), w, limit, 0);
    hide Quota;
  }

  lemma {:induction false} AlternatingConsumers(n: nat, consumer: string, windowSeconds: nat)
    ensures forall call :: call in Alternating(n, consumer, windowSeconds) ==> call.consumer == consumer
  {
    if n > 0 { AlternatingConsumers(n - 1, consumer, windowSeconds); }
  }

  /** An instance of the law: two clocks one window apart, taking turns, make blocks of
      one, and any number of calls is admitted in the same window.  */
  lemma UnorderedClocksBreakTheLimit(l: Limits, n: nat, consumer: string)
    requires LimitsOk(l) && KeyOk(consumer)
    ensures InWindow(After(l, Alternating(n, consumer, l.windowSeconds)).1, consumer, 0, l.windowSeconds) == n
  {
    var calls := Alternating(n, consumer, l.windowSeconds);
    AlternatingConsumers(n, consumer, l.windowSeconds);
    assert Consumers(calls) <= {consumer};
    Subset(Consumers(calls), {consumer});
    hide Consumers, KeyOk;
    ServedIsReadings(l, calls, consumer);
    AdmittedByBlocks(l, calls, consumer, 0);
    AlternatingBlocks(l, n, consumer);
  }
}
