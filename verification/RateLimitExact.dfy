/** Exactly when eviction is invisible: conditions on burst, interval, horizon and clock, both ways. */
module RateLimitExact {
  import opened Events
  import opened RateLimit
  import opened RateLimitLaws

  ghost predicate Invisible(c: Config, horizon: nat, ops: seq<Op>) {
    forall k :: 0 <= k < |ops| ==> Answer(c, horizon, ops, k) == PlainAnswer(c, ops, k)
  }

  lemma InvisibleRun(c: Config, horizon: nat, gap: nat, ops: seq<Op>)
    requires Sane(c) && Restores(c, horizon, gap) && Timed(ops, gap)
    ensures Invisible(c, horizon, ops)
  {
    hide Restores, Answer, PlainAnswer;
    forall k | 0 <= k < |ops|
      ensures Answer(c, horizon, ops, k) == PlainAnswer(c, ops, k)
    {
      EvictionInvisible(c, horizon, gap, ops, k);
    }
  }

  // ---------------------------------------------------------------------------
  // A run that tells the limiters apart: some calls, an eviction, and a whole burst at once.

  function Repeat(op: Op, n: nat): seq<Op> {
    if n == 0 then [] else Repeat(op, n - 1) + [op]
  }

  lemma {:induction false} RepeatAt(op: Op, n: nat)
    ensures |Repeat(op, n)| == n && forall k :: 0 <= k < n ==> Repeat(op, n)[k] == op
  {
    if n > 0 {
      RepeatAt(op, n - 1);
    }
  }

  /** A burst at instant `at` after some run. */
  function Burst(ops: seq<Op>, ip: string, at: Time, n: nat): seq<Op> {
    ops + Repeat(Call(ip, at, at), n)
  }

  lemma BurstGrows(ops: seq<Op>, ip: string, at: Time, n: nat, all: nat)
    requires n < all
    ensures |Burst(ops, ip, at, all)| == |ops| + all
    ensures Burst(ops, ip, at, all)[|ops| + n] == Call(ip, at, at)
    ensures Burst(ops, ip, at, all)[..|ops| + n] == Burst(ops, ip, at, n)
    ensures Burst(ops, ip, at, n + 1) == Burst(ops, ip, at, n) + [Call(ip, at, at)]
  {
    RepeatAt(Call(ip, at, at), all);
    RepeatAt(Call(ip, at, at), n);
    assert Burst(ops, ip, at, all)[..|ops| + n] == Burst(ops, ip, at, n);
  }

  lemma BurstLength(ops: seq<Op>, ip: string, at: Time, n: nat)
    ensures |Burst(ops, ip, at, n)| == |ops| + n
  {
    RepeatAt(Call(ip, at, at), n);
  }

  lemma BurstTimed(ops: seq<Op>, gap: nat, ip: string, at: Time, n: nat)
    requires Timed(ops, gap) && 0 <= at && Clock(ops) <= at
    ensures Timed(Burst(ops, ip, at, n), gap)
  {
    RepeatAt(Call(ip, at, at), n);
    var all := Burst(ops, ip, at, n);
    forall j, k | 0 <= j < k < |all|
      ensures End(all[j]) <= Begin(all[k])
    {
      if j < |ops| {
        EndsBeforeClock(ops, gap, j);
      }
    }
  }

  lemma EndsBeforeClock(ops: seq<Op>, gap: nat, j: nat)
    requires Timed(ops, gap) && j < |ops|
    ensures End(ops[j]) <= Clock(ops)
  {
    assert OpTimed(ops[|ops| - 1], gap);
  }

  lemma MoreTimed(ops: seq<Op>, gap: nat, op: Op)
    requires Timed(ops, gap) && OpTimed(op, gap) && Clock(ops) <= Begin(op)
    ensures Timed(ops + [op], gap) && Clock(ops + [op]) == End(op)
  {
    var all := ops + [op];
    forall j, k | 0 <= j < k < |all|
      ensures End(all[j]) <= Begin(all[k])
    {
      if k == |ops| {
        EndsBeforeClock(ops, gap, j);
      }
    }
  }

  lemma PlainOneMore(c: Config, ops: seq<Op>, op: Op, ip: string)
    ensures PlainBucket(c, ops + [op], ip) ==
      var b := PlainBucket(c, ops, ip);
      if op.Call? && op.ip == ip then Admit(c, b, op.now).1 else b
  {
    assert (ops + [op])[..|ops|] == ops;
  }

  lemma TableOneMore(c: Config, horizon: nat, ops: seq<Op>, op: Op)
    ensures TableAfter(c, horizon, ops + [op]) == TableStep(c, horizon, TableAfter(c, horizon, ops), op)
  {
    assert (ops + [op])[..|ops|] == ops;
  }

  lemma NoBurst(ops: seq<Op>, ip: string, at: Time)
    ensures Burst(ops, ip, at, 0) == ops
  {
  }

  /** The reference pays one token for each call of the burst it admits. */
  lemma {:induction false} PlainPays(c: Config, ops: seq<Op>, ip: string, at: Time, n: nat, all: nat)
    requires Sane(c) && n <= all && BucketOk(c, PlainBucket(c, ops, ip), at)
    requires |Burst(ops, ip, at, all)| == |ops| + all
    requires forall k :: |ops| <= k < |ops| + n ==> PlainAnswer(c, Burst(ops, ip, at, all), k)
    ensures
      var b := PlainBucket(c, Burst(ops, ip, at, n), ip);
      BucketOk(c, b, at) && Level(c, b, at) == Level(c, PlainBucket(c, ops, ip), at) - n as real
  {
    hide Burst, PlainBucket, BucketOk, Level, Admit;
    NoBurst(ops, ip, at);
    if n > 0 {
      PlainPays(c, ops, ip, at, n - 1, all);
      BurstGrows(ops, ip, at, n - 1, all);
      assert PlainAnswer(c, Burst(ops, ip, at, all), |ops| + n - 1);
      PlainOneMore(c, Burst(ops, ip, at, n - 1), Call(ip, at, at), ip);
      AdmitCosts(c, PlainBucket(c, Burst(ops, ip, at, n - 1), ip), at);
    }
  }

  /** For an address it has forgotten, the evicting limiter has a whole burst. */
  lemma {:induction false} EvictingPays(c: Config, horizon: nat, ops: seq<Op>, ip: string, at: Time, n: nat, all: nat)
    requires Sane(c) && n <= all == c.burst && 0 <= at && ip !in TableAfter(c, horizon, ops)
    ensures
      var b := BucketOf(c, TableAfter(c, horizon, Burst(ops, ip, at, n)), ip);
      BucketOk(c, b, at) && Level(c, b, at) == (c.burst - n) as real
  {
    hide Burst, TableAfter, Level, BucketOk;
    NoBurst(ops, ip, at);
    FreshIsFull(c, at);
    if n > 0 {
      EvictingPays(c, horizon, ops, ip, at, n - 1, all);
      BurstGrows(ops, ip, at, n - 1, all);
      TableOneMore(c, horizon, Burst(ops, ip, at, n - 1), Call(ip, at, at));
      AdmitCosts(c, BucketOf(c, TableAfter(c, horizon, Burst(ops, ip, at, n - 1)), ip), at);
    }
  }

  /** If the reference bucket is not full although the address is forgotten, a burst shows it. */
  lemma BurstShows(c: Config, horizon: nat, ops: seq<Op>, ip: string, at: Time)
    requires Sane(c) && 0 <= at && ip !in TableAfter(c, horizon, ops)
    requires BucketOk(c, PlainBucket(c, ops, ip), at) && Level(c, PlainBucket(c, ops, ip), at) < Full(c)
    ensures !Invisible(c, horizon, Burst(ops, ip, at, c.burst))
  {
    hide Burst, TableAfter, PlainBucket, Level;
    var all := Burst(ops, ip, at, c.burst);
    BurstLength(ops, ip, at, c.burst);
    forall k | |ops| <= k < |ops| + c.burst
      ensures Answer(c, horizon, all, k)
    {
      BurstGrows(ops, ip, at, k - |ops|, c.burst);
      EvictingPays(c, horizon, ops, ip, at, k - |ops|, c.burst);
    }
    if Invisible(c, horizon, all) {
      assert forall k :: |ops| <= k < |ops| + c.burst ==> PlainAnswer(c, all, k) == Answer(c, horizon, all, k);
      PlainPays(c, ops, ip, at, c.burst, c.burst);
      LevelGrows(c, PlainBucket(c, Burst(ops, ip, at, c.burst), ip), at, at);
      assert false;
    }
  }

  /** A run after which the address can be evicted before its bucket is full. */
  ghost predicate Exposes(c: Config, horizon: nat, gap: nat, ops: seq<Op>, ip: string, at: Time) {
    && Timed(ops, gap) && 0 <= Clock(ops) <= at
    && (ip in TableAfter(c, horizon, ops) ==> TableAfter(c, horizon, ops)[ip].lastSeen < at - horizon)
    && BucketOk(c, PlainBucket(c, ops, ip), at) && Level(c, PlainBucket(c, ops, ip), at) < Full(c)
  }

  lemma ExposureShows(c: Config, horizon: nat, gap: nat, ops: seq<Op>, ip: string, at: Time) returns (probe: seq<Op>)
    requires Sane(c) && Exposes(c, horizon, gap, ops, ip, at)
    ensures Timed(probe, gap) && !Invisible(c, horizon, probe)
  {
    var evicted := ops + [Evict(at)];
    MoreTimed(ops, gap, Evict(at));
    BurstTimed(evicted, gap, ip, at, c.burst);
    TableOneMore(c, horizon, ops, Evict(at));
    PlainOneMore(c, ops, Evict(at), ip);
    BurstShows(c, horizon, evicted, ip, at);
    probe := Burst(evicted, ip, at, c.burst);
  }

  // ---------------------------------------------------------------------------
  // Draining a bucket at instant 0.

  lemma {:induction false} Drained(c: Config, horizon: nat, ip: string, n: nat)
    requires Sane(c) && n <= c.burst
    ensures
      var ops := Burst([], ip, 0, n);
      && Timed(ops, 0) && Clock(ops) == 0 && PlainBucket(c, ops, ip) == Bucket((c.burst - n) as real, 0)
      && (ip in TableAfter(c, horizon, ops) ==> TableAfter(c, horizon, ops)[ip].lastSeen == 0)
  {
    hide Burst, Timed, TableAfter, PlainBucket;
    NoBurst([], ip, 0);
    if n == 0 {
      Untouched(c, horizon, ip);
    } else {
      var front, call := Burst([], ip, 0, n - 1), Call(ip, 0, 0);
      Drained(c, horizon, ip, n - 1);
      BurstGrows([], ip, 0, n - 1, n);
      MoreTimed(front, 0, call);
      PlainOneMore(c, front, call, ip);
      TableOneMore(c, horizon, front, call);
    }
  }

  lemma Untouched(c: Config, horizon: nat, ip: string)
    ensures Timed([], 0) && Clock([]) == 0 && PlainBucket(c, [], ip) == Bucket(c.burst as real, 0)
    ensures ip !in TableAfter(c, horizon, [])
  {
  }

  /** When the two readings of a call coincide: eviction is invisible in every run if and only if a full
      refill fits into horizon + 1, for any rate. */
  lemma InvisibleAtOneReading(c: Config, horizon: nat)
    requires Sane(c)
    ensures (forall ops :: Timed(ops, 0) ==> Invisible(c, horizon, ops)) <==>
      c.burst as real <= Refill(c.rate, horizon + 1)
  {
    if RefillFits(c, horizon, 0) {
      RefillFitsRestores(c, horizon, 0);
      forall ops | Timed(ops, 0)
        ensures Invisible(c, horizon, ops)
      {
        InvisibleRun(c, horizon, 0, ops);
      }
    } else {
      var ops := Burst([], "", 0, c.burst);
      Drained(c, horizon, "", c.burst);
      RefillAdds(c.rate, 0, horizon + 1);
      assert Exposes(c, horizon, 0, ops, "", horizon + 1);
      var probe := ExposureShows(c, horizon, 0, ops, "", horizon + 1);
    }
  }

  // ---------------------------------------------------------------------------
  // The rates the server builds: `rate.Every(interval)`, one token each `interval` nanoseconds.

  function Every(interval: nat, burst: nat): Config
    requires interval > 0
  {
    Config(1.0 / interval as real, burst)
  }

  function Least(a: nat, b: nat): nat {
    if a <= b then a else b
  }

  /** The condition, in whole nanoseconds. `gap` bounds how far apart the two readings of a call may be. */
  predicate Covers(interval: nat, burst: nat, horizon: nat, gap: nat) {
    burst == 0 || (burst * interval + Least(gap, interval) <= horizon + 1 && interval + gap <= horizon + 1)
  }

  lemma {:induction false} WholeTokens(interval: nat, burst: nat, k: nat)
    requires interval > 0
    ensures Refill(Every(interval, burst).rate, k * interval) == k as real
  {
    var r := Every(interval, burst).rate;
    if k > 0 {
      WholeTokens(interval, burst, k - 1);
      assert k * interval == (k - 1) * interval + interval;
      RefillAdds(r, (k - 1) * interval, interval);
      RefillIsProduct(r, interval);
    }
  }

  lemma RefillOrder(rate: real, a: nat, b: nat)
    requires rate > 0.0
    ensures a <= b ==> Refill(rate, a) <= Refill(rate, b)
    ensures a < b ==> Refill(rate, a) < Refill(rate, b)
  {
    if a < b {
      RefillAdds(rate, a, b - a);
      RefillAdds(rate, 0, b - a - 1);
    }
  }

  /** So many tokens come back exactly in so many intervals. */
  lemma EnoughTime(interval: nat, burst: nat, k: nat, time: nat)
    requires interval > 0
    ensures k as real <= Refill(Every(interval, burst).rate, time) <==> k * interval <= time
  {
    WholeTokens(interval, burst, k);
    RefillOrder(Every(interval, burst).rate, k * interval, time);
    RefillOrder(Every(interval, burst).rate, time, k * interval);
  }

  /** What one admitted call leaves is enough: the level was at least what the readings' distance refilled. */
  lemma CoveredRestores(interval: nat, burst: nat, horizon: nat, gap: nat)
    requires interval > 0 && burst > 0 && Covers(interval, burst, horizon, gap)
    ensures Restores(Every(interval, burst), horizon, gap)
  {
    var c := Every(interval, burst);
    forall b, seen, now | Spends(c, gap, b, seen, now)
      ensures Backed(c, horizon, Admit(c, b, now).1, seen)
    {
      CallRestores(interval, burst, horizon, gap, b, seen, now);
    }
  }

  lemma CallRestores(interval: nat, burst: nat, horizon: nat, gap: nat, b: Bucket, seen: Time, now: Time)
    requires interval > 0 && burst > 0 && Covers(interval, burst, horizon, gap)
    requires Spends(Every(interval, burst), gap, b, seen, now)
    ensures Backed(Every(interval, burst), horizon, Admit(Every(interval, burst), b, now).1, seen)
  {
    var c := Every(interval, burst);
    var d: nat, e: nat := now - seen, seen + horizon + 1 - now;
    EnoughTime(interval, burst, 1, e);
    RefillAdds(c.rate, seen - b.last, d);
    RefillAdds(c.rate, d, e);
    RefillAdds(c.rate, 0, seen - b.last);
    if Level(c, b, now) < Full(c) {
      if d <= interval {
        EnoughTime(interval, burst, burst, e);
      } else {
        EnoughTime(interval, burst, burst + 1, d + e);
        assert (burst + 1) * interval == burst * interval + interval;
      }
    }
  }

  /** Otherwise some run exposes it. Either the bucket is drained, the one token that comes back is spent by
      a call whose readings lie apart, and the entry counts as idle from the first of them; ... */
  lemma DrainedExposes(interval: nat, burst: nat, horizon: nat, gap: nat) returns (ops: seq<Op>, at: Time)
    requires interval > 0 && burst > 0 && burst * interval + Least(gap, interval) > horizon + 1
    ensures Exposes(Every(interval, burst), horizon, gap, ops, "", at)
  {
    var c, g := Every(interval, burst), Least(gap, interval);
    var front, call := Burst([], "", 0, burst), Call("", interval - g, interval);
    Drained(c, horizon, "", burst);
    TimedMore(front, gap);
    MoreTimed(front, gap, call);
    PlainOneMore(c, front, call, "");
    TableOneMore(c, horizon, front, call);
    WholeTokens(interval, burst, 1);
    ops, at := front + [call], Later(interval, interval - g + horizon + 1);
    EnoughTime(interval, burst, burst, at - interval);
    RefillAdds(c.rate, 0, at - interval);
    assert PlainBucket(c, ops, "") == Bucket(0.0, interval);
  }

  /** ... or the readings lie so far apart that not even the one token spent comes back. */
  lemma SlowCallExposes(interval: nat, burst: nat, horizon: nat, gap: nat) returns (ops: seq<Op>, at: Time)
    requires interval > 0 && burst > 0 && interval + gap > horizon + 1
    ensures Exposes(Every(interval, burst), horizon, gap, ops, "", at)
  {
    var c := Every(interval, burst);
    var call := Call("", 0, gap);
    FreshIsFull(c, gap);
    MoreTimed([], gap, call);
    PlainOneMore(c, [], call, "");
    TableOneMore(c, horizon, [], call);
    ops, at := [] + [call], Later(gap, horizon + 1);
    EnoughTime(interval, burst, 1, at - gap);
    RefillAdds(c.rate, 0, at - gap);
  }

  lemma TimedMore(ops: seq<Op>, gap: nat)
    requires Timed(ops, 0)
    ensures Timed(ops, gap)
  {
    forall k | 0 <= k < |ops|
      ensures OpTimed(ops[k], gap)
    {
      assert OpTimed(ops[k], 0);
    }
  }

  /** For every interval, burst, horizon and distance of the readings: eviction is invisible in every run
      if and only if the condition holds. */
  lemma EvictionInvisibleExactly(interval: nat, burst: nat, horizon: nat, gap: nat)
    requires interval > 0
    ensures (forall ops :: Timed(ops, gap) ==> Invisible(Every(interval, burst), horizon, ops)) <==>
      Covers(interval, burst, horizon, gap)
  {
    hide Restores, Invisible, Exposes, Timed;
    var c := Every(interval, burst);
    if Covers(interval, burst, horizon, gap) {
      CoversRestores(interval, burst, horizon, gap);
      forall ops | Timed(ops, gap)
        ensures Invisible(c, horizon, ops)
      {
        InvisibleRun(c, horizon, gap, ops);
      }
    } else {
      var ops: seq<Op>, at: Time;
      if burst * interval + Least(gap, interval) > horizon + 1 {
        ops, at := DrainedExposes(interval, burst, horizon, gap);
      } else {
        ops, at := SlowCallExposes(interval, burst, horizon, gap);
      }
      var probe := ExposureShows(c, horizon, gap, ops, "", at);
    }
  }

  /** Under the condition, one address is admitted in any window at most its burst and one call more for each
      interval that the window has room for. */
  lemma WindowBoundInIntervals(
      interval: nat, burst: nat, horizon: nat, gap: nat, ops: seq<Op>, ip: string, i: nat, j: nat, from: Time, length: nat)
    requires interval > 0 && Covers(interval, burst, horizon, gap)
    requires Timed(ops, gap) && i <= j <= |ops| && Clock(ops[..i]) <= from
    requires forall k :: i <= k < j ==> from <= Begin(ops[k]) && End(ops[k]) <= from + length
    ensures
      var admitted := Admitted(Every(interval, burst), horizon, ops, ip, i, j);
      admitted <= burst || (admitted - burst) * interval <= length
  {
    hide Restores, Timed, Admitted;
    var c := Every(interval, burst);
    CoversRestores(interval, burst, horizon, gap);
    WindowBound(c, horizon, gap, ops, ip, i, j, from, length);
    var admitted := Admitted(c, horizon, ops, ip, i, j);
    if admitted > burst {
      EnoughTime(interval, burst, admitted - burst, length);
    }
  }

  lemma CoversRestores(interval: nat, burst: nat, horizon: nat, gap: nat)
    requires interval > 0 && Covers(interval, burst, horizon, gap)
    ensures Restores(Every(interval, burst), horizon, gap)
  {
    hide Restores;
    if burst == 0 {
      EmptyBurst(interval, horizon, gap);
    } else {
      CoveredRestores(interval, burst, horizon, gap);
    }
  }

  lemma EmptyBurst(interval: nat, horizon: nat, gap: nat)
    requires interval > 0
    ensures Restores(Every(interval, 0), horizon, gap)
  {
    var c := Every(interval, 0);
    RefillAdds(c.rate, 0, if horizon + 1 >= gap then horizon + 1 - gap else 0);
    RefillFitsRestores(c, horizon, gap);
  }

  // ---------------------------------------------------------------------------
  // The shipped values: ten tokens, one a second, and ten minutes, in nanoseconds.

  /** With the shipped defaults eviction is invisible exactly while no call takes more than 599 seconds
      (and a nanosecond) between its two readings. */
  lemma DefaultsExactly(gap: nat)
    ensures
      (forall ops :: Timed(ops, gap) ==> Invisible(Every(1_000_000_000, 10), 600_000_000_000, ops))
      <==> gap <= 599_000_000_001
  {
    EvictionInvisibleExactly(1_000_000_000, 10, 600_000_000_000, gap);
  }
}
