/** internal/ratelimit/limiter.go as a timed machine, and the limiter that never forgets beside it. */
module RateLimit {
  import opened Events

  /** Tokens per nanosecond and bucket size, as given to NewIPLimiter. */
  datatype Config = Config(rate: real, burst: nat)

  ghost predicate Sane(c: Config) {
    c.rate >= 0.0
  }

  /** The library's token bucket: a level and the instant it was taken at. */
  datatype Bucket = Bucket(tokens: real, last: Time)

  function Fresh(c: Config): Bucket {
    Bucket(c.burst as real, 0)
  }

  function Full(c: Config): real {
    c.burst as real
  }

  /** rate * elapsed, as a sum over nanoseconds so that reasoning about it stays linear. */
  function Refill(rate: real, elapsed: nat): real {
    if elapsed == 0 then 0.0 else Refill(rate, elapsed - 1) + rate
  }

  lemma {:induction false} RefillIsProduct(rate: real, elapsed: nat)
    ensures Refill(rate, elapsed) == rate * elapsed as real
  {
    if elapsed > 0 {
      RefillIsProduct(rate, elapsed - 1);
    }
  }

  lemma {:induction false} RefillAdds(rate: real, a: nat, b: nat)
    requires rate >= 0.0
    ensures Refill(rate, a + b) == Refill(rate, a) + Refill(rate, b)
    ensures Refill(rate, b) >= 0.0
  {
    if b > 0 {
      RefillAdds(rate, a, b - 1);
    }
  }

  /** Refill is lazy, and a clock that steps back refills nothing. */
  function Level(c: Config, b: Bucket, now: Time): real {
    var refilled := b.tokens + Refill(c.rate, if now > b.last then now - b.last else 0);
    if refilled > Full(c) then Full(c) else refilled
  }

  function Admit(c: Config, b: Bucket, now: Time): (bool, Bucket) {
    if Level(c, b, now) >= 1.0 then (true, Bucket(Level(c, b, now) - 1.0, now)) else (false, b)
  }

  datatype Slot = Slot(bucket: Bucket, lastSeen: Time)

  /** Allow reads the clock twice: once for lastSeen, then again inside the library. */
  datatype Op = Call(ip: string, seen: Time, now: Time) | Evict(at: Time)

  function Begin(op: Op): Time {
    if op.Call? then op.seen else op.at
  }

  function End(op: Op): Time {
    if op.Call? then op.now else op.at
  }

  /** Operations in lock order on a clock that does not run back; the two readings of one call are
      at most `gap` apart. */
  ghost predicate Timed(ops: seq<Op>, gap: nat) {
    && (forall k :: 0 <= k < |ops| ==> OpTimed(ops[k], gap))
    && (forall j, k :: 0 <= j < k < |ops| ==> End(ops[j]) <= Begin(ops[k]))
  }

  ghost predicate OpTimed(op: Op, gap: nat) {
    0 <= Begin(op) <= End(op) <= Begin(op) + gap
  }

  function Clock(ops: seq<Op>): Time {
    if ops == [] then 0 else End(ops[|ops| - 1])
  }

  type Table = map<string, Slot>

  function BucketOf(c: Config, t: Table, ip: string): Bucket {
    if ip in t then t[ip].bucket else Fresh(c)
  }

  function Stale(slot: Slot, horizon: nat, at: Time): bool {
    slot.lastSeen < at - horizon
  }

  /** IPLimiter, with its eviction horizon. */
  function TableStep(c: Config, horizon: nat, t: Table, op: Op): Table {
    match op
    case Call(ip, seen, now) => t[ip := Slot(Admit(c, BucketOf(c, t, ip), now).1, seen)]
    case Evict(at) => map ip | ip in t && !Stale(t[ip], horizon, at) :: t[ip]
  }

  function TableAfter(c: Config, horizon: nat, ops: seq<Op>): Table {
    if ops == [] then map[] else TableStep(c, horizon, TableAfter(c, horizon, ops[..|ops| - 1]), ops[|ops| - 1])
  }

  /** The answer to the k-th operation, if that is a call. */
  function Answer(c: Config, horizon: nat, ops: seq<Op>, k: nat): bool
    requires k < |ops|
  {
    ops[k].Call? && Admit(c, BucketOf(c, TableAfter(c, horizon, ops[..k]), ops[k].ip), ops[k].now).0
  }

  // ---------------------------------------------------------------------------
  // The reference: one bucket per address, kept forever.

  function PlainBucket(c: Config, ops: seq<Op>, ip: string): Bucket {
    if ops == [] then Fresh(c)
    else
      var b := PlainBucket(c, ops[..|ops| - 1], ip);
      var op := ops[|ops| - 1];
      if op.Call? && op.ip == ip then Admit(c, b, op.now).1 else b
  }

  function PlainAnswer(c: Config, ops: seq<Op>, k: nat): bool
    requires k < |ops|
  {
    ops[k].Call? && Admit(c, PlainBucket(c, ops[..k], ops[k].ip), ops[k].now).0
  }

  // ---------------------------------------------------------------------------
  // Simulation.

  /** Indistinguishable from now on. */
  ghost predicate Alike(c: Config, a: Bucket, b: Bucket, now: Time) {
    a == b || (Level(c, a, now) == Full(c) && Level(c, b, now) == Full(c))
  }

  ghost predicate BucketOk(c: Config, b: Bucket, now: Time) {
    0.0 <= b.tokens <= Full(c) && 0 <= b.last <= now
  }

  function Later(a: Time, b: Time): Time {
    if a >= b then a else b
  }

  /** By the time an entry last seen at `seen` can be evicted, its bucket is full anyway. */
  ghost predicate Backed(c: Config, horizon: nat, b: Bucket, seen: Time) {
    Level(c, b, Later(b.last, seen + horizon + 1)) == Full(c)
  }

  /** A bucket as it may stand when an admitted call with these two readings begins. */
  ghost predicate Spends(c: Config, gap: nat, b: Bucket, seen: Time, now: Time) {
    0 <= seen <= now <= seen + gap && BucketOk(c, b, seen) && Level(c, b, now) >= 1.0
  }

  /** Whatever a call spends comes back before its entry can be evicted. */
  ghost predicate Restores(c: Config, horizon: nat, gap: nat) {
    forall b, seen, now :: Spends(c, gap, b, seen, now) ==> Backed(c, horizon, Admit(c, b, now).1, seen)
  }

  ghost predicate Simulates(c: Config, horizon: nat, t: Table, ip: string, b: Bucket, now: Time) {
    && BucketOk(c, b, now)
    && Alike(c, BucketOf(c, t, ip), b, now)
    && (ip in t ==> BucketOk(c, t[ip].bucket, now) && Backed(c, horizon, b, t[ip].lastSeen))
  }

  lemma LevelGrows(c: Config, b: Bucket, now: Time, later: Time)
    requires Sane(c) && BucketOk(c, b, now) && now <= later
    ensures 0.0 <= Level(c, b, now) <= Level(c, b, later) <= Level(c, b, now) + Refill(c.rate, later - now)
  {
    RefillAdds(c.rate, now - b.last, later - now);
    RefillAdds(c.rate, 0, now - b.last);
  }

  lemma AlikeLater(c: Config, a: Bucket, b: Bucket, now: Time, later: Time)
    requires Sane(c) && BucketOk(c, a, now) && BucketOk(c, b, now) && now <= later && Alike(c, a, b, now)
    ensures Alike(c, a, b, later)
  {
    LevelGrows(c, a, now, later);
    LevelGrows(c, b, now, later);
  }

  lemma FreshIsFull(c: Config, now: Time)
    requires Sane(c) && now >= 0
    ensures BucketOk(c, Fresh(c), now) && Level(c, Fresh(c), now) == Full(c)
  {
    RefillAdds(c.rate, 0, now);
  }

  /** Alike buckets give the same answer and stay alike. */
  lemma AdmitAlike(c: Config, a: Bucket, b: Bucket, now: Time)
    requires Sane(c) && BucketOk(c, a, now) && BucketOk(c, b, now) && Alike(c, a, b, now)
    ensures Admit(c, a, now).0 == Admit(c, b, now).0
    ensures Alike(c, Admit(c, a, now).1, Admit(c, b, now).1, now)
    ensures BucketOk(c, Admit(c, a, now).1, now) && BucketOk(c, Admit(c, b, now).1, now)
  {
  }

  /** A bucket idle for long enough is full again, whatever was in it. */
  lemma IdleRefills(c: Config, b: Bucket, at: Time, idle: nat)
    requires Sane(c) && BucketOk(c, b, at) && Full(c) <= Refill(c.rate, idle) && b.last + idle <= at
    ensures Level(c, b, at) == Full(c)
  {
    RefillAdds(c.rate, idle, at - b.last - idle);
  }

  /** A full refill fits into the time for which an evicted entry has been idle at least. */
  ghost predicate RefillFits(c: Config, horizon: nat, gap: nat) {
    Full(c) <= Refill(c.rate, if horizon + 1 >= gap then horizon + 1 - gap else 0)
  }

  lemma RefillFitsRestores(c: Config, horizon: nat, gap: nat)
    requires Sane(c) && RefillFits(c, horizon, gap)
    ensures Restores(c, horizon, gap)
  {
    forall b, seen, now | Spends(c, gap, b, seen, now)
      ensures Backed(c, horizon, Admit(c, b, now).1, seen)
    {
      IdleRefills(c, Admit(c, b, now).1, Later(now, seen + horizon + 1),
                  if horizon + 1 >= gap then horizon + 1 - gap else 0);
    }
  }

  lemma BackedIsFull(c: Config, horizon: nat, b: Bucket, seen: Time, at: Time)
    requires Sane(c) && BucketOk(c, b, at) && Backed(c, horizon, b, seen) && seen < at - horizon
    ensures Level(c, b, at) == Full(c)
  {
    LevelGrows(c, b, Later(b.last, seen + horizon + 1), at);
  }

  lemma BackedLater(c: Config, horizon: nat, b: Bucket, seen: Time, later: Time)
    requires Sane(c) && BucketOk(c, b, later) && Backed(c, horizon, b, seen) && seen <= later
    ensures Backed(c, horizon, b, later)
  {
    LevelGrows(c, b, Later(b.last, seen + horizon + 1), Later(b.last, later + horizon + 1));
  }

  /** A call leaves the bucket backed: an admitted one restores what it spends, a denied one spends nothing. */
  lemma CallBacks(c: Config, horizon: nat, gap: nat, t: Table, ip: string, b: Bucket, now: Time, op: Op)
    requires Sane(c) && Restores(c, horizon, gap) && op.Call? && op.ip == ip && 0 <= now
    requires Simulates(c, horizon, t, ip, b, now) && OpTimed(op, gap) && now <= op.seen
    requires ip in t ==> t[ip].lastSeen <= op.seen
    ensures Backed(c, horizon, Admit(c, b, op.now).1, op.seen)
  {
    if Level(c, b, op.now) >= 1.0 {
      assert Spends(c, gap, b, op.seen, op.now);
    } else if ip in t {
      BackedLater(c, horizon, b, t[ip].lastSeen, op.seen);
    } else {
      FreshIsFull(c, now);
      LevelGrows(c, b, now, op.now);
      LevelGrows(c, b, now, Later(b.last, op.seen + horizon + 1));
    }
  }

  lemma SimulationStep(c: Config, horizon: nat, gap: nat, t: Table, ip: string, b: Bucket, now: Time, op: Op)
    requires Sane(c) && Restores(c, horizon, gap) && 0 <= now
    requires Simulates(c, horizon, t, ip, b, now) && OpTimed(op, gap) && now <= Begin(op)
    requires ip in t ==> t[ip].lastSeen <= now
    ensures
      var b' := if op.Call? && op.ip == ip then Admit(c, b, op.now).1 else b;
      Simulates(c, horizon, TableStep(c, horizon, t, op), ip, b', End(op))
    ensures op.Call? && op.ip == ip ==> Admit(c, BucketOf(c, t, ip), op.now).0 == Admit(c, b, op.now).0
  {
    hide Restores, Backed, Level;
    var a := BucketOf(c, t, ip);
    FreshIsFull(c, now);
    AlikeLater(c, a, b, now, End(op));
    if op.Call? && op.ip == ip {
      AdmitAlike(c, a, b, op.now);
      CallBacks(c, horizon, gap, t, ip, b, now, op);
    } else if op.Evict? && ip in t && Stale(t[ip], horizon, op.at) {
      FreshIsFull(c, op.at);
      BackedIsFull(c, horizon, b, t[ip].lastSeen, op.at);
    }
  }

  lemma {:induction false} SimulationAlways(c: Config, horizon: nat, gap: nat, ops: seq<Op>, ip: string)
    requires Sane(c) && Restores(c, horizon, gap) && Timed(ops, gap)
    ensures 0 <= Clock(ops)
    ensures
      var t := TableAfter(c, horizon, ops);
      Simulates(c, horizon, t, ip, PlainBucket(c, ops, ip), Clock(ops)) && (ip in t ==> t[ip].lastSeen <= Clock(ops))
  {
    hide Restores, Backed, Level;
    if ops == [] {
      FreshIsFull(c, 0);
    } else {
      var front, op := ops[..|ops| - 1], ops[|ops| - 1];
      SimulationAlways(c, horizon, gap, front, ip);
      SimulationStep(c, horizon, gap, TableAfter(c, horizon, front), ip, PlainBucket(c, front, ip), Clock(front), op);
    }
  }

  /** The evicting limiter answers every call of every timed run as the one that never evicts. */
  lemma EvictionInvisible(c: Config, horizon: nat, gap: nat, ops: seq<Op>, k: nat)
    requires Sane(c) && Restores(c, horizon, gap) && Timed(ops, gap) && k < |ops|
    ensures Answer(c, horizon, ops, k) == PlainAnswer(c, ops, k)
  {
    hide Restores, Backed, Level;
    if ops[k].Call? {
      var front := ops[..k];
      SimulationAlways(c, horizon, gap, front, ops[k].ip);
      SimulationStep(c, horizon, gap, TableAfter(c, horizon, front), ops[k].ip,
                     PlainBucket(c, front, ops[k].ip), Clock(front), ops[k]);
    }
  }
}
