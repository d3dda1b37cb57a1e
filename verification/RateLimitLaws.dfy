/** What the rate limiter promises over whole runs. */
module RateLimitLaws {
  import opened Events
  import opened RateLimit

  // ---------------------------------------------------------------------------
  // At most burst + rate * T admissions in any window of length T.

  function AdmittedPlain(c: Config, ops: seq<Op>, ip: string, i: nat, j: nat): nat
    requires i <= j <= |ops|
  {
    if i == j then 0
    else
      AdmittedPlain(c, ops, ip, i, j - 1)
      + if ops[j - 1].Call? && ops[j - 1].ip == ip && PlainAnswer(c, ops, j - 1) then 1 else 0
  }

  /** How many of the operations i, ..., j - 1 are admitted calls of ip. */
  function Admitted(c: Config, horizon: nat, ops: seq<Op>, ip: string, i: nat, j: nat): nat
    requires i <= j <= |ops|
  {
    if i == j then 0
    else
      Admitted(c, horizon, ops, ip, i, j - 1)
      + if ops[j - 1].Call? && ops[j - 1].ip == ip && Answer(c, horizon, ops, j - 1) then 1 else 0
  }

  lemma {:induction false} PlainBucketOk(c: Config, ops: seq<Op>, gap: nat, ip: string)
    requires Sane(c) && Timed(ops, gap)
    ensures 0 <= Clock(ops) && BucketOk(c, PlainBucket(c, ops, ip), Clock(ops))
  {
    if ops == [] {
      FreshIsFull(c, 0);
    } else {
      var front, op := ops[..|ops| - 1], ops[|ops| - 1];
      PlainBucketOk(c, front, gap, ip);
      assert OpTimed(op, gap);
      LevelGrows(c, PlainBucket(c, front, ip), Clock(front), End(op));
    }
  }

  /** Admitting costs exactly one token. */
  lemma AdmitCosts(c: Config, b: Bucket, now: Time)
    requires Sane(c) && BucketOk(c, b, now)
    ensures BucketOk(c, Admit(c, b, now).1, now)
    ensures Level(c, Admit(c, b, now).1, now) == Level(c, b, now) - if Admit(c, b, now).0 then 1.0 else 0.0
  {
    LevelGrows(c, b, now, now);
  }

  /** The level at instant `at`, plus what the address was admitted since operation i, is within budget. */
  ghost predicate Covered(c: Config, ops: seq<Op>, ip: string, i: nat, j: nat, at: Time, budget: real)
    requires i <= j <= |ops|
  {
    && BucketOk(c, PlainBucket(c, ops[..j], ip), at)
    && AdmittedPlain(c, ops, ip, i, j) as real + Level(c, PlainBucket(c, ops[..j], ip), at) <= budget
  }

  lemma CoveredLater(c: Config, ops: seq<Op>, ip: string, i: nat, j: nat, at: Time, to: Time, budget: real)
    requires Sane(c) && i <= j <= |ops| && at <= to && Covered(c, ops, ip, i, j, at, budget)
    ensures Covered(c, ops, ip, i, j, to, budget + Refill(c.rate, to - at))
  {
    var b, n := PlainBucket(c, ops[..j], ip), AdmittedPlain(c, ops, ip, i, j);
    LevelGrows(c, b, at, to);
  }

  lemma CoveredStep(c: Config, ops: seq<Op>, ip: string, i: nat, j: nat, budget: real)
    requires Sane(c) && i < j <= |ops| && Covered(c, ops, ip, i, j - 1, End(ops[j - 1]), budget)
    ensures Covered(c, ops, ip, i, j, End(ops[j - 1]), budget)
  {
    assert ops[..j][..j - 1] == ops[..j - 1];
    AdmitCosts(c, PlainBucket(c, ops[..j - 1], ip), End(ops[j - 1]));
  }

  function Budget(c: Config, from: Time, to: Time): real
    requires from <= to
  {
    Full(c) + Refill(c.rate, to - from)
  }

  lemma CoveredAtStart(c: Config, ops: seq<Op>, gap: nat, ip: string, i: nat, from: Time, to: Time)
    requires Sane(c) && Timed(ops, gap) && i <= |ops| && Clock(ops[..i]) <= from <= to
    ensures Covered(c, ops, ip, i, i, to, Budget(c, from, to))
  {
    assert Timed(ops[..i], gap) by {
      assert forall k :: 0 <= k < i ==> OpTimed(ops[k], gap);
    }
    PlainBucketOk(c, ops[..i], gap, ip);
    assert Covered(c, ops, ip, i, i, from, Full(c));
    CoveredLater(c, ops, ip, i, i, from, to, Full(c));
  }

  lemma CoveredByOne(c: Config, ops: seq<Op>, ip: string, i: nat, j: nat, from: Time, to: Time)
    requires Sane(c) && i < j <= |ops| && from <= End(ops[j - 1]) <= to
    requires Covered(c, ops, ip, i, j - 1, End(ops[j - 1]), Budget(c, from, End(ops[j - 1])))
    ensures Covered(c, ops, ip, i, j, to, Budget(c, from, to))
  {
    var end := End(ops[j - 1]);
    var budget := Budget(c, from, end);
    CoveredStep(c, ops, ip, i, j, budget);
    CoveredLater(c, ops, ip, i, j, end, to, budget);
    RefillAdds(c.rate, end - from, to - end);
  }

  /** Each admission is paid for out of the level at the window's start and the refill since. */
  lemma {:induction false} AdmissionsArePaidFor(c: Config, ops: seq<Op>, gap: nat, ip: string, i: nat, j: nat, from: Time, to: Time)
    requires Sane(c) && Timed(ops, gap) && i <= j <= |ops| && Clock(ops[..i]) <= from <= to
    requires forall k :: i <= k < j ==> from <= Begin(ops[k]) && End(ops[k]) <= to
    ensures Covered(c, ops, ip, i, j, to, Budget(c, from, to))
    decreases j - i
  {
    if i == j {
      CoveredAtStart(c, ops, gap, ip, i, from, to);
    } else {
      assert OpTimed(ops[j - 1], gap);
      AdmissionsArePaidFor(c, ops, gap, ip, i, j - 1, from, End(ops[j - 1]));
      CoveredByOne(c, ops, ip, i, j, from, to);
    }
  }

  lemma {:induction false} SameAdmissions(c: Config, horizon: nat, gap: nat, ops: seq<Op>, ip: string, i: nat, j: nat)
    requires Sane(c) && Restores(c, horizon, gap) && Timed(ops, gap) && i <= j <= |ops|
    ensures Admitted(c, horizon, ops, ip, i, j) == AdmittedPlain(c, ops, ip, i, j)
    decreases j - i
  {
    if i < j {
      SameAdmissions(c, horizon, gap, ops, ip, i, j - 1);
      EvictionInvisible(c, horizon, gap, ops, j - 1);
    }
  }

  /** Over any window and across any evictions and re-creations, one address is admitted at most
      burst + rate * length times (Refill is that product, by RefillIsProduct). */
  lemma WindowBound(c: Config, horizon: nat, gap: nat, ops: seq<Op>, ip: string, i: nat, j: nat, from: Time, length: nat)
    requires Sane(c) && Restores(c, horizon, gap) && Timed(ops, gap) && i <= j <= |ops| && Clock(ops[..i]) <= from
    requires forall k :: i <= k < j ==> from <= Begin(ops[k]) && End(ops[k]) <= from + length
    ensures Admitted(c, horizon, ops, ip, i, j) as real <= c.burst as real + Refill(c.rate, length)
  {
    AdmissionsArePaidFor(c, ops, gap, ip, i, j, from, from + length);
    CoveredBoundsAdmissions(c, ops, ip, i, j, from + length, Budget(c, from, from + length));
    SameAdmissions(c, horizon, gap, ops, ip, i, j);
  }

  lemma CoveredBoundsAdmissions(c: Config, ops: seq<Op>, ip: string, i: nat, j: nat, at: Time, budget: real)
    requires Sane(c) && i <= j <= |ops| && Covered(c, ops, ip, i, j, at, budget)
    ensures AdmittedPlain(c, ops, ip, i, j) as real <= budget
  {
    LevelGrows(c, PlainBucket(c, ops[..j], ip), at, at);
  }

  // ---------------------------------------------------------------------------
  // What the table holds.

  function LastSeen(ops: seq<Op>, ip: string): Option<Time> {
    if ops == [] then None
    else if ops[|ops| - 1].Call? && ops[|ops| - 1].ip == ip then Some(ops[|ops| - 1].seen)
    else LastSeen(ops[..|ops| - 1], ip)
  }

  lemma {:induction false} TableTracksLastSeen(c: Config, horizon: nat, gap: nat, ops: seq<Op>, ip: string)
    requires Timed(ops, gap)
    ensures
      var t := TableAfter(c, horizon, ops);
      if ip in t then LastSeen(ops, ip) == Some(t[ip].lastSeen)
      else (LastSeen(ops, ip).Some? ==> LastSeen(ops, ip).value < Clock(ops) - horizon)
  {
    if ops != [] {
      var front, op := ops[..|ops| - 1], ops[|ops| - 1];
      TableTracksLastSeen(c, horizon, gap, front, ip);
      assert OpTimed(op, gap);
      assert front != [] ==> End(ops[|front| - 1]) <= Begin(op);
    }
  }

  /** Right after an eviction the table holds exactly the addresses last seen within the horizon. */
  lemma EvictionKeepsExactly(c: Config, horizon: nat, gap: nat, ops: seq<Op>, at: Time, ip: string)
    requires Timed(ops + [Evict(at)], gap)
    ensures ip in TableAfter(c, horizon, ops + [Evict(at)]) <==>
      LastSeen(ops, ip).Some? && LastSeen(ops, ip).value >= at - horizon
  {
    var all := ops + [Evict(at)];
    assert all[..|ops|] == ops;
    assert forall k :: 0 <= k < |ops| ==> all[k] == ops[k];
    assert ops != [] ==> End(all[|ops| - 1]) <= Begin(all[|ops|]);
    assert OpTimed(all[|ops|], gap);
    assert Timed(ops, gap) by {
      assert forall k :: 0 <= k < |ops| ==> OpTimed(all[k], gap);
    }
    TableTracksLastSeen(c, horizon, gap, ops, ip);
  }
}
