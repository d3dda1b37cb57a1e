/** internal/ratelimit/limiter.go: the limiter object. Its log of operations ties it to RateLimit. */
module IPLimiter {
  import opened Events
  import opened RateLimit

  class IPLimiter {
    const config: Config
    const horizon: nat
    var limiters: map<string, Slot>
    ghost var log: seq<Op>  // every operation so far, in lock order

    ghost predicate Valid()
      reads this
    {
      limiters == TableAfter(config, horizon, log)
    }

    constructor (config: Config, horizon: nat)
      ensures Valid() && log == [] && limiters == map[]
      ensures this.config == config && this.horizon == horizon
    {
      this.config, this.horizon := config, horizon;
      limiters := map[];
      log := [];
    }

    /** `seen` and `now` are the two clock readings of one call. */
    method Allow(ip: string, seen: Time, now: Time) returns (ok: bool)
      requires Valid()
      modifies this
      ensures Valid() && log == old(log) + [Call(ip, seen, now)]
      ensures ok == Answer(config, horizon, log, |old(log)|)
      ensures limiters.Keys == old(limiters).Keys + {ip} && limiters[ip].lastSeen == seen
      ensures forall other :: other in old(limiters) && other != ip ==> limiters[other] == old(limiters)[other]
    {
      var e: Slot;
      if ip in limiters {
        e := limiters[ip];
      } else {
        e := Slot(Fresh(config), 0);
      }
      e := e.(lastSeen := seen);
      var (admitted, bucket) := Admit(config, e.bucket, now);
      limiters := limiters[ip := e.(bucket := bucket)];
      ok := admitted;
      log := log + [Call(ip, seen, now)];
      assert log[..|old(log)|] == old(log);
    }

    method EvictStale(at: Time)
      requires Valid()
      modifies this
      ensures Valid() && log == old(log) + [Evict(at)]
      ensures forall ip :: ip in limiters <==> ip in old(limiters) && old(limiters)[ip].lastSeen >= at - horizon
      ensures forall ip :: ip in limiters ==> limiters[ip] == old(limiters)[ip]
    {
      var cutoff := at - horizon;
      var todo := limiters.Keys;
      ghost var all := limiters;
      while todo != {}
        invariant todo <= limiters.Keys && log == old(log)
        invariant forall ip :: ip in limiters <==> ip in all && (ip in todo || all[ip].lastSeen >= cutoff)
        invariant forall ip :: ip in limiters ==> limiters[ip] == all[ip]
        decreases |todo|
      {
        var ip :| ip in todo;
        if limiters[ip].lastSeen < cutoff {
          limiters := limiters - {ip};
        }
        todo := todo - {ip};
      }
      log := log + [Evict(at)];
      assert log[..|old(log)|] == old(log);
      assert limiters == TableStep(config, horizon, all, Evict(at));
    }

    method Count() returns (n: nat)
      ensures n == |limiters|
    {
      n := |limiters|;
    }
  }
}
