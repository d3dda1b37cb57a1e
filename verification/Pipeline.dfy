/** From publication to the attackers table: bus, worker pool and store together. */
module Pipeline {
  import opened Events
  import opened Indicators
  import B = BusProtocol
  import S = BusSafety
  import W = WorkerPool
  import P = PoolShutdown
  import opened Store
  import opened StoreOrder

  function EventsOf(items: seq<B.Item>): seq<Event> {
    if items == [] then []
    else EventsOf(items[..|items| - 1]) + [items[|items| - 1].event]
  }

  lemma {:induction false} EventsConcat(xs: seq<B.Item>, ys: seq<B.Item>)
    ensures EventsOf(xs + ys) == EventsOf(xs) + EventsOf(ys)
  {
    if ys == [] {
      assert xs + ys == xs;
    } else {
      var n := |ys| - 1;
      assert (xs + ys)[..|xs| + n] == xs + ys[..n];
      EventsConcat(xs, ys[..n]);
    }
  }

  lemma EventsWithout(items: seq<B.Item>, k: nat)
    requires k < |items|
    ensures multiset(EventsOf(items)) == multiset(EventsOf(items[..k] + items[k + 1..])) + multiset{items[k].event}
  {
    hide EventsOf;
    var front, back := items[..k], items[k + 1..];
    assert items == front + [items[k]] + back;
    EventsConcat(front + [items[k]], back);
    EventsConcat(front, [items[k]]);
    OneEvent(items[k]);
    EventsConcat(front, back);
  }

  lemma OneEvent(item: B.Item)
    ensures EventsOf([item]) == [item.event]
  {
    assert [item][..0] == [];
  }

  lemma {:induction false} EventsPermute(xs: seq<B.Item>, ys: seq<B.Item>)
    requires multiset(xs) == multiset(ys)
    ensures multiset(EventsOf(xs)) == multiset(EventsOf(ys))
  {
    if xs == [] {
      SameLength(xs, ys);
    } else {
      var k := Matching(xs, ys);
      EventsPermute(xs[..|xs| - 1], ys[..k] + ys[k + 1..]);
      EventsWithout(ys, k);
    }
  }

  lemma SameItems(xs: seq<B.Item>, ys: seq<B.Item>)
    requires forall item :: W.Times(xs, item) == W.Times(ys, item)
    ensures multiset(xs) == multiset(ys)
  {
    forall item
      ensures multiset(xs)[item] == multiset(ys)[item]
    {
      assert W.Times(xs, item) == W.Times(ys, item);
    }
  }

  /** The attackers table counts the accepted events. */
  ghost predicate Totals(attackers: map<string, Attacker>, events: seq<Event>, ip: string) {
    && (ip in attackers <==> Many(events, FromIp(ip)) > 0)
    && (ip in attackers ==>
        && attackers[ip].totalEvents == Many(events, FromIp(ip))
        && attackers[ip].totalSessions == Many(events, ConnectsFrom(ip)))
  }

  /** When all workers have returned and the buffer is empty, and the attacker upserts of the processed events
      reached the database in any order, each address has as many stored events, and connects, as the feed
      accepted from it. */
  lemma DrainedTotals(
      states: seq<W.System>, moves: seq<W.Move>, i: nat,
      run: seq<Statement>, parse: string -> Option<Address>, nil: NilTags, ip: string)
    requires W.Run(states, moves) && i < |states| && P.AllDone(states[i])
    requires states[i].feed < |states[i].bus.channels|
    requires states[i].bus.channels[states[i].feed].buffer == []
    requires Counted(run, EventsOf(states[i].processed))
    ensures
      Totals(After(run, parse, nil).attackers, EventsOf(states[i].bus.channels[states[i].feed].accepted), ip)
  {
    hide W.Run, After, Many, EventsOf, P.AllDone;
    var s := states[i];
    var accepted := s.bus.channels[s.feed].accepted;
    P.ProcessedExactly(states, moves, i);
    assert forall item :: W.Times(s.processed, item) == W.Times(accepted, item);
    SameItems(s.processed, accepted);
    EventsPermute(s.processed, accepted);
    AttackersInAnyOrder(run, EventsOf(accepted), parse, nil, ip);
  }

  /** So, after all workers of an uncancelled pool have returned, the stored total of an address is what the
      bus offered from it to the feed, less what it dropped. */
  lemma TotalsAreOffersLessDrops(
      states: seq<W.System>, moves: seq<W.Move>, i: nat,
      run: seq<Statement>, parse: string -> Option<Address>, nil: NilTags, ip: string)
    requires W.Run(states, moves) && i < |states| && P.AllDone(states[i])
    requires !states[i].cancelled && |states[i].workers| > 0
    requires Counted(run, EventsOf(states[i].processed))
    ensures states[i].feed < |states[i].bus.channels|
    ensures
      var ch, attackers := states[i].bus.channels[states[i].feed], After(run, parse, nil).attackers;
      && Totals(attackers, EventsOf(ch.accepted), ip)
      && (if ip in attackers then attackers[ip].totalEvents else 0) + Many(EventsOf(ch.dropped), FromIp(ip))
         == Many(EventsOf(ch.offered), FromIp(ip))
  {
    hide W.Run, After, Many, EventsOf, Counted;
    W.AllReturnedMeansAllProcessed(states, moves, i);
    DrainedTotals(states, moves, i, run, parse, nil, ip);
    OffersAddUp(states, moves, i, ip);
  }

  lemma OffersAddUp(states: seq<W.System>, moves: seq<W.Move>, i: nat, ip: string)
    requires W.Run(states, moves) && i < |states|
    ensures states[i].feed < |states[i].bus.channels|
    ensures
      var ch := states[i].bus.channels[states[i].feed];
      Many(EventsOf(ch.accepted), FromIp(ip)) + Many(EventsOf(ch.dropped), FromIp(ip))
      == Many(EventsOf(ch.offered), FromIp(ip))
  {
    hide W.Run, Many, EventsOf;
    W.PoolAlways(states, moves, i);
    var ch := states[i].bus.channels[states[i].feed];
    assert S.ChannelOk(ch);
    EventsPermute(ch.offered, ch.accepted + ch.dropped);
    EventsConcat(ch.accepted, ch.dropped);
    ManyPermutes(EventsOf(ch.offered), EventsOf(ch.accepted + ch.dropped), FromIp(ip));
    ManyConcat(EventsOf(ch.accepted), EventsOf(ch.dropped), FromIp(ip));
  }
}
