/** internal/event/bus.go: the bus object. Its methods, run under their lock without interference, take
    exactly the steps of BusProtocol; what interleaving does to Publish is the protocol's business. */
module EventBus {
  import opened Events
  import P = BusProtocol
  import opened BusSafety

  /** The state after a sequence of protocol steps, if each step is enabled when its turn comes. */
  function After(b: P.Bus, steps: seq<P.Action>): Option<P.Bus> {
    if steps == [] then Some(b)
    else
      match After(b, steps[..|steps| - 1])
      case None => None
      case Some(mid) =>
        var last := steps[|steps| - 1];
        if P.Enabled(mid, last) then Some(P.Apply(mid, last)) else None
  }

  lemma Extend(b: P.Bus, steps: seq<P.Action>, mid: P.Bus, step: P.Action)
    requires After(b, steps) == Some(mid) && Safe(mid) && P.Enabled(mid, step)
    ensures After(b, steps + [step]) == Some(P.Apply(mid, step)) && Safe(P.Apply(mid, step))
  {
    assert (steps + [step])[..|steps|] == steps;
    SafeStep(mid, step);
  }

  lemma SafeIsNotPanicked(b: P.Bus)
    requires Safe(b)
    ensures !b.panicked
  {
  }

  /** One Publish call: begin, one send step for each subscriber in list order, end. */
  ghost predicate IsPublish(steps: seq<P.Action>, p: nat, topic: P.Topic, event: Event, n: nat) {
    && |steps| == n + 2 && steps[0] == P.BeginPublish(p, topic, event) && steps[n + 1] == P.EndPublish(p)
    && forall k :: 1 <= k <= n ==> steps[k].SendNext? && steps[k].publisher == p
  }

  /** One Shutdown call: begin, one close for each subscriber in list order, end. */
  ghost predicate IsShutdown(steps: seq<P.Action>, n: nat) {
    && |steps| == n + 2 && steps[0] == P.BeginShutdown && steps[n + 1] == P.EndShutdown
    && forall k :: 1 <= k <= n ==> steps[k] == P.CloseNext
  }

  class Bus {
    var subscribers: seq<P.Subscriber>
    var closed: bool
    var channels: seq<P.Channel>      // the channels made so far, by identity
    var panicked: bool
    var counts: map<nat, nat>         // publications begun so far by each publisher

    ghost function State(): P.Bus
      reads this
    {
      P.Bus(channels, subscribers, closed, map[], None, counts, panicked)
    }

    constructor ()
      ensures State() == P.INIT && Safe(State())
    {
      subscribers, closed, channels, panicked := [], false, [], false;
      counts := map[];
    }

    method Subscribe(capacity: nat, topics: seq<P.Topic>) returns (channel: nat)
      requires Safe(State())
      modifies this
      ensures State() == P.Apply(old(State()), P.Subscribe(capacity, topics)) && Safe(State())
      ensures channel == |old(channels)|
    {
      SafeStep(State(), P.Subscribe(capacity, topics));
      var topicSet: set<P.Topic> := {};
      for k := 0 to |topics|
        invariant topicSet == P.TopicSet(topics[..k])
        invariant State() == old(State())
      {
        topicSet := topicSet + {topics[k]};
        assert topics[..k + 1] == topics[..k] + [topics[k]];
      }
      assert topics[..|topics|] == topics;
      channel := |channels|;
      channels := channels + [P.Open(capacity, topicSet)];
      subscribers := subscribers + [P.Subscriber(channel, topicSet)];
    }

    method Unsubscribe(channel: nat)
      requires Safe(State())
      modifies this
      ensures State() == P.Apply(old(State()), P.Unsubscribe(channel)) && Safe(State())
    {
      ghost var before := State();
      SafeStep(before, P.Unsubscribe(channel));
      for k := 0 to |subscribers|
        invariant State() == before
        invariant forall j :: 0 <= j < k ==> subscribers[j].channel != channel
      {
        if subscribers[k].channel == channel {
          assert P.Find(subscribers, channel) == k;
          assert SubscriberOk(before, k);
          CloseChannel(channel);
          subscribers := subscribers[..k] + subscribers[k + 1..];
          return;
        }
      }
    }

    method CloseChannel(channel: nat)
      modifies this`channels, this`panicked
      ensures State() == P.CloseChannel(old(State()), channel)
    {
      if channel >= |channels| || channels[channel].closed {
        panicked := true;
      } else {
        channels := channels[channel := P.Close(channels[channel])];
      }
    }

    /** The non-blocking select of the publish loop, serving `served` if receivers are parked. */
    method SendTo(channel: nat, item: P.Item, served: nat)
      modifies this`channels, this`panicked
      ensures State() == P.SendTo(old(State()), channel, item, served)
    {
      if channel >= |channels| || channels[channel].closed {
        panicked := true;
      } else {
        channels := channels[channel := P.TrySend(channels[channel], item, served)];
      }
    }

    /** The state with publisher p inside its Publish, standing at subscriber k. */
    ghost function During(p: nat, item: P.Item, k: nat): P.Bus
      reads this
    {
      State().(calls := map[p := P.Call(item, k)])
    }

    /** The loop runs under the read lock; `counts` and the `due` logs are the model's bookkeeping. */
    method Publish(p: nat, topic: P.Topic, event: Event) returns (ghost steps: seq<P.Action>)
      requires Safe(State())
      modifies this
      ensures After(old(State()), steps) == Some(State()) && Safe(State())
      ensures if old(closed) then steps == [P.BeginPublish(p, topic, event)]
              else IsPublish(steps, p, topic, event, |old(subscribers)|)
      ensures subscribers == old(subscribers) && closed == old(closed)
    {
      hide Safe, After;
      ghost var before := State();
      SafeIsNotPanicked(before);
      var number := if p in counts then counts[p] else 0;
      var item := P.Item(p, number, topic, event);
      steps := [P.BeginPublish(p, topic, event)];
      FirstStep(before, steps[0]);
      counts := counts[p := number + 1];
      if closed {
        return;
      }
      channels := P.Announce(channels, subscribers, item);
      assert During(p, item, 0) == P.Apply(before, steps[0]);
      for k := 0 to |subscribers|
        invariant subscribers == before.subscribers && closed == before.closed
        invariant After(before, steps) == Some(During(p, item, k)) && Safe(During(p, item, k))
        invariant |steps| == k + 1 && steps[0] == P.BeginPublish(p, topic, event)
        invariant forall m :: 1 <= m <= k ==> steps[m].SendNext? && steps[m].publisher == p
      {
        ghost var mid := During(p, item, k);
        SafeIsNotPanicked(mid);
        var served := OfferNext(p, item, k);
        Extend(before, steps, mid, P.SendNext(p, served));
        steps := steps + [P.SendNext(p, served)];
      }
      ghost var mid := During(p, item, |subscribers|);
      SafeIsNotPanicked(mid);
      Extend(before, steps, mid, P.EndPublish(p));
      EndsIdle(State(), p, P.Call(item, |subscribers|));
      steps := steps + [P.EndPublish(p)];
    }

    /** One turn of the publish loop. */
    method OfferNext(p: nat, item: P.Item, k: nat) returns (served: nat)
      requires k < |subscribers| && !panicked
      modifies this`channels, this`panicked
      ensures P.Enabled(old(During(p, item, k)), P.SendNext(p, served))
      ensures During(p, item, k + 1) == P.Apply(old(During(p, item, k)), P.SendNext(p, served))
    {
      var sub := subscribers[k];
      served := ServedOn(sub.channel);
      if item.topic in sub.topics || P.TOPIC_ALL in sub.topics {
        SendTo(sub.channel, item, served);
      }
      assert map[p := P.Call(item, k)][p := P.Call(item, k + 1)] == map[p := P.Call(item, k + 1)];
    }

    /** Any receiver parked on a channel; the runtime chooses. */
    method ServedOn(channel: nat) returns (served: nat)
      ensures channel < |channels| && channels[channel].waiting != {} ==> served in channels[channel].waiting
    {
      served := 0;
      if channel < |channels| && channels[channel].waiting != {} {
        served :| served in channels[channel].waiting;
      }
    }

    /** Shutdown standing at subscriber k of its close loop. */
    ghost function Closing(k: nat): P.Bus
      reads this
    {
      State().(closing := Some(k))
    }

    method Shutdown() returns (ghost steps: seq<P.Action>)
      requires Safe(State())
      modifies this
      ensures After(old(State()), steps) == Some(State()) && Safe(State())
      ensures IsShutdown(steps, |old(subscribers)|)
      ensures closed && subscribers == []
    {
      ghost var before := State();
      steps := [P.BeginShutdown];
      FirstStep(before, P.BeginShutdown);
      closed := true;
      for k := 0 to |subscribers|
        invariant closed && subscribers == before.subscribers
        invariant After(before, steps) == Some(Closing(k)) && Safe(Closing(k))
        invariant |steps| == k + 1 && steps[0] == P.BeginShutdown
        invariant forall m :: 1 <= m <= k ==> steps[m] == P.CloseNext
      {
        ghost var mid := Closing(k);
        Extend(before, steps, mid, P.CloseNext);
        CloseChannel(subscribers[k].channel);
        steps := steps + [P.CloseNext];
        assert Closing(k + 1) == P.Apply(mid, P.CloseNext);
      }
      ghost var mid := Closing(|subscribers|);
      Extend(before, steps, mid, P.EndShutdown);
      subscribers := [];
      steps := steps + [P.EndShutdown];
    }

    function SubscriberCount(): nat
      reads this
    {
      |subscribers|
    }
  }

  lemma EndsIdle(b: P.Bus, p: nat, call: P.Call)
    requires b.calls == map[]
    ensures b.(calls := map[p := call]).(calls := map[p := call] - {p}) == b
  {
    assert map[p := call] - {p} == map[];
  }

  lemma FirstStep(b: P.Bus, step: P.Action)
    requires Safe(b) && P.Enabled(b, step)
    ensures After(b, [step]) == Some(P.Apply(b, step)) && Safe(P.Apply(b, step))
  {
    assert After(b, []) == Some(b);
    Extend(b, [], b, step);
    assert [] + [step] == [step];
  }
}
