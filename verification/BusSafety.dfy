/** No interleaving of the bus protocol sends on, or closes, a closed channel. */
module BusSafety {
  import opened Events
  import opened BusProtocol

  /** What every channel keeps: first in first out, nothing lost that was accepted, every offer accounted for. */
  ghost predicate ChannelOk(c: Channel) {
    && c.received + c.buffer == c.accepted
    && multiset(c.offered) == multiset(c.accepted) + multiset(c.dropped)
    && |c.buffer| <= c.capacity
    && (c.waiting != {} ==> c.buffer == [] && !c.closed)
  }

  /** The subscriber list holds distinct channels, all of them open but those Shutdown already closed. */
  ghost predicate SubscribersOk(b: Bus) {
    && (forall i, j :: 0 <= i < j < |b.subscribers| ==> b.subscribers[i].channel != b.subscribers[j].channel)
    && (forall i :: 0 <= i < |b.subscribers| ==> SubscriberOk(b, i))
  }

  ghost predicate SubscriberOk(b: Bus, i: int)
    requires 0 <= i < |b.subscribers|
  {
    var sub := b.subscribers[i];
    && sub.channel < |b.channels|
    && b.channels[sub.channel].topics == sub.topics
    && (b.channels[sub.channel].closed <==> b.closing.Some? && i < b.closing.value)
  }

  ghost predicate LocksOk(b: Bus) {
    && (b.closing.Some? ==> b.closed && b.calls == map[] && b.closing.value <= |b.subscribers|)
    && (forall p :: p in b.calls ==> !b.closed && CallOk(b, p))
  }

  ghost predicate CallOk(b: Bus, p: nat)
    requires p in b.calls
  {
    var call := b.calls[p];
    call.next <= |b.subscribers| && call.item.publisher == p && call.item.number + 1 == Count(b, p)
  }

  ghost predicate Safe(b: Bus) {
    && !b.panicked && SubscribersOk(b) && LocksOk(b)
    && forall c :: 0 <= c < |b.channels| ==> ChannelOk(b.channels[c])
  }

  lemma TrySendKeepsChannel(c: Channel, item: Item, r: nat)
    requires ChannelOk(c) && !c.closed
    ensures ChannelOk(TrySend(c, item, r))
  {
    if c.waiting != {} {
      assert c.received + [item] + c.buffer == c.accepted + [item];
    } else if |c.buffer| < c.capacity {
      assert c.received + (c.buffer + [item]) == c.accepted + [item];
    }
  }

  lemma ReceiveKeepsChannel(c: Channel, r: nat)
    requires ChannelOk(c)
    ensures ChannelOk(Receive(c, r))
  {
    if c.buffer != [] {
      assert c.received + [c.buffer[0]] + c.buffer[1..] == c.accepted;
    }
  }

  lemma UnsubscribeKeepsSafe(b: Bus, channel: nat)
    requires Safe(b) && Enabled(b, Unsubscribe(channel))
    ensures Safe(Apply(b, Unsubscribe(channel)))
  {
    var i := Find(b.subscribers, channel);
    if i >= 0 {
      var after := Apply(b, Unsubscribe(channel));
      assert SubscriberOk(b, i);
      forall j | 0 <= j < |after.subscribers|
        ensures SubscriberOk(after, j) && after.subscribers[j].channel != channel
      {
        var k := if j < i then j else j + 1;
        assert after.subscribers[j] == b.subscribers[k] && SubscriberOk(b, k);
        assert b.subscribers[k].channel != b.subscribers[i].channel;
      }
    }
  }

  lemma BeginPublishKeepsSafe(b: Bus, p: nat, topic: Topic, event: Event)
    requires Safe(b) && Enabled(b, BeginPublish(p, topic, event))
    ensures Safe(Apply(b, BeginPublish(p, topic, event)))
  {
    var after := Apply(b, BeginPublish(p, topic, event));
    forall i | 0 <= i < |after.subscribers|
      ensures SubscriberOk(after, i)
    {
      assert SubscriberOk(b, i);
    }
    forall q | q in after.calls
      ensures CallOk(after, q)
    {
      assert q != p ==> CallOk(b, q);
    }
  }

  lemma CloseNextKeepsSafe(b: Bus)
    requires Safe(b) && Enabled(b, CloseNext)
    ensures Safe(Apply(b, CloseNext))
  {
    var k, after := b.closing.value, Apply(b, CloseNext);
    assert SubscriberOk(b, k);
    forall i | 0 <= i < |after.subscribers|
      ensures SubscriberOk(after, i)
    {
      assert SubscriberOk(b, i);
    }
  }

  /** Replacing one channel by another that is as open and as well kept, with the locks untouched. */
  lemma ChannelSwapKeepsSafe(b: Bus, c: nat, channel: Channel)
    requires Safe(b) && c < |b.channels| && ChannelOk(channel)
    requires channel.closed == b.channels[c].closed && channel.topics == b.channels[c].topics
    ensures Safe(b.(channels := b.channels[c := channel]))
  {
    var after := b.(channels := b.channels[c := channel]);
    forall i | 0 <= i < |after.subscribers|
      ensures SubscriberOk(after, i)
    {
      assert SubscriberOk(b, i);
    }
    assert forall q :: q in after.calls ==> CallOk(b, q);
  }

  lemma SendNextKeepsSafe(b: Bus, p: nat, r: nat)
    requires Safe(b) && Enabled(b, SendNext(p, r))
    ensures Safe(Apply(b, SendNext(p, r)))
  {
    var call, after := b.calls[p], Apply(b, SendNext(p, r));
    var sub := b.subscribers[call.next];
    assert SubscriberOk(b, call.next) && CallOk(b, p);
    if Wants(sub.topics, call.item.topic) {
      var sent := TrySend(b.channels[sub.channel], call.item, r);
      TrySendKeepsChannel(b.channels[sub.channel], call.item, r);
      ChannelSwapKeepsSafe(b, sub.channel, sent);
      AdvanceKeepsSafe(b.(channels := b.channels[sub.channel := sent]), p);
    } else {
      AdvanceKeepsSafe(b, p);
    }
  }

  lemma AdvanceKeepsSafe(b: Bus, p: nat)
    requires Safe(b) && p in b.calls && b.calls[p].next < |b.subscribers|
    ensures Safe(b.(calls := b.calls[p := b.calls[p].(next := b.calls[p].next + 1)]))
  {
    var after := b.(calls := b.calls[p := b.calls[p].(next := b.calls[p].next + 1)]);
    assert forall q :: q in after.calls ==> CallOk(b, q);
    forall i | 0 <= i < |after.subscribers|
      ensures SubscriberOk(after, i)
    {
      assert SubscriberOk(b, i);
    }
  }

  lemma SubscribeKeepsSafe(b: Bus, a: Action)
    requires Safe(b) && Enabled(b, a) && a.Subscribe?
    ensures Safe(Apply(b, a))
  {
    var after := Apply(b, a);
    forall i | 0 <= i < |after.subscribers|
      ensures SubscriberOk(after, i) && (i < |b.subscribers| ==> after.subscribers[i].channel < |b.channels|)
    {
      assert i < |b.subscribers| ==> SubscriberOk(b, i);
    }
  }

  /** EndPublish and Shutdown's first and last step change who holds a lock and nothing on a channel. */
  lemma LockStepsKeepSafe(b: Bus, a: Action)
    requires Safe(b) && Enabled(b, a) && (a.EndPublish? || a.BeginShutdown? || a.EndShutdown?)
    ensures Safe(Apply(b, a))
  {
    var after := Apply(b, a);
    assert forall q :: q in after.calls ==> CallOk(b, q);
    forall i | 0 <= i < |after.subscribers|
      ensures SubscriberOk(after, i)
    {
      assert SubscriberOk(b, i);
    }
  }

  lemma SafeStep(b: Bus, a: Action)
    requires Safe(b) && Enabled(b, a)
    ensures Safe(Apply(b, a))
  {
    match a
    case Subscribe(_, _) => SubscribeKeepsSafe(b, a);
    case Unsubscribe(channel) => UnsubscribeKeepsSafe(b, channel);
    case BeginPublish(p, topic, event) => BeginPublishKeepsSafe(b, p, topic, event);
    case SendNext(p, r) => SendNextKeepsSafe(b, p, r);
    case CloseNext => CloseNextKeepsSafe(b);
    case TakeFrom(c, r) =>
      ReceiveKeepsChannel(b.channels[c], r);
      ChannelSwapKeepsSafe(b, c, Receive(b.channels[c], r));
    case GiveUp(c, r) =>
      ChannelSwapKeepsSafe(b, c, b.channels[c].(waiting := b.channels[c].waiting - {r}));
    case _ => LockStepsKeepSafe(b, a);
  }

  /** In every schedule no send hits a closed channel and no channel is closed twice. */
  lemma {:induction false} SafeAlways(states: seq<Bus>, actions: seq<Action>, i: nat)
    requires Behaviour(states, actions) && i < |states|
    ensures Safe(states[i])
  {
    if i > 0 {
      SafeAlways(states, actions, i - 1);
      assert Follows(states[i - 1], actions[i - 1], states[i]);
      SafeStep(states[i - 1], actions[i - 1]);
    }
  }

  /** When Shutdown is about to return, every channel that was subscribed is closed. */
  lemma ShutdownClosesEverySubscriber(states: seq<Bus>, actions: seq<Action>, i: nat, k: nat)
    requires Behaviour(states, actions) && i < |states|
    requires Enabled(states[i], EndShutdown) && k < |states[i].subscribers|
    ensures states[i].subscribers[k].channel < |states[i].channels|
    ensures states[i].channels[states[i].subscribers[k].channel].closed
  {
    SafeAlways(states, actions, i);
    assert SubscriberOk(states[i], k);
  }

  ghost function OfferedOn(b: Bus, c: nat): seq<Item> {
    if c < |b.channels| then b.channels[c].offered else []
  }

  lemma ClosedBusStep(b: Bus, a: Action, c: nat)
    requires Safe(b) && Enabled(b, a) && b.closed
    ensures Apply(b, a).closed && OfferedOn(Apply(b, a), c) == OfferedOn(b, c)
  {
    hide SubscribersOk, ChannelOk, TrySend, TopicSet, Wants;
    match a
    case TakeFrom(d, r) => assert c != d ==> OfferedOn(Apply(b, a), c) == OfferedOn(b, c);
    case _ =>
  }

  /** Once Shutdown has begun no channel is offered anything again, whether it was open then, or is
      subscribed only afterwards (Subscribe does not look at `closed` and still hands out an open channel). */
  lemma {:induction false} NothingOfferedAfterShutdown(states: seq<Bus>, actions: seq<Action>, i: nat, j: nat, c: nat)
    requires Behaviour(states, actions) && i <= j < |states| && states[i].closed
    ensures states[j].closed && OfferedOn(states[j], c) == OfferedOn(states[i], c)
  {
    if i < j {
      NothingOfferedAfterShutdown(states, actions, i, j - 1, c);
      SafeAlways(states, actions, j - 1);
      assert Follows(states[j - 1], actions[j - 1], states[j]);
      ClosedBusStep(states[j - 1], actions[j - 1], c);
    }
  }
}
