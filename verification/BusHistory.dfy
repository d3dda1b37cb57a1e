/** What the actions alone say about a channel, and that the bus delivers by it. */
module BusHistory {
  import opened Events
  import opened BusProtocol
  import opened BusSafety
  import opened BusDelivery

  // Channels are numbered in the order of their Subscribe calls.

  function Subscriptions(actions: seq<Action>): nat {
    if actions == [] then 0
    else Subscriptions(actions[..|actions| - 1]) + if actions[|actions| - 1].Subscribe? then 1 else 0
  }

  predicate Opens(actions: seq<Action>, a: Action, c: nat) {
    a.Subscribe? && c == Subscriptions(actions)
  }

  /** The topics the c-th Subscribe asked for. */
  function Asked(actions: seq<Action>, c: nat): seq<Topic> {
    if actions == [] then []
    else
      var front, last := actions[..|actions| - 1], actions[|actions| - 1];
      if Opens(front, last, c) then last.topics else Asked(front, c)
  }

  /** And the buffer it asked for. */
  function Room(actions: seq<Action>, c: nat): nat {
    if actions == [] then 0
    else
      var front, last := actions[..|actions| - 1], actions[|actions| - 1];
      if Opens(front, last, c) then last.capacity else Room(front, c)
  }

  /** Channel c was subscribed, and neither unsubscribed nor shut down since. */
  predicate Subscribed(actions: seq<Action>, c: nat) {
    actions != [] &&
    var front, last := actions[..|actions| - 1], actions[|actions| - 1];
    if Opens(front, last, c) then true
    else if last == Unsubscribe(c) || last.EndShutdown? then false
    else Subscribed(front, c)
  }

  predicate ShutDown(actions: seq<Action>) {
    actions != [] && (actions[|actions| - 1].BeginShutdown? || ShutDown(actions[..|actions| - 1]))
  }

  /** How many publications p has begun. */
  function Begun(actions: seq<Action>, p: nat): nat {
    if actions == [] then 0
    else
      var front, last := actions[..|actions| - 1], actions[|actions| - 1];
      Begun(front, p) + if last.BeginPublish? && last.publisher == p then 1 else 0
  }

  predicate Reaches(actions: seq<Action>, a: Action, p: nat, c: nat) {
    && a.BeginPublish? && a.publisher == p && !ShutDown(actions) && Subscribed(actions, c)
    && (a.topic in Asked(actions, c) || "all" in Asked(actions, c))
  }

  /** The publications of p that channel c should see: begun before any Shutdown, while c was subscribed,
      on a topic it asked for, numbered as p made them. */
  function Publications(actions: seq<Action>, p: nat, c: nat): seq<Item> {
    if actions == [] then []
    else
      var front, last := actions[..|actions| - 1], actions[|actions| - 1];
      Publications(front, p, c)
      + if Reaches(front, last, p, c) then [Item(p, Begun(front, p), last.topic, last.event)] else []
  }

  // ---------------------------------------------------------------------------
  // The state of the bus agrees.

  ghost predicate Agrees(b: Bus, actions: seq<Action>, c: nat) {
    && |b.channels| == Subscriptions(actions)
    && b.closed == ShutDown(actions)
    && (Find(b.subscribers, c) >= 0 <==> Subscribed(actions, c))
    && (c < |b.channels| ==>
        && (forall t :: t in b.channels[c].topics <==> t in Asked(actions, c))
        && b.channels[c].capacity == Room(actions, c))
  }

  lemma OneMore(actions: seq<Action>, a: Action, p: nat, c: nat)
    ensures var more := actions + [a];
      && Subscriptions(more) == Subscriptions(actions) + (if a.Subscribe? then 1 else 0)
      && Asked(more, c) == (if Opens(actions, a, c) then a.topics else Asked(actions, c))
      && Room(more, c) == (if Opens(actions, a, c) then a.capacity else Room(actions, c))
      && Subscribed(more, c) ==
         (if Opens(actions, a, c) then true
          else if a == Unsubscribe(c) || a.EndShutdown? then false else Subscribed(actions, c))
      && ShutDown(more) == (a.BeginShutdown? || ShutDown(actions))
      && Begun(more, p) == Begun(actions, p) + (if a.BeginPublish? && a.publisher == p then 1 else 0)
      && Publications(more, p, c) ==
         (if Reaches(actions, a, p, c)
          then Publications(actions, p, c) + [Item(p, Begun(actions, p), a.topic, a.event)]
          else Publications(actions, p, c))
  {
    assert (actions + [a])[..|actions|] == actions;
  }

  ghost predicate Distinct(subscribers: seq<Subscriber>) {
    forall i, j :: 0 <= i < j < |subscribers| ==> subscribers[i].channel != subscribers[j].channel
  }

  lemma StillFound(subscribers: seq<Subscriber>, i: nat, j: nat)
    requires i < |subscribers| && j < |subscribers| && i != j
    ensures Find(subscribers[..i] + subscribers[i + 1..], subscribers[j].channel) >= 0
  {
    var less := subscribers[..i] + subscribers[i + 1..];
    assert less[if j < i then j else j - 1] == subscribers[j];
  }

  lemma WasFound(subscribers: seq<Subscriber>, i: nat, c: nat)
    requires i < |subscribers| && Distinct(subscribers)
    requires Find(subscribers[..i] + subscribers[i + 1..], c) >= 0
    ensures c != subscribers[i].channel && Find(subscribers, c) >= 0
  {
    var less := subscribers[..i] + subscribers[i + 1..];
    var k := Find(less, c);
    assert less[k] == subscribers[if k < i then k else k + 1];
  }

  lemma FindRemoved(b: Bus, channel: nat, c: nat)
    requires SubscribersOk(b)
    ensures
      var i := Find(b.subscribers, channel);
      i >= 0 ==>
        (Find(b.subscribers[..i] + b.subscribers[i + 1..], c) >= 0 <==> c != channel && Find(b.subscribers, c) >= 0)
  {
    hide SubscriberOk;
    var i, j := Find(b.subscribers, channel), Find(b.subscribers, c);
    if i >= 0 {
      if j >= 0 && c != channel {
        StillFound(b.subscribers, i, j);
      }
      if Find(b.subscribers[..i] + b.subscribers[i + 1..], c) >= 0 {
        WasFound(b.subscribers, i, c);
      }
    }
  }

  lemma SubscribeAgrees(b: Bus, actions: seq<Action>, a: Action, c: nat)
    requires Safe(b) && Enabled(b, a) && a.Subscribe? && Agrees(b, actions, c)
    ensures Agrees(Apply(b, a), actions + [a], c)
  {
    OneMore(actions, a, 0, c);
    var last := Subscriber(|b.channels|, TopicSet(a.topics));
    if c != |b.channels| {
      FindAppended(b.subscribers, last, c);
    } else {
      var found := Find(b.subscribers + [last], c);
      assert (b.subscribers + [last])[|b.subscribers|].channel == c;
    }
  }

  lemma UnsubscribeAgrees(b: Bus, actions: seq<Action>, a: Action, c: nat)
    requires Safe(b) && Enabled(b, a) && a.Unsubscribe? && Agrees(b, actions, c)
    ensures Agrees(Apply(b, a), actions + [a], c)
  {
    hide Subscriptions, Asked, Room, Subscribed, ShutDown, Begun, Publications, Apply;
    OneMore(actions, a, 0, c);
    FindRemoved(b, a.channel, c);
    UnsubscribeStep(b, a, c);
  }

  lemma UnsubscribeStep(b: Bus, a: Action, c: nat)
    requires Enabled(b, a) && a.Unsubscribe?
    ensures var i, after := Find(b.subscribers, a.channel), Apply(b, a);
      && |after.channels| == |b.channels| && after.closed == b.closed
      && after.subscribers == (if i >= 0 then b.subscribers[..i] + b.subscribers[i + 1..] else b.subscribers)
      && (c < |b.channels| ==>
          && after.channels[c].topics == b.channels[c].topics && after.channels[c].capacity == b.channels[c].capacity)
  {
    hide CloseChannel;
    CloseKeepsRest(b, a.channel, c);
  }

  lemma CloseKeepsRest(b: Bus, channel: nat, c: nat)
    ensures var after := CloseChannel(b, channel);
      && |after.channels| == |b.channels| && after.closed == b.closed && after.subscribers == b.subscribers
      && (c < |b.channels| ==>
          && after.channels[c].topics == b.channels[c].topics && after.channels[c].capacity == b.channels[c].capacity)
  {
  }

  lemma OtherAgrees(b: Bus, actions: seq<Action>, a: Action, c: nat)
    requires Safe(b) && Enabled(b, a) && !a.Subscribe? && !a.Unsubscribe? && Agrees(b, actions, c)
    ensures Agrees(Apply(b, a), actions + [a], c)
  {
    hide Subscriptions, Asked, Room, Subscribed, ShutDown, Begun, Publications, Safe, Apply;
    OneMore(actions, a, 0, c);
    OtherStep(b, a, c);
  }

  lemma OtherStep(b: Bus, a: Action, c: nat)
    requires Safe(b) && Enabled(b, a) && !a.Subscribe? && !a.Unsubscribe?
    ensures var after := Apply(b, a);
      && |after.channels| == |b.channels| && after.closed == (b.closed || a.BeginShutdown?)
      && after.subscribers == (if a.EndShutdown? then [] else b.subscribers)
      && (c < |b.channels| ==>
          && after.channels[c].topics == b.channels[c].topics && after.channels[c].capacity == b.channels[c].capacity)
  {
    hide Safe, Find;
    if a.SendNext? {
      SendKeepsChannels(b, a);
    }
  }

  lemma StepAgrees(b: Bus, actions: seq<Action>, a: Action, c: nat)
    requires Safe(b) && Enabled(b, a) && Agrees(b, actions, c)
    ensures Agrees(Apply(b, a), actions + [a], c)
  {
    hide Safe, Apply, Agrees, Enabled;
    if a.Subscribe? {
      SubscribeAgrees(b, actions, a, c);
    } else if a.Unsubscribe? {
      UnsubscribeAgrees(b, actions, a, c);
    } else {
      OtherAgrees(b, actions, a, c);
    }
  }

  /** Nothing can have been published to a channel that does not exist yet. */
  lemma {:induction false} NothingYet(actions: seq<Action>, p: nat, c: nat)
    requires c >= Subscriptions(actions)
    ensures !Subscribed(actions, c) && Publications(actions, p, c) == []
  {
    if actions != [] {
      NothingYet(actions[..|actions| - 1], p, c);
    }
  }

  /** What the channel's record of due items says about one publisher. */
  ghost predicate Records(b: Bus, actions: seq<Action>, p: nat, c: nat) {
    && Count(b, p) == Begun(actions, p)
    && (if c < |b.channels| then From(p, b.channels[c].due) else []) == Publications(actions, p, c)
  }

  lemma BeginRecords(b: Bus, actions: seq<Action>, a: Action, p: nat, c: nat)
    requires Safe(b) && Enabled(b, a) && a.BeginPublish? && Agrees(b, actions, c)
    requires Records(b, actions, p, c) && Records(b, actions, a.publisher, c)
    ensures Records(Apply(b, a), actions + [a], p, c)
  {
    hide Subscriptions, Asked, Room, Subscribed, ShutDown, Begun, Publications, Apply, Safe, Find, From;
    OneMore(actions, a, p, c);
    if c < |b.channels| {
      BeginChangesDue(b, a, c, p);
      FromAppend(p, b.channels[c].due, Item(a.publisher, Count(b, a.publisher), a.topic, a.event));
      assert From(p, b.channels[c].due) + [] == From(p, b.channels[c].due);
    } else {
      NothingYet(actions, p, c);
      BeginCounts(b, a, p);
    }
  }

  lemma BeginCounts(b: Bus, a: Action, p: nat)
    requires Enabled(b, a) && a.BeginPublish?
    ensures |Apply(b, a).channels| == |b.channels|
    ensures Count(Apply(b, a), p) == Count(b, p) + if a.publisher == p then 1 else 0
  {
  }

  lemma SendRecords(b: Bus, actions: seq<Action>, a: Action, p: nat, c: nat)
    requires Safe(b) && Enabled(b, a) && a.SendNext? && Records(b, actions, p, c)
    ensures Records(Apply(b, a), actions + [a], p, c)
  {
    hide Subscriptions, Asked, Room, Subscribed, ShutDown, Begun, Publications, Apply, Safe, From;
    OneMore(actions, a, p, c);
    if c < |b.channels| {
      SendChangesOneLog(b, a.publisher, a.served, c);
    } else {
      SendKeepsChannels(b, a);
    }
  }

  lemma SendKeepsChannels(b: Bus, a: Action)
    requires Safe(b) && Enabled(b, a) && a.SendNext?
    ensures |Apply(b, a).channels| == |b.channels| && Apply(b, a).counts == b.counts
  {
  }

  lemma OtherRecords(b: Bus, actions: seq<Action>, a: Action, p: nat, c: nat)
    requires Safe(b) && Enabled(b, a) && !a.SendNext? && !a.BeginPublish? && Records(b, actions, p, c)
    ensures Records(Apply(b, a), actions + [a], p, c)
  {
    hide Subscriptions, Asked, Room, Subscribed, ShutDown, Begun, Publications, Safe, Find, From;
    OneMore(actions, a, p, c);
    FromNothing(p);
    if c < |b.channels| {
      OtherStepsKeepLogs(b, a, c);
    }
  }

  lemma FromNothing(p: nat)
    ensures From(p, []) == []
  {
  }

  /** Over every interleaving, the items due on a channel are exactly the publications the actions call for. */
  lemma {:induction false} DueArePublications(states: seq<Bus>, actions: seq<Action>, i: nat, p: nat, c: nat)
    requires Behaviour(states, actions) && i < |states|
    ensures Agrees(states[i], actions[..i], c) && Records(states[i], actions[..i], p, c)
  {
    hide Apply, Agrees, Records, Enabled, Safe;
    if i == 0 {
      NothingAtFirst(states, actions, p, c);
    } else {
      var b, a, before := states[i - 1], actions[i - 1], actions[..i - 1];
      DueArePublications(states, actions, i - 1, p, c);
      SafeAlways(states, actions, i - 1);
      assert Follows(b, a, states[i]);
      assert actions[..i] == before + [a];
      StepAgrees(b, before, a, c);
      if a.BeginPublish? {
        DueArePublications(states, actions, i - 1, a.publisher, c);
        BeginRecords(b, before, a, p, c);
      } else if a.SendNext? {
        SendRecords(b, before, a, p, c);
      } else {
        OtherRecords(b, before, a, p, c);
      }
    }
  }

  lemma NothingAtFirst(states: seq<Bus>, actions: seq<Action>, p: nat, c: nat)
    requires Behaviour(states, actions)
    ensures Agrees(states[0], actions[..0], c) && Records(states[0], actions[..0], p, c)
  {
    assert actions[..0] == [];
  }

  lemma BufferFits(states: seq<Bus>, actions: seq<Action>, i: nat, c: nat)
    requires Behaviour(states, actions) && i < |states| && c < |states[i].channels|
    ensures |states[i].channels[c].buffer| <= states[i].channels[c].capacity
  {
    SafeAlways(states, actions, i);
    assert ChannelOk(states[i].channels[c]);
  }

  /** So, per publisher, what a subscriber has received or finds in its buffer is a subsequence, in order
      and without repetition, of what was published to it; once the publisher is between calls, whatever
      is missing was dropped. */
  lemma DeliveryIsByHistory(states: seq<Bus>, actions: seq<Action>, i: nat, p: nat, c: nat)
    requires Behaviour(states, actions) && i < |states| && c < |states[i].channels|
    ensures
      var ch := states[i].channels[c];
      && c < Subscriptions(actions[..i]) && ch.capacity == Room(actions[..i], c) && |ch.buffer| <= ch.capacity
      && Subsequence(From(p, ch.received + ch.buffer), Publications(actions[..i], p, c))
      && (p !in states[i].calls ==> From(p, ch.offered) == Publications(actions[..i], p, c))
      && multiset(ch.offered) == multiset(ch.received) + multiset(ch.buffer) + multiset(ch.dropped)
  {
    hide Subscriptions, Asked, Room, Subscribed, ShutDown, Begun, Publications, Behaviour, Subsequence, From, Increasing;
    DueArePublications(states, actions, i, p, c);
    SubscriberGets(states, actions, i, c, p);
    BufferFits(states, actions, i, c);
  }

  // ---------------------------------------------------------------------------
  // Who sees what.

  /** The publications of p begun before any Shutdown while channel c was subscribed, on whatever topic. */
  function AllPublications(actions: seq<Action>, p: nat, c: nat): seq<Item> {
    if actions == [] then []
    else
      var front, last := actions[..|actions| - 1], actions[|actions| - 1];
      AllPublications(front, p, c)
      + if last.BeginPublish? && last.publisher == p && !ShutDown(front) && Subscribed(front, c)
        then [Item(p, Begun(front, p), last.topic, last.event)] else []
  }

  lemma {:induction false} WildcardAsksForAll(actions: seq<Action>, p: nat, c: nat)
    requires "all" in Asked(actions, c)
    ensures Publications(actions, p, c) == AllPublications(actions, p, c)
  {
    if actions != [] {
      var front, last := actions[..|actions| - 1], actions[|actions| - 1];
      if Opens(front, last, c) {
        NothingYet(front, p, c);
        NothingAtAllYet(front, p, c);
      } else {
        WildcardAsksForAll(front, p, c);
      }
    }
  }

  lemma {:induction false} NothingAtAllYet(actions: seq<Action>, p: nat, c: nat)
    requires c >= Subscriptions(actions)
    ensures AllPublications(actions, p, c) == []
  {
    if actions != [] {
      NothingAtAllYet(actions[..|actions| - 1], p, c);
      NothingYet(actions[..|actions| - 1], p, c);
    }
  }

  lemma {:induction false} OnlyAskedTopics(actions: seq<Action>, p: nat, c: nat)
    ensures forall item :: item in Publications(actions, p, c) ==>
      item.topic in Asked(actions, c) || "all" in Asked(actions, c)
  {
    if actions != [] {
      var front, last := actions[..|actions| - 1], actions[|actions| - 1];
      OnlyAskedTopics(front, p, c);
      if Opens(front, last, c) {
        NothingYet(front, p, c);
      }
    }
  }

  /** A channel that asked for "all" is due every publication begun while it was subscribed and before any
      Shutdown, whatever its topic; one that asked for neither a topic nor "all" is due nothing on that topic. */
  lemma WildcardSeesAll(states: seq<Bus>, actions: seq<Action>, i: nat, p: nat, c: nat)
    requires Behaviour(states, actions) && i < |states| && c < |states[i].channels|
    ensures "all" in Asked(actions[..i], c) ==>
      From(p, states[i].channels[c].due) == AllPublications(actions[..i], p, c)
    ensures "all" !in Asked(actions[..i], c) ==>
      forall item :: item in From(p, states[i].channels[c].due) ==> item.topic in Asked(actions[..i], c)
  {
    hide Agrees, From, Publications, AllPublications, Asked;
    DueArePublications(states, actions, i, p, c);
    if "all" in Asked(actions[..i], c) {
      WildcardAsksForAll(actions[..i], p, c);
    }
    OnlyAskedTopics(actions[..i], p, c);
  }
}
