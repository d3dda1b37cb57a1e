/** What a subscriber gets from the bus, over every interleaving. */
module BusDelivery {
  import opened Events
  import opened BusProtocol
  import opened BusSafety

  /** The items of one publisher, in order. */
  function From(p: nat, items: seq<Item>): seq<Item> {
    if items == [] then []
    else
      From(p, items[..|items| - 1]) + if items[|items| - 1].publisher == p then [items[|items| - 1]] else []
  }

  lemma FromAppend(p: nat, items: seq<Item>, item: Item)
    ensures From(p, items + [item]) == From(p, items) + if item.publisher == p then [item] else []
  {
    assert (items + [item])[..|items|] == items;
  }

  /** `part` is `whole` with some elements left out. */
  ghost predicate Subsequence(part: seq<Item>, whole: seq<Item>) {
    part == [] ||
    (whole != [] &&
     ((part[|part| - 1] == whole[|whole| - 1] && Subsequence(part[..|part| - 1], whole[..|whole| - 1]))
      || Subsequence(part, whole[..|whole| - 1])))
  }

  lemma SubsequenceSkip(part: seq<Item>, whole: seq<Item>, item: Item)
    requires Subsequence(part, whole)
    ensures Subsequence(part, whole + [item])
  {
    assert (whole + [item])[..|whole|] == whole;
  }

  lemma SubsequenceTake(part: seq<Item>, whole: seq<Item>, item: Item)
    requires Subsequence(part, whole)
    ensures Subsequence(part + [item], whole + [item])
  {
    assert (whole + [item])[..|whole|] == whole;
    assert (part + [item])[..|part|] == part;
  }

  lemma {:induction false} FromKeepsSubsequence(p: nat, part: seq<Item>, whole: seq<Item>)
    requires Subsequence(part, whole)
    ensures Subsequence(From(p, part), From(p, whole))
    decreases |whole|
  {
    if part != [] {
      var last, front := whole[|whole| - 1], whole[..|whole| - 1];
      FromAppend(p, front, last);
      assert front + [last] == whole;
      if part[|part| - 1] == last && Subsequence(part[..|part| - 1], front) {
        var begin := part[..|part| - 1];
        FromKeepsSubsequence(p, begin, front);
        FromAppend(p, begin, last);
        assert begin + [last] == part;
        if last.publisher == p {
          SubsequenceTake(From(p, begin), From(p, front), last);
        } else {
          assert From(p, part) == From(p, begin) && From(p, whole) == From(p, front);
        }
      } else {
        FromKeepsSubsequence(p, part, front);
        if last.publisher == p {
          SubsequenceSkip(From(p, part), From(p, front), last);
        } else {
          assert From(p, whole) == From(p, front);
        }
      }
    }
  }

  ghost predicate Increasing(items: seq<Item>) {
    forall i, j :: 0 <= i < j < |items| ==> items[i].number < items[j].number
  }

  /** What publisher p, in the middle of a Publish, still has to offer to channel c. */
  function Pending(b: Bus, p: nat, c: nat): seq<Item> {
    var i := Find(b.subscribers, c);
    if p in b.calls && i >= b.calls[p].next && Wants(b.subscribers[i].topics, b.calls[p].item.topic)
    then [b.calls[p].item] else []
  }

  /** One publisher's books on a channel: what is due was offered or is about to be, in order. */
  ghost predicate Books(due: seq<Item>, offered: seq<Item>, pending: seq<Item>, p: nat, count: nat, topics: set<Topic>) {
    && due == offered + pending
    && Increasing(due)
    && forall k :: 0 <= k < |due| ==> DueOk(due[k], p, count, topics)
  }

  ghost predicate BooksOk(b: Bus, c: nat, p: nat)
    requires c < |b.channels|
  {
    var ch := b.channels[c];
    Books(From(p, ch.due), From(p, ch.offered), Pending(b, p, c), p, Count(b, p), ch.topics)
  }

  ghost predicate DueOk(item: Item, p: nat, count: nat, topics: set<Topic>) {
    item.publisher == p && item.number < count && Wants(topics, item.topic)
  }

  ghost predicate LogOk(b: Bus, c: nat)
    requires c < |b.channels|
  {
    && Subsequence(b.channels[c].accepted, b.channels[c].offered)
    && forall p: nat :: BooksOk(b, c, p)
  }

  ghost predicate Delivering(b: Bus) {
    Safe(b) && forall c :: 0 <= c < |b.channels| ==> LogOk(b, c)
  }

  /** What SendNext by p offers to channel c, as far as publisher q is concerned. */
  ghost function Offer(b: Bus, p: nat, r: nat, c: nat, q: nat): seq<Item>
    requires Enabled(b, SendNext(p, r))
  {
    var call := b.calls[p];
    var sub := b.subscribers[call.next];
    if q == p && sub.channel == c && Wants(sub.topics, call.item.topic) then [call.item] else []
  }

  /** The publisher stands at subscriber `next`, so that subscriber's channel, and no other, sees the offer. */
  lemma PendingStep(b: Bus, p: nat, r: nat, c: nat, q: nat)
    requires Safe(b) && Enabled(b, SendNext(p, r)) && c < |b.channels|
    ensures Pending(b, q, c) == Offer(b, p, r, c, q) + Pending(Apply(b, SendNext(p, r)), q, c)
  {
    var i := Find(b.subscribers, c);
    assert SubscriberOk(b, b.calls[p].next);
    if i >= 0 && i != b.calls[p].next {
      assert b.subscribers[i].channel != b.subscribers[b.calls[p].next].channel;
    }
  }

  lemma SendBooks(b: Bus, p: nat, r: nat, c: nat, q: nat)
    requires Delivering(b) && Enabled(b, SendNext(p, r)) && c < |b.channels|
    ensures c < |Apply(b, SendNext(p, r)).channels| && BooksOk(Apply(b, SendNext(p, r)), c, q)
  {
    var ch, after := b.channels[c], Apply(b, SendNext(p, r));
    assert LogOk(b, c) && BooksOk(b, c, q);
    PendingStep(b, p, r, c, q);
    SendAddsOffer(b, p, r, c, q);
    BooksOffer(From(q, ch.due), From(q, ch.offered), Offer(b, p, r, c, q), Pending(after, q, c), q, Count(b, q), ch.topics);
  }

  lemma SendAddsOffer(b: Bus, p: nat, r: nat, c: nat, q: nat)
    requires Safe(b) && Enabled(b, SendNext(p, r)) && c < |b.channels|
    ensures
      var ch, after := b.channels[c], Apply(b, SendNext(p, r));
      && c < |after.channels| && after.counts == b.counts
      && after.channels[c].topics == ch.topics && after.channels[c].due == ch.due
      && From(q, after.channels[c].offered) == From(q, ch.offered) + Offer(b, p, r, c, q)
  {
    hide Safe, From, Apply;
    SendChangesOneLog(b, p, r, c);
    FromAppend(q, b.channels[c].offered, b.calls[p].item);
  }

  lemma BooksOffer(due: seq<Item>, offered: seq<Item>, offer: seq<Item>, pending: seq<Item>,
                   p: nat, count: nat, topics: set<Topic>)
    requires Books(due, offered, offer + pending, p, count, topics)
    ensures Books(due, offered + offer, pending, p, count, topics)
  {
    assert offered + (offer + pending) == (offered + offer) + pending;
  }

  lemma SendChangesOneLog(b: Bus, p: nat, r: nat, c: nat)
    requires Safe(b) && Enabled(b, SendNext(p, r)) && c < |b.channels|
    ensures
      var call, after := b.calls[p], Apply(b, SendNext(p, r));
      var sub := b.subscribers[call.next];
      && |after.channels| == |b.channels| && after.counts == b.counts && call.item.publisher == p
      && after.channels[c] ==
         if sub.channel == c && Wants(sub.topics, call.item.topic) then TrySend(b.channels[c], call.item, r)
         else b.channels[c]
  {
    assert CallOk(b, p);
    assert SubscriberOk(b, b.calls[p].next);
  }

  lemma SendLogs(b: Bus, p: nat, r: nat, c: nat)
    requires Delivering(b) && Enabled(b, SendNext(p, r)) && c < |b.channels|
    ensures c < |Apply(b, SendNext(p, r)).channels| && LogOk(Apply(b, SendNext(p, r)), c)
  {
    var call, ch := b.calls[p], b.channels[c];
    assert LogOk(b, c);
    SendChangesOneLog(b, p, r, c);
    SubsequenceSkip(ch.accepted, ch.offered, call.item);
    SubsequenceTake(ch.accepted, ch.offered, call.item);
    forall q: nat
      ensures BooksOk(Apply(b, SendNext(p, r)), c, q)
    {
      SendBooks(b, p, r, c, q);
    }
  }

  lemma BeginBooks(b: Bus, a: Action, c: nat, q: nat)
    requires Delivering(b) && Enabled(b, a) && a.BeginPublish? && c < |b.channels|
    ensures c < |Apply(b, a).channels| && BooksOk(Apply(b, a), c, q)
  {
    var p, after := a.publisher, Apply(b, a);
    var item := Item(p, Count(b, p), a.topic, a.event);
    var ch := b.channels[c];
    assert LogOk(b, c) && BooksOk(b, c, q);
    var due := From(q, ch.due);
    if q == p && Announced(b, item, c) {
      BeginChangesDue(b, a, c, p);
      FromAppend(p, ch.due, item);
      BooksAnnounce(due, item, Count(b, p), ch.topics);
    } else {
      BeginChangesDue(b, a, c, q);
      FromAppend(q, ch.due, item);
      assert From(q, after.channels[c].due) == due;
    }
  }

  ghost predicate Announced(b: Bus, item: Item, c: nat)
    requires c < |b.channels|
  {
    !b.closed && Find(b.subscribers, c) >= 0 && Wants(b.channels[c].topics, item.topic)
  }

  lemma BooksAnnounce(due: seq<Item>, item: Item, count: nat, topics: set<Topic>)
    requires Books(due, due, [], item.publisher, count, topics)
    requires item.number == count && Wants(topics, item.topic)
    ensures Books(due + [item], due, [item], item.publisher, count + 1, topics)
  {
    assert forall k :: 0 <= k < |due| ==> DueOk(due[k], item.publisher, count, topics);
  }

  lemma BeginChangesDue(b: Bus, a: Action, c: nat, q: nat)
    requires Safe(b) && Enabled(b, a) && a.BeginPublish? && c < |b.channels|
    ensures
      var item := Item(a.publisher, Count(b, a.publisher), a.topic, a.event);
      var after := Apply(b, a);
      && |after.channels| == |b.channels|
      && after.channels[c] ==
         (if Announced(b, item, c) then b.channels[c].(due := b.channels[c].due + [item]) else b.channels[c])
      && Pending(after, q, c) ==
         (if q != a.publisher then Pending(b, q, c) else if Announced(b, item, c) then [item] else [])
      && Count(after, q) == Count(b, q) + (if q == a.publisher then 1 else 0)
      && Pending(b, a.publisher, c) == []
  {
    var i := Find(b.subscribers, c);
    assert i >= 0 ==> SubscriberOk(b, i);
  }

  lemma BeginLogs(b: Bus, a: Action, c: nat)
    requires Delivering(b) && Enabled(b, a) && a.BeginPublish? && c < |b.channels|
    ensures c < |Apply(b, a).channels| && LogOk(Apply(b, a), c)
  {
    assert LogOk(b, c);
    BeginChangesDue(b, a, c, 0);
    forall q: nat
      ensures BooksOk(Apply(b, a), c, q)
    {
      BeginBooks(b, a, c, q);
    }
  }

  /** The remaining steps leave every log as it is. */
  lemma OtherStepsKeepLogs(b: Bus, a: Action, c: nat)
    requires Safe(b) && Enabled(b, a) && !a.SendNext? && !a.BeginPublish? && c < |b.channels|
    ensures c < |Apply(b, a).channels| && Logs(Apply(b, a).channels[c]) == Logs(b.channels[c])
  {
    hide Safe, Find;
  }

  /** And every offer still to be made. */
  lemma OtherStepsKeepPending(b: Bus, a: Action, c: nat, p: nat)
    requires Safe(b) && Enabled(b, a) && !a.SendNext? && !a.BeginPublish? && c < |b.channels|
    ensures Apply(b, a).counts == b.counts && Pending(Apply(b, a), p, c) == Pending(b, p, c)
  {
    if a.Subscribe? {
      FindAppended(b.subscribers, Subscriber(|b.channels|, TopicSet(a.topics)), c);
    }
  }

  function Logs(ch: Channel): (set<Topic>, seq<Item>, seq<Item>, seq<Item>, seq<Item>) {
    (ch.topics, ch.due, ch.offered, ch.accepted, ch.dropped)
  }

  lemma FindAppended(subscribers: seq<Subscriber>, last: Subscriber, c: nat)
    requires last.channel != c
    ensures Find(subscribers + [last], c) == Find(subscribers, c)
  {
    var i, j := Find(subscribers, c), Find(subscribers + [last], c);
    assert forall k :: 0 <= k < |subscribers| ==> (subscribers + [last])[k] == subscribers[k];
    if i >= 0 && j >= 0 && j < |subscribers| {
      assert subscribers[j].channel == c;
    }
  }

  lemma OtherLogs(b: Bus, a: Action, c: nat)
    requires Delivering(b) && Enabled(b, a) && !a.SendNext? && !a.BeginPublish? && c < |Apply(b, a).channels|
    ensures LogOk(Apply(b, a), c)
  {
    var after := Apply(b, a);
    if c < |b.channels| {
      assert LogOk(b, c);
      OtherStepsKeepLogs(b, a, c);
      forall p: nat
        ensures BooksOk(after, c, p)
      {
        OtherStepsKeepPending(b, a, c, p);
        assert BooksOk(b, c, p);
      }
    } else {
      NewChannelLogs(b, a);
    }
  }

  lemma NewChannelLogs(b: Bus, a: Action)
    requires Delivering(b) && Enabled(b, a) && a.Subscribe?
    ensures |Apply(b, a).channels| == |b.channels| + 1 && LogOk(Apply(b, a), |b.channels|)
  {
    var after, c := Apply(b, a), |b.channels|;
    assert after.channels[c] == Open(a.capacity, TopicSet(a.topics));
    assert b.calls == map[];
    assert forall p: nat :: BooksOk(after, c, p);
  }

  lemma DeliveringStep(b: Bus, a: Action)
    requires Delivering(b) && Enabled(b, a)
    ensures Delivering(Apply(b, a))
  {
    SafeStep(b, a);
    forall c | 0 <= c < |Apply(b, a).channels|
      ensures LogOk(Apply(b, a), c)
    {
      if a.SendNext? {
        SendLogs(b, a.publisher, a.served, c);
      } else if a.BeginPublish? {
        BeginLogs(b, a, c);
      } else {
        OtherLogs(b, a, c);
      }
    }
  }

  lemma {:induction false} DeliveringAlways(states: seq<Bus>, actions: seq<Action>, i: nat)
    requires Behaviour(states, actions) && i < |states|
    ensures Delivering(states[i])
  {
    if i > 0 {
      DeliveringAlways(states, actions, i - 1);
      assert Follows(states[i - 1], actions[i - 1], states[i]);
      DeliveringStep(states[i - 1], actions[i - 1]);
    }
  }

  /** Per publisher, a subscriber gets in publication order, each at most once, some of the matching
      publications begun while it was subscribed; each of those is offered exactly once by the time
      the publisher's call ends; and what is offered is either delivered or dropped. */
  lemma SubscriberGets(states: seq<Bus>, actions: seq<Action>, i: nat, c: nat, p: nat)
    requires Behaviour(states, actions) && i < |states| && c < |states[i].channels|
    ensures
      var b := states[i];
      var ch := b.channels[c];
      && Subsequence(From(p, ch.received + ch.buffer), From(p, ch.due))
      && Increasing(From(p, ch.due))
      && (forall item :: item in From(p, ch.due) ==>
          item.publisher == p && (item.topic in ch.topics || "all" in ch.topics))
      && (p !in b.calls ==> From(p, ch.offered) == From(p, ch.due))
      && |ch.received| + |ch.buffer| + |ch.dropped| == |ch.offered|
      && multiset(ch.offered) == multiset(ch.received) + multiset(ch.buffer) + multiset(ch.dropped)
  {
    DeliveringAlways(states, actions, i);
    var b := states[i];
    var ch := b.channels[c];
    assert LogOk(b, c) && ChannelOk(ch) && BooksOk(b, c, p);
    FromKeepsSubsequence(p, ch.accepted, ch.offered);
    assert From(p, ch.due) == From(p, ch.offered) + Pending(b, p, c);
    if Pending(b, p, c) != [] {
      SubsequenceSkip(From(p, ch.accepted), From(p, ch.offered), Pending(b, p, c)[0]);
    } else {
      assert From(p, ch.due) == From(p, ch.offered);
    }
    forall item | item in From(p, ch.due)
      ensures item.publisher == p && (item.topic in ch.topics || "all" in ch.topics)
    {
      var k :| 0 <= k < |From(p, ch.due)| && From(p, ch.due)[k] == item;
      assert DueOk(From(p, ch.due)[k], p, Count(b, p), ch.topics);
    }
    assert |multiset(ch.offered)| == |multiset(ch.accepted)| + |multiset(ch.dropped)|;
  }

  lemma DropStep(b: Bus, a: Action, c: nat)
    requires Safe(b) && Enabled(b, a) && c < |b.channels|
    ensures c < |Apply(b, a).channels|
    ensures Apply(b, a).channels[c].dropped == b.channels[c].dropped || !CanTake(b.channels[c])
  {
    match a
    case SendNext(p, r) => SendChangesOneLog(b, p, r, c);
    case BeginPublish(p, _, _) => BeginChangesDue(b, a, c, p);
    case _ => OtherStepsKeepLogs(b, a, c);
  }

  /** A step drops an item on a channel only if its buffer is full at that send and no receiver is parked. */
  lemma DropsOnlyWhenFull(states: seq<Bus>, actions: seq<Action>, i: nat, c: nat)
    requires Behaviour(states, actions) && i < |actions| && c < |states[i].channels|
    ensures c < |states[i + 1].channels|
    ensures states[i + 1].channels[c].dropped != states[i].channels[c].dropped ==>
      |states[i].channels[c].buffer| == states[i].channels[c].capacity && states[i].channels[c].waiting == {}
  {
    SafeAlways(states, actions, i);
    assert Follows(states[i], actions[i], states[i + 1]);
    DropStep(states[i], actions[i], c);
    assert ChannelOk(states[i].channels[c]);
  }
}
