/** internal/event/bus.go as a protocol: every interleaving of publishers, subscribers, receivers and
    Shutdown, with each channel send and each channel close a step of its own. */
module BusProtocol {
  import opened Events

  type Topic = string
  const TOPIC_ALL: Topic := "all"

  /** Publication `number` of one publisher goroutine. */
  datatype Item = Item(publisher: nat, number: nat, topic: Topic, event: Event)

  /** A Go channel with the receivers parked on it, plus the history the theorems speak of. */
  datatype Channel = Channel(
    capacity: nat,
    buffer: seq<Item>,
    closed: bool,
    waiting: set<nat>,        // parked receivers
    topics: set<Topic>,       // what the one subscriber of this channel asked for
    due: seq<Item>,           // publications begun while subscribed that match the topics
    offered: seq<Item>,       // items a send was tried with
    accepted: seq<Item>,      // of these, the ones taken
    dropped: seq<Item>,       // and the ones not taken
    received: seq<Item>)      // items handed to receivers

  function Open(capacity: nat, topics: set<Topic>): Channel {
    Channel(capacity, [], false, {}, topics, [], [], [], [], [])
  }

  predicate CanTake(c: Channel) {
    c.waiting != {} || |c.buffer| < c.capacity
  }

  /** `select { case ch <- item: default: }` on an open channel; r is the parked receiver, if any, that
      the runtime serves. */
  function TrySend(c: Channel, item: Item, r: nat): Channel {
    var o := c.(offered := c.offered + [item]);
    if c.waiting != {} then
      o.(waiting := c.waiting - {r}, accepted := c.accepted + [item], received := c.received + [item])
    else if |c.buffer| < c.capacity then
      o.(buffer := c.buffer + [item], accepted := c.accepted + [item])
    else
      o.(dropped := c.dropped + [item])
  }

  /** `<-ch` by receiver r: take the oldest item, return at once if closed, or park. */
  function Receive(c: Channel, r: nat): Channel {
    if c.buffer != [] then c.(buffer := c.buffer[1..], received := c.received + [c.buffer[0]])
    else if c.closed then c
    else c.(waiting := c.waiting + {r})
  }

  function Close(c: Channel): Channel {
    c.(closed := true, waiting := {})
  }

  datatype Subscriber = Subscriber(channel: nat, topics: set<Topic>)

  /** A Publish in progress: it holds the read lock and stands at subscriber `next`. */
  datatype Call = Call(item: Item, next: nat)

  datatype Bus = Bus(
    channels: seq<Channel>,        // every channel ever made
    subscribers: seq<Subscriber>,
    closed: bool,
    calls: map<nat, Call>,         // publishers holding the read lock
    closing: Option<nat>,          // Shutdown holding the write lock: the next subscriber to close
    counts: map<nat, nat>,         // publications begun so far by each publisher
    panicked: bool)                // a send on, or a close of, a closed channel happened

  const INIT := Bus([], [], false, map[], None, map[], false)

  function Count(b: Bus, p: nat): nat {
    if p in b.counts then b.counts[p] else 0
  }

  predicate Wants(topics: set<Topic>, topic: Topic) {
    topic in topics || TOPIC_ALL in topics
  }

  predicate Unlocked(b: Bus) {
    b.calls == map[] && b.closing.None?
  }

  datatype Action =
    | Subscribe(capacity: nat, topics: seq<Topic>)
    | Unsubscribe(channel: nat)
    | BeginPublish(publisher: nat, topic: Topic, event: Event)
    | SendNext(publisher: nat, served: nat)
    | EndPublish(publisher: nat)
    | BeginShutdown
    | CloseNext
    | EndShutdown
    | TakeFrom(channel: nat, receiver: nat)
    | GiveUp(channel: nat, receiver: nat)   // a parked receiver leaves by another select case

  /** When the locks let an action happen. */
  predicate Enabled(b: Bus, a: Action) {
    !b.panicked &&
    match a
    case Subscribe(_, _) => Unlocked(b)
    case Unsubscribe(_) => Unlocked(b)
    case BeginPublish(p, _, _) => p !in b.calls && b.closing.None?
    case SendNext(p, r) => p in b.calls && b.calls[p].next < |b.subscribers| && Servable(b, b.calls[p], r)
    case EndPublish(p) => p in b.calls && b.calls[p].next >= |b.subscribers|
    case BeginShutdown => Unlocked(b)
    case CloseNext => b.closing.Some? && b.closing.value < |b.subscribers|
    case EndShutdown => b.closing.Some? && b.closing.value >= |b.subscribers|
    case TakeFrom(c, r) => c < |b.channels| && r !in b.channels[c].waiting
    case GiveUp(c, r) => c < |b.channels| && r in b.channels[c].waiting
  }

  predicate Servable(b: Bus, call: Call, r: nat)
    requires call.next < |b.subscribers|
  {
    var c := b.subscribers[call.next].channel;
    c < |b.channels| && b.channels[c].waiting != {} ==> r in b.channels[c].waiting
  }

  /** The position of the first subscriber on a channel, or -1. */
  function Find(subscribers: seq<Subscriber>, channel: nat): (i: int)
    ensures -1 <= i < |subscribers|
    ensures i >= 0 ==> subscribers[i].channel == channel
    ensures forall j :: 0 <= j < (if i < 0 then |subscribers| else i) ==> subscribers[j].channel != channel
  {
    if subscribers == [] then -1
    else if subscribers[0].channel == channel then 0
    else
      var rest := Find(subscribers[1..], channel);
      if rest < 0 then -1 else rest + 1
  }

  function SendTo(b: Bus, channel: nat, item: Item, r: nat): Bus {
    if channel >= |b.channels| || b.channels[channel].closed then b.(panicked := true)
    else b.(channels := b.channels[channel := TrySend(b.channels[channel], item, r)])
  }

  function CloseChannel(b: Bus, channel: nat): Bus {
    if channel >= |b.channels| || b.channels[channel].closed then b.(panicked := true)
    else b.(channels := b.channels[channel := Close(b.channels[channel])])
  }

  /** Note on every channel that wants it that the item is due there. */
  function Announce(channels: seq<Channel>, subscribers: seq<Subscriber>, item: Item): (r: seq<Channel>)
    ensures |r| == |channels|
  {
    seq(|channels|, c requires 0 <= c < |channels| =>
      if Find(subscribers, c) >= 0 && Wants(channels[c].topics, item.topic)
      then channels[c].(due := channels[c].due + [item]) else channels[c])
  }

  function TopicSet(topics: seq<Topic>): set<Topic> {
    set t | t in topics
  }

  function Apply(b: Bus, a: Action): Bus
    requires Enabled(b, a)
  {
    match a
    case Subscribe(capacity, topics) =>
      b.(channels := b.channels + [Open(capacity, TopicSet(topics))],
         subscribers := b.subscribers + [Subscriber(|b.channels|, TopicSet(topics))])
    case Unsubscribe(channel) =>
      var i := Find(b.subscribers, channel);
      if i < 0 then b
      else CloseChannel(b, channel).(subscribers := b.subscribers[..i] + b.subscribers[i + 1..])
    case BeginPublish(p, topic, event) =>
      var item := Item(p, Count(b, p), topic, event);
      var begun := b.(counts := b.counts[p := Count(b, p) + 1]);
      if b.closed then begun
      else begun.(calls := b.calls[p := Call(item, 0)],
                  channels := Announce(b.channels, b.subscribers, item))
    case SendNext(p, r) =>
      var call := b.calls[p];
      var sub := b.subscribers[call.next];
      var after := if Wants(sub.topics, call.item.topic) then SendTo(b, sub.channel, call.item, r) else b;
      after.(calls := b.calls[p := call.(next := call.next + 1)])
    case EndPublish(p) => b.(calls := b.calls - {p})
    case BeginShutdown => b.(closed := true, closing := Some(0))
    case CloseNext =>
      CloseChannel(b, b.subscribers[b.closing.value].channel).(closing := Some(b.closing.value + 1))
    case EndShutdown => b.(subscribers := [], closing := None)
    case TakeFrom(c, r) => b.(channels := b.channels[c := Receive(b.channels[c], r)])
    case GiveUp(c, r) =>
      b.(channels := b.channels[c := b.channels[c].(waiting := b.channels[c].waiting - {r})])
  }

  /** A behaviour of the bus: any schedule the locks allow. */
  ghost predicate Behaviour(states: seq<Bus>, actions: seq<Action>) {
    && |states| == |actions| + 1 && states[0] == INIT
    && forall i :: 0 <= i < |actions| ==> Follows(states[i], actions[i], states[i + 1])
  }

  ghost predicate Follows(b: Bus, a: Action, next: Bus) {
    Enabled(b, a) && next == Apply(b, a)
  }
}
