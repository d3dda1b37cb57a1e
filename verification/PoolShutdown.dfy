/** Shutdown stops the worker pool: the end of the story of internal/event/bus.go and processor.go. */
module PoolShutdown {
  import opened Events
  import opened BusProtocol
  import opened BusSafety
  import opened BusDelivery
  import opened BusHistory
  import opened WorkerPool

  /** The feed is closed, or still in the subscriber list. */
  ghost predicate Held(b: Bus, feed: nat) {
    feed < |b.channels| && (b.channels[feed].closed || Find(b.subscribers, feed) >= 0)
  }

  lemma CloseStep(b: Bus, a: Action, feed: nat)
    requires Safe(b) && Enabled(b, a) && feed < |b.channels|
    ensures feed < |Apply(b, a).channels|
    ensures b.channels[feed].closed ==> Apply(b, a).channels[feed].closed
  {
    hide Find;
    if a.SendNext? {
      SendChangesOneLog(b, a.publisher, a.served, feed);
    } else if a.BeginPublish? {
      BeginKeepsClosed(b, a, feed);
    }
  }

  lemma BeginKeepsClosed(b: Bus, a: Action, feed: nat)
    requires Safe(b) && Enabled(b, a) && a.BeginPublish? && feed < |b.channels|
    ensures |Apply(b, a).channels| == |b.channels| && Apply(b, a).subscribers == b.subscribers
    ensures Apply(b, a).channels[feed].closed == b.channels[feed].closed
  {
    BeginChangesDue(b, a, feed, a.publisher);
  }

  lemma UnsubscribeHolds(b: Bus, a: Action, feed: nat)
    requires Safe(b) && Enabled(b, a) && a.Unsubscribe? && Held(b, feed)
    ensures Held(Apply(b, a), feed)
  {
    CloseStep(b, a, feed);
    FindRemoved(b, a.channel, feed);
    UnsubscribeStep(b, a, feed);
    var i := Find(b.subscribers, a.channel);
    if i >= 0 && a.channel == feed {
      UnsubscribedIsClosed(b, a);
    }
  }

  lemma UnsubscribedIsClosed(b: Bus, a: Action)
    requires Safe(b) && Enabled(b, a) && a.Unsubscribe? && Find(b.subscribers, a.channel) >= 0
    ensures a.channel < |Apply(b, a).channels| && Apply(b, a).channels[a.channel].closed
  {
    assert SubscriberOk(b, Find(b.subscribers, a.channel));
  }

  lemma SubscribeHolds(b: Bus, a: Action, feed: nat)
    requires Safe(b) && Enabled(b, a) && a.Subscribe? && Held(b, feed)
    ensures Held(Apply(b, a), feed)
  {
    FindAppended(b.subscribers, Subscriber(|b.channels|, TopicSet(a.topics)), feed);
  }

  /** When Shutdown lets go of the lock, every channel it found subscribed is closed. */
  lemma EndShutdownCloses(b: Bus, feed: nat)
    requires Safe(b) && Enabled(b, EndShutdown) && Held(b, feed)
    ensures Held(Apply(b, EndShutdown), feed) && Apply(b, EndShutdown).channels[feed].closed
  {
    var i := Find(b.subscribers, feed);
    assert i >= 0 ==> SubscriberOk(b, i);
  }

  lemma StepHolds(b: Bus, a: Action, feed: nat)
    requires Safe(b) && Enabled(b, a) && Held(b, feed)
    ensures Held(Apply(b, a), feed)
  {
    hide Safe, Apply, Enabled, Find;
    if a.Unsubscribe? {
      UnsubscribeHolds(b, a, feed);
    } else if a.Subscribe? {
      SubscribeHolds(b, a, feed);
    } else if a.EndShutdown? {
      EndShutdownCloses(b, feed);
    } else {
      CloseStep(b, a, feed);
      OtherStep(b, a, feed);
    }
  }

  /** The pool's own moves take from the feed or leave it; they hold it too. */
  lemma MoveHolds(s: System, m: Move)
    requires PoolOk(s) && Possible(s, m) && Held(s.bus, s.feed)
    ensures Held(Step(s, m).bus, s.feed) && Step(s, m).feed == s.feed
  {
    hide Safe, Apply, Held, CrewOk;
    match m
    case Outside(a) => StepHolds(s.bus, a, s.feed);
    case Take(w) => StepHolds(s.bus, TakeFrom(s.feed, w), s.feed);
    case Quit(w) =>
      if s.workers[w].Parked? {
        StepHolds(s.bus, GiveUp(s.feed, w), s.feed);
      }
    case _ =>
  }

  lemma {:induction false} AlwaysHeld(states: seq<System>, moves: seq<Move>, i: nat)
    requires Run(states, moves) && i < |states| && Find(states[0].bus.subscribers, states[0].feed) >= 0
    ensures Held(states[i].bus, states[i].feed)
  {
    hide Step, Possible, PoolOk, Find;
    if i == 0 {
      assert Start(states[0]);
    } else {
      AlwaysHeld(states, moves, i - 1);
      PoolAlways(states, moves, i - 1);
      assert Goes(states[i - 1], moves[i - 1], states[i]);
      MoveHolds(states[i - 1], moves[i - 1]);
    }
  }

  /** A Shutdown closes the feed of every pool that was started on a subscribed channel. */
  lemma ShutdownClosesFeed(states: seq<System>, moves: seq<Move>, k: nat)
    requires Run(states, moves) && Find(states[0].bus.subscribers, states[0].feed) >= 0
    requires k < |moves| && moves[k] == Outside(EndShutdown)
    ensures FeedClosed(states[k + 1])
  {
    hide PoolOk, Find;
    AlwaysHeld(states, moves, k);
    PoolAlways(states, moves, k);
    assert Goes(states[k], moves[k], states[k + 1]);
    EndClosesFeed(states[k], states[k + 1]);
  }

  lemma EndClosesFeed(s: System, next: System)
    requires PoolOk(s) && Held(s.bus, s.feed) && Goes(s, Outside(EndShutdown), next)
    ensures FeedClosed(next)
  {
    hide Apply, Safe, Find, CrewOk;
    EndShutdownCloses(s.bus, s.feed);
  }

  /** All workers have returned. */
  predicate AllDone(s: System) {
    forall w :: 0 <= w < |s.workers| ==> s.workers[w].Done?
  }

  ghost predicate ProcessedOnce(s: System) {
    s.feed < |s.bus.channels| &&
    var accepted := s.bus.channels[s.feed].accepted;
    forall item :: Times(s.processed, item) == Times(accepted, item) <= 1
  }

  /** When all workers have returned, for whatever reason, every accepted event was processed exactly once if
      and only if none is left in the buffer. */
  lemma ProcessedExactly(states: seq<System>, moves: seq<Move>, i: nat)
    requires Run(states, moves) && i < |states| && AllDone(states[i])
    ensures states[i].feed < |states[i].bus.channels|
    ensures ProcessedOnce(states[i]) <==> states[i].bus.channels[states[i].feed].buffer == []
  {
    hide Run;
    var s := states[i];
    Conservation(states, moves, i);
    var ch := s.bus.channels[s.feed];
    forall item
      ensures InFlight(s.workers, item) == 0
    {
      NothingInFlight(s.workers, item);
    }
    if ch.buffer != [] {
      assert ch.buffer[0] in multiset(ch.buffer);
      assert Times(ch.buffer, ch.buffer[0]) > 0;
    }
  }

  /** A pool of one worker on a subscribed feed. */
  function OneWorker(topic: Topic): System {
    System(Apply(INIT, Subscribe(1, [topic])), 0, [Idle], [], false)
  }

  lemma OneWorkerStarts(topic: Topic)
    ensures Start(OneWorker(topic)) && Find(OneWorker(topic).bus.subscribers, 0) == 0
  {
    DeliveringAlways([INIT], [], 0);
    DeliveringStep(INIT, Subscribe(1, [topic]));
  }

  function Published(topic: Topic, ev: Event): System
  {
    var s := OneWorker(topic);
    Step(s, Outside(BeginPublish(0, topic, ev)))
  }

  lemma OfferIsBuffered(topic: Topic, ev: Event)
    ensures Possible(Published(topic, ev), Outside(SendNext(0, 0)))
    ensures
      var s := Step(Published(topic, ev), Outside(SendNext(0, 0)));
      && s.feed == 0 && |s.bus.channels| == 1 && s.workers == [Idle] && s.processed == [] && !s.cancelled
      && s.bus.channels[0].buffer == s.bus.channels[0].accepted == [Item(0, 0, topic, ev)]
  {
    assert topic in TopicSet([topic]);
  }

  lemma PublishGoes(topic: Topic, ev: Event)
    ensures Goes(OneWorker(topic), Outside(BeginPublish(0, topic, ev)), Published(topic, ev))
  {
  }

  /** Cancelling the context first loses events: one is published and accepted, the context is cancelled,
      and the worker leaves by ctx.Done(), which its select may choose although the channel is ready. */
  lemma CancelLosesEvents(topic: Topic, ev: Event) returns (states: seq<System>, moves: seq<Move>)
    ensures Run(states, moves) && |states| == 5 && Find(states[0].bus.subscribers, states[0].feed) >= 0
    ensures
      var last := states[4];
      && AllDone(last) && last.cancelled && last.processed == [] && last.feed < |last.bus.channels|
      && last.bus.channels[last.feed].accepted == [Item(0, 0, topic, ev)]
  {
    hide Start, Find, OneWorker, Published;
    OneWorkerStarts(topic);
    PublishGoes(topic, ev);
    OfferIsBuffered(topic, ev);
    var s1 := Published(topic, ev);
    var offer := Outside(SendNext(0, 0));
    var s2 := Step(s1, offer);
    assert Goes(s1, offer, s2);
    var s3 := s2.(cancelled := true);
    assert Goes(s2, Cancel, s3);
    var s4 := s3.(workers := [Done(true)]);
    assert Goes(s3, Quit(0), s4);
    states := [OneWorker(topic), s1, s2, s3, s4];
    moves := [Outside(BeginPublish(0, topic, ev)), offer, Cancel, Quit(0)];
  }

  /** Once Shutdown has returned, the workers make at most as many moves as there is work left; until all
      have returned some worker can move; and when they have, with the context not cancelled, every
      accepted event was processed exactly once. */
  lemma ShutdownStopsThePool(states: seq<System>, moves: seq<Move>, k: nat, j: nat)
    requires Run(states, moves) && Find(states[0].bus.subscribers, states[0].feed) >= 0
    requires k < j < |states| && moves[k] == Outside(EndShutdown)
    ensures FeedClosed(states[k + 1]) && FeedClosed(states[j]) && j <= |moves|
    ensures WorkerMoves(moves, k + 1, j) + WorkLeft(states[j]) <= WorkLeft(states[k + 1])
    ensures !AllDone(states[j]) ==> exists m :: OfWorker(m) && Possible(states[j], m)
    ensures AllDone(states[j]) && |states[j].workers| > 0 && !states[j].cancelled ==> ProcessedOnce(states[j])
  {
    hide Run, Find, PoolOk, WorkLeft, FeedClosed, OfWorker, Possible;
    RunLength(states, moves);
    ShutdownClosesFeed(states, moves, k);
    ClosedFeedBoundsMoves(states, moves, k + 1, j);
    PoolAlways(states, moves, j);
    if !AllDone(states[j]) {
      ClosedFeedProgress(states[j]);
    } else if |states[j].workers| > 0 && !states[j].cancelled {
      AllReturnedMeansAllProcessed(states, moves, j);
    }
  }
}
