/** internal/event/processor.go: N workers draining one bus channel, over every interleaving with the bus. */
module WorkerPool {
  import opened Events
  import opened BusProtocol
  import opened BusSafety
  import opened BusDelivery

  /** Where a worker's loop stands: about to select, parked in it, processing, or returned. */
  datatype Worker = Idle | Parked | Busy(item: Item) | Done(cancelled: bool)

  datatype System = System(
    bus: Bus, feed: nat, workers: seq<Worker>, processed: seq<Item>, cancelled: bool)

  datatype Move =
    | Outside(action: Action)  // anything publishers, subscribers, Shutdown and other receivers do
    | Take(worker: nat)        // the select chooses the channel
    | Finish(worker: nat)      // process returns
    | Cancel                   // the context is cancelled
    | Quit(worker: nat)        // the select chooses ctx.Done()

  predicate Possible(s: System, m: Move) {
    s.feed < |s.bus.channels| &&
    match m
    case Outside(a) => Enabled(s.bus, a) && !((a.TakeFrom? || a.GiveUp?) && a.channel == s.feed)
    case Take(w) => w < |s.workers| && s.workers[w].Idle? && Enabled(s.bus, TakeFrom(s.feed, w))
    case Finish(w) => w < |s.workers| && s.workers[w].Busy?
    case Cancel => true
    case Quit(w) =>
      s.cancelled && w < |s.workers| && (s.workers[w].Idle? || (s.workers[w].Parked? && Enabled(s.bus, GiveUp(s.feed, w))))
  }

  function WakeAll(workers: seq<Worker>): (r: seq<Worker>)
    ensures |r| == |workers|
    ensures forall w :: 0 <= w < |workers| ==> r[w] == if workers[w].Parked? then Done(false) else workers[w]
  {
    if workers == [] then []
    else [if workers[0].Parked? then Done(false) else workers[0]] + WakeAll(workers[1..])
  }

  /** What parked workers notice of an outside step: a hand-over to one of them, or the close. */
  function React(workers: seq<Worker>, a: Action, before: Channel, after: Channel): seq<Worker> {
    if after.closed && !before.closed then WakeAll(workers)
    else if a.SendNext? && |after.received| > |before.received| && a.served < |workers| then
      workers[a.served := Busy(after.received[|after.received| - 1])]
    else workers
  }

  function Step(s: System, m: Move): System
    requires Possible(s, m)
  {
    match m
    case Outside(a) =>
      var after := Apply(s.bus, a);
      s.(bus := after,
         workers := if s.feed < |after.channels|
                    then React(s.workers, a, s.bus.channels[s.feed], after.channels[s.feed]) else s.workers)
    case Take(w) =>
      s.(bus := Apply(s.bus, TakeFrom(s.feed, w)),
         workers := s.workers[w := AfterTake(s.bus.channels[s.feed])])
    case Finish(w) =>
      s.(processed := s.processed + [s.workers[w].item], workers := s.workers[w := Idle])
    case Cancel => s.(cancelled := true)
    case Quit(w) =>
      s.(bus := if s.workers[w].Parked? then Apply(s.bus, GiveUp(s.feed, w)) else s.bus,
         workers := s.workers[w := Done(true)])
  }

  /** The pool starts on a channel nobody has received from; events may already be waiting in it. */
  ghost predicate Start(s: System) {
    && Delivering(s.bus) && s.feed < |s.bus.channels|
    && s.bus.channels[s.feed].received == [] && s.bus.channels[s.feed].waiting == {}
    && (forall w :: 0 <= w < |s.workers| ==> s.workers[w].Idle?)
    && s.processed == [] && !s.cancelled
  }

  ghost predicate Run(states: seq<System>, moves: seq<Move>) {
    && |states| == |moves| + 1 && Start(states[0])
    && forall i :: 0 <= i < |moves| ==> Goes(states[i], moves[i], states[i + 1])
  }

  ghost predicate Goes(s: System, m: Move, next: System) {
    Possible(s, m) && next == Step(s, m)
  }

  // ---------------------------------------------------------------------------
  // The invariant.

  function Holds(w: Worker, item: Item): nat {
    if w == Busy(item) then 1 else 0
  }

  /** How many workers are processing this very item. */
  function InFlight(workers: seq<Worker>, item: Item): nat {
    if workers == [] then 0
    else InFlight(workers[..|workers| - 1], item) + Holds(workers[|workers| - 1], item)
  }

  function Times(items: seq<Item>, item: Item): nat {
    multiset(items)[item]
  }

  ghost predicate ParkedOk(waiting: set<nat>, workers: seq<Worker>) {
    forall w: nat :: w in waiting <==> w < |workers| && workers[w].Parked?
  }

  ghost predicate DoneOk(workers: seq<Worker>, ch: Channel, cancelled: bool) {
    forall w :: 0 <= w < |workers| && workers[w].Done? ==>
      if workers[w].cancelled then cancelled else ch.closed && ch.buffer == []
  }

  ghost predicate TallyOk(received: seq<Item>, workers: seq<Worker>, processed: seq<Item>) {
    forall item :: Times(received, item) == Times(processed, item) + InFlight(workers, item)
  }

  /** The pool as its channel sees it. */
  ghost predicate CrewOk(ch: Channel, workers: seq<Worker>, processed: seq<Item>, cancelled: bool) {
    && ParkedOk(ch.waiting, workers)
    && DoneOk(workers, ch, cancelled)
    && TallyOk(ch.received, workers, processed)
  }

  ghost predicate PoolOk(s: System) {
    && Delivering(s.bus) && s.feed < |s.bus.channels|
    && CrewOk(s.bus.channels[s.feed], s.workers, s.processed, s.cancelled)
  }

  lemma {:induction false} InFlightUpdate(workers: seq<Worker>, w: nat, next: Worker, item: Item)
    requires w < |workers|
    ensures InFlight(workers[w := next], item) + Holds(workers[w], item) == InFlight(workers, item) + Holds(next, item)
  {
    var n := |workers| - 1;
    if w == n {
      assert workers[w := next][..n] == workers[..n];
    } else {
      InFlightUpdate(workers[..n], w, next, item);
      assert workers[w := next][..n] == workers[..n][w := next];
    }
  }

  lemma {:induction false} NothingInFlight(workers: seq<Worker>, item: Item)
    requires forall w :: 0 <= w < |workers| ==> !workers[w].Busy?
    ensures InFlight(workers, item) == 0
  {
    if workers != [] {
      NothingInFlight(workers[..|workers| - 1], item);
    }
  }

  lemma {:induction false} SameInFlight(a: seq<Worker>, b: seq<Worker>, item: Item)
    requires |a| == |b| && forall w :: 0 <= w < |a| ==> (a[w].Busy? || b[w].Busy? ==> a[w] == b[w])
    ensures InFlight(a, item) == InFlight(b, item)
  {
    if a != [] {
      SameInFlight(a[..|a| - 1], b[..|b| - 1], item);
    }
  }

  lemma TimesAppend(items: seq<Item>, last: Item, item: Item)
    ensures Times(items + [last], item) == Times(items, item) + if last == item then 1 else 0
  {
  }

  /** Worker w gets an item. */
  lemma TallyTake(received: seq<Item>, workers: seq<Worker>, processed: seq<Item>, w: nat, got: Item)
    requires TallyOk(received, workers, processed) && w < |workers| && !workers[w].Busy?
    ensures TallyOk(received + [got], workers[w := Busy(got)], processed)
  {
    forall item
      ensures Times(received + [got], item) == Times(processed, item) + InFlight(workers[w := Busy(got)], item)
    {
      TimesAppend(received, got, item);
      InFlightUpdate(workers, w, Busy(got), item);
    }
  }

  lemma TallyFinish(received: seq<Item>, workers: seq<Worker>, processed: seq<Item>, w: nat)
    requires TallyOk(received, workers, processed) && w < |workers| && workers[w].Busy?
    ensures TallyOk(received, workers[w := Idle], processed + [workers[w].item])
  {
    forall item
      ensures Times(received, item) == Times(processed + [workers[w].item], item) + InFlight(workers[w := Idle], item)
    {
      TimesAppend(processed, workers[w].item, item);
      InFlightUpdate(workers, w, Idle, item);
    }
  }

  /** Workers come and go without holding an item. */
  lemma TallySame(received: seq<Item>, workers: seq<Worker>, after: seq<Worker>, processed: seq<Item>)
    requires TallyOk(received, workers, processed) && |after| == |workers|
    requires forall w :: 0 <= w < |after| ==> (after[w].Busy? || workers[w].Busy? ==> after[w] == workers[w])
    ensures TallyOk(received, after, processed)
  {
    forall item
      ensures Times(received, item) == Times(processed, item) + InFlight(after, item)
    {
      SameInFlight(after, workers, item);
    }
  }

  /** An outside step leaves the feed alone, offers it one item while open, or closes it. */
  ghost predicate FeedStep(a: Action, before: Channel, after: Channel) {
    || Core(after) == Core(before)
    || (a.SendNext? && !before.closed && (before.waiting != {} ==> a.served in before.waiting)
        && exists item :: after == TrySend(before, item, a.served))
    || (!before.closed && after == Close(before))
  }

  function Core(ch: Channel): (seq<Item>, bool, set<nat>, seq<Item>) {
    (ch.buffer, ch.closed, ch.waiting, ch.received)
  }

  lemma OutsideFeedStep(b: Bus, a: Action, c: nat)
    requires Safe(b) && Enabled(b, a) && c < |b.channels|
    requires !((a.TakeFrom? || a.GiveUp?) && a.channel == c)
    ensures c < |Apply(b, a).channels| && FeedStep(a, b.channels[c], Apply(b, a).channels[c])
  {
    var after := Apply(b, a);
    match a
    case SendNext(p, r) =>
      SendChangesOneLog(b, p, r, c);
      assert SubscriberOk(b, b.calls[p].next);
    case BeginPublish(p, _, _) =>
      BeginChangesDue(b, a, c, p);
    case CloseNext =>
      assert SubscriberOk(b, b.closing.value);
    case Unsubscribe(d) =>
      var i := Find(b.subscribers, d);
      assert i >= 0 ==> SubscriberOk(b, i);
    case _ =>
  }

  lemma OfferKeepsCrew(a: Action, before: Channel, item: Item, workers: seq<Worker>, processed: seq<Item>, cancelled: bool)
    requires CrewOk(before, workers, processed, cancelled) && !before.closed
    requires a.SendNext? && (before.waiting != {} ==> a.served in before.waiting)
    ensures
      var after := TrySend(before, item, a.served);
      CrewOk(after, React(workers, a, before, after), processed, cancelled)
  {
    var after, w := TrySend(before, item, a.served), a.served;
    if before.waiting != {} {
      assert w < |workers| && workers[w].Parked?;
      assert React(workers, a, before, after) == workers[w := Busy(item)];
      TallyTake(before.received, workers, processed, w, item);
    } else {
      assert React(workers, a, before, after) == workers;
    }
  }

  lemma CloseKeepsCrew(before: Channel, workers: seq<Worker>, processed: seq<Item>, cancelled: bool)
    requires CrewOk(before, workers, processed, cancelled) && ChannelOk(before)
    ensures CrewOk(Close(before), WakeAll(workers), processed, cancelled)
  {
    TallySame(before.received, workers, WakeAll(workers), processed);
    assert forall w: nat :: w < |workers| && workers[w].Parked? ==> w in before.waiting;
  }

  lemma OutsideKeepsCrew(a: Action, before: Channel, after: Channel,
                         workers: seq<Worker>, processed: seq<Item>, cancelled: bool)
    requires CrewOk(before, workers, processed, cancelled) && ChannelOk(before) && FeedStep(a, before, after)
    ensures CrewOk(after, React(workers, a, before, after), processed, cancelled)
  {
    if Core(after) != Core(before) {
      if after == Close(before) && !before.closed {
        CloseKeepsCrew(before, workers, processed, cancelled);
      } else {
        var item :| after == TrySend(before, item, a.served);
        OfferKeepsCrew(a, before, item, workers, processed, cancelled);
      }
    }
  }

  function AfterTake(ch: Channel): Worker {
    if ch.buffer != [] then Busy(ch.buffer[0]) else if ch.closed then Done(false) else Parked
  }

  lemma TakeKeepsCrew(ch: Channel, w: nat, workers: seq<Worker>, processed: seq<Item>, cancelled: bool)
    requires CrewOk(ch, workers, processed, cancelled) && w < |workers| && workers[w].Idle?
    ensures CrewOk(Receive(ch, w), workers[w := AfterTake(ch)], processed, cancelled)
  {
    if ch.buffer != [] {
      TallyTake(ch.received, workers, processed, w, ch.buffer[0]);
    } else {
      TallySame(ch.received, workers, workers[w := AfterTake(ch)], processed);
    }
  }

  lemma QuitKeepsCrew(ch: Channel, w: nat, workers: seq<Worker>, processed: seq<Item>)
    requires CrewOk(ch, workers, processed, true) && w < |workers| && (workers[w].Idle? || workers[w].Parked?)
    ensures CrewOk(ch.(waiting := ch.waiting - {w}), workers[w := Done(true)], processed, true)
  {
    TallySame(ch.received, workers, workers[w := Done(true)], processed);
  }

  lemma PoolStep(s: System, m: Move)
    requires PoolOk(s) && Possible(s, m)
    ensures PoolOk(Step(s, m))
  {
    var ch := s.bus.channels[s.feed];
    match m
    case Outside(a) =>
      DeliveringStep(s.bus, a);
      OutsideFeedStep(s.bus, a, s.feed);
      OutsideKeepsCrew(a, ch, Apply(s.bus, a).channels[s.feed], s.workers, s.processed, s.cancelled);
    case Take(w) =>
      DeliveringStep(s.bus, TakeFrom(s.feed, w));
      TakeKeepsCrew(ch, w, s.workers, s.processed, s.cancelled);
    case Finish(w) =>
      TallyFinish(ch.received, s.workers, s.processed, w);
    case Cancel =>
    case Quit(w) =>
      QuitKeepsCrew(ch, w, s.workers, s.processed);
      if s.workers[w].Parked? {
        DeliveringStep(s.bus, GiveUp(s.feed, w));
      } else {
        assert ch.waiting - {w} == ch.waiting;
      }
  }

  lemma {:induction false} PoolAlways(states: seq<System>, moves: seq<Move>, i: nat)
    requires Run(states, moves) && i < |states|
    ensures PoolOk(states[i])
  {
    if i == 0 {
      forall item
        ensures InFlight(states[0].workers, item) == 0
      {
        NothingInFlight(states[0].workers, item);
      }
    } else {
      PoolAlways(states, moves, i - 1);
      assert Goes(states[i - 1], moves[i - 1], states[i]);
      PoolStep(states[i - 1], moves[i - 1]);
    }
  }

  // ---------------------------------------------------------------------------
  // Conservation and draining.

  lemma {:induction false} FromCounts(p: nat, items: seq<Item>, item: Item)
    requires item.publisher == p
    ensures multiset(From(p, items))[item] == multiset(items)[item]
  {
    if items != [] {
      var n := |items| - 1;
      FromCounts(p, items[..n], item);
      assert items == items[..n] + [items[n]];
    }
  }

  lemma {:induction false} SubsequenceCounts(part: seq<Item>, whole: seq<Item>, item: Item)
    requires Subsequence(part, whole)
    ensures multiset(part)[item] <= multiset(whole)[item]
    decreases |whole|
  {
    if part != [] {
      var n, k := |whole| - 1, |part| - 1;
      assert whole == whole[..n] + [whole[n]] && part == part[..k] + [part[k]];
      if part[k] == whole[n] && Subsequence(part[..k], whole[..n]) {
        SubsequenceCounts(part[..k], whole[..n], item);
      } else {
        SubsequenceCounts(part, whole[..n], item);
      }
    }
  }

  lemma {:induction false} IncreasingOnce(items: seq<Item>, item: Item)
    requires Increasing(items)
    ensures multiset(items)[item] <= 1
    ensures multiset(items)[item] == 1 ==> item in items
  {
    if items != [] {
      var n := |items| - 1;
      IncreasingOnce(items[..n], item);
      assert items == items[..n] + [items[n]];
      forall i | 0 <= i < n
        ensures items[..n][i] != items[n]
      {
        assert items[i].number < items[n].number;
      }
    }
  }

  /** At any time every accepted event is in exactly one place, once: buffered, in flight or processed. */
  lemma Conservation(states: seq<System>, moves: seq<Move>, i: nat)
    requires Run(states, moves) && i < |states|
    ensures states[i].feed < |states[i].bus.channels|
    ensures
      var s := states[i];
      var ch := s.bus.channels[s.feed];
      forall item ::
        Times(ch.accepted, item) == Times(ch.buffer, item) + InFlight(s.workers, item) + Times(s.processed, item) <= 1
  {
    PoolAlways(states, moves, i);
    var s := states[i];
    var ch := s.bus.channels[s.feed];
    assert ChannelOk(ch) && LogOk(s.bus, s.feed);
    forall item
      ensures Times(ch.accepted, item) == Times(ch.buffer, item) + InFlight(s.workers, item) + Times(s.processed, item) <= 1
    {
      AcceptedOnce(s.bus, s.feed, item);
      assert multiset(ch.accepted) == multiset(ch.received) + multiset(ch.buffer);
    }
  }

  lemma AcceptedOnce(b: Bus, c: nat, item: Item)
    requires c < |b.channels| && LogOk(b, c)
    ensures Times(b.channels[c].accepted, item) <= 1
  {
    var p, ch := item.publisher, b.channels[c];
    assert BooksOk(b, c, p);
    SubsequenceCounts(ch.accepted, ch.offered, item);
    FromCounts(p, ch.offered, item);
    var due := From(p, ch.due);
    assert due == From(p, ch.offered) + Pending(b, p, c);
    assert multiset(due) == multiset(From(p, ch.offered)) + multiset(Pending(b, p, c));
    IncreasingOnce(due, item);
  }

  /** Work left once the feed is closed: two units a buffered event, two a busy worker, one an idle one. */
  function Load(workers: seq<Worker>): nat {
    if workers == [] then 0 else Load(workers[..|workers| - 1]) + Weight(workers[|workers| - 1])
  }

  function Weight(w: Worker): nat {
    match w
    case Idle => 1
    case Parked => 1
    case Busy(_) => 2
    case Done(_) => 0
  }

  function WorkLeft(s: System): nat
    requires s.feed < |s.bus.channels|
  {
    2 * |s.bus.channels[s.feed].buffer| + Load(s.workers)
  }

  lemma {:induction false} LoadUpdate(workers: seq<Worker>, w: nat, next: Worker)
    requires w < |workers|
    ensures Load(workers[w := next]) + Weight(workers[w]) == Load(workers) + Weight(next)
  {
    var n := |workers| - 1;
    if w == n {
      assert workers[w := next][..n] == workers[..n];
    } else {
      LoadUpdate(workers[..n], w, next);
      assert workers[w := next][..n] == workers[..n][w := next];
    }
  }

  predicate OfWorker(m: Move) {
    m.Take? || m.Finish? || m.Quit?
  }

  ghost predicate FeedClosed(s: System) {
    s.feed < |s.bus.channels| && s.bus.channels[s.feed].closed
  }

  /** After the feed is closed it stays closed, every worker move uses work up, and nothing adds any. */
  lemma ClosedFeedDrains(s: System, m: Move, next: System)
    requires PoolOk(s) && FeedClosed(s) && Possible(s, m) && next == Step(s, m)
    ensures FeedClosed(next)
    ensures WorkLeft(next) + (if OfWorker(m) then 1 else 0) <= WorkLeft(s)
  {
    var ch := s.bus.channels[s.feed];
    match m
    case Outside(a) =>
      OutsideFeedStep(s.bus, a, s.feed);
    case Take(w) =>
      LoadUpdate(s.workers, w, next.workers[w]);
      assert ch.buffer != [] ==> |ch.buffer[1..]| == |ch.buffer| - 1;
    case Finish(w) =>
      LoadUpdate(s.workers, w, Idle);
    case Cancel =>
    case Quit(w) =>
      LoadUpdate(s.workers, w, Done(true));
  }

  /** How many of the moves i, ..., j - 1 are worker moves. */
  function WorkerMoves(moves: seq<Move>, i: nat, j: nat): nat
    requires i <= j <= |moves|
  {
    if i == j then 0 else WorkerMoves(moves, i, j - 1) + if OfWorker(moves[j - 1]) then 1 else 0
  }

  /** From the moment the feed is closed, the workers make no more moves than the work then left. */
  lemma {:induction false} ClosedFeedBoundsMoves(states: seq<System>, moves: seq<Move>, i: nat, j: nat)
    requires Run(states, moves) && i <= j < |states| && FeedClosed(states[i])
    ensures FeedClosed(states[j])
    ensures WorkerMoves(moves, i, j) + WorkLeft(states[j]) <= WorkLeft(states[i])
  {
    hide Run, FeedClosed, WorkLeft, OfWorker;
    RunLength(states, moves);
    if i < j {
      ClosedFeedBoundsMoves(states, moves, i, j - 1);
      MoveDrains(states, moves, j - 1);
    }
  }

  lemma RunLength(states: seq<System>, moves: seq<Move>)
    requires Run(states, moves)
    ensures |states| == |moves| + 1
  {
  }

  lemma MoveDrains(states: seq<System>, moves: seq<Move>, k: nat)
    requires Run(states, moves) && k < |moves| && FeedClosed(states[k])
    ensures FeedClosed(states[k + 1])
    ensures WorkLeft(states[k + 1]) + (if OfWorker(moves[k]) then 1 else 0) <= WorkLeft(states[k])
  {
    PoolAlways(states, moves, k);
    assert Goes(states[k], moves[k], states[k + 1]);
    ClosedFeedDrains(states[k], moves[k], states[k + 1]);
  }

  /** Until every worker has returned, some worker can move; nobody is parked on a closed feed. */
  lemma ClosedFeedProgress(s: System)
    requires PoolOk(s) && FeedClosed(s)
    requires exists w :: 0 <= w < |s.workers| && !s.workers[w].Done?
    ensures exists m :: OfWorker(m) && Possible(s, m)
  {
    var ch := s.bus.channels[s.feed];
    var w: nat :| w < |s.workers| && !s.workers[w].Done?;
    assert ChannelOk(ch) && ch.waiting == {};
    assert s.workers[w].Parked? ==> w in ch.waiting;
    if s.workers[w].Busy? {
      assert Possible(s, Finish(w));
    } else {
      assert Possible(s, Take(w));
    }
  }

  /** When all workers of an uncancelled pool have returned, the feed is closed and every accepted
      event was processed, exactly once. */
  lemma AllReturnedMeansAllProcessed(states: seq<System>, moves: seq<Move>, i: nat)
    requires Run(states, moves) && i < |states|
    requires !states[i].cancelled && |states[i].workers| > 0
    requires forall w :: 0 <= w < |states[i].workers| ==> states[i].workers[w].Done?
    ensures states[i].feed < |states[i].bus.channels|
    ensures
      var ch := states[i].bus.channels[states[i].feed];
      && ch.closed && ch.buffer == []
      && forall item :: Times(states[i].processed, item) == Times(ch.accepted, item) <= 1
  {
    PoolAlways(states, moves, i);
    Conservation(states, moves, i);
    assert states[i].workers[0] == Done(false);
    forall item
      ensures InFlight(states[i].workers, item) == 0
    {
      NothingInFlight(states[i].workers, item);
    }
  }
}
