/** What the stored rows owe to the order in which the workers' upserts reach the database, and what not. */
module StoreOrder {
  import opened Events
  import opened Indicators
  import opened Store

  // ---------------------------------------------------------------------------
  // Counting events.

  /** How many of the events satisfy a condition. */
  function Many(events: seq<Event>, condition: Event -> bool): nat {
    if events == [] then 0
    else
      var n := |events| - 1;
      Many(events[..n], condition) + if condition(events[n]) then 1 else 0
  }

  function FromIp(ip: string): Event -> bool {
    (ev: Event) => ev.sourceIp == ip
  }

  function ConnectsFrom(ip: string): Event -> bool {
    (ev: Event) => ev.sourceIp == ip && ev.kind == Connect
  }

  lemma {:induction false} ManyConcat(xs: seq<Event>, ys: seq<Event>, condition: Event -> bool)
    ensures Many(xs + ys, condition) == Many(xs, condition) + Many(ys, condition)
  {
    if ys == [] {
      assert xs + ys == xs;
    } else {
      var n := |ys| - 1;
      assert (xs + ys)[..|xs| + n] == xs + ys[..n];
      ManyConcat(xs, ys[..n], condition);
    }
  }

  lemma ManyOne(ev: Event, condition: Event -> bool)
    ensures Many([ev], condition) == if condition(ev) then 1 else 0
  {
    assert [ev][..0] == [];
  }

  lemma ManyWithout(events: seq<Event>, k: nat, condition: Event -> bool)
    requires k < |events|
    ensures
      Many(events, condition) == Many(events[..k] + events[k + 1..], condition) + if condition(events[k]) then 1 else 0
  {
    hide Many;
    var front, back := events[..k], events[k + 1..];
    assert events == front + [events[k]] + back;
    ManyConcat(front + [events[k]], back, condition);
    ManyConcat(front, [events[k]], condition);
    ManyOne(events[k], condition);
    ManyConcat(front, back, condition);
  }

  /** A count does not depend on the order. */
  lemma {:induction false} ManyPermutes(xs: seq<Event>, ys: seq<Event>, condition: Event -> bool)
    requires multiset(xs) == multiset(ys)
    ensures Many(xs, condition) == Many(ys, condition)
  {
    if xs == [] {
      assert |ys| == |multiset(ys)|;
    } else {
      var k := Matching(xs, ys);
      ManyPermutes(xs[..|xs| - 1], ys[..k] + ys[k + 1..], condition);
      ManyWithout(ys, k, condition);
    }
  }

  lemma {:induction false} OnlyCounts(events: seq<Event>, ip: string)
    ensures |Only(events, ip)| == Many(events, FromIp(ip))
    ensures Connects(Only(events, ip)) == Many(events, ConnectsFrom(ip))
    ensures forall ev :: ev in Only(events, ip) <==> ev in events && ev.sourceIp == ip
  {
    if events != [] {
      var n := |events| - 1;
      OnlyCounts(events[..n], ip);
      assert events == events[..n] + [events[n]];
      OnlyAppend(events[..n], events[n], ip);
      ConnectsAppend(Only(events[..n], ip), events[n]);
    }
  }

  /** The events of an address, and its connects, by position. */
  function PositionsOf(events: seq<Event>, ip: string): set<int> {
    set k | 0 <= k < |events| && events[k].sourceIp == ip
  }

  function ConnectPositions(events: seq<Event>, ip: string): set<int> {
    set k | 0 <= k < |events| && events[k].sourceIp == ip && events[k].kind.Connect?
  }

  lemma PositionsGrow(events: seq<Event>, ip: string)
    requires events != []
    ensures
      var n := |events| - 1;
      && n !in PositionsOf(events[..n], ip) && n !in ConnectPositions(events[..n], ip)
      && PositionsOf(events, ip) == PositionsOf(events[..n], ip) + (if events[n].sourceIp == ip then {n} else {})
      && ConnectPositions(events, ip) ==
         ConnectPositions(events[..n], ip) + (if events[n].sourceIp == ip && events[n].kind.Connect? then {n} else {})
  {
  }

  lemma {:induction false} ManyArePositions(events: seq<Event>, ip: string)
    ensures Many(events, FromIp(ip)) == |PositionsOf(events, ip)|
    ensures Many(events, ConnectsFrom(ip)) == |ConnectPositions(events, ip)|
  {
    hide PositionsOf, ConnectPositions;
    if events == [] {
      NoPositions(ip);
    } else {
      ManyArePositions(events[..|events| - 1], ip);
      PositionsGrow(events, ip);
    }
  }

  lemma NoPositions(ip: string)
    ensures PositionsOf([], ip) == {} && ConnectPositions([], ip) == {}
  {
  }

  // ---------------------------------------------------------------------------
  // Attackers.

  /** The attacker upserts of exactly these events reached the database, in whatever order; nothing is said
      of the other calls. */
  ghost predicate Counted(run: seq<Statement>, events: seq<Event>) {
    multiset(Upserts(run)) == multiset(events)
  }

  /** Whatever order the workers' upserts reach the database in, an address has its number of processed
      events and of connects. */
  lemma AttackersInAnyOrder(
      run: seq<Statement>, events: seq<Event>, parse: string -> Option<Address>, nil: NilTags, ip: string)
    requires Counted(run, events)
    ensures
      var attackers := After(run, parse, nil).attackers;
      && (ip in attackers <==> Many(events, FromIp(ip)) > 0)
      && (ip in attackers ==>
          && attackers[ip].totalEvents == Many(events, FromIp(ip)) == |PositionsOf(events, ip)|
          && attackers[ip].totalSessions == Many(events, ConnectsFrom(ip)) == |ConnectPositions(events, ip)|)
  {
    hide After, Only, Connects, Many, Upserts, PositionsOf, ConnectPositions;
    ManyArePositions(events, ip);
    AttackerRow(run, parse, nil, ip);
    OnlyCounts(Upserts(run), ip);
    ManyPermutes(Upserts(run), events, FromIp(ip));
    ManyPermutes(Upserts(run), events, ConnectsFrom(ip));
  }

  // ---------------------------------------------------------------------------
  // Indicators.

  /** The events that call for an indicator. */
  function PublicOf(events: seq<Event>, parse: string -> Option<Address>): seq<Event> {
    if events == [] then []
    else
      var n := |events| - 1;
      PublicOf(events[..n], parse) + if Public(events[n].sourceIp, parse) then [events[n]] else []
  }

  lemma {:induction false} PublicOfCounts(events: seq<Event>, parse: string -> Option<Address>, ip: string)
    requires Public(ip, parse)
    ensures Many(PublicOf(events, parse), FromIp(ip)) == Many(events, FromIp(ip))
  {
    hide Public, Many;
    if events != [] {
      var n := |events| - 1;
      var before := PublicOf(events[..n], parse);
      PublicOfCounts(events[..n], parse, ip);
      assert events == events[..n] + [events[n]];
      ManyConcat(events[..n], [events[n]], FromIp(ip));
      ManyOne(events[n], FromIp(ip));
      if Public(events[n].sourceIp, parse) {
        ManyConcat(before, [events[n]], FromIp(ip));
      } else {
        assert PublicOf(events, parse) == before;
      }
    }
  }

  /** The indicator upserts of exactly these events reached the database. */
  ghost predicate Reported(run: seq<Statement>, events: seq<Event>, parse: string -> Option<Address>) {
    multiset(Indications(run)) == multiset(PublicOf(events, parse))
  }

  /** The stored indicator of a public address counts its events. */
  ghost predicate CountsOf(iocs: map<Id, Ioc>, events: seq<Event>, parse: string -> Option<Address>, ip: string)
    requires Public(ip, parse)
  {
    var id := Id(AddressKind(ip, parse), ip);
    && (id in iocs <==> Many(events, FromIp(ip)) > 0)
    && (id in iocs ==> iocs[id].sightCount == Many(events, FromIp(ip)) && iocs[id].confidence == 50)
  }

  ghost predicate IndicatorsCount(
      run: seq<Statement>, events: seq<Event>, parse: string -> Option<Address>, nil: NilTags)
  {
    forall ip :: Public(ip, parse) ==> CountsOf(After(run, parse, nil).iocs, events, parse, ip)
  }

  lemma GuardedIndicators(run: seq<Statement>, events: seq<Event>, parse: string -> Option<Address>, ip: string)
    requires Reported(run, events, parse) && Public(ip, parse)
    ensures CountsOf(After(run, parse, AsEmpty).iocs, events, parse, ip)
  {
    hide After, Only, Many, Indications, PublicOf, Public;
    GuardedIocRow(run, parse, ip);
    OnlyCounts(Indications(run), ip);
    PublicOfCounts(events, parse, ip);
    ManyPermutes(Indications(run), PublicOf(events, parse), FromIp(ip));
  }

  lemma {:induction false} SomeFrom(events: seq<Event>, ev: Event)
    requires ev in events
    ensures Many(events, FromIp(ev.sourceIp)) > 0
  {
    var n := |events| - 1;
    assert events == events[..n] + [events[n]];
    if events[n] != ev {
      SomeFrom(events[..n], ev);
    }
  }

  /** The indicators count the processed events, in whatever order the upserts arrive, if and only if nil tags
      are sent as an empty array or no event comes from a public address. As UpsertIOC is written, the first
      does not hold. */
  lemma IndicatorsCountExactly(
      run: seq<Statement>, events: seq<Event>, parse: string -> Option<Address>, nil: NilTags)
    requires Reported(run, events, parse)
    ensures
      IndicatorsCount(run, events, parse, nil) <==>
      nil == AsEmpty || forall ev :: ev in events ==> !Public(ev.sourceIp, parse)
  {
    hide After, Many, Public, PublicOf, Indications;
    if nil == AsEmpty {
      forall ip | Public(ip, parse)
        ensures CountsOf(After(run, parse, nil).iocs, events, parse, ip)
      {
        GuardedIndicators(run, events, parse, ip);
      }
    } else {
      NoIndicatorIsStored(run, parse);
      if ev :| ev in events && Public(ev.sourceIp, parse) {
        SomeFrom(events, ev);
        assert !CountsOf(After(run, parse, nil).iocs, events, parse, ev.sourceIp);
      } else {
        forall ip | Public(ip, parse)
          ensures CountsOf(After(run, parse, nil).iocs, events, parse, ip)
        {
          NoneFrom(events, ip);
        }
      }
    }
  }

  lemma {:induction false} NoneFrom(events: seq<Event>, ip: string)
    requires forall ev :: ev in events ==> ev.sourceIp != ip
    ensures Many(events, FromIp(ip)) == 0
  {
    if events != [] {
      NoneFrom(events[..|events| - 1], ip);
    }
  }

  /** One event from a public address: the attacker is stored, the indicator is not. */
  lemma IndicatorIsLost(ev: Event, parse: string -> Option<Address>)
    requires Public(ev.sourceIp, parse)
    ensures
      var run := Statements(ev, parse);
      && run == [Attack(ev), Indicate(ev)]
      && ev.sourceIp in After(run, parse, IOC_TAGS).attackers && After(run, parse, IOC_TAGS).iocs == map[]
      && Id(AddressKind(ev.sourceIp, parse), ev.sourceIp) in After(run, parse, AsEmpty).iocs
  {
    hide Public;
    var run := Statements(ev, parse);
    AfterOne([], Attack(ev), parse, IOC_TAGS);
    AfterOne([], Attack(ev), parse, AsEmpty);
    assert [] + [Attack(ev)] == [Attack(ev)] && run == [Attack(ev)] + [Indicate(ev)];
    AfterOne([Attack(ev)], Indicate(ev), parse, IOC_TAGS);
    AfterOne([Attack(ev)], Indicate(ev), parse, AsEmpty);
  }

  // ---------------------------------------------------------------------------
  // Runs that the workers can make.

  /** Each worker upserts the attacker of an event before its indicator. */
  ghost predicate WorkerOrder(run: seq<Statement>) {
    forall n, ev :: 0 <= n <= |run| ==> InTurn(run[..n], ev)
  }

  ghost predicate InTurn(done: seq<Statement>, ev: Event) {
    multiset(done)[Indicate(ev)] <= multiset(done)[Attack(ev)]
  }

  /** What one worker sends for these events, one after the other. */
  function AllStatements(events: seq<Event>, parse: string -> Option<Address>): seq<Statement> {
    if events == [] then []
    else AllStatements(events[..|events| - 1], parse) + Statements(events[|events| - 1], parse)
  }

  /** Every upsert of these events reached the database, from any number of workers. */
  ghost predicate Persists(run: seq<Statement>, events: seq<Event>, parse: string -> Option<Address>) {
    multiset(run) == multiset(AllStatements(events, parse)) && WorkerOrder(run)
  }

  lemma TurnGrows(run: seq<Statement>, s: Statement)
    requires WorkerOrder(run)
    requires s.Indicate? ==> multiset(run)[s] < multiset(run)[Attack(s.ev)]
    ensures WorkerOrder(run + [s])
  {
    var more := run + [s];
    forall n, ev | 0 <= n <= |more|
      ensures InTurn(more[..n], ev)
    {
      if n <= |run| {
        assert more[..n] == run[..n];
      } else {
        assert more[..n] == more && InTurn(run[..|run|], ev);
        assert run[..|run|] == run;
      }
    }
  }

  /** One event more keeps a worker in order. */
  lemma EventInTurn(run: seq<Statement>, ev: Event, parse: string -> Option<Address>)
    requires WorkerOrder(run)
    ensures WorkerOrder(run + Statements(ev, parse)) && Upserts(run + Statements(ev, parse)) == Upserts(run) + [ev]
  {
    hide WorkerOrder, Upserts, Indications, Public;
    UpsertsAppend(run, Attack(ev));
    AttackFirst(run, ev);
    if Public(ev.sourceIp, parse) {
      UpsertsAppend(run + [Attack(ev)], Indicate(ev));
      TurnGrows(run + [Attack(ev)], Indicate(ev));
      assert run + Statements(ev, parse) == run + [Attack(ev)] + [Indicate(ev)];
    } else {
      assert run + Statements(ev, parse) == run + [Attack(ev)];
    }
  }

  lemma AttackFirst(run: seq<Statement>, ev: Event)
    requires WorkerOrder(run)
    ensures
      var more := run + [Attack(ev)];
      WorkerOrder(more) && multiset(more)[Indicate(ev)] < multiset(more)[Attack(ev)]
  {
    assert InTurn(run[..|run|], ev) && run[..|run|] == run;
    TurnGrows(run, Attack(ev));
  }

  lemma {:induction false} OneWorkerInOrder(events: seq<Event>, parse: string -> Option<Address>)
    ensures WorkerOrder(AllStatements(events, parse))
    ensures Upserts(AllStatements(events, parse)) == events
  {
    hide WorkerOrder, Upserts, Statements;
    if events == [] {
      NothingInOrder();
    } else {
      var n := |events| - 1;
      OneWorkerInOrder(events[..n], parse);
      EventInTurn(AllStatements(events[..n], parse), events[n], parse);
      assert events == events[..n] + [events[n]];
    }
  }

  lemma NothingInOrder()
    ensures WorkerOrder([]) && Upserts([]) == []
  {
  }

  lemma UpsertsAppend(run: seq<Statement>, s: Statement)
    ensures Upserts(run + [s]) == if s.Attack? then Upserts(run) + [s.ev] else Upserts(run)
    ensures Indications(run + [s]) == if s.Indicate? then Indications(run) + [s.ev] else Indications(run)
  {
    assert (run + [s])[..|run|] == run;
  }

  lemma {:induction false} UpsertsOf(run: seq<Statement>, ev: Event)
    ensures multiset(Upserts(run))[ev] == multiset(run)[Attack(ev)]
    ensures multiset(Indications(run))[ev] == multiset(run)[Indicate(ev)]
  {
    hide Upserts, Indications;
    if run == [] {
      NothingSent();
    } else {
      var n := |run| - 1;
      UpsertsOf(run[..n], ev);
      UpsertsAppend(run[..n], run[n]);
      assert run == run[..n] + [run[n]];
    }
  }

  lemma NothingSent()
    ensures Upserts([]) == [] && Indications([]) == []
  {
  }

  lemma {:induction false} StatementsOf(events: seq<Event>, parse: string -> Option<Address>, ev: Event)
    ensures multiset(AllStatements(events, parse))[Attack(ev)] == multiset(events)[ev]
    ensures multiset(AllStatements(events, parse))[Indicate(ev)] == multiset(PublicOf(events, parse))[ev]
    ensures multiset(PublicOf(events, parse))[ev] == if Public(ev.sourceIp, parse) then multiset(events)[ev] else 0
  {
    hide Public, Statements;
    if events != [] {
      var n := |events| - 1;
      StatementsOf(events[..n], parse, ev);
      TwoStatements(events[n], parse, ev);
      assert events == events[..n] + [events[n]];
    }
  }

  lemma TwoStatements(sent: Event, parse: string -> Option<Address>, ev: Event)
    ensures multiset(Statements(sent, parse))[Attack(ev)] == if sent == ev then 1 else 0
    ensures
      multiset(Statements(sent, parse))[Indicate(ev)] == if sent == ev && Public(ev.sourceIp, parse) then 1 else 0
  {
    hide Public;
    assert multiset([Attack(sent)] + [Indicate(sent)]) == multiset{Attack(sent)} + multiset{Indicate(sent)};
  }

  /** Such runs satisfy both hypotheses above. */
  lemma PersistsIsComplete(run: seq<Statement>, events: seq<Event>, parse: string -> Option<Address>)
    requires Persists(run, events, parse)
    ensures Counted(run, events) && Reported(run, events, parse)
  {
    hide WorkerOrder, Upserts, Indications, PublicOf, AllStatements;
    forall ev
      ensures multiset(Upserts(run))[ev] == multiset(events)[ev]
      ensures multiset(Indications(run))[ev] == multiset(PublicOf(events, parse))[ev]
    {
      UpsertsOf(run, ev);
      StatementsOf(events, parse, ev);
    }
  }

  /** One worker that takes the same events in another order persists them too. */
  lemma ReorderedPersists(order: seq<Event>, events: seq<Event>, parse: string -> Option<Address>)
    requires multiset(order) == multiset(events)
    ensures Persists(AllStatements(order, parse), events, parse)
  {
    hide WorkerOrder, AllStatements, PublicOf;
    OneWorkerInOrder(order, parse);
    forall s
      ensures multiset(AllStatements(order, parse))[s] == multiset(AllStatements(events, parse))[s]
    {
      StatementsOf(order, parse, s.ev);
      StatementsOf(events, parse, s.ev);
    }
  }

  // ---------------------------------------------------------------------------
  // The two times of a row do depend on the order.

  /** first_seen and last_seen of the rows enclose the events of an address. */
  ghost predicate Encloses(db: Db, events: seq<Event>, ip: string) {
    forall ev :: ev in events && ev.sourceIp == ip ==> EnclosedIn(db, ev)
  }

  predicate EnclosedIn(db: Db, ev: Event) {
    ev.sourceIp in db.attackers
    && db.attackers[ev.sourceIp].firstSeen <= ev.timestamp <= db.attackers[ev.sourceIp].lastSeen
  }

  ghost predicate LastSeenIsLatest(db: Db, events: seq<Event>, ip: string) {
    forall ev :: ev in events && ev.sourceIp == ip ==> SeenBy(db, ev)
  }

  predicate SeenBy(db: Db, ev: Event) {
    ev.sourceIp in db.attackers && ev.timestamp <= db.attackers[ev.sourceIp].lastSeen
  }

  /** All events of an address carry one timestamp. */
  ghost predicate Simultaneous(events: seq<Event>, ip: string) {
    forall a, b :: a in events && b in events && a.sourceIp == ip && b.sourceIp == ip ==> a.timestamp == b.timestamp
  }

  /** The upserts of an address are those of its events. */
  lemma UpsertsAreEvents(run: seq<Statement>, events: seq<Event>, ip: string)
    requires Counted(run, events)
    ensures forall ev :: ev in Only(Upserts(run), ip) <==> ev in events && ev.sourceIp == ip
  {
    hide Upserts, Only;
    OnlyCounts(Upserts(run), ip);
    forall ev
      ensures ev in Upserts(run) <==> ev in events
    {
      assert ev in Upserts(run) <==> ev in multiset(Upserts(run));
      assert ev in events <==> ev in multiset(events);
    }
  }

  lemma SimultaneousIsLatest(
      run: seq<Statement>, events: seq<Event>, parse: string -> Option<Address>, nil: NilTags, ip: string)
    requires Counted(run, events) && Simultaneous(events, ip)
    ensures LastSeenIsLatest(After(run, parse, nil), events, ip)
  {
    hide After, Counted, Upserts, Only;
    AttackerRow(run, parse, nil, ip);
    UpsertsAreEvents(run, events, ip);
    var upserts := Only(Upserts(run), ip);
    forall ev | ev in events && ev.sourceIp == ip
      ensures SeenBy(After(run, parse, nil), ev)
    {
      assert ev in upserts;
      assert upserts[|upserts| - 1] in upserts;
    }
  }

  /** One worker may take any event last. */
  lemma TakenLast(events: seq<Event>, parse: string -> Option<Address>, nil: NilTags, a: Event)
    returns (run: seq<Statement>)
    requires a in events
    ensures Persists(run, events, parse)
    ensures
      var attackers := After(run, parse, nil).attackers;
      a.sourceIp in attackers && attackers[a.sourceIp].lastSeen == a.timestamp
  {
    hide After, Persists, Upserts, Only, AllStatements, WorkerOrder;
    var k :| 0 <= k < |events| && events[k] == a;
    var rest := events[..k] + events[k + 1..];
    Without(events, k);
    ReorderedPersists(rest + [a], events, parse);
    OneWorkerInOrder(rest + [a], parse);
    run := AllStatements(rest + [a], parse);
    AttackerRow(run, parse, nil, a.sourceIp);
    OnlyAppend(rest, a, a.sourceIp);
  }

  /** `last_seen` covers all events of an address, in whatever order the workers take and store them, if and
      only if those events carry one timestamp: of two different ones a single worker can store the later
      one first. */
  lemma LastSeenIsLatestExactly(events: seq<Event>, parse: string -> Option<Address>, nil: NilTags, ip: string)
    ensures
      (forall run :: Persists(run, events, parse) ==> LastSeenIsLatest(After(run, parse, nil), events, ip))
      <==> Simultaneous(events, ip)
  {
    hide After, Persists, Counted;
    if Simultaneous(events, ip) {
      forall run | Persists(run, events, parse)
        ensures LastSeenIsLatest(After(run, parse, nil), events, ip)
      {
        PersistsIsComplete(run, events, parse);
        SimultaneousIsLatest(run, events, parse, nil, ip);
      }
    } else {
      var a, b :| a in events && b in events && a.sourceIp == ip && b.sourceIp == ip && a.timestamp < b.timestamp;
      var run := TakenLast(events, parse, nil, a);
      assert !SeenBy(After(run, parse, nil), b);
      assert !LastSeenIsLatest(After(run, parse, nil), events, ip);
    }
  }

  /** The attacker upserts of an address are executed in timestamp order. */
  ghost predicate StoredInOrder(run: seq<Statement>, ip: string) {
    forall i, j :: 0 <= i < j < |run| && OfIp(run[i], ip) && OfIp(run[j], ip) ==>
      run[i].ev.timestamp <= run[j].ev.timestamp
  }

  predicate OfIp(s: Statement, ip: string) {
    s.Attack? && s.ev.sourceIp == ip
  }

  lemma UpsertIsStored(run: seq<Statement>, ip: string, ev: Event) returns (k: nat)
    requires ev in Only(Upserts(run), ip)
    ensures k < |run| && run[k] == Attack(ev) && OfIp(run[k], ip)
  {
    hide Upserts, Only;
    OnlyCounts(Upserts(run), ip);
    UpsertsOf(run, ev);
    assert ev in multiset(Upserts(run));
    assert Attack(ev) in multiset(run);
    k :| 0 <= k < |run| && run[k] == Attack(ev);
  }

  lemma {:induction false} UpsertsInOrder(run: seq<Statement>, ip: string)
    requires StoredInOrder(run, ip)
    ensures
      var upserts := Only(Upserts(run), ip);
      forall i, j :: 0 <= i <= j < |upserts| ==> upserts[i].timestamp <= upserts[j].timestamp
  {
    hide Upserts, Indications, Only;
    if run == [] {
      NothingSent();
      OnlyNone(ip);
    } else {
      var n := |run| - 1;
      UpsertsInOrder(run[..n], ip);
      var before := Only(Upserts(run[..n]), ip);
      assert run == run[..n] + [run[n]];
      UpsertsAppend(run[..n], run[n]);
      if OfIp(run[n], ip) {
        OnlyAppend(Upserts(run[..n]), run[n].ev, ip);
        forall i | 0 <= i < |before|
          ensures before[i].timestamp <= run[n].ev.timestamp
        {
          var k := UpsertIsStored(run[..n], ip, before[i]);
          assert run[k] == Attack(before[i]);
        }
      } else if run[n].Attack? {
        OnlyAppend(Upserts(run[..n]), run[n].ev, ip);
      }
    }
  }

  /** If the upserts of an address are executed in timestamp order, its row encloses all its events. */
  lemma InOrderEncloses(
      run: seq<Statement>, events: seq<Event>, parse: string -> Option<Address>, nil: NilTags, ip: string)
    requires Counted(run, events) && StoredInOrder(run, ip)
    ensures Encloses(After(run, parse, nil), events, ip)
  {
    hide After, Counted, Upserts, Only, StoredInOrder;
    AttackerRow(run, parse, nil, ip);
    UpsertsAreEvents(run, events, ip);
    UpsertsInOrder(run, ip);
    var upserts := Only(Upserts(run), ip);
    forall ev | ev in events && ev.sourceIp == ip
      ensures EnclosedIn(After(run, parse, nil), ev)
    {
      assert ev in upserts;
      var k :| 0 <= k < |upserts| && upserts[k] == ev;
    }
  }

  /** Two events of one address, taken in either order: the same counts, another last_seen. */
  lemma LastSeenFollowsOrder(a: Event, b: Event, parse: string -> Option<Address>, nil: NilTags)
    requires a.sourceIp == b.sourceIp && a.timestamp != b.timestamp
    ensures
      var ip := a.sourceIp;
      var one, two := After(AllStatements([a, b], parse), parse, nil), After(AllStatements([b, a], parse), parse, nil);
      && ip in one.attackers && ip in two.attackers
      && one.attackers[ip].totalEvents == two.attackers[ip].totalEvents == 2
      && one.attackers[ip].lastSeen == b.timestamp != a.timestamp == two.attackers[ip].lastSeen
  {
    hide After, AllStatements, WorkerOrder;
    TwoEvents(a, b, parse, nil);
    TwoEvents(b, a, parse, nil);
  }

  lemma TwoEvents(a: Event, b: Event, parse: string -> Option<Address>, nil: NilTags)
    requires a.sourceIp == b.sourceIp
    ensures
      var attackers := After(AllStatements([a, b], parse), parse, nil).attackers;
      && a.sourceIp in attackers && attackers[a.sourceIp].totalEvents == 2
      && attackers[a.sourceIp].lastSeen == b.timestamp
  {
    hide After, AllStatements, WorkerOrder, Upserts, Only;
    OneWorkerInOrder([a, b], parse);
    AttackerRow(AllStatements([a, b], parse), parse, nil, a.sourceIp);
    OnlyNone(a.sourceIp);
    OnlyAppend([], a, a.sourceIp);
    OnlyAppend([a], b, a.sourceIp);
    assert [] + [a] == [a] && [a] + [b] == [a, b];
  }
}
