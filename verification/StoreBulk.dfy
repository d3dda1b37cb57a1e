/** The indicators of internal/intel/ioc.go beside those that internal/event/processor.go stores. */
module StoreBulk {
  import opened Events
  import opened Indicators
  import opened Store
  import opened StoreOrder

  /** The URLs, domains and user agents that extractFromData finds are no addresses. */
  ghost predicate NoAddresses(data: Event -> seq<Sighting>) {
    forall ev, s :: s in data(ev) ==> s.kind != IPv4 && s.kind != IPv6
  }

  /** Extract. */
  function Extract(parse: string -> Option<Address>, data: Event -> seq<Sighting>): Event -> seq<Sighting> {
    (ev: Event) => SourceSightings(ev, parse) + data(ev)
  }

  lemma {:induction false} GroupConcat(xs: seq<Sighting>, ys: seq<Sighting>, id: Id)
    ensures Group(xs + ys, id) == Group(xs, id) + Group(ys, id)
  {
    if ys == [] {
      assert xs + ys == xs;
    } else {
      var n := |ys| - 1;
      assert (xs + ys)[..|xs| + n] == xs + ys[..n];
      GroupConcat(xs, ys[..n], id);
    }
  }

  function IdOfIp(ip: string, parse: string -> Option<Address>): Id
    requires Public(ip, parse)
  {
    Id(AddressKind(ip, parse), ip)
  }

  lemma SourceGroup(ev: Event, parse: string -> Option<Address>, ip: string)
    requires Public(ip, parse)
    ensures |Group(SourceSightings(ev, parse), IdOfIp(ip, parse))| == if ev.sourceIp == ip then 1 else 0
  {
    var found := SourceSightings(ev, parse);
    if found != [] {
      GroupAppend([], found[0], IdOfIp(ip, parse));
      assert [] + [found[0]] == found;
    }
  }

  lemma {:induction false} AddressSightings(
      events: seq<Event>, parse: string -> Option<Address>, data: Event -> seq<Sighting>, ip: string)
    requires Public(ip, parse) && NoAddresses(data)
    ensures |Group(AllSightings(events, Extract(parse, data)), IdOfIp(ip, parse))| == Many(events, FromIp(ip))
  {
    hide SourceSightings, Group;
    if events == [] {
      EmptyGroup([], IdOfIp(ip, parse));
    } else {
      var n := |events| - 1;
      var id, ev := IdOfIp(ip, parse), events[n];
      AddressSightings(events[..n], parse, data, ip);
      GroupConcat(AllSightings(events[..n], Extract(parse, data)), Extract(parse, data)(ev), id);
      GroupConcat(SourceSightings(ev, parse), data(ev), id);
      SourceGroup(ev, parse, ip);
      EmptyGroup(data(ev), id);
    }
  }

  /** What bulk extraction says of a public address: reported if and only if it has events, all of them counted. */
  lemma BulkCounts(
      events: seq<Event>, parse: string -> Option<Address>, data: Event -> seq<Sighting>, result: seq<Ioc>, ip: string)
    requires Public(ip, parse) && NoAddresses(data) && Bulk(AllSightings(events, Extract(parse, data)), result)
    ensures (exists r :: r in result && Subject(r) == IdOfIp(ip, parse)) <==> Many(events, FromIp(ip)) > 0
    ensures forall r :: r in result && Subject(r) == IdOfIp(ip, parse) ==> r.sightCount == Many(events, FromIp(ip))
  {
    hide Group, AllSightings, Earliest, Latest, Surest, Union, Many;
    var id, sightings := IdOfIp(ip, parse), AllSightings(events, Extract(parse, data));
    AddressSightings(events, parse, data, ip);
    forall r | r in result && Subject(r) == id
      ensures r.sightCount == Many(events, FromIp(ip)) > 0
    {
      assert Summary(r, Group(sightings, id));
    }
    if Many(events, FromIp(ip)) > 0 {
      GroupIsReported(sightings, result, id);
    }
  }

  lemma GroupIsReported(sightings: seq<Sighting>, result: seq<Ioc>, id: Id)
    requires Bulk(sightings, result) && Group(sightings, id) != []
    ensures exists r :: r in result && Subject(r) == id
  {
    hide Group, Summary;
    var s := Group(sightings, id)[0];
    GroupOnly(sightings, id);
    assert s in Group(sightings, id);
  }

  /** Bulk extraction and the table report the same address with the same count, or both do not. */
  ghost predicate Agreed(result: seq<Ioc>, iocs: map<Id, Ioc>, id: Id) {
    && (id in iocs <==> exists r :: r in result && Subject(r) == id)
    && (forall r :: r in result && Subject(r) == id ==> id in iocs ==> r.sightCount == iocs[id].sightCount)
  }

  ghost predicate AllAgreed(result: seq<Ioc>, iocs: map<Id, Ioc>, parse: string -> Option<Address>) {
    forall ip :: Public(ip, parse) ==> Agreed(result, iocs, IdOfIp(ip, parse))
  }

  lemma AgreedWhenCounted(
      iocs: map<Id, Ioc>, events: seq<Event>, parse: string -> Option<Address>, data: Event -> seq<Sighting>,
      result: seq<Ioc>, ip: string)
    requires Public(ip, parse) && NoAddresses(data) && Bulk(AllSightings(events, Extract(parse, data)), result)
    requires CountsOf(iocs, events, parse, ip)
    ensures Agreed(result, iocs, IdOfIp(ip, parse))
  {
    hide Bulk, AllSightings, Many;
    BulkCounts(events, parse, data, result, ip);
  }

  /** With every indicator upsert reaching the database, bulk extraction and the stored rows agree on all public
      addresses if and only if nil tags are sent as an empty array or no event comes from one. */
  lemma BulkAgreesExactly(
      run: seq<Statement>, events: seq<Event>, parse: string -> Option<Address>, nil: NilTags,
      data: Event -> seq<Sighting>, result: seq<Ioc>)
    requires StoreOrder.Reported(run, events, parse) && NoAddresses(data)
    requires Bulk(AllSightings(events, Extract(parse, data)), result)
    ensures
      AllAgreed(result, After(run, parse, nil).iocs, parse) <==>
      nil == AsEmpty || forall ev :: ev in events ==> !Public(ev.sourceIp, parse)
  {
    hide After, Many, Bulk, AllSightings, StoreOrder.Reported, CountsOf, Public, NoAddresses;
    var iocs := After(run, parse, nil).iocs;
    IndicatorsCountExactly(run, events, parse, nil);
    if nil == AsEmpty || forall ev :: ev in events ==> !Public(ev.sourceIp, parse) {
      forall ip | Public(ip, parse)
        ensures Agreed(result, iocs, IdOfIp(ip, parse))
      {
        AgreedWhenCounted(iocs, events, parse, data, result, ip);
      }
    } else {
      var ev :| ev in events && Public(ev.sourceIp, parse);
      NoIndicatorIsStored(run, parse);
      SomeFrom(events, ev);
      BulkCounts(events, parse, data, result, ev.sourceIp);
      assert !Agreed(result, iocs, IdOfIp(ev.sourceIp, parse));
    }
  }
}
