/** What the sliding-window rules mean over the full event history, and the per-IP record that the
    detector of internal/mitre/detector.go keeps instead of that history. */
module DetectorHistory {
  import opened Events

  const BRUTE_FORCE_THRESHOLD: nat := 5
  const BRUTE_FORCE_WINDOW: int := 5 * MINUTE
  const SCAN_THRESHOLD: nat := 3
  const SCAN_WINDOW: int := 60 * SECOND

  predicate IsAuth(ev: Event) {
    ev.kind.LoginSuccess? || ev.kind.LoginFailed?
  }

  // ---------------------------------------------------------------------------
  // The rules, stated on the full history.

  predicate IsAuthOf(ev: Event, ip: string) {
    IsAuth(ev) && ev.sourceIp == ip
  }

  predicate IsConnectOf(ev: Event, ip: string, svc: Service) {
    ev.kind.Connect? && ev.sourceIp == ip && ev.service == svc
  }

  /** Attempt i is inside the window that each attempt from i on looks back over. */
  ghost predicate AuthAlive(h: seq<Event>, ip: string, i: int) {
    && 0 <= i < |h| && IsAuthOf(h[i], ip)
    && forall j :: i <= j < |h| && IsAuthOf(h[j], ip) ==> h[i].timestamp > h[j].timestamp - BRUTE_FORCE_WINDOW
  }

  ghost function AliveAuths(h: seq<Event>, ip: string): set<int> {
    set i | 0 <= i < |h| && AuthAlive(h, ip, i)
  }

  ghost predicate BruteForce(h: seq<Event>) {
    h != [] && IsAuth(Last(h)) && |AliveAuths(h, Last(h).sourceIp)| >= BRUTE_FORCE_THRESHOLD
  }

  /** Event i is the last connect of ip to svc, and no event of ip from i on came too late for it. */
  ghost predicate HoldsService(h: seq<Event>, ip: string, svc: Service, i: int) {
    && 0 <= i < |h| && IsConnectOf(h[i], ip, svc)
    && (forall j :: i < j < |h| ==> !IsConnectOf(h[j], ip, svc))
    && (forall j :: i <= j < |h| && h[j].sourceIp == ip ==> h[j].timestamp - h[i].timestamp <= SCAN_WINDOW)
  }

  ghost predicate ServiceLive(h: seq<Event>, ip: string, svc: Service) {
    exists i :: HoldsService(h, ip, svc, i)
  }

  ghost function LiveServices(h: seq<Event>, ip: string): set<Service> {
    set svc: Service | ServiceLive(h, ip, svc)
  }

  ghost predicate Scanning(h: seq<Event>) {
    h != [] && |LiveServices(h, Last(h).sourceIp)| >= SCAN_THRESHOLD
  }

  ghost function WindowTechniques(h: seq<Event>): seq<string> {
    (if BruteForce(h) then ["T1110"] else []) + (if Scanning(h) then ["T1046"] else [])
  }

  /** The techniques reported for the newest event of a history. */
  ghost function TechniquesOf(h: seq<Event>): seq<string>
    requires h != []
  {
    Dedup(EventTechniques(Last(h)) + WindowTechniques(h))
  }

  function Last<T>(s: seq<T>): T
    requires s != []
  {
    s[|s| - 1]
  }

  function Front<T>(s: seq<T>): seq<T>
    requires s != []
  {
    s[..|s| - 1]
  }

  function EventTechniques(ev: Event): seq<string> {
    match ev.kind
    case LoginSuccess => if ev.service == SSH then ["T1078", "T1021.004"] else ["T1078"]
    case Command => CommandTechniques(ev.command)
    case Exploit => ["T1190"]
    case Scan => ["T1595"]
    case FileUpload => ["T1105"]
    case Connect => if ev.service == SSH then ["T1133"] else []
    case _ => []
  }

  function CommandTechniques(command: Option<Verdicts>): seq<string> {
    match command
    case None => []
    case Some(v) =>
      var base := AddIf(["T1059.004"], v.discovery, "T1082");
      var files := AddIf(base, v.fileDiscovery, "T1083");
      var network := AddIf(files, v.networkDiscovery, "T1016");
      var processes := AddIf(network, v.processDiscovery, "T1057");
      var transfer := AddIf(processes, v.toolTransfer, "T1105");
      AddIf(AddIf(transfer, v.cronManipulation, "T1053.003"), v.cryptoMining, "T1496")
  }

  function AddIf(matches: seq<string>, hit: bool, id: string): seq<string> {
    if hit then matches + [id] else matches
  }

  /** Keep the first occurrence of each string. */
  function Dedup(input: seq<string>): seq<string> {
    if input == [] then []
    else
      var front := Dedup(Front(input));
      if Last(input) in Front(input) then front else front + [Last(input)]
  }

  lemma {:induction false} DedupKeepsFirsts(input: seq<string>)
    ensures forall s :: s in Dedup(input) <==> s in input
    ensures forall a, b :: 0 <= a < b < |Dedup(input)| ==> Dedup(input)[a] != Dedup(input)[b]
  {
    if input != [] {
      DedupKeepsFirsts(Front(input));
      assert input == Front(input) + [Last(input)];
    }
  }

  // ---------------------------------------------------------------------------
  // The per-IP record.

  datatype Entry = Entry(authHits: seq<Time>, services: map<Service, Time>)

  const EMPTY := Entry([], map[])

  function Prune(times: seq<Time>, now: Time, window: int): seq<Time> {
    if times == [] then []
    else
      Prune(Front(times), now, window) + if Last(times) > now - window then [Last(times)] else []
  }

  function Expire(services: map<Service, Time>, now: Time): map<Service, Time> {
    map svc | svc in services && Sub(now, services[svc]) <= SCAN_WINDOW :: services[svc]
  }

  /** The expiry loop half-way: the services still to visit are kept whatever their age. */
  ghost function ExpireExcept(services: map<Service, Time>, now: Time, todo: set<Service>): map<Service, Time> {
    map svc | svc in services && (svc in todo || Sub(now, services[svc]) <= SCAN_WINDOW) :: services[svc]
  }

  lemma ExpireKeeps(services: map<Service, Time>, now: Time, todo: set<Service>, svc: Service)
    requires svc in todo && todo <= services.Keys && Sub(now, services[svc]) <= SCAN_WINDOW
    ensures ExpireExcept(services, now, todo - {svc}) == ExpireExcept(services, now, todo)
    ensures |ExpireExcept(services, now, todo).Keys - (todo - {svc})| == |ExpireExcept(services, now, todo).Keys - todo| + 1
  {
    var keys := ExpireExcept(services, now, todo).Keys;
    assert svc in keys;
    assert keys - (todo - {svc}) == (keys - todo) + {svc};
  }

  lemma ExpireDrops(services: map<Service, Time>, now: Time, todo: set<Service>, svc: Service)
    requires svc in todo && todo <= services.Keys && Sub(now, services[svc]) > SCAN_WINDOW
    ensures ExpireExcept(services, now, todo - {svc}) == ExpireExcept(services, now, todo) - {svc}
    ensures ExpireExcept(services, now, todo - {svc}).Keys - (todo - {svc}) == ExpireExcept(services, now, todo).Keys - todo
  {
    var before, after := ExpireExcept(services, now, todo), ExpireExcept(services, now, todo - {svc});
    assert forall v :: v in after.Keys - (todo - {svc}) <==> v in before.Keys - todo;
  }

  function EntryStep(e: Entry, ev: Event): Entry {
    Entry(
      if IsAuth(ev) then Prune(e.authHits + [ev.timestamp], ev.timestamp, BRUTE_FORCE_WINDOW) else e.authHits,
      Expire(if ev.kind.Connect? then e.services[ev.service := ev.timestamp] else e.services, ev.timestamp))
  }

  /** What the record alone answers for the newest event. */
  function RecordTechniques(e: Entry, ev: Event): seq<string> {
    (if IsAuth(ev) && |e.authHits| >= BRUTE_FORCE_THRESHOLD then ["T1110"] else [])
    + (if |e.services| >= SCAN_THRESHOLD then ["T1046"] else [])
  }

  /** The record of one address after a history that interleaves all addresses. */
  ghost function EntryAfter(h: seq<Event>, ip: string): Entry {
    if h == [] then EMPTY
    else
      var e := EntryAfter(Front(h), ip);
      if Last(h).sourceIp == ip then EntryStep(e, Last(h)) else e
  }

  /** A table that holds, for exactly the addresses whose record is not empty, that record. */
  ghost predicate Describes(table: map<string, Entry>, h: seq<Event>) {
    forall ip :: Lookup(table, ip) == EntryAfter(h, ip) && (ip in table ==> table[ip] != EMPTY)
  }

  function Lookup(table: map<string, Entry>, ip: string): Entry {
    if ip in table then table[ip] else EMPTY
  }

  function TableStep(table: map<string, Entry>, ev: Event): map<string, Entry> {
    var e := EntryStep(Lookup(table, ev.sourceIp), ev);
    if e == EMPTY then table - {ev.sourceIp} else table[ev.sourceIp := e]
  }

  lemma TableStepInParts(table: map<string, Entry>, table': map<string, Entry>, ev: Event)
    requires
      var ip := ev.sourceIp;
      var present := table[ip := Lookup(table, ip)];
      var changed := present[ip := EntryStep(present[ip], ev)];
      table' == if changed[ip] == EMPTY then changed - {ip} else changed
    ensures table' == TableStep(table, ev)
  {
  }

  /** Dropping an empty record is invisible, and so is everything other addresses do. */
  lemma TableKeepsDescribing(table: map<string, Entry>, h: seq<Event>, ev: Event)
    requires Describes(table, h)
    ensures Describes(TableStep(table, ev), h + [ev])
  {
    var next := TableStep(table, ev);
    OtherRecordsStay(h, ev);
    forall ip
      ensures Lookup(next, ip) == EntryAfter(h + [ev], ip) && (ip in next ==> next[ip] != EMPTY)
    {
      assert Lookup(table, ip) == EntryAfter(h, ip);
      if ip != ev.sourceIp {
        assert ip in next <==> ip in table;
      }
    }
  }

  lemma OtherRecordsStay(h: seq<Event>, ev: Event)
    ensures Front(h + [ev]) == h
    ensures forall ip :: ip != ev.sourceIp ==> EntryAfter(h + [ev], ip) == EntryAfter(h, ip)
    ensures EntryAfter(h + [ev], ev.sourceIp) == EntryStep(EntryAfter(h, ev.sourceIp), ev)
  {
    assert Front(h + [ev]) == h;
  }

  // ---------------------------------------------------------------------------
  // The record answers both window rules exactly as the full history does.

  /** Indices of the attempts whose timestamps the record still holds, oldest first. */
  ghost function HitIndices(h: seq<Event>, ip: string): seq<int> {
    if h == [] then []
    else if !IsAuthOf(Last(h), ip) then HitIndices(Front(h), ip)
    else Recent(h, HitIndices(Front(h), ip), Last(h).timestamp - BRUTE_FORCE_WINDOW) + [|h| - 1]
  }

  ghost function Recent(h: seq<Event>, indices: seq<int>, cutoff: Time): seq<int> {
    if indices == [] then []
    else
      var front := Recent(h, Front(indices), cutoff);
      if 0 <= Last(indices) < |h| && h[Last(indices)].timestamp > cutoff then front + [Last(indices)] else front
  }

  ghost predicate Increasing(s: seq<int>) {
    forall a, b :: 0 <= a < b < |s| ==> s[a] < s[b]
  }

  lemma {:induction false} RecentKeeps(h: seq<Event>, indices: seq<int>, cutoff: Time)
    requires Increasing(indices) && forall i :: i in indices ==> 0 <= i < |h|
    ensures Increasing(Recent(h, indices, cutoff))
    ensures forall i :: i in Recent(h, indices, cutoff) <==> i in indices && h[i].timestamp > cutoff
  {
    if indices != [] {
      var front, last := Front(indices), Last(indices);
      assert indices == front + [last];
      assert forall i :: i in front ==> i in indices;
      RecentKeeps(h, front, cutoff);
      var kept, all := Recent(h, front, cutoff), Recent(h, indices, cutoff);
      forall a, b | 0 <= a < b < |all|
        ensures all[a] < all[b]
      {
        if b == |kept| {
          assert kept[a] in kept;
          var k :| 0 <= k < |front| && front[k] == kept[a];
          assert indices[k] < indices[|front|];
        } else {
          assert kept[a] < kept[b];
        }
      }
    }
  }

  ghost predicate Mirrors(times: seq<Time>, h: seq<Event>, indices: seq<int>) {
    && |times| == |indices|
    && forall k :: 0 <= k < |times| ==> 0 <= indices[k] < |h| && times[k] == h[indices[k]].timestamp
  }

  lemma {:induction false} PruneMirrors(times: seq<Time>, h: seq<Event>, indices: seq<int>, now: Time, window: int)
    requires Mirrors(times, h, indices)
    ensures Mirrors(Prune(times, now, window), h, Recent(h, indices, now - window))
  {
    if times != [] {
      PruneMirrors(Front(times), h, Front(indices), now, window);
    }
  }

  lemma {:induction false} HitIndicesAreAlive(h: seq<Event>, ip: string)
    ensures Increasing(HitIndices(h, ip))
    ensures forall i :: i in HitIndices(h, ip) <==> AuthAlive(h, ip, i)
  {
    if h != [] {
      var older := HitIndices(Front(h), ip);
      HitIndicesAreAlive(Front(h), ip);
      AliveStep(h, ip);
      if IsAuthOf(Last(h), ip) {
        RecentKeeps(h, older, Last(h).timestamp - BRUTE_FORCE_WINDOW);
        var kept := Recent(h, older, Last(h).timestamp - BRUTE_FORCE_WINDOW);
        forall a | 0 <= a < |kept|
          ensures kept[a] < |h| - 1
        {
          assert kept[a] in kept;
          assert kept[a] in older;
          assert AuthAlive(Front(h), ip, kept[a]);
        }
      }
    }
  }

  lemma {:induction false} HitsMirrorIndices(h: seq<Event>, ip: string)
    ensures Mirrors(EntryAfter(h, ip).authHits, h, HitIndices(h, ip))
  {
    if h != [] {
      var older, hits := HitIndices(Front(h), ip), EntryAfter(Front(h), ip).authHits;
      HitsMirrorIndices(Front(h), ip);
      assert Mirrors(hits, h, older);
      if IsAuthOf(Last(h), ip) {
        var now := Last(h).timestamp;
        PruneMirrors(hits, h, older, now, BRUTE_FORCE_WINDOW);
        assert Front(hits + [now]) == hits;
        assert EntryAfter(h, ip).authHits == Prune(hits, now, BRUTE_FORCE_WINDOW) + [now];
      } else {
        assert EntryAfter(h, ip).authHits == hits;
      }
    }
  }

  /** Which attempts the newest event leaves alive, in terms of those alive before it. */
  ghost predicate AliveBy(h: seq<Event>, ip: string, i: int)
    requires h != []
  {
    if i == |h| - 1 then IsAuthOf(Last(h), ip)
    else (AuthAlive(Front(h), ip, i)
          && (IsAuthOf(Last(h), ip) ==> h[i].timestamp > Last(h).timestamp - BRUTE_FORCE_WINDOW))
  }

  lemma AliveStep(h: seq<Event>, ip: string)
    requires h != []
    ensures forall i :: AuthAlive(h, ip, i) <==> AliveBy(h, ip, i)
  {
    var front := Front(h);
    forall i | 0 <= i < |h| - 1
      ensures AuthAlive(h, ip, i) <==> AliveBy(h, ip, i)
    {
      if AuthAlive(h, ip, i) {
        assert forall j :: i <= j < |front| ==> front[j] == h[j];
      }
      if AuthAlive(front, ip, i) {
        assert forall j :: i <= j < |h| - 1 ==> front[j] == h[j];
      }
    }
  }

  lemma {:induction false} IncreasingCardinality(s: seq<int>, elements: set<int>)
    requires Increasing(s) && forall i :: i in s <==> i in elements
    ensures |s| == |elements|
  {
    if s != [] {
      assert s == Front(s) + [Last(s)];
      IncreasingCardinality(Front(s), elements - {Last(s)});
    } else {
      assert forall i :: i in elements ==> i in s;
    }
  }

  /** The pruned list is exactly as long as the number of attempts alive in the full history. */
  lemma HitsCountAliveAuths(h: seq<Event>, ip: string)
    ensures |EntryAfter(h, ip).authHits| == |AliveAuths(h, ip)|
  {
    HitIndicesAreAlive(h, ip);
    HitsMirrorIndices(h, ip);
    IncreasingCardinality(HitIndices(h, ip), AliveAuths(h, ip));
  }

  lemma HoldsServiceStep(h: seq<Event>, ip: string, svc: Service, i: int)
    requires h != []
    ensures HoldsService(h, ip, svc, i) <==> (
      if i == |h| - 1 then IsConnectOf(Last(h), ip, svc)
      else (
        && HoldsService(Front(h), ip, svc, i)
        && !IsConnectOf(Last(h), ip, svc)
        && (Last(h).sourceIp == ip ==> Last(h).timestamp - h[i].timestamp <= SCAN_WINDOW)))
  {
    var front := Front(h);
    if 0 <= i < |h| - 1 {
      if HoldsService(h, ip, svc, i) {
        assert forall j :: i <= j < |front| ==> front[j] == h[j];
      }
      if HoldsService(front, ip, svc, i) {
        assert forall j :: i <= j < |h| - 1 ==> front[j] == h[j];
      }
    }
  }

  lemma {:induction false} KeptServiceIsHeld(h: seq<Event>, ip: string, svc: Service)
    ensures svc in EntryAfter(h, ip).services <==> ServiceLive(h, ip, svc)
    ensures forall i :: HoldsService(h, ip, svc, i) ==>
      svc in EntryAfter(h, ip).services && EntryAfter(h, ip).services[svc] == h[i].timestamp
  {
    if h != [] {
      var front, n := Front(h), |h| - 1;
      KeptServiceIsHeld(front, ip, svc);
      forall i
        ensures HoldsService(h, ip, svc, i) ==>
          svc in EntryAfter(h, ip).services && EntryAfter(h, ip).services[svc] == h[i].timestamp
      {
        HoldsServiceStep(h, ip, svc, i);
      }
      if svc in EntryAfter(h, ip).services {
        if IsConnectOf(Last(h), ip, svc) {
          HoldsServiceStep(h, ip, svc, n);
        } else {
          var i :| HoldsService(front, ip, svc, i);
          HoldsServiceStep(h, ip, svc, i);
        }
      }
    }
  }

  /** Keeping only the latest connect of a service and dropping late ones loses nothing. */
  lemma KeptAreLiveServices(h: seq<Event>, ip: string)
    ensures EntryAfter(h, ip).services.Keys == LiveServices(h, ip)
  {
    forall svc: Service
      ensures svc in EntryAfter(h, ip).services.Keys <==> svc in LiveServices(h, ip)
    {
      KeptServiceIsHeld(h, ip, svc);
    }
  }

  /** The record answers both rules as the full history does, whatever the order of timestamps. */
  lemma RecordAnswersForHistory(h: seq<Event>)
    requires h != []
    ensures RecordTechniques(EntryAfter(h, Last(h).sourceIp), Last(h)) == WindowTechniques(h)
  {
    var ip := Last(h).sourceIp;
    HitsCountAliveAuths(h, ip);
    KeptAreLiveServices(h, ip);
    assert |EntryAfter(h, ip).services| == |EntryAfter(h, ip).services.Keys|;
  }

  /** One step of the table keeps it describing the history and answers for the newest event. */
  lemma StepAnswersForHistory(table: map<string, Entry>, h: seq<Event>, ev: Event)
    requires Describes(table, h)
    ensures Describes(TableStep(table, ev), h + [ev])
    ensures RecordTechniques(EntryStep(Lookup(table, ev.sourceIp), ev), ev) == WindowTechniques(h + [ev])
  {
    TableKeepsDescribing(table, h, ev);
    OtherRecordsStay(h, ev);
    RecordAnswersForHistory(h + [ev]);
    assert Lookup(table, ev.sourceIp) == EntryAfter(h, ev.sourceIp);
  }
}
