/** What a reader of alerts may conclude: laws of the detector over whole runs. */
module DetectorLaws {
  import opened Events
  import opened DetectorHistory

  // ---------------------------------------------------------------------------
  // When a technique is reported.

  predicate OnCommand(ev: Event) {
    ev.kind.Command? && ev.command.Some?
  }

  /** The single-event rules, technique by technique. */
  predicate Indicates(ev: Event, id: string) {
    match id
    case "T1078" => ev.kind.LoginSuccess?
    case "T1021.004" => ev.kind.LoginSuccess? && ev.service.SSH?
    case "T1133" => ev.kind.Connect? && ev.service.SSH?
    case "T1190" => ev.kind.Exploit?
    case "T1595" => ev.kind.Scan?
    case "T1105" => ev.kind.FileUpload? || (OnCommand(ev) && ev.command.value.toolTransfer)
    case "T1059.004" => OnCommand(ev)
    case "T1082" => OnCommand(ev) && ev.command.value.discovery
    case "T1083" => OnCommand(ev) && ev.command.value.fileDiscovery
    case "T1016" => OnCommand(ev) && ev.command.value.networkDiscovery
    case "T1057" => OnCommand(ev) && ev.command.value.processDiscovery
    case "T1053.003" => OnCommand(ev) && ev.command.value.cronManipulation
    case "T1496" => OnCommand(ev) && ev.command.value.cryptoMining
    case _ => false
  }

  /** The rules by event type report a technique exactly when the rule for that technique says so. */
  lemma SingleRulesExactly(ev: Event, id: string)
    ensures id in EventTechniques(ev) <==> Indicates(ev, id)
  {
    if ev.kind.Command? && ev.command.Some? {
      CommandRulesExactly(ev.command.value, id);
    }
  }

  ghost predicate Distinct(ids: seq<string>) {
    forall a, b :: 0 <= a < b < |ids| ==> ids[a] != ids[b]
  }

  /** The order of a report: single-event rules as the rules are written, T1110 and T1046 behind them. */
  function Rank(id: string): nat {
    match id
    case "T1078" => 0
    case "T1021.004" => 1
    case "T1059.004" => 2
    case "T1082" => 3
    case "T1083" => 4
    case "T1016" => 5
    case "T1057" => 6
    case "T1105" => 7
    case "T1053.003" => 8
    case "T1496" => 9
    case "T1133" => 10
    case "T1190" => 11
    case "T1595" => 12
    case "T1110" => 13
    case "T1046" => 14
    case _ => 15
  }

  ghost predicate Ranked(ids: seq<string>) {
    forall a, b :: 0 <= a < b < |ids| ==> Rank(ids[a]) < Rank(ids[b])
  }

  ghost predicate Below(ids: seq<string>, rank: nat) {
    forall x :: x in ids ==> Rank(x) < rank
  }

  lemma AddRanked(ids: seq<string>, hit: bool, id: string, bound: nat)
    requires Ranked(ids) && Below(ids, bound) && Rank(id) == bound
    ensures Ranked(AddIf(ids, hit, id)) && Below(AddIf(ids, hit, id), bound + 1)
  {
    hide Rank;
  }

  /** The single-event rules report in rank order. */
  lemma SingleRulesRanked(ev: Event)
    ensures Ranked(EventTechniques(ev)) && Below(EventTechniques(ev), 13)
  {
    hide CommandTechniques;
    if ev.kind.Command? {
      CommandRulesRanked(ev.command);
    }
  }

  lemma CommandRulesRanked(command: Option<Verdicts>)
    ensures Ranked(CommandTechniques(command)) && Below(CommandTechniques(command), 13)
  {
    hide AddIf, Ranked, Below, Rank;
    Ranks();
    if command.Some? {
      var v := command.value;
      var base := AddIf(["T1059.004"], v.discovery, "T1082");
      AddRanked(["T1059.004"], v.discovery, "T1082", 3);
      var files := AddIf(base, v.fileDiscovery, "T1083");
      AddRanked(base, v.fileDiscovery, "T1083", 4);
      var network := AddIf(files, v.networkDiscovery, "T1016");
      AddRanked(files, v.networkDiscovery, "T1016", 5);
      var processes := AddIf(network, v.processDiscovery, "T1057");
      AddRanked(network, v.processDiscovery, "T1057", 6);
      var transfer := AddIf(processes, v.toolTransfer, "T1105");
      AddRanked(processes, v.toolTransfer, "T1105", 7);
      var cron := AddIf(transfer, v.cronManipulation, "T1053.003");
      AddRanked(transfer, v.cronManipulation, "T1053.003", 8);
      AddRanked(cron, v.cryptoMining, "T1496", 9);
      MoreBelow(CommandTechniques(command), 10, 13);
    }
  }

  lemma MoreBelow(ids: seq<string>, a: nat, b: nat)
    requires Below(ids, a) && a <= b
    ensures Below(ids, b)
  {
  }

  lemma Ranks()
    ensures Ranked([]) && Ranked(["T1059.004"]) && Below([], 13) && Below(["T1059.004"], 3)
    ensures Rank("T1082") == 3 && Rank("T1083") == 4 && Rank("T1016") == 5 && Rank("T1057") == 6
    ensures Rank("T1105") == 7 && Rank("T1053.003") == 8 && Rank("T1496") == 9
  {
  }

  /** So no rule reports a technique twice. */
  lemma SingleRulesDistinct(ev: Event)
    ensures Distinct(EventTechniques(ev))
  {
    hide EventTechniques, Rank;
    SingleRulesRanked(ev);
  }

  lemma {:induction false} DedupKeepsRanked(ids: seq<string>)
    requires Ranked(ids)
    ensures Dedup(ids) == ids
  {
    hide Rank;
    if ids != [] {
      DedupKeepsRanked(Front(ids));
      assert ids == Front(ids) + [Last(ids)];
    }
  }

  /** A report is in rank order; with ReportedExactly it is thereby known to the letter. */
  lemma ReportedInOrder(h: seq<Event>)
    requires h != []
    ensures Ranked(TechniquesOf(h))
  {
    hide EventTechniques, BruteForce, Scanning, Rank;
    var single, window := EventTechniques(Last(h)), WindowTechniques(h);
    SingleRulesRanked(Last(h));
    WindowRanks();
    assert Ranked(single + window);
    DedupKeepsRanked(single + window);
  }

  lemma WindowRanks()
    ensures Rank("T1110") == 13 && Rank("T1046") == 14
  {
  }

  lemma CommandRulesExactly(v: Verdicts, id: string)
    ensures
      id in CommandTechniques(Some(v)) <==>
      (id == "T1059.004" || (v.discovery && id == "T1082") || (v.fileDiscovery && id == "T1083")
       || (v.networkDiscovery && id == "T1016") || (v.processDiscovery && id == "T1057")
       || (v.toolTransfer && id == "T1105") || (v.cronManipulation && id == "T1053.003")
       || (v.cryptoMining && id == "T1496"))
  {
  }

  /** What is reported for the newest event of a history, technique by technique, and each once. */
  lemma ReportedExactly(h: seq<Event>, id: string)
    requires h != []
    ensures
      id in TechniquesOf(h) <==>
      Indicates(Last(h), id) || (id == "T1110" && BruteForce(h)) || (id == "T1046" && Scanning(h))
    ensures Distinct(TechniquesOf(h))
  {
    hide Indicates, EventTechniques, BruteForce, Scanning;
    var single, window := EventTechniques(Last(h)), WindowTechniques(h);
    DedupKeepsFirsts(single + window);
    SingleRulesExactly(Last(h), id);
    assert id in single + window <==> id in single || id in window;
  }

  /** T1110 and T1046 come from the window rules alone; no single-event rule imitates them. */
  lemma WindowAlertsExactly(h: seq<Event>)
    requires h != []
    ensures "T1110" in TechniquesOf(h) <==> BruteForce(h)
    ensures "T1046" in TechniquesOf(h) <==> Scanning(h)
    ensures Distinct(TechniquesOf(h))
  {
    hide EventTechniques, BruteForce, Scanning, TechniquesOf;
    ReportedExactly(h, "T1110");
    ReportedExactly(h, "T1046");
    NoSingleRule(Last(h));
    assert "T1110"[4] != "T1046"[4];
  }

  lemma NoSingleRule(ev: Event)
    ensures !Indicates(ev, "T1110") && !Indicates(ev, "T1046")
  {
  }

  // ---------------------------------------------------------------------------
  // The rules as five minutes and sixty seconds of the full history.

  /** The events of one address arrive in timestamp order. */
  ghost predicate InOrder(h: seq<Event>, ip: string) {
    forall i, j :: 0 <= i < j < |h| && h[i].sourceIp == ip && h[j].sourceIp == ip ==>
      h[i].timestamp <= h[j].timestamp
  }

  ghost function AuthsWithin(h: seq<Event>, ip: string, now: Time): set<int> {
    set i | 0 <= i < |h| && IsAuthOf(h[i], ip) && now - BRUTE_FORCE_WINDOW < h[i].timestamp <= now
  }

  ghost function ServicesWithin(h: seq<Event>, ip: string, now: Time): set<Service> {
    set svc: Service | ContactedWithin(h, ip, svc, now)
  }

  ghost predicate ContactedWithin(h: seq<Event>, ip: string, svc: Service, now: Time) {
    exists i :: 0 <= i < |h| && IsConnectOf(h[i], ip, svc) && h[i].timestamp >= now - SCAN_WINDOW
  }

  /** The newest event carries the latest timestamp of its address's attempts. */
  ghost predicate LatestAttempt(h: seq<Event>)
    requires h != []
  {
    forall j :: 0 <= j < |h| && IsAuthOf(h[j], Last(h).sourceIp) ==> h[j].timestamp <= Last(h).timestamp
  }

  lemma {:induction false} AttemptOfLatestTime(h: seq<Event>, ip: string, i: int) returns (k: int)
    requires 0 <= i < |h| && IsAuthOf(h[i], ip)
    ensures 0 <= k < |h| && IsAuthOf(h[k], ip) && h[k].timestamp >= h[i].timestamp
    ensures forall j :: 0 <= j < |h| && IsAuthOf(h[j], ip) ==> h[j].timestamp <= h[k].timestamp
    decreases h
  {
    var n := |h| - 1;
    if i < n {
      k := AttemptOfLatestTime(h[..n], ip, i);
      assert forall j :: 0 <= j < n ==> h[..n][j] == h[j];
      if IsAuthOf(h[n], ip) && h[n].timestamp > h[k].timestamp {
        k := n;
      }
    } else if j :| 0 <= j < n && IsAuthOf(h[j], ip) {
      k := AttemptOfLatestTime(h[..n], ip, j);
      assert forall j :: 0 <= j < n ==> h[..n][j] == h[j];
      if h[n].timestamp > h[k].timestamp {
        k := n;
      }
    } else {
      k := n;
    }
  }

  /** The attempts the rule counts at an attempt are those of the last five minutes if and only if that
      attempt is the latest by timestamp too. */
  lemma CountedAreRecentExactly(h: seq<Event>)
    requires h != [] && IsAuth(Last(h))
    ensures
      AliveAuths(h, Last(h).sourceIp) == AuthsWithin(h, Last(h).sourceIp, Last(h).timestamp) <==> LatestAttempt(h)
  {
    var ip, now, n := Last(h).sourceIp, Last(h).timestamp, |h| - 1;
    assert IsAuthOf(h[n], ip);
    if LatestAttempt(h) {
      forall i | 0 <= i < |h|
        ensures AuthAlive(h, ip, i) <==> i in AuthsWithin(h, ip, now)
      {
      }
    } else {
      var i :| 0 <= i < |h| && IsAuthOf(h[i], ip) && h[i].timestamp > now;
      var k := AttemptOfLatestTime(h, ip, i);
      assert AuthAlive(h, ip, k) && k in AliveAuths(h, ip) && k !in AuthsWithin(h, ip, now);
    }
  }

  /** At such an attempt T1110 means five attempts in the last five minutes of the full history. */
  lemma BruteForceWhenLatest(h: seq<Event>)
    requires h != [] && (IsAuth(Last(h)) ==> LatestAttempt(h))
    ensures BruteForce(h) <==>
      IsAuth(Last(h)) && |AuthsWithin(h, Last(h).sourceIp, Last(h).timestamp)| >= BRUTE_FORCE_THRESHOLD
  {
    if IsAuth(Last(h)) {
      CountedAreRecentExactly(h);
    }
  }

  lemma InOrderIsLatest(h: seq<Event>)
    requires h != [] && InOrder(h, Last(h).sourceIp)
    ensures LatestAttempt(h)
  {
  }

  ghost predicate LastConnect(h: seq<Event>, ip: string, svc: Service, l: int) {
    0 <= l < |h| && IsConnectOf(h[l], ip, svc) && forall j :: l < j < |h| ==> !IsConnectOf(h[j], ip, svc)
  }

  /** Some event of the address, from event l on, came more than sixty seconds later than l. */
  ghost predicate Outrun(h: seq<Event>, ip: string, l: int) {
    0 <= l < |h| && exists j :: l <= j < |h| && h[j].sourceIp == ip && h[j].timestamp - h[l].timestamp > SCAN_WINDOW
  }

  /** A service contacted in the last sixty seconds that the table has lost all the same: the last connect
      to arrive has been outrun. */
  ghost predicate Lost(h: seq<Event>, ip: string, svc: Service, now: Time) {
    ContactedWithin(h, ip, svc, now) && exists l :: LastConnect(h, ip, svc, l) && Outrun(h, ip, l)
  }

  /** In every order a live service was contacted in the last sixty seconds; conversely the rule misses
      exactly the lost ones. */
  lemma LiveAreRecentButLost(h: seq<Event>, svc: Service)
    requires h != []
    ensures
      var ip, now := Last(h).sourceIp, Last(h).timestamp;
      svc in LiveServices(h, ip) <==> svc in ServicesWithin(h, ip, now) && !Lost(h, ip, svc, now)
  {
    var ip, now, n := Last(h).sourceIp, Last(h).timestamp, |h| - 1;
    if ServiceLive(h, ip, svc) {
      var i :| HoldsService(h, ip, svc, i);
      assert h[n].timestamp - h[i].timestamp <= SCAN_WINDOW;
      forall l | LastConnect(h, ip, svc, l)
        ensures l == i
      {
        assert !(l < i) && !(i < l);
      }
    } else if ContactedWithin(h, ip, svc, now) {
      var i :| 0 <= i < |h| && IsConnectOf(h[i], ip, svc) && h[i].timestamp >= now - SCAN_WINDOW;
      var last := LatestConnect(h, ip, svc, i);
      assert !HoldsService(h, ip, svc, last);
      assert LastConnect(h, ip, svc, last) && Outrun(h, ip, last);
    }
  }

  /** So T1046 never exaggerates, and the services it counts are those contacted in the last sixty seconds of
      the full history if and only if none of them is lost. */
  lemma ScanExactly(h: seq<Event>)
    requires h != []
    ensures
      var ip, now := Last(h).sourceIp, Last(h).timestamp;
      var lost := set svc: Service | Lost(h, ip, svc, now);
      && LiveServices(h, ip) == ServicesWithin(h, ip, now) - lost
      && (Scanning(h) ==> |ServicesWithin(h, ip, now)| >= SCAN_THRESHOLD)
      && (LiveServices(h, ip) == ServicesWithin(h, ip, now) <==> lost == {})
  {
    var ip, now := Last(h).sourceIp, Last(h).timestamp;
    var lost := set svc: Service | Lost(h, ip, svc, now);
    forall svc: Service
      ensures svc in LiveServices(h, ip) <==> svc in ServicesWithin(h, ip, now) - lost
    {
      LiveAreRecentButLost(h, svc);
    }
    assert LiveServices(h, ip) == ServicesWithin(h, ip, now) - lost;
    assert lost <= ServicesWithin(h, ip, now);
    SubsetCardinality(LiveServices(h, ip), ServicesWithin(h, ip, now));
  }

  /** In order nothing is lost: T1046 means three services contacted in the last sixty seconds. */
  lemma ScanInOrder(h: seq<Event>)
    requires h != [] && InOrder(h, Last(h).sourceIp)
    ensures Scanning(h) <==> |ServicesWithin(h, Last(h).sourceIp, Last(h).timestamp)| >= SCAN_THRESHOLD
  {
    var ip, now, n := Last(h).sourceIp, Last(h).timestamp, |h| - 1;
    forall svc: Service
      ensures !Lost(h, ip, svc, now)
    {
      if ContactedWithin(h, ip, svc, now) {
        var i :| 0 <= i < |h| && IsConnectOf(h[i], ip, svc) && h[i].timestamp >= now - SCAN_WINDOW;
        forall l | LastConnect(h, ip, svc, l)
          ensures !Outrun(h, ip, l)
        {
          assert i <= l;
        }
      }
    }
    ScanExactly(h);
  }

  ghost predicate ConnectedInLastMinute(h: seq<Event>, ip: string, svc: Service, now: Time) {
    exists i :: 0 <= i < |h| && h[i].sourceIp == ip && h[i].kind.Connect? && h[i].service == svc
                && h[i].timestamp >= now - 60_000_000_000
  }

  /** The documented rules in nanoseconds: at least five successful or failed logins of the address in the last
      five minutes, connects of at least three services in the last sixty seconds. */
  lemma DocumentedRules(h: seq<Event>)
    requires h != [] && InOrder(h, Last(h).sourceIp)
    ensures
      var ip, now := h[|h| - 1].sourceIp, h[|h| - 1].timestamp;
      var logins := set i | 0 <= i < |h| && h[i].sourceIp == ip && (h[i].kind.LoginSuccess? || h[i].kind.LoginFailed?)
                            && now - 300_000_000_000 < h[i].timestamp <= now;
      var services := set svc: Service | ConnectedInLastMinute(h, ip, svc, now);
      && ("T1110" in TechniquesOf(h) <==>
          (h[|h| - 1].kind.LoginSuccess? || h[|h| - 1].kind.LoginFailed?) && |logins| >= 5)
      && ("T1046" in TechniquesOf(h) <==> |services| >= 3)
  {
    hide TechniquesOf, InOrder;
    var ip, now := Last(h).sourceIp, Last(h).timestamp;
    AlertsInOrder(h);
    var logins := set i | 0 <= i < |h| && h[i].sourceIp == ip && (h[i].kind.LoginSuccess? || h[i].kind.LoginFailed?)
                          && now - 300_000_000_000 < h[i].timestamp <= now;
    assert logins == AuthsWithin(h, ip, now);
    var services := set svc: Service | ConnectedInLastMinute(h, ip, svc, now);
    forall svc: Service
      ensures svc in services <==> svc in ServicesWithin(h, ip, now)
    {
      if i :| 0 <= i < |h| && IsConnectOf(h[i], ip, svc) && h[i].timestamp >= now - SCAN_WINDOW {
        assert h[i].service == svc;
      }
      if ConnectedInLastMinute(h, ip, svc, now) {
        var i :| 0 <= i < |h| && h[i].sourceIp == ip && h[i].kind.Connect? && h[i].service == svc
                 && h[i].timestamp >= now - 60_000_000_000;
        assert IsConnectOf(h[i], ip, svc);
      }
    }
    assert services == ServicesWithin(h, ip, now);
  }

  /** What the documentation promises, of what is reported, when an address's events arrive in timestamp order. */
  lemma AlertsInOrder(h: seq<Event>)
    requires h != [] && InOrder(h, Last(h).sourceIp)
    ensures
      var ip, now := Last(h).sourceIp, Last(h).timestamp;
      && ("T1110" in TechniquesOf(h) <==> IsAuth(Last(h)) && |AuthsWithin(h, ip, now)| >= BRUTE_FORCE_THRESHOLD)
      && ("T1046" in TechniquesOf(h) <==> |ServicesWithin(h, ip, now)| >= SCAN_THRESHOLD)
  {
    hide InOrder, LatestAttempt, TechniquesOf, BruteForce, Scanning;
    WindowAlertsExactly(h);
    InOrderIsLatest(h);
    BruteForceWhenLatest(h);
    ScanInOrder(h);
  }

  lemma {:induction false} LatestConnect(h: seq<Event>, ip: string, svc: Service, i: int) returns (last: int)
    requires 0 <= i < |h| && IsConnectOf(h[i], ip, svc)
    ensures i <= last < |h| && IsConnectOf(h[last], ip, svc)
    ensures forall j :: last < j < |h| ==> !IsConnectOf(h[j], ip, svc)
    decreases |h| - i
  {
    if j :| i < j < |h| && IsConnectOf(h[j], ip, svc) {
      last := LatestConnect(h, ip, svc, j);
    } else {
      last := i;
    }
  }

  /** Workers may hand over events out of order, and then the five-minute promise can fail: the late
      attempt has five attempts in its window, but the earlier prune already dropped four of them. */
  lemma OutOfOrderMissesBruteForce(a: Event, t: Time)
    requires a.kind.LoginFailed? && t > 0
    ensures
      var early, late, back := a.(timestamp := t), a.(timestamp := t + 301 * SECOND), a.(timestamp := t + 10 * SECOND);
      var h := [early, early, early, early, late, back];
      && |AuthsWithin(h, a.sourceIp, back.timestamp)| >= BRUTE_FORCE_THRESHOLD
      && !BruteForce(h)
  {
    var early, late, back := a.(timestamp := t), a.(timestamp := t + 301 * SECOND), a.(timestamp := t + 10 * SECOND);
    var h := [early, early, early, early, late, back];
    var ip := a.sourceIp;
    assert AuthsWithin(h, ip, back.timestamp) == {0, 1, 2, 3, 5};
    assert IsAuthOf(h[4], ip);
    assert AliveAuths(h, ip) <= {4, 5};
    SubsetCardinality(AliveAuths(h, ip), {4, 5});
  }

  /** So can the sixty-second one: an older connect to FTP arrives late and hides the newer one. */
  lemma OutOfOrderMissesScan(a: Event, t: Time)
    requires a.kind.Connect? && t > 0
    ensures
      var early, back := a.(timestamp := t + 100 * SECOND), a.(timestamp := t, service := FTP);
      var h := [early.(service := FTP), early.(service := SSH), back, a.(timestamp := t + 110 * SECOND, service := HTTP)];
      && |ServicesWithin(h, a.sourceIp, t + 110 * SECOND)| >= SCAN_THRESHOLD
      && !Scanning(h)
  {
    var early, back := a.(timestamp := t + 100 * SECOND), a.(timestamp := t, service := FTP);
    var h := [early.(service := FTP), early.(service := SSH), back, a.(timestamp := t + 110 * SECOND, service := HTTP)];
    var ip, now := a.sourceIp, t + 110 * SECOND;
    assert IsConnectOf(h[0], ip, FTP) && IsConnectOf(h[1], ip, SSH) && IsConnectOf(h[3], ip, HTTP);
    assert {FTP, SSH, HTTP} <= ServicesWithin(h, ip, now);
    SubsetCardinality({FTP, SSH, HTTP}, ServicesWithin(h, ip, now));
    assert h[3].timestamp - h[2].timestamp > SCAN_WINDOW;
    assert IsConnectOf(h[2], ip, FTP);
    forall svc | svc in LiveServices(h, ip)
      ensures svc in {SSH, HTTP}
    {
      var i :| HoldsService(h, ip, svc, i);
      assert i != 0 && i != 2;
    }
    SubsetCardinality(LiveServices(h, ip), {SSH, HTTP});
  }

  lemma {:induction false} SubsetCardinality<T>(a: set<T>, b: set<T>)
    requires a <= b
    ensures |a| <= |b|
  {
    if x :| x in a {
      SubsetCardinality(a - {x}, b - {x});
    }
  }

  ghost function OnlyOf(h: seq<Event>, ip: string): seq<Event> {
    if h == [] then []
    else OnlyOf(Front(h), ip) + if Last(h).sourceIp == ip then [Last(h)] else []
  }

  lemma {:induction false} RecordIgnoresOthers(h: seq<Event>, ip: string)
    ensures EntryAfter(h, ip) == EntryAfter(OnlyOf(h, ip), ip)
  {
    if h != [] {
      RecordIgnoresOthers(Front(h), ip);
      if Last(h).sourceIp == ip {
        assert Front(OnlyOf(h, ip)) == OnlyOf(Front(h), ip);
        assert Last(OnlyOf(h, ip)) == Last(h);
      } else {
        assert OnlyOf(h, ip) == OnlyOf(Front(h), ip);
      }
    }
  }

  /** The alerts for an address are those of a detector that is fed this address's events alone. */
  lemma NonInterference(h: seq<Event>)
    requires h != []
    ensures OnlyOf(h, Last(h).sourceIp) != []
    ensures TechniquesOf(h) == TechniquesOf(OnlyOf(h, Last(h).sourceIp))
  {
    var mine := OnlyOf(h, Last(h).sourceIp);
    RecordIgnoresOthers(h, Last(h).sourceIp);
    RecordAnswersForHistory(h);
    RecordAnswersForHistory(mine);
  }

  /** authHits is pruned only by attempts, which keep themselves: one attempt keeps a record forever. */
  lemma {:induction false} AttemptsKeepRecordForever(h: seq<Event>, ip: string)
    ensures |EntryAfter(h, ip).authHits| > 0 <==> exists i :: 0 <= i < |h| && IsAuthOf(h[i], ip)
  {
    if h != [] {
      var front := Front(h);
      AttemptsKeepRecordForever(front, ip);
      if i :| 0 <= i < |front| && IsAuthOf(front[i], ip) {
        assert IsAuthOf(h[i], ip);
      }
      if i :| 0 <= i < |h| && IsAuthOf(h[i], ip) {
        assert i < |front| ==> IsAuthOf(front[i], ip);
      }
      if IsAuthOf(Last(h), ip) {
        var e := EntryAfter(front, ip);
        assert Last(e.authHits + [Last(h).timestamp]) == Last(h).timestamp;
        assert IsAuthOf(h[|h| - 1], ip);
      }
    }
  }

  /** Exactly which addresses the table holds after a history. */
  lemma TableHoldsExactly(table: map<string, Entry>, h: seq<Event>, ip: string)
    requires Describes(table, h)
    ensures ip in table <==> (exists i :: 0 <= i < |h| && IsAuthOf(h[i], ip)) || LiveServices(h, ip) != {}
  {
    AttemptsKeepRecordForever(h, ip);
    KeptAreLiveServices(h, ip);
    assert Lookup(table, ip) == EntryAfter(h, ip);
    assert EntryAfter(h, ip).services == map[] <==> EntryAfter(h, ip).services.Keys == {};
  }
}
