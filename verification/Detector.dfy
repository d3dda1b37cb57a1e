/** internal/mitre/detector.go: the rule engine with its incremental per-IP state. */
module Detector {
  import opened Events
  import opened DetectorHistory
  import opened DetectorLaws

  /** One technique hit. The index that names tactics is a constructor argument. */
  datatype Detection = Detection(
    sessionId: string, techniqueId: string, tactic: string, confidence: int,
    sourceIp: string, service: Service, evidence: EventType, detectedAt: Time)

  function Report(ev: Event, id: string, index: map<string, string>, clock: Time): Detection {
    Detection(ev.sessionId, id, if id in index then index[id] else "", 100,
              ev.sourceIp, ev.service, ev.kind, if ev.timestamp == 0 then clock else ev.timestamp)
  }

  /** The mutable record kept for one source address. */
  class IpState {
    var authHits: seq<Time>
    var services: map<Service, Time>

    constructor ()
      ensures authHits == [] && services == map[]
    {
      authHits := [];
      services := map[];
    }

    function Value(): Entry
      reads this
    {
      Entry(authHits, services)
    }
  }

  class Detector {
    const index: map<string, string>
    var state: map<string, IpState>
    ghost var history: seq<Event>  // every event ever given to Detect, oldest first
    ghost var Repr: set<IpState>

    ghost predicate Separate()
      reads this, Repr
    {
      && (forall ip :: ip in state ==> state[ip] in Repr)
      && (forall ip, jp :: ip in state && jp in state && ip != jp ==> state[ip] != state[jp])
    }

    ghost function Table(): map<string, Entry>
      reads this, Repr
      requires Separate()
    {
      map ip | ip in state :: state[ip].Value()
    }

    /** No record is shared between addresses, and the table of records is what the history amounts to. */
    ghost predicate Valid()
      reads this, Repr
    {
      Separate() && Describes(Table(), history)
    }

    constructor (index: map<string, string>)
      ensures Valid() && history == [] && state == map[] && this.index == index
    {
      this.index := index;
      state := map[];
      history, Repr := [], {};
    }

    method Detect(ev: Event, clock: Time) returns (detections: seq<Detection>)
      requires Valid()
      modifies this, Repr
      ensures Valid() && history == old(history) + [ev]
      ensures fresh(Repr - old(Repr))
      ensures |detections| == |TechniquesOf(history)|
      ensures forall k :: 0 <= k < |detections| ==>
        && detections[k].techniqueId == TechniquesOf(history)[k]
        && detections[k].tactic == (if TechniquesOf(history)[k] in index then index[TechniquesOf(history)[k]] else "")
        && detections[k].sessionId == ev.sessionId && detections[k].sourceIp == ev.sourceIp
        && detections[k].service == ev.service && detections[k].evidence == ev.kind
        && detections[k].confidence == 100
        && detections[k].detectedAt == (if ev.timestamp == 0 then clock else ev.timestamp)
    {
      var single := DetectSingleEvent(ev);
      var multi := DetectMultiEvent(ev);
      var ids := DedupStrings(single + multi);
      detections := ReportAll(ev, ids, clock);
    }

    method ReportAll(ev: Event, ids: seq<string>, clock: Time) returns (detections: seq<Detection>)
      ensures |detections| == |ids|
      ensures forall k :: 0 <= k < |ids| ==> detections[k] == Report(ev, ids[k], index, clock)
    {
      detections := [];
      for k := 0 to |ids|
        invariant |detections| == k
        invariant forall m :: 0 <= m < k ==> detections[m] == Report(ev, ids[m], index, clock)
      {
        detections := detections + [Report(ev, ids[k], index, clock)];
      }
    }

    method DetectMultiEvent(ev: Event) returns (matches: seq<string>)
      requires Valid()
      modifies this, Repr
      ensures Valid() && history == old(history) + [ev]
      ensures fresh(Repr - old(Repr))
      ensures matches == WindowTechniques(history)
    {
      ghost var table := Table();
      StepAnswersForHistory(table, history, ev);
      matches := StepRecord(ev);
      assert Table() == TableStep(table, ev);
      history := history + [ev];
      assert Table() == TableStep(table, ev);
    }

    /** The body of detectMultiEvent, on the table of records. */
    method StepRecord(ev: Event) returns (matches: seq<string>)
      requires Separate()
      modifies this`state, this`Repr, Repr
      ensures Separate() && fresh(Repr - old(Repr))
      ensures Table() == TableStep(old(Table()), ev)
      ensures matches == RecordTechniques(EntryStep(Lookup(old(Table()), ev.sourceIp), ev), ev)
    {
      ghost var table := Table();
      OpenRecord(ev.sourceIp);
      matches := ChangeRecord(ev);
      CloseRecord(ev.sourceIp);
      TableStepInParts(table, Table(), ev);
    }

    method OpenRecord(ip: string)
      requires Separate()
      modifies this`state, this`Repr
      ensures Separate() && fresh(Repr - old(Repr)) && old(Repr) <= Repr
      ensures ip in state && Table() == old(Table())[ip := Lookup(old(Table()), ip)]
    {
      if ip !in state {
        var s := new IpState();
        state, Repr := state[ip := s], Repr + {s};
      }
    }

    method ChangeRecord(ev: Event) returns (matches: seq<string>)
      requires Separate() && ev.sourceIp in state
      modifies state[ev.sourceIp]
      ensures Separate()
      ensures Table() == old(Table())[ev.sourceIp := EntryStep(old(Table())[ev.sourceIp], ev)]
      ensures matches == RecordTechniques(EntryStep(old(Table())[ev.sourceIp], ev), ev)
    {
      ghost var table := Table();
      matches := UpdateRecord(state[ev.sourceIp], ev);
      assert forall jp :: jp in Table() && jp != ev.sourceIp ==> Table()[jp] == table[jp];
    }

    method CloseRecord(ip: string)
      requires Separate() && ip in state
      modifies this`state
      ensures Separate()
      ensures Table() == if old(Table())[ip] == EMPTY then old(Table()) - {ip} else old(Table())
    {
      ghost var table := Table();
      var s := state[ip];
      if |s.authHits| == 0 && |s.services| == 0 {
        assert table[ip] == EMPTY;
        state := state - {ip};
        assert forall jp :: jp in Table() ==> Table()[jp] == table[jp];
        assert Table() == table - {ip};
      }
    }
  }

  /** The part of detectMultiEvent that works on the record of the event's address. */
  method UpdateRecord(s: IpState, ev: Event) returns (matches: seq<string>)
    modifies s
    ensures s.Value() == EntryStep(old(s.Value()), ev)
    ensures matches == RecordTechniques(s.Value(), ev)
  {
    matches := [];
    var now := ev.timestamp;
    if IsAuth(ev) {
      s.authHits := s.authHits + [now];
      var pruned := PruneWindow(s.authHits, now, BRUTE_FORCE_WINDOW);
      s.authHits := pruned;
      if |s.authHits| >= BRUTE_FORCE_THRESHOLD {
        matches := matches + ["T1110"];
      }
    }
    if ev.kind.Connect? {
      s.services := s.services[ev.service := now];
    }
    var activeServices := ExpireServices(s, now);
    if activeServices >= SCAN_THRESHOLD {
      matches := matches + ["T1046"];
    }
  }

  /** The expiry loop of detectMultiEvent: map iteration order is arbitrary, deletion happens on the way. */
  method ExpireServices(s: IpState, now: Time) returns (active: nat)
    modifies s`services
    ensures s.services == Expire(old(s.services), now)
    ensures active == |s.services|
  {
    active := 0;
    ghost var all := s.services;
    var todo := s.services.Keys;
    assert s.services.Keys - todo == {};
    while todo != {}
      invariant todo <= all.Keys
      invariant s.services == ExpireExcept(all, now, todo)
      invariant active == |s.services.Keys - todo|
      decreases |todo|
    {
      var svc :| svc in todo;
      if Sub(now, s.services[svc]) <= SCAN_WINDOW {
        ExpireKeeps(all, now, todo, svc);
        active := active + 1;
      } else {
        ExpireDrops(all, now, todo, svc);
        s.services := s.services - {svc};
      }
      todo := todo - {svc};
    }
    assert s.services.Keys - todo == s.services.Keys;
  }

  method PruneWindow(times: seq<Time>, now: Time, window: int) returns (pruned: seq<Time>)
    ensures pruned == Prune(times, now, window)
  {
    var cutoff := now - window;
    pruned := [];
    for k := 0 to |times|
      invariant pruned == Prune(times[..k], now, window)
    {
      assert times[..k + 1][..k] == times[..k];
      if times[k] > cutoff {
        pruned := pruned + [times[k]];
      }
    }
    assert times[..|times|] == times;
  }

  method DedupStrings(input: seq<string>) returns (result: seq<string>)
    ensures result == Dedup(input)
  {
    var seen: set<string> := {};
    result := [];
    for k := 0 to |input|
      invariant result == Dedup(input[..k])
      invariant forall s :: s in seen <==> s in input[..k]
    {
      assert input[..k + 1][..k] == input[..k];
      if input[k] !in seen {
        seen := seen + {input[k]};
        result := result + [input[k]];
      }
    }
    assert input[..|input|] == input;
  }

  method DetectSingleEvent(ev: Event) returns (matches: seq<string>)
    ensures matches == EventTechniques(ev)
    ensures forall id :: id in matches <==> Indicates(ev, id)
    ensures Distinct(matches)
  {
    hide Indicates;
    matches := MatchEvent(ev);
    SingleRulesDistinct(ev);
    forall id
      ensures id in matches <==> Indicates(ev, id)
    {
      SingleRulesExactly(ev, id);
    }
  }

  method MatchEvent(ev: Event) returns (matches: seq<string>)
    ensures matches == EventTechniques(ev)
  {
    matches := [];
    match ev.kind
    case LoginSuccess =>
      matches := matches + ["T1078"];
      if ev.service == SSH {
        matches := matches + ["T1021.004"];
      }
    case Command =>
      matches := DetectCommand(ev);
    case Exploit => matches := matches + ["T1190"];
    case Scan => matches := matches + ["T1595"];
    case FileUpload => matches := matches + ["T1105"];
    case Connect =>
      if ev.service == SSH {
        matches := matches + ["T1133"];
      }
    case _ =>
  }

  method DetectCommand(ev: Event) returns (matches: seq<string>)
    ensures matches == CommandTechniques(ev.command)
  {
    if ev.command.None? {
      return [];
    }
    var v := ev.command.value;
    matches := ["T1059.004"];
    if v.discovery { matches := matches + ["T1082"]; }
    if v.fileDiscovery { matches := matches + ["T1083"]; }
    if v.networkDiscovery { matches := matches + ["T1016"]; }
    if v.processDiscovery { matches := matches + ["T1057"]; }
    if v.toolTransfer { matches := matches + ["T1105"]; }
    if v.cronManipulation { matches := matches + ["T1053.003"]; }
    if v.cryptoMining { matches := matches + ["T1496"]; }
  }
}
