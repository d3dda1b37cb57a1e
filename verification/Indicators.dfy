/** internal/intel/ioc.go: bulk extraction merges the sightings of one indicator. */
module Indicators {
  import opened Events

  datatype Kind = IPv4 | IPv6 | Domain | Url | Sha256 | Md5 | SshKey | UserAgent | Email

  function TypeName(kind: Kind): string {
    match kind
    case IPv4 => "ipv4"
    case IPv6 => "ipv6"
    case Domain => "domain"
    case Url => "url"
    case Sha256 => "sha256"
    case Md5 => "md5"
    case SshKey => "ssh-key"
    case UserAgent => "user-agent"
    case Email => "email"
  }

  /** What Extract finds in one event: an indicator first and last seen at the event's time, sighted once. */
  datatype Sighting = Sighting(
    kind: Kind, value: string, at: Time, confidence: int, source: string, tags: seq<string>)

  datatype Ioc = Ioc(
    kind: Kind, value: string, firstSeen: Time, lastSeen: Time, sightCount: nat,
    confidence: int, source: string, tags: seq<string>)

  // ---------------------------------------------------------------------------
  // The part of Extract that looks at the source address.

  /** `net.ParseIP` and the two range tests. */
  datatype Address = Address(v4: bool, loopback: bool, private: bool)

  function ConfidenceFor(kind: EventType): int {
    match kind
    case Exploit => 95
    case Command => 85
    case LoginSuccess => 80
    case LoginFailed => 80
    case Scan => 70
    case Connect => 50
    case _ => 60
  }

  function ServiceName(service: Service): string {
    match service
    case SSH => "ssh"
    case HTTP => "http"
    case FTP => "ftp"
    case SMB => "smb"
    case MySQL => "mysql"
    case Redis => "redis"
  }

  /** Whether an address is worth an indicator. */
  predicate Public(ip: string, parse: string -> Option<Address>) {
    ip != "" && parse(ip).Some? && !parse(ip).value.loopback && !parse(ip).value.private
  }

  function AddressKind(ip: string, parse: string -> Option<Address>): Kind
    requires parse(ip).Some?
  {
    if parse(ip).value.v4 then IPv4 else IPv6
  }

  function SourceSightings(ev: Event, parse: string -> Option<Address>): seq<Sighting> {
    if !Public(ev.sourceIp, parse) then []
    else
      [Sighting(AddressKind(ev.sourceIp, parse), ev.sourceIp, ev.timestamp, ConfidenceFor(ev.kind),
                "honeypot:" + ServiceName(ev.service),
                ["service:" + ServiceName(ev.service)] + if ev.kind == Exploit then ["exploit-attempt"] else [])]
  }

  lemma ServiceNames()
    ensures ServiceName(SSH) == "ssh" && ServiceName(HTTP) == "http" && ServiceName(FTP) == "ftp"
    ensures ServiceName(SMB) == "smb" && ServiceName(MySQL) == "mysql" && ServiceName(Redis) == "redis"
  {
  }

  lemma TypeNames()
    ensures TypeName(IPv4) == "ipv4" && TypeName(IPv6) == "ipv6" && TypeName(Domain) == "domain"
    ensures TypeName(Url) == "url" && TypeName(Sha256) == "sha256" && TypeName(Md5) == "md5"
    ensures TypeName(SshKey) == "ssh-key" && TypeName(UserAgent) == "user-agent" && TypeName(Email) == "email"
  {
  }

  /** An address is sighted unless it is empty, no address, loopback or private; as IPv4 or IPv6, at the event's
      time, with a confidence graded by the event's type, and tagged with its service. */
  lemma SourceSays(ev: Event, parse: string -> Option<Address>)
    ensures
      var found, address := SourceSightings(ev, parse), parse(ev.sourceIp);
      && (found == [] <==>
          ev.sourceIp == "" || address.None? || address.value.loopback || address.value.private)
      && (found != [] ==>
          && |found| == 1 && found[0].value == ev.sourceIp && found[0].at == ev.timestamp
          && found[0].kind == (if address.value.v4 then IPv4 else IPv6)
          && found[0].source == "honeypot:" + ServiceName(ev.service)
          && ("service:" + ServiceName(ev.service)) in found[0].tags
          && found[0].confidence ==
             (if ev.kind.Exploit? then 95 else if ev.kind.Command? then 85
              else if ev.kind.LoginSuccess? || ev.kind.LoginFailed? then 80
              else if ev.kind.Scan? then 70 else if ev.kind.Connect? then 50 else 60))
  {
  }

  lemma ExploitTag(ev: Event, parse: string -> Option<Address>)
    ensures
      var found := SourceSightings(ev, parse);
      found != [] ==> (ev.kind.Exploit? <==> "exploit-attempt" in found[0].tags)
  {
    assert ("service:" + ServiceName(ev.service))[0] == 's' && "exploit-attempt"[0] == 'e';
  }

  // ---------------------------------------------------------------------------
  // Keys.

  datatype Id = Id(kind: Kind, value: string)

  function IdOf(s: Sighting): Id {
    Id(s.kind, s.value)
  }

  function Subject(r: Ioc): Id {
    Id(r.kind, r.value)
  }

  /** The key under which ExtractBulk collects an indicator. */
  function Key(id: Id): string {
    TypeName(id.kind) + ":" + id.value
  }

  lemma NameHasNoColon(kind: Kind)
    ensures ':' !in TypeName(kind)
  {
  }

  lemma NamesDiffer(a: Kind, b: Kind)
    requires TypeName(a) == TypeName(b)
    ensures a == b
  {
  }

  /** Different indicators never share a key, whatever their values, because no type name has a colon. */
  lemma KeyInjective(a: Id, b: Id)
    requires Key(a) == Key(b)
    ensures a == b
  {
    hide TypeName, Key;
    var m, n := TypeName(a.kind), TypeName(b.kind);
    ColonAt(a);
    ColonAt(b);
    assert |m| == |n|;
    assert m == Key(a)[..|m|] && a.value == Key(a)[|m| + 1..];
    assert n == Key(b)[..|n|] && b.value == Key(b)[|n| + 1..];
    NamesDiffer(a.kind, b.kind);
  }

  lemma ColonAt(id: Id)
    ensures Key(id) == TypeName(id.kind) + [':'] + id.value
    ensures Key(id)[|TypeName(id.kind)|] == ':'
    ensures forall i :: 0 <= i < |TypeName(id.kind)| ==> Key(id)[i] != ':'
  {
    hide TypeName;
    var m := TypeName(id.kind);
    NameHasNoColon(id.kind);
    forall i | 0 <= i < |m|
      ensures Key(id)[i] != ':'
    {
      assert Key(id)[i] == m[i] && m[i] in m;
    }
  }

  // ---------------------------------------------------------------------------
  // What a merged indicator has to say about the sightings.

  /** The sightings of one indicator, in order. */
  function Group(sightings: seq<Sighting>, id: Id): seq<Sighting> {
    if sightings == [] then []
    else
      var n := |sightings| - 1;
      Group(sightings[..n], id) + if IdOf(sightings[n]) == id then [sightings[n]] else []
  }

  /** The exact summary of a group: how many sightings, the earliest and the latest, the highest
      confidence, the union of the tags, and the source of the first. */
  ghost predicate Summary(r: Ioc, group: seq<Sighting>) {
    && r.sightCount == |group| > 0
    && r.source == group[0].source
    && Earliest(r.firstSeen, group) && Latest(r.lastSeen, group) && Surest(r.confidence, group)
    && Union(r.tags, group)
  }

  ghost predicate Earliest(t: Time, group: seq<Sighting>) {
    (forall s :: s in group ==> t <= s.at) && exists s :: s in group && s.at == t
  }

  ghost predicate Latest(t: Time, group: seq<Sighting>) {
    (forall s :: s in group ==> s.at <= t) && exists s :: s in group && s.at == t
  }

  ghost predicate Surest(c: int, group: seq<Sighting>) {
    (forall s :: s in group ==> s.confidence <= c) && exists s :: s in group && s.confidence == c
  }

  ghost predicate Union(tags: seq<string>, group: seq<Sighting>) {
    forall t :: t in tags <==> exists s :: s in group && t in s.tags
  }

  /** What ExtractBulk promises: one indicator for each that was sighted, and each the summary of its sightings. */
  ghost predicate Bulk(sightings: seq<Sighting>, result: seq<Ioc>) {
    && (forall i, j :: 0 <= i < j < |result| ==> Subject(result[i]) != Subject(result[j]))
    && (forall s :: s in sightings ==> exists r :: r in result && Subject(r) == IdOf(s))
    && (forall r :: r in result ==> Summary(r, Group(sightings, Subject(r))))
  }

  // ---------------------------------------------------------------------------
  // The loops.

  method MergeUnique(a: seq<string>, b: seq<string>) returns (result: seq<string>)
    ensures forall t :: t in result <==> t in a || t in b
    ensures forall i, j :: 0 <= i < j < |result| ==> result[i] != result[j]
  {
    var all: set<string> := {};
    for k := 0 to |a|
      invariant forall t :: t in all <==> t in a[..k]
    {
      all := all + {a[k]};
    }
    for k := 0 to |b|
      invariant forall t :: t in all <==> t in a || t in b[..k]
    {
      all := all + {b[k]};
    }
    var rest := all;
    result := [];
    while rest != {}
      invariant rest <= all && forall t :: t in result <==> t in all - rest
      invariant forall i, j :: 0 <= i < j < |result| ==> result[i] != result[j]
      decreases |rest|
    {
      var t :| t in rest;
      assert t !in result;
      result, rest := result + [t], rest - {t};
    }
  }

  function Fresh(s: Sighting): Ioc {
    Ioc(s.kind, s.value, s.at, s.at, 1, s.confidence, s.source, s.tags)
  }

  ghost predicate Merges(old_: Ioc, s: Sighting, r: Ioc) {
    && r.kind == old_.kind && r.value == old_.value && r.source == old_.source
    && r.sightCount == old_.sightCount + 1
    && r.lastSeen == (if s.at > old_.lastSeen then s.at else old_.lastSeen)
    && r.firstSeen == (if s.at < old_.firstSeen then s.at else old_.firstSeen)
    && r.confidence == (if s.confidence > old_.confidence then s.confidence else old_.confidence)
    && forall t :: t in r.tags <==> t in old_.tags || t in s.tags
  }

  method Merge(existing: Ioc, s: Sighting) returns (r: Ioc)
    ensures Merges(existing, s, r)
  {
    r := existing.(sightCount := existing.sightCount + 1);
    if s.at > r.lastSeen {
      r := r.(lastSeen := s.at);
    }
    if s.at < r.firstSeen {
      r := r.(firstSeen := s.at);
    }
    if s.confidence > r.confidence {
      r := r.(confidence := s.confidence);
    }
    var tags := MergeUnique(r.tags, s.tags);
    r := r.(tags := tags);
  }

  /** The table of ExtractBulk after some sightings. */
  ghost predicate Table(seen: map<string, Ioc>, sightings: seq<Sighting>) {
    && (forall k :: k in seen ==> Filed(seen, k, sightings))
    && (forall s :: s in sightings ==> Key(IdOf(s)) in seen)
  }

  ghost predicate Filed(seen: map<string, Ioc>, k: string, sightings: seq<Sighting>)
    requires k in seen
  {
    Key(Subject(seen[k])) == k && Summary(seen[k], Group(sightings, Subject(seen[k])))
  }

  lemma GroupAppend(sightings: seq<Sighting>, s: Sighting, id: Id)
    ensures Group(sightings + [s], id) == Group(sightings, id) + if IdOf(s) == id then [s] else []
  {
    assert (sightings + [s])[..|sightings|] == sightings;
  }

  lemma {:induction false} GroupOnly(sightings: seq<Sighting>, id: Id)
    ensures forall s :: s in Group(sightings, id) <==> s in sightings && IdOf(s) == id
  {
    if sightings != [] {
      var n := |sightings| - 1;
      GroupOnly(sightings[..n], id);
      assert sightings == sightings[..n] + [sightings[n]];
    }
  }

  lemma {:induction false} EmptyGroup(sightings: seq<Sighting>, id: Id)
    requires forall s :: s in sightings ==> IdOf(s) != id
    ensures Group(sightings, id) == []
  {
    if sightings != [] {
      EmptyGroup(sightings[..|sightings| - 1], id);
    }
  }

  lemma MergeSummarizes(r: Ioc, group: seq<Sighting>, s: Sighting, merged: Ioc)
    requires Summary(r, group) && Merges(r, s, merged)
    ensures Summary(merged, group + [s])
  {
    var more := group + [s];
    assert forall x :: x in more <==> x in group || x == s;
    EarliestOf(r, group, s, merged);
    LatestOf(r, group, s, merged);
    SurestOf(r, group, s, merged);
    UnionOf(r, group, s, merged);
  }

  lemma EarliestOf(r: Ioc, group: seq<Sighting>, s: Sighting, merged: Ioc)
    requires Earliest(r.firstSeen, group) && Merges(r, s, merged)
    ensures Earliest(merged.firstSeen, group + [s])
  {
    var x :| x in group && x.at == r.firstSeen;
    assert x in group + [s] && s in group + [s];
  }

  lemma LatestOf(r: Ioc, group: seq<Sighting>, s: Sighting, merged: Ioc)
    requires Latest(r.lastSeen, group) && Merges(r, s, merged)
    ensures Latest(merged.lastSeen, group + [s])
  {
    var x :| x in group && x.at == r.lastSeen;
    assert x in group + [s] && s in group + [s];
  }

  lemma SurestOf(r: Ioc, group: seq<Sighting>, s: Sighting, merged: Ioc)
    requires Surest(r.confidence, group) && Merges(r, s, merged)
    ensures Surest(merged.confidence, group + [s])
  {
    var x :| x in group && x.confidence == r.confidence;
    assert x in group + [s] && s in group + [s];
  }

  lemma UnionOf(r: Ioc, group: seq<Sighting>, s: Sighting, merged: Ioc)
    requires Union(r.tags, group) && Merges(r, s, merged)
    ensures Union(merged.tags, group + [s])
  {
    var more := group + [s];
    forall t
      ensures t in merged.tags <==> exists x :: x in more && t in x.tags
    {
      if t in r.tags {
        var x :| x in group && t in x.tags;
        assert x in more;
      } else if t in s.tags {
        assert s in more;
      }
    }
  }

  lemma FreshSummarizes(s: Sighting)
    ensures Summary(Fresh(s), [s])
  {
    assert s in [s];
  }

  /** One turn of the inner loop keeps the table. */
  lemma TurnKeepsTable(seen: map<string, Ioc>, sightings: seq<Sighting>, s: Sighting, r: Ioc)
    requires Table(seen, sightings)
    requires var k := Key(IdOf(s)); if k in seen then Merges(seen[k], s, r) else r == Fresh(s)
    ensures Table(seen[Key(IdOf(s)) := r], sightings + [s])
  {
    hide Summary, Merges, Group, Key;
    var key, more := Key(IdOf(s)), sightings + [s];
    var after := seen[key := r];
    TurnFiles(seen, sightings, s, r);
    forall k | k in after
      ensures Filed(after, k, more)
    {
      if k != key {
        assert Filed(seen, k, sightings);
        GroupAppend(sightings, s, Subject(seen[k]));
        assert Group(more, Subject(seen[k])) == Group(sightings, Subject(seen[k]));
      }
    }
  }

  lemma TurnFiles(seen: map<string, Ioc>, sightings: seq<Sighting>, s: Sighting, r: Ioc)
    requires Table(seen, sightings)
    requires var k := Key(IdOf(s)); if k in seen then Merges(seen[k], s, r) else r == Fresh(s)
    ensures Subject(r) == IdOf(s) && Summary(r, Group(sightings + [s], IdOf(s)))
  {
    hide Summary, Group, Key;
    var key := Key(IdOf(s));
    GroupAppend(sightings, s, IdOf(s));
    if key in seen {
      assert Filed(seen, key, sightings);
      KeyInjective(Subject(seen[key]), IdOf(s));
      MergeSummarizes(seen[key], Group(sightings, IdOf(s)), s, r);
    } else {
      EmptyGroup(sightings, IdOf(s));
      FreshSummarizes(s);
      assert [] + [s] == [s];
    }
  }

  function AllSightings(events: seq<Event>, extract: Event -> seq<Sighting>): seq<Sighting> {
    if events == [] then []
    else AllSightings(events[..|events| - 1], extract) + extract(events[|events| - 1])
  }

  method ExtractBulk(events: seq<Event>, extract: Event -> seq<Sighting>) returns (result: seq<Ioc>)
    ensures Bulk(AllSightings(events, extract), result)
  {
    hide Table, Bulk;
    var seen: map<string, Ioc> := map[];
    EmptyTable();
    for i := 0 to |events|
      invariant Table(seen, AllSightings(events[..i], extract))
    {
      var found := extract(events[i]);
      ghost var before := AllSightings(events[..i], extract);
      assert before + found[..0] == before;
      for j := 0 to |found|
        invariant Table(seen, before + found[..j])
      {
        seen := FileSighting(seen, found[j], before + found[..j]);
        assert before + found[..j] + [found[j]] == before + found[..j + 1];
      }
      assert found[..|found|] == found;
      assert events[..i + 1][..i] == events[..i];
    }
    assert events[..|events|] == events;
    result := Values(seen, AllSightings(events, extract));
  }

  lemma EmptyTable()
    ensures Table(map[], [])
  {
  }

  method FileSighting(seen: map<string, Ioc>, s: Sighting, ghost before: seq<Sighting>)
    returns (after: map<string, Ioc>)
    requires Table(seen, before)
    ensures Table(after, before + [s])
  {
    hide Table;
    var key := Key(IdOf(s));
    var r := Fresh(s);
    if key in seen {
      r := Merge(seen[key], s);
    }
    TurnKeepsTable(seen, before, s, r);
    after := seen[key := r];
  }

  /** The last loop: the indicators of the table, in no particular order. */
  method Values(seen: map<string, Ioc>, ghost sightings: seq<Sighting>) returns (result: seq<Ioc>)
    requires Table(seen, sightings)
    ensures Bulk(sightings, result)
  {
    hide Summary, Group, Key;
    var rest := seen.Keys;
    result := [];
    while rest != {}
      invariant rest <= seen.Keys
      invariant forall r :: r in result ==> Key(Subject(r)) in seen && Key(Subject(r)) !in rest && r == seen[Key(Subject(r))]
      invariant forall k :: k in seen && k !in rest ==> seen[k] in result
      invariant forall i, j :: 0 <= i < j < |result| ==> Subject(result[i]) != Subject(result[j])
      decreases |rest|
    {
      var k :| k in rest;
      assert Filed(seen, k, sightings);
      result, rest := result + [seen[k]], rest - {k};
    }
    ValuesAreBulk(seen, sightings, result);
  }

  lemma ValuesAreBulk(seen: map<string, Ioc>, sightings: seq<Sighting>, result: seq<Ioc>)
    requires Table(seen, sightings)
    requires forall r :: r in result ==> Key(Subject(r)) in seen && r == seen[Key(Subject(r))]
    requires forall k :: k in seen ==> seen[k] in result
    requires forall i, j :: 0 <= i < j < |result| ==> Subject(result[i]) != Subject(result[j])
    ensures Bulk(sightings, result)
  {
    hide Summary, Group, Key;
    forall s | s in sightings
      ensures exists r :: r in result && Subject(r) == IdOf(s)
    {
      var k := Key(IdOf(s));
      assert Filed(seen, k, sightings);
      KeyInjective(Subject(seen[k]), IdOf(s));
      assert seen[k] in result;
    }
    forall r | r in result
      ensures Summary(r, Group(sightings, Subject(r)))
    {
      assert Filed(seen, Key(Subject(r)), sightings);
    }
  }

  // ---------------------------------------------------------------------------
  // Counting and order.

  function Total(result: seq<Ioc>): nat {
    if result == [] then 0 else result[0].sightCount + Total(result[1..])
  }

  /** The sightings of every other indicator. */
  function Others(sightings: seq<Sighting>, id: Id): seq<Sighting> {
    if sightings == [] then []
    else
      var n := |sightings| - 1;
      Others(sightings[..n], id) + if IdOf(sightings[n]) == id then [] else [sightings[n]]
  }

  lemma {:induction false} GroupAndOthers(sightings: seq<Sighting>, id: Id)
    ensures |sightings| == |Group(sightings, id)| + |Others(sightings, id)|
    ensures forall s :: s in Others(sightings, id) ==> s in sightings && IdOf(s) != id
  {
    if sightings != [] {
      GroupAndOthers(sightings[..|sightings| - 1], id);
    }
  }

  lemma {:induction false} OthersKeepGroups(sightings: seq<Sighting>, id: Id, other: Id)
    requires id != other
    ensures Group(Others(sightings, id), other) == Group(sightings, other)
  {
    if sightings != [] {
      var n := |sightings| - 1;
      var last, rest := sightings[n], Others(sightings[..n], id);
      OthersKeepGroups(sightings[..n], id, other);
      if IdOf(last) == id {
        assert Others(sightings, id) == rest;
        assert Group(sightings, other) == Group(sightings[..n], other);
      } else {
        assert Others(sightings, id) == rest + [last];
        GroupAppend(rest, last, other);
      }
    }
  }

  lemma SomeSighting(sightings: seq<Sighting>)
    ensures sightings != [] ==> exists s :: s in sightings
  {
    if sightings != [] {
      assert sightings[0] in sightings;
    }
  }

  lemma OthersAreBulk(sightings: seq<Sighting>, result: seq<Ioc>)
    requires Bulk(sightings, result) && result != []
    ensures Bulk(Others(sightings, Subject(result[0])), result[1..])
  {
    hide Summary, Group, Others;
    var id := Subject(result[0]);
    var rest := Others(sightings, id);
    GroupAndOthers(sightings, id);
    forall s | s in rest
      ensures exists r :: r in result[1..] && Subject(r) == IdOf(s)
    {
      var r :| r in result && Subject(r) == IdOf(s);
      assert r in result[1..];
    }
    forall r | r in result[1..]
      ensures Summary(r, Group(rest, Subject(r)))
    {
      var k :| 0 <= k < |result| - 1 && result[1..][k] == r;
      assert result[k + 1] == r && Subject(result[0]) != Subject(result[k + 1]);
      OthersKeepGroups(sightings, id, Subject(r));
    }
  }

  /** The sight counts add up to the number of sightings: none is lost and none counted twice. */
  lemma {:induction false} SightCountsAddUp(sightings: seq<Sighting>, result: seq<Ioc>)
    requires Bulk(sightings, result)
    ensures Total(result) == |sightings|
    decreases result
  {
    if result == [] {
      SomeSighting(sightings);
    } else {
      var id := Subject(result[0]);
      OthersAreBulk(sightings, result);
      SightCountsAddUp(Others(sightings, id), result[1..]);
      GroupAndOthers(sightings, id);
      assert Summary(result[0], Group(sightings, id));
    }
  }

  lemma {:induction false} GroupMultiset(sightings: seq<Sighting>, id: Id, s: Sighting)
    ensures multiset(Group(sightings, id))[s] == if IdOf(s) == id then multiset(sightings)[s] else 0
  {
    if sightings != [] {
      var n := |sightings| - 1;
      GroupMultiset(sightings[..n], id, s);
      assert sightings == sightings[..n] + [sightings[n]];
    }
  }

  lemma GroupsPermute(xs: seq<Sighting>, ys: seq<Sighting>, id: Id)
    requires multiset(xs) == multiset(ys)
    ensures multiset(Group(xs, id)) == multiset(Group(ys, id))
  {
    forall s
      ensures multiset(Group(xs, id))[s] == multiset(Group(ys, id))[s]
    {
      GroupMultiset(xs, id, s);
      GroupMultiset(ys, id, s);
    }
  }

  /** Two summaries agree on everything but the source and the order of the tags. */
  ghost predicate Agree(a: Ioc, b: Ioc) {
    && Subject(a) == Subject(b) && a.sightCount == b.sightCount
    && a.firstSeen == b.firstSeen && a.lastSeen == b.lastSeen && a.confidence == b.confidence
    && forall t :: t in a.tags <==> t in b.tags
  }

  lemma SameMembers(g: seq<Sighting>, h: seq<Sighting>)
    requires multiset(g) == multiset(h)
    ensures |g| == |h| && forall s :: s in g <==> s in h
  {
    assert |g| == |multiset(g)| && |h| == |multiset(h)|;
    forall s
      ensures s in g <==> s in h
    {
      assert s in g <==> s in multiset(g);
      assert s in h <==> s in multiset(h);
    }
  }

  lemma SummariesAgree(a: Ioc, g: seq<Sighting>, b: Ioc, h: seq<Sighting>)
    requires Summary(a, g) && Summary(b, h) && Subject(a) == Subject(b) && multiset(g) == multiset(h)
    ensures Agree(a, b)
  {
    SameMembers(g, h);
  }

  lemma SightingsInAnyOrder(xs: seq<Sighting>, ys: seq<Sighting>, a: seq<Ioc>, b: seq<Ioc>)
    requires Bulk(xs, a) && Bulk(ys, b) && multiset(xs) == multiset(ys)
    ensures |a| == |b|
    ensures forall r :: r in a ==> exists q :: q in b && Agree(r, q)
  {
    hide Summary, Group, Agree;
    forall r | r in a
      ensures exists q :: q in b && Agree(r, q)
    {
      var q := Counterpart(xs, ys, a, b, r);
    }
    NoLonger(xs, ys, a, b);
    NoLonger(ys, xs, b, a);
  }

  lemma Counterpart(xs: seq<Sighting>, ys: seq<Sighting>, a: seq<Ioc>, b: seq<Ioc>, r: Ioc) returns (q: Ioc)
    requires Bulk(xs, a) && Bulk(ys, b) && multiset(xs) == multiset(ys) && r in a
    ensures q in b && Agree(r, q)
  {
    hide Group, Agree, Earliest, Latest, Surest, Union;
    var id := Subject(r);
    assert Summary(r, Group(xs, id));
    var s := Group(xs, id)[0];
    assert s in Group(xs, id);
    GroupOnly(xs, id);
    SameMembers(xs, ys);
    assert s in ys;
    q :| q in b && Subject(q) == IdOf(s);
    GroupsPermute(xs, ys, id);
    SummariesAgree(r, Group(xs, id), q, Group(ys, id));
  }

  function Subjects(result: seq<Ioc>): set<Id> {
    set r | r in result :: Subject(r)
  }

  lemma {:induction false} SubjectsCount(result: seq<Ioc>)
    requires forall i, j :: 0 <= i < j < |result| ==> Subject(result[i]) != Subject(result[j])
    ensures |Subjects(result)| == |result|
  {
    if result != [] {
      var n := |result| - 1;
      SubjectsCount(result[..n]);
      assert result == result[..n] + [result[n]];
      assert Subjects(result) == Subjects(result[..n]) + {Subject(result[n])};
    }
  }

  lemma NoLonger(xs: seq<Sighting>, ys: seq<Sighting>, a: seq<Ioc>, b: seq<Ioc>)
    requires Bulk(xs, a) && Bulk(ys, b) && multiset(xs) == multiset(ys)
    ensures |a| <= |b|
  {
    hide Summary, Group;
    SubjectsCount(a);
    SubjectsCount(b);
    forall id | id in Subjects(a)
      ensures id in Subjects(b)
    {
      var r :| r in a && Subject(r) == id;
      var q := Counterpart(xs, ys, a, b, r);
    }
    Fewer(Subjects(a), Subjects(b));
  }

  lemma {:induction false} Fewer(xs: set<Id>, ys: set<Id>)
    requires xs <= ys
    ensures |xs| <= |ys|
  {
    if xs != {} {
      var x :| x in xs;
      Fewer(xs - {x}, ys - {x});
    }
  }

  lemma {:induction false} SightingsPermute(events: seq<Event>, extract: Event -> seq<Sighting>, k: nat)
    requires k < |events|
    ensures multiset(AllSightings(events, extract))
      == multiset(extract(events[k])) + multiset(AllSightings(events[..k] + events[k + 1..], extract))
  {
    hide AllSightings;
    var n := |events| - 1;
    if k == n {
      LastSightings(events[..n], events[n], extract);
      assert events == events[..n] + [events[n]];
      assert events[..k] + events[k + 1..] == events[..n];
    } else {
      SightingsPermute(events[..n], extract, k);
      LastSightings(events[..n], events[n], extract);
      assert events == events[..n] + [events[n]];
      var fewer := events[..n][..k] + events[..n][k + 1..];
      var less := events[..k] + events[k + 1..];
      assert less == fewer + [events[n]];
      LastSightings(fewer, events[n], extract);
    }
  }

  lemma LastSightings(events: seq<Event>, last: Event, extract: Event -> seq<Sighting>)
    ensures AllSightings(events + [last], extract) == AllSightings(events, extract) + extract(last)
  {
    assert (events + [last])[..|events|] == events;
  }

  /** Permuting the events permutes the sightings. */
  lemma {:induction false} EventsPermute(xs: seq<Event>, ys: seq<Event>, extract: Event -> seq<Sighting>)
    requires multiset(xs) == multiset(ys)
    ensures multiset(AllSightings(xs, extract)) == multiset(AllSightings(ys, extract))
  {
    if xs == [] {
      SameLength(xs, ys);
    } else {
      var n := |xs| - 1;
      var k := Matching(xs, ys);
      EventsPermute(xs[..n], ys[..k] + ys[k + 1..], extract);
      SightingsPermute(ys, extract, k);
    }
  }

  lemma SameLength<T>(xs: seq<T>, ys: seq<T>)
    requires multiset(xs) == multiset(ys)
    ensures |xs| == |ys|
  {
    assert |xs| == |multiset(xs)| && |ys| == |multiset(ys)|;
  }

  /** Where the last element of one order is in the other, and what is left without it. */
  lemma Matching<T>(xs: seq<T>, ys: seq<T>) returns (k: nat)
    requires multiset(xs) == multiset(ys) && xs != []
    ensures k < |ys| && ys[k] == xs[|xs| - 1]
    ensures multiset(ys[..k] + ys[k + 1..]) == multiset(xs[..|xs| - 1])
  {
    var n := |xs| - 1;
    assert xs[n] in multiset(xs);
    assert xs[n] in multiset(ys);
    k :| 0 <= k < |ys| && ys[k] == xs[n];
    Without(ys, k);
    Without(xs, n);
    assert xs[..n] + xs[n + 1..] == xs[..n];
    CancelOne(multiset(ys[..k] + ys[k + 1..]), multiset(xs[..n]), xs[n]);
  }

  lemma Without<T>(events: seq<T>, k: nat)
    requires k < |events|
    ensures multiset(events) == multiset(events[..k] + events[k + 1..]) + multiset{events[k]}
  {
    assert events == events[..k] + [events[k]] + events[k + 1..];
  }

  lemma CancelOne<T>(a: multiset<T>, b: multiset<T>, e: T)
    requires a + multiset{e} == b + multiset{e}
    ensures a == b
  {
    assert a == a + multiset{e} - multiset{e};
    assert b == b + multiset{e} - multiset{e};
  }

  /** However the events are permuted, the same indicators come out with the same figures. */
  lemma OrderDoesNotMatter(xs: seq<Event>, ys: seq<Event>, extract: Event -> seq<Sighting>, a: seq<Ioc>, b: seq<Ioc>)
    requires Bulk(AllSightings(xs, extract), a) && Bulk(AllSightings(ys, extract), b)
    requires multiset(xs) == multiset(ys)
    ensures |a| == |b|
    ensures forall r :: r in a ==> exists q :: q in b && Agree(r, q)
  {
    hide Bulk, Agree, AllSightings;
    EventsPermute(xs, ys, extract);
    SightingsInAnyOrder(AllSightings(xs, extract), AllSightings(ys, extract), a, b);
  }
}
