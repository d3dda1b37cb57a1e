/** internal/event/processor.go (persist, buildAttacker, ipIOC) on the row merges of internal/store/pgx.go. */
module Store {
  import opened Events
  import opened Indicators

  // ---------------------------------------------------------------------------
  // The rows and their ON CONFLICT merges.

  /** A row of `attackers`, without the GeoIP columns. */
  datatype Attacker = Attacker(
    firstSeen: Time, lastSeen: Time, totalEvents: nat, totalSessions: nat,
    threatScore: int, toolFamily: Option<string>, tags: seq<string>)

  function GREATEST(a: int, b: int): int {
    if a >= b then a else b
  }

  function COALESCE(a: Option<string>, b: Option<string>): Option<string> {
    if a.Some? then a else b
  }

  function MergeAttacker(row: Attacker, excluded: Attacker): Attacker {
    Attacker(
      row.firstSeen, excluded.lastSeen,
      row.totalEvents + excluded.totalEvents, row.totalSessions + excluded.totalSessions,
      GREATEST(row.threatScore, excluded.threatScore),
      COALESCE(excluded.toolFamily, row.toolFamily), excluded.tags)
  }

  function MergeIoc(row: Ioc, excluded: Ioc): Ioc {
    row.(lastSeen := excluded.lastSeen,
         sightCount := row.sightCount + 1,
         confidence := GREATEST(row.confidence, excluded.confidence))
  }

  datatype Db = Db(attackers: map<string, Attacker>, iocs: map<Id, Ioc>)

  const EMPTY := Db(map[], map[])

  // ---------------------------------------------------------------------------
  // Tags. Both tables declare them NOT NULL, and a nil slice travels as NULL.

  /** What an upsert does with nil tags before sending them. */
  datatype NilTags = AsNull | AsEmpty

  /** UpsertAttacker replaces nil by an empty array, UpsertIOC does not. */
  const ATTACKER_TAGS := AsEmpty
  const IOC_TAGS := AsNull

  function Sent(tags: Option<seq<string>>, nil: NilTags): Option<seq<string>> {
    if tags.None? && nil.AsEmpty? then Some([]) else tags
  }

  /** The values of an upsert, tags apart; the statement is refused when the tags arrive as NULL, before
      ON CONFLICT is looked at. */
  function UpsertAttacker(db: Db, ip: string, row: Attacker, tags: Option<seq<string>>, nil: NilTags): Db {
    match Sent(tags, nil)
    case None => db
    case Some(sent) =>
      var excluded := row.(tags := sent);
      db.(attackers :=
        db.attackers[ip := if ip in db.attackers then MergeAttacker(db.attackers[ip], excluded) else excluded])
  }

  function UpsertIoc(db: Db, row: Ioc, tags: Option<seq<string>>, nil: NilTags): Db {
    match Sent(tags, nil)
    case None => db
    case Some(sent) =>
      var id, excluded := Subject(row), row.(tags := sent);
      db.(iocs := db.iocs[id := if id in db.iocs then MergeIoc(db.iocs[id], excluded) else excluded])
  }

  // ---------------------------------------------------------------------------
  // What the merges make of any rows, whoever upserts them.

  /** One address upserted with these rows, one after the other. */
  function UpsertRows(rows: seq<Attacker>, ip: string): Db {
    if rows == [] then EMPTY
    else
      var last := rows[|rows| - 1];
      UpsertAttacker(UpsertRows(rows[..|rows| - 1], ip), ip, last, Some(last.tags), ATTACKER_TAGS)
  }

  function EventSum(rows: seq<Attacker>): nat {
    if rows == [] then 0 else EventSum(rows[..|rows| - 1]) + rows[|rows| - 1].totalEvents
  }

  function SessionSum(rows: seq<Attacker>): nat {
    if rows == [] then 0 else SessionSum(rows[..|rows| - 1]) + rows[|rows| - 1].totalSessions
  }

  /** The last tool family that was not NULL. */
  function LastFamily(rows: seq<Attacker>): Option<string> {
    if rows == [] then None
    else if rows[|rows| - 1].toolFamily.Some? then rows[|rows| - 1].toolFamily
    else LastFamily(rows[..|rows| - 1])
  }

  /** The totals are sums, the score is the highest, the first time is the first row's, the last time and the
      tags are the last row's, and the tool family is the last one that was set. */
  lemma {:induction false} AttackerMerges(rows: seq<Attacker>, ip: string)
    requires rows != []
    ensures ip in UpsertRows(rows, ip).attackers
    ensures
      var row, last := UpsertRows(rows, ip).attackers[ip], rows[|rows| - 1];
      && row.totalEvents == EventSum(rows) && row.totalSessions == SessionSum(rows)
      && (forall k :: 0 <= k < |rows| ==> rows[k].threatScore <= row.threatScore)
      && (exists k :: 0 <= k < |rows| && rows[k].threatScore == row.threatScore)
      && row.firstSeen == rows[0].firstSeen && row.lastSeen == last.lastSeen && row.tags == last.tags
      && row.toolFamily == LastFamily(rows)
  {
    var n := |rows| - 1;
    var before := UpsertRows(rows[..n], ip);
    if n == 0 {
      assert rows[..0] == [];
      assert UpsertRows(rows, ip).attackers[ip] == rows[0];
      assert EventSum(rows[..0]) == 0 && SessionSum(rows[..0]) == 0 && LastFamily(rows[..0]) == None;
    } else {
      AttackerMerges(rows[..n], ip);
      var k :| 0 <= k < n && rows[..n][k].threatScore == before.attackers[ip].threatScore;
      assert rows[k] == rows[..n][k] && rows[n] == rows[|rows| - 1];
      forall j | 0 <= j < n
        ensures rows[j].threatScore <= before.attackers[ip].threatScore
      {
        assert rows[j] == rows[..n][j];
      }
    }
  }

  /** One indicator upserted with these rows, all with tags. */
  function UpsertIocs(rows: seq<Ioc>): Db {
    if rows == [] then EMPTY
    else
      var last := rows[|rows| - 1];
      UpsertIoc(UpsertIocs(rows[..|rows| - 1]), last, Some(last.tags), IOC_TAGS)
  }

  /** The first row's sight count grows by one with each further row, whatever count that row carries; the
      confidence is the highest; the last time is the last row's, everything else the first row's. */
  lemma {:induction false} IocMerges(rows: seq<Ioc>, id: Id)
    requires rows != [] && forall k :: 0 <= k < |rows| ==> Subject(rows[k]) == id
    ensures id in UpsertIocs(rows).iocs
    ensures
      var row := UpsertIocs(rows).iocs[id];
      && row.sightCount == rows[0].sightCount + |rows| - 1
      && (forall k :: 0 <= k < |rows| ==> rows[k].confidence <= row.confidence)
      && (exists k :: 0 <= k < |rows| && rows[k].confidence == row.confidence)
      && row == rows[0].(sightCount := row.sightCount, confidence := row.confidence,
                         lastSeen := rows[|rows| - 1].lastSeen)
  {
    var n := |rows| - 1;
    var before := UpsertIocs(rows[..n]);
    if n == 0 {
      assert rows[..0] == [];
      assert UpsertIocs(rows).iocs[id] == rows[0];
    } else {
      IocMerges(rows[..n], id);
      var k :| 0 <= k < n && rows[..n][k].confidence == before.iocs[id].confidence;
      assert rows[k] == rows[..n][k] && rows[n] == rows[|rows| - 1];
      forall j | 0 <= j < n
        ensures rows[j].confidence <= before.iocs[id].confidence
      {
        assert rows[j] == rows[..n][j];
      }
    }
  }

  // ---------------------------------------------------------------------------
  // What persist sends for one event. Neither row gets tags: both structs leave them nil.

  const NO_TAGS: Option<seq<string>> := None

  /** buildAttacker. An unset tool family is sent as '', not as NULL. */
  function BuildAttacker(ev: Event): Attacker {
    Attacker(ev.timestamp, ev.timestamp, 1, if ev.kind == Connect then 1 else 0, 0, Some(""), [])
  }

  const IP_CONFIDENCE := 50

  /** ipIOC, for an address worth an indicator. */
  function IpIoc(ev: Event, parse: string -> Option<Address>): Ioc
    requires parse(ev.sourceIp).Some?
  {
    Ioc(AddressKind(ev.sourceIp, parse), ev.sourceIp, ev.timestamp, ev.timestamp, 1, IP_CONFIDENCE,
        ServiceName(ev.service) + "-honeypot", [])
  }

  /** One upsert; the database executes them one at a time. */
  datatype Statement = Attack(ev: Event) | Indicate(ev: Event)

  function Statements(ev: Event, parse: string -> Option<Address>): seq<Statement> {
    [Attack(ev)] + if Public(ev.sourceIp, parse) then [Indicate(ev)] else []
  }

  function Execute(db: Db, s: Statement, parse: string -> Option<Address>, nil: NilTags): Db {
    match s
    case Attack(ev) => UpsertAttacker(db, ev.sourceIp, BuildAttacker(ev), NO_TAGS, ATTACKER_TAGS)
    case Indicate(ev) =>
      if Public(ev.sourceIp, parse) then UpsertIoc(db, IpIoc(ev, parse), NO_TAGS, nil) else db
  }

  /** The database after a run of statements that reached it, from any number of workers. With `nil` as
      IOC_TAGS this is the code; the other value is the code with the guard of UpsertAttacker in UpsertIOC. */
  function After(run: seq<Statement>, parse: string -> Option<Address>, nil: NilTags): Db {
    if run == [] then EMPTY
    else Execute(After(run[..|run| - 1], parse, nil), run[|run| - 1], parse, nil)
  }

  lemma AfterOne(run: seq<Statement>, s: Statement, parse: string -> Option<Address>, nil: NilTags)
    ensures After(run + [s], parse, nil) == Execute(After(run, parse, nil), s, parse, nil)
  {
    assert (run + [s])[..|run|] == run;
  }

  // ---------------------------------------------------------------------------
  // The processor's method.

  /** The database as the processor sees it. A call may fail before it reaches the database; the log holds
      the statements that did reach it. */
  class Database {
    var db: Db
    ghost var executed: seq<Statement>
    ghost const parse: string -> Option<Address>

    ghost predicate Valid()
      reads this
    {
      db == After(executed, parse, IOC_TAGS)
    }

    constructor (ghost parse: string -> Option<Address>)
      ensures Valid() && executed == [] && this.parse == parse
    {
      db, executed, this.parse := EMPTY, [], parse;
    }

    method Attack(ev: Event, reaches: bool)
      requires Valid()
      modifies this
      ensures Valid() && executed == old(executed) + if reaches then [Statement.Attack(ev)] else []
    {
      if reaches {
        AfterOne(executed, Statement.Attack(ev), parse, IOC_TAGS);
        db := UpsertAttacker(db, ev.sourceIp, BuildAttacker(ev), NO_TAGS, ATTACKER_TAGS);
        executed := executed + [Statement.Attack(ev)];
      }
    }

    method Indicate(ev: Event, row: Ioc, reaches: bool)
      requires Valid() && Public(ev.sourceIp, parse) && row == IpIoc(ev, parse)
      modifies this
      ensures Valid() && executed == old(executed) + if reaches then [Statement.Indicate(ev)] else []
    {
      if reaches {
        AfterOne(executed, Statement.Indicate(ev), parse, IOC_TAGS);
        db := UpsertIoc(db, row, NO_TAGS, IOC_TAGS);
        executed := executed + [Statement.Indicate(ev)];
      }
    }
  }

  /** The two upserts of persist: each failure is logged and the next call made all the same. */
  method Persist(store: Database, ev: Event, parse: string -> Option<Address>, attackReaches: bool, indicateReaches: bool)
    requires store.Valid() && store.parse == parse
    modifies store
    ensures store.Valid() && store.db.iocs == map[]
    ensures store.executed == old(store.executed) + (if attackReaches then [Attack(ev)] else [])
                              + (if indicateReaches && Public(ev.sourceIp, parse) then [Indicate(ev)] else [])
  {
    store.Attack(ev, attackReaches);
    if Public(ev.sourceIp, parse) {
      store.Indicate(ev, IpIoc(ev, parse), indicateReaches);
    }
    NoIndicatorIsStored(store.executed, parse);
  }

  // ---------------------------------------------------------------------------
  // What the rows hold after any run.

  /** The events of the attacker upserts, in the order the database executed them. */
  function Upserts(run: seq<Statement>): seq<Event> {
    if run == [] then []
    else
      var n := |run| - 1;
      Upserts(run[..n]) + if run[n].Attack? then [run[n].ev] else []
  }

  /** And those of the indicator upserts. */
  function Indications(run: seq<Statement>): seq<Event> {
    if run == [] then []
    else
      var n := |run| - 1;
      Indications(run[..n]) + if run[n].Indicate? then [run[n].ev] else []
  }

  /** The events of one address. */
  function Only(events: seq<Event>, ip: string): seq<Event> {
    if events == [] then []
    else
      var n := |events| - 1;
      Only(events[..n], ip) + if events[n].sourceIp == ip then [events[n]] else []
  }

  lemma OnlyAppend(events: seq<Event>, ev: Event, ip: string)
    ensures Only(events + [ev], ip) == if ev.sourceIp == ip then Only(events, ip) + [ev] else Only(events, ip)
  {
    assert (events + [ev])[..|events|] == events;
  }

  function Connects(events: seq<Event>): nat {
    if events == [] then 0
    else Connects(events[..|events| - 1]) + if events[|events| - 1].kind == Connect then 1 else 0
  }

  lemma ConnectsAppend(events: seq<Event>, ev: Event)
    ensures Connects(events + [ev]) == Connects(events) + if ev.kind == Connect then 1 else 0
  {
    assert (events + [ev])[..|events|] == events;
  }

  /** The attacker row as a summary of the upserts: how many, how many of connects, the first and the last. */
  ghost predicate Tallies(row: Attacker, events: seq<Event>) {
    && row.totalEvents == |events| > 0 && row.totalSessions == Connects(events)
    && row.firstSeen == events[0].timestamp && row.lastSeen == events[|events| - 1].timestamp
    && row.threatScore == 0 && row.toolFamily == Some("") && row.tags == []
  }

  /** After any run: an address has a row exactly when an upsert named it, and the row tallies those upserts. */
  lemma {:induction false} AttackerRow(run: seq<Statement>, parse: string -> Option<Address>, nil: NilTags, ip: string)
    ensures
      var db := After(run, parse, nil);
      if ip in db.attackers then Tallies(db.attackers[ip], Only(Upserts(run), ip)) else Only(Upserts(run), ip) == []
  {
    hide Tallies, Connects, Only, UpsertAttacker, UpsertIoc;
    if run == [] {
      OnlyNone(ip);
    } else {
      var n := |run| - 1;
      var before := After(run[..n], parse, nil);
      AttackerRow(run[..n], parse, nil, ip);
      if run[n].Attack? {
        OnlyAppend(Upserts(run[..n]), run[n].ev, ip);
        UpsertTallies(before, Only(Upserts(run[..n]), ip), run[n].ev, ip);
      } else {
        IndicatingLeavesAttackers(before, run[n], parse, nil);
        assert Upserts(run) == Upserts(run[..n]);
      }
    }
  }

  lemma OnlyNone(ip: string)
    ensures Only([], ip) == []
  {
  }

  lemma IndicatingLeavesAttackers(db: Db, s: Statement, parse: string -> Option<Address>, nil: NilTags)
    requires s.Indicate?
    ensures Execute(db, s, parse, nil).attackers == db.attackers
  {
  }

  lemma UpsertTallies(db: Db, events: seq<Event>, ev: Event, ip: string)
    requires if ip in db.attackers then Tallies(db.attackers[ip], events) else events == []
    ensures
      var next := UpsertAttacker(db, ev.sourceIp, BuildAttacker(ev), NO_TAGS, ATTACKER_TAGS);
      var more := if ev.sourceIp == ip then events + [ev] else events;
      if ip in next.attackers then Tallies(next.attackers[ip], more) else more == []
  {
    ConnectsAppend(events, ev);
  }

  /** No processed event ever leaves an indicator: ipIOC has no tags, and the column admits no NULL. */
  lemma {:induction false} NoIndicatorIsStored(run: seq<Statement>, parse: string -> Option<Address>)
    ensures After(run, parse, IOC_TAGS).iocs == map[]
  {
    if run != [] {
      NoIndicatorIsStored(run[..|run| - 1], parse);
    }
  }

  ghost predicate Sighted(row: Ioc, events: seq<Event>) {
    && row.sightCount == |events| > 0 && row.confidence == 50
    && row.firstSeen == events[0].timestamp && row.lastSeen == events[|events| - 1].timestamp
    && row.source == ServiceName(events[0].service) + "-honeypot" && row.tags == []
  }

  /** Were nil tags sent as an empty array, the row of a public address would count its upserts, with
      confidence 50. */
  lemma {:induction false} GuardedIocRow(run: seq<Statement>, parse: string -> Option<Address>, ip: string)
    requires Public(ip, parse)
    ensures
      var id, iocs := Id(AddressKind(ip, parse), ip), After(run, parse, AsEmpty).iocs;
      if id in iocs then Sighted(iocs[id], Only(Indications(run), ip)) && Subject(iocs[id]) == id
      else Only(Indications(run), ip) == []
  {
    hide ServiceName, Only, Public;
    if run == [] {
      OnlyNone(ip);
    } else {
      var n := |run| - 1;
      GuardedIocRow(run[..n], parse, ip);
      if run[n].Indicate? {
        OnlyAppend(Indications(run[..n]), run[n].ev, ip);
      } else {
        assert Indications(run) == Indications(run[..n]);
      }
    }
  }
}
