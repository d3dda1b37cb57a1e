/** A whole MySQL session, byte stream to byte stream, seen from the client. */
module MySqlSession {
  import opened Events
  import opened MySqlWire
  import opened MySqlClient
  import opened MySqlServer

  datatype ClientPacket = ClientPacket(sequence: byte, data: Bytes)

  /** What the server's framing carries. */
  ghost predicate Acceptable(r: ClientPacket) {
    1 <= |r.data| <= 0x10_0000
  }

  function Stream(requests: seq<ClientPacket>): Bytes {
    if requests == [] then [] else Packet(requests[0].sequence, requests[0].data) + Stream(requests[1..])
  }

  lemma ReceiveRoundTrip(r: ClientPacket, rest: Bytes)
    requires Acceptable(r)
    ensures Receive(Packet(r.sequence, r.data) + rest) == Frame(r.sequence, r.data, rest)
  {
    var stream := Packet(r.sequence, r.data) + rest;
    HeaderValue(|r.data|);
    assert stream[..3] == LittleEndian(|r.data|, 3);
    assert stream[4..4 + |r.data|] == r.data && stream[4 + |r.data|..] == rest;
  }

  /** Between 2^20 and 2^24 bytes the length still arrives, and the packet is refused. */
  lemma OversizeIsRefused(r: ClientPacket, rest: Bytes)
    requires 0x10_0000 < |r.data| < 0x100_0000
    ensures Receive(Packet(r.sequence, r.data) + rest) == TooLarge(|r.data|)
  {
    var stream := Packet(r.sequence, r.data) + rest;
    HeaderValue(|r.data|);
    assert stream[..3] == LittleEndian(|r.data|, 3);
  }

  function ReceiveMany(stream: Bytes, n: nat): Option<(seq<ClientPacket>, Bytes)> {
    if n == 0 then Some(([], stream))
    else
      match Receive(stream)
      case Frame(sequence, data, rest) =>
        (match ReceiveMany(rest, n - 1)
         case None => None
         case Some((more, after)) => Some(([ClientPacket(sequence, data)] + more, after)))
      case _ => None
  }

  /** Reading a concatenation of packets gives back the packets and leaves what follows untouched. */
  lemma {:induction false} FramingRoundTrip(requests: seq<ClientPacket>, rest: Bytes)
    requires forall k :: 0 <= k < |requests| ==> Acceptable(requests[k])
    ensures ReceiveMany(Stream(requests) + rest, |requests|) == Some((requests, rest))
  {
    if requests == [] {
      assert Stream(requests) + rest == rest;
    } else {
      var r := requests[0];
      Associate(Packet(r.sequence, r.data), Stream(requests[1..]), rest);
      ReceiveRoundTrip(r, Stream(requests[1..]) + rest);
      FramingRoundTrip(requests[1..], rest);
      assert requests == [r] + requests[1..];
    }
  }

  // ---------------------------------------------------------------------------
  // What a client asks, from the protocol documentation (section "Command Phase").

  datatype ClientRequest =
    | Quit(rest: Bytes)
    | InitDb(name: Bytes)
    | Query(text: Bytes)
    | Ping(rest: Bytes)
    | Other(code: byte, body: Bytes)

  function Encode(r: ClientRequest): Bytes {
    match r
    case Quit(rest) => [0x01] + rest
    case InitDb(name) => [0x02] + name
    case Query(text) => [0x03] + text
    case Ping(rest) => [0x0E] + rest
    case Other(code, body) => [code] + body
  }

  /** A command that is none of the four, and no quit. */
  predicate Asks(r: ClientRequest) {
    !r.Quit? && (r.Other? ==> r.code != 0x01 && r.code != 0x02 && r.code != 0x03 && r.code != 0x0E)
  }

  const DONE := OkReply(0, 0, 0x0002, 0)

  /** What the client should understand in answer. */
  function Expected(query: Bytes -> Option<QueryResult>, r: ClientRequest): Reply {
    match r
    case Query(text) =>
      (match query(text)
       case Some(res) => ResultReply(res.columns, CellRows(res.rows))
       case None => DONE)
    case Other(_, _) => ErrReply(1047, [0x30, 0x38, 0x53, 0x30, 0x31], Text("Unknown command"))
    case _ => DONE
  }

  ghost predicate Encodes(query: Bytes -> Option<QueryResult>) {
    forall text :: query(text).Some? ==> Encodable(query(text).value)
  }

  lemma ShortReplyRoundTrip(sequence: byte, payload: Bytes, rest: Bytes)
    requires 1 <= |payload| < CONTINUES && (payload[0] == 0x00 || payload[0] == 0xFF)
    ensures Expect(Packet(sequence, payload) + rest, sequence) == Got(payload, rest)
  {
    ExpectRoundTrip(sequence, payload, rest);
  }

  lemma OkRoundTrip(sequence: byte, rest: Bytes)
    ensures ParseReply(Packet(sequence, OK_PACKET) + rest, sequence) == Got(DONE, rest)
  {
    hide ParseOk, Expect, Packet;
    ShortReplyRoundTrip(sequence, OK_PACKET, rest);
    OkSays();
  }

  lemma ErrRoundTrip(sequence: byte, rest: Bytes)
    ensures ParseReply(Packet(sequence, ErrPacket(1047, UNKNOWN_STATE, UnknownText())) + rest, sequence)
      == Got(ErrReply(1047, [0x30, 0x38, 0x53, 0x30, 0x31], Text("Unknown command")), rest)
  {
    hide Expect, ParseOk, ParseResultSet, Packet;
    var payload := ErrPacket(1047, UNKNOWN_STATE, UnknownText());
    ShortReplyRoundTrip(sequence, payload, rest);
    HeaderValue(1047);
    assert payload[1..3] == LittleEndian(1047, 2);
    assert Pad(UNKNOWN_STATE) == UNKNOWN_STATE;
    assert payload[4..9] == UNKNOWN_STATE && payload[9..] == UnknownText();
  }

  lemma ResultReplyRoundTrip(sequence: byte, res: QueryResult, rest: Bytes)
    requires Encodable(res)
    ensures ParseReply(ResultSetBytes(sequence, res) + rest, Next(sequence)) == Got(Understood(res), rest)
  {
    ResultSetRoundTrip(sequence, res, rest);
    ResultSetLayout(sequence, res, rest);
    var body := [EOF_PACKET] + (RowPayloads(res.rows) + [EOF_PACKET]);
    var s1, k := Next(sequence), |res.columns|;
    ExpectRoundTrip(s1, LenEncInt(k), Packets(Next(s1), Defs(res.columns)) + (Packets(Skip(s1, k + 1), body) + rest));
  }

  /** Every reply is the right one for its request, numbered from the request's sequence number on. */
  lemma ReplyRoundTrip(query: Bytes -> Option<QueryResult>, sequence: byte, r: ClientRequest, rest: Bytes)
    requires Asks(r) && Encodes(query)
    ensures Encode(r) != []
    ensures ParseReply(ReplyBytes(query, sequence, Encode(r)) + rest, Next(sequence)) == Got(Expected(query, r), rest)
  {
    hide ParseReply, Packet, ErrPacket, ResultSetBytes, Encodable, CellRows;
    var next := Next(sequence);
    match r
    case Query(text) =>
      assert Encode(r)[1..] == text;
      if query(text).Some? {
        ResultReplyRoundTrip(sequence, query(text).value, rest);
      } else {
        OkRoundTrip(next, rest);
      }
    case Other(_, _) => ErrRoundTrip(next, rest);
    case InitDb(_) => OkRoundTrip(next, rest);
    case Ping(_) => OkRoundTrip(next, rest);
  }

  /** A request as the client numbers and sends it. */
  datatype Sent = Sent(sequence: byte, request: ClientRequest)

  function Framed(requests: seq<Sent>): seq<ClientPacket> {
    if requests == [] then []
    else [ClientPacket(requests[0].sequence, Encode(requests[0].request))] + Framed(requests[1..])
  }

  /** The client reads one reply per request. */
  function ParseReplies(stream: Bytes, requests: seq<Sent>): Parsed<seq<Reply>>
    decreases requests
  {
    if requests == [] then Got([], stream)
    else
      match ParseReply(stream, Next(requests[0].sequence))
      case Fail => Fail
      case Got(reply, rest) =>
        match ParseReplies(rest, requests[1..])
        case Fail => Fail
        case Got(replies, after) => Got([reply] + replies, after)
  }

  /** What the command loop answers: any request but a quit, of at most 2^20 bytes. */
  ghost predicate Answered(s: Sent) {
    Asks(s.request) && |Encode(s.request)| <= 0x10_0000
  }

  ghost predicate AllAnswered(requests: seq<Sent>) {
    forall k :: 0 <= k < |requests| ==> Answered(requests[k])
  }

  function ExpectedAll(query: Bytes -> Option<QueryResult>, requests: seq<Sent>): (r: seq<Reply>)
    ensures |r| == |requests|
    ensures forall k :: 0 <= k < |requests| ==> r[k] == Expected(query, requests[k].request)
  {
    if requests == [] then []
    else [Expected(query, requests[0].request)] + ExpectedAll(query, requests[1..])
  }

  /** One turn of the loop against one read of the client. */
  lemma TurnRoundTrip(query: Bytes -> Option<QueryResult>, s: Sent, later: Bytes, turns: nat)
    requires Encodes(query) && Answered(s) && turns > 0
    ensures ParseReply(ServeBytes(query, Packet(s.sequence, Encode(s.request)) + later, turns), Next(s.sequence))
      == Got(Expected(query, s.request), ServeBytes(query, later, turns - 1))
  {
    hide ParseReply, Expected, ReplyBytes, Packet, Receive, Encodes;
    var r := ClientPacket(s.sequence, Encode(s.request));
    var stream := Packet(s.sequence, r.data) + later;
    ReceiveRoundTrip(r, later);
    assert TakeTurn(query, stream) == Go(ReplyBytes(query, s.sequence, r.data), later);
    ReplyRoundTrip(query, s.sequence, s.request, ServeBytes(query, later, turns - 1));
  }

  lemma ParseFirst(stream: Bytes, requests: seq<Sent>, reply: Reply, rest: Bytes, replies: seq<Reply>)
    requires requests != [] && ParseReply(stream, Next(requests[0].sequence)) == Got(reply, rest)
    requires ParseReplies(rest, requests[1..]) == Got(replies, [])
    ensures ParseReplies(stream, requests) == Got([reply] + replies, [])
  {
  }

  lemma ExpectedFirst(query: Bytes -> Option<QueryResult>, requests: seq<Sent>)
    requires requests != [] && AllAnswered(requests)
    ensures Answered(requests[0]) && AllAnswered(requests[1..])
    ensures ExpectedAll(query, requests) == [Expected(query, requests[0].request)] + ExpectedAll(query, requests[1..])
  {
    assert Answered(requests[0]);
    forall k | 0 <= k < |requests| - 1 ensures Answered(requests[1..][k]) {
      assert Answered(requests[k + 1]);
    }
  }

  /** For any requests of a client, none of them a quit, the client gets from the command loop exactly one
      reply each, the right one, correctly numbered, and nothing else. */
  lemma {:induction false} SessionRoundTrip(query: Bytes -> Option<QueryResult>, requests: seq<Sent>, turns: nat)
    requires Encodes(query) && |requests| <= turns && AllAnswered(requests)
    ensures ParseReplies(ServeBytes(query, Stream(Framed(requests)), turns), requests)
      == Got(ExpectedAll(query, requests), [])
    decreases requests
  {
    hide *;
    if requests == [] {
      NoRequests(query, requests, turns);
    } else {
      ExpectedFirst(query, requests);
      FirstTurn(query, requests, turns);
      SessionRoundTrip(query, requests[1..], turns - 1);
      ParseFirst(ServeBytes(query, Stream(Framed(requests)), turns), requests, Expected(query, requests[0].request),
                 ServeBytes(query, Stream(Framed(requests[1..])), turns - 1), ExpectedAll(query, requests[1..]));
    }
  }

  lemma FirstTurn(query: Bytes -> Option<QueryResult>, requests: seq<Sent>, turns: nat)
    requires Encodes(query) && requests != [] && Answered(requests[0]) && turns > 0
    ensures ParseReply(ServeBytes(query, Stream(Framed(requests)), turns), Next(requests[0].sequence))
      == Got(Expected(query, requests[0].request), ServeBytes(query, Stream(Framed(requests[1..])), turns - 1))
  {
    hide ParseReply, ServeBytes, Packet, Encode, Expected, Answered, Encodes;
    var s, later := requests[0], Stream(Framed(requests[1..]));
    assert Framed(requests)[0] == ClientPacket(s.sequence, Encode(s.request));
    assert Framed(requests)[1..] == Framed(requests[1..]);
    assert Stream(Framed(requests)) == Packet(s.sequence, Encode(s.request)) + later;
    TurnRoundTrip(query, s, later, turns);
  }

  lemma NoRequests(query: Bytes -> Option<QueryResult>, requests: seq<Sent>, turns: nat)
    requires requests == [] && AllAnswered(requests)
    ensures ParseReplies(ServeBytes(query, Stream(Framed(requests)), turns), requests)
      == Got(ExpectedAll(query, requests), [])
  {
    assert Receive(Stream(Framed(requests))) == Eof;
    assert ServeBytes(query, Stream(Framed(requests)), turns) == [];
    assert ExpectedAll(query, requests) == [];
  }

  /** A quit, an empty packet or one of more than 2^20 bytes ends the loop without a reply. */
  lemma SilentEnd(query: Bytes -> Option<QueryResult>, r: ClientPacket, rest: Bytes, turns: nat)
    requires |r.data| < 0x100_0000
    requires r.data == [] || |r.data| > 0x10_0000 || r.data[0] == 0x01
    ensures ServeBytes(query, Packet(r.sequence, r.data) + rest, turns) == []
  {
    if |r.data| > 0x10_0000 {
      OversizeIsRefused(r, rest);
    } else if r.data != [] {
      ReceiveRoundTrip(r, rest);
    } else {
      HeaderValue(0);
      assert (Packet(r.sequence, r.data) + rest)[..3] == LittleEndian(0, 3);
    }
  }

  /** So a client's quit ends the session. */
  lemma QuitEnds(query: Bytes -> Option<QueryResult>, sequence: byte, tail: Bytes, rest: Bytes, turns: nat)
    requires |Encode(Quit(tail))| < 0x100_0000
    ensures ServeBytes(query, Packet(sequence, Encode(Quit(tail))) + rest, turns) == []
  {
    hide ServeBytes, Packet;
    SilentEnd(query, ClientPacket(sequence, Encode(Quit(tail))), rest, turns);
  }

  /** From the first byte: the client reads the greeting, numbered 0, sends its authentication packet, is
      told OK under the next number, and is then in the command loop. */
  lemma HandshakeRoundTrip(
      query: Bytes -> Option<QueryResult>, greeting: Bytes, sequence: byte, auth: Bytes, rest: Bytes, turns: nat)
    requires |greeting| < CONTINUES && 1 <= |auth| <= 0x10_0000
    ensures
      var sent := SessionBytes(query, greeting, Packet(sequence, auth) + rest, turns);
      && ReadMessage(sent).Some? && ReadMessage(sent).value.sequence == 0 && ReadMessage(sent).value.payload == greeting
      && ParseReply(ReadMessage(sent).value.rest, Next(sequence)) == Got(DONE, ServeBytes(query, rest, turns))
  {
    hide ServeBytes, ParseReply, ReadMessage, Packet, Receive;
    MessageRoundTrip(0, greeting, AfterGreeting(query, Packet(sequence, auth) + rest, turns));
    ReceiveRoundTrip(ClientPacket(sequence, auth), rest);
    OkRoundTrip(Next(sequence), ServeBytes(query, rest, turns));
  }

  // ---------------------------------------------------------------------------
  // Which canned answer a query gets. `upper` is the trimmed, upper-cased text.

  function Table1(column: string, values: seq<string>): Option<QueryResult> {
    Some(QueryResult([Text(column)], Column1(values)))
  }

  function Column1(values: seq<string>): seq<Row> {
    seq(|values|, i requires 0 <= i < |values| => [Text(values[i])])
  }

  lemma {:induction false} RowsOfOne(values: seq<string>)
    ensures SingleRows(values) == Column1(values)
  {
    if values != [] {
      RowsOfOne(values[1..]);
    }
  }

  lemma FirstAnswers(upper: string)
    ensures "SELECT @@VERSION" <= upper ==> HandleQuery(upper) == Table1("@@version_comment", ["(Ubuntu)"])
    ensures "SELECT DATABASE" <= upper ==> HandleQuery(upper) == Table1("database()", ["mysql"])
    ensures "SELECT USER" <= upper ==> HandleQuery(upper) == Table1("user()", ["root@localhost"])
  {
    hide Contains, Text, SingleRows, Column1, Pairs;
    RowsOfOne(["(Ubuntu)"]);
    RowsOfOne(["mysql"]);
    RowsOfOne(["root@localhost"]);
    if "SELECT USER" <= upper {
      assert upper[7] == 'U';
      assert "SELECT @@VERSION"[7] == '@' && "SELECT DATABASE"[7] == 'D';
    }
    if "SELECT DATABASE" <= upper {
      assert upper[7] == 'D';
      assert "SELECT @@VERSION"[7] == '@';
    }
  }

  lemma ListAnswers()
    ensures HandleQuery("SHOW DATABASES") ==
      Table1("Database", ["information_schema", "mysql", "performance_schema", "sys"])
    ensures HandleQuery("SHOW TABLES") ==
      Table1("Tables_in_mysql", ["columns_priv", "db", "event", "func", "general_log", "help_category", "user"])
  {
    hide Contains, Text, SingleRows, Column1, Pairs;
    RowsOfOne(["information_schema", "mysql", "performance_schema", "sys"]);
    RowsOfOne(["columns_priv", "db", "event", "func", "general_log", "help_category", "user"]);
    assert "SHOW DATABASES"[5] == 'D' && "SHOW TABLES"[5] == 'T';
    assert "SELECT @@VERSION"[1] == 'E' && "SELECT DATABASE"[1] == 'E' && "SELECT USER"[1] == 'E';
  }

  /** Any other query that names INFORMATION_SCHEMA gets an empty table. */
  lemma SchemaAnswer(upper: string, i: nat)
    requires i <= |upper| && "INFORMATION_SCHEMA" <= upper[i..]
    requires !("SELECT @@VERSION" <= upper) && !("SELECT DATABASE" <= upper) && !("SELECT USER" <= upper)
    ensures HandleQuery(upper) == Table1("TABLE_NAME", [])
  {
    hide Text, SingleRows, Column1, Pairs;
    RowsOfOne([]);
    assert OccursAt(upper, "INFORMATION_SCHEMA", i);
    assert |upper| >= 18 && "SHOW DATABASES" != upper && "SHOW TABLES" != upper;
  }

  ghost predicate NamesNoSchema(upper: string) {
    forall i :: 0 <= i <= |upper| ==> !("INFORMATION_SCHEMA" <= upper[i..])
  }

  lemma NoSchemaOccurs(upper: string)
    requires NamesNoSchema(upper)
    ensures !Contains(upper, "INFORMATION_SCHEMA")
  {
  }

  lemma LastAnswers(upper: string)
    requires NamesNoSchema(upper)
    ensures "SELECT @@DATADIR" <= upper ==> HandleQuery(upper) == Table1("@@datadir", ["/var/lib/mysql/"])
    ensures "SELECT @@HOSTNAME" <= upper ==> HandleQuery(upper) == Table1("@@hostname", ["ubuntu-server"])
  {
    hide Contains, Text, SingleRows, Column1, Pairs, NamesNoSchema;
    NoSchemaOccurs(upper);
    RowsOfOne(["/var/lib/mysql/"]);
    RowsOfOne(["ubuntu-server"]);
    if "SELECT @@DATADIR" <= upper || "SELECT @@HOSTNAME" <= upper {
      assert upper[1] == 'E' && upper[7] == '@' && (upper[9] == 'D' || upper[9] == 'H');
      assert "SELECT @@VERSION"[9] == 'V' && "SELECT DATABASE"[7] == 'D' && "SELECT USER"[7] == 'U';
      assert "SHOW DATABASES"[1] == 'H' && "SHOW TABLES"[1] == 'H';
    }
    if "SELECT @@HOSTNAME" <= upper {
      assert "SELECT @@DATADIR"[9] == 'D' && upper[9] == 'H';
    }
  }

  lemma VariablesAnswer(upper: string)
    requires "SHOW VARIABLES" <= upper && NamesNoSchema(upper)
    ensures HandleQuery(upper) ==
      Some(QueryResult(
        [Text("Variable_name"), Text("Value")],
        [[Text("version"), Text("5.7.42-0ubuntu0.18.04.1")], [Text("datadir"), Text("/var/lib/mysql/")],
         [Text("hostname"), Text("ubuntu-server")], [Text("port"), Text("3306")]]))
  {
    hide Contains, Text, SingleRows, NamesNoSchema;
    NoSchemaOccurs(upper);
    assert upper[1] == 'H' && upper[5] == 'V';
    assert "SHOW DATABASES"[5] == 'D' && "SHOW TABLES"[5] == 'T';
    assert "SELECT @@VERSION"[1] == 'E' && "SELECT DATABASE"[1] == 'E' && "SELECT USER"[1] == 'E';
    assert "SELECT @@DATADIR"[1] == 'E' && "SELECT @@HOSTNAME"[1] == 'E';
    FourPairs(("version", "5.7.42-0ubuntu0.18.04.1"), ("datadir", "/var/lib/mysql/"),
              ("hostname", "ubuntu-server"), ("port", "3306"));
  }

  lemma FourPairs(a: (string, string), b: (string, string), c: (string, string), d: (string, string))
    ensures Pairs([a, b, c, d]) ==
      [[Text(a.0), Text(a.1)], [Text(b.0), Text(b.1)], [Text(c.0), Text(c.1)], [Text(d.0), Text(d.1)]]
  {
    hide Text;
    assert [a, b, c, d][1..] == [b, c, d] && [b, c, d][1..] == [c, d] && [c, d][1..] == [d] && [d][1..] == [];
    assert Pairs([d]) == [[Text(d.0), Text(d.1)]] + Pairs([d][1..]);
    assert Pairs([c, d]) == [[Text(c.0), Text(c.1)]] + Pairs([c, d][1..]);
    assert Pairs([b, c, d]) == [[Text(b.0), Text(b.1)]] + Pairs([b, c, d][1..]);
    assert Pairs([a, b, c, d]) == [[Text(a.0), Text(a.1)]] + Pairs([a, b, c, d][1..]);
  }

  /** And every other query is simply acknowledged. */
  lemma NoAnswer(upper: string)
    requires !("SELECT @@VERSION" <= upper) && !("SELECT DATABASE" <= upper) && !("SELECT USER" <= upper)
    requires upper != "SHOW DATABASES" && upper != "SHOW TABLES" && NamesNoSchema(upper)
    requires !("SELECT @@DATADIR" <= upper) && !("SELECT @@HOSTNAME" <= upper) && !("SHOW VARIABLES" <= upper)
    ensures HandleQuery(upper) == None
  {
    hide Contains, NamesNoSchema;
    NoSchemaOccurs(upper);
  }

  // ---------------------------------------------------------------------------
  // Every canned answer fits the wire.

  ghost predicate Short(s: string) {
    |s| < 1000
  }

  lemma ShortColumn(name: Bytes)
    requires |name| < 1000
    ensures |ColumnDef(name)| < CONTINUES
  {
  }

  lemma {:induction false} SingleEncodable(column: string, values: seq<string>)
    requires Short(column) && forall k :: 0 <= k < |values| ==> Short(values[k])
    ensures Encodable(Single(column, values))
  {
    ShortColumn(Text(column));
    SingleRowsFit(values);
  }

  lemma {:induction false} SingleRowsFit(values: seq<string>)
    requires forall k :: 0 <= k < |values| ==> Short(values[k])
    ensures forall i :: 0 <= i < |SingleRows(values)| ==>
      |SingleRows(values)[i]| == 1 && |RowBytes(SingleRows(values)[i])| < CONTINUES
  {
    if values != [] {
      SingleRowsFit(values[1..]);
      var row := [Text(values[0])];
      assert row[1..] == [];
      assert RowBytes(row) == LenEncString(row[0]) + RowBytes(row[1..]);
    }
  }

  lemma {:induction false} PairsFit(values: seq<(string, string)>)
    requires forall k :: 0 <= k < |values| ==> Short(values[k].0) && Short(values[k].1)
    ensures forall i :: 0 <= i < |Pairs(values)| ==>
      |Pairs(values)[i]| == 2 && |RowBytes(Pairs(values)[i])| < CONTINUES
  {
    if values != [] {
      PairsFit(values[1..]);
      var row := [Text(values[0].0), Text(values[0].1)];
      assert row[1..] == [Text(values[0].1)] && row[1..][1..] == [];
      assert RowBytes(row[1..]) == LenEncString(row[1]) + RowBytes(row[1..][1..]);
      assert RowBytes(row) == LenEncString(row[0]) + RowBytes(row[1..]);
    }
  }

  lemma SingleTopicsFit(topic: Topic)
    requires topic != Variables
    ensures Encodable(Canned(topic))
  {
    match topic
    case Version => SingleEncodable("@@version_comment", ["(Ubuntu)"]);
    case CurrentDatabase => SingleEncodable("database()", ["mysql"]);
    case User => SingleEncodable("user()", ["root@localhost"]);
    case Databases => SingleEncodable("Database", ["information_schema", "mysql", "performance_schema", "sys"]);
    case Tables =>
      SingleEncodable("Tables_in_mysql",
                      ["columns_priv", "db", "event", "func", "general_log", "help_category", "user"]);
    case Schema => SingleEncodable("TABLE_NAME", []);
    case DataDir => SingleEncodable("@@datadir", ["/var/lib/mysql/"]);
    case HostName => SingleEncodable("@@hostname", ["ubuntu-server"]);
  }

  lemma VariablesFit()
    ensures Encodable(Canned(Variables))
  {
    ShortColumn(Text("Variable_name"));
    ShortColumn(Text("Value"));
    PairsFit([("version", "5.7.42-0ubuntu0.18.04.1"), ("datadir", "/var/lib/mysql/"),
              ("hostname", "ubuntu-server"), ("port", "3306")]);
  }

  /** Whatever the query text, a canned result set reaches the client intact. */
  lemma HandleQueryEncodable(upper: string)
    ensures HandleQuery(upper).Some? ==> Encodable(HandleQuery(upper).value)
  {
    if TopicOf(upper).Some? {
      var topic := TopicOf(upper).value;
      if topic == Variables { VariablesFit(); } else { SingleTopicsFit(topic); }
    }
  }
}
