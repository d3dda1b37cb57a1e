/** internal/mysqld: the connection loop over a byte stream, and its methods on a connection that may
    stop taking bytes. */
module MySqlServer {
  import opened Events
  import opened MySqlWire
  import opened MySqlClient

  // ---------------------------------------------------------------------------
  // What the server reads and answers, as functions of the bytes received.

  const MAX_REQUEST: nat := 0x10_0000

  datatype Inbound = Eof | TooLarge(length: nat) | Frame(sequence: byte, payload: Bytes, rest: Bytes)

  function Receive(stream: Bytes): Inbound {
    if |stream| < 4 then Eof
    else
      var length := Value(stream[..3]);
      if length == 0 then Frame(stream[3], [], stream[4..])
      else if length > MAX_REQUEST then TooLarge(length)
      else if |stream| < 4 + length then Eof
      else Frame(stream[3], stream[4..4 + length], stream[4 + length..])
  }

  const COM_QUIT: byte := 0x01
  const COM_INIT_DB: byte := 0x02
  const COM_QUERY: byte := 0x03
  const COM_PING: byte := 0x0E

  const UNKNOWN_STATE: Bytes := [0x30, 0x38, 0x53, 0x30, 0x31]

  function UnknownText(): Bytes {
    Text("Unknown command")
  }

  function ReplyBytes(query: Bytes -> Option<QueryResult>, sequence: byte, data: Bytes): Bytes
    requires data != []
  {
    if data[0] == COM_PING || data[0] == COM_INIT_DB then Packet(Next(sequence), OK_PACKET)
    else if data[0] == COM_QUERY then
      match query(data[1..])
      case Some(res) => ResultSetBytes(sequence, res)
      case None => Packet(Next(sequence), OK_PACKET)
    else Packet(Next(sequence), ErrPacket(1047, UNKNOWN_STATE, UnknownText()))
  }

  datatype Turn = Stop | Go(reply: Bytes, rest: Bytes)

  /** One turn of the command loop. */
  function TakeTurn(query: Bytes -> Option<QueryResult>, stream: Bytes): Turn {
    match Receive(stream)
    case Frame(sequence, data, rest) =>
      if data == [] || data[0] == COM_QUIT then Stop else Go(ReplyBytes(query, sequence, data), rest)
    case _ => Stop
  }

  /** Everything the command loop writes; the context lets it take `turns` turns. */
  function ServeBytes(query: Bytes -> Option<QueryResult>, stream: Bytes, turns: nat): Bytes {
    if turns == 0 then []
    else
      match TakeTurn(query, stream)
      case Stop => []
      case Go(reply, rest) => reply + ServeBytes(query, rest, turns - 1)
  }

  function AfterGreeting(query: Bytes -> Option<QueryResult>, stream: Bytes, turns: nat): Bytes {
    match Receive(stream)
    case Frame(sequence, _, rest) => Packet(Next(sequence), OK_PACKET) + ServeBytes(query, rest, turns)
    case _ => []
  }

  function SessionBytes(query: Bytes -> Option<QueryResult>, greeting: Bytes, stream: Bytes, turns: nat): Bytes {
    Packet(0, greeting) + AfterGreeting(query, stream, turns)
  }

  // ---------------------------------------------------------------------------
  // The methods.

  /** A connection: bytes still to be read, bytes written, and how many more the peer will take. */
  class Conn {
    var inbound: Bytes
    var outbound: Bytes
    var room: nat

    constructor (inbound: Bytes, room: nat)
      ensures this.inbound == inbound && outbound == [] && this.room == room
    {
      this.inbound, outbound, this.room := inbound, [], room;
    }

    /** `data` was written after `base`, all of it or as much as `space` allowed. */
    ghost predicate Sent(base: Bytes, space: nat, data: Bytes)
      reads this
    {
      Holds(outbound, room, base, space, data)
    }

    method Write(data: Bytes) returns (ok: bool)
      modifies this`outbound, this`room
      ensures Sent(old(outbound), old(room), data) && ok == (|data| <= old(room))
    {
      var n := Fits(data, room);
      outbound, room := outbound + data[..n], room - n;
      ok := n == |data|;
    }

    /** `io.ReadFull` of n bytes. */
    method ReadFull(n: nat) returns (ok: bool, data: Bytes)
      modifies this`inbound
      ensures ok == (n <= |old(inbound)|)
      ensures ok ==> data == old(inbound)[..n] && inbound == old(inbound)[n..]
    {
      ok := n <= |inbound|;
      data := [];
      if ok {
        data, inbound := inbound[..n], inbound[n..];
      } else {
        inbound := [];
      }
    }
  }

  function Fits(data: Bytes, room: nat): nat {
    if |data| <= room then |data| else room
  }

  ghost predicate Holds(out: Bytes, room: nat, base: Bytes, space: nat, data: Bytes) {
    out == base + data[..Fits(data, space)] && room == space - Fits(data, space)
  }

  /** Writing two pieces one after the other is writing their concatenation. */
  lemma HoldsJoin(out1: Bytes, room1: nat, out2: Bytes, room2: nat, base: Bytes, space: nat, a: Bytes, b: Bytes)
    requires Holds(out1, room1, base, space, a) && Holds(out2, room2, out1, room1, b)
    ensures Holds(out2, room2, base, space, a + b)
  {
    assert a[..Fits(a, space)] + b[..Fits(b, room1)] == (a + b)[..Fits(a + b, space)];
  }

  /** Once something did not fit, nothing after it is written, and nobody can tell. */
  lemma HoldsCut(out: Bytes, room: nat, base: Bytes, space: nat, part: Bytes, total: Bytes)
    requires Holds(out, room, base, space, part) && space < |part| && part <= total
    ensures Holds(out, room, base, space, total)
  {
  }

  method WritePacket(conn: Conn, sequence: byte, data: Bytes) returns (ok: bool)
    modifies conn`outbound, conn`room
    ensures conn.Sent(old(conn.outbound), old(conn.room), Packet(sequence, data))
    ensures ok == (|Packet(sequence, data)| <= old(conn.room))
  {
    var header := new byte[4];
    header[0] := Byte(|data|);
    header[1] := Byte(|data| / 256);
    header[2] := Byte(|data| / 256 / 256);
    header[3] := sequence;
    HeaderBytes(|data|);
    assert header[..] == LittleEndian(|data|, 3) + [sequence];
    ok := conn.Write(header[..] + data);
  }

  lemma HeaderBytes(n: nat)
    ensures LittleEndian(n, 3) == [Byte(n), Byte(n / 256), Byte(n / 256 / 256)]
  {
    assert LittleEndian(n / 256 / 256, 1) == [Byte(n / 256 / 256)] + LittleEndian(n / 256 / 256 / 256, 0);
    assert LittleEndian(n / 256, 2) == [Byte(n / 256)] + LittleEndian(n / 256 / 256, 1);
  }

  method ReadPacket(conn: Conn) returns (result: Inbound)
    modifies conn`inbound
    ensures result == Receive(old(conn.inbound))
    ensures result.Frame? ==> conn.inbound == result.rest
  {
    var ok, header := conn.ReadFull(4);
    if !ok {
      return Eof;
    }
    assert header[..3] == old(conn.inbound)[..3];
    var length := Value(header[..3]);
    if length == 0 {
      return Frame(header[3], [], conn.inbound);
    }
    if length > MAX_REQUEST {
      return TooLarge(length);
    }
    var payload: Bytes;
    ok, payload := conn.ReadFull(length);
    if !ok {
      return Eof;
    }
    return Frame(header[3], payload, conn.inbound);
  }

  lemma {:induction false} NthPacket(first: byte, all: seq<Bytes>, m: nat)
    requires m < |all|
    ensures Packets(first, all[..m + 1]) == Packets(first, all[..m]) + Packet(Skip(first, m), all[m])
    ensures Packets(first, all[..m + 1]) + Packets(Skip(first, m + 1), all[m + 1..]) == Packets(first, all)
  {
    PacketsAppend(first, all[..m + 1], all[m + 1..]);
    assert all[..m + 1] + all[m + 1..] == all;
    PacketsAppend(first, all[..m], [all[m]]);
    assert all[..m] + [all[m]] == all[..m + 1];
    assert Packets(Skip(first, m), [all[m]]) == Packet(Skip(first, m), all[m]);
  }

  /** The first m of a numbered sequence of packets are out in full. */
  ghost predicate OutSoFar(conn: Conn, base: Bytes, space: nat, first: byte, all: seq<Bytes>, m: nat)
    reads conn
  {
    m <= |all| && conn.Sent(base, space, Packets(first, all[..m])) && |Packets(first, all[..m])| <= space
  }

  /** The whole sequence was cut off for want of room. */
  ghost predicate OutCut(conn: Conn, base: Bytes, space: nat, first: byte, all: seq<Bytes>)
    reads conn
  {
    conn.Sent(base, space, Packets(first, all)) && |Packets(first, all)| > space
  }

  /** Packet m, when the first m are already out in full. */
  method WriteNth(conn: Conn, sequence: byte, data: Bytes,
                  ghost base: Bytes, ghost space: nat, ghost first: byte, ghost all: seq<Bytes>, ghost m: nat)
    returns (ok: bool)
    requires OutSoFar(conn, base, space, first, all, m) && m < |all|
    requires data == all[m] && sequence == Skip(first, m)
    modifies conn`outbound, conn`room
    ensures if ok then OutSoFar(conn, base, space, first, all, m + 1) else OutCut(conn, base, space, first, all)
  {
    NthPacket(first, all, m);
    ghost var out, room := conn.outbound, conn.room;
    ok := WritePacket(conn, sequence, data);
    HoldsJoin(out, room, conn.outbound, conn.room, base, space, Packets(first, all[..m]), Packet(sequence, data));
    if !ok {
      HoldsCut(conn.outbound, conn.room, base, space, Packets(first, all[..m + 1]), Packets(first, all));
    }
  }

  ghost predicate ListsColumns(all: seq<Bytes>, m: nat, columns: seq<Bytes>) {
    m + |columns| <= |all| && forall i :: m <= i < m + |columns| ==> all[i] == ColumnDef(columns[i - m])
  }

  ghost predicate ListsRows(all: seq<Bytes>, m: nat, rows: seq<Row>) {
    m + |rows| <= |all| && forall i :: m <= i < m + |rows| ==> all[i] == RowBytes(rows[i - m])
  }

  lemma ResultPayloadAt(res: QueryResult)
    ensures
      var all, n := ResultPayloads(res), |res.columns|;
      && |all| == n + |res.rows| + 3
      && all[0] == LenEncInt(n) && all[n + 1] == EOF_PACKET && all[n + 2 + |res.rows|] == EOF_PACKET
      && ListsColumns(all, 1, res.columns) && ListsRows(all, n + 2, res.rows)
  {
    var all, n := ResultPayloads(res), |res.columns|;
    var defs, rows := Defs(res.columns), RowPayloads(res.rows);
    forall i | 1 <= i < 1 + n
      ensures all[i] == ColumnDef(res.columns[i - 1])
    {
      assert all[i] == defs[i - 1];
      DefsAt(res.columns, i - 1);
    }
    forall i | n + 2 <= i < n + 2 + |res.rows|
      ensures all[i] == RowBytes(res.rows[i - (n + 2)])
    {
      assert all[i] == rows[i - (n + 2)];
      RowPayloadsAt(res.rows, i - (n + 2));
    }
  }

  /** Writes stop at the first error, which leaves a prefix of the result set on the wire. */
  method WriteResultSet(conn: Conn, sequence: byte, res: QueryResult) returns (ok: bool)
    modifies conn`outbound, conn`room
    ensures conn.Sent(old(conn.outbound), old(conn.room), ResultSetBytes(sequence, res))
    ensures ok == (|ResultSetBytes(sequence, res)| <= old(conn.room))
  {
    ghost var base, space, first, all := conn.outbound, conn.room, Next(sequence), ResultPayloads(res);
    ResultPayloadAt(res);
    assert all[..|all|] == all;
    var number: byte;
    number, ok := WriteHead(conn, Next(sequence), res.columns, base, space, first, all);
    if ok {
      ok := WriteTail(conn, number, res.rows, base, space, first, all, |res.columns| + 2);
    }
  }

  /** The column count, the column definitions and their EOF packet. */
  method WriteHead(conn: Conn, sequence: byte, columns: seq<Bytes>,
                   ghost base: Bytes, ghost space: nat, ghost first: byte, ghost all: seq<Bytes>)
    returns (number: byte, ok: bool)
    requires OutSoFar(conn, base, space, first, all, 0) && sequence == first && |columns| + 2 <= |all|
    requires all[0] == LenEncInt(|columns|) && ListsColumns(all, 1, columns) && all[|columns| + 1] == EOF_PACKET
    modifies conn`outbound, conn`room
    ensures if ok then OutSoFar(conn, base, space, first, all, |columns| + 2) && number == Skip(first, |columns| + 1)
            else OutCut(conn, base, space, first, all)
  {
    number := sequence;
    ok := WriteNth(conn, number, LenEncInt(|columns|), base, space, first, all, 0);
    if !ok { return; }
    number, ok := WriteColumns(conn, number, columns, base, space, first, all);
    if !ok { return; }
    number := Next(number);
    ok := WriteNth(conn, number, EOF_PACKET, base, space, first, all, |columns| + 1);
  }

  /** The rows and the final EOF packet. */
  method WriteTail(conn: Conn, sequence: byte, rows: seq<Row>,
                   ghost base: Bytes, ghost space: nat, ghost first: byte, ghost all: seq<Bytes>, ghost m: nat)
    returns (ok: bool)
    requires OutSoFar(conn, base, space, first, all, m) && m > 0 && sequence == Skip(first, m - 1)
    requires |all| == m + |rows| + 1 && ListsRows(all, m, rows) && all[m + |rows|] == EOF_PACKET
    modifies conn`outbound, conn`room
    ensures if ok then OutSoFar(conn, base, space, first, all, |all|) else OutCut(conn, base, space, first, all)
  {
    var number: byte;
    number, ok := WriteRows(conn, sequence, rows, base, space, first, all, m);
    if !ok { return; }
    number := Next(number);
    ok := WriteNth(conn, number, EOF_PACKET, base, space, first, all, m + |rows|);
  }

  method WriteColumns(conn: Conn, sequence: byte, columns: seq<Bytes>,
                      ghost base: Bytes, ghost space: nat, ghost first: byte, ghost all: seq<Bytes>)
    returns (number: byte, ok: bool)
    requires OutSoFar(conn, base, space, first, all, 1) && sequence == first
    requires ListsColumns(all, 1, columns)
    modifies conn`outbound, conn`room
    ensures if ok then OutSoFar(conn, base, space, first, all, 1 + |columns|) && number == Skip(first, |columns|)
            else OutCut(conn, base, space, first, all)
  {
    hide ColumnDef, Packets, Holds, Conn.Sent;
    number, ok := sequence, true;
    for k := 0 to |columns|
      invariant ok && number == Skip(first, k)
      invariant OutSoFar(conn, base, space, first, all, 1 + k)
    {
      number := Next(number);
      ok := WriteNth(conn, number, ColumnDef(columns[k]), base, space, first, all, 1 + k);
      if !ok { return; }
    }
  }

  method WriteRows(conn: Conn, sequence: byte, rows: seq<Row>,
                   ghost base: Bytes, ghost space: nat, ghost first: byte, ghost all: seq<Bytes>, ghost m: nat)
    returns (number: byte, ok: bool)
    requires OutSoFar(conn, base, space, first, all, m) && m > 0 && sequence == Skip(first, m - 1)
    requires ListsRows(all, m, rows)
    modifies conn`outbound, conn`room
    ensures if ok then OutSoFar(conn, base, space, first, all, m + |rows|) && number == Skip(first, m - 1 + |rows|)
            else OutCut(conn, base, space, first, all)
  {
    hide RowBytes, Packets, Holds, Conn.Sent;
    number, ok := sequence, true;
    for k := 0 to |rows|
      invariant ok && number == Skip(first, m - 1 + k)
      invariant OutSoFar(conn, base, space, first, all, m + k)
    {
      number := Next(number);
      ok := WriteRow(conn, number, rows[k], base, space, first, all, m + k);
      if !ok { return; }
    }
  }

  method WriteRow(conn: Conn, sequence: byte, row: Row,
                  ghost base: Bytes, ghost space: nat, ghost first: byte, ghost all: seq<Bytes>, ghost m: nat)
    returns (ok: bool)
    requires OutSoFar(conn, base, space, first, all, m) && m < |all|
    requires all[m] == RowBytes(row) && sequence == Skip(first, m)
    modifies conn`outbound, conn`room
    ensures if ok then OutSoFar(conn, base, space, first, all, m + 1) else OutCut(conn, base, space, first, all)
  {
    var rowBuf := RowBuffer(row);
    ok := WriteNth(conn, sequence, rowBuf, base, space, first, all, m);
  }

  method RowBuffer(row: Row) returns (rowBuf: Bytes)
    ensures rowBuf == RowBytes(row)
  {
    rowBuf := [];
    for k := 0 to |row|
      invariant rowBuf + RowBytes(row[k..]) == RowBytes(row)
    {
      rowBuf := rowBuf + LenEncString(row[k]);
      assert row[k..][1..] == row[k + 1..];
    }
  }

  lemma {:induction false} DefsAt(columns: seq<Bytes>, k: nat)
    requires k < |columns|
    ensures Defs(columns)[k] == ColumnDef(columns[k])
  {
    if k > 0 {
      DefsAt(columns[1..], k - 1);
    }
  }

  lemma {:induction false} RowPayloadsAt(rows: seq<Row>, k: nat)
    requires k < |rows|
    ensures RowPayloads(rows)[k] == RowBytes(rows[k])
  {
    if k > 0 {
      RowPayloadsAt(rows[1..], k - 1);
    }
  }

  /** One turn's reply; a failed write is not noticed, but then the peer takes nothing more either. */
  method Answer(conn: Conn, query: Bytes -> Option<QueryResult>, sequence: byte, data: Bytes)
    requires data != [] && data[0] != COM_QUIT
    modifies conn`outbound, conn`room
    ensures conn.Sent(old(conn.outbound), old(conn.room), ReplyBytes(query, sequence, data))
  {
    var cmd := data[0];
    var ignored: bool;
    if cmd == COM_PING || cmd == COM_INIT_DB {
      ignored := WritePacket(conn, Next(sequence), OK_PACKET);
    } else if cmd == COM_QUERY {
      var result := query(data[1..]);
      if result.Some? {
        ignored := WriteResultSet(conn, sequence, result.value);
      } else {
        ignored := WritePacket(conn, Next(sequence), OK_PACKET);
      }
    } else {
      ignored := WritePacket(conn, Next(sequence), ErrPacket(1047, UNKNOWN_STATE, UnknownText()));
    }
  }

  /** One turn, after `done` was sent. */
  method AnswerOne(conn: Conn, query: Bytes -> Option<QueryResult>, ghost base: Bytes, ghost space: nat, ghost done: Bytes)
    returns (more: bool)
    requires conn.Sent(base, space, done)
    modifies conn
    ensures match TakeTurn(query, old(conn.inbound))
      case Stop => !more && conn.Sent(base, space, done)
      case Go(reply, rest) => more && conn.inbound == rest && conn.Sent(base, space, done + reply)
  {
    ghost var out, room := conn.outbound, conn.room;
    var request := ReadPacket(conn);
    more := request.Frame? && request.payload != [] && request.payload[0] != COM_QUIT;
    if more {
      Answer(conn, query, request.sequence, request.payload);
      HoldsJoin(out, room, conn.outbound, conn.room, base, space, done,
                ReplyBytes(query, request.sequence, request.payload));
    }
  }

  lemma ServeStep(query: Bytes -> Option<QueryResult>, stream: Bytes, left: nat, done: Bytes)
    requires left > 0
    ensures match TakeTurn(query, stream)
      case Stop => done + ServeBytes(query, stream, left) == done
      case Go(reply, rest) =>
        done + ServeBytes(query, stream, left) == (done + reply) + ServeBytes(query, rest, left - 1)
  {
    var turn := TakeTurn(query, stream);
    if turn.Go? {
      Associate(done, turn.reply, ServeBytes(query, turn.rest, left - 1));
    }
  }

  /** What is sent and what is still to come make up the whole. */
  ghost predicate Owes(query: Bytes -> Option<QueryResult>, stream: Bytes, left: nat, done: Bytes, total: Bytes) {
    done + ServeBytes(query, stream, left) == total
  }

  method ServeOne(conn: Conn, query: Bytes -> Option<QueryResult>, ghost left: nat,
                  ghost base: Bytes, ghost space: nat, ghost done: Bytes, ghost total: Bytes)
    returns (more: bool, ghost done': Bytes)
    requires conn.Sent(base, space, done) && left > 0 && Owes(query, conn.inbound, left, done, total)
    modifies conn
    ensures if more then conn.Sent(base, space, done') && Owes(query, conn.inbound, left - 1, done', total)
            else conn.Sent(base, space, total)
  {
    ghost var turn := TakeTurn(query, conn.inbound);
    ServeStep(query, conn.inbound, left, done);
    more := AnswerOne(conn, query, base, space, done);
    done' := if turn.Go? then done + turn.reply else done;
  }

  /** The command loop: `turns` is how many turns pass before the context is cancelled. */
  method Serve(conn: Conn, query: Bytes -> Option<QueryResult>, turns: nat)
    modifies conn
    ensures conn.Sent(old(conn.outbound), old(conn.room), ServeBytes(query, old(conn.inbound), turns))
  {
    ghost var base, space, total := conn.outbound, conn.room, ServeBytes(query, conn.inbound, turns);
    ghost var done: Bytes := [];
    assert Owes(query, conn.inbound, turns, done, total);
    var left := turns;
    while left > 0
      invariant conn.Sent(base, space, done)
      invariant Owes(query, conn.inbound, left, done, total)
    {
      var more: bool;
      more, done := ServeOne(conn, query, left, base, space, done, total);
      if !more {
        return;
      }
      left := left - 1;
    }
    assert done == total;
  }

  method HandleConnection(conn: Conn, greeting: Bytes, query: Bytes -> Option<QueryResult>, turns: nat)
    modifies conn
    ensures conn.Sent(old(conn.outbound), old(conn.room), SessionBytes(query, greeting, old(conn.inbound), turns))
  {
    ghost var base, space, stream := conn.outbound, conn.room, conn.inbound;
    ghost var hello, rest := Packet(0, greeting), AfterGreeting(query, stream, turns);
    var ok := WritePacket(conn, 0, greeting);
    if !ok {
      HoldsCut(conn.outbound, conn.room, base, space, hello, hello + rest);
      return;
    }
    ghost var out, room := conn.outbound, conn.room;
    Authenticated(conn, query, turns);
    HoldsJoin(out, room, conn.outbound, conn.room, base, space, hello, rest);
  }

  /** From the client's authentication packet on. */
  method Authenticated(conn: Conn, query: Bytes -> Option<QueryResult>, turns: nat)
    modifies conn
    ensures conn.Sent(old(conn.outbound), old(conn.room), AfterGreeting(query, old(conn.inbound), turns))
  {
    ghost var base, space := conn.outbound, conn.room;
    var auth := ReadPacket(conn);
    if !auth.Frame? {
      return;
    }
    ghost var welcome := Packet(Next(auth.sequence), OK_PACKET);
    ghost var served := ServeBytes(query, conn.inbound, turns);
    var ok := WritePacket(conn, Next(auth.sequence), OK_PACKET);
    if !ok {
      HoldsCut(conn.outbound, conn.room, base, space, welcome, welcome + served);
      return;
    }
    ghost var out, room := conn.outbound, conn.room;
    Serve(conn, query, turns);
    HoldsJoin(out, room, conn.outbound, conn.room, base, space, welcome, served);
  }

  method ParseAuthUsername(data: Bytes) returns (name: Bytes)
    ensures name == AuthUsername(data)
  {
    if |data| < 32 {
      return [];
    }
    var rest := data[32..];
    for i := 0 to |rest|
      invariant 0 !in rest[..i]
    {
      if rest[i] == 0 {
        UpToZeroIs(rest, i);
        return rest[..i];
      }
    }
    UpToZeroIs(rest, |rest|);
    return rest;
  }

  function AuthUsername(data: Bytes): Bytes {
    if |data| < 32 then [] else UpToZero(data[32..])
  }

  function UpToZero(s: Bytes): Bytes {
    if s == [] || s[0] == 0 then [] else [s[0]] + UpToZero(s[1..])
  }

  lemma {:induction false} UpToZeroIs(s: Bytes, i: nat)
    requires i <= |s| && 0 !in s[..i] && (i < |s| ==> s[i] == 0)
    ensures UpToZero(s) == s[..i]
  {
    if i > 0 {
      assert s[0] in s[..i] && s[1..][..i - 1] == s[..i][1..];
      assert forall x :: x in s[1..][..i - 1] ==> x in s[..i];
      UpToZeroIs(s[1..], i - 1);
    }
  }

  /** Protocol::HandshakeResponse41: 32 fixed bytes, then the zero-terminated user name. */
  lemma UsernameRoundTrip(fixed: Bytes, name: Bytes, rest: Bytes)
    requires |fixed| == 32 && 0 !in name
    ensures AuthUsername(fixed + name + [0] + rest) == name
  {
    var data := fixed + name + [0] + rest;
    assert data[32..] == name + [0] + rest;
    assert data[32..][..|name|] == name;
    UpToZeroIs(data[32..], |name|);
  }
}
