/** A reference client, written from the MySQL Client/Server Protocol documentation (sections "MySQL
    Packets", "Protocol::LengthEncodedInteger", "Protocol::ColumnDefinition41", "Text Resultset",
    "OK_Packet", "ERR_Packet", "EOF_Packet"), and the proof that it inverts the encoder. */
module MySqlClient {
  import opened Events
  import opened MySqlWire

  /** A payload of this many bytes announces that the message continues in the next packet. */
  const CONTINUES: nat := 0xFF_FFFF

  function Value(b: Bytes): nat {
    if b == [] then 0 else b[0] as nat + 256 * Value(b[1..])
  }

  datatype Message = Message(sequence: byte, payload: Bytes, rest: Bytes)

  function ReadMessage(stream: Bytes): Option<Message>
    decreases |stream|
  {
    if |stream| < 4 then None
    else
      var length := Value(stream[..3]);
      if |stream| < 4 + length then None
      else
        var payload, rest := stream[4..4 + length], stream[4 + length..];
        if length < CONTINUES then Some(Message(stream[3], payload, rest))
        else
          match ReadMessage(rest)
          case None => None
          case Some(more) => Some(Message(stream[3], payload + more.payload, more.rest))
  }

  datatype Parsed<+T> = Fail | Got(value: T, rest: Bytes)

  function ParseInt(s: Bytes): Parsed<nat> {
    if s == [] then Fail
    else if s[0] < 0xFB then Got(s[0] as nat, s[1..])
    else if s[0] == 0xFC && |s| >= 3 then Got(Value(s[1..3]), s[3..])
    else if s[0] == 0xFD && |s| >= 4 then Got(Value(s[1..4]), s[4..])
    else if s[0] == 0xFE && |s| >= 9 then Got(Value(s[1..9]), s[9..])
    else Fail
  }

  function ParseString(s: Bytes): Parsed<Bytes> {
    match ParseInt(s)
    case Fail => Fail
    case Got(n, rest) => if n <= |rest| then Got(rest[..n], rest[n..]) else Fail
  }

  datatype Column = Column(
    catalog: Bytes, schema: Bytes, table: Bytes, orgTable: Bytes, name: Bytes, orgName: Bytes,
    charset: nat, length: nat, kind: byte, flags: nat, decimals: byte)

  /** Six strings, and twelve fixed bytes behind their length. */
  function ParseColumn(payload: Bytes): Option<Column> {
    match ParseString(payload)
    case Fail => None
    case Got(catalog, r1) =>
      match ParseString(r1)
      case Fail => None
      case Got(schema, r2) =>
        match ParseString(r2)
        case Fail => None
        case Got(table, r3) =>
          match ParseString(r3)
          case Fail => None
          case Got(orgTable, r4) =>
            match ParseString(r4)
            case Fail => None
            case Got(name, r5) =>
              match ParseString(r5)
              case Fail => None
              case Got(orgName, r6) =>
                if catalog != [0x64, 0x65, 0x66] || |r6| != 13 || r6[0] != 0x0C then None
                else
                  Some(Column(catalog, schema, table, orgTable, name, orgName,
                              Value(r6[1..3]), Value(r6[3..7]), r6[7], Value(r6[8..10]), r6[10]))
  }

  /** One row: each cell a length-encoded string, or 0xFB for NULL, and nothing after the last. */
  function ParseRow(payload: Bytes, width: nat): Option<seq<Option<Bytes>>> {
    if width == 0 then if payload == [] then Some([]) else None
    else if payload == [] then None
    else if payload[0] == 0xFB then
      match ParseRow(payload[1..], width - 1)
      case None => None
      case Some(cells) => Some([None] + cells)
    else
      match ParseString(payload)
      case Fail => None
      case Got(cell, rest) =>
        match ParseRow(rest, width - 1)
        case None => None
        case Some(cells) => Some([Some(cell)] + cells)
  }

  predicate IsEof(payload: Bytes) {
    payload != [] && payload[0] == 0xFE && |payload| < 9
  }

  predicate IsErr(payload: Bytes) {
    payload != [] && payload[0] == 0xFF
  }

  /** The next message, which must carry the expected sequence number. */
  function Expect(stream: Bytes, sequence: byte): Parsed<Bytes> {
    match ReadMessage(stream)
    case None => Fail
    case Some(m) => if m.sequence == sequence then Got(m.payload, m.rest) else Fail
  }

  function ParseColumns(stream: Bytes, sequence: byte, count: nat): Parsed<seq<Bytes>>
    decreases count
  {
    if count == 0 then Got([], stream)
    else
      match Expect(stream, sequence)
      case Fail => Fail
      case Got(payload, rest) =>
        match ParseColumn(payload)
        case None => Fail
        case Some(column) =>
          match ParseColumns(rest, Next(sequence), count - 1)
          case Fail => Fail
          case Got(names, after) => Got([column.name] + names, after)
  }

  lemma {:induction false} MessageShortens(stream: Bytes)
    ensures ReadMessage(stream).Some? ==> |ReadMessage(stream).value.rest| < |stream|
    decreases |stream|
  {
    if |stream| >= 4 && |stream| >= 4 + Value(stream[..3]) {
      MessageShortens(stream[4 + Value(stream[..3])..]);
    }
  }

  /** Rows until the EOF packet; an ERR packet aborts. */
  function ParseRows(stream: Bytes, sequence: byte, width: nat): Parsed<seq<seq<Option<Bytes>>>>
    decreases |stream|
  {
    match Expect(stream, sequence)
    case Fail => Fail
    case Got(payload, rest) =>
      MessageShortens(stream);
      if IsErr(payload) then Fail
      else if IsEof(payload) then Got([], rest)
      else
        match ParseRow(payload, width)
        case None => Fail
        case Some(row) =>
          match ParseRows(rest, Next(sequence), width)
          case Fail => Fail
          case Got(rows, after) => Got([row] + rows, after)
  }

  /** What the client understands of one reply. */
  datatype Reply =
    | OkReply(affected: nat, insertId: nat, status: nat, warnings: nat)
    | ErrReply(code: nat, state: Bytes, msg: Bytes)
    | ResultReply(columns: seq<Bytes>, rows: seq<seq<Option<Bytes>>>)

  /** The sequence number n packets later. */
  function Skip(sequence: byte, n: nat): byte {
    if n == 0 then sequence else Next(Skip(sequence, n - 1))
  }

  lemma {:induction false} SkipIsModular(sequence: byte, n: nat)
    ensures Skip(sequence, n) == Byte(sequence as nat + n)
  {
    if n > 0 {
      SkipIsModular(sequence, n - 1);
      ByteSuccessor(sequence as nat + n - 1);
    }
  }

  lemma ByteSuccessor(n: nat)
    ensures Next(Byte(n)) == Byte(n + 1)
  {
    var q := n / 256;
    assert n == 256 * q + n % 256;
  }

  function ParseResultSet(stream: Bytes, sequence: byte): Parsed<Reply> {
    match Expect(stream, sequence)
    case Fail => Fail
    case Got(first, r1) =>
      match ParseInt(first)
      case Fail => Fail
      case Got(count, extra) =>
        if extra != [] || count == 0 then Fail
        else
          match ParseColumns(r1, Next(sequence), count)
          case Fail => Fail
          case Got(names, r2) =>
            match ParseBody(r2, Skip(sequence, count + 1), count)
            case Fail => Fail
            case Got(rows, r3) => Got(ResultReply(names, rows), r3)
  }

  /** The EOF packet after the column definitions, and the rows. */
  function ParseBody(stream: Bytes, sequence: byte, width: nat): Parsed<seq<seq<Option<Bytes>>>> {
    match Expect(stream, sequence)
    case Fail => Fail
    case Got(eof, rest) => if IsEof(eof) then ParseRows(rest, Next(sequence), width) else Fail
  }

  /** The OK packet behind its marker: two integers, status flags, warnings, perhaps a message. */
  function ParseOk(payload: Bytes): Option<Reply> {
    if payload == [] then None
    else
      match ParseInt(payload[1..])
      case Fail => None
      case Got(affected, r1) =>
        match ParseInt(r1)
        case Fail => None
        case Got(insertId, r2) =>
          if |r2| < 4 then None else Some(OkReply(affected, insertId, Value(r2[..2]), Value(r2[2..4])))
  }

  /** The EOF packet: warnings and status flags. */
  function ParseEof(payload: Bytes): Option<(nat, nat)> {
    if |payload| == 5 && payload[0] == 0xFE then Some((Value(payload[1..3]), Value(payload[3..5]))) else None
  }

  /** Nothing affected, nothing inserted, autocommit on, no warnings. */
  lemma OkSays()
    ensures ParseOk(OK_PACKET) == Some(OkReply(0, 0, 0x0002, 0))
  {
    var r2 := OK_PACKET[1..][1..][1..];
    assert r2 == [0x02, 0x00, 0x00, 0x00];
    assert Value(r2[..2]) == 2 by { TwoBytes(2, 0, r2[..2]); }
    assert Value(r2[2..4]) == 0 by { TwoBytes(0, 0, r2[2..4]); }
  }

  lemma EofSays()
    ensures IsEof(EOF_PACKET) && ParseEof(EOF_PACKET) == Some((0, 0x0002))
  {
    assert Value(EOF_PACKET[1..3]) == 0 by { TwoBytes(0, 0, EOF_PACKET[1..3]); }
    assert Value(EOF_PACKET[3..5]) == 2 by { TwoBytes(2, 0, EOF_PACKET[3..5]); }
  }

  lemma TwoBytes(low: byte, high: byte, b: Bytes)
    requires b == [low, high]
    ensures Value(b) == low as nat + 256 * (high as nat)
  {
    assert b[1..] == [high] && b[1..][1..] == [];
    assert Value(b[1..]) == high as nat + 256 * Value(b[1..][1..]);
  }

  function ParseReply(stream: Bytes, sequence: byte): Parsed<Reply> {
    match Expect(stream, sequence)
    case Fail => Fail
    case Got(payload, rest) =>
      if payload == [] then Fail
      else if payload[0] == 0x00 then
        match ParseOk(payload)
        case None => Fail
        case Some(reply) => Got(reply, rest)
      else if IsErr(payload) then
        if |payload| >= 9 && payload[3] == 0x23
        then Got(ErrReply(Value(payload[1..3]), payload[4..9], payload[9..]), rest) else Fail
      else ParseResultSet(stream, sequence)
  }

  // ---------------------------------------------------------------------------
  // The client inverts the encoder.

  lemma {:induction false} ValueOfLittleEndian(n: nat, width: nat, bound: nat)
    requires bound == Pow256(width)
    ensures Value(LittleEndian(n, width)) == n % bound
  {
    if width > 0 {
      ValueOfLittleEndian(n / 256, width - 1, Pow256(width - 1));
      DivModSplit(n, Pow256(width - 1));
    }
  }

  function Pow256(width: nat): (p: nat)
    ensures p > 0
  {
    if width == 0 then 1 else 256 * Pow256(width - 1)
  }

  lemma DivModSplit(n: nat, p: nat)
    requires p > 0
    ensures n % 256 + 256 * ((n / 256) % p) == n % (256 * p)
  {
    var q, r := n / 256, n % 256;
    var a, b := q / p, q % p;
    assert q == p * a + b;
    assert n == (256 * p) * a + (256 * b + r);
    assert 0 <= 256 * b + r < 256 * p;
    ModUnique(n, 256 * p, a, 256 * b + r);
  }

  lemma ModUnique(n: nat, m: nat, a: nat, r: nat)
    requires m > 0 && n == m * a + r && r < m
    ensures n % m == r
  {
    var d := n / m - a;
    assert m * d == r - n % m;
    assert m * d < m && m * d > 0 - m;
    assert d == 0 by { ProductBounds(m, d); }
  }

  lemma ProductBounds(m: nat, d: int)
    ensures d >= 1 ==> m * d >= m
    ensures d <= -1 ==> m * d <= 0 - m
  {
  }

  lemma HeaderValue(n: nat)
    ensures Value(LittleEndian(n, 3)) == n % 0x100_0000
    ensures Value(LittleEndian(n, 2)) == n % 0x1_0000
  {
    assert Pow256(3) == 256 * Pow256(2) && Pow256(2) == 256 * Pow256(1) && Pow256(1) == 256 * Pow256(0);
    ValueOfLittleEndian(n, 3, 0x100_0000);
    ValueOfLittleEndian(n, 2, 0x1_0000);
  }

  /** One packet, whatever follows it. */
  lemma MessageRoundTrip(sequence: byte, data: Bytes, rest: Bytes)
    requires |data| < CONTINUES
    ensures ReadMessage(Packet(sequence, data) + rest) == Some(Message(sequence, data, rest))
  {
    var stream := Packet(sequence, data) + rest;
    HeaderValue(|data|);
    assert stream[..3] == LittleEndian(|data|, 3);
    assert stream[4..4 + |data|] == data && stream[4 + |data|..] == rest;
  }

  lemma {:induction false} MessageAccounts(stream: Bytes)
    ensures ReadMessage(stream).Some? ==>
      |ReadMessage(stream).value.payload| + |ReadMessage(stream).value.rest| <= |stream| - 4
      && (|stream| >= 4 && Value(stream[..3]) >= CONTINUES ==>
          |ReadMessage(stream).value.payload| + |ReadMessage(stream).value.rest| <= |stream| - 8)
    decreases |stream|
  {
    if |stream| >= 4 && |stream| >= 4 + Value(stream[..3]) {
      MessageAccounts(stream[4 + Value(stream[..3])..]);
    }
  }

  /** A packet arrives intact exactly when its payload is below 2^24 - 1 bytes: a length of 2^24 - 1
      announces a continuation, and a longer one is cut to 24 bits in the header. */
  lemma PacketArrivesExactly(sequence: byte, data: Bytes)
    ensures ReadMessage(Packet(sequence, data)) == Some(Message(sequence, data, [])) <==> |data| < CONTINUES
  {
    var stream := Packet(sequence, data);
    if |data| < CONTINUES {
      MessageRoundTrip(sequence, data, []);
      assert stream + [] == stream;
    } else {
      HeaderValue(|data|);
      assert stream[..3] == LittleEndian(|data|, 3);
      MessageAccounts(stream);
    }
  }

  lemma IntRoundTrip(n: nat, rest: Bytes)
    requires n < 0x100_0000
    ensures ParseInt(LenEncInt(n) + rest) == Got(n, rest)
  {
    var s := LenEncInt(n) + rest;
    HeaderValue(n);
    if n >= 0x1_0000 {
      assert s[1..4] == LittleEndian(n, 3) && s[4..] == rest;
    } else if n >= 251 {
      assert s[1..3] == LittleEndian(n, 2) && s[3..] == rest;
    }
  }

  /** The encoder's three-byte form carries a number exactly when it is below 2^24. */
  lemma IntArrivesExactly(n: nat)
    ensures ParseInt(LenEncInt(n)) == Got(n, []) <==> n < 0x100_0000
  {
    if n < 0x100_0000 {
      IntRoundTrip(n, []);
      assert LenEncInt(n) + [] == LenEncInt(n);
    } else {
      HeaderValue(n);
      assert LenEncInt(n)[1..4] == LittleEndian(n, 3);
    }
  }

  lemma StringRoundTrip(s: Bytes, rest: Bytes)
    requires |s| < 0x100_0000
    ensures ParseString(LenEncString(s) + rest) == Got(s, rest)
  {
    IntRoundTrip(|s|, s + rest);
    assert LenEncString(s) + rest == LenEncInt(|s|) + (s + rest);
  }

  /** How every column is described: a variable-length string in character set 33, 256 bytes wide, not NULL. */
  function TextColumn(name: Bytes): Column {
    Column([0x64, 0x65, 0x66], [], [], [], name, name, 33, 256, 0xFD, 1, 0)
  }

  lemma ColumnRoundTrip(name: Bytes)
    requires |name| < 0x100_0000
    ensures ParseColumn(ColumnDef(name)) == Some(TextColumn(name))
  {
    var def: Bytes := [0x64, 0x65, 0x66];
    var r6 := COLUMN_TAIL;
    var r5 := LenEncString(name) + r6;
    var r4 := LenEncString(name) + r5;
    var r3 := LenEncString([]) + r4;
    var r2 := LenEncString([]) + r3;
    var r1 := LenEncString([]) + r2;
    assert ColumnDef(name) == LenEncString(def) + r1;
    StringRoundTrip(def, r1);
    StringRoundTrip([], r2);
    StringRoundTrip([], r3);
    StringRoundTrip([], r4);
    StringRoundTrip(name, r5);
    StringRoundTrip(name, r6);
    TailSays();
  }

  lemma TailSays()
    ensures |COLUMN_TAIL| == 13 && COLUMN_TAIL[0] == 0x0C && COLUMN_TAIL[7] == 0xFD && COLUMN_TAIL[10] == 0
    ensures Value(COLUMN_TAIL[1..3]) == 33 && Value(COLUMN_TAIL[3..7]) == 256 && Value(COLUMN_TAIL[8..10]) == 1
  {
    TwoBytes(0x21, 0x00, COLUMN_TAIL[1..3]);
    TwoBytes(0x01, 0x00, COLUMN_TAIL[8..10]);
    var width := COLUMN_TAIL[3..7];
    assert width[1..][1..] == [0x00, 0x00];
    TwoBytes(0x00, 0x00, width[1..][1..]);
    assert width == [0x00, 0x01, 0x00, 0x00];
  }

  function Cells(row: Row): (r: seq<Option<Bytes>>)
    ensures |r| == |row|
    ensures forall i :: 0 <= i < |row| ==> r[i] == Some(row[i])
  {
    if row == [] then [] else [Some(row[0])] + Cells(row[1..])
  }

  function CellRows(rows: seq<Row>): (r: seq<seq<Option<Bytes>>>)
    ensures |r| == |rows|
    ensures forall i :: 0 <= i < |rows| ==> r[i] == Cells(rows[i])
  {
    if rows == [] then [] else [Cells(rows[0])] + CellRows(rows[1..])
  }

  lemma {:induction false} RowRoundTrip(row: Row)
    requires |RowBytes(row)| < CONTINUES
    ensures ParseRow(RowBytes(row), |row|) == Some(Cells(row))
  {
    if row != [] {
      StringRoundTrip(row[0], RowBytes(row[1..]));
      RowRoundTrip(row[1..]);
      assert RowBytes(row)[0] == LenEncInt(|row[0]|)[0];
    }
  }

  lemma ExpectRoundTrip(sequence: byte, data: Bytes, rest: Bytes)
    requires |data| < CONTINUES
    ensures Expect(Packet(sequence, data) + rest, sequence) == Got(data, rest)
  {
    MessageRoundTrip(sequence, data, rest);
  }

  lemma {:induction false} SkipNext(sequence: byte, n: nat)
    ensures Skip(Next(sequence), n) == Skip(sequence, n + 1)
  {
    if n > 0 {
      SkipNext(sequence, n - 1);
    }
  }

  lemma PacketsCons(sequence: byte, head: Bytes, tail: seq<Bytes>)
    ensures Packets(sequence, [head] + tail) == Packet(sequence, head) + Packets(Next(sequence), tail)
  {
    assert ([head] + tail)[1..] == tail;
  }

  lemma {:induction false} ColumnsRoundTrip(sequence: byte, columns: seq<Bytes>, rest: Bytes)
    requires forall i :: 0 <= i < |columns| ==> |ColumnDef(columns[i])| < CONTINUES
    ensures ParseColumns(Packets(sequence, Defs(columns)) + rest, sequence, |columns|) == Got(columns, rest)
    decreases columns
  {
    hide Expect, ParseColumn, Packet;
    if columns == [] {
      assert Packets(sequence, Defs(columns)) + rest == rest;
    } else {
      var def, more := ColumnDef(columns[0]), Packets(Next(sequence), Defs(columns[1..]));
      PacketsCons(sequence, def, Defs(columns[1..]));
      assert columns == [columns[0]] + columns[1..];
      assert Packets(sequence, Defs(columns)) + rest == Packet(sequence, def) + (more + rest);
      ExpectRoundTrip(sequence, def, more + rest);
      ColumnRoundTrip(columns[0]);
      ColumnsRoundTrip(Next(sequence), columns[1..], rest);
    }
  }

  /** No row packet can be taken for the EOF or an ERR packet, since a row has at least one cell. */
  lemma RowIsARow(row: Row)
    requires row != []
    ensures !IsEof(RowBytes(row)) && !IsErr(RowBytes(row)) && RowBytes(row) != [] && RowBytes(row)[0] != 0xFB
  {
    assert RowBytes(row)[0] == LenEncInt(|row[0]|)[0];
  }

  lemma {:induction false} RowsRoundTrip(sequence: byte, rows: seq<Row>, width: nat, rest: Bytes)
    requires width >= 1
    requires forall i :: 0 <= i < |rows| ==> |rows[i]| == width && |RowBytes(rows[i])| < CONTINUES
    ensures ParseRows(Packets(sequence, RowPayloads(rows) + [EOF_PACKET]) + rest, sequence, width)
      == Got(CellRows(rows), rest)
    decreases |rows|
  {
    var payloads := RowPayloads(rows) + [EOF_PACKET];
    if rows == [] {
      assert payloads == [EOF_PACKET];
      assert Packets(sequence, payloads) == Packet(sequence, EOF_PACKET);
      ExpectRoundTrip(sequence, EOF_PACKET, rest);
    } else {
      var row := RowBytes(rows[0]);
      var more := Packets(Next(sequence), RowPayloads(rows[1..]) + [EOF_PACKET]);
      assert payloads == [row] + (RowPayloads(rows[1..]) + [EOF_PACKET]);
      PacketsCons(sequence, row, RowPayloads(rows[1..]) + [EOF_PACKET]);
      Associate(Packet(sequence, row), more, rest);
      ExpectRoundTrip(sequence, row, more + rest);
      RowIsARow(rows[0]);
      RowRoundTrip(rows[0]);
      RowsRoundTrip(Next(sequence), rows[1..], width, rest);
    }
  }

  lemma Associate(x: Bytes, y: Bytes, z: Bytes)
    ensures x + (y + z) == (x + y) + z
  {
  }

  lemma {:induction false} PacketsAppend(sequence: byte, a: seq<Bytes>, b: seq<Bytes>)
    ensures Packets(sequence, a + b) == Packets(sequence, a) + Packets(Skip(sequence, |a|), b)
    decreases a
  {
    if a == [] {
      assert a + b == b;
      assert Packets(sequence, a) + Packets(sequence, b) == Packets(sequence, b);
    } else {
      var next := Next(sequence);
      var head, mine, others := Packet(sequence, a[0]), Packets(next, a[1..]), Packets(Skip(sequence, |a|), b);
      calc {
        Packets(sequence, a + b);
        { assert a + b == [a[0]] + (a[1..] + b); PacketsCons(sequence, a[0], a[1..] + b); }
        head + Packets(next, a[1..] + b);
        { PacketsAppend(next, a[1..], b); SkipNext(sequence, |a| - 1); }
        head + (mine + others);
        { Associate(head, mine, others); }
        (head + mine) + others;
        { assert a == [a[0]] + a[1..]; PacketsCons(sequence, a[0], a[1..]); }
        Packets(sequence, a) + others;
      }
    }
  }

  /** What the encoder can carry: at least one column, rows of that width, every packet below 2^24 - 1. */
  ghost predicate Encodable(res: QueryResult) {
    && 1 <= |res.columns| < 0x100_0000
    && (forall i :: 0 <= i < |res.columns| ==> |ColumnDef(res.columns[i])| < CONTINUES)
    && (forall i :: 0 <= i < |res.rows| ==> |res.rows[i]| == |res.columns| && |RowBytes(res.rows[i])| < CONTINUES)
  }

  function Understood(res: QueryResult): Reply {
    ResultReply(res.columns, CellRows(res.rows))
  }

  /** The client recovers exactly the columns and rows, checks every sequence number on the way, and
      stops at the final EOF. */
  lemma ResultSetRoundTrip(sequence: byte, res: QueryResult, rest: Bytes)
    requires Encodable(res)
    ensures ParseResultSet(ResultSetBytes(sequence, res) + rest, Next(sequence)) == Got(Understood(res), rest)
  {
    var s1, k := Next(sequence), |res.columns|;
    var s2, s3 := Next(s1), Skip(s1, k + 1);
    var count := LenEncInt(k);
    var body := [EOF_PACKET] + (RowPayloads(res.rows) + [EOF_PACKET]);
    var r2 := Packets(s3, body) + rest;
    var r1 := Packets(s2, Defs(res.columns)) + r2;
    ResultSetLayout(sequence, res, rest);
    ExpectRoundTrip(s1, count, r1);
    IntRoundTrip(k, []);
    assert count + [] == count;
    ColumnsRoundTrip(s2, res.columns, r2);
    BodyRoundTrip(s3, res, rest);
  }

  lemma ResultSetLayout(sequence: byte, res: QueryResult, rest: Bytes)
    requires res.columns != []
    ensures
      var s1, k := Next(sequence), |res.columns|;
      var body := [EOF_PACKET] + (RowPayloads(res.rows) + [EOF_PACKET]);
      ResultSetBytes(sequence, res) + rest
        == Packet(s1, LenEncInt(k)) + (Packets(Next(s1), Defs(res.columns)) + (Packets(Skip(s1, k + 1), body) + rest))
  {
    var s1, k := Next(sequence), |res.columns|;
    var defs := Defs(res.columns);
    var body := [EOF_PACKET] + (RowPayloads(res.rows) + [EOF_PACKET]);
    var first, mine, others := Packet(s1, LenEncInt(k)), Packets(Next(s1), defs), Packets(Skip(s1, k + 1), body);
    calc {
      ResultSetBytes(sequence, res);
      { assert ResultPayloads(res) == [LenEncInt(k)] + (defs + body); PacketsCons(s1, LenEncInt(k), defs + body); }
      first + Packets(Next(s1), defs + body);
      { PacketsAppend(Next(s1), defs, body); SkipNext(s1, k); }
      first + (mine + others);
    }
    Associate(first, mine + others, rest);
    Associate(mine, others, rest);
  }

  lemma BodyRoundTrip(sequence: byte, res: QueryResult, rest: Bytes)
    requires Encodable(res)
    ensures ParseBody(Packets(sequence, [EOF_PACKET] + (RowPayloads(res.rows) + [EOF_PACKET])) + rest, sequence, |res.columns|)
      == Got(CellRows(res.rows), rest)
  {
    var rows := RowPayloads(res.rows) + [EOF_PACKET];
    PacketsCons(sequence, EOF_PACKET, rows);
    var more := Packets(Next(sequence), rows) + rest;
    assert Packets(sequence, [EOF_PACKET] + rows) + rest == Packet(sequence, EOF_PACKET) + more;
    ExpectRoundTrip(sequence, EOF_PACKET, more);
    RowsRoundTrip(Next(sequence), res.rows, |res.columns|, rest);
  }
}
