/** internal/mysqld/handler.go: the bytes the MySQL honeypot puts on the wire. */
module MySqlWire {
  import opened Events

  newtype byte = x: int | 0 <= x < 256

  type Bytes = seq<byte>

  function Byte(n: nat): byte {
    (n % 256) as byte
  }

  /** `byte(n)`, `byte(n >> 8)`, ... : the low `width` bytes of n, lowest first, the rest cut off. */
  function LittleEndian(n: nat, width: nat): (r: Bytes)
    ensures |r| == width
  {
    if width == 0 then [] else [Byte(n)] + LittleEndian(n / 256, width - 1)
  }

  function Packet(sequence: byte, data: Bytes): Bytes {
    LittleEndian(|data|, 3) + [sequence] + data
  }

  function Next(sequence: byte): byte {
    Byte(sequence as nat + 1)
  }

  /** Packets numbered consecutively from `sequence`, modulo 256. */
  function Packets(sequence: byte, payloads: seq<Bytes>): Bytes
    decreases payloads
  {
    if payloads == [] then [] else Packet(sequence, payloads[0]) + Packets(Next(sequence), payloads[1..])
  }

  /** No length-encoded integer starts like NULL, an EOF packet or an ERR packet. */
  function LenEncInt(n: nat): (r: Bytes)
    ensures |r| == if n < 251 then 1 else if n < 0x1_0000 then 3 else 4
    ensures r[0] != 0xFB && r[0] != 0xFE && r[0] != 0xFF
    ensures r[0] == 0 <==> n == 0
  {
    if n < 251 then [Byte(n)]
    else if n < 0x1_0000 then [0xFC] + LittleEndian(n, 2)
    else [0xFD] + LittleEndian(n, 3)
  }

  function LenEncString(s: Bytes): Bytes {
    LenEncInt(|s|) + s
  }

  function Text(s: string): (r: Bytes)
    ensures |r| == |s| && forall i :: 0 <= i < |s| ==> r[i] as int == s[i] as int % 256
  {
    seq(|s|, i requires 0 <= i < |s| => Byte(s[i] as nat))
  }

  /** Length marker, character set, column length, type, flags, decimals and filler of a column. */
  const COLUMN_TAIL: Bytes := [0x0C, 0x21, 0x00, 0x00, 0x01, 0x00, 0x00, 0xFD, 0x01, 0x00, 0x00, 0x00, 0x00]

  function ColumnDef(name: Bytes): Bytes {
    LenEncString([0x64, 0x65, 0x66]) + LenEncString([]) + LenEncString([]) + LenEncString([])
    + LenEncString(name) + LenEncString(name) + COLUMN_TAIL
  }

  const OK_PACKET: Bytes := [0x00, 0x00, 0x00, 0x02, 0x00, 0x00, 0x00]
  const EOF_PACKET: Bytes := [0xFE, 0x00, 0x00, 0x02, 0x00]

  /** The state is cut or padded with blanks to five characters. */
  function Pad(state: Bytes): (r: Bytes)
    ensures |r| == 5
    ensures forall i :: 0 <= i < 5 ==> r[i] == if i < |state| then state[i] else 0x20
  {
    if |state| >= 5 then state[..5] else state + seq(5 - |state|, _ => 0x20)
  }

  function ErrPacket(code: nat, state: Bytes, msg: Bytes): Bytes {
    [0xFF] + LittleEndian(code, 2) + [0x23] + Pad(state) + msg
  }

  type Row = seq<Bytes>

  datatype QueryResult = QueryResult(columns: seq<Bytes>, rows: seq<Row>)

  function RowBytes(row: Row): Bytes {
    if row == [] then [] else LenEncString(row[0]) + RowBytes(row[1..])
  }

  function Defs(columns: seq<Bytes>): (r: seq<Bytes>)
    ensures |r| == |columns|
  {
    if columns == [] then [] else [ColumnDef(columns[0])] + Defs(columns[1..])
  }

  function RowPayloads(rows: seq<Row>): (r: seq<Bytes>)
    ensures |r| == |rows|
  {
    if rows == [] then [] else [RowBytes(rows[0])] + RowPayloads(rows[1..])
  }

  function ResultPayloads(res: QueryResult): seq<Bytes> {
    [LenEncInt(|res.columns|)] + Defs(res.columns) + [EOF_PACKET] + RowPayloads(res.rows) + [EOF_PACKET]
  }

  function ResultSetBytes(sequence: byte, res: QueryResult): Bytes {
    Packets(Next(sequence), ResultPayloads(res))
  }

  // ---------------------------------------------------------------------------
  // handleQuery: the canned answers. `upper` is the trimmed, upper-cased query text.

  predicate HasPrefix(s: string, prefix: string) {
    prefix <= s
  }

  predicate Contains(s: string, part: string) {
    exists i :: 0 <= i <= |s| && OccursAt(s, part, i)
  }

  predicate OccursAt(s: string, part: string, i: nat)
    requires i <= |s|
  {
    part <= s[i..]
  }

  function Single(column: string, values: seq<string>): QueryResult {
    QueryResult([Text(column)], SingleRows(values))
  }

  function SingleRows(values: seq<string>): seq<Row> {
    if values == [] then [] else [[Text(values[0])]] + SingleRows(values[1..])
  }

  function Pairs(values: seq<(string, string)>): seq<Row> {
    if values == [] then [] else [[Text(values[0].0), Text(values[0].1)]] + Pairs(values[1..])
  }

  datatype Topic = Version | CurrentDatabase | User | Databases | Tables | Schema | DataDir | HostName | Variables

  function TopicOf(upper: string): Option<Topic> {
    if HasPrefix(upper, "SELECT @@VERSION") then Some(Version)
    else if HasPrefix(upper, "SELECT DATABASE") then Some(CurrentDatabase)
    else if HasPrefix(upper, "SELECT USER") then Some(User)
    else if upper == "SHOW DATABASES" then Some(Databases)
    else if upper == "SHOW TABLES" then Some(Tables)
    else if Contains(upper, "INFORMATION_SCHEMA") then Some(Schema)
    else if HasPrefix(upper, "SELECT @@DATADIR") then Some(DataDir)
    else if HasPrefix(upper, "SELECT @@HOSTNAME") then Some(HostName)
    else if HasPrefix(upper, "SHOW VARIABLES") then Some(Variables)
    else None
  }

  function Canned(topic: Topic): QueryResult {
    match topic
    case Version => Single("@@version_comment", ["(Ubuntu)"])
    case CurrentDatabase => Single("database()", ["mysql"])
    case User => Single("user()", ["root@localhost"])
    case Databases => Single("Database", ["information_schema", "mysql", "performance_schema", "sys"])
    case Tables =>
      Single("Tables_in_mysql",
             ["columns_priv", "db", "event", "func", "general_log", "help_category", "user"])
    case Schema => Single("TABLE_NAME", [])
    case DataDir => Single("@@datadir", ["/var/lib/mysql/"])
    case HostName => Single("@@hostname", ["ubuntu-server"])
    case Variables =>
      QueryResult([Text("Variable_name"), Text("Value")],
                  Pairs([("version", "5.7.42-0ubuntu0.18.04.1"), ("datadir", "/var/lib/mysql/"),
                         ("hostname", "ubuntu-server"), ("port", "3306")]))
  }

  function HandleQuery(upper: string): Option<QueryResult> {
    match TopicOf(upper)
    case None => None
    case Some(topic) => Some(Canned(topic))
  }
}
