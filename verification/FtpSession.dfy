/** internal/ftpd/handler.go: one control connection as a state machine over its commands. */
module FtpSession {
  import opened Events
  import opened Paths

  type Port = n: int | 0 <= n < 0x1_0000
  type Octet = n: int | 0 <= n < 256

  const MAX_UPLOAD: nat := 0x10_0000

  datatype Login = Init | User | Auth
  datatype Socket = Socket(port: Port, isOpen: bool)
  datatype Reply = Reply(code: nat, text: string)

  /** A control connection: the fields of ftpConn, every data listener it ever opened, and every reply. */
  datatype Conn = Conn(
    login: Login, username: string, cwd: string, binary: bool,
    dataListen: Option<nat>, sockets: seq<Socket>, replies: seq<Reply>)

  const FRESH := Conn(Init, "", "/", false, None, [], [])

  datatype Verb =
    | USER | PASS | SYST | FEAT | PWD | CWD | CDUP | TYPE | PASV | LIST | RETR | STOR | SIZE | MDTM
    | MKD | RMD | RNFR | RNTO | NOOP | HELP | QUIT | UNKNOWN

  function VerbOf(cmd: string): Verb {
    match cmd
    case "USER" => USER
    case "PASS" => PASS
    case "SYST" => SYST
    case "FEAT" => FEAT
    case "PWD" => PWD
    case "XPWD" => PWD
    case "CWD" => CWD
    case "XCWD" => CWD
    case "CDUP" => CDUP
    case "TYPE" => TYPE
    case "PASV" => PASV
    case "LIST" => LIST
    case "NLST" => LIST
    case "RETR" => RETR
    case "STOR" => STOR
    case "SIZE" => SIZE
    case "MDTM" => MDTM
    case "MKD" => MKD
    case "XMKD" => MKD
    case "RMD" => RMD
    case "XRMD" => RMD
    case "DELE" => RMD
    case "RNFR" => RNFR
    case "RNTO" => RNTO
    case "NOOP" => NOOP
    case "HELP" => HELP
    case "QUIT" => QUIT
    case _ => UNKNOWN
  }

  datatype Local = NotTcp | NoV4 | V4(a: Octet, b: Octet, c: Octet, d: Octet)

  /** What the network does during one command: `net.Listen`, the address types, and the data connection. */
  datatype Env = Env(listen: Option<Port>, tcp: bool, local: Local, accept: Option<string>)

  datatype Result = Result(quit: bool, password: string, upload: Option<string>, filename: string)

  const PLAIN := Result(false, "", None, "")

  // ---------------------------------------------------------------------------
  // Paths.

  function Resolve(path: string, cwd: string): string {
    if |path| > 0 && path[0] == '/' then Clean(path)
    else if cwd == "/" then Clean("/" + path)
    else Clean(cwd + "/" + path)
  }

  function Parent(path: string): string {
    if path == "/" then "/"
    else
      var parts := Split(path);
      if |parts| <= 2 then "/" else Join(parts[..|parts| - 1])
  }

  // ---------------------------------------------------------------------------
  // Numbers in a reply.

  function Digit(n: nat): char
    requires n < 10
  {
    "0123456789"[n]
  }

  function Decimal(n: nat): string {
    if n < 10 then [Digit(n)] else Decimal(n / 10) + [Digit(n % 10)]
  }

  function Numbers(ns: seq<nat>): string {
    if ns == [] then ""
    else if |ns| == 1 then Decimal(ns[0])
    else Decimal(ns[0]) + "," + Numbers(ns[1..])
  }

  function Address(local: Local): seq<nat>
    requires !local.NotTcp?
  {
    match local
    case V4(a, b, c, d) => [a, b, c, d]
    case NoV4 => [127, 0, 0, 1]
  }

  const PASSIVE := "Entering Passive Mode ("

  function PassiveText(local: Local, port: Port): string
    requires !local.NotTcp?
  {
    PASSIVE + Numbers(Address(local) + [port / 256, port % 256]) + ")"
  }

  // ---------------------------------------------------------------------------
  // The commands, as functions of the connection.

  function Say(c: Conn, code: nat, text: string): Conn {
    c.(replies := c.replies + [Reply(code, text)])
  }

  function Shut(sockets: seq<Socket>, listener: Option<nat>): seq<Socket> {
    match listener
    case Some(l) => if l < |sockets| then sockets[l := sockets[l].(isOpen := false)] else sockets
    case None => sockets
  }

  /** A failing `net.Listen` leaves the old, closed listener in `dataListen`. */
  function OpenPasv(c: Conn, env: Env): Conn {
    var shut := c.(sockets := Shut(c.sockets, c.dataListen));
    match env.listen
    case None => Say(shut, 425, "Cannot open data connection")
    case Some(port) =>
      var listening := shut.(sockets := shut.sockets + [Socket(port, true)], dataListen := Some(|shut.sockets|));
      if !env.tcp || env.local.NotTcp? then Say(listening, 425, "Cannot open data connection")
      else Say(listening, 227, PassiveText(env.local, port))
  }

  predicate Listening(c: Conn) {
    c.dataListen.Some? && c.dataListen.value < |c.sockets| && c.sockets[c.dataListen.value].isOpen
  }

  /** The data connection a transfer gets: none from a closed listener. */
  function Accepted(c: Conn, env: Env): Option<string> {
    if Listening(c) && env.tcp then env.accept else None
  }

  function Dropped(c: Conn): Conn {
    c.(sockets := Shut(c.sockets, c.dataListen), dataListen := None)
  }

  function Transfer(c: Conn, env: Env): Conn {
    if c.dataListen.None? then Say(c, 425, "Use PASV first")
    else
      var after := Dropped(Say(c, 150, "Opening data connection"));
      if Accepted(c, env).None? then Say(after, 425, "Cannot open data connection")
      else Say(after, 226, "Transfer complete")
  }

  function Uploaded(c: Conn, env: Env): Option<string> {
    match Accepted(c, env)
    case None => None
    case Some(data) => Some(if |data| <= MAX_UPLOAD then data else data[..MAX_UPLOAD])
  }

  predicate IsImage(arg: string) {
    arg == "I" || arg == "i" || arg == "\U{0131}"   // the three strings that upper-case to "I"
  }

  const FEATURES := "Features:\r\n PASV\r\n UTF8\r\n SIZE\r\nEnd"

  function Quoted(s: string): string {
    "\"" + s + "\""
  }

  predicate Moves(verb: Verb) {
    verb == LIST || verb == STOR
  }

  /** What a command other than PASV, LIST and STOR does to the connection ... */
  function Changed(c: Conn, verb: Verb, arg: string): Conn {
    match verb
    case USER => c.(username := arg, login := User)
    case PASS => c.(login := Auth)
    case CWD => c.(cwd := Resolve(arg, c.cwd))
    case CDUP => c.(cwd := Parent(c.cwd))
    case TYPE => c.(binary := IsImage(arg))
    case RETR => if c.dataListen.Some? then Dropped(c) else c
    case _ => c
  }

  /** ... and how it is answered. */
  function Answer(c: Conn, verb: Verb, arg: string): Reply {
    match verb
    case USER => Reply(331, "Password required for " + arg)
    case PASS => Reply(230, "User " + c.username + " logged in")
    case SYST => Reply(215, "UNIX Type: L8")
    case FEAT => Reply(211, FEATURES)
    case PWD => Reply(257, Quoted(c.cwd))
    case CWD => Reply(250, "CWD command successful")
    case CDUP => Reply(250, "CWD command successful")
    case TYPE => Reply(200, "Type set")
    case RETR => Reply(550, arg + ": No such file or directory")
    case SIZE => Reply(550, arg + ": No such file")
    case MDTM => Reply(550, arg + ": No such file")
    case MKD => Reply(257, Quoted(arg) + " created")
    case RMD => Reply(250, "OK")
    case RNFR => Reply(350, "Awaiting new name")
    case RNTO => Reply(250, "Rename successful")
    case NOOP => Reply(200, "OK")
    case HELP => Reply(214, "No help available")
    case QUIT => Reply(221, "Goodbye")
    case _ => Reply(502, "Command not implemented")
  }

  function Step(c: Conn, verb: Verb, arg: string, env: Env): Conn {
    if verb == PASV then OpenPasv(c, env)
    else if Moves(verb) then Transfer(c, env)
    else
      var reply := Answer(c, verb, arg);
      Say(Changed(c, verb, arg), reply.code, reply.text)
  }

  function ResultOf(c: Conn, verb: Verb, arg: string, env: Env): Result {
    match verb
    case PASS => PLAIN.(password := arg)
    case STOR =>
      if Uploaded(c, env).Some? then PLAIN.(upload := Uploaded(c, env), filename := arg) else PLAIN
    case QUIT => PLAIN.(quit := true)
    case _ => PLAIN
  }

  /** `close`, when the command loop ends for whatever reason. */
  function Closed(c: Conn): Conn {
    c.(sockets := Shut(c.sockets, c.dataListen))
  }

  datatype Command = Command(verb: Verb, arg: string, env: Env)

  /** The connection after a run of commands. */
  function After(commands: seq<Command>): Conn {
    if commands == [] then FRESH
    else
      var last := commands[|commands| - 1];
      Step(After(commands[..|commands| - 1]), last.verb, last.arg, last.env)
  }
}
