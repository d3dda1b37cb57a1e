/** internal/ftpd/handler.go: the connection object. Its methods do to the fields what FtpSession says. */
module FtpHandler {
  import opened Events
  import opened Paths
  import F = FtpSession
  import opened FtpLaws
  import opened FtpWords

  method ResolveFtpPath(path: string, cwd: string) returns (r: string)
    ensures r == F.Resolve(path, cwd)
  {
    if |path| > 0 && path[0] == '/' {
      r := CleanPath(path);
    } else if cwd == "/" {
      r := CleanPath("/" + path);
    } else {
      r := CleanPath(cwd + "/" + path);
    }
  }

  lemma DispatchKeepsLaws(c: F.Conn, word: string, arg: string, env: F.Env)
    ensures
      var next := F.Step(c, F.VerbOf(word), arg, env);
      && (Tidy(c) ==> Tidy(next))
      && c.replies <= next.replies && Answers(next.replies[|c.replies|..])
      && next.cwd == (if word == "CWD" || word == "XCWD" then F.Resolve(arg, c.cwd)
                      else if word == "CDUP" then F.Parent(c.cwd) else c.cwd)
    ensures
      var r := F.ResultOf(c, F.VerbOf(word), arg, env);
      (r.quit <==> word == "QUIT") && r.password == (if word == "PASS" then arg else "")
  {
    hide F.Step, F.VerbOf, F.ResultOf, Tidy, Answers;
    if Tidy(c) {
      StepKeepsTidy(c, F.VerbOf(word), arg, env);
    }
    PlaceWords(word);
    StepMovesCwd(c, F.VerbOf(word), arg, env);
    RepliesByWord(c, word, arg, env);
  }

  method ParentFtpPath(path: string) returns (r: string)
    ensures r == F.Parent(path)
    ensures Canonical(path) ==> r == Clean(path + "/" + "..")
  {
    hide Clean, Canonical;
    if Canonical(path) {
      ParentMeans(path);
    }
    if path == "/" {
      return "/";
    }
    var parts := Split(path);
    if |parts| <= 2 {
      return "/";
    }
    return Join(parts[..|parts| - 1]);
  }

  predicate OfPlace(verb: F.Verb) {
    verb == F.PWD || verb == F.CWD || verb == F.CDUP || verb == F.TYPE
  }

  predicate OfFile(verb: F.Verb) {
    verb == F.SIZE || verb == F.MDTM || verb == F.MKD || verb == F.RMD || verb == F.RNFR
    || verb == F.RNTO
  }

  predicate OfSession(verb: F.Verb) {
    verb == F.SYST || verb == F.FEAT || verb == F.NOOP || verb == F.HELP || verb == F.QUIT || verb == F.UNKNOWN
  }

  /** What the state machine makes of a command without a data connection. */
  ghost function Plainly(c: F.Conn, verb: F.Verb, arg: string): F.Conn {
    F.Say(F.Changed(c, verb, arg), F.Answer(c, verb, arg).code, F.Answer(c, verb, arg).text)
  }

  /** `strings.ToUpper(arg) == "I"`; the dotless i is upper-cased to I, too. */
  predicate UppersToI(arg: string) {
    |arg| == 1 && (arg[0] == 'I' || arg[0] == 'i' || arg[0] == '\U{0131}')
  }

  /** fmt.Sprintf of the six numbers of a 227 reply. */
  method PassiveReply(local: F.Local, port: F.Port) returns (text: string)
    requires !local.NotTcp?
    ensures text == F.PassiveText(local, port)
    ensures ParsePassive(text) == Some((F.Address(local), port))
  {
    hide ParsePassive, F.Decimal;
    PassiveTextReads(local, port);
    var p1, p2 := port / 256, port % 256;
    var ip: seq<nat> := if local.V4? then [local.a, local.b, local.c, local.d] else [127, 0, 0, 1];
    var numbers := ip + [p1, p2];
    text := "Entering Passive Mode (";
    for k := 0 to |numbers|
      invariant text + F.Numbers(numbers[k..]) == F.PASSIVE + F.Numbers(numbers)
    {
      assert numbers[k..][1..] == numbers[k + 1..];
      text := text + F.Decimal(numbers[k]);
      if k < |numbers| - 1 {
        text := text + ",";
      }
    }
    text := text + ")";
  }

  class FtpConn {
    var login: F.Login
    var username: string
    var cwd: string
    var binary: bool
    var dataListen: Option<nat>
    var sockets: seq<F.Socket>      // every data listener this connection opened, by identity
    var replies: seq<F.Reply>

    ghost function State(): F.Conn
      reads this
    {
      F.Conn(login, username, cwd, binary, dataListen, sockets, replies)
    }

    constructor ()
      ensures State() == F.FRESH
    {
      login, username, cwd, binary := F.Init, "", "/", false;
      dataListen, sockets, replies := None, [], [];
    }

    method Say(code: nat, text: string)
      modifies this`replies
      ensures State() == F.Say(old(State()), code, text)
    {
      replies := replies + [F.Reply(code, text)];
    }

    method CloseListener()
      modifies this`sockets
      ensures sockets == F.Shut(old(sockets), dataListen)
    {
      if dataListen.Some? && dataListen.value < |sockets| {
        sockets := sockets[dataListen.value := sockets[dataListen.value].(isOpen := false)];
      }
    }

    method Close()
      modifies this`sockets
      ensures State() == F.Closed(old(State()))
    {
      CloseListener();
    }

    method OpenPasv(env: F.Env)
      modifies this`sockets, this`dataListen, this`replies
      ensures State() == F.OpenPasv(old(State()), env)
    {
      CloseListener();
      if env.listen.None? {
        Say(425, "Cannot open data connection");
        return;
      }
      var port := env.listen.value;
      sockets, dataListen := sockets + [F.Socket(port, true)], Some(|sockets|);
      if !env.tcp || env.local.NotTcp? {
        Say(425, "Cannot open data connection");
        return;
      }
      var text := PassiveReply(env.local, port);
      Say(227, text);
    }

    method AcceptData(env: F.Env) returns (data: Option<string>)
      modifies this`sockets, this`dataListen
      ensures data == F.Accepted(old(State()), env)
      ensures State() == F.Dropped(old(State()))
    {
      data := None;
      if dataListen.None? {
        return;
      }
      if env.tcp && dataListen.value < |sockets| && sockets[dataListen.value].isOpen {
        data := env.accept;
      }
      CloseListener();
      dataListen := None;
    }

    /** sendListing, and the part of recvUpload that talks to the client. */
    method MoveData(env: F.Env) returns (data: Option<string>)
      modifies this`sockets, this`dataListen, this`replies
      ensures State() == F.Transfer(old(State()), env)
      ensures data == F.Accepted(old(State()), env)
    {
      if dataListen.None? {
        Say(425, "Use PASV first");
        return None;
      }
      Say(150, "Opening data connection");
      data := AcceptData(env);
      if data.None? {
        Say(425, "Cannot open data connection");
        return;
      }
      Say(226, "Transfer complete");
    }

    method RecvUpload(env: F.Env) returns (upload: Option<string>)
      modifies this`sockets, this`dataListen, this`replies
      ensures State() == F.Transfer(old(State()), env)
      ensures upload == F.Uploaded(old(State()), env)
    {
      upload := MoveData(env);
      if upload.Some? && |upload.value| > F.MAX_UPLOAD {
        upload := Some(upload.value[..F.MAX_UPLOAD]);
      }
    }

    method DispatchLogin(verb: F.Verb, arg: string)
      requires verb == F.USER || verb == F.PASS
      modifies this
      ensures State() == Plainly(old(State()), verb, arg)
    {
      hide F.Resolve, F.Parent, F.Shut, F.IsImage;
      match verb
      case USER =>
        username, login := arg, F.User;
        Say(331, "Password required for " + arg);
      case PASS =>
        login := F.Auth;
        Say(230, "User " + username + " logged in");
    }

    /** The other commands about the session. */
    method DispatchSession(verb: F.Verb, arg: string)
      requires OfSession(verb)
      modifies this
      ensures State() == Plainly(old(State()), verb, arg)
    {
      hide F.Resolve, F.Parent, F.Shut, F.IsImage;
      match verb
      case SYST => Say(215, "UNIX Type: L8");
      case FEAT => Say(211, F.FEATURES);
      case NOOP => Say(200, "OK");
      case HELP => Say(214, "No help available");
      case QUIT => Say(221, "Goodbye");
      case UNKNOWN => Say(502, "Command not implemented");
    }

    /** The commands about the place and the transfer type. */
    method DispatchPlace(verb: F.Verb, arg: string)
      requires OfPlace(verb)
      modifies this
      ensures State() == Plainly(old(State()), verb, arg)
    {
      hide F.Resolve, F.Parent;
      match verb
      case PWD => Say(257, "\"" + cwd + "\"");
      case CWD =>
        var target := ResolveFtpPath(arg, cwd);
        cwd := target;
        Say(250, "CWD command successful");
      case CDUP =>
        var parent := ParentFtpPath(cwd);
        cwd := parent;
        Say(250, "CWD command successful");
      case TYPE =>
        binary := UppersToI(arg);
        Say(200, "Type set");
    }

    method DispatchRetr(arg: string)
      modifies this
      ensures State() == Plainly(old(State()), F.RETR, arg)
    {
      hide F.Resolve, F.Parent, F.IsImage;
      if dataListen.Some? {
        CloseListener();
        dataListen := None;
      }
      Say(550, arg + ": No such file or directory");
    }

    /** The other commands about files, of which there are none. */
    method DispatchFile(verb: F.Verb, arg: string)
      requires OfFile(verb)
      modifies this
      ensures State() == Plainly(old(State()), verb, arg)
    {
      hide F.Resolve, F.Parent, F.Shut, F.IsImage;
      match verb
      case SIZE => Say(550, arg + ": No such file");
      case MDTM => Say(550, arg + ": No such file");
      case MKD => Say(257, "\"" + arg + "\"" + " created");
      case RMD => Say(250, "OK");
      case RNFR => Say(350, "Awaiting new name");
      case RNTO => Say(250, "Rename successful");
    }

    method DispatchPlain(verb: F.Verb, arg: string)
      requires verb != F.PASV && !F.Moves(verb)
      modifies this
      ensures State() == Plainly(old(State()), verb, arg)
    {
      hide Plainly;
      if OfPlace(verb) {
        DispatchPlace(verb, arg);
      } else if OfFile(verb) {
        DispatchFile(verb, arg);
      } else if verb == F.RETR {
        DispatchRetr(arg);
      } else if verb == F.USER || verb == F.PASS {
        DispatchLogin(verb, arg);
      } else {
        DispatchSession(verb, arg);
      }
    }

    method Dispatch(cmd: string, arg: string, env: F.Env) returns (result: F.Result)
      modifies this
      ensures State() == F.Step(old(State()), F.VerbOf(cmd), arg, env)
      ensures result == F.ResultOf(old(State()), F.VerbOf(cmd), arg, env)
      ensures Tidy(old(State())) ==> Tidy(State())
      ensures old(replies) <= replies && Answers(replies[|old(replies)|..])
      ensures cwd == if cmd == "CWD" || cmd == "XCWD" then F.Resolve(arg, old(cwd))
                     else if cmd == "CDUP" then F.Parent(old(cwd)) else old(cwd)
      ensures (result.quit <==> cmd == "QUIT") && result.password == if cmd == "PASS" then arg else ""
    {
      hide F.VerbOf, F.Answer, F.Changed, F.OpenPasv, F.Transfer, Tidy, Answers;
      DispatchKeepsLaws(State(), cmd, arg, env);
      var verb := F.VerbOf(cmd);
      result := F.PLAIN;
      if verb == F.PASV {
        OpenPasv(env);
      } else if verb == F.LIST {
        var _ := MoveData(env);
      } else if verb == F.STOR {
        var upload := RecvUpload(env);
        if upload.Some? {
          result := result.(upload := upload, filename := arg);
        }
      } else {
        DispatchPlain(verb, arg);
        if verb == F.PASS {
          result := result.(password := arg);
        } else if verb == F.QUIT {
          result := result.(quit := true);
        }
      }
    }
  }
}
