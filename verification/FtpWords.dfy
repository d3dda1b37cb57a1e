/** The laws of the FTP control connection over the command words a client types. */
module FtpWords {
  import opened Events
  import opened Paths
  import opened FtpSession
  import opened FtpLaws

  /** A command line as readLine hands it over: the word in upper case and the rest. */
  datatype Line = Line(word: string, arg: string, env: Env)

  function Typed(lines: seq<Line>): seq<Command> {
    if lines == [] then []
    else
      var last := lines[|lines| - 1];
      Typed(lines[..|lines| - 1]) + [Command.Command(VerbOf(last.word), last.arg, last.env)]
  }

  /** The connection after these lines. */
  function AfterLines(lines: seq<Line>): Conn {
    After(Typed(lines))
  }

  // ---------------------------------------------------------------------------
  // Words and verbs.

  lemma SessionWords(word: string)
    ensures VerbOf(word) == USER <==> word == "USER"
    ensures VerbOf(word) == PASS <==> word == "PASS"
    ensures VerbOf(word) == TYPE <==> word == "TYPE"
    ensures VerbOf(word) == QUIT <==> word == "QUIT"
  {
  }

  lemma PlaceWords(word: string)
    ensures VerbOf(word) == CWD <==> word == "CWD" || word == "XCWD"
    ensures VerbOf(word) == CDUP <==> word == "CDUP"
    ensures VerbOf(word) == PWD <==> word == "PWD" || word == "XPWD"
  {
  }

  lemma DataWords(word: string)
    ensures VerbOf(word) == PASV <==> word == "PASV"
    ensures VerbOf(word) == LIST <==> word == "LIST" || word == "NLST"
    ensures VerbOf(word) == STOR <==> word == "STOR"
    ensures VerbOf(word) == RETR <==> word == "RETR"
  {
  }

  lemma FileWords(word: string)
    ensures VerbOf(word) == SIZE <==> word == "SIZE"
    ensures VerbOf(word) == MDTM <==> word == "MDTM"
    ensures VerbOf(word) == MKD <==> word == "MKD" || word == "XMKD"
    ensures VerbOf(word) == RMD <==> word == "RMD" || word == "XRMD" || word == "DELE"
  {
  }

  lemma OtherWords(word: string)
    ensures VerbOf(word) == RNFR <==> word == "RNFR"
    ensures VerbOf(word) == RNTO <==> word == "RNTO"
    ensures VerbOf(word) == SYST <==> word == "SYST"
    ensures VerbOf(word) == FEAT <==> word == "FEAT"
    ensures VerbOf(word) == NOOP <==> word == "NOOP"
    ensures VerbOf(word) == HELP <==> word == "HELP"
  {
  }

  // ---------------------------------------------------------------------------
  // The working directory.

  /** Where these lines lead: CWD and XCWD walk on, CDUP goes up, every other word stays. */
  function PlaceByWords(lines: seq<Line>): seq<string> {
    if lines == [] then []
    else
      var before, last := PlaceByWords(lines[..|lines| - 1]), lines[|lines| - 1];
      if last.word == "CWD" || last.word == "XCWD" then
        Walk(if last.arg != "" && last.arg[0] == '/' then [] else before, Split(last.arg))
      else if last.word == "CDUP" then if before == [] then [] else before[..|before| - 1]
      else before
  }

  lemma TypedLast(lines: seq<Line>)
    requires lines != []
    ensures
      var commands, last := Typed(lines), lines[|lines| - 1];
      && commands != [] && commands[..|commands| - 1] == Typed(lines[..|lines| - 1])
      && commands[|commands| - 1] == Command.Command(VerbOf(last.word), last.arg, last.env)
  {
  }

  lemma {:induction false} PlacesAgree(lines: seq<Line>)
    ensures Place(Typed(lines)) == PlaceByWords(lines)
  {
    hide VerbOf, Walk, Split, Typed;
    if lines == [] {
      NothingTyped();
    } else {
      TypedLast(lines);
      PlacesAgree(lines[..|lines| - 1]);
      PlaceWords(lines[|lines| - 1].word);
    }
  }

  lemma NothingTyped()
    ensures Typed([]) == []
  {
  }

  /** Whatever is typed, the working directory is the canonical path of that place. */
  lemma CwdByWords(lines: seq<Line>)
    ensures AfterLines(lines).cwd == Render(PlaceByWords(lines)) && Canonical(AfterLines(lines).cwd)
  {
    hide Typed, Place, PlaceByWords, After, Canonical, AllProper;
    PlacesAgree(lines);
    CwdIsAWalk(Typed(lines));
    RenderedIsCanonical(PlaceByWords(lines));
  }

  // ---------------------------------------------------------------------------
  // The login and the transfer type.

  /** The argument of the last line with a word. */
  function LastArgOf(lines: seq<Line>, word: string): Option<string> {
    if lines == [] then None
    else if lines[|lines| - 1].word == word then Some(lines[|lines| - 1].arg)
    else LastArgOf(lines[..|lines| - 1], word)
  }

  function LoginByWords(lines: seq<Line>): Login {
    if lines == [] then Init
    else if lines[|lines| - 1].word == "USER" then User
    else if lines[|lines| - 1].word == "PASS" then Auth
    else LoginByWords(lines[..|lines| - 1])
  }

  lemma {:induction false} HistoriesAgree(lines: seq<Line>)
    ensures LastArg(Typed(lines), USER) == LastArgOf(lines, "USER")
    ensures LastArg(Typed(lines), TYPE) == LastArgOf(lines, "TYPE")
    ensures LoginOf(Typed(lines)) == LoginByWords(lines)
  {
    hide VerbOf, Typed;
    if lines == [] {
      NothingTyped();
    } else {
      TypedLast(lines);
      HistoriesAgree(lines[..|lines| - 1]);
      SessionWords(lines[|lines| - 1].word);
    }
  }

  /** The user name, login state and transfer type are those of the last USER, USER or PASS, and TYPE lines. */
  lemma FieldsByWords(lines: seq<Line>)
    ensures
      var c, user, kind := AfterLines(lines), LastArgOf(lines, "USER"), LastArgOf(lines, "TYPE");
      && c.username == (if user.Some? then user.value else "")
      && c.login == LoginByWords(lines)
      && (c.binary <==> kind.Some? && (kind.value == "I" || kind.value == "i" || kind.value == "\U{0131}"))
  {
    hide Typed, After, LastArg, LoginOf, LastArgOf, LoginByWords;
    HistoriesAgree(lines);
    FieldsAreHistory(Typed(lines));
  }

  // ---------------------------------------------------------------------------
  // The replies.

  predicate TransferWord(word: string) {
    word == "LIST" || word == "NLST" || word == "STOR"
  }

  lemma TransferWords(word: string)
    ensures Moves(VerbOf(word)) <==> TransferWord(word)
  {
    hide VerbOf;
    DataWords(word);
  }

  /** 227 comes only from PASV; 150 exactly from LIST, NLST and STOR while a listener is set, and then 226
      exactly when a data connection came; an upload comes exactly from a STOR answered 226, a password from
      PASS, and the end from QUIT. */
  lemma RepliesByWord(c: Conn, word: string, arg: string, env: Env)
    ensures
      var next, r := Step(c, VerbOf(word), arg, env), ResultOf(c, VerbOf(word), arg, env);
      && c.replies <= next.replies && Answers(Added(c, next))
      && (word != "PASV" ==> forall k :: 0 <= k < |Added(c, next)| ==> Added(c, next)[k].code != 227)
      && (Added(c, next)[0].code == 150 <==>
          (word == "LIST" || word == "NLST" || word == "STOR") && c.dataListen.Some?)
      && (Added(c, next)[0].code == 150 ==>
          (Added(c, next)[1].code == 226 <==> Listening(c) && env.tcp && env.accept.Some?))
      && (r.upload.Some? <==> word == "STOR" && next.replies[|next.replies| - 1].code == 226)
      && r.password == (if word == "PASS" then arg else "")
      && (r.quit <==> word == "QUIT")
  {
    hide VerbOf, Step, Answers, Listening, Uploaded;
    TransferWords(word);
    DataWords(word);
    SessionWords(word);
    StepAnswers(c, VerbOf(word), arg, env);
    UploadsAreAnswered(c, VerbOf(word), arg, env);
    if word != "PASV" {
      OnlyPasvSays227(c, VerbOf(word), arg, env);
    }
  }

  /** PASV opens the port it announces. */
  lemma PasvByWord(c: Conn, arg: string, env: Env)
    ensures
      var next := Step(c, VerbOf("PASV"), arg, env);
      && next.replies != [] &&
      var last := next.replies[|next.replies| - 1];
      && (last.code == 227 <==> env.listen.Some? && env.tcp && !env.local.NotTcp?)
      && (last.code == 227 ==>
          && Listening(next)
          && ParsePassive(last.text) ==
             Some((match env.local case V4(a, b, c, d) => [a, b, c, d] case _ => [127, 0, 0, 1], env.listen.value)))
  {
    hide VerbOf, PassiveText, ParsePassive;
    DataWords("PASV");
    PassivePortIsListening(c, arg, env);
  }

  /** The final reply to each word. */
  lemma SessionCodes(c: Conn, word: string, arg: string, env: Env)
    ensures
      var last := LastReply(Step(c, VerbOf(word), arg, env));
      && (word == "USER" ==> last == Reply(331, "Password required for " + arg))
      && (word == "PASS" ==> last == Reply(230, "User " + c.username + " logged in"))
      && (word == "SYST" ==> last == Reply(215, "UNIX Type: L8"))
      && (word == "TYPE" ==> last == Reply(200, "Type set"))
      && (word == "NOOP" ==> last == Reply(200, "OK"))
      && (word == "HELP" ==> last == Reply(214, "No help available"))
      && (word == "QUIT" ==> last == Reply(221, "Goodbye"))
      && (word == "FEAT" ==> last == Reply(211, "Features:\r\n PASV\r\n UTF8\r\n SIZE\r\nEnd"))
  {
    hide VerbOf, Changed, PassiveText;
    SessionWords(word);
    OtherWords(word);
  }

  lemma PlaceCodes(c: Conn, word: string, arg: string, env: Env)
    ensures
      var last := LastReply(Step(c, VerbOf(word), arg, env));
      && (word == "PWD" || word == "XPWD" ==> last == Reply(257, "\"" + c.cwd + "\""))
      && (word == "CWD" || word == "XCWD" || word == "CDUP" ==> last == Reply(250, "CWD command successful"))
      && (word == "MKD" || word == "XMKD" ==> last == Reply(257, "\"" + arg + "\" created"))
      && (word == "RMD" || word == "XRMD" || word == "DELE" ==> last == Reply(250, "OK"))
  {
    hide VerbOf, Changed, PassiveText;
    PlaceWords(word);
    FileWords(word);
    assert "\"" + arg + "\" created" == Quoted(arg) + " created";
  }

  lemma FileCodes(c: Conn, word: string, arg: string, env: Env)
    ensures
      var last := LastReply(Step(c, VerbOf(word), arg, env));
      && (word == "RETR" ==> last == Reply(550, arg + ": No such file or directory"))
      && (word == "SIZE" || word == "MDTM" ==> last == Reply(550, arg + ": No such file"))
      && (word == "RNFR" ==> last == Reply(350, "Awaiting new name"))
      && (word == "RNTO" ==> last == Reply(250, "Rename successful"))
  {
    hide VerbOf, Changed, PassiveText;
    DataWords(word);
    FileWords(word);
    OtherWords(word);
  }

  lemma DataCodes(c: Conn, word: string, arg: string, env: Env)
    ensures
      var next := Step(c, VerbOf(word), arg, env);
      && ((word == "LIST" || word == "NLST" || word == "STOR") && c.dataListen.None? ==>
          next.replies == c.replies + [Reply(425, "Use PASV first")])
      && ((word == "LIST" || word == "NLST" || word == "STOR") && c.dataListen.Some? ==>
          next.replies == c.replies + [Reply(150, "Opening data connection")] +
            [if Listening(c) && env.tcp && env.accept.Some? then Reply(226, "Transfer complete")
             else Reply(425, "Cannot open data connection")])
      && (word == "PASV" && (env.listen.None? || !env.tcp || env.local.NotTcp?) ==>
          next.replies == c.replies + [Reply(425, "Cannot open data connection")])
  {
    hide VerbOf, Changed, PassiveText, Answer, Shut, Listening;
    DataWords(word);
  }

  // ---------------------------------------------------------------------------
  // The data listener.

  /** The sockets with the listener of dataListen closed. */
  ghost predicate OneShut(c: Conn, next: Conn) {
    |c.sockets| <= |next.sockets| &&
    forall l: nat :: l < |c.sockets| ==>
      next.sockets[l].port == c.sockets[l].port
      && (next.sockets[l].isOpen <==> c.sockets[l].isOpen && c.dataListen != Some(l))
  }

  /** LIST, NLST, STOR and RETR close and forget the listener; PASV closes it, and opens and remembers another
      if it can; every other word leaves it alone. */
  lemma ListenerByWord(c: Conn, word: string, arg: string, env: Env)
    ensures
      var next := Step(c, VerbOf(word), arg, env);
      if word == "LIST" || word == "NLST" || word == "STOR" || word == "RETR" then
        OneShut(c, next) && |next.sockets| == |c.sockets| && next.dataListen == None
      else if word == "PASV" then
        && OneShut(c, next)
        && if env.listen.None? then |next.sockets| == |c.sockets| && next.dataListen == c.dataListen
           else |next.sockets| == |c.sockets| + 1 && next.dataListen == Some(|c.sockets|)
                && next.sockets[|c.sockets|] == Socket(env.listen.value, true)
      else next.sockets == c.sockets && next.dataListen == c.dataListen
  {
    hide VerbOf, PassiveText, Answer, Accepted, Resolve, Parent, IsImage;
    DataWords(word);
  }

  /** A word that is none of the known ones changes nothing and is answered 502. */
  lemma UnknownWord(c: Conn, word: string, arg: string, env: Env)
    requires word !in KNOWN
    ensures Step(c, VerbOf(word), arg, env) == c.(replies := c.replies + [Reply(502, "Command not implemented")])
  {
    hide VerbOf, PassiveText;
    UnknownVerb(word);
  }

  const KNOWN := ["USER", "PASS", "SYST", "FEAT", "PWD", "XPWD", "CWD", "XCWD", "CDUP", "TYPE", "PASV", "LIST", "NLST",
                  "RETR", "STOR", "SIZE", "MDTM", "MKD", "XMKD", "RMD", "XRMD", "DELE", "RNFR", "RNTO", "NOOP", "HELP",
                  "QUIT"]

  lemma UnknownVerb(word: string)
    requires word !in KNOWN
    ensures VerbOf(word) == UNKNOWN
  {
  }

  function LastReply(c: Conn): Reply {
    if c.replies == [] then Reply(0, "") else c.replies[|c.replies| - 1]
  }
}
