/** What holds of every FTP control connection. */
module FtpLaws {
  import opened Events
  import opened Paths
  import opened FtpSession

  // ---------------------------------------------------------------------------
  // The working directory.

  lemma ResolveMeans(path: string, cwd: string)
    ensures Resolve(path, cwd) == Clean(if path != "" && path[0] == '/' then path else cwd + "/" + path)
    ensures Canonical(Resolve(path, cwd))
  {
    CleanRooted(path);
    CleanIsCanonical(path);
    CleanIsCanonical("/" + path);
    CleanIsCanonical(cwd + "/" + path);
    if cwd == "/" {
      assert cwd + "/" + path == "/" + "/" + path;
    }
  }

  /** "CWD a" and then "CWD b" end where "CWD a/b" ends. */
  predicate Composes(a: string, b: string, cwd: string) {
    Resolve(b, Resolve(a, cwd)) == Resolve(a + "/" + b, cwd)
  }

  predicate RelativePath(path: string) {
    path == "" || path[0] != '/'
  }

  lemma CwdComposes(a: string, b: string, cwd: string)
    requires a != "" && RelativePath(b)
    ensures Composes(a, b, cwd)
  {
    hide Clean, Canonical, Resolve;
    ResolveMeans(a, cwd);
    ResolveMeans(b, Resolve(a, cwd));
    ResolveMeans(a + "/" + b, cwd);
    CleanThrough(if a[0] == '/' then a else cwd + "/" + a, b);
    assert (a + "/" + b)[0] == a[0];
    assert cwd + "/" + (a + "/" + b) == (cwd + "/" + a) + "/" + b;
  }

  /** A walk forgets at most one level of difference a step. */
  lemma {:induction false} DepthsApproach(x: seq<string>, y: seq<string>, segments: seq<string>)
    requires |x| >= |y|
    ensures |Walk(x, segments)| - |Walk(y, segments)| >= |x| - |y| - |segments|
    ensures |Walk(x, segments)| >= |Walk(y, segments)|
    decreases segments
  {
    if segments != [] {
      DepthsApproach(Move(x, segments[0]), Move(y, segments[0]), segments[1..]);
    }
  }

  function Deep(n: nat): seq<string> {
    if n == 0 then [] else Deep(n - 1) + ["a"]
  }

  lemma {:induction false} DeepIsProper(n: nat)
    ensures |Deep(n)| == n && AllProper(Deep(n))
  {
    if n > 0 {
      DeepIsProper(n - 1);
    }
  }

  /** An absolute b forgets where "CWD a" led, and from deep enough that shows. */
  lemma AbsoluteForgets(b: string) returns (a: string)
    requires !RelativePath(b)
    ensures a != "" && !Composes(a, b, "/")
  {
    var place := Deep(|Split(b)| + 1);
    DeepIsProper(|Split(b)| + 1);
    a := Render(place);
    MeaningOfRendered(place);
    AbsoluteEnds(a, b);
    DepthsApproach(place, [], Split(b));
    MeaningIsProper(b);
    MeaningIsProper(a + "/" + b);
    MeaningOfRendered(Meaning(b));
    MeaningOfRendered(Meaning(a + "/" + b));
    MeaningAround(a, b);
  }

  lemma AbsoluteEnds(a: string, b: string)
    requires a != "" && a[0] == '/' && !RelativePath(b)
    ensures Resolve(b, Resolve(a, "/")) == Clean(b) && Resolve(a + "/" + b, "/") == Clean(a + "/" + b)
  {
    assert (a + "/" + b)[0] == a[0];
  }

  /** For which b does "CWD a" compose with "CWD b" from anywhere, for every non-empty a? For the relative
      ones, and for no absolute one. */
  lemma CwdComposesExactly(b: string)
    ensures (forall a, cwd :: a != "" ==> Composes(a, b, cwd)) <==> RelativePath(b)
  {
    hide Composes, RelativePath;
    if RelativePath(b) {
      forall a, cwd | a != ""
        ensures Composes(a, b, cwd)
      {
        CwdComposes(a, b, cwd);
      }
    } else {
      var a := AbsoluteForgets(b);
    }
  }

  /** An empty a turns "a/b" absolute, so that it composes with every relative b exactly from directories
      that mean the root. */
  lemma EmptyCwdComposesExactly(cwd: string)
    ensures (forall b :: RelativePath(b) ==> Composes("", b, cwd)) <==> Meaning(cwd) == []
  {
    hide Clean, Canonical, Meaning, Split, Walk, Composes;
    EmptyEnds("", cwd);
    WalkNowhere(Meaning(cwd));
    WalkNowhere([]);
    forall b | RelativePath(b)
      ensures Composes("", b, cwd) <==> Walk(Meaning(cwd), Split(b)) == Walk([], Split(b))
    {
      EmptyEnds(b, cwd);
    }
    assert Composes("", "", cwd) <==> Meaning(cwd) == [];
  }

  lemma WalkNowhere(place: seq<string>)
    ensures Walk(place, Split("")) == place
  {
    SplitPlain("");
    assert Walk(place, [""]) == Walk(place, []);
  }

  lemma EmptyEnds(b: string, cwd: string)
    requires RelativePath(b)
    ensures Composes("", b, cwd) <==> Walk(Meaning(cwd), Split(b)) == Walk([], Split(b))
  {
    hide Canonical, Meaning, Split, Walk, Resolve, AllProper;
    ResolveMeans("", cwd);
    ResolveMeans(b, Resolve("", cwd));
    ResolveMeans("" + "/" + b, cwd);
    assert "" + "/" + b == "/" + b && ("/" + b)[0] == '/';
    assert cwd + "/" + "" == cwd + "/";
    CleanTrailing(cwd);
    CleanThrough(cwd, b);
    MeaningAround(cwd, b);
    MeaningAround("", b);
    MeaningIsProper(cwd + "/" + b);
    MeaningIsProper("" + "/" + b);
    RenderInjective(Meaning(cwd + "/" + b), Meaning("/" + b));
    EmptyMeans();
  }

  lemma EmptyMeans()
    ensures Meaning("") == []
  {
    WalkNowhere([]);
  }

  lemma RenderInjective(x: seq<string>, y: seq<string>)
    requires AllProper(x) && AllProper(y)
    ensures Render(x) == Render(y) <==> x == y
  {
    hide Render, Meaning;
    MeaningOfRendered(x);
    MeaningOfRendered(y);
  }

  lemma ParentMeans(cwd: string)
    requires Canonical(cwd)
    ensures Parent(cwd) == Clean(cwd + "/" + "..")
  {
    hide Split, Clean, Canonical, Meaning, AllProper;
    CanonicalSplit(cwd);
    CleanParent(cwd);
    var place := Meaning(cwd);
    if cwd != "/" && |place| > 1 {
      var front := place[..|place| - 1];
      assert Split(cwd)[..|place|] == [""] + front;
      assert ([""] + front)[1..] == front;
    }
  }

  /** CDUP is CWD "..". */
  lemma CdupIsCwdUp(c: Conn, env: Env, arg: string)
    requires Canonical(c.cwd)
    ensures Step(c, CDUP, arg, env) == Step(c, CWD, "..", env)
  {
    ParentMeans(c.cwd);
    ResolveMeans("..", c.cwd);
  }

  /** Where a run of commands leads: CWD walks on from the place, or from the root, and CDUP goes up. */
  function Place(commands: seq<Command>): seq<string> {
    if commands == [] then []
    else
      var before, last := Place(commands[..|commands| - 1]), commands[|commands| - 1];
      if last.verb == CWD then Walk(if last.arg != "" && last.arg[0] == '/' then [] else before, Split(last.arg))
      else if last.verb == CDUP then Up(before)
      else before
  }

  /** In every session the working directory is the canonical path of that place. */
  lemma {:induction false} CwdIsAWalk(commands: seq<Command>)
    ensures AllProper(Place(commands)) && After(commands).cwd == Render(Place(commands))
  {
    hide Step, AllProper, Clean, Meaning, Canonical, Split, Resolve, Parent;
    if commands == [] {
      NoNames();
    } else {
      var n := |commands| - 1;
      var before, last := After(commands[..n]), commands[n];
      CwdIsAWalk(commands[..n]);
      MeaningOfRendered(Place(commands[..n]));
      RenderedIsCanonical(Place(commands[..n]));
      StepMovesCwd(before, last.verb, last.arg, last.env);
      ResolveWalks(last.arg, before.cwd);
      ParentWalks(before.cwd);
    }
  }

  lemma NoNames()
    ensures AllProper([])
  {
  }

  lemma StepMovesCwd(c: Conn, verb: Verb, arg: string, env: Env)
    ensures Step(c, verb, arg, env).cwd ==
      if verb == CWD then Resolve(arg, c.cwd) else if verb == CDUP then Parent(c.cwd) else c.cwd
  {
    hide Answer, Resolve, Parent, PassiveText, Shut;
  }

  lemma ResolveWalks(path: string, cwd: string)
    ensures var place := Walk(if path != "" && path[0] == '/' then [] else Meaning(cwd), Split(path));
      Resolve(path, cwd) == Render(place) && AllProper(place)
  {
    hide AllProper, Split, Resolve, Canonical;
    ResolveMeans(path, cwd);
    MeaningAround(cwd, path);
    MeaningIsProper(path);
    MeaningIsProper(cwd + "/" + path);
  }

  lemma ParentWalks(cwd: string)
    requires Canonical(cwd)
    ensures Parent(cwd) == Render(Up(Meaning(cwd))) && AllProper(Up(Meaning(cwd)))
  {
    hide Split, Parent, Canonical, Meaning;
    ParentMeans(cwd);
    CleanParent(cwd);
    MeaningIsProper(cwd);
  }

  /** The argument of the last command of a kind. */
  function LastArg(commands: seq<Command>, verb: Verb): Option<string> {
    if commands == [] then None
    else if commands[|commands| - 1].verb == verb then Some(commands[|commands| - 1].arg)
    else LastArg(commands[..|commands| - 1], verb)
  }

  function LoginOf(commands: seq<Command>): Login {
    if commands == [] then Init
    else if commands[|commands| - 1].verb == USER then User
    else if commands[|commands| - 1].verb == PASS then Auth
    else LoginOf(commands[..|commands| - 1])
  }

  /** The other fields remember the last USER, PASS and TYPE. */
  lemma {:induction false} FieldsAreHistory(commands: seq<Command>)
    ensures
      var c := After(commands);
      && c.username == (if LastArg(commands, USER).Some? then LastArg(commands, USER).value else "")
      && c.login == LoginOf(commands)
      && c.binary == (LastArg(commands, TYPE).Some? && IsImage(LastArg(commands, TYPE).value))
  {
    hide Step, IsImage;
    if commands != [] {
      var n := |commands| - 1;
      FieldsAreHistory(commands[..n]);
      StepSetsFields(After(commands[..n]), commands[n].verb, commands[n].arg, commands[n].env);
    }
  }

  lemma StepSetsFields(c: Conn, verb: Verb, arg: string, env: Env)
    ensures
      var next := Step(c, verb, arg, env);
      && next.username == (if verb == USER then arg else c.username)
      && next.login == (if verb == USER then User else if verb == PASS then Auth else c.login)
      && next.binary == (if verb == TYPE then IsImage(arg) else c.binary)
  {
    hide Answer, Resolve, Parent, PassiveText, Shut, IsImage;
  }

  // ---------------------------------------------------------------------------
  // The data listener and the replies.

  /** The working directory is canonical, and a listener that is open is the current one. */
  ghost predicate Tidy(c: Conn) {
    Canonical(c.cwd) && OneListener(c.dataListen, c.sockets)
  }

  ghost predicate OneListener(listener: Option<nat>, sockets: seq<Socket>) {
    && (listener.Some? ==> listener.value < |sockets|)
    && forall k :: 0 <= k < |sockets| && sockets[k].isOpen ==> listener == Some(k)
  }

  /** What one command adds to the replies: one final reply, or 150 and then 226 or 425. */
  ghost predicate Answers(added: seq<Reply>) {
    (|added| == 1 && added[0].code >= 200)
    || (|added| == 2 && added[0].code == 150 && (added[1].code == 226 || added[1].code == 425))
  }

  lemma StepKeepsCwd(c: Conn, verb: Verb, arg: string, env: Env)
    requires Canonical(c.cwd)
    ensures Canonical(Step(c, verb, arg, env).cwd)
  {
    hide Answer, Resolve, Parent, Canonical, PassiveText, Clean, Shut;
    ResolveMeans(arg, c.cwd);
    ParentMeans(c.cwd);
    CleanIsCanonical(c.cwd + "/" + "..");
  }

  lemma StepKeepsOneListener(c: Conn, verb: Verb, arg: string, env: Env)
    requires OneListener(c.dataListen, c.sockets)
    ensures OneListener(Step(c, verb, arg, env).dataListen, Step(c, verb, arg, env).sockets)
  {
    hide Answer, Resolve, Parent, PassiveText, Accepted, IsImage;
  }

  lemma StepKeepsTidy(c: Conn, verb: Verb, arg: string, env: Env)
    requires Tidy(c)
    ensures Tidy(Step(c, verb, arg, env))
  {
    hide Step, Canonical, OneListener;
    StepKeepsCwd(c, verb, arg, env);
    StepKeepsOneListener(c, verb, arg, env);
  }

  /** In every reachable state the working directory is canonical and at most one listener is open:
      the one in dataListen. */
  lemma {:induction false} AlwaysTidy(commands: seq<Command>)
    ensures Tidy(After(commands))
  {
    if commands != [] {
      var n := |commands| - 1;
      AlwaysTidy(commands[..n]);
      StepKeepsTidy(After(commands[..n]), commands[n].verb, commands[n].arg, commands[n].env);
    }
  }

  /** After close nothing is left open. */
  lemma NothingLeftOpen(commands: seq<Command>)
    ensures forall k :: 0 <= k < |Closed(After(commands)).sockets| ==> !Closed(After(commands)).sockets[k].isOpen
  {
    AlwaysTidy(commands);
  }

  function Added(c: Conn, next: Conn): seq<Reply>
    requires c.replies <= next.replies
  {
    next.replies[|c.replies|..]
  }

  /** Each command is answered by exactly one reply of 200 or more; 150 comes only in front of 226 or
      425, exactly for a transfer while dataListen is set, and 226 exactly when a data connection came. */
  lemma StepAnswers(c: Conn, verb: Verb, arg: string, env: Env)
    ensures
      var next := Step(c, verb, arg, env);
      && c.replies <= next.replies && Answers(Added(c, next))
      && (Added(c, next)[0].code == 150 <==> Moves(verb) && c.dataListen.Some?)
      && (Added(c, next)[0].code == 150 ==>
          && next.dataListen == None
          && (Added(c, next)[1].code == 226 <==> Listening(c) && env.tcp && env.accept.Some?))
  {
    hide Answer, PassiveText, Changed, Shut;
    PlainAnswer(c, verb, arg);
    ChangedSaysNothing(c, verb, arg);
    var next := Step(c, verb, arg, env);
    var last := next.replies[|next.replies| - 1];
    if Moves(verb) && c.dataListen.Some? {
      var first := next.replies[|c.replies|];
      assert next.replies == c.replies + [first] + [last];
      assert Added(c, next) == [first, last];
    } else {
      assert next.replies == c.replies + [last];
      assert Added(c, next) == [last];
    }
  }

  lemma ChangedSaysNothing(c: Conn, verb: Verb, arg: string)
    ensures Changed(c, verb, arg).replies == c.replies
  {
  }

  lemma PlainAnswer(c: Conn, verb: Verb, arg: string)
    ensures Answer(c, verb, arg).code >= 200 && Answer(c, verb, arg).code != 226 && Answer(c, verb, arg).code != 227
  {
  }

  function Finals(replies: seq<Reply>): nat {
    if replies == [] then 0
    else Finals(replies[..|replies| - 1]) + if replies[|replies| - 1].code >= 200 then 1 else 0
  }

  lemma {:induction false} FinalsAdd(xs: seq<Reply>, ys: seq<Reply>)
    ensures Finals(xs + ys) == Finals(xs) + Finals(ys)
  {
    if ys == [] {
      assert xs + ys == xs;
    } else {
      var n := |ys| - 1;
      assert (xs + ys)[..|xs| + n] == xs + ys[..n];
      FinalsAdd(xs, ys[..n]);
    }
  }

  lemma AnswersOnce(added: seq<Reply>)
    requires Answers(added)
    ensures Finals(added) == 1
  {
    assert added[..1] == [added[0]];
    assert Finals(added[..1]) == Finals([]) + if added[0].code >= 200 then 1 else 0;
  }

  /** Over a whole session the final replies are as many as the commands. */
  lemma {:induction false} OneFinalReplyPerCommand(commands: seq<Command>)
    ensures Finals(After(commands).replies) == |commands|
  {
    if commands != [] {
      var n := |commands| - 1;
      var before, next := After(commands[..n]), After(commands);
      OneFinalReplyPerCommand(commands[..n]);
      StepAnswers(before, commands[n].verb, commands[n].arg, commands[n].env);
      assert next.replies == before.replies + Added(before, next);
      FinalsAdd(before.replies, Added(before, next));
      AnswersOnce(Added(before, next));
    }
  }

  // ---------------------------------------------------------------------------
  // The 227 reply, read by a client.

  predicate IsDigit(c: char) {
    '0' <= c <= '9'
  }

  function DigitValue(c: char): nat
    requires IsDigit(c)
  {
    c as int - '0' as int
  }

  /** The digits a text starts with, and what follows them. */
  function SpanDigits(text: string): (r: (string, string))
    ensures text == r.0 + r.1 && forall k :: 0 <= k < |r.0| ==> IsDigit(r.0[k])
  {
    if text == "" || !IsDigit(text[0]) then ("", text)
    else
      var r := SpanDigits(text[1..]);
      ([text[0]] + r.0, r.1)
  }

  function NumberOf(digits: string): nat
    requires forall k :: 0 <= k < |digits| ==> IsDigit(digits[k])
  {
    if digits == "" then 0
    else 10 * NumberOf(digits[..|digits| - 1]) + DigitValue(digits[|digits| - 1])
  }

  /** n numbers with commas between them, and what follows. */
  function ParseNumbers(text: string, n: nat): Option<(seq<nat>, string)>
    decreases n
  {
    if n == 0 then Some(([], text))
    else
      var span := SpanDigits(text);
      if span.0 == "" then None
      else if n == 1 then Some(([NumberOf(span.0)], span.1))
      else if span.1 == "" || span.1[0] != ',' then None
      else
        match ParseNumbers(span.1[1..], n - 1)
        case None => None
        case Some((more, rest)) => Some(([NumberOf(span.0)] + more, rest))
  }

  /** What follows the first opening parenthesis. */
  function AfterParen(text: string): string {
    if text == "" then "" else if text[0] == '(' then text[1..] else AfterParen(text[1..])
  }

  /** A client's reading of the 227 text (section 4.1.2 of RFC 959): in parentheses four octets of host and
      two of port, the high one first. */
  function ParsePassive(text: string): Option<(seq<nat>, nat)> {
    match ParseNumbers(AfterParen(text), 6)
    case None => None
    case Some((ns, rest)) =>
      if |ns| == 6 && rest == ")" then Some((ns[..4], 256 * ns[4] + ns[5])) else None
  }

  lemma {:induction false} ParenFound(before: string, after: string)
    requires '(' !in before
    ensures AfterParen(before + "(" + after) == after
  {
    var text := before + "(" + after;
    if before == "" {
      assert text[0] == '(' && text[1..] == after;
    } else {
      assert text[0] == before[0] && text[1..] == before[1..] + "(" + after;
      ParenFound(before[1..], after);
    }
  }

  lemma {:induction false} DecimalReads(n: nat)
    ensures Decimal(n) != "" && (forall k :: 0 <= k < |Decimal(n)| ==> IsDigit(Decimal(n)[k]))
    ensures NumberOf(Decimal(n)) == n
  {
    if n >= 10 {
      DecimalReads(n / 10);
      assert Decimal(n)[..|Decimal(n)| - 1] == Decimal(n / 10);
    } else {
      assert Decimal(n)[..0] == "";
    }
  }

  lemma {:induction false} SpanStops(digits: string, rest: string)
    requires forall k :: 0 <= k < |digits| ==> IsDigit(digits[k])
    requires rest == "" || !IsDigit(rest[0])
    ensures SpanDigits(digits + rest) == (digits, rest)
  {
    if digits == "" {
      assert digits + rest == rest;
    } else {
      assert (digits + rest)[1..] == digits[1..] + rest;
      SpanStops(digits[1..], rest);
      assert [digits[0]] + digits[1..] == digits;
    }
  }

  lemma {:induction false} NumbersRead(ns: seq<nat>, rest: string)
    requires ns != [] && (rest == "" || !IsDigit(rest[0]))
    ensures ParseNumbers(Numbers(ns) + rest, |ns|) == Some((ns, rest))
  {
    hide Decimal, NumberOf, IsDigit, SpanDigits;
    DecimalReads(ns[0]);
    CommaIsNoDigit();
    if |ns| == 1 {
      SpanStops(Decimal(ns[0]), rest);
      assert ns == [ns[0]];
    } else {
      var tail := "," + (Numbers(ns[1..]) + rest);
      assert Numbers(ns) + rest == Decimal(ns[0]) + tail;
      SpanStops(Decimal(ns[0]), tail);
      assert tail[1..] == Numbers(ns[1..]) + rest;
      NumbersRead(ns[1..], rest);
      assert [ns[0]] + ns[1..] == ns;
    }
  }

  lemma CommaIsNoDigit()
    ensures !IsDigit(',') && !IsDigit(')')
  {
  }

  lemma PassiveTextReads(local: Local, port: Port)
    requires !local.NotTcp?
    ensures ParsePassive(PassiveText(local, port)) == Some((Address(local), port))
  {
    hide Numbers, ParseNumbers, AfterParen;
    var ns := Address(local) + [port / 256, port % 256];
    var before := "Entering Passive Mode ";
    NumbersRead(ns, ")");
    assert ns[..4] == Address(local);
    ParenFound(before, Numbers(ns) + ")");
    assert PassiveText(local, port) == before + "(" + (Numbers(ns) + ")");
  }

  /** Whoever is told 227 can decode the address and the port of a listener that is open. */
  lemma PassivePortIsListening(c: Conn, arg: string, env: Env)
    ensures
      var next := Step(c, PASV, arg, env);
      var last := next.replies[|next.replies| - 1];
      last.code == 227 ==>
        && Listening(next)
        && ParsePassive(last.text) ==
           Some((match env.local case V4(a, b, c, d) => [a, b, c, d] case _ => [127, 0, 0, 1],
                 next.sockets[next.dataListen.value].port))
  {
    hide PassiveText, ParsePassive, Answer;
    if env.listen.Some? && env.tcp && !env.local.NotTcp? {
      PassiveTextReads(env.local, env.listen.value);
    }
  }

  /** No other command is answered 227, and after a failed `net.Listen` over an old listener the next
      transfer is still promised (150) before it is refused (425). */
  lemma FailedPasvStillPromises(c: Conn, arg: string, env: Env, later: Env)
    requires Tidy(c) && c.dataListen.Some? && env.listen.None?
    ensures
      var refused := Step(c, PASV, arg, env);
      var after := Step(refused, LIST, arg, later);
      && refused.replies[|refused.replies| - 1].code == 425 && refused.dataListen == c.dataListen
      && refused.replies <= after.replies && |Added(refused, after)| == 2
      && Added(refused, after)[0].code == 150 && Added(refused, after)[1].code == 425
  {
    var refused := Step(c, PASV, arg, env);
    StepAnswers(refused, LIST, arg, later);
    assert !Listening(refused);
  }

  lemma OnlyPasvSays227(c: Conn, verb: Verb, arg: string, env: Env)
    requires verb != PASV
    ensures
      var next := Step(c, verb, arg, env);
      c.replies <= next.replies && forall k :: 0 <= k < |Added(c, next)| ==> Added(c, next)[k].code != 227
  {
    hide Answer;
    PlainAnswer(c, verb, arg);
    StepAnswers(c, verb, arg, env);
    var next := Step(c, verb, arg, env);
    var last := next.replies[|next.replies| - 1];
    assert Added(c, next)[|Added(c, next)| - 1] == last;
  }

  // ---------------------------------------------------------------------------
  // Uploads.

  /** An upload is handed on exactly when STOR was answered 226, and is at most the first 2^20 bytes sent. */
  lemma UploadsAreAnswered(c: Conn, verb: Verb, arg: string, env: Env)
    ensures
      var next := Step(c, verb, arg, env);
      var r := ResultOf(c, verb, arg, env);
      && (r.upload.Some? <==> verb == STOR && next.replies[|next.replies| - 1].code == 226)
      && (r.upload.Some? ==>
          && r.filename == arg && env.accept.Some? && r.upload.value <= env.accept.value
          && |r.upload.value| == (if |env.accept.value| <= 0x10_0000 then |env.accept.value| else 0x10_0000))
  {
    hide Answer;
    PlainAnswer(c, verb, arg);
  }
}
