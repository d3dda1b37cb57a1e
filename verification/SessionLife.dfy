/** internal/session/tracker.go: the life of sessions under any schedule of the tracker's critical sections. */
module SessionLife {
  import opened Events
  import H = DetectorHistory

  datatype Login = Login(success: bool, username: string, clientVersion: string)

  datatype Session = Session(
    service: Service, sourceIp: string, startedAt: Time, endedAt: Option<Time>,
    commandCount: nat, login: Login, techniques: seq<string>)

  const NO_LOGIN := Login(false, "", "")

  function Opened(service: Service, sourceIp: string, at: Time): Session {
    Session(service, sourceIp, at, None, 0, NO_LOGIN, [])
  }

  /** Every session object ever made, the map of active ones, and the onEnd callbacks: those that an End
      holding no lock any more is about to make, and those made. */
  datatype State = State(
    every: map<string, Session>, active: set<string>, hooked: bool,
    pending: multiset<string>, called: multiset<string>)

  const INIT := State(map[], {}, false, multiset{}, multiset{})

  /** The critical sections, and the callback End makes after its own. */
  datatype Action =
    | Start(id: string, service: Service, sourceIp: string, at: Time)
    | End(id: string, at: Time)
    | CallHook(id: string)
    | SetHook(on: bool)
    | Incr(id: string)
    | SetLogin(id: string, login: Login)
    | AddTechnique(id: string, technique: string)

  /** New identifiers are fresh; a callback is made by an End that took its session. */
  predicate Enabled(s: State, a: Action) {
    match a
    case Start(id, _, _, _) => id !in s.every
    case CallHook(id) => id in s.pending
    case _ => true
  }

  function Update(s: State, id: string, session: Session): State {
    s.(every := s.every[id := session])
  }

  function Step(s: State, a: Action): State {
    match a
    case Start(id, service, ip, at) => Update(s, id, Opened(service, ip, at)).(active := s.active + {id})
    case End(id, at) =>
      if id !in s.active || id !in s.every then s
      else
        Update(s, id, s.every[id].(endedAt := Some(at)))
          .(active := s.active - {id}, pending := s.pending + if s.hooked then multiset{id} else multiset{})
    case CallHook(id) => s.(pending := s.pending - multiset{id}, called := s.called + multiset{id})
    case SetHook(on) => s.(hooked := on)
    case Incr(id) =>
      if id !in s.active || id !in s.every then s
      else Update(s, id, s.every[id].(commandCount := s.every[id].commandCount + 1))
    case SetLogin(id, login) =>
      if id !in s.active || id !in s.every then s else Update(s, id, s.every[id].(login := login))
    case AddTechnique(id, technique) =>
      if id !in s.active || id !in s.every || technique in s.every[id].techniques then s
      else Update(s, id, s.every[id].(techniques := s.every[id].techniques + [technique]))
  }

  function After(run: seq<Action>): State {
    if run == [] then INIT else Step(After(run[..|run| - 1]), run[|run| - 1])
  }

  /** A schedule that can happen. */
  ghost predicate Possible(run: seq<Action>) {
    forall k :: 0 <= k < |run| ==> EnabledAt(run, k)
  }

  ghost predicate EnabledAt(run: seq<Action>, k: nat)
    requires k < |run|
  {
    Enabled(After(run[..k]), run[k])
  }

  // ---------------------------------------------------------------------------
  // What the schedule alone says about a session.

  /** The session has been started and not yet ended. */
  predicate Live(run: seq<Action>, id: string) {
    run != [] &&
    var last := run[|run| - 1];
    if last.Start? && last.id == id then true
    else if last.End? && last.id == id then false
    else Live(run[..|run| - 1], id)
  }

  predicate Started(run: seq<Action>, id: string) {
    run != [] && ((run[|run| - 1].Start? && run[|run| - 1].id == id) || Started(run[..|run| - 1], id))
  }

  /** The Ends that found their session. */
  function Ends(run: seq<Action>, id: string): nat {
    if run == [] then 0
    else
      var n := |run| - 1;
      Ends(run[..n], id) + if run[n].End? && run[n].id == id && Live(run[..n], id) then 1 else 0
  }

  function Increments(run: seq<Action>, id: string): nat {
    if run == [] then 0
    else
      var n := |run| - 1;
      Increments(run[..n], id) + if run[n].Incr? && run[n].id == id && Live(run[..n], id) then 1 else 0
  }

  function Techniques(run: seq<Action>, id: string): seq<string> {
    if run == [] then []
    else
      var n := |run| - 1;
      Techniques(run[..n], id)
      + if run[n].AddTechnique? && run[n].id == id && Live(run[..n], id) then [run[n].technique] else []
  }

  function LastLogin(run: seq<Action>, id: string): Login {
    if run == [] then Login(false, "", "")
    else
      var n := |run| - 1;
      if run[n].SetLogin? && run[n].id == id && Live(run[..n], id) then run[n].login else LastLogin(run[..n], id)
  }

  function EndTime(run: seq<Action>, id: string): Option<Time> {
    if run == [] then None
    else
      var n := |run| - 1;
      if run[n].End? && run[n].id == id && Live(run[..n], id) then Some(run[n].at) else EndTime(run[..n], id)
  }

  /** The Start of a session. */
  function Origin(run: seq<Action>, id: string): Option<Action> {
    if run == [] then None
    else
      var n := |run| - 1;
      if run[n].Start? && run[n].id == id then Some(run[n]) else Origin(run[..n], id)
  }

  /** The tracker's record of a session is what the schedule says. */
  ghost predicate Faithful(session: Session, run: seq<Action>, id: string) {
    && session.commandCount == Increments(run, id)
    && session.techniques == H.Dedup(Techniques(run, id))
    && session.login == LastLogin(run, id)
    && session.endedAt == EndTime(run, id)
    && Origin(run, id) == Some(Start(id, session.service, session.sourceIp, session.startedAt))
  }

  ghost predicate Tracks(s: State, run: seq<Action>, id: string) {
    && (id in s.every <==> Started(run, id))
    && (id in s.active <==> Live(run, id))
    && (Live(run, id) ==> Started(run, id))
    && (id in s.every ==> Faithful(s.every[id], run, id))
    && (!Started(run, id) ==> Silent(run, id))
  }

  /** Nothing on record yet. */
  ghost predicate Silent(run: seq<Action>, id: string) {
    Increments(run, id) == 0 && Techniques(run, id) == [] && LastLogin(run, id) == Login(false, "", "") && EndTime(run, id) == None
  }

  lemma DedupMore(input: seq<string>, last: string)
    ensures H.Dedup(input + [last]) == if last in input then H.Dedup(input) else H.Dedup(input) + [last]
    ensures last in input <==> last in H.Dedup(input)
  {
    assert H.Front(input + [last]) == input;
    H.DedupKeepsFirsts(input);
  }

  /** An action about another session says nothing about this one. */
  lemma OtherAction(run: seq<Action>, a: Action, id: string)
    requires (a.CallHook? || a.SetHook?) || a.id != id
    ensures var more := run + [a];
      && Live(more, id) == Live(run, id) && Started(more, id) == Started(run, id)
      && Increments(more, id) == Increments(run, id) && Techniques(more, id) == Techniques(run, id)
      && LastLogin(more, id) == LastLogin(run, id) && EndTime(more, id) == EndTime(run, id)
      && Ends(more, id) == Ends(run, id) && Origin(more, id) == Origin(run, id)
  {
    assert (run + [a])[..|run|] == run;
  }

  lemma OwnAction(run: seq<Action>, a: Action)
    requires !a.CallHook? && !a.SetHook?
    ensures var more, live := run + [a], Live(run, a.id);
      && Live(more, a.id) == (a.Start? || (live && !a.End?))
      && Started(more, a.id) == (a.Start? || Started(run, a.id))
      && Increments(more, a.id) == Increments(run, a.id) + (if live && a.Incr? then 1 else 0)
      && Techniques(more, a.id)
         == (if live && a.AddTechnique? then Techniques(run, a.id) + [a.technique] else Techniques(run, a.id))
      && LastLogin(more, a.id) == (if live && a.SetLogin? then a.login else LastLogin(run, a.id))
      && EndTime(more, a.id) == (if live && a.End? then Some(a.at) else EndTime(run, a.id))
      && Ends(more, a.id) == Ends(run, a.id) + (if live && a.End? then 1 else 0)
      && Origin(more, a.id) == (if a.Start? then Some(a) else Origin(run, a.id))
  {
    assert (run + [a])[..|run|] == run;
  }

  /** One critical section keeps every session's record faithful. */
  lemma StepTracks(s: State, run: seq<Action>, a: Action, id: string)
    requires Tracks(s, run, id) && Enabled(s, a)
    ensures Tracks(Step(s, a), run + [a], id)
  {
    hide Tracks, Step, Enabled;
    if a.CallHook? || a.SetHook? || a.id != id {
      OtherTracks(s, run, a, id);
    } else {
      OwnTracks(s, run, a);
    }
  }

  lemma OtherTracks(s: State, run: seq<Action>, a: Action, id: string)
    requires Tracks(s, run, id) && Enabled(s, a) && (a.CallHook? || a.SetHook? || a.id != id)
    ensures Tracks(Step(s, a), run + [a], id)
  {
    hide Increments, Techniques, LastLogin, EndTime, Origin, Live, Started, H.Dedup, Step;
    OtherAction(run, a, id);
    OtherRecord(s, a, id);
  }

  lemma OtherRecord(s: State, a: Action, id: string)
    requires Enabled(s, a) && (a.CallHook? || a.SetHook? || a.id != id)
    ensures var next := Step(s, a);
      && (id in next.every <==> id in s.every) && (id in next.active <==> id in s.active)
      && (id in s.every ==> next.every[id] == s.every[id])
  {
    hide Opened;
    match a
    case Start(_, _, _, _) =>
    case End(_, _) =>
    case _ =>
  }

  lemma OwnTracks(s: State, run: seq<Action>, a: Action)
    requires !a.CallHook? && !a.SetHook? && Tracks(s, run, a.id) && Enabled(s, a)
    ensures Tracks(Step(s, a), run + [a], a.id)
  {
    hide Increments, Techniques, LastLogin, EndTime, Origin, Live, Started, H.Dedup;
    OwnAction(run, a);
    NoTechniques();
    if a.AddTechnique? {
      DedupMore(Techniques(run, a.id), a.technique);
    }
  }

  lemma NoTechniques()
    ensures H.Dedup([]) == []
  {
  }

  lemma PossiblePrefix(run: seq<Action>, n: nat)
    requires Possible(run) && n <= |run|
    ensures Possible(run[..n])
  {
    forall k | 0 <= k < n
      ensures EnabledAt(run[..n], k)
    {
      assert EnabledAt(run, k);
      assert run[..n][..k] == run[..k];
    }
  }

  /** Over every schedule: a session is in the map exactly while it is live, and its record is its
      history: the increments, logins and techniques made while it was live, and nothing else. */
  lemma {:induction false} RecordsAreHistory(run: seq<Action>, id: string)
    requires Possible(run)
    ensures Tracks(After(run), run, id)
  {
    hide Step, Enabled, Faithful, Silent, Possible;
    if run != [] {
      var n := |run| - 1;
      PossiblePrefix(run, n);
      RecordsAreHistory(run[..n], id);
      LastStep(run);
      StepTracks(After(run[..n]), run[..n], run[n], id);
      assert run == run[..n] + [run[n]];
    } else {
      NoRecords(id);
    }
  }

  lemma NoRecords(id: string)
    ensures Tracks(After([]), [], id)
  {
  }

  /** Techniques are kept once each, in the order they were first added. */
  lemma TechniquesAreDistinct(run: seq<Action>, id: string)
    requires Possible(run) && id in After(run).every
    ensures
      var kept := After(run).every[id].techniques;
      && (forall i, j :: 0 <= i < j < |kept| ==> kept[i] != kept[j])
      && (forall t :: t in kept <==> t in Techniques(run, id))
  {
    RecordsAreHistory(run, id);
    H.DedupKeepsFirsts(Techniques(run, id));
  }

  /** A session that has ended is never changed again. */
  lemma {:induction false} EndedIsFinal(run: seq<Action>, i: nat, id: string)
    requires Possible(run) && i <= |run|
    requires id in After(run[..i]).every && id !in After(run[..i]).active
    ensures id in After(run).every && id !in After(run).active
    ensures After(run).every[id] == After(run[..i]).every[id]
    decreases |run|
  {
    hide After, Step, Possible;
    if i < |run| {
      var n := |run| - 1;
      PossiblePrefix(run, n);
      assert run[..n][..i] == run[..i];
      EndedIsFinal(run[..n], i, id);
      LastStep(run);
      StepLeavesEnded(After(run[..n]), run[n], id);
    } else {
      assert run[..i] == run;
    }
  }

  lemma LastStep(run: seq<Action>)
    requires Possible(run) && run != []
    ensures
      var n := |run| - 1;
      Enabled(After(run[..n]), run[n]) && After(run) == Step(After(run[..n]), run[n])
  {
    assert EnabledAt(run, |run| - 1);
  }

  lemma StepLeavesEnded(s: State, a: Action, id: string)
    requires Enabled(s, a) && id in s.every && id !in s.active
    ensures id in Step(s, a).every && id !in Step(s, a).active && Step(s, a).every[id] == s.every[id]
  {
  }

  // ---------------------------------------------------------------------------
  // Counting.

  function Starts(run: seq<Action>): nat {
    if run == [] then 0
    else Starts(run[..|run| - 1]) + if run[|run| - 1].Start? then 1 else 0
  }

  /** The Ends that found their session, whichever it was. */
  function AllEnds(run: seq<Action>): nat {
    if run == [] then 0
    else
      var n := |run| - 1;
      AllEnds(run[..n]) + if run[n].End? && Live(run[..n], run[n].id) then 1 else 0
  }

  /** Count is the number of sessions started less the number of Ends that succeeded. */
  lemma {:induction false} CountBalances(run: seq<Action>)
    requires Possible(run)
    ensures |After(run).active| == Starts(run) - AllEnds(run)
  {
    if run != [] {
      var n := |run| - 1;
      PossiblePrefix(run, n);
      CountBalances(run[..n]);
      assert EnabledAt(run, n);
      CountStep(run[..n], run[n]);
    }
  }

  lemma CountStep(run: seq<Action>, a: Action)
    requires Possible(run) && Enabled(After(run), a)
    ensures
      var s := After(run);
      |Step(s, a).active| == |s.active| + (if a.Start? then 1 else 0) - (if a.End? && Live(run, a.id) then 1 else 0)
  {
    hide After, Live, Possible, Faithful, Silent, Started;
    match a
    case Start(id, _, _, _) => RecordsAreHistory(run, id);
    case End(id, _) => RecordsAreHistory(run, id);
    case _ =>
  }

  /** However many Ends race, at most one finds the session: it ends once at most, and once it has ended
      it is not live. */
  lemma {:induction false} EndsOnce(run: seq<Action>, id: string)
    requires Possible(run)
    ensures Ends(run, id) <= 1
    ensures Ends(run, id) + (if Live(run, id) then 1 else 0) == if Started(run, id) then 1 else 0
  {
    if run != [] {
      var n := |run| - 1;
      PossiblePrefix(run, n);
      EndsOnce(run[..n], id);
      RecordsAreHistory(run[..n], id);
      assert EnabledAt(run, n);
      assert run == run[..n] + [run[n]];
      EndsStep(run[..n], run[n], id);
    }
  }

  lemma EndsStep(run: seq<Action>, a: Action, id: string)
    requires a.Start? && a.id == id ==> !Started(run, id)
    requires Ends(run, id) + (if Live(run, id) then 1 else 0) == if Started(run, id) then 1 else 0
    ensures
      Ends(run + [a], id) + (if Live(run + [a], id) then 1 else 0) == if Started(run + [a], id) then 1 else 0
  {
    hide Ends, Live, Started;
    if a.CallHook? || a.SetHook? || a.id != id {
      OtherAction(run, a, id);
    } else {
      OwnAction(run, a);
    }
  }

  /** An onEnd callback is made at most once for a session, and only after its End. */
  lemma {:induction false} HookOnce(run: seq<Action>, id: string)
    requires Possible(run)
    ensures After(run).pending[id] + After(run).called[id] <= Ends(run, id) <= 1
  {
    EndsOnce(run, id);
    if run != [] {
      var n := |run| - 1;
      PossiblePrefix(run, n);
      HookOnce(run[..n], id);
      RecordsAreHistory(run[..n], id);
      assert EnabledAt(run, n);
      HookStep(run[..n], run[n], id);
      assert run == run[..n] + [run[n]];
    }
  }

  lemma HookStep(run: seq<Action>, a: Action, id: string)
    requires Tracks(After(run), run, id) && Enabled(After(run), a)
    requires After(run).pending[id] + After(run).called[id] <= Ends(run, id)
    ensures
      var next := Step(After(run), a);
      next.pending[id] + next.called[id] <= Ends(run + [a], id)
  {
    hide Ends, Live, Started, After, Faithful, Silent;
    if a.CallHook? || a.SetHook? || a.id != id {
      OtherAction(run, a, id);
    } else {
      OwnAction(run, a);
    }
  }

  /** With the hook set from the outset and never changed, every ended session gets its callback: it has
      been made or is about to be. */
  lemma {:induction false} HookForEveryEnd(run: seq<Action>, id: string)
    requires Possible(run) && run != [] && run[0] == SetHook(true)
    requires forall k :: 0 < k < |run| ==> !run[k].SetHook?
    ensures After(run).hooked
    ensures After(run).pending[id] + After(run).called[id] == Ends(run, id)
  {
    var n := |run| - 1;
    assert run == run[..n] + [run[n]];
    PossiblePrefix(run, n);
    assert EnabledAt(run, n);
    RecordsAreHistory(run[..n], id);
    if n > 0 {
      HookForEveryEnd(run[..n], id);
      EveryEndStep(run[..n], run[n], id);
    } else {
      OtherAction([], run[0], id);
      assert run[..0] == [];
      assert [] + [run[0]] == run;
    }
  }

  lemma EveryEndStep(run: seq<Action>, a: Action, id: string)
    requires Tracks(After(run), run, id) && Enabled(After(run), a) && After(run).hooked && !a.SetHook?
    requires After(run).pending[id] + After(run).called[id] == Ends(run, id)
    ensures
      var next := Step(After(run), a);
      next.hooked && next.pending[id] + next.called[id] == Ends(run + [a], id)
  {
    hide Ends, Live, Started, After, Faithful, Silent;
    if a.CallHook? || a.id != id {
      OtherAction(run, a, id);
    } else {
      OwnAction(run, a);
    }
  }
}
