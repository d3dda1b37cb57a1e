/** internal/session/tracker.go: the tracker object. Each method, run under the lock, takes exactly the steps
    of SessionLife; how the steps of several callers interleave is SessionLife's business. */
module Tracker {
  import opened Events
  import L = SessionLife

  class Session {
    const service: Service
    const sourceIp: string
    const startedAt: Time
    var endedAt: Option<Time>
    var commandCount: nat
    var login: L.Login
    var techniques: seq<string>

    constructor (service: Service, sourceIp: string, at: Time)
      ensures this.service == service && this.sourceIp == sourceIp && startedAt == at
      ensures endedAt == None && commandCount == 0 && login == L.Login(false, "", "") && techniques == []
    {
      this.service, this.sourceIp, startedAt := service, sourceIp, at;
      endedAt, commandCount, login, techniques := None, 0, L.NO_LOGIN, [];
    }

    ghost function Value(): L.Session
      reads this
    {
      L.Session(service, sourceIp, startedAt, endedAt, commandCount, login, techniques)
    }
  }

  /** An End whose callback is made before anything else happens. */
  lemma HookAtOnce(s: L.State, id: string, at: Time, called: seq<string>)
    requires s.pending == multiset{} && s.called == multiset(called)
    requires id in s.active && id in s.every && s.hooked
    ensures
      var mid := L.Step(s, L.End(id, at));
      L.Step(mid, L.CallHook(id)) == L.State(mid.every, mid.active, true, multiset{}, multiset(called + [id]))
  {
  }

  lemma NoHook(s: L.State, id: string, at: Time)
    requires s.pending == multiset{} && !(id in s.active && id in s.every && s.hooked)
    ensures
      var mid := L.Step(s, L.End(id, at));
      mid == L.State(mid.every, mid.active, s.hooked, multiset{}, s.called)
  {
  }

  class Tracker {
    var sessions: map<string, Session>
    var hooked: bool
    var called: seq<string>              // the onEnd callbacks made so far
    ghost var every: map<string, Session>   // every session ever started

    ghost predicate Valid()
      reads this
    {
      && (forall id :: id in sessions ==> id in every && sessions[id] == every[id])
      && forall a, b :: a in every && b in every && every[a] == every[b] ==> a == b
    }

    ghost function Records(): map<string, L.Session>
      reads this, every.Values
    {
      map id | id in every :: every[id].Value()
    }

    ghost function State(): L.State
      reads this, every.Values
    {
      L.State(Records(), sessions.Keys, hooked, multiset{}, multiset(called))
    }

    constructor ()
      ensures Valid() && State() == L.INIT
    {
      sessions, hooked, called, every := map[], false, [], map[];
    }

    method SetOnEnd(on: bool)
      requires Valid()
      modifies this`hooked
      ensures Valid() && State() == L.Step(old(State()), L.SetHook(on))
    {
      hooked := on;
    }

    /** `id` is the new UUID: no earlier session has it. */
    method Start(id: string, service: Service, sourceIp: string, at: Time) returns (session: Session)
      requires Valid() && L.Enabled(State(), L.Start(id, service, sourceIp, at))
      modifies this`sessions, this`every
      ensures Valid() && fresh(session) && every == old(every)[id := session]
      ensures session.service == service && session.sourceIp == sourceIp && session.startedAt == at
      ensures session.endedAt == None && session.commandCount == 0 && session.techniques == []
      ensures session.login == L.Login(false, "", "")
      ensures State() == L.Step(old(State()), L.Start(id, service, sourceIp, at))
    {
      session := new Session(service, sourceIp, at);
      ghost var before := Records();
      sessions, every := sessions[id := session], every[id := session];
      assert Records() == before[id := L.Opened(service, sourceIp, at)];
      assert sessions.Keys == old(sessions).Keys + {id};
    }

    /** The critical section of End. */
    method Remove(id: string, at: Time) returns (session: Option<Session>)
      requires Valid()
      modifies this`sessions, sessions.Values
      ensures Valid() && every == old(every)
      ensures session == if id in old(sessions) then Some(old(sessions)[id]) else None
      ensures Records() == L.Step(old(State()), L.End(id, at)).every
      ensures sessions.Keys == L.Step(old(State()), L.End(id, at)).active
    {
      if id !in sessions {
        return None;
      }
      ghost var before := Records();
      var found := sessions[id];
      found.endedAt := Some(at);
      assert Records() == before[id := before[id].(endedAt := Some(at))];
      sessions := sessions - {id};
      return Some(found);
    }

    method End(id: string, at: Time) returns (session: Option<Session>)
      requires Valid()
      modifies this`sessions, this`called, sessions.Values
      ensures Valid() && every == old(every)
      ensures session == if id in old(sessions) then Some(old(sessions)[id]) else None
      ensures
        var mid := L.Step(old(State()), L.End(id, at));
        State() == if session.Some? && hooked then L.Step(mid, L.CallHook(id)) else mid
    {
      hide L.Step;
      ghost var before := State();
      session := Remove(id, at);
      if session.Some? && hooked {
        HookAtOnce(before, id, at, called);
        called := called + [id];
      } else {
        NoHook(before, id, at);
      }
    }

    method IncrCommandCount(id: string)
      requires Valid()
      modifies sessions.Values
      ensures Valid() && State() == L.Step(old(State()), L.Incr(id))
    {
      if id in sessions {
        ghost var before := Records();
        sessions[id].commandCount := sessions[id].commandCount + 1;
        assert Records() == before[id := before[id].(commandCount := before[id].commandCount + 1)];
      }
    }

    method SetLogin(id: string, login: L.Login)
      requires Valid()
      modifies sessions.Values
      ensures Valid() && State() == L.Step(old(State()), L.SetLogin(id, login))
    {
      if id in sessions {
        ghost var before := Records();
        sessions[id].login := login;
        assert Records() == before[id := before[id].(login := login)];
      }
    }

    method AddTechnique(id: string, technique: string)
      requires Valid()
      modifies sessions.Values
      ensures Valid() && State() == L.Step(old(State()), L.AddTechnique(id, technique))
    {
      if id !in sessions {
        return;
      }
      var session := sessions[id];
      for k := 0 to |session.techniques|
        invariant technique !in session.techniques[..k]
        invariant Records() == old(Records())
      {
        if session.techniques[k] == technique {
          return;
        }
      }
      ghost var before := Records();
      session.techniques := session.techniques + [technique];
      assert Records() == before[id := before[id].(techniques := before[id].techniques + [technique])];
    }

    method Count() returns (n: nat)
      requires Valid()
      ensures n == |State().active|
    {
      n := |sessions|;
    }

    /** The active sessions, each once, in no particular order. */
    method Active() returns (result: seq<Session>)
      requires Valid()
      ensures |result| == |sessions|
      ensures forall s :: s in result <==> exists id :: id in sessions && sessions[id] == s
    {
      var rest := sessions.Keys;
      result := [];
      while rest != {}
        invariant rest <= sessions.Keys && |result| == |sessions| - |rest|
        invariant forall s :: s in result <==> exists id :: id in sessions.Keys - rest && sessions[id] == s
        decreases |rest|
      {
        var id :| id in rest;
        result, rest := result + [sessions[id]], rest - {id};
      }
    }
  }
}
