/** ServerSession and ServerSessionManager as objects, each method one access to shared state or a sequence of them. */
module ServerSessions {
  import opened RoomCommand
  import opened SessionSpec

  method AnyOf<T>(s: set<T>) returns (x: T)
    requires s != {}
    ensures x in s
  {
    x :| x in s;
  }

  class ServerSession {
    var gameBinding: GameBinding
    var retired: bool
    var resumeToken: nat
    var pendingIO: nat

    constructor ()
      ensures View() == Session(UNBOUND, false, 0, 0)
    {
      gameBinding := UNBOUND;
      retired := false;
      resumeToken := 0;
      pendingIO := 0;
    }

    ghost function View(): Session
      reads this
    {
      Session(gameBinding, retired, resumeToken, pendingIO)
    }

    method BindRoom(room: int, memberGeneration: nat, matchGeneration: nat) returns (bound: bool)
      modifies this
      ensures bound == !old(retired)
      ensures View() == if bound then old(View()).(binding := GameBinding(room, MatchLease(memberGeneration, matchGeneration)))
                        else old(View())
    {
      if retired { return false; }
      gameBinding := GameBinding(room, MatchLease(memberGeneration, matchGeneration));
      return true;
    }

    method BindMatch(matchGeneration: nat) returns (bound: bool)
      modifies this
      ensures bound == (!old(retired) && old(gameBinding).room != -1)
      ensures var b := old(gameBinding);
              View() == if bound then old(View()).(binding := b.(lease := b.lease.(matchGeneration := matchGeneration)))
                        else old(View())
    {
      if retired || gameBinding.room == -1 { return false; }
      gameBinding := gameBinding.(lease := gameBinding.lease.(matchGeneration := matchGeneration));
      return true;
    }

    method ClearRoomBinding()
      modifies this
      ensures View() == old(View()).(binding := UNBOUND)
    {
      gameBinding := UNBOUND;
    }

    method RetireGameBinding()
      modifies this
      ensures View() == old(View()).(retired := true, binding := UNBOUND)
    {
      retired := true;
      gameBinding := UNBOUND;
    }

    method SetResumeToken(token: nat)
      modifies this
      ensures View() == old(View()).(token := token)
    {
      resumeToken := token;
    }
  }

  function RemoveEach(n: Net, sids: seq<int>): Net
    decreases |sids|
  {
    if sids == [] then n else RequestRemove(RemoveEach(n, sids[..|sids| - 1]), sids[|sids| - 1])
  }

  function Shutdown(n: Net, order: seq<int>): Net {
    if n.accepting then RemoveEach(n.(accepting := false), order) else n
  }

  /** The session table that a collection of session objects amounts to. */
  ghost function Table(known: map<int, ServerSession>): map<int, Session>
    reads known.Values
  {
    map s | s in known :: known[s].View()
  }

  class ServerSessionManager {
    var activeSessions: map<int, ServerSession>
    var retiredSessions: map<int, ServerSession>
    var accepting: bool
    var nextSessionId: nat
    const lobbyCommands: LobbyCommandQueue

    /** Every session ever activated, and those moved out of the active map but not yet announced. */
    ghost var known: map<int, ServerSession>
    ghost var leaving: set<int>
    ghost var Repr: set<object>

    constructor (lobbyCommands: LobbyCommandQueue)
      ensures Valid() && fresh(Repr - {lobbyCommands}) && this.lobbyCommands == lobbyCommands
      ensures View() == Net(map[], {}, {}, {}, true, 0, lobbyCommands.commands, lobbyCommands.capacity)
    {
      activeSessions, retiredSessions := map[], map[];
      accepting, nextSessionId := true, 0;
      this.lobbyCommands := lobbyCommands;
      known, leaving := map[], {};
      Repr := {this, lobbyCommands};
    }

    ghost predicate Valid()
      reads this, Repr
    {
      && this in Repr && lobbyCommands in Repr && known.Values <= Repr
      && (forall s, t | s in known && t in known && s != t :: known[s] != known[t])
      && (forall s | s in activeSessions :: s in known && activeSessions[s] == known[s])
      && (forall s | s in retiredSessions :: s in known && retiredSessions[s] == known[s])
      && (forall s | s in known :: s < nextSessionId)
      && leaving <= known.Keys && leaving !! activeSessions.Keys
      && activeSessions.Keys !! retiredSessions.Keys
    }

    ghost function View(): Net
      requires Valid()
      reads this, Repr
    {
      Net(Table(known), activeSessions.Keys, retiredSessions.Keys, leaving,
          accepting, nextSessionId, lobbyCommands.commands, lobbyCommands.capacity)
    }

    method FindSession(sid: int) returns (session: ServerSession?)
      requires Valid()
      ensures session != null <==> Found(View(), sid)
      ensures session != null ==> session == known[sid] && session in Repr && session.View() == View().sessions[sid]
    {
      return if sid in activeSessions then activeSessions[sid] else null;
    }

    // ---- what rooms do to the session they find ----

    method ClearBindingOf(sid: int)
      requires Valid()
      modifies Repr
      ensures Valid() && Repr == old(Repr) && known == old(known)
      ensures View() == ClearFound(old(View()), sid)
    {
      var session := FindSession(sid);
      if session != null {
        session.ClearRoomBinding();
        forall t | t in known ensures known[t].View() == if t == sid then session.View() else old(known[t].View()) {
          assert t == sid || known[t] != session;
        }
        assert Table(known) == old(Table(known))[sid := session.View()];
      }
    }

    method BindRoomOf(session: ServerSession, ghost sid: int, room: int, memberGeneration: nat, matchGeneration: nat)
      returns (bound: bool)
      requires Valid() && sid in known && known[sid] == session
      modifies session
      ensures Valid() && bound == !old(session.retired)
      ensures View() == if bound then Bound(old(View()), sid, GameBinding(room, MatchLease(memberGeneration, matchGeneration)))
                        else old(View())
    {
      bound := session.BindRoom(room, memberGeneration, matchGeneration);
      forall t | t in known ensures known[t].View() == if t == sid then session.View() else old(known[t].View()) {
        assert t == sid || known[t] != session;
      }
      assert Table(known) == old(Table(known))[sid := session.View()];
      assert !bound ==> Table(known) == old(Table(known));
    }

    method BindMatchOf(sid: int, matchGeneration: nat)
      requires Valid()
      modifies Repr
      ensures Valid() && Repr == old(Repr) && known == old(known)
      ensures View() == BindMatchFound(old(View()), sid, matchGeneration)
    {
      var session := FindSession(sid);
      if session != null {
        var bound := session.BindMatch(matchGeneration);
        forall t | t in known ensures known[t].View() == if t == sid then session.View() else old(known[t].View()) {
          assert t == sid || known[t] != session;
        }
        assert Table(known) == old(Table(known))[sid := session.View()];
        assert !bound ==> Table(known) == old(Table(known));
      }
    }

    method SetTokenOf(session: ServerSession, ghost sid: int, token: nat)
      requires Valid() && sid in known && known[sid] == session
      modifies session
      ensures Valid() && View() == SetToken(old(View()), sid, token)
    {
      session.SetResumeToken(token);
      forall t | t in known ensures known[t].View() == if t == sid then session.View() else old(known[t].View()) {
        assert t == sid || known[t] != session;
      }
      assert Table(known) == old(Table(known))[sid := session.View()];
    }

    // ---- the manager's own operations ----

    /** The locked section of ActivateSession: the session is known only once its arrival has been queued. */
    method Admit(session: ServerSession, sid: int) returns (queued: bool)
      requires Valid() && session !in Repr && session.View() == Session(UNBOUND, false, 0, 0)
      requires accepting && sid == nextSessionId - 1 && sid !in known
      modifies this, lobbyCommands
      ensures Valid() && Repr - old(Repr) <= {session}
      ensures queued == (|old(View()).lobby| < old(View()).lobbyCapacity)
      ensures var n := old(View());
              View() == if queued then n.(sessions := n.sessions[sid := Session(UNBOUND, false, 0, 0)],
                                          active := n.active + {sid}, lobby := n.lobby + [SessionConnected(sid)])
                        else n
    {
      activeSessions := activeSessions[sid := session];
      queued := lobbyCommands.TryEnqueue(SessionConnected(sid));
      assert Table(known) == old(Table(known));
      if queued {
        Register(session, sid);
      } else {
        activeSessions := activeSessions - {sid};
        assert activeSessions == old(activeSessions);
      }
    }

    /** A session whose arrival is in the lobby queue is from now on one of those ever activated. */
    ghost method Register(session: ServerSession, sid: int)
      requires session !in Repr && sid !in known
      modifies this`known, this`Repr
      ensures known == old(known)[sid := session] && Repr == old(Repr) + {session}
      ensures Table(known) == old(Table(known))[sid := session.View()]
    {
      known := known[sid := session];
      Repr := Repr + {session};
      assert known.Keys == old(known).Keys + {sid};
    }

    method ActivateSession(session: ServerSession) returns (admitted: bool, sid: int)
      requires Valid() && session !in Repr && session.View() == Session(UNBOUND, false, 0, 0)
      modifies this, lobbyCommands
      ensures Valid() && Repr - old(Repr) <= {session}
      ensures sid == old(nextSessionId)
      ensures View() == Activate(old(View()))
      ensures admitted <==> sid in View().sessions
    {
      sid := nextSessionId;
      nextSessionId := nextSessionId + 1;
      assert View() == old(View()).(nextSid := sid + 1);
      if !accepting || sid in retiredSessions || sid in activeSessions { return false, sid; }
      admitted := Admit(session, sid);
    }

    /** The first half of RequestRemoveSession: the session can never be bound again. */
    method RetireFound(session: ServerSession, ghost sid: int)
      requires Valid() && sid in known && known[sid] == session
      modifies session
      ensures Valid() && View() == Retire(old(View()), sid)
    {
      session.RetireGameBinding();
      forall t | t in known ensures known[t].View() == if t == sid then session.View() else old(known[t].View()) {
        assert t == sid || known[t] != session;
      }
      assert Table(known) == old(Table(known))[sid := session.View()];
    }

    /** The locked section of RequestRemoveSession: of several threads only one moves the session. */
    method MoveToRetired(session: ServerSession, sid: int) returns (moved: bool)
      requires Valid() && sid in known && known[sid] == session
      modifies this
      ensures Valid() && Repr == old(Repr) && known == old(known)
      ensures View() == Move(old(View()), sid)
      ensures moved <==> sid in old(activeSessions) && sid !in old(retiredSessions)
    {
      if sid !in activeSessions || activeSessions[sid] != session { return false; }
      if sid in retiredSessions { return false; }
      retiredSessions := retiredSessions[sid := session];
      activeSessions := activeSessions - {sid};
      leaving := leaving + {sid};
      return true;
    }

    /** The announcement by the thread that moved the session; the queue must admit it. */
    method Announce(session: ServerSession, sid: int)
      requires Valid() && sid in known && known[sid] == session && sid in leaving
      modifies this, lobbyCommands
      ensures Valid() && Repr == old(Repr) && known == old(known)
      ensures View() == Publish(old(View()), sid)
      ensures View().lobby == old(View()).lobby + [Disconnected(sid, session.resumeToken)]
    {
      leaving := leaving - {sid};
      var queued := lobbyCommands.TryEnqueue(Disconnected(sid, session.resumeToken));
      assert queued;
    }

    /** Drops every retired session that no I/O refers to any more. */
    method DrainRetiredSessions()
      requires Valid()
      modifies this`retiredSessions
      ensures Valid() && View() == Drain(old(View()))
      ensures forall s :: s in retiredSessions <==> s in old(retiredSessions) && old(retiredSessions)[s].pendingIO != 0
      ensures forall s | s in retiredSessions :: retiredSessions[s] == old(retiredSessions)[s]
    {
      var todo := retiredSessions.Keys;
      while todo != {}
        invariant todo <= retiredSessions.Keys
        invariant forall s | s in old(retiredSessions) ::
                    s in retiredSessions <==> (s in todo || old(retiredSessions)[s].pendingIO != 0)
        invariant forall s | s in retiredSessions :: s in old(retiredSessions) && retiredSessions[s] == old(retiredSessions)[s]
        decreases todo
      {
        var sid := AnyOf(todo);
        if retiredSessions[sid].pendingIO == 0 {
          retiredSessions := retiredSessions - {sid};
        }
        todo := todo - {sid};
      }
      assert Table(known) == old(Table(known));
      forall s ensures s in retiredSessions <==> s in Drain(old(View())).retired {
        if s in old(retiredSessions) { assert Table(known)[s] == known[s].View(); }
      }
      assert retiredSessions.Keys == Drain(old(View())).retired;
    }

    /** LobbyCommandQueue::Drain, as the room owner calls it. */
    method DrainLobby(maxCount: nat) returns (drained: seq<LobbyCommand>)
      requires Valid()
      modifies lobbyCommands
      ensures Valid() && Repr == old(Repr)
      ensures var k := if |old(View()).lobby| < maxCount then |old(View()).lobby| else maxCount;
              drained == old(View()).lobby[..k] && View() == old(View()).(lobby := old(View()).lobby[k..])
    {
      drained := lobbyCommands.Drain(maxCount);
      assert Table(known) == old(Table(known));
    }

    method RequestRemoveSession(sid: int)
      requires Valid()
      modifies Repr
      ensures Valid() && Repr == old(Repr) && known == old(known)
      ensures View() == RequestRemove(old(View()), sid)
    {
      var session := FindSession(sid);
      if session == null { return; }
      RetireFound(session, sid);
      var moved := MoveToRetired(session, sid);
      if !moved { return; }
      ghost var n := View();
      Announce(session, sid);
      DrainRetiredSessions();
    }

    /** One round of BeginShutdown's loop. */
    method RemoveNext(sid: int, ghost n: Net, ghost order: seq<int>)
      requires Valid() && sid in activeSessions && View() == RemoveEach(n, order)
      modifies Repr
      ensures Valid() && Repr == old(Repr) && known == old(known) && accepting == old(accepting)
      ensures View() == RemoveEach(n, order + [sid]) && activeSessions.Keys == old(activeSessions.Keys) - {sid}
    {
      RequestRemoveSession(sid);
      assert View().active == activeSessions.Keys;
      assert (order + [sid])[..|order|] == order;
    }

    /** Closes the door, then removes every session that is active at that moment. */
    method BeginShutdown() returns (ghost order: seq<int>)
      requires Valid()
      modifies Repr
      ensures Valid() && Repr == old(Repr) && known == old(known)
      ensures View() == Shutdown(old(View()), order)
      ensures !accepting && (old(accepting) ==> activeSessions == map[] && forall s :: s in order <==> s in old(activeSessions))
    {
      order := [];
      if !accepting { return; }
      accepting := false;
      ghost var n := View();
      var ids := activeSessions.Keys;
      while ids != {}
        invariant Valid() && Repr == old(Repr) && known == old(known) && !accepting
        invariant activeSessions.Keys == ids
        invariant View() == RemoveEach(n, order)
        invariant forall s :: s in order <==> s in old(activeSessions) && s !in ids
        decreases ids
      {
        var sid := AnyOf(ids);
        RemoveNext(sid, n, order);
        order := order + [sid];
        ids := ids - {sid};
      }
    }
  }
}
