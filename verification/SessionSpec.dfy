/** The session table as a value: the specification of ServerSession and ServerSessionManager. */
module SessionSpec {
  import opened RoomCommand

  datatype GameBinding = GameBinding(room: int, lease: MatchLease)

  const UNBOUND := GameBinding(-1, MatchLease(0, 0))

  datatype Session = Session(binding: GameBinding, retired: bool, token: nat, pendingIO: nat)

  /**
   * `sessions` holds every session ever activated; `active` and `retired` are the manager's two maps,
   * `leaving` the sessions some thread has moved out of `active` but not yet announced to the lobby.
   */
  datatype Net = Net(
    sessions: map<int, Session>,
    active: set<int>,
    retired: set<int>,
    leaving: set<int>,
    accepting: bool,
    nextSid: nat,
    lobby: seq<LobbyCommand>,
    lobbyCapacity: nat)

  /** FindSession(sid) is non-null. */
  predicate Found(n: Net, sid: int) {
    sid in n.active && sid in n.sessions
  }

  function EnqueueLobby(n: Net, command: LobbyCommand): Net {
    n.(lobby := Enqueue(n.lobby, n.lobbyCapacity, command))
  }

  function Activate(n: Net): Net {
    var sid := n.nextSid;
    var n := n.(nextSid := sid + 1);
    if n.accepting && sid !in n.retired && sid !in n.active && |n.lobby| < n.lobbyCapacity then
      n.(sessions := n.sessions[sid := Session(UNBOUND, false, 0, 0)],
      active := n.active + {sid},
      lobby := n.lobby + [SessionConnected(sid)])
    else n
  }

  function WithSession(n: Net, sid: int, s: Session): Net {
    n.(sessions := n.sessions[sid := s])
  }

  /** ClearRoomBinding on the session object itself. */
  function Clear(n: Net, sid: int): Net {
    if sid in n.sessions then WithSession(n, sid, n.sessions[sid].(binding := UNBOUND)) else n
  }

  /** ClearRoomBinding on the session that FindSession returns, if any. */
  function ClearFound(n: Net, sid: int): Net {
    if Found(n, sid) then Clear(n, sid) else n
  }

  function Bound(n: Net, sid: int, binding: GameBinding): Net
    requires sid in n.sessions
  {
    WithSession(n, sid, n.sessions[sid].(binding := binding))
  }

  function BindMatchFound(n: Net, sid: int, matchGeneration: nat): Net {
    if Found(n, sid) && !n.sessions[sid].retired && n.sessions[sid].binding.room != -1 then
      var b := n.sessions[sid].binding;
      Bound(n, sid, b.(lease := b.lease.(matchGeneration := matchGeneration)))
    else n
  }

  function SetToken(n: Net, sid: int, token: nat): Net {
    if sid in n.sessions then WithSession(n, sid, n.sessions[sid].(token := token)) else n
  }

  function Retire(n: Net, sid: int): Net {
    if sid in n.sessions then
      WithSession(n, sid, n.sessions[sid].(retired := true, binding := UNBOUND))
    else n
  }

  /** The locked section of RequestRemoveSession. */
  function Move(n: Net, sid: int): Net {
    if sid in n.active && sid !in n.retired then
      n.(active := n.active - {sid}, retired := n.retired + {sid}, leaving := n.leaving + {sid})
    else n
  }

  /** The announcement that follows the locked section in the thread that moved `sid`. */
  function Publish(n: Net, sid: int): Net {
    if sid in n.leaving && sid in n.sessions then
      EnqueueLobby(n.(leaving := n.leaving - {sid}), Disconnected(sid, n.sessions[sid].token))
    else n
  }

  function Drain(n: Net): Net {
    n.(retired := set sid | sid in n.retired && sid in n.sessions && n.sessions[sid].pendingIO != 0)
  }

  /** RequestRemoveSession run by one thread without interference. */
  function RequestRemove(n: Net, sid: int): Net {
    if !Found(n, sid) then n
    else
      var moved := Move(Retire(n, sid), sid);
      if sid in moved.leaving && sid !in n.leaving then Drain(Publish(moved, sid)) else moved
  }
}
