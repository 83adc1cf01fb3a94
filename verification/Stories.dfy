/** Building blocks for concrete runs: what a client can bring about while nothing else is under way. */
module Stories {
  import opened RoomCommand
  import opened SessionSpec
  import opened MatchSpec
  import opened RoomSpec
  import opened Protocol
  import opened ServerInvariant
  import opened ServerSteps

  /** No step leads out of the set. */
  ghost predicate NoStepLeaves(ws: iset<World>) {
    forall w, s | w in ws && WorldOK(w) && Enabled(w, s) :: Apply(w, s) in ws
  }

  ghost predicate Real(ws: iset<World>, w: World) {
    NoStepLeaves(ws) && w in ws && WorldOK(w)
  }

  /** What holds for every such set with the empty server in it holds for the set of the reachable worlds. */
  lemma ReachableWorlds() returns (ws: iset<World>)
    ensures NoStepLeaves(ws) && Initial(8, 8) in ws && ws == iset w: World | Reachable(w)
  {
    ws := iset w: World | Reachable(w);
    InitialWorldOK(8, 8);
    InitiallyReachable(8, 8);
    forall w, s | w in ws && WorldOK(w) && Enabled(w, s) ensures Apply(w, s) in ws { ReachableStep(w, s); }
  }

  ghost predicate AllWaiting(w: World) {
    forall s :: HandlerOf(w, s) == Waiting
  }

  /** Queues and batches are empty, and no packet is being handled. */
  ghost predicate Quiet(ws: iset<World>, w: World) {
    && Real(ws, w) && AllWaiting(w)
    && w.batch == [] && w.net.lobby == [] && w.net.lobbyCapacity == 8 && w.net.accepting
    && w.game == [] && w.gameBatch == [] && w.gameCapacity == 8
  }

  lemma InitiallyQuiet(ws: iset<World>, w: World)
    requires NoStepLeaves(ws) && w == Initial(8, 8) && w in ws
    ensures Quiet(ws, w)
  {
    InitialWorldOK(8, 8);
  }

  // ---- single steps, each with the world it leads to ----

  lemma Goes(ws: iset<World>, w: World, s: Step)
    requires Real(ws, w) && Enabled(w, s)
    ensures Real(ws, Apply(w, s))
  {
    StepKeepsWorld(w, s);
  }

  function Queued(w: World, commands: seq<LobbyCommand>): World {
    w.(net := w.net.(lobby := commands))
  }

  function Remembered(w: World, c: LobbyCommand): World {
    w.(executed := w.executed + [c])
  }

  lemma Queues(ws: iset<World>, w: World, c: LobbyCommand)
    requires Real(ws, w) && c.sid in w.net.sessions && HandlerOf(w, c.sid) == Waiting && FromPacket(c) && !c.Resume?
    requires w.net.lobby == [] && w.net.lobbyCapacity > 0
    ensures Real(ws, Queued(w, [c]))
  {
    Goes(ws, w, LobbyStep(c));
    assert [] + [c] == [c];
  }

  lemma Drains(ws: iset<World>, w: World, commands: seq<LobbyCommand>)
    requires Real(ws, w) && w.batch == [] && w.net.lobby == commands && |commands| <= 8
    ensures Real(ws, Queued(w, []).(batch := commands))
  {
    Goes(ws, w, DrainLobbyStep);
    assert commands[..|commands|] == commands && commands[|commands|..] == [];
  }

  lemma Pops(ws: iset<World>, w: World, c: LobbyCommand, rest: seq<LobbyCommand>)
    requires Real(ws, w) && w.batch == [c] + rest
    ensures Shaped(Remembered(w, c).(batch := rest)) && Real(ws, ExecuteLobby(Remembered(w, c).(batch := rest), c, false))
  {
    Goes(ws, w, LobbyCommandStep(false));
    assert ([c] + rest)[1..] == rest;
    assert Popped(w) == Remembered(w, c).(batch := rest);
  }

  lemma Activates(ws: iset<World>, w: World)
    requires Real(ws, w) && w.net.nextSid < SID_LIMIT && w.net.accepting && w.net.lobby == [] && w.net.lobbyCapacity > 0
    ensures Real(ws, w.(net := WithNewSession(w.net, 0).(lobby := [SessionConnected(w.net.nextSid)])))
  {
    Goes(ws, w, ActivateStep);
    assert [] + [SessionConnected(w.net.nextSid)] == [SessionConnected(w.net.nextSid)];
    assert w.net.nextSid !in w.net.sessions;
  }

  lemma LoginReads(ws: iset<World>, w: World, sid: int, token: nat)
    requires Real(ws, w) && sid in w.net.sessions && w.net.sessions[sid].token == 0 && HandlerOf(w, sid) == Waiting
    requires token != 0 && token !in w.issued
    ensures Real(ws, w.(handlers := w.handlers[sid := LoginRead(token)], issued := w.issued + {token},
                    didLogin := w.didLogin + {sid}))
  {
    Goes(ws, w, LoginReadStep(sid, token));
  }

  lemma LoginWrites(ws: iset<World>, w: World, sid: int, token: nat)
    requires Real(ws, w) && sid in w.net.sessions && HandlerOf(w, sid) == LoginRead(token)
    ensures Real(ws, w.(handlers := w.handlers[sid := Waiting], net := SetToken(w.net, sid, token)))
  {
    Goes(ws, w, LoginWriteStep(sid));
  }

  lemma Reads(ws: iset<World>, w: World, sid: int, b: GameBinding)
    requires Real(ws, w) && sid in w.net.sessions && HandlerOf(w, sid) == Waiting
    requires w.net.sessions[sid].binding == b && b.room != -1
    ensures Real(ws, w.(handlers := w.handlers[sid := GameRead(b)]))
  {
    Goes(ws, w, GameReadStep(sid));
  }

  lemma QueuesGame(ws: iset<World>, w: World, sid: int, b: GameBinding, packet: GamePacket)
    requires Real(ws, w) && sid in w.net.sessions && HandlerOf(w, sid) == GameRead(b) && w.game == [] && w.gameCapacity > 0
    ensures Real(ws, w.(handlers := w.handlers[sid := Waiting], game := [GameCommand(sid, b.room, b.lease, packet)]))
  {
    Goes(ws, w, GameQueueStep(sid, packet));
    assert [] + [GameCommand(sid, b.room, b.lease, packet)] == [GameCommand(sid, b.room, b.lease, packet)];
  }

  lemma DrainsGame(ws: iset<World>, w: World, c: GameCommand)
    requires Real(ws, w) && w.gameBatch == [] && w.game == [c]
    ensures Real(ws, w.(gameBatch := [c], game := []))
  {
    Goes(ws, w, DrainGameStep);
    assert w.game[..1] == [c] && w.game[1..] == [];
  }

  lemma PopsGame(ws: iset<World>, w: World, c: GameCommand)
    requires Real(ws, w) && w.gameBatch == [c]
    ensures Shaped(w.(gameBatch := [])) && Real(ws, ExecuteGame(w.(gameBatch := []), c))
  {
    Goes(ws, w, GameCommandStep);
    assert PoppedGame(w) == w.(gameBatch := []);
  }

  lemma ExitReads(ws: iset<World>, w: World, sid: int, room: int)
    requires Real(ws, w) && sid in w.net.sessions && HandlerOf(w, sid) == Waiting && w.net.sessions[sid].binding.room == room
    ensures Real(ws, w.(handlers := w.handlers[sid := ExitRead(room)]))
  {
    Goes(ws, w, ExitReadStep(sid));
  }

  lemma ExitQueues(ws: iset<World>, w: World, sid: int, room: int, before: seq<LobbyCommand>)
    requires Real(ws, w) && sid in w.net.sessions && HandlerOf(w, sid) == ExitRead(room)
    requires w.net.lobby == before && |before| < w.net.lobbyCapacity
    ensures Real(ws, Queued(w, before + [Exit(sid, room)]).(handlers := w.handlers[sid := ExitQueued(room)]))
  {
    Goes(ws, w, ExitQueueStep(sid));
  }

  lemma ExitClears(ws: iset<World>, w: World, sid: int, room: int)
    requires Real(ws, w) && sid in w.net.sessions && HandlerOf(w, sid) == ExitQueued(room)
    ensures Real(ws, w.(handlers := w.handlers[sid := Waiting], net := Clear(w.net, sid)))
  {
    Goes(ws, w, ExitClearStep(sid));
  }

  // ---- what clients bring about ----

  /** The owner executes the only command that waits. */
  lemma Serves(ws: iset<World>, w: World, c: LobbyCommand)
    requires Real(ws, w) && w.batch == [] && w.net.lobby == [c]
    ensures Shaped(Remembered(Queued(w, []), c)) && Real(ws, ExecuteLobby(Remembered(Queued(w, []), c), c, false))
  {
    Drains(ws, w, [c]);
    var w1 := Queued(w, []).(batch := [c]);
    assert [c] == [c] + [];
    Pops(ws, w1, c, []);
    assert Remembered(w1, c).(batch := []) == Remembered(Queued(w, []), c);
  }

  /** A client asks for something, and the owner executes it. */
  lemma Asks(ws: iset<World>, w: World, c: LobbyCommand)
    requires Quiet(ws, w) && c.sid in w.net.sessions && FromPacket(c) && !c.Resume?
    ensures Shaped(Remembered(w, c)) && Real(ws, ExecuteLobby(Remembered(w, c), c, false))
  {
    Queues(ws, w, c);
    Serves(ws, Queued(w, [c]), c);
    assert Queued(Queued(w, [c]), []) == w;
  }

  function WithNewSession(n: Net, token: nat): Net {
    n.(sessions := n.sessions[n.nextSid := Session(UNBOUND, false, token, 0)],
       active := n.active + {n.nextSid}, nextSid := n.nextSid + 1)
  }

  /** A client connects, and is greeted. */
  lemma Connects(ws: iset<World>, w: World)
    requires Quiet(ws, w) && w.net.nextSid < SID_LIMIT
    ensures Quiet(ws, Remembered(w, SessionConnected(w.net.nextSid)).(net := WithNewSession(w.net, 0)))
  {
    var c := SessionConnected(w.net.nextSid);
    Activates(ws, w);
    var w1 := w.(net := WithNewSession(w.net, 0).(lobby := [c]));
    Serves(ws, w1, c);
    var w2 := Remembered(w, c).(net := WithNewSession(w.net, 0));
    assert Remembered(Queued(w1, []), c) == w2;
    Greeted(w2, c.sid);
    assert Real(ws, w2);
    forall s ensures HandlerOf(w2, s) == Waiting {
      assert HandlerOf(w, s) == Waiting;
    }
    StaysQuiet(ws, w, w2);
  }

  /** The greeting of a session whose sends succeed changes nothing. */
  lemma Greeted(w: World, sid: int)
    requires Shaped(w)
    ensures ExecuteLobby(w, SessionConnected(sid), false) == w
  {
  }

  lemma StaysQuiet(ws: iset<World>, w: World, w': World)
    requires Quiet(ws, w) && Real(ws, w') && AllWaiting(w')
    requires w'.batch == w.batch && w'.net.lobby == w.net.lobby && w'.net.lobbyCapacity == w.net.lobbyCapacity
    requires w'.net.accepting == w.net.accepting
    requires w'.game == w.game && w'.gameBatch == w.gameBatch && w'.gameCapacity == w.gameCapacity
    ensures Quiet(ws, w')
  {
  }

  /** A client connects, is greeted, and logs in. */
  lemma Arrives(ws: iset<World>, w: World, token: nat) returns (w': World)
    requires Quiet(ws, w) && w.net.nextSid < SID_LIMIT && token != 0 && token !in w.issued
    ensures Quiet(ws, w') && w'.rooms == w.rooms && w'.now == w.now
    ensures w'.net == WithNewSession(w.net, token) && w'.issued == w.issued + {token}
  {
    var sid := w.net.nextSid;
    Connects(ws, w);
    var w1 := Remembered(w, SessionConnected(sid)).(net := WithNewSession(w.net, 0));
    w' := LogsIn(ws, w1, sid, token);
    assert w'.net.sessions == WithNewSession(w.net, token).sessions;
    StaysQuiet(ws, w1, w');
  }

  lemma LogsIn(ws: iset<World>, w: World, sid: int, token: nat) returns (w': World)
    requires Real(ws, w) && AllWaiting(w) && sid in w.net.sessions && w.net.sessions[sid].token == 0
    requires token != 0 && token !in w.issued
    ensures Real(ws, w') && AllWaiting(w')
    ensures w' == w.(handlers := w'.handlers, issued := w.issued + {token}, didLogin := w.didLogin + {sid},
                     net := SetToken(w.net, sid, token))
  {
    LoginReads(ws, w, sid, token);
    var w1 := w.(handlers := w.handlers[sid := LoginRead(token)], issued := w.issued + {token},
                 didLogin := w.didLogin + {sid});
    LoginWrites(ws, w1, sid, token);
    w' := w1.(handlers := w1.handlers[sid := Waiting], net := SetToken(w1.net, sid, token));
    forall s ensures HandlerOf(w', s) == Waiting {
      assert HandlerOf(w, s) == Waiting;
    }
  }

  /** The game command that session `sid` sends with a packet. */
  function Sent(w: World, sid: int, packet: GamePacket): GameCommand
    requires sid in w.net.sessions
  {
    var b := w.net.sessions[sid].binding;
    GameCommand(sid, b.room, b.lease, packet)
  }

  /** No packet of `sid` is being handled, any more. */
  function Handled(w: World, sid: int): World {
    w.(handlers := w.handlers[sid := Waiting])
  }

  lemma Submits(ws: iset<World>, w: World, sid: int, packet: GamePacket)
    requires Quiet(ws, w) && sid in w.net.sessions && w.net.sessions[sid].binding.room != -1
    ensures Real(ws, Handled(w, sid).(game := [Sent(w, sid, packet)]))
  {
    var b := w.net.sessions[sid].binding;
    Reads(ws, w, sid, b);
    var w1 := w.(handlers := w.handlers[sid := GameRead(b)]);
    QueuesGame(ws, w1, sid, b, packet);
    assert w1.handlers[sid := Waiting] == w.handlers[sid := Waiting];
  }

  lemma ServesGame(ws: iset<World>, w: World, c: GameCommand)
    requires Real(ws, w.(game := [c])) && w.gameBatch == [] && w.game == []
    ensures Shaped(w) && Real(ws, ExecuteGame(w, c))
  {
    DrainsGame(ws, w.(game := [c]), c);
    PopsGame(ws, w.(gameBatch := [c]), c);
    assert w.(gameBatch := [c]).(gameBatch := []) == w;
  }

  /** A bound session's packet is received, queued and executed. */
  lemma Plays(ws: iset<World>, w: World, sid: int, packet: GamePacket)
    requires Quiet(ws, w) && sid in w.net.sessions && w.net.sessions[sid].binding.room != -1
    ensures Shaped(Handled(w, sid)) && Real(ws, ExecuteGame(Handled(w, sid), Sent(w, sid, packet)))
  {
    Submits(ws, w, sid, packet);
    ServesGame(ws, Handled(w, sid), Sent(w, sid, packet));
  }

  /** What a client's Exit leaves the owner to execute. */
  function Gone(w: World, sid: int): World {
    Handled(w, sid).(net := Clear(w.net, sid))
  }

  lemma SubmitsExit(ws: iset<World>, w: World, sid: int, room: int, before: seq<LobbyCommand>)
    requires Real(ws, w) && HandlerOf(w, sid) == Waiting && sid in w.net.sessions && w.net.sessions[sid].binding.room == room
    requires w.net.lobby == before && |before| < w.net.lobbyCapacity
    ensures Real(ws, Queued(Gone(w, sid), before + [Exit(sid, room)]))
  {
    ExitReads(ws, w, sid, room);
    var w1 := w.(handlers := w.handlers[sid := ExitRead(room)]);
    ExitQueues(ws, w1, sid, room, before);
    var w2 := Queued(w1, before + [Exit(sid, room)]).(handlers := w1.handlers[sid := ExitQueued(room)]);
    ExitClears(ws, w2, sid, room);
    assert w2.handlers[sid := Waiting] == w.handlers[sid := Waiting];
  }

  /** A client's Exit is received and queued, its binding cleared, and the command executed. */
  lemma Exits(ws: iset<World>, w: World, sid: int, room: int)
    requires Quiet(ws, w) && sid in w.net.sessions && w.net.sessions[sid].binding.room == room
    ensures var w1 := Remembered(Gone(w, sid), Exit(sid, room));
            Shaped(w1) && Real(ws, ExecuteLobby(w1, Exit(sid, room), false))
  {
    SubmitsExit(ws, w, sid, room, []);
    assert [] + [Exit(sid, room)] == [Exit(sid, room)];
    var w1 := Queued(Gone(w, sid), [Exit(sid, room)]);
    Serves(ws, w1, Exit(sid, room));
    assert Queued(w1, []) == Gone(w, sid);
  }
}
