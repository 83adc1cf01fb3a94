/** RoomManager as an object: the owner thread's commands, each proved to do what its atomic step says. */
module RoomManagers {
  import opened RoomCommand
  import opened SessionSpec
  import opened MatchSpec
  import opened RoomSpec
  import opened Protocol
  import opened OwnerRound
  import opened ServerInvariant
  import opened ServerSteps
  import opened ServerSessions
  import opened Rooms

  class RoomManager {
    const sessions: ServerSessionManager
    const gameCommands: GameCommandQueue
    const rooms: seq<Rooms.Room>

    /** All objects that make up the rooms. */
    ghost const own: set<object>

    constructor (sessions: ServerSessionManager, gameCommands: GameCommandQueue, now: int)
      requires sessions.Valid() && gameCommands !in sessions.Repr
      ensures Valid() && this.sessions == sessions && this.gameCommands == gameCommands
      ensures forall r | 0 <= r < |rooms| :: rooms[r].RoomView() == NewRoom(r)
      ensures sessions.View() == Initial(sessions.View().lobbyCapacity, 0).net && gameCommands.commands == [] ==>
                Holds(Initial(sessions.View().lobbyCapacity, gameCommands.capacity))
    {
      var list: seq<Rooms.Room> := [];
      ghost var objects: set<object> := {};
      for i := 0 to ROOM_CAPACITY
        invariant |list| == i && sessions.Valid() && gameCommands !in sessions.Repr
        invariant forall r | 0 <= r < i :: list[r].sessions == sessions && list[r].Valid() && list[r].Number() == r
        invariant forall r | 0 <= r < i :: list[r].Own() <= objects && list[r].RoomView() == NewRoom(r)
        invariant gameCommands !in objects && fresh(objects)
        invariant forall r, q | 0 <= r < q < i :: list[r].Own() !! list[q].Own()
      {
        var room := new Rooms.Room(sessions, i, now);
        list := list + [room];
        objects := objects + room.Own();
      }
      rooms, this.sessions, this.gameCommands, own := list, sessions, gameCommands, objects;
    }

    ghost predicate Valid()
      reads sessions, sessions.Repr
    {
      && |rooms| == ROOM_CAPACITY
      && sessions.Valid() && gameCommands !in sessions.Repr
      && (forall r | 0 <= r < |rooms| :: rooms[r].sessions == sessions && rooms[r].Valid() && rooms[r].Number() == r
                                         && rooms[r].Own() <= own)
      && gameCommands !in own
      && (forall r, q | 0 <= r < q < |rooms| :: rooms[r].Own() !! rooms[q].Own())
    }

    /** The objects hold exactly the rooms, sessions and queued game commands of `w`. */
    ghost predicate Holds(w: World)
      reads own, sessions, sessions.Repr, gameCommands
    {
      && Valid() && Shaped(w)
      && (forall r | 0 <= r < |rooms| :: w.rooms[r] == rooms[r].RoomView())
      && w.net == sessions.View()
      && w.game == gameCommands.commands && w.gameCapacity == gameCommands.capacity
    }

    /** Only room `r` and sessions have changed since `w`. */
    lemma HoldsScene(r: int, w: World, c: Scene)
      requires Valid() && Shaped(w) && 0 <= r < |rooms|
      requires rooms[r].View() == c
      requires forall q | 0 <= q < |rooms| && q != r :: w.rooms[q] == rooms[q].RoomView()
      requires w.game == gameCommands.commands && w.gameCapacity == gameCommands.capacity
      ensures Holds(WithScene(w, r, c))
    {
    }

    /** Only sessions have changed since `w`. */
    lemma HoldsNet(w: World, w': World)
      requires Valid() && Shaped(w) && w'.rooms == w.rooms && w'.net == sessions.View()
      requires forall q | 0 <= q < |rooms| :: w.rooms[q] == rooms[q].RoomView()
      requires w'.game == gameCommands.commands && w'.gameCapacity == gameCommands.capacity
      ensures Holds(w')
    {
    }

    method UserIn(r: int, sid: int, ghost w: World) returns (entered: bool)
      requires Holds(w) && 0 <= r < |rooms|
      modifies rooms[r].Own(), sessions.Repr
      ensures sessions.Repr == old(sessions.Repr)
      ensures Holds(WithScene(w, r, RoomSpec.UserIn(SceneAt(w, r), sid)))
      ensures entered == CanEnter(SceneAt(w, r), sid)
    {
      assert SceneAt(w, r) == rooms[r].View();
      entered := rooms[r].UserIn(sid);
      forall q | 0 <= q < |rooms| && q != r ensures w.rooms[q] == rooms[q].RoomView() {
        assert rooms[q].Own() !! rooms[r].Own();
      }
      assert Valid();
      HoldsScene(r, w, RoomSpec.UserIn(SceneAt(w, r), sid));
    }

    method UserOut(r: int, sid: int, ghost w: World)
      requires Holds(w) && 0 <= r < |rooms|
      modifies rooms[r].Own(), sessions.Repr
      ensures sessions.Repr == old(sessions.Repr)
      ensures Holds(WithScene(w, r, RoomSpec.UserOut(SceneAt(w, r), sid)))
    {
      assert SceneAt(w, r) == rooms[r].View();
      rooms[r].UserOut(sid);
      forall q | 0 <= q < |rooms| && q != r ensures w.rooms[q] == rooms[q].RoomView() {
        assert rooms[q].Own() !! rooms[r].Own();
      }
      HoldsScene(r, w, RoomSpec.UserOut(SceneAt(w, r), sid));
    }

    method OnTransportDisconnected(r: int, sid: int, token: nat, ghost w: World, now: int)
      requires Holds(w) && 0 <= r < |rooms|
      modifies rooms[r].Own(), sessions.Repr
      ensures sessions.Repr == old(sessions.Repr)
      ensures Holds(WithScene(w, r, TransportDisconnected(SceneAt(w, r), sid, token, now)))
    {
      assert SceneAt(w, r) == rooms[r].View();
      rooms[r].OnTransportDisconnected(sid, token, now);
      forall q | 0 <= q < |rooms| && q != r ensures w.rooms[q] == rooms[q].RoomView() {
        assert rooms[q].Own() !! rooms[r].Own();
      }
      HoldsScene(r, w, TransportDisconnected(SceneAt(w, r), sid, token, now));
    }

    lemma SameScene(w: World, r: int)
      requires 0 <= r < |w.rooms|
      ensures WithScene(w, r, SceneAt(w, r)) == w
    {
    }

    method ResumeUser(r: int, sid: int, token: nat, ghost w: World, now: int) returns (resumed: bool)
      requires Holds(w) && 0 <= r < |rooms|
      modifies rooms[r].Own(), sessions.Repr
      ensures sessions.Repr == old(sessions.Repr)
      ensures resumed == CanResume(SceneAt(w, r), sid, token, now)
      ensures Holds(if resumed then WithScene(w, r, RoomSpec.ResumeUser(SceneAt(w, r), sid, token, now)) else w)
    {
      assert SceneAt(w, r) == rooms[r].View();
      resumed := rooms[r].ResumeUser(sid, token, now);
      forall q | 0 <= q < |rooms| && q != r ensures w.rooms[q] == rooms[q].RoomView() {
        assert rooms[q].Own() !! rooms[r].Own();
      }
      HoldsScene(r, w, RoomSpec.ResumeUser(SceneAt(w, r), sid, token, now));
      SameScene(w, r);
    }

    /** TryUpdateReady, and InitGame if a member has just become ready. */
    method UpdateReady(r: int, sid: int, ready: bool, ghost w: World)
      requires Holds(w) && 0 <= r < |rooms|
      modifies rooms[r].Own(), sessions.Repr
      ensures sessions.Repr == old(sessions.Repr)
      ensures var c := SceneAt(w, r).(room := SetReadyFlag(w.rooms[r], sid, ready));
              Holds(if !CanSetReady(w.rooms[r], sid) then w else WithScene(w, r, if ready then InitGame(c) else c))
    {
      assert SceneAt(w, r) == rooms[r].View();
      ghost var c := SceneAt(w, r).(room := SetReadyFlag(w.rooms[r], sid, ready));
      var updated := rooms[r].TryUpdateReady(sid, ready);
      assert rooms[r].View() == c;
      if updated && ready { rooms[r].InitGame(); }
      forall q | 0 <= q < |rooms| && q != r ensures w.rooms[q] == rooms[q].RoomView() {
        assert rooms[q].Own() !! rooms[r].Own();
      }
      HoldsScene(r, w, if updated && ready then InitGame(c) else c);
      assert !updated ==> WithScene(w, r, c) == w;
    }

    method ProcessGamePacket(r: int, command: GameCommand, ghost w: World, now: int)
      requires Holds(w) && 0 <= r < |rooms|
      modifies rooms[r].Own(), sessions.Repr
      ensures sessions.Repr == old(sessions.Repr)
      ensures Holds(WithScene(w, r, RoomSpec.ProcessGamePacket(SceneAt(w, r), command, now)))
    {
      assert SceneAt(w, r) == rooms[r].View();
      rooms[r].ProcessGamePacket(command, now);
      forall q | 0 <= q < |rooms| && q != r ensures w.rooms[q] == rooms[q].RoomView() {
        assert rooms[q].Own() !! rooms[r].Own();
      }
      HoldsScene(r, w, RoomSpec.ProcessGamePacket(SceneAt(w, r), command, now));
    }

    method UpdateOne(r: int, g: Geometry, ghost w: World, now: int)
      requires Holds(w) && 0 <= r < |rooms| && w.now == now
      modifies rooms[r].Own(), sessions.Repr
      ensures sessions.Repr == old(sessions.Repr)
      ensures Holds(UpdateRoom(w, r, g))
    {
      assert SceneAt(w, r) == rooms[r].View();
      rooms[r].Update(now, g);
      forall q | 0 <= q < |rooms| && q != r ensures w.rooms[q] == rooms[q].RoomView() {
        assert rooms[q].Own() !! rooms[r].Own();
      }
      HoldsScene(r, w, Update(SceneAt(w, r), now, g));
    }

    method SetStatus(r: int, status: Status, ghost w: World)
      requires Holds(w) && 0 <= r < |rooms|
      modifies rooms[r]
      ensures sessions.Repr == old(sessions.Repr)
      ensures Holds(w.(rooms := w.rooms[r := w.rooms[r].(status := status)]))
    {
      rooms[r].SetStatus(status);
      forall q | 0 <= q < |rooms| && q != r ensures w.rooms[q] == rooms[q].RoomView() {
        assert rooms[q].Own() !! rooms[r].Own();
      }
      HoldsScene(r, w, SceneAt(w, r).(room := w.rooms[r].(status := status)));
    }

    // ---- commands ----

    method RemoveSession(sid: int, ghost w: World)
      requires Holds(w)
      modifies sessions.Repr
      ensures sessions.Repr == old(sessions.Repr)
      ensures Holds(w.(net := RequestRemove(w.net, sid)))
    {
      sessions.RequestRemoveSession(sid);
      forall q | 0 <= q < |rooms| ensures w.rooms[q] == rooms[q].RoomView() {
        assert rooms[q].Valid();
      }
    }

    method EnterRoom(sid: int, room: int, ghost w: World) returns (entered: bool)
      requires Holds(w)
      modifies own, sessions.Repr
      ensures sessions.Repr == old(sessions.Repr)
      ensures Holds(Protocol.EnterRoom(w, sid, room))
    {
      if room < 0 || room >= ROOM_CAPACITY {
        RemoveSession(sid, w);
        return false;
      }
      var session := sessions.FindSession(sid);
      if session == null || session.gameBinding.room != -1 { return false; }
      entered := UserIn(room, sid, w);
    }

    method ExitRoom(sid: int, room: int, ghost w: World)
      requires Holds(w)
      modifies own, sessions.Repr
      ensures sessions.Repr == old(sessions.Repr)
      ensures Holds(Protocol.ExitRoom(w, sid, room))
    {
      if room < 0 || room >= ROOM_CAPACITY { return; }
      UserOut(room, sid, w);
    }

    method DisconnectSession(sid: int, token: nat, ghost w: World, now: int)
      requires Holds(w) && w.now == now
      modifies own, sessions.Repr
      ensures sessions.Repr == old(sessions.Repr)
      ensures Holds(DisconnectUpTo(w, sid, token, ROOM_CAPACITY))
    {
      for r := 0 to ROOM_CAPACITY
        invariant Holds(DisconnectUpTo(w, sid, token, r))
        invariant DisconnectUpTo(w, sid, token, r).now == now
        invariant sessions.Repr == old(sessions.Repr)
      {
        OnTransportDisconnected(r, sid, token, DisconnectUpTo(w, sid, token, r), now);
      }
    }

    method ResumeSession(sid: int, token: nat, ghost w: World, now: int)
      requires Holds(w) && w.now == now
      modifies own, sessions.Repr
      ensures sessions.Repr == old(sessions.Repr)
      ensures Holds(Protocol.ResumeSession(w, sid, token))
    {
      if token == 0 { return; }
      for r := 0 to ROOM_CAPACITY
        invariant Holds(w) && ResumeFrom(w, sid, token, 0) == ResumeFrom(w, sid, token, r)
        invariant sessions.Repr == old(sessions.Repr)
      {
        var resumed := ResumeUser(r, sid, token, w, now);
        if resumed { return; }
      }
    }

    /** The free room opens for a moment; `ajar` is what the objects then hold. */
    method TryEnter(r: int, sid: int, ghost w: World, ghost ajar: World) returns (entered: bool)
      requires Holds(w) && 0 <= r < |rooms| && w.rooms[r].status == Empty
      requires ajar == w.(rooms := w.rooms[r := Opened(w.rooms[r])])
      modifies rooms[r].Own(), sessions.Repr
      ensures sessions.Repr == old(sessions.Repr)
      ensures entered == CanEnter(SceneAt(ajar, r), sid)
      ensures Holds(WithScene(ajar, r, RoomSpec.UserIn(SceneAt(ajar, r), sid)))
    {
      SetStatus(r, NotFull, w);
      entered := UserIn(r, sid, ajar);
    }

    /** One turn of the loop in CreateRoom: the free room opens, and closes again if nobody could enter. */
    method TryCreate(r: int, sid: int, ghost w: World) returns (created: bool)
      requires Holds(w) && 0 <= r < |rooms|
      modifies rooms[r].Own(), sessions.Repr
      ensures sessions.Repr == old(sessions.Repr)
      ensures var c := SceneAt(w, r).(room := Opened(w.rooms[r]));
              && created == (w.rooms[r].status == Empty && CanEnter(c, sid))
              && Holds(if created then WithScene(w, r, RoomSpec.UserIn(c, sid)) else w)
    {
      if rooms[r].status != Empty { return false; }
      ghost var ajar := w.(rooms := w.rooms[r := Opened(w.rooms[r])]);
      AjarFacts(w, r, ajar, RoomSpec.UserIn(SceneAt(ajar, r), sid));
      created := TryEnter(r, sid, w, ajar);
      if !created { SetStatus(r, Empty, ajar); }
    }

    static lemma AjarFacts(w: World, r: int, ajar: World, c': Scene)
      requires Shaped(w) && 0 <= r < |w.rooms| && w.rooms[r].status == Empty
      requires ajar == w.(rooms := w.rooms[r := Opened(w.rooms[r])])
      ensures SceneAt(ajar, r) == SceneAt(w, r).(room := Opened(w.rooms[r]))
      ensures WithScene(ajar, r, c') == WithScene(w, r, c') && WithScene(ajar, r, SceneAt(ajar, r)) == ajar
      ensures ajar.(rooms := ajar.rooms[r := ajar.rooms[r].(status := Empty)]) == w
    {
    }

    method CreateRoom(sid: int, ghost w: World)
      requires Holds(w)
      modifies own, sessions.Repr
      ensures sessions.Repr == old(sessions.Repr)
      ensures Holds(Protocol.CreateRoom(w, sid))
    {
      var session := sessions.FindSession(sid);
      if session == null || session.gameBinding.room != -1 { return; }
      for r := 0 to ROOM_CAPACITY
        invariant Holds(w) && CreateFrom(w, sid, 0) == CreateFrom(w, sid, r)
        invariant sessions.Repr == old(sessions.Repr)
      {
        var created := TryCreate(r, sid, w);
        if created { return; }
      }
    }

    method SetReady(sid: int, ready: bool, ghost w: World)
      requires Holds(w)
      modifies own, sessions.Repr
      ensures sessions.Repr == old(sessions.Repr)
      ensures Holds(SetReadyCommand(w, sid, ready))
    {
      var session := sessions.FindSession(sid);
      if session == null { return; }
      var room := session.gameBinding.room;
      if room < 0 || room >= ROOM_CAPACITY { return; }
      UpdateReady(room, sid, ready, w);
    }

    method ExecuteGameCommand(command: GameCommand, ghost w: World, now: int)
      requires Holds(w) && w.now == now
      modifies own, sessions.Repr
      ensures sessions.Repr == old(sessions.Repr)
      ensures Holds(ExecuteGame(w, command))
    {
      if command.room < 0 || command.room >= ROOM_CAPACITY { return; }
      var session := sessions.FindSession(command.sid);
      if session == null { return; }
      var binding := session.gameBinding;
      if binding.room != command.room { return; }
      if !command.lease.Matches(binding.lease.memberGeneration, binding.lease.matchGeneration) { return; }
      ProcessGamePacket(command.room, command, w, now);
    }

    method ExecuteLobbyCommand(command: LobbyCommand, sendFails: bool, ghost w: World, now: int)
      requires Holds(w) && w.now == now
      modifies own, sessions.Repr
      ensures sessions.Repr == old(sessions.Repr)
      ensures Holds(ExecuteLobby(w, command, sendFails))
    {
      match command {
        case SessionConnected(sid) =>
          var session := sessions.FindSession(sid);
          if session != null && sendFails { RemoveSession(sid, w); }
        case Create(sid) => CreateRoom(sid, w);
        case Enter(sid, room) =>
          var entered := EnterRoom(sid, room, w);
        case SetReady(sid, ready) => SetReady(sid, ready, w);
        case Exit(sid, room) => ExitRoom(sid, room, w);
        case Disconnected(sid, token) => DisconnectSession(sid, token, w, now);
        case Resume(sid, token) => ResumeSession(sid, token, w, now);
      }
    }

    // ---- one call of UpdateRooms ----

    /** The queue is drained; nothing else that the objects hold changes. */
    method TakeLobby(ghost n: Net) returns (commands: seq<LobbyCommand>)
      requires Valid() && n == sessions.View()
      requires forall q | 0 <= q < |rooms| :: sessions.lobbyCommands !in rooms[q].Own()
      modifies sessions.lobbyCommands
      ensures Valid() && sessions.Repr == old(sessions.Repr)
      ensures var k := Least(|n.lobby|, MAX_COMMANDS_PER_UPDATE);
              commands == n.lobby[..k] && sessions.View() == n.(lobby := n.lobby[k..])
      ensures forall q | 0 <= q < |rooms| :: rooms[q].RoomView() == old(rooms[q].RoomView())
    {
      commands := sessions.DrainLobby(MAX_COMMANDS_PER_UPDATE);
      assert forall q | 0 <= q < |rooms| :: rooms[q].Valid();
    }

    method TakeLobbyBatch(ghost w: World) returns (commands: seq<LobbyCommand>)
      requires Holds(w) && w.batch == []
      modifies sessions.lobbyCommands
      ensures sessions.Repr == old(sessions.Repr)
      ensures Holds(LobbyDrained(w)) && commands == LobbyDrained(w).batch
    {
      forall q | 0 <= q < |rooms| ensures sessions.lobbyCommands !in rooms[q].Own() {
        assert rooms[q].Valid();
      }
      commands := TakeLobby(w.net);
      HoldsNet(w, LobbyDrained(w));
    }

    method ExecuteNext(command: LobbyCommand, sendFails: bool, ghost w: World, now: int)
      requires Holds(w) && w.now == now && w.batch != [] && command == w.batch[0]
      modifies own, sessions.Repr
      ensures sessions.Repr == old(sessions.Repr)
      ensures Holds(Apply(w, LobbyCommandStep(sendFails)))
      ensures var w' := Apply(w, LobbyCommandStep(sendFails));
              w'.now == now && w'.batch == w.batch[1..] && w'.gameBatch == w.gameBatch
    {
      ExecutedKeepsRest(w, sendFails);
      ExecuteLobbyCommand(command, sendFails, Popped(w), now);
    }

    lemma ExecutedKeepsRest(w: World, sendFails: bool)
      requires Shaped(w) && w.batch != []
      ensures var w' := Apply(w, LobbyCommandStep(sendFails));
              && w' == ExecuteLobby(Popped(w), w.batch[0], sendFails)
              && w'.now == w.now && w'.batch == w.batch[1..] && w'.gameBatch == w.gameBatch
    {
      CommandKeepsRest(Popped(w), w.batch[0], sendFails);
    }

    method DrainLobbyCommands(sendFails: seq<bool>, ghost w: World, now: int)
      requires Holds(w) && w.now == now && w.batch == [] && |sendFails| >= MAX_COMMANDS_PER_UPDATE
      modifies own, sessions.Repr
      ensures sessions.Repr == old(sessions.Repr)
      ensures Holds(LobbyRound(w, sendFails))
    {
      var commands := TakeLobbyBatch(w);
      ghost var wi := LobbyDrained(w);
      for i := 0 to |commands|
        invariant Holds(wi) && wi.now == now && wi.batch == commands[i..]
        invariant sessions.Repr == old(sessions.Repr)
        invariant ExecuteBatch(wi, sendFails[i..]) == LobbyRound(w, sendFails)
      {
        assert sendFails[i..][0] == sendFails[i] && sendFails[i..][1..] == sendFails[i + 1..];
        assert commands[i..][0] == commands[i] && commands[i..][1..] == commands[i + 1..];
        ExecuteNext(commands[i], sendFails[i], wi, now);
        wi := Apply(wi, LobbyCommandStep(sendFails[i]));
      }
    }

    method TakeGameBatch(ghost w: World) returns (commands: seq<GameCommand>)
      requires Holds(w) && w.gameBatch == []
      modifies gameCommands
      ensures Holds(GameDrained(w)) && commands == GameDrained(w).gameBatch
    {
      commands := gameCommands.Drain(MAX_COMMANDS_PER_UPDATE);
      forall q | 0 <= q < |rooms| ensures w.rooms[q] == rooms[q].RoomView() {
        assert rooms[q].Own() <= own;
      }
    }

    method ExecuteNextGame(command: GameCommand, ghost w: World, now: int)
      requires Holds(w) && w.now == now && w.gameBatch != [] && command == w.gameBatch[0]
      modifies own, sessions.Repr
      ensures sessions.Repr == old(sessions.Repr)
      ensures Holds(Apply(w, GameCommandStep))
      ensures Apply(w, GameCommandStep).now == now && Apply(w, GameCommandStep).gameBatch == w.gameBatch[1..]
    {
      ExecuteGameCommand(command, PoppedGame(w), now);
    }

    method DrainGameCommands(ghost w: World, now: int)
      requires Holds(w) && w.now == now && w.gameBatch == []
      modifies own, sessions.Repr, gameCommands
      ensures sessions.Repr == old(sessions.Repr)
      ensures Holds(GameRound(w))
    {
      var commands := TakeGameBatch(w);
      ghost var wi := GameDrained(w);
      for i := 0 to |commands|
        modifies own, sessions.Repr
        invariant Holds(wi) && wi.now == now && wi.gameBatch == commands[i..]
        invariant sessions.Repr == old(sessions.Repr)
        invariant ExecuteGameBatch(wi) == GameRound(w)
      {
        assert commands[i..][0] == commands[i] && commands[i..][1..] == commands[i + 1..];
        ghost var wj := Apply(wi, GameCommandStep);
        ExecuteNextGame(commands[i], wi, now);
        wi := wj;
      }
      assert wi.gameBatch == [];
    }

    /** One turn of the loop over the rooms: those not in game are skipped. */
    method UpdateNext(r: int, g: Geometry, ghost w: World, now: int)
      requires Holds(w) && w.now == now && 0 <= r < |rooms|
      modifies rooms[r].Own(), sessions.Repr
      ensures sessions.Repr == old(sessions.Repr)
      ensures Holds(UpdateRoom(w, r, g)) && UpdateRoom(w, r, g).now == now
    {
      if rooms[r].status != InGame {
        assert WithScene(w, r, SceneAt(w, r)) == w;
        return;
      }
      UpdateOne(r, g, w, now);
    }

    method UpdateEachRoom(geometry: seq<Geometry>, ghost w: World, now: int)
      requires Holds(w) && w.now == now && |geometry| == ROOM_CAPACITY
      modifies own, sessions.Repr
      ensures Holds(UpdateFrom(w, geometry, 0))
    {
      ghost var wi := w;
      for i := 0 to ROOM_CAPACITY
        invariant Holds(wi) && wi.now == now
        invariant sessions.Repr == old(sessions.Repr)
        invariant UpdateFrom(wi, geometry, i) == UpdateFrom(w, geometry, 0)
      {
        UpdateNext(i, geometry[i], wi, now);
        wi := UpdateRoom(wi, i, geometry[i]);
      }
    }

    method DrainAndUpdate(sendFails: seq<bool>, geometry: seq<Geometry>, ghost w: World, now: int)
      requires Holds(w) && w.now == now && w.batch == [] && w.gameBatch == []
      requires |sendFails| >= MAX_COMMANDS_PER_UPDATE && |geometry| == ROOM_CAPACITY
      modifies own, sessions.Repr, gameCommands
      ensures Holds(Round(w, sendFails, geometry))
    {
      RoundKeepsRest(w, sendFails);
      DrainLobbyCommands(sendFails, w, now);
      ghost var w1 := LobbyRound(w, sendFails);
      DrainGameCommands(w1, now);
      GameRoundKeepsNow(w1);
      UpdateEachRoom(geometry, GameRound(w1), now);
    }

    /**
     * The owner's whole turn, from a state `w` that some run reaches: the objects end in a state that a run of
     * atomic owner steps reaches from it, so everything proved of all runs holds of them.
     */
    method UpdateRooms(sendFails: seq<bool>, geometry: seq<Geometry>, ghost w: World, now: int) returns (ghost w': World)
      requires Holds(w) && WorldOK(w) && Reachable(w) && w.now == now && w.batch == [] && w.gameBatch == []
      requires |sendFails| >= MAX_COMMANDS_PER_UPDATE && |geometry| == ROOM_CAPACITY
      modifies own, sessions.Repr, gameCommands
      ensures w' == Round(w, sendFails, geometry) && Holds(w') && Reachable(w') && WorldOK(w')
    {
      DrainAndUpdate(sendFails, geometry, w, now);
      w' := Round(w, sendFails, geometry);
      RoundReachable(w, sendFails, geometry);
    }
  }
}
