/**
 * However sessions come to fill several slots, a slot that waits for its player is the first one in its room under
 * its sid, so that a departure under that sid always finds it.
 */
module Waiters {
  import opened RoomCommand
  import opened SessionSpec
  import opened MatchSpec
  import opened RoomSpec
  import opened Protocol
  import opened RoomInvariant
  import opened ServerInvariant
  import opened ServerSteps

  ghost predicate WaitsFirst(ms: seq<Member>) {
    forall k, i | 0 <= k < i < |ms| && ms[i].connection == Reconnecting :: ms[k].sid != ms[i].sid
  }

  ghost predicate WaitersFirst(w: World) {
    forall r | 0 <= r < |w.rooms| :: WaitsFirst(w.rooms[r].members)
  }

  /** In a waiting room nobody is reconnecting. */
  lemma NobodyWaits(r: Room, now: int)
    requires RoomOK(r, now) && r.status != InGame
    ensures WaitsFirst(r.members)
  {
  }

  /** Vacating slots keeps the order. */
  lemma VacatingKeepsFirst(a: Room, b: Room, now: int)
    requires RoomOK(a, now) && RoomOK(b, now) && WaitsFirst(a.members)
    requires forall i | 0 <= i < PLAYERNUM :: b.members[i] == a.members[i] || !Filled(b.members[i])
    ensures WaitsFirst(b.members)
  {
    forall i | 0 <= i < PLAYERNUM ensures SlotOK(b.members[i]) {}
  }

  lemma LooseKeepsFirst(w: World, r: int, c': Scene)
    requires WorldOK(w) && WaitersFirst(w) && IsValidRoom(r)
    requires Loosened(SceneAt(w, r), c') && RoomOK(c'.room, w.now)
    ensures WaitersFirst(WithScene(w, r, c'))
  {
    VacatingKeepsFirst(w.rooms[r], c'.room, w.now);
  }

  lemma ExitKeepsFirst(w: World, sid: int, room: int)
    requires WorldOK(w) && WaitersFirst(w) && sid in w.net.sessions
    ensures WaitersFirst(ExitRoom(w, sid, room))
  {
    if IsValidRoom(room) {
      UserOutLoosens(SceneAt(w, room), sid);
      UserOutKeepsRoom(SceneAt(w, room), sid, w.now);
      LooseKeepsFirst(w, room, UserOut(SceneAt(w, room), sid));
    }
  }

  lemma UpdateKeepsFirst(w: World, r: int, g: Geometry)
    requires WorldOK(w) && WaitersFirst(w) && IsValidRoom(r)
    ensures WaitersFirst(UpdateRoom(w, r, g))
  {
    UpdateLoosens(SceneAt(w, r), w.now, g);
    UpdateKeepsRoom(SceneAt(w, r), w.now, g);
    LooseKeepsFirst(w, r, Update(SceneAt(w, r), w.now, g));
  }

  /** A disconnection drops the first slot under the sid. */
  lemma DropsTheFirst(c: Scene, sid: int, token: nat, now: int)
    requires RoomOK(c.room, now) && sid != -1 && WaitsFirst(c.room.members)
    ensures WaitsFirst(TransportDisconnected(c, sid, token, now).room.members)
  {
    var i := IndexOf(c.room.members, sid);
    if i < 0 || c.room.status != InGame || i == 0 || token == 0 {
      UserOutKeepsRoom(c, sid, now);
      if RoomShaped(UserOut(c, sid).room) { UserOutVacates(c, sid, now); }
      VacatingKeepsFirst(c.room, UserOut(c, sid).room, now);
    }
  }

  lemma UserOutVacates(c: Scene, sid: int, now: int)
    requires RoomOK(c.room, now) && sid != -1
    ensures var b := UserOut(c, sid).room;
            |b.members| == PLAYERNUM
            && forall i | 0 <= i < PLAYERNUM :: b.members[i] == c.room.members[i] || !Filled(b.members[i])
  {
  }

  lemma DisconnectKeepsFirst(w: World, sid: int, token: nat)
    requires WorldOK(w) && WaitersFirst(w) && sid in w.net.sessions
    ensures WaitersFirst(DisconnectUpTo(w, sid, token, ROOM_CAPACITY))
  {
    var w' := DisconnectUpTo(w, sid, token, ROOM_CAPACITY);
    forall r | 0 <= r < |w'.rooms| ensures WaitsFirst(w'.rooms[r].members) {
      DisconnectRooms(w, sid, token, ROOM_CAPACITY, r);
      DropsTheFirst(SceneAt(w, r), sid, token, w.now);
    }
  }

  lemma CreateKeepsFirst(w: World, sid: int)
    requires WorldOK(w) && WaitersFirst(w) && sid in w.net.sessions && Unbound(w.net, sid)
    ensures WaitersFirst(CreateFrom(w, sid, 0))
  {
    CreateStep(w, sid, 0);
    var w' := CreateFrom(w, sid, 0);
    if w' != w {
      var r :| IsValidRoom(r) && w.rooms[r].status == Empty
               && CanEnter(SceneAt(w, r).(room := Opened(w.rooms[r])), sid)
               && w' == WithScene(w, r, UserIn(SceneAt(w, r).(room := Opened(w.rooms[r])), sid));
      CreatedIsLobby(SceneAt(w, r).(room := Opened(w.rooms[r])), sid);
      EnteringKeepsFirst(w, w', r);
    }
  }

  lemma CreatedIsLobby(c: Scene, sid: int)
    requires c.room.status != InGame
    ensures UserIn(c, sid).room.status != InGame
  {
  }

  /** Who enters finds a room that is not in game, and leaves it so. */
  lemma EnteringKeepsFirst(w: World, w': World, r: int)
    requires WaitersFirst(w) && WorldOK(w') && IsValidRoom(r) && |w.rooms| == ROOM_CAPACITY
    requires w'.rooms == w.rooms[r := w'.rooms[r]] && w'.rooms[r].status != InGame
    ensures WaitersFirst(w')
  {
    NobodyWaits(w'.rooms[r], w'.now);
  }

  lemma EnterKeepsFirst(w: World, sid: int, room: int)
    requires WorldOK(w) && WaitersFirst(w) && sid in w.net.sessions
    ensures WaitersFirst(EnterRoom(w, sid, room))
  {
    if IsValidRoom(room) && EnterRoom(w, sid, room) != w {
      EnterStep(w, sid, room);
      EnteredRoom(w, sid, room);
      EnteringKeepsFirst(w, EnterRoom(w, sid, room), room);
    }
  }

  lemma EnteredRoom(w: World, sid: int, room: int)
    requires Shaped(w) && IsValidRoom(room) && EnterRoom(w, sid, room) != w
    ensures EnterRoom(w, sid, room).rooms == w.rooms[room := EnterRoom(w, sid, room).rooms[room]]
    ensures EnterRoom(w, sid, room).rooms[room].status != InGame
  {
    assert WithScene(w, room, SceneAt(w, room)) == w;
  }

  /** A session that resumes is active; a waiting slot's is not. */
  lemma ResumeKeepsFirst(w: World, sid: int, token: nat)
    requires WorldOK(w) && WaitersFirst(w) && sid in w.net.sessions && token != 0
    ensures WaitersFirst(ResumeSession(w, sid, token))
  {
    ResumeStep(w, sid, token, 0);
    var w' := ResumeSession(w, sid, token);
    if w' != w {
      var r :| IsValidRoom(r) && CanResume(SceneAt(w, r), sid, token, w.now)
               && w' == WithScene(w, r, ResumeUser(SceneAt(w, r), sid, token, w.now));
      ResumedKeepsFirst(w, r, sid, token);
    }
  }

  lemma ResumedKeepsFirst(w: World, r: int, sid: int, token: nat)
    requires WorldOK(w) && WaitersFirst(w) && IsValidRoom(r) && CanResume(SceneAt(w, r), sid, token, w.now)
    ensures WaitersFirst(WithScene(w, r, ResumeUser(SceneAt(w, r), sid, token, w.now)))
  {
    ResumeSlots(SceneAt(w, r), sid, token, w.now);
    forall k | 0 <= k < PLAYERNUM ensures SlotOK(w.rooms[r].members[k]) {}
    TakingKeepsFirst(w.rooms[r], w.net, sid, TokenIndex(w.rooms[r].members, token));
  }

  lemma TakingKeepsFirst(r: Room, n: Net, sid: int, i: int)
    requires RoomShaped(r) && RoomKnown(r, n) && WaitsFirst(r.members) && Found(n, sid) && 0 <= i < PLAYERNUM && sid != -1
    requires forall k | 0 <= k < PLAYERNUM && r.members[k].connection == Reconnecting :: Filled(r.members[k])
    ensures WaitsFirst(r.members[i := Taken(r.members[i], sid)])
  {
    forall k | 0 <= k < PLAYERNUM && r.members[k].connection == Reconnecting ensures r.members[k].sid != sid {
      assert SlotKnown(r.members[k], n);
    }
  }

  lemma SetReadyKeepsFirst(w: World, sid: int, ready: bool)
    requires Shaped(w) && WaitersFirst(w)
    ensures WaitersFirst(SetReadyCommand(w, sid, ready))
  {
  }

  lemma CommandKeepsFirst(w: World, c: LobbyCommand, sendFails: bool)
    requires WorldOK(w) && WaitersFirst(w) && CommandKnown(c, w.net)
    ensures WaitersFirst(ExecuteLobby(w, c, sendFails))
  {
    if c.Create? {
      if Unbound(w.net, c.sid) { CreateKeepsFirst(w, c.sid); }
    } else if c.Enter? {
      EnterKeepsFirst(w, c.sid, c.room);
    } else if c.SetReady? {
      SetReadyKeepsFirst(w, c.sid, c.ready);
    } else if c.Exit? {
      ExitKeepsFirst(w, c.sid, c.room);
    } else if c.Disconnected? {
      DisconnectKeepsFirst(w, c.sid, c.token);
    } else if c.Resume? {
      ResumeKeepsFirst(w, c.sid, c.token);
    }
  }

  lemma GameCommandKeepsFirst(w: World, c: GameCommand)
    requires Shaped(w) && WaitersFirst(w)
    ensures WaitersFirst(ExecuteGame(w, c))
  {
  }

  lemma LobbyStepKeepsFirst(w: World, sendFails: bool)
    requires WorldOK(w) && WaitersFirst(w) && w.batch != []
    ensures WaitersFirst(Apply(w, LobbyCommandStep(sendFails)))
  {
    assert CommandKnown(w.batch[0], w.net);
    CommandKeepsFirst(Popped(w), w.batch[0], sendFails);
  }

  /** The inductive step, for every step of every thread, whatever the clients do. */
  lemma StepKeepsFirst(w: World, s: Step)
    requires WorldOK(w) && WaitersFirst(w) && Enabled(w, s)
    ensures WaitersFirst(Apply(w, s))
  {
    if s.LobbyCommandStep? {
      LobbyStepKeepsFirst(w, s.sendFails);
    } else if s.GameCommandStep? {
      GameCommandKeepsFirst(PoppedGame(w), w.gameBatch[0]);
    } else if s.UpdateStep? {
      UpdateKeepsFirst(w, s.room, s.geometry);
    } else {
      OthersKeepRooms(w, s);
    }
  }

  lemma {:induction false} RunKeepsFirst(w: World, steps: seq<Step>)
    requires WorldOK(w) && WaitersFirst(w) && IsRun(w, steps)
    ensures WaitersFirst(After(w, steps))
    decreases |steps|
  {
    if steps != [] {
      StepKeepsWorld(w, steps[0]);
      StepKeepsFirst(w, steps[0]);
      RunKeepsFirst(Apply(w, steps[0]), steps[1..]);
    }
  }

  lemma InitialFirst(lobbyCapacity: nat, gameCapacity: nat)
    ensures WaitersFirst(Initial(lobbyCapacity, gameCapacity))
  {
    var w := Initial(lobbyCapacity, gameCapacity);
    forall r | 0 <= r < |w.rooms| ensures WaitsFirst(w.rooms[r].members) {
      assert w.rooms[r] == NewRoom(r);
    }
  }
}
