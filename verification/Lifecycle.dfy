/** Every session is announced once when it joins and once when it leaves, in that order. */
module Lifecycle {
  import opened RoomCommand
  import opened SessionSpec
  import opened MatchSpec
  import opened RoomSpec
  import opened Protocol
  import opened RoomInvariant
  import opened ServerInvariant
  import opened ServerSteps

  /** All lobby commands ever admitted, oldest first. */
  function Log(w: World): seq<LobbyCommand> {
    w.executed + Pending(w)
  }

  function Joins(log: seq<LobbyCommand>, s: int): nat {
    if log == [] then 0
    else Joins(log[..|log| - 1], s) + if log[|log| - 1] == SessionConnected(s) then 1 else 0
  }

  function Leaves(log: seq<LobbyCommand>, s: int): nat {
    if log == [] then 0
    else
      var c := log[|log| - 1];
      Leaves(log[..|log| - 1], s) + if c.Disconnected? && c.sid == s then 1 else 0
  }

  lemma Appended(log: seq<LobbyCommand>, c: LobbyCommand, s: int)
    ensures Joins(log + [c], s) == Joins(log, s) + if c == SessionConnected(s) then 1 else 0
    ensures Leaves(log + [c], s) == Leaves(log, s) + if c.Disconnected? && c.sid == s then 1 else 0
  {
    assert (log + [c])[..|log|] == log;
  }

  /** The session is gone and its departure has been announced. */
  predicate Departed(n: Net, s: int) {
    s in n.sessions && s !in n.active && s !in n.leaving
  }

  /** No departure is announced before the arrival. */
  ghost predicate ArrivesFirst(log: seq<LobbyCommand>, s: int) {
    forall k | 0 <= k <= |log| :: Leaves(log[..k], s) <= Joins(log[..k], s)
  }

  ghost predicate LifeOf(w: World, s: int) {
    && Joins(Log(w), s) == (if s in w.net.sessions then 1 else 0)
    && Leaves(Log(w), s) == (if Departed(w.net, s) then 1 else 0)
    && ArrivesFirst(Log(w), s)
  }

  /** A slot waits only for a session whose departure the owner has executed. */
  ghost predicate WaitsAfterDeparture(w: World) {
    forall r, i | 0 <= r < |w.rooms| && 0 <= i < |w.rooms[r].members| && w.rooms[r].members[i].connection == Reconnecting ::
      Leaves(w.executed, w.rooms[r].members[i].sid) >= 1
  }

  ghost predicate LifeOK(w: World) {
    && (forall s :: LifeOf(w, s))
    && Ordinary(w.net.lobby) <= w.net.lobbyCapacity
    && WaitsAfterDeparture(w)
  }

  // ---- what one step does to the table and the log ----

  ghost predicate TableStays(n: Net, n': Net) {
    && n'.sessions.Keys == n.sessions.Keys && n'.active == n.active && n'.leaving == n.leaving
    && n'.lobby == n.lobby && n'.lobbyCapacity == n.lobbyCapacity && n'.accepting == n.accepting
  }

  ghost predicate TableLoses(n: Net, n': Net, s: int) {
    && n'.sessions.Keys == n.sessions.Keys && s in n.active && s in n.sessions && s !in n.leaving
    && n'.active == n.active - {s} && n'.leaving == n.leaving
    && n'.lobbyCapacity == n.lobbyCapacity && n'.accepting == n.accepting
    && exists t :: n'.lobby == n.lobby + [Disconnected(s, t)]
  }

  ghost predicate TableLosesAtMostOne(n: Net, n': Net) {
    TableStays(n, n') || exists s :: TableLoses(n, n', s)
  }

  lemma RemovalLosesOne(n: Net, sid: int)
    requires NetOK(n)
    ensures TableLosesAtMostOne(n, RequestRemove(n, sid))
    ensures RequestRemove(n, sid).accepting == n.accepting
  {
    RequestRemoveEffect(n, sid);
    var n' := RequestRemove(n, sid);
    if Found(n, sid) {
      assert n'.lobby == n.lobby + [Disconnected(sid, n.sessions[sid].token)];
      assert TableLoses(n, n', sid);
    }
  }

  /** New waiting slots only come from the departure being executed. */
  ghost predicate WaitsLike(a: seq<Room>, b: seq<Room>, c: LobbyCommand) {
    && |b| == |a|
    && forall r, i | 0 <= r < |b| && 0 <= i < |b[r].members| && b[r].members[i].connection == Reconnecting ::
         (i < |a[r].members| && a[r].members[i].connection == Reconnecting && a[r].members[i].sid == b[r].members[i].sid)
         || (c.Disconnected? && c.sid == b[r].members[i].sid)
  }

  /** What a lobby command leaves of the session table, and whom slots wait for. */
  ghost predicate TableAfter(w: World, w': World, c: LobbyCommand) {
    && TableLosesAtMostOne(w.net, w'.net) && WaitsLike(w.rooms, w'.rooms, c)
    && w' == w.(rooms := w'.rooms, net := w'.net)
  }

  lemma LooseTable(w: World, r: int, c': Scene, c: LobbyCommand)
    requires WorldOK(w) && 0 <= r < ROOM_CAPACITY && Loosened(SceneAt(w, r), c') && RoomOK(c'.room, w.now)
    ensures TableStays(w.net, c'.net) && WaitsLike(w.rooms, WithScene(w, r, c').rooms, c)
  {
    var w' := WithScene(w, r, c');
    forall i | 0 <= i < |c'.room.members| && c'.room.members[i].connection == Reconnecting
      ensures c'.room.members[i] == w.rooms[r].members[i]
    {
      assert SlotOK(c'.room.members[i]);
    }
  }

  lemma DisconnectRoomTable(w: World, r: int, sid: int, token: nat)
    requires WorldOK(w) && IsValidRoom(r) && sid in w.net.sessions && sid !in w.net.active
    ensures var w' := WithScene(w, r, TransportDisconnected(SceneAt(w, r), sid, token, w.now));
            TableStays(w.net, w'.net) && WaitsLike(w.rooms, w'.rooms, Disconnected(sid, token))
  {
    var c := SceneAt(w, r);
    var c' := TransportDisconnected(c, sid, token, w.now);
    var i := IndexOf(c.room.members, sid);
    DisconnectRoomStep(w, r, sid, token);
    if i < 0 || c.room.status != InGame || i == 0 || token == 0 {
      UserOutLoosens(c, sid);
      UserOutKeepsRoom(c, sid, w.now);
      LooseTable(w, r, UserOut(c, sid), Disconnected(sid, token));
    }
  }

  lemma {:induction false} DisconnectTable(w: World, sid: int, token: nat, upTo: nat)
    requires WorldOK(w) && upTo <= ROOM_CAPACITY && sid in w.net.sessions && sid !in w.net.active
    ensures var w' := DisconnectUpTo(w, sid, token, upTo);
            TableStays(w.net, w'.net) && WaitsLike(w.rooms, w'.rooms, Disconnected(sid, token))
            && w' == w.(rooms := w'.rooms, net := w'.net)
    decreases upTo
  {
    if upTo != 0 {
      var w1 := DisconnectUpTo(w, sid, token, upTo - 1);
      DisconnectStep(w, sid, token, upTo - 1);
      DisconnectTable(w, sid, token, upTo - 1);
      DisconnectRoomTable(w1, upTo - 1, sid, token);
      WaitsLikeOn(w.rooms, w1.rooms, DisconnectUpTo(w, sid, token, upTo).rooms, Disconnected(sid, token));
    }
  }

  lemma WaitsLikeOn(a: seq<Room>, b: seq<Room>, d: seq<Room>, c: LobbyCommand)
    requires WaitsLike(a, b, c) && WaitsLike(b, d, c)
    ensures WaitsLike(a, d, c)
  {
  }

  lemma ResumeNetTable(c: Scene, sid: int, token: nat, now: int)
    requires NetOK(c.net) && RoomOK(c.room, now) && 0 <= c.room.number && RoomKnown(c.room, c.net)
    requires CanResume(c, sid, token, now) && token != 0
    ensures TableLosesAtMostOne(c.net, ResumeUser(c, sid, token, now).net)
  {
    var n := Claimed(c, sid, token);
    var n' := ResumeUser(c, sid, token, now).net;
    var m := c.room.members[TokenIndex(c.room.members, token)];
    ResumeNet(c, sid, token, now);
    ResumeSlots(c, sid, token, now);
    ClaimedEffect(c, sid, token);
    if m.connection == Connected && m.sid != sid && Found(n, m.sid) {
      ReplacedNet(n, m.sid, n');
      assert n'.lobby == c.net.lobby + [Disconnected(m.sid, n.sessions[m.sid].token)];
      assert TableLoses(c.net, n', m.sid);
    }
  }

  lemma ResumeTable(w: World, sid: int, token: nat, c: LobbyCommand)
    requires WorldOK(w) && sid in w.net.sessions && token != 0
    ensures TableAfter(w, ResumeSession(w, sid, token), c)
  {
    ResumeStep(w, sid, token, 0);
    var w' := ResumeSession(w, sid, token);
    if w' != w {
      var r :| IsValidRoom(r) && CanResume(SceneAt(w, r), sid, token, w.now)
               && w' == WithScene(w, r, ResumeUser(SceneAt(w, r), sid, token, w.now));
      ResumeNetTable(SceneAt(w, r), sid, token, w.now);
      ResumeWaits(w, r, sid, token, c);
    }
  }

  lemma ResumeWaits(w: World, r: int, sid: int, token: nat, c: LobbyCommand)
    requires WorldOK(w) && IsValidRoom(r) && CanResume(SceneAt(w, r), sid, token, w.now)
    ensures WaitsLike(w.rooms, WithScene(w, r, ResumeUser(SceneAt(w, r), sid, token, w.now)).rooms, c)
  {
    ResumeSlots(SceneAt(w, r), sid, token, w.now);
  }

  lemma InitGameTable(c: Scene)
    requires RoomShaped(c.room)
    ensures TableStays(c.net, InitGame(c).net)
    ensures forall i | 0 <= i < PLAYERNUM ::
              InitGame(c).room.members[i] == c.room.members[i].(ready := InitGame(c).room.members[i].ready)
  {
    BindMatchEachEffect(c.net, Sids(c.room.members), c.room.game.generation + 1);
  }

  lemma StillTable(w: World, r: int, x: Scene, c: LobbyCommand)
    requires 0 <= r < |w.rooms| && |x.room.members| == |w.rooms[r].members| && TableStays(w.net, x.net)
    requires forall i | 0 <= i < |x.room.members| ::
               x.room.members[i] == w.rooms[r].members[i].(ready := x.room.members[i].ready)
    ensures TableStays(w.net, WithScene(w, r, x).net) && WaitsLike(w.rooms, WithScene(w, r, x).rooms, c)
  {
  }

  lemma SetReadyTable(w: World, sid: int, ready: bool, c: LobbyCommand)
    requires WorldOK(w) && sid in w.net.sessions
    ensures TableAfter(w, SetReadyCommand(w, sid, ready), c)
  {
    if Found(w.net, sid) && IsValidRoom(w.net.sessions[sid].binding.room) {
      var r := w.net.sessions[sid].binding.room;
      var x := SceneAt(w, r).(room := SetReadyFlag(w.rooms[r], sid, ready));
      InitGameTable(x);
      StillTable(w, r, x, c);
      StillTable(w, r, InitGame(x), c);
    }
  }

  lemma EnterTable(w: World, r: int, x: Scene, sid: int, c: LobbyCommand)
    requires WorldOK(w) && IsValidRoom(r) && x.net == w.net && x.room.members == w.rooms[r].members
    ensures var w' := WithScene(w, r, UserIn(x, sid));
            TableStays(w.net, w'.net) && WaitsLike(w.rooms, w'.rooms, c)
  {
  }

  lemma CreateTable(w: World, sid: int, c: LobbyCommand)
    requires WorldOK(w) && sid in w.net.sessions && Unbound(w.net, sid)
    ensures TableAfter(w, CreateFrom(w, sid, 0), c)
  {
    CreateStep(w, sid, 0);
    var w' := CreateFrom(w, sid, 0);
    if w' != w {
      var r :| IsValidRoom(r) && w.rooms[r].status == Empty
               && CanEnter(SceneAt(w, r).(room := Opened(w.rooms[r])), sid)
               && w' == WithScene(w, r, UserIn(SceneAt(w, r).(room := Opened(w.rooms[r])), sid));
      EnterTable(w, r, SceneAt(w, r).(room := Opened(w.rooms[r])), sid, c);
    }
  }

  lemma EnterRoomTable(w: World, sid: int, room: int, c: LobbyCommand)
    requires WorldOK(w)
    ensures TableAfter(w, EnterRoom(w, sid, room), c)
  {
    RemovalLosesOne(w.net, sid);
    if IsValidRoom(room) { EnterTable(w, room, SceneAt(w, room), sid, c); }
  }

  lemma ExitRoomTable(w: World, sid: int, room: int, c: LobbyCommand)
    requires WorldOK(w) && sid in w.net.sessions
    ensures TableAfter(w, ExitRoom(w, sid, room), c)
  {
    if IsValidRoom(room) {
      UserOutLoosens(SceneAt(w, room), sid);
      UserOutKeepsRoom(SceneAt(w, room), sid, w.now);
      LooseTable(w, room, UserOut(SceneAt(w, room), sid), c);
    }
  }

  lemma CreateRoomTable(w: World, sid: int, c: LobbyCommand)
    requires WorldOK(w) && sid in w.net.sessions
    ensures TableAfter(w, CreateRoom(w, sid), c)
  {
    if Unbound(w.net, sid) { CreateTable(w, sid, c); }
  }

  lemma ConnectTable(w: World, sid: int, sendFails: bool)
    requires WorldOK(w)
    ensures TableAfter(w, ExecuteLobby(w, SessionConnected(sid), sendFails), SessionConnected(sid))
  {
    RemovalLosesOne(w.net, sid);
  }

  lemma DisconnectAllTable(w: World, sid: int, token: nat)
    requires WorldOK(w) && sid in w.net.sessions && sid !in w.net.active
    ensures TableAfter(w, DisconnectUpTo(w, sid, token, ROOM_CAPACITY), Disconnected(sid, token))
  {
    DisconnectTable(w, sid, token, ROOM_CAPACITY);
  }

  lemma LobbyCommandTable(w: World, c: LobbyCommand, sendFails: bool)
    requires WorldOK(w) && CommandKnown(c, w.net)
    ensures TableAfter(w, ExecuteLobby(w, c, sendFails), c)
  {
    if c.SessionConnected? { ConnectTable(w, c.sid, sendFails); }
    else if c.Create? { CreateRoomTable(w, c.sid, c); }
    else if c.Enter? { EnterRoomTable(w, c.sid, c.room, c); }
    else if c.SetReady? { SetReadyTable(w, c.sid, c.ready, c); }
    else if c.Exit? { ExitRoomTable(w, c.sid, c.room, c); }
    else if c.Disconnected? { DisconnectAllTable(w, c.sid, c.token); }
    else { ResumeTable(w, c.sid, c.token, c); }
  }

  // ---- the invariant ----

  lemma LogGrows(w: World, w': World, c: LobbyCommand, s: int)
    requires LifeOf(w, s) && Log(w') == Log(w) + [c]
    requires (c == SessionConnected(s)) == (s in w'.net.sessions && s !in w.net.sessions)
    requires (c.Disconnected? && c.sid == s) == (Departed(w'.net, s) && !Departed(w.net, s))
    requires s in w.net.sessions ==> s in w'.net.sessions
    requires Departed(w.net, s) ==> Departed(w'.net, s)
    ensures LifeOf(w', s)
  {
    Appended(Log(w), c, s);
    forall k | 0 <= k <= |Log(w')| ensures Leaves(Log(w')[..k], s) <= Joins(Log(w')[..k], s) {
      if k <= |Log(w)| {
        assert Log(w')[..k] == Log(w)[..k];
      } else {
        assert Log(w')[..k] == Log(w');
      }
    }
  }

  lemma LogStays(w: World, w': World)
    requires forall s :: LifeOf(w, s)
    requires Log(w') == Log(w) && w'.net.sessions.Keys == w.net.sessions.Keys
    requires w'.net.active == w.net.active && w'.net.leaving == w.net.leaving
    ensures forall s :: LifeOf(w', s)
  {
    forall s ensures LifeOf(w', s) {
      assert LifeOf(w, s);
    }
  }

  lemma LosingOneKeepsLife(w: World, w': World)
    requires LifeOK(w) && TableLosesAtMostOne(w.net, w'.net)
    requires w'.executed == w.executed && w'.batch == w.batch
    ensures (forall s :: LifeOf(w', s)) && Ordinary(w'.net.lobby) <= w'.net.lobbyCapacity
  {
    if TableStays(w.net, w'.net) {
      LogStays(w, w');
    } else {
      var x :| TableLoses(w.net, w'.net, x);
      var t :| w'.net.lobby == w.net.lobby + [Disconnected(x, t)];
      assert Log(w') == Log(w) + [Disconnected(x, t)];
      forall s ensures LifeOf(w', s) {
        assert LifeOf(w, s);
        LogGrows(w, w', Disconnected(x, t), s);
      }
      EnqueueKeepsOrdinaryBounded(w.net.lobby, w.net.lobbyCapacity, Disconnected(x, t));
    }
  }

  /** The owner takes the next command off its batch; its slots, if it drops any, wait for this command's session. */
  lemma PoppingKeepsLife(w: World)
    requires LifeOK(w) && w.batch != []
    ensures var w1 := Popped(w);
            LifeOK(w1) && (w.batch[0].Disconnected? ==> Leaves(w1.executed, w.batch[0].sid) >= 1)
  {
    var c := w.batch[0];
    var w1 := Popped(w);
    assert Log(w1) == Log(w);
    LogStays(w, w1);
    forall x ensures Leaves(w1.executed, x) == Leaves(w.executed, x) + if c.Disconnected? && c.sid == x then 1 else 0 {
      Appended(w.executed, c, x);
    }
  }

  lemma ExecutingKeepsLife(w: World, c: LobbyCommand, sendFails: bool)
    requires WorldOK(w) && LifeOK(w) && CommandKnown(c, w.net) && (c.Disconnected? ==> Leaves(w.executed, c.sid) >= 1)
    ensures LifeOK(ExecuteLobby(w, c, sendFails))
  {
    LobbyCommandTable(w, c, sendFails);
    LosingOneKeepsLife(w, ExecuteLobby(w, c, sendFails));
  }

  lemma LobbyCommandKeepsLife(w: World, sendFails: bool)
    requires WorldOK(w) && LifeOK(w) && w.batch != []
    ensures LifeOK(ExecuteLobby(Popped(w), w.batch[0], sendFails))
  {
    var w1 := Popped(w);
    assert CommandKnown(w.batch[0], w1.net);
    PoppingKeepsLife(w);
    ExecutingKeepsLife(w1, w.batch[0], sendFails);
  }

  lemma GameCommandKeepsLife(w: World)
    requires WorldOK(w) && LifeOK(w) && w.gameBatch != []
    ensures LifeOK(ExecuteGame(PoppedGame(w), w.gameBatch[0]))
  {
    var w1 := PoppedGame(w);
    assert Log(w1) == Log(w);
    LogStays(w, w1);
    ProcessingKeepsLife(w1, w.gameBatch[0]);
  }

  /** A game command changes no slot, and the session table at most by a removal. */
  lemma ProcessingFrame(w: World, c: GameCommand)
    requires Shaped(w)
    ensures var w' := ExecuteGame(w, c);
            && w'.executed == w.executed && w'.batch == w.batch
            && (w'.net == w.net || w'.net == RequestRemove(w.net, c.sid))
            && forall r | 0 <= r < |w'.rooms| :: w'.rooms[r].members == w.rooms[r].members
  {
  }

  lemma SameSlotsWait(w: World, w': World)
    requires WaitsAfterDeparture(w) && |w'.rooms| == |w.rooms| && w'.executed == w.executed
    requires forall r | 0 <= r < |w'.rooms| :: w'.rooms[r].members == w.rooms[r].members
    ensures WaitsAfterDeparture(w')
  {
  }

  lemma ProcessingKeepsLife(w: World, c: GameCommand)
    requires Shaped(w) && NetOK(w.net) && LifeOK(w)
    ensures LifeOK(ExecuteGame(w, c))
  {
    var w' := ExecuteGame(w, c);
    ProcessingFrame(w, c);
    RemovalLosesOne(w.net, c.sid);
    LosingOneKeepsLife(w, w');
    SameSlotsWait(w, w');
  }

  lemma UpdateKeepsLife(w: World, r: int, g: Geometry)
    requires WorldOK(w) && LifeOK(w) && IsValidRoom(r)
    ensures LifeOK(UpdateRoom(w, r, g))
  {
    UpdateLoosens(SceneAt(w, r), w.now, g);
    UpdateKeepsRoom(SceneAt(w, r), w.now, g);
    LooseTable(w, r, Update(SceneAt(w, r), w.now, g), SessionConnected(-1));
    LogStays(w, UpdateRoom(w, r, g));
  }

  /** A command that neither announces an arrival nor a departure is queued. */
  lemma LogGrowsQuietly(w: World, w': World, c: LobbyCommand)
    requires (forall s :: LifeOf(w, s)) && !c.Disconnected? && !c.SessionConnected? && Log(w') == Log(w) + [c]
    requires w'.net.sessions.Keys == w.net.sessions.Keys && w'.net.active == w.net.active
    requires w'.net.leaving == w.net.leaving
    ensures forall s :: LifeOf(w', s)
  {
    forall s ensures LifeOf(w', s) {
      assert LifeOf(w, s);
      LogGrows(w, w', c, s);
    }
  }

  lemma QueueingKeepsLife(w: World, w': World, c: LobbyCommand)
    requires LifeOK(w) && !c.Disconnected? && !c.SessionConnected?
    requires w'.rooms == w.rooms && w'.executed == w.executed && w'.batch == w.batch
    requires w'.net.sessions.Keys == w.net.sessions.Keys && w'.net.active == w.net.active
    requires w'.net.leaving == w.net.leaving && w'.net.lobbyCapacity == w.net.lobbyCapacity
    requires w'.net.lobby == Enqueue(w.net.lobby, w.net.lobbyCapacity, c)
    ensures LifeOK(w')
  {
    EnqueueKeepsOrdinaryBounded(w.net.lobby, w.net.lobbyCapacity, c);
    SameSlotsWait(w, w');
    if w'.net.lobby == w.net.lobby {
      LogStays(w, w');
    } else {
      assert Log(w') == Log(w) + [c];
      LogGrowsQuietly(w, w', c);
    }
  }

  lemma ActivateKeepsLife(w: World)
    requires WorldOK(w) && LifeOK(w)
    ensures LifeOK(w.(net := Activate(w.net)))
  {
    var w' := w.(net := Activate(w.net));
    if w'.net.sessions.Keys == w.net.sessions.Keys {
      LogStays(w, w');
    } else {
      var c := SessionConnected(w.net.nextSid);
      assert Log(w') == Log(w) + [c];
      forall s ensures LifeOf(w', s) {
        assert LifeOf(w, s);
        LogGrows(w, w', c, s);
      }
      EnqueueKeepsOrdinaryBounded(w.net.lobby, w.net.lobbyCapacity, c);
    }
  }

  lemma PublishKeepsLife(w: World, sid: int)
    requires WorldOK(w) && LifeOK(w) && sid in w.net.leaving
    ensures LifeOK(w.(net := Publish(w.net, sid)))
  {
    var w' := w.(net := Publish(w.net, sid));
    var c := Disconnected(sid, w.net.sessions[sid].token);
    assert Log(w') == Log(w) + [c];
    forall s ensures LifeOf(w', s) {
      assert LifeOf(w, s);
      LogGrows(w, w', c, s);
    }
    EnqueueKeepsOrdinaryBounded(w.net.lobby, w.net.lobbyCapacity, c);
  }

  lemma DrainedKeepsLife(w: World, k: nat)
    requires LifeOK(w) && w.batch == [] && k <= |w.net.lobby|
    ensures LifeOK(w.(batch := w.net.lobby[..k], net := w.net.(lobby := w.net.lobby[k..])))
  {
    var w' := w.(batch := w.net.lobby[..k], net := w.net.(lobby := w.net.lobby[k..]));
    assert w.net.lobby == w'.batch + w'.net.lobby;
    assert Log(w') == Log(w);
    LogStays(w, w');
    DrainingKeepsBound(w.net.lobby, k);
  }

  lemma DrainingKeepsBound(lobby: seq<LobbyCommand>, k: nat)
    requires k <= |lobby|
    ensures Ordinary(lobby[k..]) <= Ordinary(lobby)
  {
    OrdinaryConcat(lobby[..k], lobby[k..]);
    assert lobby[..k] + lobby[k..] == lobby;
  }

  lemma MoveKeepsLife(w: World, sid: int)
    requires WorldOK(w) && LifeOK(w)
    ensures LifeOK(w.(net := Move(w.net, sid)))
  {
    var w' := w.(net := Move(w.net, sid));
    forall s ensures LifeOf(w', s) {
      assert LifeOf(w, s);
    }
  }

  /** Nothing that the lives of sessions are about has changed. */
  ghost predicate LifeStays(w: World, w': World) {
    && w'.rooms == w.rooms && w'.executed == w.executed && Log(w') == Log(w)
    && w'.net.sessions.Keys == w.net.sessions.Keys && w'.net.active == w.net.active && w'.net.leaving == w.net.leaving
    && w'.net.lobby == w.net.lobby && w'.net.lobbyCapacity == w.net.lobbyCapacity
  }

  lemma StayingKeepsLife(w: World, w': World)
    requires LifeOK(w) && LifeStays(w, w')
    ensures LifeOK(w')
  {
    LogStays(w, w');
    SameSlotsWait(w, w');
  }

  lemma PacketStays(w: World, s: Step)
    requires Shaped(w) && Enabled(w, s) && ByPacketThread(s) && !s.LobbyStep? && !s.ExitQueueStep?
    ensures LifeStays(w, ApplyPacket(w, s))
  {
  }

  lemma PacketKeepsLife(w: World, s: Step)
    requires Shaped(w) && LifeOK(w) && Enabled(w, s) && ByPacketThread(s)
    ensures LifeOK(ApplyPacket(w, s))
  {
    if s.LobbyStep? {
      QueueingKeepsLife(w, ApplyPacket(w, s), s.command);
    } else if s.ExitQueueStep? {
      QueueingKeepsLife(w, ApplyPacket(w, s), Exit(s.sid, HandlerOf(w, s.sid).room));
    } else {
      PacketStays(w, s);
      StayingKeepsLife(w, ApplyPacket(w, s));
    }
  }

  lemma ManagerKeepsLife(w: World, s: Step)
    requires WorldOK(w) && LifeOK(w) && Enabled(w, s) && ByManager(s)
    ensures LifeOK(w.(net := ApplyManager(w.net, s)))
  {
    if s.ActivateStep? { ActivateKeepsLife(w); }
    else if s.PublishStep? { PublishKeepsLife(w, s.sid); }
    else if s.MoveStep? { MoveKeepsLife(w, s.sid); }
    else { StayingKeepsLife(w, w.(net := ApplyManager(w.net, s))); }
  }

  lemma OwnerKeepsLife(w: World, s: Step)
    requires WorldOK(w) && LifeOK(w) && Enabled(w, s) && ByOwnerThread(s)
    ensures LifeOK(ApplyOwner(w, s))
  {
    if s.DrainLobbyStep? {
      DrainedKeepsLife(w, Least(|w.net.lobby|, MAX_COMMANDS_PER_UPDATE));
    } else if s.LobbyCommandStep? {
      LobbyCommandKeepsLife(w, s.sendFails);
    } else if s.DrainGameStep? {
      StayingKeepsLife(w, ApplyOwner(w, s));
    } else if s.GameCommandStep? {
      GameCommandKeepsLife(w);
    } else if s.UpdateStep? {
      UpdateKeepsLife(w, s.room, s.geometry);
    }
  }

  /** Exactly-once, for every interleaving of any number of removing threads. */
  lemma StepKeepsLife(w: World, s: Step)
    requires WorldOK(w) && LifeOK(w) && Enabled(w, s)
    ensures LifeOK(Apply(w, s))
  {
    if ByPacketThread(s) { PacketKeepsLife(w, s); }
    else if ByManager(s) { ManagerKeepsLife(w, s); }
    else if s.ClockStep? { StayingKeepsLife(w, Apply(w, s)); }
    else { OwnerKeepsLife(w, s); }
  }

  lemma {:induction false} RunKeepsLife(w: World, steps: seq<Step>)
    requires WorldOK(w) && LifeOK(w) && IsRun(w, steps)
    ensures LifeOK(After(w, steps))
    decreases |steps|
  {
    if steps != [] {
      StepKeepsWorld(w, steps[0]);
      StepKeepsLife(w, steps[0]);
      RunKeepsLife(Apply(w, steps[0]), steps[1..]);
    }
  }

  lemma InitialLifeOK(lobbyCapacity: nat, gameCapacity: nat)
    ensures LifeOK(Initial(lobbyCapacity, gameCapacity))
  {
    var w := Initial(lobbyCapacity, gameCapacity);
    forall r, i | 0 <= r < |w.rooms| && 0 <= i < |w.rooms[r].members|
      ensures w.rooms[r].members[i].connection == Connected
    {
      assert w.rooms[r] == NewRoom(r);
    }
  }

  // ---- shutdown ----

  ghost predicate SameTable(n: Net, n': Net) {
    n'.accepting == n.accepting && n'.sessions.Keys == n.sessions.Keys
  }

  lemma OwnerKeepsTable(w: World, s: Step)
    requires WorldOK(w) && Enabled(w, s) && ByOwnerThread(s)
    ensures SameTable(w.net, ApplyOwner(w, s).net)
  {
    if s.LobbyCommandStep? {
      assert CommandKnown(w.batch[0], w.net);
      LobbyCommandTable(Popped(w), w.batch[0], s.sendFails);
    } else if s.UpdateStep? {
      UpdateLoosens(SceneAt(w, s.room), w.now, s.geometry);
    } else if s.GameCommandStep? {
      GameCommandKeepsTable(PoppedGame(w), w.gameBatch[0]);
    }
  }

  lemma GameCommandKeepsTable(w: World, c: GameCommand)
    requires Shaped(w) && NetOK(w.net)
    ensures SameTable(w.net, ExecuteGame(w, c).net)
  {
    RemovalLosesOne(w.net, c.sid);
  }

  lemma PacketKeepsTable(w: World, s: Step)
    requires Shaped(w) && Enabled(w, s) && ByPacketThread(s)
    ensures SameTable(w.net, ApplyPacket(w, s).net)
  {
  }

  lemma ManagerKeepsTable(n: Net, s: Step)
    requires NetOK(n) && !n.accepting && ByManager(s) && (s.BeginIOStep? || s.CompleteIOStep? ==> s.sid in n.sessions)
    requires s.CompleteIOStep? ==> n.sessions[s.sid].pendingIO > 0
    ensures SameTable(n, ApplyManager(n, s))
  {
  }

  lemma ShutdownStepStays(w: World, s: Step)
    requires WorldOK(w) && Enabled(w, s) && !w.net.accepting
    ensures SameTable(w.net, Apply(w, s).net)
  {
    if ByPacketThread(s) { PacketKeepsTable(w, s); }
    else if ByManager(s) { ManagerKeepsTable(w.net, s); }
    else if ByOwnerThread(s) { OwnerKeepsTable(w, s); }
  }

  /** Once BeginShutdown has closed the door, no session is ever activated again. */
  lemma {:induction false} NothingActivatesAfterShutdown(w: World, steps: seq<Step>)
    requires WorldOK(w) && IsRun(w, steps) && !w.net.accepting
    ensures SameTable(w.net, After(w, steps).net)
    decreases |steps|
  {
    if steps != [] {
      StepKeepsWorld(w, steps[0]);
      ShutdownStepStays(w, steps[0]);
      NothingActivatesAfterShutdown(Apply(w, steps[0]), steps[1..]);
    }
  }
}
