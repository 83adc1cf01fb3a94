/** A lease is good for one stay in one match. */
module LeaseSafety {
  import opened RoomCommand
  import opened SessionSpec
  import opened MatchSpec
  import opened RoomSpec
  import opened Protocol
  import opened RoomInvariant
  import opened ServerInvariant
  import opened ServerSteps
  import opened OwnerRound
  import opened Discipline
  import opened DisciplineSteps
  import opened DisciplineRuns

  // ---- leases a session can capture ----

  /** The match generation that belongs in the lease of a session bound to `r`: none, unless a match is on. */
  function RunningMatch(r: Room): nat {
    if r.status == InGame then r.game.generation else 0
  }

  ghost predicate LeaseOK(rooms: seq<Room>, b: GameBinding) {
    0 <= b.room < |rooms| ==> b.lease.matchGeneration == RunningMatch(rooms[b.room])
  }

  ghost predicate BoundLeasesOK(w: World) {
    forall s | s in w.net.sessions :: LeaseOK(w.rooms, w.net.sessions[s].binding)
  }

  /** A lease captured earlier names no match that has not started yet. */
  ghost predicate Started(rooms: seq<Room>, room: int, lease: MatchLease) {
    0 <= room < |rooms| ==> lease.matchGeneration <= rooms[room].game.generation
  }

  ghost predicate CapturedLeasesOK(w: World) {
    && (forall s | s in w.handlers && w.handlers[s].GameRead? ::
          Started(w.rooms, w.handlers[s].binding.room, w.handlers[s].binding.lease))
    && (forall k | 0 <= k < |w.game| :: Started(w.rooms, w.game[k].room, w.game[k].lease))
    && (forall k | 0 <= k < |w.gameBatch| :: Started(w.rooms, w.gameBatch[k].room, w.gameBatch[k].lease))
  }

  ghost predicate LeasesOK(w: World) {
    BoundLeasesOK(w) && CapturedLeasesOK(w)
  }

  /** A room whose match goes on, or whose lobby stays a lobby, keeps its leases; one that closes has none. */
  ghost predicate SameMatch(a: Room, b: Room) {
    RunningMatch(b) == RunningMatch(a) || (forall i | 0 <= i < |b.members| :: !Filled(b.members[i]))
  }

  lemma CapturedCarry(w: World, w': World)
    requires CapturedLeasesOK(w) && Follows(w, w')
    requires w'.handlers == w.handlers && w'.game == w.game && w'.gameBatch == w.gameBatch
    ensures CapturedLeasesOK(w')
  {
    forall room, lease | Started(w.rooms, room, lease) ensures Started(w'.rooms, room, lease) {
      if 0 <= room < |w.rooms| { assert Succeeds(w.rooms[room], w'.rooms[room]); }
    }
  }

  /** Bindings that stay keep their lease's match, as long as their room's match stays. */
  lemma BoundCarry(w: World, w': World)
    requires WorldOK(w) && WorldOK(w') && BoundLeasesOK(w) && |w'.rooms| == |w.rooms|
    requires forall r | 0 <= r < |w.rooms| :: SameMatch(w.rooms[r], w'.rooms[r])
    requires forall s | s in w'.net.sessions && w'.net.sessions[s].binding.room != -1 ::
               (s in w.net.sessions && w'.net.sessions[s].binding == w.net.sessions[s].binding)
               || LeaseOK(w'.rooms, w'.net.sessions[s].binding)
    ensures BoundLeasesOK(w')
  {
    forall s | s in w'.net.sessions ensures LeaseOK(w'.rooms, w'.net.sessions[s].binding) {
      var b := w'.net.sessions[s].binding;
      if b.room != -1 {
        assert Seated(w'.rooms, s, b);
        var i :| 0 <= i < |w'.rooms[b.room].members| && w'.rooms[b.room].members[i].sid == s;
        assert Filled(w'.rooms[b.room].members[i]);
        if s in w.net.sessions && b == w.net.sessions[s].binding { assert LeaseOK(w.rooms, b); }
      }
    }
  }

  lemma UserOutSameMatch(c: Scene, sid: int, now: int)
    requires RoomOK(c.room, now) && sid != -1
    ensures SameMatch(c.room, UserOut(c, sid).room)
  {
    var i := IndexOf(c.room.members, sid);
    if i >= 0 && c.room.status == InGame { PlayerLeftCoupled(c.room, i); }
  }

  lemma {:induction false} UserOutEachSameMatch(c: Scene, sids: seq<int>, now: int)
    requires RoomOK(c.room, now)
    ensures SameMatch(c.room, UserOutEach(c, sids).room)
    ensures (forall i | 0 <= i < PLAYERNUM :: !Filled(c.room.members[i])) ==>
              UserOutEach(c, sids).room == c.room
    decreases |sids|
  {
    if sids != [] {
      var c' := if sids[0] != -1 then UserOut(c, sids[0]) else c;
      if sids[0] != -1 {
        UserOutSameMatch(c, sids[0], now);
        UserOutKeepsRoom(c, sids[0], now);
      }
      UserOutEachSameMatch(c', sids[1..], now);
    }
  }

  lemma PlaySameMatch(c: Scene, now: int, g: Geometry)
    requires RoomOK(c.room, now)
    ensures SameMatch(c.room, Play(c, now, g).room)
  {
    if c.room.status == InGame {
      TickKeepsRoom(c.room, now, g);
      var c' := c.(room := Tick(c.room, now, g));
      if Decided(c'.room.game) { CloseEmptiesRoom(c', now); }
    }
  }

  lemma UpdateSameMatch(c: Scene, now: int, g: Geometry)
    requires RoomOK(c.room, now)
    ensures SameMatch(c.room, Update(c, now, g).room)
  {
    if c.room.status == InGame {
      var c1 := ExpireReconnects(c, now);
      UserOutEachSameMatch(c, Expired(c.room.members, now), now);
      UserOutEachKeepsRoom(c, Expired(c.room.members, now), now);
      PlaySameMatch(c1, now, g);
      if forall i | 0 <= i < PLAYERNUM :: !Filled(c1.room.members[i]) { assert c1.room.status != InGame; }
    }
  }

  lemma LooseKeepsLeases(w: World, r: int, c': Scene)
    requires WorldOK(w) && LeasesOK(w) && 0 <= r < ROOM_CAPACITY
    requires Loosened(SceneAt(w, r), c') && Good(w, WithScene(w, r, c')) && SameMatch(w.rooms[r], c'.room)
    ensures LeasesOK(WithScene(w, r, c'))
  {
    var w' := WithScene(w, r, c');
    CapturedCarry(w, w');
    forall s | s in w'.net.sessions && w'.net.sessions[s].binding.room != -1
      ensures w'.net.sessions[s].binding == w.net.sessions[s].binding
    {
      assert Loose(w.net.sessions[s], w'.net.sessions[s]);
    }
    BoundCarry(w, w');
  }

  lemma DisconnectKeepsLeases(w: World, sid: int, token: nat)
    requires WorldOK(w) && LeasesOK(w) && sid in w.net.sessions && sid !in w.net.active
    ensures LeasesOK(DisconnectUpTo(w, sid, token, ROOM_CAPACITY))
  {
    var w' := DisconnectUpTo(w, sid, token, ROOM_CAPACITY);
    DisconnectStep(w, sid, token, ROOM_CAPACITY);
    DisconnectKeepsRest(w, sid, token, ROOM_CAPACITY);
    forall r | 0 <= r < ROOM_CAPACITY ensures SameMatch(w.rooms[r], w'.rooms[r]) {
      DisconnectRooms(w, sid, token, ROOM_CAPACITY, r);
      DropSameMatch(SceneAt(w, r), sid, token, w.now);
    }
    CapturedCarry(w, w');
    LoosenedBindings(w.net, w'.net);
    BoundCarry(w, w');
  }

  lemma DropSameMatch(c: Scene, sid: int, token: nat, now: int)
    requires RoomOK(c.room, now) && sid != -1
    ensures SameMatch(c.room, TransportDisconnected(c, sid, token, now).room)
  {
    UserOutSameMatch(c, sid, now);
  }

  lemma LoosenedBindings(n: Net, n': Net)
    requires NetLoosened(n, n')
    ensures forall s | s in n'.sessions && n'.sessions[s].binding.room != -1 ::
              s in n.sessions && n'.sessions[s].binding == n.sessions[s].binding
  {
    forall s | s in n'.sessions && n'.sessions[s].binding.room != -1
      ensures s in n.sessions && n'.sessions[s].binding == n.sessions[s].binding
    {
      assert Loose(n.sessions[s], n'.sessions[s]);
    }
  }

  /** Taking a slot: the new occupant's lease names the match that is on, if any. */
  lemma SlotTakenKeepsLeases(w: World, w': World, r: int, i: int, sid: int)
    requires WorldOK(w) && LeasesOK(w) && Good(w, w') && SlotTaken(w, w', r, i, sid)
    requires RunningMatch(w'.rooms[r]) == RunningMatch(w.rooms[r])
    requires w'.net.sessions[sid].binding.lease.matchGeneration == RunningMatch(w'.rooms[r])
    ensures LeasesOK(w')
  {
    CapturedCarry(w, w');
    BoundCarry(w, w');
  }

  lemma EnterKeepsLeases(w: World, r: int, c: Scene, sid: int)
    requires WorldOK(w) && LeasesOK(w)
    requires IsValidRoom(r) && sid in w.net.sessions && Unbound(w.net, sid)
    requires c.net == w.net && (c.room == w.rooms[r] || (c.room == Opened(w.rooms[r]) && w.rooms[r].status == Empty))
    requires CanEnter(c, sid)
    ensures LeasesOK(WithScene(w, r, UserIn(c, sid)))
  {
    UserInStep(w, r, c, sid);
    SlotTakenKeepsLeases(w, WithScene(w, r, UserIn(c, sid)), r, FreeIndex(c.room.members), sid);
  }

  lemma ResumeLease(c: Scene, sid: int, token: nat, now: int)
    requires CanResume(c, sid, token, now) && |c.room.game.players| == |c.room.members|
    ensures RunningMatch(ResumeUser(c, sid, token, now).room) == RunningMatch(c.room) == c.room.game.generation
    ensures Claimed(c, sid, token).sessions[sid].binding.lease.matchGeneration == c.room.game.generation
  {
  }

  lemma ResumeKeepsLeases(w: World, sid: int, token: nat)
    requires WorldOK(w) && LeasesOK(w) && sid in w.net.sessions && token != 0
    ensures LeasesOK(ResumeSession(w, sid, token))
  {
    ResumeStep(w, sid, token, 0);
    var w' := ResumeSession(w, sid, token);
    if w' != w {
      var r :| IsValidRoom(r) && CanResume(SceneAt(w, r), sid, token, w.now)
               && w' == WithScene(w, r, ResumeUser(SceneAt(w, r), sid, token, w.now));
      ResumeRoomStep(w, r, sid, token);
      ResumeNet(SceneAt(w, r), sid, token, w.now);
      ResumeLease(SceneAt(w, r), sid, token, w.now);
      SlotTakenKeepsLeases(w, w', r, TokenIndex(w.rooms[r].members, token), sid);
    }
  }

  lemma InitGameShape(c: Scene)
    requires RoomShaped(c.room)
    ensures var c' := InitGame(c);
            if AllReady(c.room.members) then
              c'.net == BindMatchEach(c.net, Sids(c.room.members), c.room.game.generation + 1)
              && RunningMatch(c'.room) == c.room.game.generation + 1
            else c' == c
  {
  }

  lemma StartKeepsLeases(w: World, r: int, w': World, generation: nat)
    requires WorldOK(w) && LeasesOK(w) && NoDuplicates(w.rooms) && Good(w, w')
    requires IsValidRoom(r) && w' == WithScene(w, r, SceneAt(w', r)) && RunningMatch(w'.rooms[r]) == generation
    requires w'.net == BindMatchEach(w.net, Sids(w.rooms[r].members), generation)
    ensures LeasesOK(w')
  {
    CapturedCarry(w, w');
    var sids := Sids(w.rooms[r].members);
    BindMatchEachEffect(w.net, sids, generation);
    forall s | s in w'.net.sessions ensures LeaseOK(w'.rooms, w'.net.sessions[s].binding) {
      InitGameLease(w, r, s, sids);
    }
  }

  /** A starting match reaches exactly the sessions bound to its room: with one slot each, nobody else's. */
  lemma InitGameKeepsLeases(w: World, r: int)
    requires WorldOK(w) && LeasesOK(w) && NoDuplicates(w.rooms)
    requires IsValidRoom(r) && (w.rooms[r].status == Full || w.rooms[r].status == NotFull)
    ensures LeasesOK(WithScene(w, r, InitGame(SceneAt(w, r))))
  {
    var c := SceneAt(w, r);
    var w' := WithScene(w, r, InitGame(c));
    InitGameStep(w, r);
    InitGameShape(c);
    if AllReady(c.room.members) {
      StartKeepsLeases(w, r, w', c.room.game.generation + 1);
    } else {
      assert w' == w;
    }
  }

  lemma InitGameLease(w: World, r: int, s: int, sids: seq<int>)
    requires WorldOK(w) && LeasesOK(w) && NoDuplicates(w.rooms) && s in w.net.sessions && IsValidRoom(r)
    requires sids == Sids(w.rooms[r].members)
    ensures LeaseOK(w.rooms, w.net.sessions[s].binding)
    ensures w.net.sessions[s].binding.room != -1 ==>
              (s in sids <==> w.net.sessions[s].binding.room == r) && Found(w.net, s) && !w.net.sessions[s].retired
  {
    var b := w.net.sessions[s].binding;
    if b.room != -1 {
      assert Seated(w.rooms, s, b);
      var i :| 0 <= i < PLAYERNUM && w.rooms[b.room].members[i].sid == s;
      assert Holds(w.rooms, b.room, i, s);
      if b.room == r { assert sids[i] == s; }
      if s in sids {
        var k :| 0 <= k < |sids| && sids[k] == s;
        assert Holds(w.rooms, r, k, s);
      }
    }
  }

  lemma SetReadyKeepsLeases(w: World, sid: int, ready: bool)
    requires WorldOK(w) && LeasesOK(w) && NoDuplicates(w.rooms) && sid in w.net.sessions
    ensures LeasesOK(SetReadyCommand(w, sid, ready))
  {
    if Found(w.net, sid) && IsValidRoom(w.net.sessions[sid].binding.room) {
      var r := w.net.sessions[sid].binding.room;
      if CanSetReady(w.rooms[r], sid) {
        var room := SetReadyFlag(w.rooms[r], sid, ready);
        SetReadyKeepsRoom(SceneAt(w, r), sid, ready, w.now);
        StillStep(w, r, room);
        var w1 := WithScene(w, r, Scene(room, w.net));
        CapturedCarry(w, w1);
        BoundCarry(w, w1);
        forall q, i, s | Holds(w1.rooms, q, i, s) ensures Holds(w.rooms, q, i, s) {}
        if ready {
          InitGameKeepsLeases(w1, r);
          TwoWrites(w, r, SceneAt(w1, r), InitGame(SceneAt(w1, r)));
        }
      }
    }
  }

  lemma QuietKeepsLeases(w: World, w': World)
    requires WorldOK(w) && LeasesOK(w) && NetQuiet(w.net, w'.net)
    requires w'.rooms == w.rooms && w'.now == w.now && w'.batch == w.batch
    requires w'.game == w.game && w'.gameBatch == w.gameBatch && w'.handlers == w.handlers
    ensures LeasesOK(w')
  {
    QuietStep(w, w');
    CapturedCarry(w, w');
    BoundCarry(w, w');
  }

  lemma RemovalKeepsLeases(w: World, sid: int)
    requires WorldOK(w) && LeasesOK(w)
    ensures LeasesOK(w.(net := RequestRemove(w.net, sid)))
  {
    RequestRemoveEffect(w.net, sid);
    QuietKeepsLeases(w, w.(net := RequestRemove(w.net, sid)));
  }

  lemma EnterCommandKeepsLeases(w: World, sid: int, room: int)
    requires WorldOK(w) && LeasesOK(w) && NoDuplicates(w.rooms) && sid in w.net.sessions
    ensures LeasesOK(EnterRoom(w, sid, room))
  {
    if !IsValidRoom(room) {
      RemovalKeepsLeases(w, sid);
    } else if Found(w.net, sid) && Unbound(w.net, sid) && CanEnter(SceneAt(w, room), sid) {
      EnterKeepsLeases(w, room, SceneAt(w, room), sid);
    } else {
      assert WithScene(w, room, SceneAt(w, room)) == w;
    }
  }

  lemma ExitKeepsLeases(w: World, sid: int, room: int)
    requires WorldOK(w) && LeasesOK(w) && IsValidRoom(room) && sid in w.net.sessions
    ensures LeasesOK(WithScene(w, room, UserOut(SceneAt(w, room), sid)))
  {
    ExitStep(w, sid, room);
    UserOutLoosens(SceneAt(w, room), sid);
    UserOutSameMatch(SceneAt(w, room), sid, w.now);
    LooseKeepsLeases(w, room, UserOut(SceneAt(w, room), sid));
  }

  lemma LobbyCommandKeepsLeases(w: World, c: LobbyCommand, sendFails: bool)
    requires WorldOK(w) && LeasesOK(w) && NoDuplicates(w.rooms) && CommandKnown(c, w.net)
    ensures LeasesOK(ExecuteLobby(w, c, sendFails))
  {
    if c.SessionConnected? {
      RemovalKeepsLeases(w, c.sid);
    } else if c.Create? {
      if Unbound(w.net, c.sid) { CreateKeepsLeases(w, c.sid); }
    } else if c.Enter? {
      EnterCommandKeepsLeases(w, c.sid, c.room);
    } else if c.SetReady? {
      SetReadyKeepsLeases(w, c.sid, c.ready);
    } else if c.Exit? {
      if IsValidRoom(c.room) { ExitKeepsLeases(w, c.sid, c.room); }
    } else if c.Disconnected? {
      DisconnectKeepsLeases(w, c.sid, c.token);
    } else if c.Resume? {
      ResumeKeepsLeases(w, c.sid, c.token);
    }
  }

  lemma CreateKeepsLeases(w: World, sid: int)
    requires WorldOK(w) && LeasesOK(w) && sid in w.net.sessions && Unbound(w.net, sid)
    ensures LeasesOK(CreateFrom(w, sid, 0))
  {
    CreateStep(w, sid, 0);
    var w' := CreateFrom(w, sid, 0);
    if w' != w {
      var r :| IsValidRoom(r) && w.rooms[r].status == Empty
               && CanEnter(SceneAt(w, r).(room := Opened(w.rooms[r])), sid)
               && w' == WithScene(w, r, UserIn(SceneAt(w, r).(room := Opened(w.rooms[r])), sid));
      EnterKeepsLeases(w, r, SceneAt(w, r).(room := Opened(w.rooms[r])), sid);
    }
  }

  lemma ProcessKeepsLeases(w: World, c: GameCommand)
    requires WorldOK(w) && LeasesOK(w) && c.sid in w.net.sessions && IsValidRoom(c.room)
    ensures LeasesOK(WithScene(w, c.room, ProcessGamePacket(SceneAt(w, c.room), c, w.now)))
  {
    var s := ProcessGamePacket(SceneAt(w, c.room), c, w.now);
    if s.net == w.net {
      ProcessGood(w, c);
      SameNetKeepsLeases(w, c.room, s);
    } else {
      RemovalKeepsLeases(w, c.sid);
      assert WithScene(w, c.room, s) == w.(net := RequestRemove(w.net, c.sid));
    }
  }

  lemma SameNetKeepsLeases(w: World, r: int, c: Scene)
    requires WorldOK(w) && LeasesOK(w) && IsValidRoom(r) && Good(w, WithScene(w, r, c)) && c.net == w.net
    requires RunningMatch(c.room) == RunningMatch(w.rooms[r])
    ensures LeasesOK(WithScene(w, r, c))
  {
    CapturedCarry(w, WithScene(w, r, c));
    BoundCarry(w, WithScene(w, r, c));
  }

  lemma GameCommandKeepsLeases(w: World, c: GameCommand)
    requires WorldOK(w) && LeasesOK(w) && c.sid in w.net.sessions
    ensures LeasesOK(ExecuteGame(w, c))
  {
    if IsValidRoom(c.room) { ProcessKeepsLeases(w, c); }
  }

  lemma UpdateKeepsLeases(w: World, r: int, g: Geometry)
    requires WorldOK(w) && LeasesOK(w) && IsValidRoom(r)
    ensures LeasesOK(UpdateRoom(w, r, g))
  {
    UpdateRoomStep(w, r, g);
    UpdateLoosens(SceneAt(w, r), w.now, g);
    UpdateSameMatch(SceneAt(w, r), w.now, g);
    LooseKeepsLeases(w, r, Update(SceneAt(w, r), w.now, g));
  }

  lemma DrainKeepsLeases(w: World, s: Step)
    requires LeasesOK(w) && Shaped(w) && Enabled(w, s) && (s.DrainLobbyStep? || s.DrainGameStep?)
    ensures LeasesOK(ApplyOwner(w, s))
  {
  }

  lemma OwnerKeepsLeases(w: World, s: Step)
    requires WorldOK(w) && Orderly(w) && LeasesOK(w) && Enabled(w, s) && ByOwnerThread(s)
    ensures LeasesOK(ApplyOwner(w, s))
  {
    if s.LobbyCommandStep? {
      assert CommandKnown(w.batch[0], w.net);
      LobbyCommandKeepsLeases(Popped(w), w.batch[0], s.sendFails);
    } else if s.GameCommandStep? {
      GameCommandKeepsLeases(PoppedGame(w), w.gameBatch[0]);
    } else if s.UpdateStep? {
      UpdateKeepsLeases(w, s.room, s.geometry);
    } else {
      DrainKeepsLeases(w, s);
    }
  }

  lemma CaptureKeepsLeases(w: World, s: Step)
    requires WorldOK(w) && LeasesOK(w) && Enabled(w, s) && (s.GameReadStep? || s.GameQueueStep?)
    ensures LeasesOK(ApplyPacket(w, s))
  {
    if s.GameReadStep? {
      assert LeaseOK(w.rooms, w.net.sessions[s.sid].binding);
    } else {
      assert w.handlers[s.sid] == HandlerOf(w, s.sid);
    }
  }

  /** The other steps touch neither rooms nor game commands, bind nobody and capture nothing. */
  lemma AsideKeepsLeases(w: World, w': World)
    requires WorldOK(w) && LeasesOK(w) && WorldOK(w')
    requires w'.rooms == w.rooms && w'.game == w.game && w'.gameBatch == w.gameBatch
    requires forall x | x in w'.handlers && w'.handlers[x].GameRead? :: x in w.handlers && w.handlers[x] == w'.handlers[x]
    requires forall x | x in w'.net.sessions && w'.net.sessions[x].binding.room != -1 ::
               x in w.net.sessions && w'.net.sessions[x].binding == w.net.sessions[x].binding
    ensures LeasesOK(w')
  {
    BoundCarry(w, w');
  }

  lemma PacketKeepsWorld(w: World, s: Step)
    requires WorldOK(w) && Enabled(w, s) && ByPacketThread(s)
    ensures WorldOK(ApplyPacket(w, s))
  {
    StepKeepsWorld(w, s);
  }

  lemma ManagerKeepsWorld(w: World, s: Step)
    requires WorldOK(w) && Enabled(w, s) && ByManager(s)
    ensures WorldOK(w.(net := ApplyManager(w.net, s)))
  {
    StepKeepsWorld(w, s);
  }

  lemma PacketKeepsLeases(w: World, s: Step)
    requires WorldOK(w) && LeasesOK(w) && Enabled(w, s) && ByPacketThread(s)
    ensures LeasesOK(ApplyPacket(w, s))
  {
    if s.GameReadStep? || s.GameQueueStep? {
      CaptureKeepsLeases(w, s);
    } else {
      PacketStepKeepsRest(w, s);
      PacketKeepsWorld(w, s);
      AsideKeepsLeases(w, ApplyPacket(w, s));
    }
  }

  lemma ManagerBindsNobody(n: Net, s: Step)
    requires NetOK(n) && ByManager(s) && (s.BeginIOStep? || s.CompleteIOStep? ==> s.sid in n.sessions)
    requires s.CompleteIOStep? ==> n.sessions[s.sid].pendingIO > 0
    ensures var n' := ApplyManager(n, s);
            forall x | x in n'.sessions && n'.sessions[x].binding.room != -1 ::
              x in n.sessions && n'.sessions[x].binding == n.sessions[x].binding
  {
  }

  lemma ManagerKeepsLeases(w: World, s: Step)
    requires WorldOK(w) && LeasesOK(w) && Enabled(w, s) && ByManager(s)
    ensures LeasesOK(w.(net := ApplyManager(w.net, s)))
  {
    ManagerBindsNobody(w.net, s);
    ManagerKeepsWorld(w, s);
    AsideKeepsLeases(w, w.(net := ApplyManager(w.net, s)));
  }

  lemma ClockKeepsLeases(w: World, elapsed: nat)
    requires LeasesOK(w)
    ensures LeasesOK(w.(now := w.now + elapsed))
  {
  }

  /** I/O steps bind nobody and start no match. */
  lemma StepKeepsLeases(w: World, s: Step)
    requires WorldOK(w) && Orderly(w) && LeasesOK(w) && Enabled(w, s)
    ensures LeasesOK(Apply(w, s))
  {
    if ByPacketThread(s) {
      PacketKeepsLeases(w, s);
    } else if ByManager(s) {
      ManagerKeepsLeases(w, s);
    } else if s.ClockStep? {
      ClockKeepsLeases(w, s.elapsed);
    } else {
      OwnerKeepsLeases(w, s);
    }
  }
}
