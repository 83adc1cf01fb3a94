/**
 * A departed player keeps its sid, so a session that leaves one slot of a match and resumes into a later one is, for
 * every lookup by sid, the player it was before. When that session drops, the wrong player is told to stand still.
 */
module Lookups {
  import opened RoomCommand
  import opened SessionSpec
  import opened Scheduler
  import opened MatchSpec
  import opened RoomSpec
  import opened Protocol
  import opened RoomInvariant
  import opened ServerInvariant
  import opened ServerSteps
  import opened MatchIsolation
  import opened GameRules
  import opened CommandEffects
  import opened Stories
  import opened Endings

  // ---- when it is the right player ----

  lemma SomePlayer(w: World, r: int, i: int, sid: int) returns (k: int)
    requires WorldOK(w) && IsValidRoom(r) && w.rooms[r].status == InGame && FirstSlot(w.rooms[r], i, sid) && sid != -1
    ensures FirstPlayer(w.rooms[r].game, k, sid) && k <= i
  {
    assert RoomOK(w.rooms[r], w.now);
    assert w.rooms[r].game.players[i].sid == sid;
    k := FindPlayer(w.rooms[r].game.players, sid);
  }

  /** The player whose slot starts to wait stands still iff it did before, or no player before it has its sid. */
  lemma WaiterStandsStillIff(w: World, sid: int, token: nat, r: int, i: int, sendFails: bool)
    requires WorldOK(w) && IsValidRoom(r) && sid in w.net.sessions && FirstSlot(w.rooms[r], i, sid)
    requires MayWait(w.rooms[r], i, token)
    requires w.rooms[r].members[i].connection == Connected && w.rooms[r].members[i].token == token
    ensures var a, b := w.rooms[r], ExecuteLobby(w, Disconnected(sid, token), sendFails).rooms[r];
            |b.game.players| == PLAYERNUM &&
            (b.game.players[i].velocity == Direction(0.0, 0.0)
             <==> a.game.players[i].velocity == Direction(0.0, 0.0) || forall j | 0 <= j < i :: a.game.players[j].sid != sid)
  {
    var k := SomePlayer(w, r, i, sid);
    DisconnectCommand(w, sid, token, r, i, k, sendFails);
    assert RoomOK(w.rooms[r], w.now) && w.rooms[r].game.players[i].sid == sid;
  }

  /** The player whose slot an Exit frees is hidden iff it was before, or no player before it has its sid. */
  lemma LeaverIsHiddenIff(w: World, sid: int, r: int, i: int, sendFails: bool)
    requires WorldOK(w) && IsValidRoom(r) && sid in w.net.sessions && FirstSlot(w.rooms[r], i, sid)
    requires w.rooms[r].status == InGame && i >= 1
    ensures var a, b := w.rooms[r], ExecuteLobby(w, Exit(sid, r), sendFails).rooms[r];
            |b.game.players| == PLAYERNUM &&
            (b.game.players[i].hide <==> a.game.players[i].hide || forall j | 0 <= j < i :: a.game.players[j].sid != sid)
  {
    var k := SomePlayer(w, r, i, sid);
    ExitCommand(w, sid, r, i, k, sendFails);
    assert RoomOK(w.rooms[r], w.now) && w.rooms[r].game.players[i].sid == sid;
  }

  // ---- a run in which it is the wrong one ----

  const FORWARD := Keys(true, false, false, false)
  const NORTH := Direction(0.0, 1.0)

  /** Four play in room 0, each under its own sid; employee 2 is under way. */
  ghost predicate UnderWay(ws: iset<World>, w: World) {
    && Quiet(ws, w) && w.rooms[0].status == InGame
    && (forall s | 0 <= s < 4 :: Plays0(w, s) && w.rooms[0].game.players[s].sid == s)
    && w.rooms[0].game.players[2].velocity == Direction(0.0, 3.0)
  }

  function Walk(w: World): Room
    requires Shaped(w) && 2 in w.net.sessions
  {
    var r := w.rooms[0];
    r.(game := Schedule(r.game, w.now, 2, w.net.sessions[2].binding.lease, Movement(FORWARD, NORTH)))
  }

  lemma WalksIt(w: World)
    requires Shaped(w) && Found(w.net, 2) && w.net.sessions[2].binding.room == 0
    requires var lease := w.net.sessions[2].binding.lease;
             && IsCurrentLease(w.rooms[0], 2, lease) && lease.Matches(lease.memberGeneration, lease.matchGeneration)
    ensures ExecuteGame(w, Sent(w, 2, KeyPacket(FORWARD, NORTH))) == w.(rooms := w.rooms[0 := Walk(w)])
  {
  }

  lemma Sets(ws: iset<World>, w: World) returns (w': World)
    requires Quiet(ws, w) && w.rooms[0].status == InGame && Plays0(w, 2)
    ensures Quiet(ws, w') && w' == Handled(w, 2).(rooms := w.rooms[0 := Walk(w)])
  {
    PlayersLease(w, 2);
    Plays(ws, w, 2, KeyPacket(FORWARD, NORTH));
    WalksIt(Handled(w, 2));
    w' := Handled(w, 2).(rooms := w.rooms[0 := Walk(w)]);
    assert forall x :: HandlerOf(w', x) == HandlerOf(w, x);
    StaysQuiet(ws, w, w');
  }

  function Walked(m: Match): Match
    requires |m.players| == PLAYERNUM
  {
    m.(players := m.players[2 := Moved(m.players[2], FORWARD, NORTH)], nextSequence := m.nextSequence + 1)
  }

  lemma WalkRuns(r: Room, now: int, lease: MatchLease, g: Geometry)
    requires RoomShaped(r) && r.game.queue == [] && r.game.state == Playing && IsCurrentLease(r, 2, lease)
    requires forall i | 0 <= i < 4 :: r.game.players[i].sid == i
    ensures RunDue(r.(game := Schedule(r.game, now, 2, lease, Movement(FORWARD, NORTH))), now, g) == r.(game := Walked(r.game))
  {
    var e := Scheduled(now, r.game.nextSequence, GameEvent(2, lease, Movement(FORWARD, NORTH)));
    var r' := r.(game := Schedule(r.game, now, 2, lease, Movement(FORWARD, NORTH)));
    assert r'.game.queue == [e] && [e][1..] == [];
    assert r.game.players[2].sid == 2 && FindPlayer(r.game.players, 2) == 2;
    var r1 := r'.(game := Effect(r'.game.(queue := []), 2, Movement(FORWARD, NORTH), g));
    assert RunDue(r', now, g) == RunDue(r1, now, g);
    assert r1 == r.(game := Walked(r.game));
    assert RunDue(r1, now, g) == r1;
  }

  lemma WalkFinishes(m: Match, g: Geometry)
    requires Placed(m, 0, {}, false) && m.state == Playing && !m.exitReady
    ensures var m' := FinishTick(Walked(m), g);
            && !Decided(m') && |m'.players| == 4 && (forall i | 0 <= i < 4 :: m'.players[i].sid == i)
            && m'.players[2].velocity == Direction(0.0, 3.0) && m'.generation == m.generation
  {
    assert Placed(Walked(m), 0, {}, false);
    PlacedCounts(Walked(m), 0, {}, false);
    DecidesIff(Walked(m), g);
    FinishedTick(Walked(m), g);
    assert forall i | 0 <= i < 4 :: Lands(Walked(m).players[i], FinishTick(Walked(m), g).players[i], g);
  }

  /** Employee 2 is under way after a tick that finds its movement queued. */
  ghost predicate WalksTo(r: Room, now: int, lease: MatchLease, g: Geometry)
    requires RoomShaped(r)
  {
    var r' := Tick(r.(game := Schedule(r.game, now, 2, lease, Movement(FORWARD, NORTH))), now, g);
    && r' == r.(game := r'.game) && r'.game.generation == r.game.generation && !Decided(r'.game)
    && |r'.game.players| == 4 && (forall i | 0 <= i < 4 :: r'.game.players[i].sid == i)
    && r'.game.players[2].velocity == Direction(0.0, 3.0)
  }

  lemma WalkTicks(r: Room, now: int, lease: MatchLease, g: Geometry)
    requires RoomShaped(r) && r.game.queue == [] && r.game.state == Playing && IsCurrentLease(r, 2, lease)
    requires Placed(r.game, 0, {}, false) && !r.game.exitReady
    ensures WalksTo(r, now, lease, g)
  {
    WalkRuns(r, now, lease, g);
    TickIs(r.(game := Schedule(r.game, now, 2, lease, Movement(FORWARD, NORTH))), now, g, Walked(r.game));
    WalkFinishes(r.game, g);
  }

  /** Nothing but the match has changed, and everybody still plays. */
  lemma AllStillPlay(w: World, w': World)
    requires Shaped(w) && Shaped(w') && w'.net == w.net && w'.rooms[0] == w.rooms[0].(game := w'.rooms[0].game)
    requires w'.rooms[0].game.generation == w.rooms[0].game.generation && forall s | 0 <= s < 4 :: Plays0(w, s)
    ensures forall s | 0 <= s < 4 :: Plays0(w', s)
  {
    forall s | 0 <= s < 4 ensures Plays0(w', s) { assert Plays0(w, s); }
  }

  /** The world once employee 2's keys are queued. */
  ghost predicate Keyed(w: World, w1: World)
    requires Shaped(w) && 2 in w.net.sessions
  {
    Shaped(w1) && w1.net == w.net && w1.now == w.now && w1.rooms[0] == Walk(w)
  }

  lemma KeyedTicks(w: World, w1: World, g: Geometry)
    requires Shaped(w) && 2 in w.net.sessions && Keyed(w, w1) && w.rooms[0].status == InGame
    requires WalksTo(w.rooms[0], w.now, w.net.sessions[2].binding.lease, g) && forall s | 0 <= s < 4 :: Plays0(w, s)
    ensures w1.rooms[0].status == InGame && !Decided(Tick(w1.rooms[0], w1.now, g).game)
    ensures forall i | 0 <= i < 4 :: w1.rooms[0].members[i].connection == Connected
  {
    forall i | 0 <= i < 4 ensures w1.rooms[0].members[i].connection == Connected { assert Plays0(w, i); }
  }

  lemma KeyedWalks(w: World, w1: World, w': World, g: Geometry)
    requires Shaped(w) && 2 in w.net.sessions && Keyed(w, w1) && w.rooms[0].status == InGame
    requires WalksTo(w.rooms[0], w.now, w.net.sessions[2].binding.lease, g) && forall s | 0 <= s < 4 :: Plays0(w, s)
    requires w' == w1.(rooms := w1.rooms[0 := Tick(w1.rooms[0], w1.now, g)])
    ensures Shaped(w') && w'.rooms[0].status == InGame && w'.rooms[0].game.players[2].velocity == Direction(0.0, 3.0)
    ensures forall s | 0 <= s < 4 :: Plays0(w', s) && w'.rooms[0].game.players[s].sid == s
  {
    AllStillPlay(w, w');
  }

  lemma WalkOne(ws: iset<World>, w: World, g: Geometry) returns (w': World)
    requires Quiet(ws, w) && w.rooms[0].status == InGame && 2 in w.net.sessions
    requires forall s | 0 <= s < 4 :: Plays0(w, s)
    requires WalksTo(w.rooms[0], w.now, w.net.sessions[2].binding.lease, g)
    ensures UnderWay(ws, w')
  {
    assert Plays0(w, 2);
    var w1 := KeysDown(ws, w);
    KeyedTicks(w, w1, g);
    w' := Ticks(ws, w1, g);
    KeyedWalks(w, w1, w', g);
  }

  lemma KeysDown(ws: iset<World>, w: World) returns (w1: World)
    requires Quiet(ws, w) && w.rooms[0].status == InGame && 2 in w.net.sessions && Plays0(w, 2)
    ensures Quiet(ws, w1) && Keyed(w, w1)
  {
    w1 := Sets(ws, w);
  }

  /** Employee 2 sets out. */
  lemma SetsOut(ws: iset<World>, w: World, g: Geometry) returns (w': World)
    requires OnField(ws, w, 0, {}, false)
    ensures UnderWay(ws, w')
  {
    AllUp(ws, w, 0, {}, false);
    assert Plays0(w, 2);
    PlayersLease(w, 2);
    WalkTicks(w.rooms[0], w.now, w.net.sessions[2].binding.lease, g);
    w' := WalkOne(ws, w, g);
  }

  /** Employee 1 has left room 0, where employee 2 is under way. */
  ghost predicate OneLeft(ws: iset<World>, w: World) {
    && Quiet(ws, w) && MayResume(w.net, 1) && Found(w.net, 2)
    && Left1(w.rooms[0])
  }

  predicate Left1(r: Room) {
    && RoomShaped(r) && r.status == InGame && !Filled(r.members[1])
    && (forall s | 0 <= s < 4 && s != 1 :: r.members[s].sid == s && r.members[s].connection == Connected)
    && (forall s | 0 <= s < 4 :: r.game.players[s].sid == s)
    && r.game.players[2].velocity == Direction(0.0, 3.0)
  }

  lemma LeavesIt(w: World, w1: World, w': World)
    requires WorldOK(w) && w.rooms[0].status == InGame && Shaped(w1) && w1 == Remembered(Gone(w, 1), Exit(1, 0))
    requires forall s | 0 <= s < 4 :: Plays0(w, s) && w.rooms[0].game.players[s].sid == s
    requires w' == ExecuteLobby(w1, Exit(1, 0), false)
    ensures w' == w1.(rooms := w'.rooms, net := w'.net) && |w'.rooms| == ROOM_CAPACITY && RoomShaped(w'.rooms[0])
    ensures LeavesMatch(w.rooms[0], w'.rooms[0], 1, 1) && Unbinds(w1.net, w'.net, iset{1})
  {
    assert RoomOK(w.rooms[0], w.now);
    assert forall s | 0 <= s < 4 :: Plays0(w, s) ==> w.rooms[0].members[s].sid == s;
    var c := SceneAt(w1, 0);
    assert FirstSlot(c.room, 1, 1) && FirstPlayer(c.room.game, 1, 1);
    DepartsFrom(c, 1, w.now, 1, 1);
    assert -1 !in w.net.sessions;
    DepartingUnbinds(c, 1, w.now, 1);
  }

  lemma LeftBehind(a: World, w1: World, w': World)
    requires WorldOK(a) && a.rooms[0].status == InGame && w1.net == SessionSpec.Clear(a.net, 1)
    requires forall s | 0 <= s < 4 :: Plays0(a, s) && a.rooms[0].game.players[s].sid == s
    requires a.rooms[0].game.players[2].velocity == Direction(0.0, 3.0)
    requires |w'.rooms| == ROOM_CAPACITY && RoomShaped(w'.rooms[0])
    requires LeavesMatch(a.rooms[0], w'.rooms[0], 1, 1) && Unbinds(w1.net, w'.net, iset{1})
    ensures MayResume(w'.net, 1) && Found(w'.net, 2) && Left1(w'.rooms[0])
  {
    assert Plays0(a, 1) && Plays0(a, 2);
    assert forall s | 0 <= s < 4 && s != 1 :: Plays0(a, s) ==> w'.rooms[0].members[s] == a.rooms[0].members[s];
  }

  /** Employee 1 leaves the room. */
  lemma OneLeaves(ws: iset<World>, w: World) returns (w': World)
    requires UnderWay(ws, w)
    ensures OneLeft(ws, w')
  {
    assert Plays0(w, 1);
    Exits(ws, w, 1, 0);
    var w1 := Remembered(Gone(w, 1), Exit(1, 0));
    w' := ExecuteLobby(w1, Exit(1, 0), false);
    LeavesIt(w, w1, w');
    LeftBehind(w, w1, w');
    assert forall x :: HandlerOf(w', x) == HandlerOf(w, x);
    StaysQuiet(ws, w, w');
  }

  // ---- employee 1 comes back as employee 2 ----

  lemma QueuesResume(ws: iset<World>, w: World, c: LobbyCommand)
    requires Real(ws, w) && c.sid in w.net.sessions && HandlerOf(w, c.sid) == Waiting && c.Resume? && c.token != 0
    requires w.net.lobby == [] && w.net.lobbyCapacity > 0
    ensures Real(ws, Queued(w, [c]).(didResume := w.didResume + {c.sid}))
  {
    Goes(ws, w, LobbyStep(c));
    assert [] + [c] == [c];
  }

  /** The world in which the Resume is executed. */
  function Resuming(w: World, token: nat): World {
    Remembered(w, Resume(1, token)).(didResume := w.didResume + {1})
  }

  lemma AsksToResume(ws: iset<World>, w: World, token: nat)
    requires Quiet(ws, w) && 1 in w.net.sessions && token != 0
    ensures WorldOK(Resuming(w, token)) && Real(ws, ExecuteLobby(Resuming(w, token), Resume(1, token), false))
  {
    var c := Resume(1, token);
    assert HandlerOf(w, 1) == Waiting;
    QueuesResume(ws, w, c);
    var w1 := Queued(w, [c]).(didResume := w.didResume + {1});
    Serves(ws, w1, c);
    assert Remembered(Queued(w1, []), c) == Resuming(w, token);
  }

  /** Session 1 holds slot 2, whose player goes on; session 2 is on its way out. */
  ghost predicate OneIsTwo(ws: iset<World>, w: World, token: nat, other: nat) {
    && Real(ws, w) && w.batch == [] && w.net.lobby == [Disconnected(2, other)] && w.net.lobbyCapacity == 8
    && Found(w.net, 1) && w.net.sessions[1].token == token && token != 0
    && Posing(w.rooms[0], token)
  }

  predicate Posing(r: Room, token: nat) {
    && RoomShaped(r) && r.status == InGame && !Filled(r.members[1]) && r.members[0].sid == 0 && r.members[3].sid == 3
    && r.members[2].sid == 1 && r.members[2].connection == Connected && r.members[2].token == token
    && r.game.players[0].sid == 0 && r.game.players[1].sid == 1
    && r.game.players[2].velocity == Direction(0.0, 3.0)
  }

  lemma ResumesIt(w: World, token: nat, w': World)
    requires WorldOK(w) && MayResume(w.net, 1) && Found(w.net, 2) && Left1(w.rooms[0]) && w.net.lobby == []
    requires token == w.rooms[0].members[2].token && w' == ExecuteLobby(w, Resume(1, token), false)
    ensures token != 0 && |w'.rooms| == ROOM_CAPACITY && Posing(w'.rooms[0], token)
    ensures Found(w'.net, 1) && w'.net.sessions[1].token == token
    ensures w'.net.lobby == [Disconnected(2, w.net.sessions[2].token)]
    ensures w' == w.(rooms := w'.rooms, net := w'.net)
  {
    assert RoomOK(w.rooms[0], w.now) && SlotOK(w.rooms[0].members[2]) && SlotOK(w.rooms[0].members[1]);
    assert FirstOpen(w, 0, 2, token);
    ResumeCommand(w, 1, token, 0, 2, false);
    assert [] + [Disconnected(2, w.net.sessions[2].token)] == [Disconnected(2, w.net.sessions[2].token)];
  }

  /** Employee 1 comes back with the token of employee 2, whom it replaces. */
  lemma OnePoses(ws: iset<World>, w: World) returns (w': World, token: nat, other: nat)
    requires OneLeft(ws, w)
    ensures OneIsTwo(ws, w', token, other)
  {
    token, other := w.rooms[0].members[2].token, w.net.sessions[2].token;
    HasToken(w.rooms[0], w.now, 2);
    AsksToResume(ws, w, token);
    w' := ExecuteLobby(Resuming(w, token), Resume(1, token), false);
    PosesAs(w, token, w');
  }

  lemma PosesAs(w: World, token: nat, w': World)
    requires WorldOK(Resuming(w, token)) && MayResume(w.net, 1) && Found(w.net, 2) && Left1(w.rooms[0])
    requires w.net.lobby == [] && w.batch == [] && w.net.lobbyCapacity == 8 && token == w.rooms[0].members[2].token
    requires w' == ExecuteLobby(Resuming(w, token), Resume(1, token), false)
    ensures w'.batch == [] && w'.net.lobby == [Disconnected(2, w.net.sessions[2].token)] && w'.net.lobbyCapacity == 8
    ensures Found(w'.net, 1) && w'.net.sessions[1].token == token && token != 0
    ensures |w'.rooms| == ROOM_CAPACITY && Posing(w'.rooms[0], token)
  {
    ResumesIt(Resuming(w, token), token, w');
  }

  lemma HasToken(r: Room, now: int, i: int)
    requires RoomOK(r, now) && 0 <= i < PLAYERNUM && Filled(r.members[i])
    ensures r.members[i].token != 0
  {
    assert SlotOK(r.members[i]);
  }

  // ---- its connection drops ----

  /** Session 1 is retired, moved and announced; both departures wait to be executed. */
  ghost predicate BothGone(ws: iset<World>, w: World, token: nat, other: nat) {
    && Real(ws, w) && w.batch == [Disconnected(2, other), Disconnected(1, token)] && token != 0 && 1 in w.net.sessions
    && Posing(w.rooms[0], token)
  }

  lemma Announces(ws: iset<World>, w: World, token: nat, before: seq<LobbyCommand>) returns (w': World)
    requires Real(ws, w) && Found(w.net, 1) && w.net.sessions[1].token == token && w.net.lobby == before
    ensures Real(ws, w') && w'.net.lobby == before + [Disconnected(1, token)] && 1 in w'.net.sessions
    ensures w'.rooms == w.rooms && w'.batch == w.batch
  {
    Goes(ws, w, RetireStep(1));
    var w1 := Apply(w, RetireStep(1));
    Goes(ws, w1, MoveStep(1));
    var w2 := Apply(w1, MoveStep(1));
    Goes(ws, w2, PublishStep(1));
    w' := Apply(w2, PublishStep(1));
  }

  lemma Drops(ws: iset<World>, w: World, token: nat, other: nat) returns (w': World)
    requires OneIsTwo(ws, w, token, other)
    ensures BothGone(ws, w', token, other)
  {
    var w1 := Announces(ws, w, token, [Disconnected(2, other)]);
    assert [Disconnected(2, other)] + [Disconnected(1, token)] == [Disconnected(2, other), Disconnected(1, token)];
    Drains(ws, w1, [Disconnected(2, other), Disconnected(1, token)]);
    w' := Queued(w1, []).(batch := [Disconnected(2, other), Disconnected(1, token)]);
  }

  /** The departure of session 2 finds nothing in room 0. */
  lemma TwoIsGone(ws: iset<World>, w: World, token: nat, other: nat) returns (w': World)
    requires BothGone(ws, w, token, other)
    ensures Real(ws, w') && w'.batch == [Disconnected(1, token)] && 1 in w'.net.sessions && Posing(w'.rooms[0], token)
  {
    assert w.batch == [Disconnected(2, other)] + [Disconnected(1, token)];
    Pops(ws, w, Disconnected(2, other), [Disconnected(1, token)]);
    var w1 := Remembered(w, Disconnected(2, other)).(batch := [Disconnected(1, token)]);
    w' := ExecuteLobby(w1, Disconnected(2, other), false);
    FindsNothing(w1, other, token);
  }

  lemma FindsNothing(w: World, other: nat, token: nat)
    requires Shaped(w) && Posing(w.rooms[0], token)
    ensures var w' := ExecuteLobby(w, Disconnected(2, other), false);
            Posing(w'.rooms[0], token) && w'.batch == w.batch && w'.net.sessions.Keys == w.net.sessions.Keys
  {
    assert NoSlot(w.rooms[0], 2);
    DisconnectRooms(w, 2, other, ROOM_CAPACITY, 0);
    DisconnectSpares(SceneAt(w, 0), 2, other, w.now);
    DisconnectsOnly(w, 2, other, ROOM_CAPACITY);
  }

  lemma {:induction false} DisconnectsOnly(w: World, sid: int, token: nat, upTo: nat)
    requires Shaped(w) && upTo <= ROOM_CAPACITY
    ensures var w' := DisconnectUpTo(w, sid, token, upTo);
            w'.batch == w.batch && w'.net.sessions.Keys == w.net.sessions.Keys
    decreases upTo
  {
    if upTo > 0 {
      DisconnectsOnly(w, sid, token, upTo - 1);
      var w1 := DisconnectUpTo(w, sid, token, upTo - 1);
      SameSessions(SceneAt(w1, upTo - 1), sid, token, w1.now);
    }
  }

  lemma SameSessions(c: Scene, sid: int, token: nat, now: int)
    ensures TransportDisconnected(c, sid, token, now).net.sessions.Keys == c.net.sessions.Keys
  {
    if IndexOf(c.room.members, sid) >= 0 {
      var i := IndexOf(c.room.members, sid);
      ClearEachLoosens(ClearFound(c.net, sid), Sids(Remove(c.room, i).members));
    }
  }

  lemma WrongOneIn(ws: iset<World>, g: Geometry) returns (w: World, token: nat)
    requires NoStepLeaves(ws) && Initial(8, 8) in ws
    ensures w in ws && WorldOK(w) && w.batch == [Disconnected(1, token)] && 1 in w.net.sessions && Posing(w.rooms[0], token)
  {
    var other: nat;
    w := MatchBegins(ws);
    w := SetsOut(ws, w, g);
    w := OneLeaves(ws, w);
    w, token, other := OnePoses(ws, w);
    w := Drops(ws, w, token, other);
    w := TwoIsGone(ws, w, token, other);
  }

  /**
   * The session in slot 2 drops, and the slot starts to wait; its player walks on, since the lookup by sid finds player
   * 1, whom the same session was before.
   */
  lemma WaiterWalksOn(g: Geometry) returns (w: World, token: nat)
    ensures Reachable(w) && Shaped(w) && 1 in w.net.sessions && w.batch == [Disconnected(1, token)]
    ensures w.rooms[0].status == InGame && FirstSlot(w.rooms[0], 2, 1)
    ensures var b := ExecuteLobby(w, Disconnected(1, token), false).rooms[0];
            RoomShaped(b) && b.status == InGame && b.members[2].connection == Reconnecting
            && b.game.players[2].velocity == Direction(0.0, 3.0)
  {
    var ws := ReachableWorlds();
    w, token := WrongOneIn(ws, g);
    StaysWalking(w, token);
  }

  lemma StaysWalking(w: World, token: nat)
    requires WorldOK(w) && 1 in w.net.sessions && Posing(w.rooms[0], token)
    ensures var b := ExecuteLobby(w, Disconnected(1, token), false).rooms[0];
            RoomShaped(b) && b.status == InGame && b.members[2].connection == Reconnecting
            && b.game.players[2].velocity == Direction(0.0, 3.0)
    ensures FirstSlot(w.rooms[0], 2, 1)
  {
    assert RoomOK(w.rooms[0], w.now) && SlotOK(w.rooms[0].members[2]);
    DisconnectCommand(w, 1, token, 0, 2, 1, false);
  }
}
