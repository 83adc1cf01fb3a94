/**
 * Two runs from an empty server that show how a match ends too soon, and how it does not end: in both an employee
 * escapes and then leaves, which counts twice.
 */
module Endings {
  import opened RoomCommand
  import opened SessionSpec
  import opened Scheduler
  import opened MatchSpec
  import opened RoomSpec
  import opened Protocol
  import opened RoomInvariant
  import opened ServerInvariant
  import opened ServerSteps
  import opened MatchIsolation
  import opened Stories
  import opened GameOver

  // ---- four clients arrive ----

  /** Session `s` is known and logged in. */
  predicate Known(w: World, s: int) {
    Found(w.net, s) && !w.net.sessions[s].retired && w.net.sessions[s].token == s + 1
  }

  ghost predicate Arrived(ws: iset<World>, w: World, n: nat) {
    && Quiet(ws, w) && w.rooms[0] == NewRoom(0) && w.net.nextSid == n
    && (forall t | t in w.issued :: t <= n)
    && forall s | 0 <= s < n :: Known(w, s) && w.net.sessions[s].binding == UNBOUND
  }

  lemma ArriveOne(ws: iset<World>, w: World, n: nat) returns (w': World)
    requires Arrived(ws, w, n) && n < 4
    ensures Arrived(ws, w', n + 1)
  {
    w' := Arrives(ws, w, n + 1);
  }

  lemma FourArrive(ws: iset<World>) returns (w: World)
    requires NoStepLeaves(ws) && Initial(8, 8) in ws
    ensures Arrived(ws, w, 4)
  {
    w := Initial(8, 8);
    InitiallyQuiet(ws, w);
    assert w.rooms[0] == NewRoom(0);
    w := ArriveOne(ws, w, 0);
    w := ArriveOne(ws, w, 1);
    w := ArriveOne(ws, w, 2);
    w := ArriveOne(ws, w, 3);
  }

  // ---- they gather in room 0 and start a match ----

  predicate Sits(m: Member, s: int, ready: bool) {
    m.sid == s && m.ready == ready && m.generation >= 1
  }

  /** Sessions 0 to `n` - 1 sit in room 0, the first `k` of them ready. */
  ghost predicate Seats4(w: World, n: nat, k: nat) {
    && Shaped(w) && n <= 4
    && var r := w.rooms[0];
    && r.status == (if n == 4 then Full else NotFull) && r.count == n
    && (forall i | 0 <= i < n :: Sits(r.members[i], i, i < k))
    && (forall i | n <= i < 4 :: !Filled(r.members[i]))
    && (forall s | 0 <= s < 4 :: Known(w, s) && w.net.sessions[s].binding.room == if s < n then 0 else -1)
  }

  ghost predicate Gathered(ws: iset<World>, w: World, n: nat, k: nat) {
    Quiet(ws, w) && Seats4(w, n, k)
  }

  /** A command has changed no more than the rooms and the sessions. */
  ghost predicate Undisturbed(w: World, w': World) {
    w' == w.(rooms := w'.rooms, net := w.net.(sessions := w'.net.sessions), executed := w'.executed)
  }

  /** What the owner executes of a quiet world's client leaves it quiet, if it only changes rooms and sessions. */
  lemma AsksQuietly(ws: iset<World>, w: World, c: LobbyCommand, w': World)
    requires Quiet(ws, w) && c.sid in w.net.sessions && FromPacket(c) && !c.Resume? && Shaped(Remembered(w, c))
    requires w' == ExecuteLobby(Remembered(w, c), c, false) && Undisturbed(w, w')
    ensures Quiet(ws, w')
  {
    Asks(ws, w, c);
    assert forall s :: HandlerOf(w', s) == HandlerOf(w, s);
    StaysQuiet(ws, w, w');
  }

  lemma FoundsIt(w: World, w1: World, w': World)
    requires Shaped(w) && w.rooms[0] == NewRoom(0) && (forall s | 0 <= s < 4 :: Known(w, s) && w.net.sessions[s].binding == UNBOUND)
    requires w1 == Remembered(w, Create(0)) && Shaped(w1) && w' == ExecuteLobby(w1, Create(0), false)
    ensures Undisturbed(w, w') && Seats4(w', 1, 0)
  {
    var c := SceneAt(w1, 0).(room := Opened(w1.rooms[0]));
    assert FreeIndex(c.room.members) == 0;
    assert Known(w, 0) && CanEnter(c, 0);
    forall s | 0 <= s < 4 ensures Known(w', s) && w'.net.sessions[s].binding.room == if s < 1 then 0 else -1 {
      assert Known(w, s);
    }
  }

  lemma Creates(ws: iset<World>, w: World) returns (w': World)
    requires Arrived(ws, w, 4)
    ensures Gathered(ws, w', 1, 0)
  {
    assert Known(w, 0);
    w' := ExecuteLobby(Remembered(w, Create(0)), Create(0), false);
    FoundsIt(w, Remembered(w, Create(0)), w');
    AsksQuietly(ws, w, Create(0), w');
  }

  lemma EntersIt(w: World, w1: World, w': World, n: nat)
    requires Seats4(w, n, 0) && 1 <= n < 4 && w.rooms[0].number == 0
    requires w1 == Remembered(w, Enter(n, 0)) && Shaped(w1) && w' == ExecuteLobby(w1, Enter(n, 0), false)
    ensures Undisturbed(w, w') && Seats4(w', n + 1, 0)
  {
    FirstFree(w.rooms[0].members, n);
    assert Known(w, n) && CanEnter(SceneAt(w1, 0), n);
    forall s | 0 <= s < 4 ensures Known(w', s) && w'.net.sessions[s].binding.room == if s < n + 1 then 0 else -1 {
      assert Known(w, s);
    }
  }

  lemma FirstFree(ms: seq<Member>, n: nat)
    requires n < |ms| && (forall i | 0 <= i < n :: ms[i].sid != -1) && ms[n].sid == -1
    ensures FreeIndex(ms) == n
  {
  }

  lemma EnterOne(ws: iset<World>, w: World, n: nat) returns (w': World)
    requires Gathered(ws, w, n, 0) && 1 <= n < 4
    ensures Gathered(ws, w', n + 1, 0)
  {
    assert Known(w, n);
    AllConnected(w);
    w' := ExecuteLobby(Remembered(w, Enter(n, 0)), Enter(n, 0), false);
    EntersIt(w, Remembered(w, Enter(n, 0)), w', n);
    AsksQuietly(ws, w, Enter(n, 0), w');
  }

  /** The slot under a sid, where sids count up from 0. */
  lemma SlotOf(ms: seq<Member>, k: nat)
    requires |ms| == 4 && k < 4 && forall i | 0 <= i < 4 :: ms[i].sid == i && ms[i].connection == Connected
    ensures ConnectedIndex(ms, k) == k && IndexOf(ms, k) == k
  {
    assert ms[k].sid == k;
  }

  lemma ReadiesIt(w: World, w1: World, w': World, k: nat)
    requires Seats4(w, 4, k) && k < 3 && forall i | 0 <= i < 4 :: w.rooms[0].members[i].connection == Connected
    requires w1 == Remembered(w, SetReady(k, true)) && Shaped(w1) && w' == ExecuteLobby(w1, SetReady(k, true), false)
    ensures Undisturbed(w, w') && Seats4(w', 4, k + 1)
  {
    SlotOf(w.rooms[0].members, k);
    assert Known(w, k);
    var room := SetReadyFlag(w.rooms[0], k, true);
    assert !room.members[3].ready;
    assert InitGame(Scene(room, w1.net)) == Scene(room, w1.net);
    forall s | 0 <= s < 4 ensures Known(w', s) && w'.net.sessions[s].binding.room == 0 {
      assert Known(w, s);
    }
  }

  lemma ReadyOne(ws: iset<World>, w: World, k: nat) returns (w': World)
    requires Gathered(ws, w, 4, k) && k < 3
    ensures Gathered(ws, w', 4, k + 1)
  {
    assert Known(w, k);
    AllConnected(w);
    w' := ExecuteLobby(Remembered(w, SetReady(k, true)), SetReady(k, true), false);
    ReadiesIt(w, Remembered(w, SetReady(k, true)), w', k);
    AsksQuietly(ws, w, SetReady(k, true), w');
  }

  lemma AllConnected(w: World)
    requires WorldOK(w) && w.rooms[0].status != InGame
    ensures w.rooms[0].number == 0 && forall i | 0 <= i < 4 :: w.rooms[0].members[i].connection == Connected
  {
    assert RoomOK(w.rooms[0], w.now);
  }

  // ---- the match ----

  /** Session `s` plays in room 0, in slot `s`, under a lease of the match that is on. */
  predicate Plays0(w: World, s: int)
    requires Shaped(w) && 0 <= s < 4
  {
    && Found(w.net, s) && w.net.sessions[s].binding.room == 0
    && w.net.sessions[s].binding.lease.matchGeneration == w.rooms[0].game.generation
    && w.rooms[0].members[s].sid == s && w.rooms[0].members[s].connection == Connected
    && w.rooms[0].members[s].generation == w.net.sessions[s].binding.lease.memberGeneration >= 1
  }

  /**
   * A match is on in room 0: the first `lit` generators are lit, the players in `out` have escaped; employee 1 has
   * left if `left` says so, everybody else is up and playing.
   */
  ghost predicate InPlay(w: World, lit: nat, out: set<int>, left: bool) {
    && Shaped(w) && w.rooms[0].status == InGame && w.rooms[0].game.queue == []
    && (forall s | 0 <= s < 4 && !(left && s == 1) :: Plays0(w, s))
    && (left ==> !Filled(w.rooms[0].members[1]))
    && Standing(w.rooms[0].game, lit, out, left)
  }

  ghost predicate OnField(ws: iset<World>, w: World, lit: nat, out: set<int>, left: bool) {
    Quiet(ws, w) && InPlay(w, lit, out, left)
  }

  predicate Standing(m: Match, lit: nat, out: set<int>, left: bool) {
    Placed(m, lit, out, left) && m.exitReady == (lit == 3)
  }

  predicate Placed(m: Match, lit: nat, out: set<int>, left: bool) {
    && |m.players| == 4 && |m.generators| == 3
    && (forall k | 0 <= k < 3 :: m.generators[k].active == (k < lit))
    && (forall i | 0 <= i < 4 :: m.players[i].sid == i && m.players[i].idx == i
                                 && m.players[i].escaped == (i in out)
                                 && m.players[i].behavior == if left && i == 1 then Crawl else Idle)
  }

  /** The scene in which the match has just begun, in the room `r`. */
  ghost predicate Begins(r: Room, c: Scene) {
    && RoomShaped(r) && RoomShaped(c.room)
    && c.room.status == InGame && c.room.game.queue == [] && c.room.game.generation == r.game.generation + 1
    && Standing(c.room.game, 0, {}, false)
    && forall i | 0 <= i < 4 :: c.room.members[i].sid == i && c.room.members[i].connection == Connected
                                && c.room.members[i].generation == r.members[i].generation
  }

  lemma StartsRoom(r: Room, n: Net, now: int, c: Scene)
    requires RoomOK(r, now) && r.status == Full
    requires forall i | 0 <= i < 4 :: Sits(r.members[i], i, i < 3) && r.members[i].connection == Connected
    requires c == InitGame(Scene(SetReadyFlag(r, 3, true), n))
    ensures CanSetReady(r, 3) && Begins(r, c) && c.net == BindMatchEach(n, Sids(r.members), r.game.generation + 1)
  {
    SlotOf(r.members, 3);
    var room := SetReadyFlag(r, 3, true);
    assert forall i | 0 <= i < 4 :: room.members[i].ready && room.members[i].sid == i;
    assert Sids(room.members) == Sids(r.members);
    assert forall i | 0 <= i < 4 :: Blank(r.game.players[i]);
  }

  lemma StartsNet(w: World, n: Net, sids: seq<int>, generation: nat)
    requires forall s | 0 <= s < 4 :: Known(w, s) && w.net.sessions[s].binding.room == 0 && s in sids
    requires n == BindMatchEach(w.net, sids, generation)
    ensures n == w.net.(sessions := n.sessions)
    ensures forall s | 0 <= s < 4 ::
              && Known(w, s) && Found(n, s) && n.sessions[s].binding.room == 0
              && n.sessions[s].binding.lease == MatchLease(w.net.sessions[s].binding.lease.memberGeneration, generation)
  {
    BindMatchEachEffect(w.net, sids, generation);
    forall s | 0 <= s < 4 ensures Found(n, s) && n.sessions[s].binding.lease.matchGeneration == generation {
      assert Known(w, s);
    }
  }

  lemma EverybodyPlays(w: World, w': World, c: Scene)
    requires WorldOK(w) && Seats4(w, 4, 3) && Begins(w.rooms[0], c)
    requires c.net == BindMatchEach(w.net, Sids(w.rooms[0].members), w.rooms[0].game.generation + 1)
    requires Shaped(w') && w'.rooms[0] == c.room && w'.net == c.net
    ensures InPlay(w', 0, {}, false) && c.net == w.net.(sessions := c.net.sessions)
  {
    var sids := Sids(w.rooms[0].members);
    forall s | 0 <= s < 4 ensures s in sids { assert sids[s] == s; }
    StartsNet(w, c.net, sids, w.rooms[0].game.generation + 1);
    forall s | 0 <= s < 4 ensures Plays0(w', s) { StartsSeat(w, s); }
  }

  lemma StartsAs(w: World, w1: World, w': World) returns (c: Scene)
    requires Seats4(w, 4, 3) && RoomOK(w.rooms[0], w.now)
    requires forall i | 0 <= i < 4 :: w.rooms[0].members[i].connection == Connected
    requires w1 == Remembered(w, SetReady(3, true)) && Shaped(w1)
    requires w' == ExecuteLobby(w1, SetReady(3, true), false)
    ensures w' == WithScene(w1, 0, c) && Begins(w.rooms[0], c)
    ensures c.net == BindMatchEach(w.net, Sids(w.rooms[0].members), w.rooms[0].game.generation + 1)
  {
    c := InitGame(Scene(SetReadyFlag(w.rooms[0], 3, true), w.net));
    StartsRoom(w.rooms[0], w.net, w.now, c);
    StartsTo(w, w1, c);
  }

  lemma StartsTo(w: World, w1: World, c: Scene)
    requires Shaped(w) && w1 == Remembered(w, SetReady(3, true)) && Shaped(w1)
    requires Known(w, 3) && w.net.sessions[3].binding.room == 0 && CanSetReady(w.rooms[0], 3)
    requires c == InitGame(Scene(SetReadyFlag(w.rooms[0], 3, true), w.net))
    ensures ExecuteLobby(w1, SetReady(3, true), false) == WithScene(w1, 0, c)
  {
    assert SceneAt(w1, 0).(room := SetReadyFlag(w1.rooms[0], 3, true)) == Scene(SetReadyFlag(w.rooms[0], 3, true), w.net);
  }

  /** A session's lease names the generation of its slot. */
  lemma StartsSeat(w: World, s: int)
    requires WorldOK(w) && 0 <= s < 4 && Known(w, s) && w.net.sessions[s].binding.room == 0
    requires forall i | 0 <= i < 4 :: w.rooms[0].members[i].sid == i
    ensures w.net.sessions[s].binding.lease.memberGeneration == w.rooms[0].members[s].generation
  {
    assert Seated(w.rooms, s, w.net.sessions[s].binding);
  }

  lemma Starts(ws: iset<World>, w: World) returns (w': World)
    requires Gathered(ws, w, 4, 3)
    ensures OnField(ws, w', 0, {}, false)
  {
    assert Known(w, 3);
    w' := ExecuteLobby(Remembered(w, SetReady(3, true)), SetReady(3, true), false);
    AllConnected(w);
    assert RoomOK(w.rooms[0], w.now);
    var c := StartsAs(w, Remembered(w, SetReady(3, true)), w');
    EverybodyPlays(w, w', c);
    AsksQuietly(ws, w, SetReady(3, true), w');
  }

  lemma MatchBegins(ws: iset<World>) returns (w: World)
    requires NoStepLeaves(ws) && Initial(8, 8) in ws
    ensures OnField(ws, w, 0, {}, false)
  {
    w := FourArrive(ws);
    w := Creates(ws, w);
    w := EnterOne(ws, w, 1);
    w := EnterOne(ws, w, 2);
    w := EnterOne(ws, w, 3);
    w := ReadyOne(ws, w, 0);
    w := ReadyOne(ws, w, 1);
    w := ReadyOne(ws, w, 2);
    w := Starts(ws, w);
  }

  // ---- one event, and a tick ----

  lemma PlayersLease(w: World, s: int)
    requires WorldOK(w) && 0 <= s < 4 && Plays0(w, s) && w.rooms[0].status == InGame
    ensures var lease := w.net.sessions[s].binding.lease;
            && IsCurrentLease(w.rooms[0], s, lease) && lease.Matches(lease.memberGeneration, lease.matchGeneration)
  {
    assert RoomOK(w.rooms[0], w.now);
  }

  /** Session `s` has sent an interaction, and it is queued. */
  function Raised(w: World, s: int, id: int): Room
    requires Shaped(w) && s in w.net.sessions
  {
    var r := w.rooms[0];
    r.(game := Schedule(r.game, w.now, s, w.net.sessions[s].binding.lease, Interaction(id)))
  }

  lemma RaisesIt(w: World, s: int, id: int)
    requires Shaped(w) && Found(w.net, s) && w.net.sessions[s].binding.room == 0
    requires var lease := w.net.sessions[s].binding.lease;
             && IsCurrentLease(w.rooms[0], s, lease) && lease.Matches(lease.memberGeneration, lease.matchGeneration)
    ensures ExecuteGame(w, Sent(w, s, EventPacket(id))) == w.(rooms := w.rooms[0 := Raised(w, s, id)])
  {
  }

  lemma Raises(ws: iset<World>, w: World, s: int, id: int) returns (w': World)
    requires Quiet(ws, w) && w.rooms[0].status == InGame && 0 <= s < 4 && Plays0(w, s)
    ensures Quiet(ws, w') && w' == Handled(w, s).(rooms := w.rooms[0 := Raised(w, s, id)])
  {
    PlayersLease(w, s);
    Plays(ws, w, s, EventPacket(id));
    RaisesIt(Handled(w, s), s, id);
    w' := Handled(w, s).(rooms := w.rooms[0 := Raised(w, s, id)]);
    assert forall x :: HandlerOf(w', x) == HandlerOf(w, x);
    StaysQuiet(ws, w, w');
  }

  lemma {:induction false} NoneExpired(members: seq<Member>, now: int)
    requires forall i | 0 <= i < |members| :: members[i].connection == Connected
    ensures Expired(members, now) == []
    decreases |members|
  {
    if members != [] { NoneExpired(members[1..], now); }
  }

  lemma UpdatesIt(w: World, g: Geometry)
    requires Shaped(w) && w.rooms[0].status == InGame
    requires forall i | 0 <= i < 4 :: w.rooms[0].members[i].connection == Connected
    ensures Ticking(w, 0) == w.rooms[0] && UpdateRoom(w, 0, g) == WithScene(w, 0, Play(SceneAt(w, 0), w.now, g))
  {
    NoneExpired(w.rooms[0].members, w.now);
  }

  /** A tick that decides nothing. */
  lemma Ticks(ws: iset<World>, w: World, g: Geometry) returns (w': World)
    requires Quiet(ws, w) && w.rooms[0].status == InGame
    requires forall i | 0 <= i < 4 :: w.rooms[0].members[i].connection == Connected
    requires !Decided(Tick(w.rooms[0], w.now, g).game)
    ensures Quiet(ws, w') && w' == w.(rooms := w.rooms[0 := Tick(w.rooms[0], w.now, g)])
  {
    UpdatesIt(w, g);
    Goes(ws, w, UpdateStep(0, g));
    w' := w.(rooms := w.rooms[0 := Tick(w.rooms[0], w.now, g)]);
    assert WithScene(w, 0, Play(SceneAt(w, 0), w.now, g)) == w';
    assert forall x :: HandlerOf(w', x) == HandlerOf(w, x);
    StaysQuiet(ws, w, w');
  }

  function Lit(m: Match, k: nat): Match
    requires k < |m.generators|
  {
    m.(generators := m.generators[k := m.generators[k].(active := true)], nextSequence := m.nextSequence + 1)
  }

  function Out(m: Match, k: nat): Match
    requires k < |m.players|
  {
    m.(players := m.players[k := m.players[k].(escaped := true)], nextSequence := m.nextSequence + 1)
  }

  /** What the queue makes of the room once session `s` has sent an interaction. */
  lemma OneRuns(r: Room, now: int, s: int, lease: MatchLease, id: int, g: Geometry)
    requires RoomShaped(r) && r.game.queue == [] && r.game.state == Playing && IsCurrentLease(r, s, lease)
    ensures var m := r.game.(nextSequence := r.game.nextSequence + 1);
            RunDue(r.(game := Schedule(r.game, now, s, lease, Interaction(id))), now, g)
            == r.(game := InteractionEffect(m, s, id, g))
  {
    var e := Scheduled(now, r.game.nextSequence, GameEvent(s, lease, Interaction(id)));
    var r' := r.(game := Schedule(r.game, now, s, lease, Interaction(id)));
    assert r'.game.queue == [e] && [e][1..] == [];
    assert IsCurrentLease(r', s, lease);
    var popped := r'.(game := r'.game.(queue := []));
    assert popped.game == r.game.(nextSequence := r.game.nextSequence + 1);
    var r1 := popped.(game := Effect(popped.game, s, Interaction(id), g));
    assert RunDue(r', now, g) == RunDue(r1, now, g);
    InteractionKeepsQueue(popped.game, s, id, g);
    assert RunDue(r1, now, g) == r1;
  }

  lemma InteractionKeepsQueue(m: Match, s: int, id: int, g: Geometry)
    requires |m.players| == PLAYERNUM && |m.generators| == GENCNT
    ensures InteractionEffect(m, s, id, g).queue == m.queue
  {
  }

  lemma LightRuns(r: Room, now: int, s: int, lease: MatchLease, k: nat, g: Geometry)
    requires RoomShaped(r) && r.game.queue == [] && r.game.state == Playing && IsCurrentLease(r, s, lease) && k < 3
    ensures RunDue(r.(game := Schedule(r.game, now, s, lease, Interaction(8 + k))), now, g) == r.(game := Lit(r.game, k))
  {
    OneRuns(r, now, s, lease, 8 + k, g);
  }

  lemma EscapeRuns(r: Room, now: int, s: int, lease: MatchLease, k: nat, g: Geometry)
    requires RoomShaped(r) && r.game.queue == [] && r.game.state == Playing && IsCurrentLease(r, s, lease) && k < 4
    ensures RunDue(r.(game := Schedule(r.game, now, s, lease, Interaction(32 + k))), now, g) == r.(game := Out(r.game, k))
  {
    OneRuns(r, now, s, lease, 32 + k, g);
  }

  /** Two players escape in the same tick. */
  lemma TwoEscape(r: Room, now: int, s: int, t: int, a: MatchLease, b: MatchLease, j: nat, k: nat, g: Geometry)
    requires RoomShaped(r) && r.game.queue == [] && r.game.state == Playing && j < 4 && k < 4
    requires IsCurrentLease(r, s, a) && IsCurrentLease(r, t, b)
    ensures var m := Schedule(Schedule(r.game, now, s, a, Interaction(32 + j)), now, t, b, Interaction(32 + k));
            RunDue(r.(game := m), now, g) == r.(game := Out(Out(r.game, j), k))
  {
    var n := r.game.nextSequence;
    var e := Scheduled(now, n, GameEvent(s, a, Interaction(32 + j)));
    var f := Scheduled(now, n + 1, GameEvent(t, b, Interaction(32 + k)));
    TwoQueued(r, e, f);
    var r0 := r.(game := r.game.(queue := [e, f], nextSequence := n + 2));
    FirstEscapes(r0, now, e, [f], j, g);
    var r1 := Freed(r0, j, [f]);
    FirstEscapes(r1, now, f, [], k, g);
    var r2 := Freed(r1, k, []);
    assert RunDue(r2, now, g) == r2;
    assert r2 == r.(game := Out(Out(r.game, j), k));
  }

  /** What a tick makes of a room once its queue has run. */
  lemma TickIs(r: Room, now: int, g: Geometry, m: Match)
    requires RoomShaped(r) && r.game.state == Playing && RunDue(r, now, g) == r.(game := m)
    ensures Tick(r, now, g) == r.(game := FinishTick(m, g))
  {
  }

  lemma TwoQueued(r: Room, e: QueueEvent, f: QueueEvent)
    requires r.game.queue == [] && Before(e, f)
    ensures Insert(Insert(r.game.queue, e), f) == [e, f]
  {
  }

  /** The room after player `k` has escaped, with the events `rest` still to run. */
  function Freed(r: Room, k: nat, rest: seq<QueueEvent>): Room
    requires k < |r.game.players|
  {
    r.(game := r.game.(players := r.game.players[k := r.game.players[k].(escaped := true)], queue := rest))
  }

  lemma FirstEscapes(r: Room, now: int, e: QueueEvent, rest: seq<QueueEvent>, k: nat, g: Geometry)
    requires RoomShaped(r) && r.game.queue == [e] + rest && e.time <= now && IsCurrentLease(r, e.task.sid, e.task.lease)
    requires k < 4 && e.task.kind == Interaction(32 + k)
    ensures RunDue(r, now, g) == RunDue(Freed(r, k, rest), now, g)
    ensures forall s, lease :: IsCurrentLease(r, s, lease) ==> IsCurrentLease(Freed(r, k, rest), s, lease)
  {
    assert r.game.queue[1..] == rest;
  }

  // ---- who is down and who is out ----

  lemma PlacedCounts(m: Match, lit: nat, out: set<int>, left: bool)
    requires Placed(m, lit, out, left)
    ensures Crawlers(m.players) == if left then 1 else 0
    ensures Escapees(m.players) == (if 0 in out then 1 else 0) + (if 1 in out then 1 else 0)
                                   + (if 2 in out then 1 else 0) + (if 3 in out then 1 else 0)
  {
    var ps := m.players;
    assert ps == [ps[0], ps[1], ps[2], ps[3]];
    CountsOfFour(ps[0], ps[1], ps[2], ps[3]);
  }

  lemma LitIsPlaced(m: Match, k: nat, out: set<int>, left: bool)
    requires Placed(m, k, out, left) && k < 3
    ensures Placed(Lit(m, k), k + 1, out, left)
  {
  }

  lemma OutIsPlaced(m: Match, lit: nat, out: set<int>, left: bool, k: nat)
    requires Placed(m, lit, out, left) && k < 4
    ensures Placed(Out(m, k), lit, out + {k}, left)
  {
  }

  /** Movement and collisions change nobody's part in the match. */
  lemma MovingIsPlaced(m: Match, lit: nat, out: set<int>, left: bool, g: Geometry)
    requires Placed(m, lit, out, left)
    ensures Placed(Advanced(m), lit, out, left) && Placed(LateUpdate(m, g), lit, out, left)
  {
  }

  /** How a match stands after the rest of a tick. */
  lemma Finishes(m: Match, lit: nat, out: set<int>, left: bool, g: Geometry)
    requires Placed(m, lit, out, left) && lit <= 3 && m.state == Playing && (m.exitReady ==> lit == 3)
    ensures var m' := FinishTick(m, g);
            && Standing(m', lit, out, left) && m'.queue == m.queue && m'.generation == m.generation
            && m'.state == if Escapees(m.players) + (if left then 1 else 0) == 3 && lit == 3 then EmpWin else Playing
  {
    var m1 := Advanced(m);
    MovingIsPlaced(m, lit, out, left, g);
    MovingIsPlaced(m1, lit, out, left, g);
    PlacedCounts(m, lit, out, left);
    PlacedCounts(LateUpdate(m1, g), lit, out, left);
    LitUp(m, lit, out, left);
  }

  lemma LitUp(m: Match, lit: nat, out: set<int>, left: bool)
    requires Placed(m, lit, out, left) && lit <= 3
    ensures AllActive(m.generators) <==> lit == 3
  {
    assert m.generators[2].active == (2 < lit);
  }

  // ---- the runs ----

  lemma AllUp(ws: iset<World>, w: World, lit: nat, out: set<int>, left: bool)
    requires OnField(ws, w, lit, out, left)
    ensures w.rooms[0].game.state == Playing
    ensures forall i | 0 <= i < 4 :: w.rooms[0].members[i].connection == Connected
  {
    assert RoomOK(w.rooms[0], w.now);
    forall i | 0 <= i < 4 ensures w.rooms[0].members[i].connection == Connected {
      if left && i == 1 { assert SlotOK(w.rooms[0].members[1]); } else { assert Plays0(w, i); }
    }
  }

  /** Only the match has changed, and it is the same match: everybody still plays. */
  lemma PlayGoesOn(ws: iset<World>, w: World, w': World, lit: nat, out: set<int>, left: bool, lit': nat, out': set<int>)
    requires OnField(ws, w, lit, out, left) && Quiet(ws, w') && w'.net == w.net
    requires w'.rooms[0] == w.rooms[0].(game := w'.rooms[0].game)
    requires w'.rooms[0].game.generation == w.rooms[0].game.generation && w'.rooms[0].game.queue == []
    requires Standing(w'.rooms[0].game, lit', out', left)
    ensures OnField(ws, w', lit', out', left)
  {
    forall s | 0 <= s < 4 && !(left && s == 1) ensures Plays0(w', s) {
      assert Plays0(w, s);
    }
  }

  /** An interaction by employee 1, once it has run, leaves the match on, as `lit` and `out` say. */
  ghost predicate TicksTo(r: Room, now: int, lease: MatchLease, id: int, g: Geometry, lit: nat, out: set<int>)
    requires RoomShaped(r)
  {
    var r' := Tick(r.(game := Schedule(r.game, now, 1, lease, Interaction(id))), now, g);
    && r' == r.(game := r'.game) && r'.game.generation == r.game.generation && r'.game.queue == []
    && r'.game.state == Playing && Standing(r'.game, lit, out, false)
  }

  /** Employee 1 sends an interaction, and a tick follows. */
  lemma OneEvent(ws: iset<World>, w: World, id: int, g: Geometry, lit: nat, out: set<int>, lit': nat, out': set<int>)
    returns (w': World)
    requires OnField(ws, w, lit, out, false) && 1 in w.net.sessions
    requires TicksTo(w.rooms[0], w.now, w.net.sessions[1].binding.lease, id, g, lit', out')
    ensures OnField(ws, w', lit', out', false)
  {
    AllUp(ws, w, lit, out, false);
    assert Plays0(w, 1);
    var w1 := Raises(ws, w, 1, id);
    w' := Ticks(ws, w1, g);
    PlayGoesOn(ws, w, w', lit, out, false, lit', out');
  }

  lemma LightTicks(r: Room, now: int, lease: MatchLease, k: nat, g: Geometry)
    requires RoomShaped(r) && r.game.queue == [] && r.game.state == Playing && IsCurrentLease(r, 1, lease)
    requires Standing(r.game, k, {}, false) && k < 3
    ensures TicksTo(r, now, lease, 8 + k, g, k + 1, {})
  {
    LightRuns(r, now, 1, lease, k, g);
    TickIs(r.(game := Schedule(r.game, now, 1, lease, Interaction(8 + k))), now, g, Lit(r.game, k));
    LitIsPlaced(r.game, k, {}, false);
    PlacedCounts(r.game, k, {}, false);
    Finishes(Lit(r.game, k), k + 1, {}, false, g);
  }

  /** Employee 1 lights generator `k`. */
  lemma LightsUp(ws: iset<World>, w: World, k: nat, g: Geometry) returns (w': World)
    requires OnField(ws, w, k, {}, false) && k < 3
    ensures OnField(ws, w', k + 1, {}, false)
  {
    AllUp(ws, w, k, {}, false);
    assert Plays0(w, 1);
    PlayersLease(w, 1);
    LightTicks(w.rooms[0], w.now, w.net.sessions[1].binding.lease, k, g);
    w' := OneEvent(ws, w, 8 + k, g, k, {}, k + 1, {});
  }

  lemma OutTicks(r: Room, now: int, lease: MatchLease, g: Geometry)
    requires RoomShaped(r) && r.game.queue == [] && r.game.state == Playing && IsCurrentLease(r, 1, lease)
    requires Standing(r.game, 3, {}, false)
    ensures TicksTo(r, now, lease, 33, g, 3, {1})
  {
    EscapeRuns(r, now, 1, lease, 1, g);
    var m := Out(r.game, 1);
    TickIs(r.(game := Schedule(r.game, now, 1, lease, Interaction(33))), now, g, m);
    OutIsPlaced(r.game, 3, {}, false, 1);
    assert {} + {1} == {1};
    PlacedCounts(m, 3, {1}, false);
    Finishes(m, 3, {1}, false, g);
  }

  /** Employee 1 escapes. */
  lemma GetsOut(ws: iset<World>, w: World, g: Geometry) returns (w': World)
    requires OnField(ws, w, 3, {}, false)
    ensures OnField(ws, w', 3, {1}, false)
  {
    AllUp(ws, w, 3, {}, false);
    assert Plays0(w, 1);
    PlayersLease(w, 1);
    OutTicks(w.rooms[0], w.now, w.net.sessions[1].binding.lease, g);
    w' := OneEvent(ws, w, 33, g, 3, {}, 3, {1});
  }

  lemma LeavesIt(r: Room, n: Net)
    requires RoomShaped(r) && r.status == InGame && r.game.state == Playing && Standing(r.game, 3, {1}, false)
    requires forall i | 0 <= i < 4 :: r.members[i].sid == i
    ensures var c := UserOut(Scene(r, n), 1);
            && c.room == r.(members := r.members[1 := Vacated(r.members[1])], count := c.room.count, game := c.room.game)
            && c.net == ClearFound(n, 1)
            && c.room.game.generation == r.game.generation && c.room.game.queue == r.game.queue
            && Standing(c.room.game, 3, {1}, true)
  {
    assert r.members[1].sid == 1 && r.members[0].sid == 0;
    assert IndexOf(r.members, 1) == 1;
    assert r.game.players[1].sid == 1 && r.game.players[0].sid == 0;
    assert FindPlayer(r.game.players, 1) == 1;
  }

  /** Employee 1's Exit, as far as the session table and the room go. */
  ghost predicate HasLeft(w: World, w': World) {
    && Shaped(w) && Shaped(w') && w'.net == ClearFound(Gone(w, 1).net, 1) && w'.handlers == Gone(w, 1).handlers
    && w'.batch == w.batch && w'.game == w.game && w'.gameBatch == w.gameBatch && w'.gameCapacity == w.gameCapacity
    && w'.rooms[0] == w.rooms[0].(members := w.rooms[0].members[1 := Vacated(w.rooms[0].members[1])],
                                  count := w'.rooms[0].count, game := w'.rooms[0].game)
    && w'.rooms[0].game.generation == w.rooms[0].game.generation
    && w'.rooms[0].game.queue == w.rooms[0].game.queue
    && Standing(w'.rooms[0].game, 3, {1}, true)
  }

  lemma ExitsIt(w: World, w1: World)
    requires Shaped(w) && w.rooms[0].status == InGame && w.rooms[0].game.state == Playing
    requires Standing(w.rooms[0].game, 3, {1}, false)
    requires forall i | 0 <= i < 4 :: w.rooms[0].members[i].sid == i
    requires w1 == Remembered(Gone(w, 1), Exit(1, 0))
    ensures HasLeft(w, ExecuteLobby(w1, Exit(1, 0), false))
  {
    LeavesIt(w.rooms[0], w1.net);
  }

  lemma Departs(ws: iset<World>, w: World) returns (w': World)
    requires OnField(ws, w, 3, {1}, false)
    ensures Real(ws, w') && HasLeft(w, w')
  {
    AllUp(ws, w, 3, {1}, false);
    forall i | 0 <= i < 4 ensures w.rooms[0].members[i].sid == i { assert Plays0(w, i); }
    assert Plays0(w, 1);
    Exits(ws, w, 1, 0);
    var w1 := Remembered(Gone(w, 1), Exit(1, 0));
    ExitsIt(w, w1);
    w' := ExecuteLobby(w1, Exit(1, 0), false);
  }

  lemma StillPlay(ws: iset<World>, w: World, w': World)
    requires OnField(ws, w, 3, {1}, false) && Quiet(ws, w') && HasLeft(w, w')
    ensures OnField(ws, w', 3, {1}, true)
  {
    forall s | 0 <= s < 4 && s != 1 ensures Plays0(w', s) {
      assert Plays0(w, s);
    }
  }

  /** Employee 1 leaves the room. */
  lemma Leaves(ws: iset<World>, w: World) returns (w': World)
    requires OnField(ws, w, 3, {1}, false)
    ensures OnField(ws, w', 3, {1}, true)
  {
    w' := Departs(ws, w);
    assert forall x :: HandlerOf(w', x) == HandlerOf(w, x);
    StaysQuiet(ws, w, w');
    StillPlay(ws, w, w');
  }

  lemma {:induction false} LitUpTo(ws: iset<World>, g: Geometry, k: nat) returns (w: World)
    requires NoStepLeaves(ws) && Initial(8, 8) in ws && k <= 3
    ensures OnField(ws, w, k, {}, false)
  {
    if k == 0 {
      w := MatchBegins(ws);
    } else {
      w := LitUpTo(ws, g, k - 1);
      w := LightsUp(ws, w, k - 1, g);
    }
  }

  /** Three generators are lit, employee 1 has escaped and left, and employees 2 and 3 play on. */
  lemma OneHasLeft(ws: iset<World>, g: Geometry) returns (w: World)
    requires NoStepLeaves(ws) && Initial(8, 8) in ws
    ensures OnField(ws, w, 3, {1}, true)
  {
    w := LitUpTo(ws, g, 3);
    w := GetsOut(ws, w, g);
    w := Leaves(ws, w);
  }

  /** Nobody but employee 1 and those in `out` is down or out. */
  lemma StandingDone(m: Match, lit: nat, out: set<int>)
    requires Standing(m, lit, out + {1}, true) && out <= {2, 3}
    ensures Done(m.players) == 1 + |out| && Twice(m.players) == 1
  {
    var ps := m.players;
    assert ps == [ps[0], ps[1], ps[2], ps[3]];
    DoneOfFour(ps[0], ps[1], ps[2], ps[3]);
    if 2 in out && 3 in out { assert out == {2, 3}; }
    else if 2 in out { assert out == {2}; }
    else if 3 in out { assert out == {3}; }
    else { assert out == {}; }
  }

  /** Employee `s` may act. */
  lemma MayAct(ws: iset<World>, w: World, s: int)
    requires OnField(ws, w, 3, {1}, true) && 2 <= s <= 3
    ensures Plays0(w, s) && w.rooms[0].game.state == Playing && IsCurrentLease(w.rooms[0], s, w.net.sessions[s].binding.lease)
    ensures forall i | 0 <= i < 4 :: w.rooms[0].members[i].connection == Connected
  {
    AllUp(ws, w, 3, {1}, true);
    assert Plays0(w, s);
    PlayersLease(w, s);
  }

  lemma TooSoonTick(r: Room, now: int, lease: MatchLease, g: Geometry)
    requires RoomShaped(r) && r.game.queue == [] && r.game.state == Playing && IsCurrentLease(r, 2, lease)
    requires Standing(r.game, 3, {1}, true)
    ensures var m := Tick(r.(game := Schedule(r.game, now, 2, lease, Interaction(34))), now, g).game;
            m.state == EmpWin && Done(m.players) == 2 && !Down(m.players[3]) && !m.players[3].escaped
  {
    EscapeRuns(r, now, 2, lease, 2, g);
    var m := Out(r.game, 2);
    TickIs(r.(game := Schedule(r.game, now, 2, lease, Interaction(34))), now, g, m);
    OutIsPlaced(r.game, 3, {1}, true, 2);
    assert {1} + {2} == {2} + {1};
    PlacedCounts(m, 3, {2} + {1}, true);
    Finishes(m, 3, {2} + {1}, true, g);
    StandingDone(FinishTick(m, g), 3, {2});
  }

  /** An update with one event queued that decides the match ends it. */
  lemma ClosesIt(w: World, g: Geometry)
    requires WorldOK(w) && w.rooms[0].status == InGame
    requires forall i | 0 <= i < 4 :: w.rooms[0].members[i].connection == Connected
    requires Decided(Tick(w.rooms[0], w.now, g).game)
    ensures Ticking(w, 0) == w.rooms[0] && UpdateRoom(w, 0, g).rooms[0].status == Empty
  {
    UpdatesIt(w, g);
    TickKeepsRoom(w.rooms[0], w.now, g);
    CloseEmptiesRoom(SceneAt(w, 0).(room := Tick(w.rooms[0], w.now, g)), w.now);
  }

  lemma EndsIn(ws: iset<World>, g: Geometry) returns (w: World)
    requires NoStepLeaves(ws) && Initial(8, 8) in ws
    ensures w in ws && Shaped(w) && Enabled(w, UpdateStep(0, g))
    ensures w.rooms[0].status == InGame && Apply(w, UpdateStep(0, g)).rooms[0].status == Empty
    ensures var m := Tick(Ticking(w, 0), w.now, g).game;
            && m.state == EmpWin && Done(m.players) == 2
            && Filled(w.rooms[0].members[3]) && !Down(m.players[3]) && !m.players[3].escaped
  {
    var w0 := OneHasLeft(ws, g);
    MayAct(ws, w0, 2);
    MayAct(ws, w0, 3);
    TooSoonTick(w0.rooms[0], w0.now, w0.net.sessions[2].binding.lease, g);
    w := Raises(ws, w0, 2, 34);
    ClosesIt(w, g);
  }

  /**
   * Employee 2 escapes, and the update ends the match, with employee 3 neither down nor out: only two are done, but
   * employee 1 counts twice.
   */
  lemma EndsTooSoon(g: Geometry) returns (w: World)
    ensures Reachable(w) && Shaped(w) && Enabled(w, UpdateStep(0, g))
    ensures w.rooms[0].status == InGame && Apply(w, UpdateStep(0, g)).rooms[0].status == Empty
    ensures var m := Tick(Ticking(w, 0), w.now, g).game;
            && m.state == EmpWin && Done(m.players) == 2
            && Filled(w.rooms[0].members[3]) && !Down(m.players[3]) && !m.players[3].escaped
  {
    var ws := ReachableWorlds();
    w := EndsIn(ws, g);
  }

  lemma TooLateTick(r: Room, now: int, a: MatchLease, b: MatchLease, g: Geometry)
    requires RoomShaped(r) && r.game.queue == [] && r.game.state == Playing
    requires IsCurrentLease(r, 2, a) && IsCurrentLease(r, 3, b) && Standing(r.game, 3, {1}, true)
    ensures var m := Schedule(Schedule(r.game, now, 2, a, Interaction(34)), now, 3, b, Interaction(35));
            var r' := Tick(r.(game := m), now, g);
            var m' := r'.game;
            && r' == r.(game := m') && m'.state == Playing
            && Standing(m', 3, {2, 3} + {1}, true) && Done(m'.players) == 3
  {
    TwoEscape(r, now, 2, 3, a, b, 2, 3, g);
    var m := Out(Out(r.game, 2), 3);
    TickIs(r.(game := Schedule(Schedule(r.game, now, 2, a, Interaction(34)), now, 3, b, Interaction(35))), now, g, m);
    OutIsPlaced(r.game, 3, {1}, true, 2);
    OutIsPlaced(Out(r.game, 2), 3, {1} + {2}, true, 3);
    assert {1} + {2} + {3} == {2, 3} + {1};
    PlacedCounts(m, 3, {2, 3} + {1}, true);
    Finishes(m, 3, {2, 3} + {1}, true, g);
    StandingDone(FinishTick(m, g), 3, {2, 3});
  }

  /** Employees 2 and 3 have both sent word of their escape. */
  lemma BothRaise(ws: iset<World>, w: World) returns (w': World)
    requires OnField(ws, w, 3, {1}, true)
    ensures Quiet(ws, w') && w'.now == w.now
    ensures 2 in w.net.sessions && 3 in w.net.sessions
    ensures var a, b := w.net.sessions[2].binding.lease, w.net.sessions[3].binding.lease;
            var m := Schedule(Schedule(w.rooms[0].game, w.now, 2, a, Interaction(34)), w.now, 3, b, Interaction(35));
            w'.rooms == w.rooms[0 := w.rooms[0].(game := m)]
  {
    assert Plays0(w, 2) && Plays0(w, 3);
    var w1 := Raises(ws, w, 2, 34);
    w' := Raises(ws, w1, 3, 35);
  }

  /** An update that decides nothing leaves the match on. */
  lemma GoesOnIt(w: World, g: Geometry)
    requires Shaped(w) && w.rooms[0].status == InGame
    requires forall i | 0 <= i < 4 :: w.rooms[0].members[i].connection == Connected
    requires !Decided(Tick(w.rooms[0], w.now, g).game)
    ensures Apply(w, UpdateStep(0, g)).rooms[0] == Tick(w.rooms[0], w.now, g)
  {
    UpdatesIt(w, g);
  }

  lemma GoesOnIn(ws: iset<World>, g: Geometry) returns (w: World)
    requires NoStepLeaves(ws) && Initial(8, 8) in ws
    ensures w in ws && Shaped(w) && Enabled(w, UpdateStep(0, g)) && w.rooms[0].status == InGame
    ensures var r := Apply(w, UpdateStep(0, g)).rooms[0];
            && r.status == InGame && r.game.state == Playing && r.game.exitReady && Done(r.game.players) == 3
            && r.game.players[1].escaped && r.game.players[2].escaped && r.game.players[3].escaped
  {
    var w0 := OneHasLeft(ws, g);
    MayAct(ws, w0, 2);
    MayAct(ws, w0, 3);
    TooLateTick(w0.rooms[0], w0.now, w0.net.sessions[2].binding.lease, w0.net.sessions[3].binding.lease, g);
    w := BothRaise(ws, w0);
    GoesOnIt(w, g);
  }

  /** Employees 2 and 3 escape in one tick, all employees are out, and the match goes on: four are counted. */
  lemma DoesNotEnd(g: Geometry) returns (w: World)
    ensures Reachable(w) && Shaped(w) && Enabled(w, UpdateStep(0, g)) && w.rooms[0].status == InGame
    ensures var r := Apply(w, UpdateStep(0, g)).rooms[0];
            && r.status == InGame && r.game.state == Playing && r.game.exitReady && Done(r.game.players) == 3
            && r.game.players[1].escaped && r.game.players[2].escaped && r.game.players[3].escaped
  {
    var ws := ReachableWorlds();
    w := GoesOnIn(ws, g);
  }
}
