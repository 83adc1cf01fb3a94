/** Nothing of one match reaches the next, and a match's events run in the order they arrived. */
module MatchIsolation {
  import opened RoomCommand
  import opened SessionSpec
  import opened Scheduler
  import opened MatchSpec
  import opened RoomSpec
  import opened Protocol
  import opened RoomInvariant
  import opened ServerInvariant
  import opened ServerSteps
  import opened ResumeExpiry
  import opened WorldRewinder

  /** The boss starts at x = 0, the employees at 10, 15 and 20, all on the line z = -18 and looking along z. */
  predicate AtStart(p: Player, i: nat) {
    p.body.pos == Pos(if i == 0 then 0.0 else 5.0 * (i + 1) as real, -18.0) && p.body.look == Direction(0.0, 1.0)
  }

  /** A match that ends leaves an empty room whose four slots all carry a new generation. */
  ghost predicate Closed(a: Room, b: Room)
    requires RoomShaped(a) && RoomShaped(b)
  {
    && b.status == Empty && b.count == 0 && Restored(b.game) && (forall i | 0 <= i < PLAYERNUM :: AtStart(b.game.players[i], i))
    && forall i | 0 <= i < PLAYERNUM :: !Filled(b.members[i]) && b.members[i].generation > a.members[i].generation
  }

  /** A match that starts finds four members, and nothing left over. */
  ghost predicate Begun(a: Room, b: Room)
    requires RoomShaped(a) && RoomShaped(b)
  {
    && a.status == Full && a.count == PLAYERNUM
    && (forall i | 0 <= i < PLAYERNUM :: Filled(a.members[i]) && b.members[i].sid == a.members[i].sid)
    && b.game.generation == a.game.generation + 1
    && b.game.queue == [] && b.game.history == [] && b.game.phase == 0 && !b.game.exitReady
    && (forall k | 0 <= k < GENCNT :: !b.game.generators[k].active && !b.game.generators[k].onInteraction)
    && forall i | 0 <= i < PLAYERNUM ::
         var p := b.game.players[i];
         && p.sid == a.members[i].sid && p.idx == i
         && p.hp == 3 && p.behavior == Idle && !p.hide && !p.escaped && p.velocity == Direction(0.0, 0.0)
         && AtStart(p, i) && p.body.height == 0.0
  }

  /** Whatever one step does to a room, matches start and end only like this. */
  ghost predicate Turn(a: Room, b: Room)
    requires RoomShaped(a) && RoomShaped(b)
  {
    && (a.status == InGame && b.status != InGame ==> Closed(a, b))
    && (a.status != InGame && b.status == InGame ==> Begun(a, b))
  }

  lemma UserOutTurn(c: Scene, sid: int, now: int)
    requires RoomOK(c.room, now) && sid != -1
    ensures Turn(c.room, UserOut(c, sid).room)
  {
    var i := IndexOf(c.room.members, sid);
    if i >= 0 && c.room.status == InGame { PlayerLeftCoupled(c.room, i); }
  }

  lemma {:induction false} NobodyLeft(c: Scene, sids: seq<int>)
    requires forall i | 0 <= i < |c.room.members| :: !Filled(c.room.members[i])
    ensures UserOutEach(c, sids).room == c.room
    decreases |sids|
  {
    if sids != [] { NobodyLeft(if sids[0] != -1 then UserOut(c, sids[0]) else c, sids[1..]); }
  }

  lemma {:induction false} ExpiryTurn(c: Scene, sids: seq<int>, now: int)
    requires RoomOK(c.room, now) && c.room.status == InGame
    ensures Turn(c.room, UserOutEach(c, sids).room)
    decreases |sids|
  {
    if sids != [] {
      var c' := if sids[0] != -1 then UserOut(c, sids[0]) else c;
      if sids[0] != -1 {
        UserOutTurn(c, sids[0], now);
        UserOutKeepsRoom(c, sids[0], now);
      }
      if c'.room.status == InGame {
        ExpiryTurn(c', sids[1..], now);
        assert forall i | 0 <= i < PLAYERNUM :: Stamped(c.room.members[i], c'.room.members[i]);
      } else {
        NobodyLeft(c', sids[1..]);
      }
    }
  }

  /** The last departure of a decided match renews every slot, also those already free. */
  lemma {:induction false} ClosingRenews(c: Scene, sids: seq<int>, k: nat)
    requires Closing(c.room, k) && c.room.count > 0
    requires |sids| == PLAYERNUM - k
    requires forall i | k <= i < PLAYERNUM :: sids[i - k] == c.room.members[i].sid
    ensures forall i | 0 <= i < PLAYERNUM ::
              UserOutEach(c, sids).room.members[i].generation > c.room.members[i].generation
    decreases |sids|
  {
    if sids != [] {
      var c' := if sids[0] != -1 then UserOut(c, sids[0]) else c;
      if sids[0] != -1 {
        assert SlotOK(c.room.members[k]);
        assert IndexOf(c.room.members, sids[0]) == k;
        OccupiedAfter(c.room.members, k, Vacated(c.room.members[k]));
      }
      if c'.room.count > 0 {
        ClosingRenews(c', sids[1..], k + 1);
      } else {
        NobodyLeft(c', sids[1..]);
      }
    }
  }

  lemma PlayTurn(c: Scene, now: int, g: Geometry)
    requires RoomOK(c.room, now)
    ensures Turn(c.room, Play(c, now, g).room)
    ensures c.room.status != InGame ==> Play(c, now, g) == c
  {
    if c.room.status == InGame {
      TickKeepsRoom(c.room, now, g);
      var c' := c.(room := Tick(c.room, now, g));
      if Decided(c'.room.game) {
        CloseEmptiesRoom(c', now);
        ClosingRenews(c'.(room := c'.room.(status := Full)), Sids(c'.room.members), 0);
      }
    }
  }

  lemma UpdateTurn(c: Scene, now: int, g: Geometry)
    requires RoomOK(c.room, now)
    ensures Turn(c.room, Update(c, now, g).room)
  {
    if c.room.status == InGame {
      var sids := Expired(c.room.members, now);
      var c1 := ExpireReconnects(c, now);
      ExpiryTurn(c, sids, now);
      UserOutEachKeepsRoom(c, sids, now);
      PlayTurn(c1, now, g);
      assert forall i | 0 <= i < PLAYERNUM :: Stamped(c.room.members[i], c1.room.members[i]);
    }
  }

  lemma InitGameTurn(c: Scene, now: int)
    requires RoomOK(c.room, now) && (c.room.status == Full || c.room.status == NotFull)
    ensures Turn(c.room, InitGame(c).room)
  {
    InitGameKeepsRoom(c, now);
    if AllReady(c.room.members) {
      forall i | 0 <= i < PLAYERNUM ensures Blank(c.room.game.players[i]) {}
    }
  }

  lemma SetReadyTurn(w: World, sid: int, ready: bool, r: int)
    requires WorldOK(w) && IsValidRoom(r) && sid in w.net.sessions
    ensures Turn(w.rooms[r], SetReadyCommand(w, sid, ready).rooms[r])
  {
    if Found(w.net, sid) && w.net.sessions[sid].binding.room == r {
      var x := SceneAt(w, r).(room := SetReadyFlag(w.rooms[r], sid, ready));
      SetReadyKeepsRoom(SceneAt(w, r), sid, ready, w.now);
      if CanSetReady(w.rooms[r], sid) { InitGameTurn(x, w.now); }
    }
  }

  lemma {:induction false} CreateTurn(w: World, sid: int, r: int, from: nat := 0)
    requires Shaped(w) && from <= ROOM_CAPACITY && IsValidRoom(r)
    ensures var b := CreateFrom(w, sid, from).rooms[r];
            b == w.rooms[r] || (w.rooms[r].status != InGame && b.status != InGame && b.game == w.rooms[r].game)
    decreases ROOM_CAPACITY - from
  {
    if from < ROOM_CAPACITY { CreateTurn(w, sid, r, from + 1); }
  }

  lemma {:induction false} ResumeTurn(w: World, sid: int, token: nat, r: int, from: nat := 0)
    requires Shaped(w) && from <= ROOM_CAPACITY && IsValidRoom(r)
    ensures var b := ResumeFrom(w, sid, token, from).rooms[r];
            b.status == w.rooms[r].status && b.game == w.rooms[r].game.(players := b.game.players)
    decreases ROOM_CAPACITY - from
  {
    if from < ROOM_CAPACITY { ResumeTurn(w, sid, token, r, from + 1); }
  }

  lemma DisconnectTurn(w: World, sid: int, token: nat, r: int)
    requires WorldOK(w) && IsValidRoom(r) && sid in w.net.sessions
    ensures Turn(w.rooms[r], DisconnectUpTo(w, sid, token, ROOM_CAPACITY).rooms[r])
  {
    DisconnectRooms(w, sid, token, ROOM_CAPACITY, r);
    UserOutTurn(SceneAt(w, r), sid, w.now);
  }

  lemma EnterTurn(w: World, sid: int, room: int, r: int)
    requires Shaped(w) && IsValidRoom(r)
    ensures EnterRoom(w, sid, room).rooms[r].status == w.rooms[r].status
            || (w.rooms[r].status != InGame && EnterRoom(w, sid, room).rooms[r].status != InGame)
  {
  }

  lemma ExitTurn(w: World, sid: int, room: int, r: int)
    requires WorldOK(w) && IsValidRoom(r) && sid in w.net.sessions
    ensures Turn(w.rooms[r], ExitRoom(w, sid, room).rooms[r])
  {
    UserOutTurn(SceneAt(w, r), sid, w.now);
  }

  lemma CommandTurn(w: World, c: LobbyCommand, sendFails: bool, r: int)
    requires WorldOK(w) && CommandKnown(c, w.net) && IsValidRoom(r)
    ensures Turn(w.rooms[r], ExecuteLobby(w, c, sendFails).rooms[r])
  {
    if c.Create? {
      CreateTurn(w, c.sid, r);
    } else if c.Enter? {
      EnterTurn(w, c.sid, c.room, r);
    } else if c.SetReady? {
      SetReadyTurn(w, c.sid, c.ready, r);
    } else if c.Exit? {
      ExitTurn(w, c.sid, c.room, r);
    } else if c.Disconnected? {
      DisconnectTurn(w, c.sid, c.token, r);
    } else if c.Resume? {
      ResumeTurn(w, c.sid, c.token, r);
    }
  }

  lemma LobbyCommandTurn(w: World, sendFails: bool, r: int)
    requires WorldOK(w) && w.batch != [] && IsValidRoom(r)
    ensures Turn(w.rooms[r], Apply(w, LobbyCommandStep(sendFails)).rooms[r])
  {
    assert CommandKnown(w.batch[0], w.net);
    CommandTurn(Popped(w), w.batch[0], sendFails, r);
  }

  /** Only the readiness of the last of four members starts a match. */
  ghost predicate Readied(w: World, s: Step, r: int)
    requires Shaped(w) && IsValidRoom(r)
  {
    && s.LobbyCommandStep? && w.batch != [] && w.batch[0].SetReady? && w.batch[0].ready
    && forall i | 0 <= i < PLAYERNUM :: w.rooms[r].members[i].ready || w.rooms[r].members[i].sid == w.batch[0].sid
  }

  lemma SetReadyStarts(w: World, sid: int, ready: bool, r: int)
    requires WorldOK(w) && IsValidRoom(r) && sid in w.net.sessions
    requires w.rooms[r].status != InGame && SetReadyCommand(w, sid, ready).rooms[r].status == InGame
    ensures ready && forall i | 0 <= i < PLAYERNUM :: w.rooms[r].members[i].ready || w.rooms[r].members[i].sid == sid
  {
    var room := SetReadyFlag(w.rooms[r], sid, ready);
    assert AllReady(room.members);
    forall i | 0 <= i < PLAYERNUM ensures w.rooms[r].members[i].ready || w.rooms[r].members[i].sid == sid {
      assert room.members[i].ready;
    }
  }

  /** No other command than SetReady starts a match. */
  lemma OthersStartNothing(w: World, c: LobbyCommand, sendFails: bool, r: int)
    requires WorldOK(w) && CommandKnown(c, w.net) && IsValidRoom(r) && !c.SetReady?
    ensures ExecuteLobby(w, c, sendFails).rooms[r].status == InGame ==> w.rooms[r].status == InGame
  {
    if c.Create? {
      CreateTurn(w, c.sid, r);
    } else if c.Enter? {
      EnterTurn(w, c.sid, c.room, r);
    } else if c.Disconnected? {
      DisconnectRooms(w, c.sid, c.token, ROOM_CAPACITY, r);
    } else if c.Resume? {
      ResumeTurn(w, c.sid, c.token, r);
    }
  }

  lemma CommandStarts(w: World, c: LobbyCommand, sendFails: bool, r: int)
    requires WorldOK(w) && CommandKnown(c, w.net) && IsValidRoom(r)
    requires w.rooms[r].status != InGame && ExecuteLobby(w, c, sendFails).rooms[r].status == InGame
    ensures c.SetReady? && c.ready
    ensures forall i | 0 <= i < PLAYERNUM :: w.rooms[r].members[i].ready || w.rooms[r].members[i].sid == c.sid
  {
    if c.SetReady? { SetReadyStarts(w, c.sid, c.ready, r); } else { OthersStartNothing(w, c, sendFails, r); }
  }

  /** A match starts only by the last member's SetReady, when the three others are ready. */
  lemma StartNeedsReady(w: World, s: Step, r: int)
    requires WorldOK(w) && Enabled(w, s) && IsValidRoom(r)
    requires w.rooms[r].status != InGame && Apply(w, s).rooms[r].status == InGame
    ensures Readied(w, s, r)
  {
    if s.LobbyCommandStep? {
      assert CommandKnown(w.batch[0], w.net);
      CommandStarts(Popped(w), w.batch[0], s.sendFails, r);
    } else {
      OnlyLobbyStepsStart(w, s, r);
    }
  }

  lemma OnlyLobbyStepsStart(w: World, s: Step, r: int)
    requires WorldOK(w) && Enabled(w, s) && IsValidRoom(r) && !s.LobbyCommandStep?
    ensures Apply(w, s).rooms[r].status == InGame ==> w.rooms[r].status == InGame
  {
    if s.GameCommandStep? {
      GameCommandTurn(PoppedGame(w), w.gameBatch[0], r);
    } else if s.UpdateStep? {
      UpdateStartsNothing(w, s.room, s.geometry, r);
    } else {
      OthersKeepRooms(w, s);
    }
  }

  lemma UpdateStartsNothing(w: World, q: int, g: Geometry, r: int)
    requires Shaped(w) && IsValidRoom(q) && IsValidRoom(r)
    ensures UpdateRoom(w, q, g).rooms[r].status == InGame ==> w.rooms[r].status == InGame
  {
  }

  lemma UpdateStepTurn(w: World, q: int, g: Geometry, r: int)
    requires WorldOK(w) && IsValidRoom(q) && IsValidRoom(r)
    ensures Turn(w.rooms[r], UpdateRoom(w, q, g).rooms[r])
  {
    UpdateTurn(SceneAt(w, r), w.now, g);
  }

  /** In every step of every run, a match starts fresh and ends clean. */
  lemma StepTurns(w: World, s: Step, r: int)
    requires WorldOK(w) && Enabled(w, s) && IsValidRoom(r)
    ensures Turn(w.rooms[r], Apply(w, s).rooms[r])
  {
    if s.LobbyCommandStep? {
      LobbyCommandTurn(w, s.sendFails, r);
    } else if s.UpdateStep? {
      UpdateStepTurn(w, s.room, s.geometry, r);
    } else if s.GameCommandStep? {
      GameCommandTurn(PoppedGame(w), w.gameBatch[0], r);
    } else {
      OthersKeepRooms(w, s);
    }
  }

  lemma GameCommandTurn(w: World, c: GameCommand, r: int)
    requires Shaped(w) && IsValidRoom(r)
    ensures Turn(w.rooms[r], ExecuteGame(w, c).rooms[r])
  {
  }

  // ---- the order of events ----

  /** One event, given the room it finds. */
  function RunOne(r: Room, e: QueueEvent, g: Geometry): (r': Room)
    requires |r.game.players| == PLAYERNUM && |r.game.generators| == GENCNT
    ensures |r'.game.players| == PLAYERNUM && |r'.game.generators| == GENCNT
  {
    if IsCurrentLease(r, e.task.sid, e.task.lease) then r.(game := Effect(r.game, e.task.sid, e.task.kind, g)) else r
  }

  /** All events one after the other, first to last. */
  function RunAll(r: Room, events: seq<QueueEvent>, g: Geometry): (r': Room)
    requires |r.game.players| == PLAYERNUM && |r.game.generators| == GENCNT
    ensures |r'.game.players| == PLAYERNUM && |r'.game.generators| == GENCNT
    decreases |events|
  {
    if events == [] then r else RunAll(RunOne(r, events[0], g), events[1..], g)
  }

  lemma GeneratorEventIgnoresQueue(m: Match, q: seq<QueueEvent>, sid: int, eventId: int, g: Geometry)
    requires |m.players| == PLAYERNUM && |m.generators| == GENCNT && eventId <= 10
    ensures InteractionEffect(m.(queue := q), sid, eventId, g) == InteractionEffect(m, sid, eventId, g).(queue := q)
  {
  }

  lemma PlayerEventIgnoresQueue(m: Match, q: seq<QueueEvent>, sid: int, eventId: int, g: Geometry)
    requires |m.players| == PLAYERNUM && |m.generators| == GENCNT && 10 < eventId
    ensures InteractionEffect(m.(queue := q), sid, eventId, g) == InteractionEffect(m, sid, eventId, g).(queue := q)
  {
  }

  lemma EffectIgnoresQueue(m: Match, q: seq<QueueEvent>, sid: int, kind: EventKind, g: Geometry)
    requires |m.players| == PLAYERNUM && |m.generators| == GENCNT
    ensures Effect(m.(queue := q), sid, kind, g) == Effect(m, sid, kind, g).(queue := q)
  {
    if kind.Interaction? {
      if kind.eventId <= 10 {
        GeneratorEventIgnoresQueue(m, q, sid, kind.eventId, g);
      } else {
        PlayerEventIgnoresQueue(m, q, sid, kind.eventId, g);
      }
    }
  }

  /** A tick runs the whole queue in order: everything admitted is already due. */
  lemma {:induction false} TickRunsQueueInOrder(r: Room, now: int, g: Geometry)
    requires RoomOK(r, now) && r.status == InGame
    ensures RunDue(r, now, g) == RunAll(r.(game := r.game.(queue := [])), r.game.queue, g)
    decreases |r.game.queue|
  {
    var q := r.game.queue;
    if q == [] {
      assert r.game == r.game.(queue := []);
    } else {
      var e := q[0];
      var popped := r.(game := r.game.(queue := q[1..]));
      EffectIgnoresQueue(r.game, q[1..], e.task.sid, e.task.kind, g);
      EffectIgnoresQueue(r.game, [], e.task.sid, e.task.kind, g);
      if IsCurrentLease(r, e.task.sid, e.task.lease) {
        CurrentLeaseFindsPlayer(r, e.task.sid, e.task.lease);
        EffectKeepsMatch(popped.game, e.task.sid, e.task.kind, g);
        TickRunsQueueInOrder(popped.(game := Effect(popped.game, e.task.sid, e.task.kind, g)), now, g);
      } else {
        TickRunsQueueInOrder(popped, now, g);
      }
    }
  }

  /** A packet's event joins the end of the queue, leased to the match it arrived in. */
  lemma AdmissionAppends(c: Scene, command: GameCommand, now: int)
    requires RoomOK(c.room, now)
    ensures var q := c.room.game.queue;
            var q' := ProcessGamePacket(c, command, now).room.game.queue;
            q' == q || (|q'| == |q| + 1 && q'[..|q|] == q
                        && IsCurrentLease(c.room, command.sid, command.lease)
                        && q'[|q|].task.sid == command.sid && q'[|q|].task.lease == command.lease
                        && [q'[|q|].task.kind] == Kind(command.packet))
  {
    var m := c.room.game;
    if ProcessGamePacket(c, command, now).room != c.room {
      var e := Scheduled(now, m.nextSequence, GameEvent(command.sid, command.lease, Kind(command.packet)[0]));
      InsertLast(m.queue, e);
    }
  }

  /** The event joins the end of the queue, due at once, under the next number and the packet's lease. */
  predicate Appends(c: Scene, c': Scene, command: GameCommand, now: int, kind: EventKind) {
    var m := c.room.game;
    var e := Scheduled(now, m.nextSequence, GameEvent(command.sid, command.lease, kind));
    c' == c.(room := c.room.(game := m.(queue := m.queue + [e], nextSequence := m.nextSequence + 1)))
  }

  /**
   * What a packet under a current lease asks for: keys for a movement, a number for an interaction, and a target for an
   * attack, where a target that is no player removes the sender.
   */
  predicate AsksFor(c: Scene, c': Scene, command: GameCommand, now: int) {
    match command.packet
    case KeyPacket(keys, dir) => Appends(c, c', command, now, Movement(keys, dir))
    case AttackPacket(target, frame) =>
      if 0 <= target < 4 then Appends(c, c', command, now, Attack(target, frame))
      else c' == c.(net := RequestRemove(c.net, command.sid))
    case EventPacket(eventId) => Appends(c, c', command, now, Interaction(eventId))
    case Other => c' == c
  }

  lemma PacketsAsk(c: Scene, command: GameCommand, now: int)
    requires RoomOK(c.room, now)
    ensures if IsCurrentLease(c.room, command.sid, command.lease) then AsksFor(c, ProcessGamePacket(c, command, now), command, now)
            else ProcessGamePacket(c, command, now) == c
  {
    var m := c.room.game;
    if IsCurrentLease(c.room, command.sid, command.lease) && Kind(command.packet) != [] {
      InsertLast(m.queue, Scheduled(now, m.nextSequence, GameEvent(command.sid, command.lease, Kind(command.packet)[0])));
    }
  }

  lemma {:induction false} RunAllSplits(r: Room, a: seq<QueueEvent>, b: seq<QueueEvent>, g: Geometry)
    requires |r.game.players| == PLAYERNUM && |r.game.generators| == GENCNT
    ensures RunAll(r, a + b, g) == RunAll(RunAll(r, a, g), b, g)
    decreases |a|
  {
    if a == [] {
      assert a + b == b;
    } else {
      assert (a + b)[0] == a[0] && (a + b)[1..] == a[1..] + b;
      RunAllSplits(RunOne(r, a[0], g), a[1..], b, g);
    }
  }

  lemma EffectFrame(m: Match, sid: int, kind: EventKind, g: Geometry)
    requires |m.players| == PLAYERNUM && |m.generators| == GENCNT
    ensures Effect(m, sid, kind, g).state == m.state && Effect(m, sid, kind, g).generation == m.generation
  {
  }

  /** Events change nothing about who holds which slot in which match. */
  lemma {:induction false} RunAllFrame(r: Room, events: seq<QueueEvent>, g: Geometry)
    requires |r.game.players| == PLAYERNUM && |r.game.generators| == GENCNT
    ensures var r' := RunAll(r, events, g);
            && r'.members == r.members && r'.status == r.status
            && r'.game.state == r.game.state && r'.game.generation == r.game.generation
    decreases |events|
  {
    if events != [] {
      EffectFrame(r.game, events[0].task.sid, events[0].task.kind, g);
      RunAllFrame(RunOne(r, events[0], g), events[1..], g);
    }
  }

  // ---- one event within an update ----

  /** The room that the tick inside an update finds, once overdue reconnects have expired. */
  function Ticking(w: World, r: int): (room: Room)
    requires Shaped(w) && IsValidRoom(r)
    ensures RoomShaped(room)
  {
    ExpireReconnects(SceneAt(w, r), w.now).room
  }

  lemma TickingOK(w: World, r: int)
    requires WorldOK(w) && IsValidRoom(r) && w.rooms[r].status == InGame
    ensures RoomOK(Ticking(w, r), w.now)
    ensures Ticking(w, r).status == InGame ==>
              Ticking(w, r).game == w.rooms[r].game.(players := Ticking(w, r).game.players)
  {
    var c := SceneAt(w, r);
    UserOutEachKeepsRoom(c, Expired(c.room.members, w.now), w.now);
    ExpiryKeepsGame(c, Expired(c.room.members, w.now), w.now);
  }

  lemma UpdateEmptiesQueue(c: Scene, now: int, g: Geometry)
    requires RoomOK(c.room, now)
    ensures Update(c, now, g).room.game.queue == []
  {
    UpdateKeepsRoom(c, now, g);
    if c.room.status == InGame {
      var c1 := ExpireReconnects(c, now);
      UserOutEachKeepsRoom(c, Expired(c.room.members, now), now);
      if c1.room.status == InGame { TickKeepsRoom(c1.room, now, g); }
      PlayKeepsRoom(c1, now, g);
    }
  }

  /** The room that queued event `k` finds when room `r` is updated. */
  function Finds(w: World, r: int, g: Geometry, k: int): (room: Room)
    requires Shaped(w) && IsValidRoom(r) && 0 <= k < |w.rooms[r].game.queue|
    ensures |room.game.players| == PLAYERNUM && |room.game.generators| == GENCNT
  {
    var ticking := Ticking(w, r);
    RunAll(ticking.(game := ticking.game.(queue := [])), w.rooms[r].game.queue[..k], g)
  }

  /** An update of room `r` runs queued event `k`, and the event changes something. */
  predicate Acts(w: World, r: int, g: Geometry, k: int)
    requires Shaped(w) && IsValidRoom(r)
  {
    && 0 <= k < |w.rooms[r].game.queue|
    && w.rooms[r].status == InGame && Ticking(w, r).status == InGame
    && RunOne(Finds(w, r, g, k), w.rooms[r].game.queue[k], g) != Finds(w, r, g, k)
  }

  lemma SplitAt(q: seq<QueueEvent>, k: nat)
    requires k < |q|
    ensures q == q[..k] + ([q[k]] + q[k + 1..])
  {
  }

  /** An update takes its events one by one: event `k` after those before it, then those behind it. */
  lemma UpdateTakesEach(w: World, r: int, g: Geometry, k: int)
    requires WorldOK(w) && IsValidRoom(r) && 0 <= k < |w.rooms[r].game.queue|
    requires w.rooms[r].status == InGame && Ticking(w, r).status == InGame
    ensures var q := w.rooms[r].game.queue;
            RunDue(Ticking(w, r), w.now, g) == RunAll(RunOne(Finds(w, r, g, k), q[k], g), q[k + 1..], g)
  {
    var q := w.rooms[r].game.queue;
    TickingOK(w, r);
    SplitAt(q, k);
    TakesEach(Ticking(w, r), w.now, g, q[..k], q[k], q[k + 1..]);
  }

  lemma TakesEach(t: Room, now: int, g: Geometry, before: seq<QueueEvent>, e: QueueEvent, after: seq<QueueEvent>)
    requires RoomOK(t, now) && t.status == InGame && t.game.queue == before + ([e] + after)
    ensures var t0 := t.(game := t.game.(queue := []));
            RunDue(t, now, g) == RunAll(RunOne(RunAll(t0, before, g), e, g), after, g)
  {
    TickRunsQueueInOrder(t, now, g);
    RunAllSplits(t.(game := t.game.(queue := [])), before, [e] + after, g);
    assert ([e] + after)[1..] == after;
  }

  lemma TickingMembers(w: World, r: int)
    requires WorldOK(w) && IsValidRoom(r)
    ensures forall i | 0 <= i < PLAYERNUM ::
              Ticking(w, r).members[i] == w.rooms[r].members[i] || !Filled(Ticking(w, r).members[i])
  {
    UserOutEachLoosens(SceneAt(w, r), Expired(w.rooms[r].members, w.now));
  }

  /** An event acts in an update only under a lease that is current in the room as the update finds it. */
  lemma ActingLeaseIsCurrent(w: World, r: int, g: Geometry, k: int)
    requires WorldOK(w) && IsValidRoom(r) && Acts(w, r, g, k)
    ensures var e := w.rooms[r].game.queue[k].task;
            IsCurrentLease(w.rooms[r], e.sid, e.lease) && IsCurrentLease(Finds(w, r, g, k), e.sid, e.lease)
  {
    var q, ticking := w.rooms[r].game.queue, Ticking(w, r);
    assert RoomOK(w.rooms[r], w.now) && q[k].task.sid >= 0;
    TickingOK(w, r);
    TickingMembers(w, r);
    RunAllFrame(ticking.(game := ticking.game.(queue := [])), q[..k], g);
  }

  /** A generator lights up only through an Activate event that runs under a current lease. */
  lemma {:induction false} GeneratorsNeedEvents(r: Room, events: seq<QueueEvent>, g: Geometry, k: int) returns (j: int)
    requires |r.game.players| == PLAYERNUM && |r.game.generators| == GENCNT && 0 <= k < GENCNT
    requires !r.game.generators[k].active && RunAll(r, events, g).game.generators[k].active
    ensures 0 <= j < |events| && events[j].task.kind == Interaction(8 + k)
    ensures RunOne(RunAll(r, events[..j], g), events[j], g) != RunAll(r, events[..j], g)
    decreases |events|
  {
    var r1 := RunOne(r, events[0], g);
    if r1.game.generators[k].active {
      j := 0;
      assert events[..0] == [];
    } else {
      j := GeneratorsNeedEvents(r1, events[1..], g, k);
      assert events[..j + 1][0] == events[0] && events[..j + 1][1..] == events[1..][..j];
      j := j + 1;
    }
  }

  // ---- generators over whole runs ----

  /** Generators only go out, and a lit one belongs to the match that was on before. */
  predicate Dims(a: Room, b: Room)
    requires RoomShaped(a) && RoomShaped(b)
  {
    forall k | 0 <= k < GENCNT && b.game.generators[k].active ::
      a.game.generators[k].active && b.game.generation == a.game.generation
  }

  lemma UserOutDims(c: Scene, sid: int, now: int)
    requires RoomOK(c.room, now) && sid != -1
    ensures Dims(c.room, UserOut(c, sid).room)
  {
    var i := IndexOf(c.room.members, sid);
    if i >= 0 && c.room.status == InGame { PlayerLeftCoupled(c.room, i); }
  }

  lemma DisconnectDims(w: World, sid: int, token: nat, r: int)
    requires WorldOK(w) && IsValidRoom(r) && sid in w.net.sessions
    ensures Dims(w.rooms[r], DisconnectUpTo(w, sid, token, ROOM_CAPACITY).rooms[r])
  {
    DisconnectRooms(w, sid, token, ROOM_CAPACITY, r);
    UserOutDims(SceneAt(w, r), sid, w.now);
  }

  lemma SetReadyDims(w: World, sid: int, ready: bool, r: int)
    requires Shaped(w) && IsValidRoom(r)
    ensures Dims(w.rooms[r], SetReadyCommand(w, sid, ready).rooms[r])
  {
  }

  lemma EnterDims(w: World, sid: int, room: int, r: int)
    requires Shaped(w) && IsValidRoom(r)
    ensures EnterRoom(w, sid, room).rooms[r].game == w.rooms[r].game
  {
  }

  lemma ExitDims(w: World, sid: int, room: int, r: int)
    requires WorldOK(w) && IsValidRoom(r) && sid in w.net.sessions
    ensures Dims(w.rooms[r], ExitRoom(w, sid, room).rooms[r])
  {
    UserOutDims(SceneAt(w, r), sid, w.now);
  }

  lemma CommandDims(w: World, c: LobbyCommand, sendFails: bool, r: int)
    requires WorldOK(w) && CommandKnown(c, w.net) && IsValidRoom(r)
    ensures Dims(w.rooms[r], ExecuteLobby(w, c, sendFails).rooms[r])
  {
    if c.Create? {
      CreateTurn(w, c.sid, r);
    } else if c.Enter? {
      EnterDims(w, c.sid, c.room, r);
    } else if c.SetReady? {
      SetReadyDims(w, c.sid, c.ready, r);
    } else if c.Exit? {
      ExitDims(w, c.sid, c.room, r);
    } else if c.Disconnected? {
      DisconnectDims(w, c.sid, c.token, r);
    } else if c.Resume? {
      ResumeTurn(w, c.sid, c.token, r);
    }
  }

  /** Departures at an expiry leave the rest of a match that goes on alone. */
  lemma {:induction false} ExpiryKeepsGame(c: Scene, sids: seq<int>, now: int)
    requires RoomOK(c.room, now) && c.room.status == InGame
    ensures var b := UserOutEach(c, sids).room;
            b.status == InGame ==> b.game == c.room.game.(players := b.game.players)
    decreases |sids|
  {
    if sids != [] {
      var c' := if sids[0] != -1 then UserOut(c, sids[0]) else c;
      if sids[0] != -1 {
        UserOutKeepsRoom(c, sids[0], now);
        var i := IndexOf(c.room.members, sids[0]);
        if i >= 0 { PlayerLeftCoupled(c.room, i); }
      }
      if c'.room.status == InGame {
        ExpiryKeepsGame(c', sids[1..], now);
      } else {
        NobodyLeft(c', sids[1..]);
      }
    }
  }

  /** In the update of room `r`, an Activate event for generator `k` acts, under a lease of the match that is on. */
  ghost predicate Lights(w: World, r: int, g: Geometry, k: int)
    requires Shaped(w) && IsValidRoom(r)
  {
    exists j :: Acts(w, r, g, j) && w.rooms[r].game.queue[j].task.kind == Interaction(8 + k)
                && w.rooms[r].game.queue[j].task.lease.matchGeneration == w.rooms[r].game.generation
  }

  /** A generator that a tick finds out and leaves lit is lit by an event of that tick. */
  lemma TickLights(w: World, r: int, g: Geometry, k: int)
    requires WorldOK(w) && IsValidRoom(r) && w.rooms[r].status == InGame && Ticking(w, r).status == InGame
    requires 0 <= k < GENCNT && Tick(Ticking(w, r), w.now, g).game.generators[k].active
    ensures w.rooms[r].game.generators[k].active || Lights(w, r, g, k)
  {
    TickingOK(w, r);
    var ticking, q := Ticking(w, r), w.rooms[r].game.queue;
    TickRunsQueueInOrder(ticking, w.now, g);
    if !w.rooms[r].game.generators[k].active {
      var j := GeneratorsNeedEvents(ticking.(game := ticking.game.(queue := [])), q, g, k);
      assert Acts(w, r, g, j);
      ActingLeaseIsCurrent(w, r, g, j);
    }
  }

  lemma UpdateLights(w: World, r: int, g: Geometry, k: int)
    requires WorldOK(w) && IsValidRoom(r) && 0 <= k < GENCNT && UpdateRoom(w, r, g).rooms[r].game.generators[k].active
    ensures UpdateRoom(w, r, g).rooms[r].game.generation == w.rooms[r].game.generation
    ensures w.rooms[r].game.generators[k].active || Lights(w, r, g, k)
  {
    if w.rooms[r].status == InGame {
      var c1 := ExpireReconnects(SceneAt(w, r), w.now);
      TickingOK(w, r);
      if c1.room.status == InGame {
        TickKeepsRoom(c1.room, w.now, g);
        var c' := c1.(room := Tick(c1.room, w.now, g));
        if Decided(c'.room.game) { CloseEmptiesRoom(c', w.now); } else { TickLights(w, r, g, k); }
      }
    }
  }

  lemma LobbyStepDims(w: World, sendFails: bool, r: int)
    requires WorldOK(w) && w.batch != [] && IsValidRoom(r)
    ensures Dims(w.rooms[r], Apply(w, LobbyCommandStep(sendFails)).rooms[r])
  {
    assert CommandKnown(w.batch[0], w.net);
    CommandDims(Popped(w), w.batch[0], sendFails, r);
  }

  /** One step lights a generator only by running an Activate event of the match that is on. */
  lemma StepLights(w: World, s: Step, r: int, k: int)
    requires WorldOK(w) && Enabled(w, s) && IsValidRoom(r) && 0 <= k < GENCNT
    requires Apply(w, s).rooms[r].game.generators[k].active
    ensures Apply(w, s).rooms[r].game.generation == w.rooms[r].game.generation
    ensures w.rooms[r].game.generators[k].active || (s.UpdateStep? && s.room == r && Lights(w, r, s.geometry, k))
  {
    if s.LobbyCommandStep? {
      LobbyStepDims(w, s.sendFails, r);
    } else if s.UpdateStep? {
      if s.room == r { UpdateLights(w, r, s.geometry, k); }
    } else if !s.GameCommandStep? {
      OthersKeepRooms(w, s);
    }
  }

  /**
   * A generator that was out at the start of a run and is lit at its end was lit on the way: some update ran an
   * Activate event for it under a current lease of the very match it is lit in.
   */
  lemma {:induction false} LitGeneratorWasActivated(w: World, steps: seq<Step>, r: int, k: int)
    requires WorldOK(w) && IsRun(w, steps) && IsValidRoom(r) && 0 <= k < GENCNT
    requires !w.rooms[r].game.generators[k].active && After(w, steps).rooms[r].game.generators[k].active
    ensures exists j :: LitBy(w, steps, r, k, j, After(w, steps).rooms[r].game.generation)
    decreases |steps|
  {
    var generation := After(w, steps).rooms[r].game.generation;
    var n := |steps| - 1;
    var head := steps[..n];
    LastLights(w, steps, head, steps[n], r, k);
    if !LitBy(w, steps, r, k, n, generation) {
      LitGeneratorWasActivated(w, head, r, k);
      var j :| LitBy(w, head, r, k, j, generation);
      LitEarlier(w, steps, r, k, j, generation);
    }
  }

  /** A generator lit at the end of a run was lit before its last step, or in it. */
  lemma LastLights(w: World, steps: seq<Step>, head: seq<Step>, s: Step, r: int, k: int)
    requires WorldOK(w) && IsRun(w, steps) && steps == head + [s]
    requires IsValidRoom(r) && 0 <= k < GENCNT && After(w, steps).rooms[r].game.generators[k].active
    ensures IsRun(w, head)
    ensures After(w, head).rooms[r].game.generation == After(w, steps).rooms[r].game.generation
    ensures After(w, head).rooms[r].game.generators[k].active
            || LitBy(w, steps, r, k, |head|, After(w, steps).rooms[r].game.generation)
  {
    RunLast(w, steps, head, s);
    StepLights(After(w, head), s, r, k);
    assert steps[..|head|] == head;
  }

  /** Step `j` of the run is an update that lights generator `k` of room `r`, in the match of that generation. */
  ghost predicate LitBy(w: World, steps: seq<Step>, r: int, k: int, j: int, generation: nat)
    requires WorldOK(w) && IsValidRoom(r)
  {
    0 <= j < |steps| && LitAfter(w, steps[..j], steps[j], r, k, generation)
  }

  ghost predicate LitAfter(w: World, before: seq<Step>, s: Step, r: int, k: int, generation: nat)
    requires WorldOK(w) && IsValidRoom(r)
  {
    && IsRun(w, before) && s.UpdateStep? && s.room == r && Lights(After(w, before), r, s.geometry, k)
    && After(w, before).rooms[r].game.generation == generation
  }

  lemma LitEarlier(w: World, steps: seq<Step>, r: int, k: int, j: int, generation: nat)
    requires WorldOK(w) && IsValidRoom(r) && steps != [] && LitBy(w, steps[..|steps| - 1], r, k, j, generation)
    ensures LitBy(w, steps, r, k, j, generation)
  {
    assert steps[..|steps| - 1][..j] == steps[..j];
  }

  /** The last step of a run, apart from the rest. */
  lemma RunLast(w: World, steps: seq<Step>, head: seq<Step>, s: Step)
    requires WorldOK(w) && IsRun(w, steps) && steps == head + [s]
    ensures IsRun(w, head) && WorldOK(After(w, head))
    ensures Enabled(After(w, head), s) && Apply(After(w, head), s) == After(w, steps)
  {
    RunSplits(w, head, [s]);
    OneStepRun(After(w, head), s);
  }

  lemma OneStepRun(w: World, s: Step)
    requires WorldOK(w) && IsRun(w, [s])
    ensures Enabled(w, s) && Apply(w, s) == After(w, [s])
  {
    var steps := [s];
    assert steps[0] == s && steps[1..] == [];
    StepKeepsWorld(w, s);
    assert After(Apply(w, s), []) == Apply(w, s);
  }
}
