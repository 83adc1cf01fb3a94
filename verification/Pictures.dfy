/** How an update ends, and which pictures of the past a match keeps: each is the players as some update left them. */
module Pictures {
  import opened RoomCommand
  import opened SessionSpec
  import opened Scheduler
  import opened MatchSpec
  import opened WorldRewinder
  import opened RoomSpec
  import opened Protocol
  import opened RoomInvariant
  import opened ServerInvariant
  import opened ServerSteps
  import opened Waiters
  import opened ResumeExpiry
  import opened MatchIsolation
  import opened GameRules

  // ---- how an update ends ----

  lemma ExpirySpares(w: World, r: int)
    requires WorldOK(w) && WaitersFirst(w) && IsValidRoom(r) && w.rooms[r].status == InGame
    ensures Ticking(w, r).status == InGame
  {
    var c := SceneAt(w, r);
    var sids := Expired(c.room.members, w.now);
    if sids != [] {
      assert sids[0] in sids;
      var i := OverdueUnder(c.room.members, w.now, sids[0]);
      ExpiredIsNobodyElse(w, r);
      ExpiryOnWaiting(c, sids, i, w.now);
    }
  }

  lemma ExpiredIsNobodyElse(w: World, r: int)
    requires WorldOK(w) && WaitersFirst(w) && IsValidRoom(r) && w.rooms[r].status == InGame
    ensures forall s | s in Expired(w.rooms[r].members, w.now) :: s != -1 && s != w.rooms[r].members[0].sid
  {
    var ms := w.rooms[r].members;
    forall s | s in Expired(ms, w.now) ensures s != -1 && s != ms[0].sid {
      var k := OverdueUnder(ms, w.now, s);
      assert RoomOK(w.rooms[r], w.now) && SlotOK(ms[k]);
    }
  }

  lemma DecidedCloses(w: World, r: int, g: Geometry)
    requires WorldOK(w) && IsValidRoom(r) && w.rooms[r].status == InGame && Ticking(w, r).status == InGame
    requires RoomOK(Ticking(w, r), w.now) && Decided(Tick(Ticking(w, r), w.now, g).game)
    ensures UpdateRoom(w, r, g).rooms[r].status == Empty && UpdateRoom(w, r, g).rooms[r].game.history == []
  {
    var c := ExpireReconnects(SceneAt(w, r), w.now);
    TickKeepsRoom(c.room, w.now, g);
    CloseEmptiesRoom(c.(room := Tick(c.room, w.now, g)), w.now);
  }

  /** What an update makes of a room `x` whose events have run. */
  ghost predicate Finishes(x: Room, b: Room, g: Geometry)
    requires RoomShaped(x)
  {
    if Over(x.game) then b.status == Empty && b.game.history == []
    else b == x.(game := b.game) && b.status == InGame && b.game.state == Playing && TickEnds(x.game, b.game, g)
  }

  lemma UpdateFinishes(w: World, r: int, g: Geometry)
    requires WorldOK(w) && WaitersFirst(w) && IsValidRoom(r) && w.rooms[r].status == InGame
    ensures RoomShaped(RunDue(Ticking(w, r), w.now, g))
    ensures Finishes(RunDue(Ticking(w, r), w.now, g), UpdateRoom(w, r, g).rooms[r], g)
  {
    ExpirySpares(w, r);
    TickingOK(w, r);
    var room := Ticking(w, r);
    RunDueKeepsRoom(room, w.now, g);
    TickFinishes(room, w.now, g);
    if Decided(Tick(room, w.now, g).game) { DecidedCloses(w, r, g); } else { Undecided(w, r, g); }
  }

  lemma Undecided(w: World, r: int, g: Geometry)
    requires Shaped(w) && IsValidRoom(r) && w.rooms[r].status == InGame && Ticking(w, r).status == InGame
    requires !Decided(Tick(Ticking(w, r), w.now, g).game)
    ensures UpdateRoom(w, r, g).rooms[r] == Tick(Ticking(w, r), w.now, g)
  {
  }

  lemma TickFinishes(room: Room, now: int, g: Geometry)
    requires RoomOK(room, now) && room.status == InGame
    ensures var x := RunDue(room, now, g);
            && RoomShaped(x) && (Decided(Tick(room, now, g).game) <==> Over(x.game))
            && (!Over(x.game) ==> Finishes(x, Tick(room, now, g), g))
  {
    RunDueKeepsRoom(room, now, g);
    var x := RunDue(room, now, g);
    DecidesIff(x.game, g);
    FinishedTick(x.game, g);
    UndecidedPlays(x.game, g);
  }

  lemma UndecidedPlays(m: Match, g: Geometry)
    requires FullSize(m) && m.state == Playing
    ensures !Decided(FinishTick(m, g)) ==> FinishTick(m, g).state == Playing
  {
  }

  // ---- pictures ----

  /** One picture more: the players as they now stand, under the number of the tick. */
  predicate Pictured(a: Room, b: Room)
    requires RoomShaped(b)
  {
    var h, h' := a.game.history, b.game.history;
    && |h'| == |h| + 1 && h'[..|h|] == h
    && h'[|h|].frame == h'[|h|].status.frame == (|h| + 1) % UINT32
    && Depicts(h'[|h|].status, b.game.players)
  }

  /** The pictures are as they were, in the same match, or gone. */
  predicate Keeps(a: Room, b: Room) {
    b.game.history == [] || (b.game.history == a.game.history && b.game.generation == a.game.generation)
  }

  lemma EventsKeepHistory(w: World, r: int, g: Geometry)
    requires WorldOK(w) && WaitersFirst(w) && IsValidRoom(r) && w.rooms[r].status == InGame
    ensures var x := RunDue(Ticking(w, r), w.now, g);
            && RoomShaped(x) && x.game.history == w.rooms[r].game.history && x.game.generation == w.rooms[r].game.generation
            && LastFrame(x.game.history) == |x.game.history| % UINT32
  {
    ExpirySpares(w, r);
    TickingOK(w, r);
    RunDueKeepsRoom(Ticking(w, r), w.now, g);
    assert Chronicle(w.rooms[r].game.history) by { assert RoomOK(w.rooms[r], w.now); }
  }

  lemma UpdatePictures(w: World, r: int, g: Geometry)
    requires WorldOK(w) && WaitersFirst(w) && IsValidRoom(r) && w.rooms[r].status == InGame
    ensures var a, b := w.rooms[r], UpdateRoom(w, r, g).rooms[r];
            RoomShaped(b) && if b.status == InGame then Pictured(a, b) && b.game.generation == a.game.generation
                             else b.game.history == []
  {
    EventsKeepHistory(w, r, g);
    UpdateFinishes(w, r, g);
    FinishedPictures(w.rooms[r], RunDue(Ticking(w, r), w.now, g), UpdateRoom(w, r, g).rooms[r], g);
  }

  lemma FinishedPictures(a: Room, x: Room, b: Room, g: Geometry)
    requires RoomShaped(x) && RoomShaped(b) && Finishes(x, b, g)
    requires x.game.history == a.game.history && x.game.generation == a.game.generation
    requires LastFrame(x.game.history) == |x.game.history| % UINT32
    ensures if b.status == InGame then Pictured(a, b) && b.game.generation == a.game.generation else b.game.history == []
  {
    var n := |a.game.history|;
    assert (n % UINT32 + 1) % UINT32 == (n + 1) % UINT32;
  }

  lemma UserOutKeeps(c: Scene, sid: int, now: int)
    requires RoomOK(c.room, now) && sid != -1
    ensures Keeps(c.room, UserOut(c, sid).room)
  {
    var i := IndexOf(c.room.members, sid);
    if i >= 0 && c.room.status == InGame { PlayerLeftCoupled(c.room, i); }
  }

  lemma DisconnectKeeps(w: World, sid: int, token: nat, r: int)
    requires WorldOK(w) && IsValidRoom(r) && sid in w.net.sessions
    ensures Keeps(w.rooms[r], DisconnectUpTo(w, sid, token, ROOM_CAPACITY).rooms[r])
  {
    DisconnectRooms(w, sid, token, ROOM_CAPACITY, r);
    UserOutKeeps(SceneAt(w, r), sid, w.now);
  }

  lemma SetReadyKeeps(w: World, sid: int, ready: bool, r: int)
    requires Shaped(w) && IsValidRoom(r)
    ensures Keeps(w.rooms[r], SetReadyCommand(w, sid, ready).rooms[r])
  {
  }

  lemma ExitKeeps(w: World, sid: int, room: int, r: int)
    requires WorldOK(w) && IsValidRoom(r) && sid in w.net.sessions
    ensures Keeps(w.rooms[r], ExitRoom(w, sid, room).rooms[r])
  {
    UserOutKeeps(SceneAt(w, r), sid, w.now);
  }

  lemma CreateKeeps(w: World, sid: int, r: int)
    requires WorldOK(w) && IsValidRoom(r)
    ensures Keeps(w.rooms[r], CreateRoom(w, sid).rooms[r])
  {
    CreateTurn(w, sid, r);
  }

  lemma CommandKeeps(w: World, c: LobbyCommand, sendFails: bool, r: int)
    requires WorldOK(w) && CommandKnown(c, w.net) && IsValidRoom(r)
    ensures Keeps(w.rooms[r], ExecuteLobby(w, c, sendFails).rooms[r])
  {
    if c.Create? {
      CreateKeeps(w, c.sid, r);
    } else if c.Enter? {
      EnterDims(w, c.sid, c.room, r);
    } else if c.SetReady? {
      SetReadyKeeps(w, c.sid, c.ready, r);
    } else if c.Exit? {
      ExitKeeps(w, c.sid, c.room, r);
    } else if c.Disconnected? {
      DisconnectKeeps(w, c.sid, c.token, r);
    } else if c.Resume? {
      ResumeTurn(w, c.sid, c.token, r);
    }
  }

  lemma LobbyStepKeeps(w: World, sendFails: bool, r: int)
    requires WorldOK(w) && w.batch != [] && IsValidRoom(r)
    ensures Keeps(w.rooms[r], Apply(w, LobbyCommandStep(sendFails)).rooms[r])
  {
    assert CommandKnown(w.batch[0], w.net);
    CommandKeeps(Popped(w), w.batch[0], sendFails, r);
  }

  lemma GameCommandKeeps(w: World, c: GameCommand, r: int)
    requires Shaped(w) && IsValidRoom(r)
    ensures Keeps(w.rooms[r], ExecuteGame(w, c).rooms[r])
  {
  }

  /** The step is an update of room `r` that adds a picture. */
  predicate Adds(w: World, s: Step, r: int)
    requires Shaped(w) && Enabled(w, s) && IsValidRoom(r)
  {
    && s.UpdateStep? && s.room == r && Apply(w, s).rooms[r].status == InGame
    && Apply(w, s).rooms[r].game.generation == w.rooms[r].game.generation
    && Pictured(w.rooms[r], Apply(w, s).rooms[r])
  }

  /** Updates of a room that leave its match on add a picture; every other step keeps the pictures or ends them. */
  lemma StepKeeps(w: World, s: Step, r: int)
    requires WorldOK(w) && WaitersFirst(w) && Enabled(w, s) && IsValidRoom(r)
    ensures Adds(w, s, r) || Keeps(w.rooms[r], Apply(w, s).rooms[r])
  {
    if s.LobbyCommandStep? {
      LobbyStepKeeps(w, s.sendFails, r);
    } else if s.GameCommandStep? {
      GameCommandKeeps(PoppedGame(w), w.gameBatch[0], r);
    } else if s.UpdateStep? {
      UpdateStepKeeps(w, s, r);
    } else {
      OthersKeepRooms(w, s);
    }
  }

  lemma UpdateStepKeeps(w: World, s: Step, r: int)
    requires WorldOK(w) && WaitersFirst(w) && Enabled(w, s) && s.UpdateStep? && IsValidRoom(r)
    ensures Adds(w, s, r) || Keeps(w.rooms[r], Apply(w, s).rooms[r])
  {
    if s.room == r && w.rooms[r].status == InGame { UpdatePictures(w, r, s.geometry); }
  }

  /** Step `j` of the run took picture `k` of match `generation` in room `r`, and left the players as status `p` shows them. */
  ghost predicate Took(w: World, steps: seq<Step>, r: int, j: int, k: nat, generation: nat, p: WorldStatus)
    requires WorldOK(w) && IsValidRoom(r)
  {
    && 0 <= j < |steps| && steps[j].UpdateStep? && steps[j].room == r
    && IsRun(w, steps[..j + 1]) && Stands(After(w, steps[..j + 1]).rooms[r], k, generation, p)
  }

  ghost predicate Stands(b: Room, k: nat, generation: nat, p: WorldStatus)
    requires RoomShaped(b)
  {
    b.status == InGame && b.game.generation == generation && |b.game.history| == k + 1 && Depicts(p, b.game.players)
  }

  /** Every picture of a match was taken by an update of that match in this run. */
  lemma {:induction false} PicturesWereTaken(w: World, steps: seq<Step>, r: int, k: nat)
    requires WorldOK(w) && WaitersFirst(w) && IsRun(w, steps) && IsValidRoom(r) && w.rooms[r].game.history == []
    requires k < |After(w, steps).rooms[r].game.history|
    ensures var m := After(w, steps).rooms[r].game;
            exists j :: Took(w, steps, r, j, k, m.generation, m.history[k].status)
    decreases |steps|
  {
    var b := After(w, steps).rooms[r];
    var n := |steps| - 1;
    var head := steps[..n];
    LastPicture(w, steps, head, steps[n], r, k);
    if steps[n].UpdateStep? && steps[n].room == r && Stands(b, k, b.game.generation, b.game.history[k].status) {
      TookLast(w, steps, n, r, k, b.game.generation, b.game.history[k].status);
    } else {
      PicturesWereTaken(w, head, r, k);
      var j :| Took(w, head, r, j, k, b.game.generation, b.game.history[k].status);
      TookEarlier(w, steps, r, j, k, b.game.generation, b.game.history[k].status);
    }
  }

  /** Picture `k` of room `b` was taken by the step `s`, or was there in room `a` before it. */
  ghost predicate NewOrKept(a: Room, b: Room, s: Step, r: int, k: nat)
    requires RoomShaped(b) && k < |b.game.history|
  {
    || (s.UpdateStep? && s.room == r && Stands(b, k, b.game.generation, b.game.history[k].status))
    || (a.game.generation == b.game.generation && k < |a.game.history| && a.game.history[k] == b.game.history[k])
  }

  lemma LastPicture(w: World, steps: seq<Step>, head: seq<Step>, s: Step, r: int, k: nat)
    requires WorldOK(w) && WaitersFirst(w) && IsRun(w, steps) && steps == head + [s] && IsValidRoom(r)
    requires k < |After(w, steps).rooms[r].game.history|
    ensures IsRun(w, head) && NewOrKept(After(w, head).rooms[r], After(w, steps).rooms[r], s, r, k)
  {
    RunLast(w, steps, head, s);
    RunKeepsFirst(w, head);
    StepNewOrKept(After(w, head), s, r, k);
  }

  lemma TookLast(w: World, steps: seq<Step>, n: nat, r: int, k: nat, generation: nat, p: WorldStatus)
    requires WorldOK(w) && IsRun(w, steps) && IsValidRoom(r) && |steps| == n + 1
    requires steps[n].UpdateStep? && steps[n].room == r && Stands(After(w, steps).rooms[r], k, generation, p)
    ensures Took(w, steps, r, n, k, generation, p)
  {
    assert steps[..n + 1] == steps;
  }

  lemma StepNewOrKept(w: World, s: Step, r: int, k: nat)
    requires WorldOK(w) && WaitersFirst(w) && Enabled(w, s) && IsValidRoom(r)
    requires k < |Apply(w, s).rooms[r].game.history|
    ensures NewOrKept(w.rooms[r], Apply(w, s).rooms[r], s, r, k)
  {
    StepKeeps(w, s, r);
    if Adds(w, s, r) { NewOrOld(w.rooms[r], Apply(w, s).rooms[r], k); }
  }

  lemma NewOrOld(a: Room, b: Room, k: nat)
    requires RoomShaped(b) && Pictured(a, b) && b.status == InGame && k < |b.game.history|
    ensures Stands(b, k, b.game.generation, b.game.history[k].status)
            || (k < |a.game.history| && a.game.history[k] == b.game.history[k])
  {
    if k < |a.game.history| { assert b.game.history[..|a.game.history|][k] == b.game.history[k]; }
  }

  lemma TookEarlier(w: World, steps: seq<Step>, r: int, j: int, k: nat, generation: nat, p: WorldStatus)
    requires WorldOK(w) && IsValidRoom(r) && steps != [] && Took(w, steps[..|steps| - 1], r, j, k, generation, p)
    ensures Took(w, steps, r, j, k, generation, p)
  {
    assert steps[..|steps| - 1][..j + 1] == steps[..j + 1];
  }

  // ---- whom an event finds ----

  /** Events change neither whom a slot nor whom a player belongs to. */
  lemma {:induction false} EventsKeepCoupling(room: Room, events: seq<QueueEvent>, g: Geometry)
    requires RoomShaped(room) && Coupled(room) && forall j | 0 <= j < |events| :: events[j].task.sid != -1
    ensures RoomShaped(RunAll(room, events, g)) && Coupled(RunAll(room, events, g))
    decreases |events|
  {
    if events != [] {
      var e := events[0];
      if IsCurrentLease(room, e.task.sid, e.task.lease) {
        CurrentLeaseFindsPlayer(room, e.task.sid, e.task.lease);
        EffectKeepsMatch(room.game, e.task.sid, e.task.kind, g);
      } else {
        assert RunOne(room, e, g) == room;
      }
      EventsKeepCoupling(RunOne(room, e, g), events[1..], g);
    }
  }

  /** An event that acts is one of a player. */
  lemma ActorIsFound(w: World, r: int, g: Geometry, k: int) returns (i: int)
    requires WorldOK(w) && IsValidRoom(r) && Acts(w, r, g, k)
    ensures FirstPlayer(Finds(w, r, g, k).game, i, w.rooms[r].game.queue[k].task.sid)
  {
    var q, sid := w.rooms[r].game.queue, w.rooms[r].game.queue[k].task.sid;
    ActingLeaseIsCurrent(w, r, g, k);
    TickingOK(w, r);
    var room := Ticking(w, r);
    assert QueueOK(w.rooms[r].game, w.now) by { assert RoomOK(w.rooms[r], w.now); }
    EventsKeepCoupling(room.(game := room.game.(queue := [])), q[..k], g);
    CurrentLeaseFindsPlayer(Finds(w, r, g, k), sid, q[k].task.lease);
    i := FindPlayer(Finds(w, r, g, k).game.players, sid);
  }
}
