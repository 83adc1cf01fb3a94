/** From the admission of an event to the moment it acts: the match and the stay that its lease names. */
module EventLeases {
  import opened RoomCommand
  import opened SessionSpec
  import opened MatchSpec
  import opened RoomSpec
  import opened Protocol
  import opened RoomInvariant
  import opened ServerInvariant
  import opened ServerSteps
  import opened ResumeExpiry
  import opened MatchIsolation

  /** Slot `i` of the room grants the lease. */
  predicate Grants(room: Room, i: int, sid: int, lease: MatchLease) {
    && 0 <= i < |room.members|
    && room.members[i].sid == sid && room.members[i].connection == Connected
    && room.members[i].generation == lease.memberGeneration
  }

  // ---- how a slot of a running match comes to a session ----

  /** In this step session `sid` takes over slot `i` of room `r` by a Resume. */
  predicate TakesOver(w: World, s: Step, r: int, i: int, sid: int)
    requires Shaped(w) && Enabled(w, s) && IsValidRoom(r) && 0 <= i < PLAYERNUM
  {
    && s.LobbyCommandStep? && w.batch[0].Resume? && w.batch[0].sid == sid
    && Apply(w, s).rooms[r].members[i] == Taken(w.rooms[r].members[i], sid)
  }

  lemma {:induction false} ResumeTakesOver(w: World, sid: int, token: nat, r: int, i: int, from: nat := 0)
    requires Shaped(w) && from <= ROOM_CAPACITY && IsValidRoom(r) && 0 <= i < PLAYERNUM
    ensures var m := ResumeFrom(w, sid, token, from).rooms[r].members[i];
            m == w.rooms[r].members[i] || m == Taken(w.rooms[r].members[i], sid)
    decreases ROOM_CAPACITY - from
  {
    if from < ROOM_CAPACITY {
      if CanResume(SceneAt(w, from), sid, token, w.now) {
        ResumeSlots(SceneAt(w, from), sid, token, w.now);
      } else {
        ResumeTakesOver(w, sid, token, r, i, from + 1);
      }
    }
  }

  /** A slot stays as it is, or is nobody's, or waits. */
  predicate Fades(a: Member, b: Member) {
    b == a || !Filled(b) || b.connection == Reconnecting
  }

  lemma ExitFades(w: World, sid: int, room: int, r: int, i: int)
    requires WorldOK(w) && sid in w.net.sessions && IsValidRoom(r) && 0 <= i < PLAYERNUM
    ensures Fades(w.rooms[r].members[i], ExitRoom(w, sid, room).rooms[r].members[i])
  {
    if IsValidRoom(room) { UserOutLoosens(SceneAt(w, room), sid); }
  }

  lemma DropFades(c: Scene, sid: int, token: nat, now: int, i: int)
    requires RoomOK(c.room, now) && NetOK(c.net) && sid != -1 && 0 <= i < PLAYERNUM
    ensures Fades(c.room.members[i], TransportDisconnected(c, sid, token, now).room.members[i])
  {
    UserOutLoosens(c, sid);
  }

  lemma DisconnectFades(w: World, sid: int, token: nat, r: int, i: int)
    requires WorldOK(w) && sid in w.net.sessions && IsValidRoom(r) && 0 <= i < PLAYERNUM
    ensures Fades(w.rooms[r].members[i], DisconnectUpTo(w, sid, token, ROOM_CAPACITY).rooms[r].members[i])
  {
    DisconnectRooms(w, sid, token, ROOM_CAPACITY, r);
    DropFades(SceneAt(w, r), sid, token, w.now, i);
  }

  /** Of all lobby commands only a Resume gives a slot of a running match to a session. */
  lemma CommandFades(w: World, c: LobbyCommand, sendFails: bool, r: int, i: int)
    requires WorldOK(w) && CommandKnown(c, w.net) && IsValidRoom(r) && 0 <= i < PLAYERNUM && w.rooms[r].status == InGame
    ensures var a, b := w.rooms[r].members[i], ExecuteLobby(w, c, sendFails).rooms[r].members[i];
            Fades(a, b) || (c.Resume? && b == Taken(a, c.sid))
  {
    if c.Resume? {
      ResumeTakesOver(w, c.sid, c.token, r, i);
    } else if c.Disconnected? {
      DisconnectFades(w, c.sid, c.token, r, i);
    } else if c.Exit? {
      ExitFades(w, c.sid, c.room, r, i);
    } else {
      LobbyOnlyCommandsSpareGames(w, c, sendFails, r);
    }
  }

  lemma UpdateFades(w: World, q: int, g: Geometry, r: int, i: int)
    requires WorldOK(w) && IsValidRoom(q) && IsValidRoom(r) && 0 <= i < PLAYERNUM
    ensures Fades(w.rooms[r].members[i], UpdateRoom(w, q, g).rooms[r].members[i])
  {
    UpdateLoosens(SceneAt(w, q), w.now, g);
  }

  lemma GameCommandFades(w: World, c: GameCommand, r: int)
    requires Shaped(w) && IsValidRoom(r)
    ensures ExecuteGame(w, c).rooms[r].members == w.rooms[r].members
  {
  }

  /** The slot fades, or is not the session's, or is taken over by it. */
  predicate FadesOrTaken(w: World, s: Step, r: int, i: int, sid: int)
    requires Shaped(w) && Enabled(w, s) && IsValidRoom(r) && 0 <= i < PLAYERNUM
  {
    var a, b := w.rooms[r].members[i], Apply(w, s).rooms[r].members[i];
    Fades(a, b) || b.sid != sid || TakesOver(w, s, r, i, sid)
  }

  lemma LobbyStepFades(w: World, sendFails: bool, r: int, i: int)
    requires WorldOK(w) && w.batch != [] && IsValidRoom(r) && 0 <= i < PLAYERNUM && w.rooms[r].status == InGame
    ensures var a, b := w.rooms[r].members[i], Apply(w, LobbyCommandStep(sendFails)).rooms[r].members[i];
            Fades(a, b) || (w.batch[0].Resume? && b == Taken(a, w.batch[0].sid))
  {
    assert CommandKnown(w.batch[0], w.net);
    CommandFades(Popped(w), w.batch[0], sendFails, r, i);
  }

  lemma LobbyFadesOrTaken(w: World, sendFails: bool, r: int, i: int, sid: int)
    requires WorldOK(w) && w.batch != [] && IsValidRoom(r) && 0 <= i < PLAYERNUM && w.rooms[r].status == InGame
    ensures FadesOrTaken(w, LobbyCommandStep(sendFails), r, i, sid)
  {
    LobbyStepFades(w, sendFails, r, i);
  }

  lemma GameFadesOrTaken(w: World, r: int, i: int, sid: int)
    requires Shaped(w) && w.gameBatch != [] && IsValidRoom(r) && 0 <= i < PLAYERNUM
    ensures FadesOrTaken(w, GameCommandStep, r, i, sid)
  {
    GameCommandFades(PoppedGame(w), w.gameBatch[0], r);
  }

  lemma UpdateFadesOrTaken(w: World, q: int, g: Geometry, r: int, i: int, sid: int)
    requires WorldOK(w) && IsValidRoom(q) && IsValidRoom(r) && 0 <= i < PLAYERNUM
    ensures FadesOrTaken(w, UpdateStep(q, g), r, i, sid)
  {
    UpdateFades(w, q, g, r, i);
  }

  lemma StepFades(w: World, s: Step, r: int, i: int, sid: int)
    requires WorldOK(w) && Enabled(w, s) && IsValidRoom(r) && 0 <= i < PLAYERNUM && w.rooms[r].status == InGame
    ensures FadesOrTaken(w, s, r, i, sid)
  {
    if s.LobbyCommandStep? {
      LobbyFadesOrTaken(w, s.sendFails, r, i, sid);
    } else if s.GameCommandStep? {
      GameFadesOrTaken(w, r, i, sid);
    } else if s.UpdateStep? {
      UpdateFadesOrTaken(w, s.room, s.geometry, r, i, sid);
    } else {
      OthersKeepRooms(w, s);
    }
  }

  // ---- over runs ----

  ghost predicate InMatch(room: Room, generation: nat) {
    room.status == InGame && room.game.state == Playing && room.game.generation == generation
  }

  /** At every moment of the run the match is on. */
  ghost predicate InMatchThroughout(w: World, steps: seq<Step>, r: int, generation: nat)
    requires WorldOK(w) && IsValidRoom(r)
  {
    forall n | 0 <= n <= |steps| :: IsRun(w, steps[..n]) && InMatch(After(w, steps[..n]).rooms[r], generation)
  }

  lemma MatchWasOn(w: World, a: seq<Step>, b: seq<Step>, r: int, generation: nat)
    requires WorldOK(w) && IsRun(w, a + b) && IsValidRoom(r)
    requires w.rooms[r].game.generation == generation
    requires IsCurrentGeneration(After(w, a + b).rooms[r].game, generation)
    ensures IsRun(w, a) && InMatch(After(w, a).rooms[r], generation)
  {
    RunSplits(w, a, b);
    RunKeepsWorld(w, a);
    RunKeepsWorld(After(w, a), b);
    var mid := After(w, a);
    assert Succeeds(w.rooms[r], mid.rooms[r]) && Succeeds(mid.rooms[r], After(w, a + b).rooms[r]);
    assert RoomOK(mid.rooms[r], mid.now);
  }

  lemma MatchGoesOn(w: World, steps: seq<Step>, r: int, generation: nat)
    requires WorldOK(w) && IsRun(w, steps) && IsValidRoom(r)
    requires w.rooms[r].game.generation == generation
    requires IsCurrentGeneration(After(w, steps).rooms[r].game, generation)
    ensures InMatchThroughout(w, steps, r, generation)
  {
    forall n | 0 <= n <= |steps|
      ensures IsRun(w, steps[..n]) && InMatch(After(w, steps[..n]).rooms[r], generation)
    {
      MatchWasOnAt(w, steps, n, r, generation);
    }
  }

  lemma MatchWasOnAt(w: World, steps: seq<Step>, n: nat, r: int, generation: nat)
    requires WorldOK(w) && IsRun(w, steps) && IsValidRoom(r) && n <= |steps|
    requires w.rooms[r].game.generation == generation
    requires IsCurrentGeneration(After(w, steps).rooms[r].game, generation)
    ensures IsRun(w, steps[..n]) && InMatch(After(w, steps[..n]).rooms[r], generation)
  {
    assert steps[..n] + steps[n..] == steps;
    MatchWasOn(w, steps[..n], steps[n..], r, generation);
  }

  /** Slot `i` grants the lease at every moment of the run. */
  ghost predicate HeldThroughout(w: World, steps: seq<Step>, r: int, i: int, sid: int, lease: MatchLease)
    requires WorldOK(w) && IsValidRoom(r)
  {
    forall n | 0 <= n <= |steps| :: IsRun(w, steps[..n]) && Grants(After(w, steps[..n]).rooms[r], i, sid, lease)
  }

  /** In step `n` of the run session `sid` takes over slot `i` by a Resume. */
  ghost predicate TakesOverAt(w: World, steps: seq<Step>, n: int, r: int, i: int, sid: int)
    requires WorldOK(w) && IsValidRoom(r) && 0 <= i < PLAYERNUM
  {
    && 0 <= n < |steps| && IsRun(w, steps[..n]) && Enabled(After(w, steps[..n]), steps[n])
    && TakesOver(After(w, steps[..n]), steps[n], r, i, sid)
  }

  /**
   * Slot `j` grants the lease at the start and slot `i` at the end; they are the same slot, which granted it all
   * along, or the session has taken over the other one on the way.
   */
  ghost predicate Stays(w: World, steps: seq<Step>, r: int, j: int, i: int, sid: int, lease: MatchLease)
    requires WorldOK(w) && IsRun(w, steps) && IsValidRoom(r)
  {
    && 0 <= i < PLAYERNUM
    && Grants(w.rooms[r], j, sid, lease) && Grants(After(w, steps).rooms[r], i, sid, lease)
    && if i == j then HeldThroughout(w, steps, r, i, sid, lease)
       else exists n :: TakesOverAt(w, steps, n, r, i, sid)
  }

  lemma HeldBetween(w: World, steps: seq<Step>, r: int, i: int, sid: int, lease: MatchLease)
    requires WorldOK(w) && IsRun(w, steps) && IsValidRoom(r)
    requires Grants(w.rooms[r], i, sid, lease) && Grants(After(w, steps).rooms[r], i, sid, lease)
    ensures HeldThroughout(w, steps, r, i, sid, lease)
  {
    forall n | 0 <= n <= |steps|
      ensures IsRun(w, steps[..n]) && Grants(After(w, steps[..n]).rooms[r], i, sid, lease)
    {
      HeldUpTo(w, steps, n, r, i, sid, lease);
    }
  }

  lemma HeldUpTo(w: World, steps: seq<Step>, n: nat, r: int, i: int, sid: int, lease: MatchLease)
    requires WorldOK(w) && IsRun(w, steps) && IsValidRoom(r) && n <= |steps|
    requires Grants(w.rooms[r], i, sid, lease) && Grants(After(w, steps).rooms[r], i, sid, lease)
    ensures IsRun(w, steps[..n]) && Grants(After(w, steps[..n]).rooms[r], i, sid, lease)
  {
    assert steps[..n] + steps[n..] == steps;
    HeldAt(w, steps[..n], steps[n..], r, i, sid, lease);
  }

  lemma HeldAt(w: World, a: seq<Step>, b: seq<Step>, r: int, i: int, sid: int, lease: MatchLease)
    requires WorldOK(w) && IsRun(w, a + b) && IsValidRoom(r)
    requires Grants(w.rooms[r], i, sid, lease) && Grants(After(w, a + b).rooms[r], i, sid, lease)
    ensures IsRun(w, a) && Grants(After(w, a).rooms[r], i, sid, lease)
  {
    RunSplits(w, a, b);
    RunKeepsWorld(w, a);
    var mid, end := After(w, a), After(w, a + b);
    RunKeepsWorld(mid, b);
    assert Succeeds(w.rooms[r], mid.rooms[r]) && Succeeds(mid.rooms[r], end.rooms[r]);
    assert Stamped(w.rooms[r].members[i], mid.rooms[r].members[i]);
    assert Stamped(mid.rooms[r].members[i], end.rooms[r].members[i]);
  }

  /** A slot that comes to grant a lease during a match is taken over by the lease's session on the way. */
  lemma {:induction false} SomebodyTookOver(w: World, steps: seq<Step>, r: int, i: int, sid: int, lease: MatchLease)
    returns (n: int)
    requires WorldOK(w) && IsRun(w, steps) && IsValidRoom(r) && 0 <= i < PLAYERNUM && sid != -1
    requires InMatchThroughout(w, steps, r, lease.matchGeneration)
    requires !Grants(w.rooms[r], i, sid, lease) && Grants(After(w, steps).rooms[r], i, sid, lease)
    ensures TakesOverAt(w, steps, n, r, i, sid)
    decreases |steps|
  {
    n := |steps| - 1;
    var head := steps[..n];
    RunLast(w, steps, head, steps[n]);
    var mid := After(w, head);
    if Grants(mid.rooms[r], i, sid, lease) {
      ShorterMatch(w, steps, r, lease.matchGeneration);
      n := SomebodyTookOver(w, head, r, i, sid, lease);
      TakenEarlier(w, steps, head, n, r, i, sid);
    } else {
      NewGrantIsTaken(mid, steps[n], r, i, sid, lease);
    }
  }

  lemma TakenEarlier(w: World, steps: seq<Step>, head: seq<Step>, n: int, r: int, i: int, sid: int)
    requires WorldOK(w) && IsValidRoom(r) && 0 <= i < PLAYERNUM && head <= steps
    requires TakesOverAt(w, head, n, r, i, sid)
    ensures TakesOverAt(w, steps, n, r, i, sid)
  {
    assert head[..n] == steps[..n];
  }

  lemma NewGrantIsTaken(w: World, s: Step, r: int, i: int, sid: int, lease: MatchLease)
    requires WorldOK(w) && Enabled(w, s) && IsValidRoom(r) && 0 <= i < PLAYERNUM && sid != -1
    requires w.rooms[r].status == InGame
    requires !Grants(w.rooms[r], i, sid, lease) && Grants(Apply(w, s).rooms[r], i, sid, lease)
    ensures TakesOver(w, s, r, i, sid)
  {
    StepFades(w, s, r, i, sid);
  }

  lemma ShorterMatch(w: World, steps: seq<Step>, r: int, generation: nat)
    requires WorldOK(w) && steps != [] && IsValidRoom(r) && InMatchThroughout(w, steps, r, generation)
    ensures InMatchThroughout(w, steps[..|steps| - 1], r, generation)
  {
    var head := steps[..|steps| - 1];
    forall n | 0 <= n <= |head| ensures head[..n] == steps[..n] {}
  }

  lemma Granter(room: Room, sid: int, lease: MatchLease) returns (i: int)
    requires RoomShaped(room) && IsCurrentLease(room, sid, lease)
    ensures 0 <= i < PLAYERNUM && Grants(room, i, sid, lease)
  {
    i :| 0 <= i < |room.members| && room.members[i].sid == sid && room.members[i].connection == Connected
         && room.members[i].generation == lease.memberGeneration;
  }

  lemma LeaseStays(w: World, steps: seq<Step>, r: int, sid: int, lease: MatchLease)
    requires WorldOK(w) && IsRun(w, steps) && IsValidRoom(r) && sid != -1
    requires IsCurrentLease(w.rooms[r], sid, lease) && IsCurrentLease(After(w, steps).rooms[r], sid, lease)
    requires InMatchThroughout(w, steps, r, lease.matchGeneration)
    ensures exists j, i :: Stays(w, steps, r, j, i, sid, lease)
  {
    RunKeepsWorld(w, steps);
    var i := Granter(After(w, steps).rooms[r], sid, lease);
    if Grants(w.rooms[r], i, sid, lease) {
      HeldBetween(w, steps, r, i, sid, lease);
      assert Stays(w, steps, r, i, i, sid, lease);
    } else {
      var j := Granter(w.rooms[r], sid, lease);
      var n := SomebodyTookOver(w, steps, r, i, sid, lease);
      assert Stays(w, steps, r, j, i, sid, lease);
    }
  }

  // ---- admission ----

  /** A game command that adds to a room's queue does so under a lease that is current there and then. */
  lemma AdmittedUnderALease(w: World, r: int, e: QueueEvent)
    requires WorldOK(w) && Enabled(w, GameCommandStep) && IsValidRoom(r)
    requires Apply(w, GameCommandStep).rooms[r].game.queue == w.rooms[r].game.queue + [e]
    ensures WorldOK(Apply(w, GameCommandStep)) && e.task.sid != -1
    ensures IsCurrentLease(Apply(w, GameCommandStep).rooms[r], e.task.sid, e.task.lease)
  {
    StepKeepsWorld(w, GameCommandStep);
    var w1, c := PoppedGame(w), w.gameBatch[0];
    GameCommandFades(w1, c, r);
    GameCommandAdmits(w1, c, r, e);
    LastQueued(Apply(w, GameCommandStep).rooms[r], w.rooms[r].game.queue, e, w.now);
  }

  lemma LastQueued(room: Room, q: seq<QueueEvent>, e: QueueEvent, now: int)
    requires RoomOK(room, now) && room.game.queue == q + [e]
    ensures e.task.sid != -1
  {
    assert room.game.queue[|q|] == e;
  }

  lemma GameCommandAdmits(w: World, c: GameCommand, r: int, e: QueueEvent)
    requires Shaped(w) && IsValidRoom(r) && RoomOK(w.rooms[r], w.now)
    requires ExecuteGame(w, c).rooms[r].game.queue == w.rooms[r].game.queue + [e]
    ensures IsCurrentLease(ExecuteGame(w, c).rooms[r], e.task.sid, e.task.lease)
  {
    var q := w.rooms[r].game.queue;
    assert (q + [e])[|q|] == e && q != q + [e];
    if c.room == r { AdmissionAppends(SceneAt(w, r), c, w.now); }
  }
}
