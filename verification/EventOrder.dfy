/** Over whole runs, the events of a room run in the order in which their packets were accepted. */
module EventOrder {
  import opened RoomCommand
  import opened SessionSpec
  import opened Scheduler
  import opened MatchSpec
  import opened RoomSpec
  import opened Protocol
  import opened RoomInvariant
  import opened ServerInvariant
  import opened ServerSteps
  import opened MatchIsolation
  import opened OwnerRound

  // ---- histories of a run ----

  /** The game command that a step adds to GameCommandQueue, if any. */
  function AcceptedBy(w: World, s: Step): seq<GameCommand>
    requires Shaped(w) && Enabled(w, s)
  {
    if s.GameQueueStep? && |w.game| < w.gameCapacity then
      var b := HandlerOf(w, s.sid).binding;
      [GameCommand(s.sid, b.room, b.lease, s.packet)]
    else []
  }

  function ExecutedBy(w: World, s: Step): seq<GameCommand>
    requires Shaped(w) && Enabled(w, s)
  {
    if s.GameCommandStep? then [w.gameBatch[0]] else []
  }

  function Tasks(queue: seq<QueueEvent>): (tasks: seq<GameEvent>)
    ensures |tasks| == |queue|
  {
    seq(|queue|, i requires 0 <= i < |queue| => queue[i].task)
  }

  /** The events of room `r` that a step runs: in an update whose tick takes place, the whole queue. */
  function RanBy(w: World, s: Step, r: int): seq<GameEvent>
    requires Shaped(w) && Enabled(w, s) && IsValidRoom(r)
  {
    if s.UpdateStep? && s.room == r && w.rooms[r].status == InGame && Ticking(w, r).status == InGame
    then Tasks(w.rooms[r].game.queue) else []
  }

  ghost function Accepted(w: World, steps: seq<Step>): seq<GameCommand>
    requires WorldOK(w) && IsRun(w, steps)
    decreases |steps|
  {
    if steps == [] then []
    else
      StepKeepsWorld(w, steps[0]);
      AcceptedBy(w, steps[0]) + Accepted(Apply(w, steps[0]), steps[1..])
  }

  ghost function Executed(w: World, steps: seq<Step>): seq<GameCommand>
    requires WorldOK(w) && IsRun(w, steps)
    decreases |steps|
  {
    if steps == [] then []
    else
      StepKeepsWorld(w, steps[0]);
      ExecutedBy(w, steps[0]) + Executed(Apply(w, steps[0]), steps[1..])
  }

  ghost function Ran(w: World, steps: seq<Step>, r: int): seq<GameEvent>
    requires WorldOK(w) && IsRun(w, steps) && IsValidRoom(r)
    decreases |steps|
  {
    if steps == [] then []
    else
      StepKeepsWorld(w, steps[0]);
      RanBy(w, steps[0], r) + Ran(Apply(w, steps[0]), steps[1..], r)
  }

  // ---- the command queue ----

  lemma CommandStepFrame(w: World, c: GameCommand)
    requires Shaped(w)
    ensures ExecuteGame(w, c).game == w.game && ExecuteGame(w, c).gameBatch == w.gameBatch
  {
  }

  lemma OtherStepFrame(w: World, s: Step)
    requires Shaped(w) && Enabled(w, s) && !s.GameQueueStep? && !s.GameCommandStep? && !s.DrainGameStep?
    requires !s.LobbyCommandStep?
    ensures Apply(w, s).game == w.game && Apply(w, s).gameBatch == w.gameBatch
  {
  }

  lemma StepCommands(w: World, s: Step)
    requires Shaped(w) && Enabled(w, s)
    ensures w.gameBatch + w.game + AcceptedBy(w, s) == ExecutedBy(w, s) + (Apply(w, s).gameBatch + Apply(w, s).game)
  {
    if s.GameCommandStep? {
      CommandStepFrame(PoppedGame(w), w.gameBatch[0]);
      assert w.gameBatch == [w.gameBatch[0]] + w.gameBatch[1..];
    } else if s.LobbyCommandStep? {
      CommandKeepsGame(w, s.sendFails);
    } else if !s.GameQueueStep? && !s.DrainGameStep? {
      OtherStepFrame(w, s);
    }
  }

  lemma CommandKeepsGame(w: World, sendFails: bool)
    requires Shaped(w) && w.batch != []
    ensures var w' := Apply(w, LobbyCommandStep(sendFails)); w'.game == w.game && w'.gameBatch == w.gameBatch
  {
    CommandKeepsRest(Popped(w), w.batch[0], sendFails);
  }

  /** GameCommandQueue is first in, first out over every run: what was accepted is executed in that order, or waits. */
  lemma {:induction false} CommandsInOrder(w: World, steps: seq<Step>)
    requires WorldOK(w) && IsRun(w, steps)
    ensures w.gameBatch + w.game + Accepted(w, steps)
            == Executed(w, steps) + (After(w, steps).gameBatch + After(w, steps).game)
    decreases |steps|
  {
    if steps != [] {
      var w1 := Apply(w, steps[0]);
      StepKeepsWorld(w, steps[0]);
      StepCommands(w, steps[0]);
      CommandsInOrder(w1, steps[1..]);
      Chained(w.gameBatch + w.game, AcceptedBy(w, steps[0]), Accepted(w1, steps[1..]), ExecutedBy(w, steps[0]),
              w1.gameBatch + w1.game, Executed(w1, steps[1..]), After(w, steps).gameBatch + After(w, steps).game);
    }
  }

  lemma Chained<T>(pending: seq<T>, accepted: seq<T>, acceptedLater: seq<T>, executed: seq<T>, pendingNext: seq<T>,
                   executedLater: seq<T>, pendingLast: seq<T>)
    requires pending + accepted == executed + pendingNext
    requires pendingNext + acceptedLater == executedLater + pendingLast
    ensures pending + (accepted + acceptedLater) == (executed + executedLater) + pendingLast
  {
    Assoc(pending, accepted, acceptedLater);
    Assoc(executed, pendingNext, acceptedLater);
    Assoc(executed, executedLater, pendingLast);
  }

  // ---- subsequences ----

  /** `a` is `b` with some elements left out. */
  predicate Within<T(==)>(a: seq<T>, b: seq<T>)
    decreases |b|
  {
    a == [] || (b != [] && ((a[0] == b[0] && Within(a[1..], b[1..])) || Within(a, b[1..])))
  }

  lemma {:induction false} WithinPrefixed<T>(p: seq<T>, a: seq<T>, b: seq<T>)
    requires Within(a, b)
    ensures Within(p + a, p + b)
    decreases |p|
  {
    if p == [] {
      assert p + a == a && p + b == b;
    } else {
      assert (p + a)[1..] == p[1..] + a && (p + b)[1..] == p[1..] + b;
      WithinPrefixed(p[1..], a, b);
    }
  }

  lemma {:induction false} WithinMore<T>(a: seq<T>, b: seq<T>, more: seq<T>, c: seq<T>)
    requires Within(a, b + c)
    ensures Within(a, b + more + c)
    decreases |b|, |more|
  {
    if a != [] {
      if b != [] {
        assert (b + c)[1..] == b[1..] + c && (b + more + c)[1..] == b[1..] + more + c;
        if a[0] == b[0] && Within(a[1..], b[1..] + c) { WithinMore(a[1..], b[1..], more, c); } else { WithinMore(a, b[1..], more, c); }
      } else if more == [] {
        assert b + more + c == b + c;
      } else {
        assert (b + more + c)[1..] == b + more[1..] + c;
        WithinMore(a, b, more[1..], c);
      }
    }
  }

  // ---- the events of one room ----

  function Request(c: GameCommand, r: int): seq<GameEvent> {
    if c.room == r && Kind(c.packet) != [] then [GameEvent(c.sid, c.lease, Kind(c.packet)[0])] else []
  }

  /** The events that commands ask room `r` for, in order. */
  function Requests(commands: seq<GameCommand>, r: int): seq<GameEvent>
    decreases |commands|
  {
    if commands == [] then [] else Request(commands[0], r) + Requests(commands[1..], r)
  }

  lemma {:induction false} RequestsConcat(a: seq<GameCommand>, b: seq<GameCommand>, r: int)
    ensures Requests(a + b, r) == Requests(a, r) + Requests(b, r)
    decreases |a|
  {
    if a == [] {
      assert a + b == b;
    } else {
      assert (a + b)[1..] == a[1..] + b;
      RequestsConcat(a[1..], b, r);
    }
  }

  /** A queue that a step leaves as it is, or clears. */
  predicate KeptOrCleared(a: Room, b: Room) {
    b.game.queue == a.game.queue || b.game.queue == []
  }

  lemma UserOutQueue(c: Scene, sid: int, now: int)
    requires RoomOK(c.room, now) && sid != -1
    ensures KeptOrCleared(c.room, UserOut(c, sid).room)
  {
    var i := IndexOf(c.room.members, sid);
    if i >= 0 && c.room.status == InGame { PlayerLeftCoupled(c.room, i); }
  }

  lemma ExitQueue(w: World, sid: int, room: int, r: int)
    requires WorldOK(w) && IsValidRoom(r) && sid in w.net.sessions
    ensures KeptOrCleared(w.rooms[r], ExitRoom(w, sid, room).rooms[r])
  {
    UserOutQueue(SceneAt(w, r), sid, w.now);
  }

  lemma CreateQueue(w: World, sid: int, r: int)
    requires Shaped(w) && IsValidRoom(r)
    ensures KeptOrCleared(w.rooms[r], CreateRoom(w, sid).rooms[r])
  {
    CreateTurn(w, sid, r);
  }

  lemma EnterQueue(w: World, sid: int, room: int, r: int)
    requires Shaped(w) && IsValidRoom(r)
    ensures KeptOrCleared(w.rooms[r], EnterRoom(w, sid, room).rooms[r])
  {
    EnterDims(w, sid, room, r);
  }

  lemma ResumeQueue(w: World, sid: int, token: nat, r: int)
    requires Shaped(w) && IsValidRoom(r)
    ensures KeptOrCleared(w.rooms[r], ResumeSession(w, sid, token).rooms[r])
  {
    ResumeTurn(w, sid, token, r);
  }

  lemma DisconnectQueue(w: World, sid: int, token: nat, r: int)
    requires WorldOK(w) && IsValidRoom(r) && sid in w.net.sessions
    ensures KeptOrCleared(w.rooms[r], DisconnectUpTo(w, sid, token, ROOM_CAPACITY).rooms[r])
  {
    DisconnectRooms(w, sid, token, ROOM_CAPACITY, r);
    UserOutQueue(SceneAt(w, r), sid, w.now);
  }

  lemma SetReadyQueue(w: World, sid: int, ready: bool, r: int)
    requires Shaped(w) && IsValidRoom(r)
    ensures KeptOrCleared(w.rooms[r], SetReadyCommand(w, sid, ready).rooms[r])
  {
  }

  lemma CommandQueue(w: World, c: LobbyCommand, sendFails: bool, r: int)
    requires WorldOK(w) && CommandKnown(c, w.net) && IsValidRoom(r)
    ensures KeptOrCleared(w.rooms[r], ExecuteLobby(w, c, sendFails).rooms[r])
  {
    if c.Create? {
      CreateQueue(w, c.sid, r);
    } else if c.Enter? {
      EnterQueue(w, c.sid, c.room, r);
    } else if c.SetReady? {
      SetReadyQueue(w, c.sid, c.ready, r);
    } else if c.Exit? {
      ExitQueue(w, c.sid, c.room, r);
    } else if c.Disconnected? {
      DisconnectQueue(w, c.sid, c.token, r);
    } else if c.Resume? {
      ResumeQueue(w, c.sid, c.token, r);
    }
  }

  lemma LobbyStepQueue(w: World, sendFails: bool, r: int)
    requires WorldOK(w) && w.batch != [] && IsValidRoom(r)
    ensures KeptOrCleared(w.rooms[r], Apply(w, LobbyCommandStep(sendFails)).rooms[r])
  {
    assert CommandKnown(w.batch[0], w.net);
    CommandQueue(Popped(w), w.batch[0], sendFails, r);
  }

  lemma TasksAppend(q: seq<QueueEvent>, e: QueueEvent)
    ensures Tasks(q + [e]) == Tasks(q) + [e.task]
  {
  }

  /** A game command adds what it asks for to the end of its room's queue, or nothing. */
  lemma GameCommandQueues(w: World, c: GameCommand, r: int)
    requires Shaped(w) && IsValidRoom(r) && RoomOK(w.rooms[r], w.now)
    ensures var q, q' := w.rooms[r].game.queue, ExecuteGame(w, c).rooms[r].game.queue;
            q' == q || Tasks(q') == Tasks(q) + Request(c, r)
  {
    if c.room == r {
      AdmissionAppends(SceneAt(w, r), c, w.now);
      var q, q' := w.rooms[r].game.queue, ProcessGamePacket(SceneAt(w, r), c, w.now).room.game.queue;
      if q' != q {
        assert q' == q + [q'[|q|]];
        TasksAppend(q, q'[|q|]);
        assert q'[|q|].task == GameEvent(c.sid, c.lease, Kind(c.packet)[0]);
      }
    }
  }

  lemma GameStepQueue(w: World, r: int)
    requires WorldOK(w) && w.gameBatch != [] && IsValidRoom(r)
    ensures var q, q' := w.rooms[r].game.queue, ExecuteGame(PoppedGame(w), w.gameBatch[0]).rooms[r].game.queue;
            q' == q || Tasks(q') == Tasks(q) + Requests([w.gameBatch[0]], r)
  {
    var c := w.gameBatch[0];
    assert RoomOK(w.rooms[r], w.now);
    GameCommandQueues(PoppedGame(w), c, r);
    assert [c][1..] == [] && Requests([c], r) == Request(c, r) + [];
  }

  lemma UpdateStepQueue(w: World, q: int, g: Geometry, r: int)
    requires WorldOK(w) && IsValidRoom(q) && IsValidRoom(r)
    ensures UpdateRoom(w, q, g).rooms[r].game.queue == if q == r then [] else w.rooms[r].game.queue
  {
    if q == r { UpdateEmptiesQueue(SceneAt(w, r), w.now, g); }
  }

  /** A queue is run, added to at its end, left alone, or cleared. */
  predicate Moves(was: seq<GameEvent>, request: seq<GameEvent>, ran: seq<GameEvent>, rest: seq<GameEvent>) {
    ran + rest == was + request || ran + rest == was || ran + rest == []
  }

  lemma StillMoves(was: seq<GameEvent>, request: seq<GameEvent>, rest: seq<GameEvent>)
    requires rest == was || rest == was + request || rest == []
    ensures Moves(was, request, [], rest)
  {
    assert [] + rest == rest;
  }

  lemma RunningMoves(was: seq<GameEvent>, request: seq<GameEvent>)
    ensures Moves(was, request, was, [])
  {
    assert was + [] == was;
  }

  lemma UpdateStepMoves(w: World, q: int, g: Geometry, r: int)
    requires WorldOK(w) && IsValidRoom(q) && IsValidRoom(r)
    ensures Moves(Tasks(w.rooms[r].game.queue), [], RanBy(w, UpdateStep(q, g), r), Tasks(UpdateRoom(w, q, g).rooms[r].game.queue))
  {
    UpdateStepQueue(w, q, g, r);
    RunningMoves(Tasks(w.rooms[r].game.queue), []);
    StillMoves(Tasks(w.rooms[r].game.queue), [], Tasks(UpdateRoom(w, q, g).rooms[r].game.queue));
  }

  lemma StepQueue(w: World, s: Step, r: int)
    requires WorldOK(w) && Enabled(w, s) && IsValidRoom(r)
    ensures Moves(Tasks(w.rooms[r].game.queue), Requests(ExecutedBy(w, s), r), RanBy(w, s, r),
                  Tasks(Apply(w, s).rooms[r].game.queue))
  {
    if s.UpdateStep? {
      UpdateStepMoves(w, s.room, s.geometry, r);
    } else {
      OtherStepQueue(w, s, r);
      StillMoves(Tasks(w.rooms[r].game.queue), Requests(ExecutedBy(w, s), r), Tasks(Apply(w, s).rooms[r].game.queue));
    }
  }

  lemma OtherStepQueue(w: World, s: Step, r: int)
    requires WorldOK(w) && Enabled(w, s) && IsValidRoom(r) && !s.UpdateStep?
    ensures var q, q' := w.rooms[r].game.queue, Apply(w, s).rooms[r].game.queue;
            q' == q || q' == [] || Tasks(q') == Tasks(q) + Requests(ExecutedBy(w, s), r)
  {
    if s.LobbyCommandStep? {
      LobbyStepQueue(w, s.sendFails, r);
    } else if s.GameCommandStep? {
      GameStepQueue(w, r);
    } else {
      OthersKeepRooms(w, s);
    }
  }

  lemma Assoc<T>(a: seq<T>, b: seq<T>, c: seq<T>)
    ensures (a + b) + c == a + (b + c)
  {
  }

  /** One step more in front of a run whose events are in order. */
  lemma OneMoreInOrder(was: seq<GameEvent>, request: seq<GameEvent>, ran: seq<GameEvent>, rest: seq<GameEvent>,
                       later: seq<GameEvent>, requests: seq<GameEvent>)
    requires Moves(was, request, ran, rest)
    requires Within(later, rest + requests)
    ensures Within(ran + later, was + (request + requests))
  {
    WithinPrefixed(ran, later, rest + requests);
    Assoc(ran, rest, requests);
    Assoc(was, request, requests);
    if ran + rest == was + request {
    } else if ran + rest == was {
      WithinMore(ran + later, was, request, requests);
    } else {
      ClearedInOrder(was + request, ran + later, requests);
    }
  }

  lemma ClearedInOrder(gone: seq<GameEvent>, later: seq<GameEvent>, requests: seq<GameEvent>)
    requires Within(later, [] + requests)
    ensures Within(later, gone + requests)
  {
    WithinMore(later, [], gone, requests);
    assert [] + gone == gone;
  }

  /** The events a room has run, then those it holds, are among those its executed commands asked for, in that order. */
  lemma {:induction false} EventsInOrder(w: World, steps: seq<Step>, r: int)
    requires WorldOK(w) && IsRun(w, steps) && IsValidRoom(r)
    ensures Within(Ran(w, steps, r) + Tasks(After(w, steps).rooms[r].game.queue),
                   Tasks(w.rooms[r].game.queue) + Requests(Executed(w, steps), r))
    decreases |steps|
  {
    if steps == [] {
      NothingInOrder(Tasks(w.rooms[r].game.queue));
    } else {
      var s, w1 := steps[0], Apply(w, steps[0]);
      StepKeepsWorld(w, s);
      EventsInOrder(w1, steps[1..], r);
      var held, later := Tasks(After(w, steps).rooms[r].game.queue), Ran(w1, steps[1..], r);
      FirstStepInOrder(w, s, r, later + held, Executed(w1, steps[1..]));
      Assoc(RanBy(w, s, r), later, held);
    }
  }

  lemma NothingInOrder(was: seq<GameEvent>)
    ensures Within([] + was, was + [])
  {
    WithinPrefixed(was, [], []);
    assert was + [] == was && [] + was == was;
  }

  lemma FirstStepInOrder(w: World, s: Step, r: int, later: seq<GameEvent>, executed: seq<GameCommand>)
    requires WorldOK(w) && Enabled(w, s) && IsValidRoom(r)
    requires Within(later, Tasks(Apply(w, s).rooms[r].game.queue) + Requests(executed, r))
    ensures Within(RanBy(w, s, r) + later, Tasks(w.rooms[r].game.queue) + Requests(ExecutedBy(w, s) + executed, r))
  {
    StepQueue(w, s, r);
    OneMoreInOrder(Tasks(w.rooms[r].game.queue), Requests(ExecutedBy(w, s), r), RanBy(w, s, r),
                   Tasks(Apply(w, s).rooms[r].game.queue), later, Requests(executed, r));
    RequestsConcat(ExecutedBy(w, s), executed, r);
  }

  /** Commands still waiting ask for events behind all others. */
  lemma WithinAccepted(a: seq<GameEvent>, executed: seq<GameCommand>, waiting: seq<GameCommand>, r: int)
    requires Within(a, Requests(executed, r))
    ensures Within(a, Requests(executed + waiting, r))
  {
    RequestsConcat(executed, waiting, r);
    assert Requests(executed, r) + [] == Requests(executed, r);
    WithinMore(a, Requests(executed, r), Requests(waiting, r), []);
    assert Requests(executed, r) + Requests(waiting, r) + [] == Requests(executed, r) + Requests(waiting, r);
  }

  /** What has been run and is held, of a room that held nothing, is within what was asked for. */
  lemma FromNothing(queued: seq<GameCommand>, held: seq<GameEvent>, accepted: seq<GameCommand>,
                    executed: seq<GameCommand>, waiting: seq<GameCommand>, a: seq<GameEvent>, r: int)
    requires queued == [] && held == [] && queued + accepted == executed + waiting
    requires Within(a, held + Requests(executed, r))
    ensures accepted == executed + waiting && Within(a, Requests(accepted, r))
  {
    assert queued + accepted == accepted;
    assert held + Requests(executed, r) == Requests(executed, r);
    WithinAccepted(a, executed, waiting, r);
  }
}
