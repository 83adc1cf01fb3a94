/** One call of UpdateRooms as the sequence of atomic owner steps it consists of. */
module OwnerRound {
  import opened RoomCommand
  import opened SessionSpec
  import opened MatchSpec
  import opened RoomSpec
  import opened Protocol
  import opened RoomInvariant
  import opened ServerInvariant
  import opened ServerSteps

  /** Nothing but rooms and sessions differs. */
  predicate SameRest(w: World, w': World) {
    w' == w.(rooms := w'.rooms, net := w'.net)
  }

  lemma {:induction false} CreateKeepsRest(w: World, sid: int, r: nat)
    requires Shaped(w) && r <= ROOM_CAPACITY
    ensures SameRest(w, CreateFrom(w, sid, r))
    decreases ROOM_CAPACITY - r
  {
    if r < ROOM_CAPACITY { CreateKeepsRest(w, sid, r + 1); }
  }

  lemma {:induction false} ResumeKeepsRest(w: World, sid: int, token: nat, r: nat)
    requires Shaped(w) && r <= ROOM_CAPACITY
    ensures SameRest(w, ResumeFrom(w, sid, token, r))
    decreases ROOM_CAPACITY - r
  {
    if r < ROOM_CAPACITY { ResumeKeepsRest(w, sid, token, r + 1); }
  }

  lemma {:induction false} DisconnectKeepsRest(w: World, sid: int, token: nat, upTo: nat)
    requires Shaped(w) && upTo <= ROOM_CAPACITY
    ensures SameRest(w, DisconnectUpTo(w, sid, token, upTo))
    decreases upTo
  {
    if upTo > 0 { DisconnectKeepsRest(w, sid, token, upTo - 1); }
  }

  lemma CommandKeepsRest(w: World, c: LobbyCommand, sendFails: bool)
    requires Shaped(w)
    ensures SameRest(w, ExecuteLobby(w, c, sendFails))
  {
    match c {
      case Create(sid) => CreateKeepsRest(w, sid, 0);
      case Disconnected(sid, token) => DisconnectKeepsRest(w, sid, token, ROOM_CAPACITY);
      case Resume(sid, token) => ResumeKeepsRest(w, sid, token, 0);
      case _ =>
    }
  }

  /** DrainLobbyCommands after the drain; `sendFails[i]` says whether the sends for command `i` fail. */
  function ExecuteBatch(w: World, sendFails: seq<bool>): (w': World)
    requires Shaped(w)
    ensures Shaped(w')
    decreases |sendFails|
  {
    if w.batch == [] || sendFails == [] then w
    else ExecuteBatch(Apply(w, LobbyCommandStep(sendFails[0])), sendFails[1..])
  }

  function ExecuteGameBatch(w: World): (w': World)
    requires Shaped(w)
    ensures Shaped(w')
    decreases |w.gameBatch|
  {
    if w.gameBatch == [] then w else ExecuteGameBatch(Apply(w, GameCommandStep))
  }

  function UpdateFrom(w: World, geometry: seq<Geometry>, r: nat): (w': World)
    requires Shaped(w) && |geometry| == ROOM_CAPACITY && r <= ROOM_CAPACITY
    ensures Shaped(w')
    decreases ROOM_CAPACITY - r
  {
    if r == ROOM_CAPACITY then w else UpdateFrom(UpdateRoom(w, r, geometry[r]), geometry, r + 1)
  }

  /** The owner takes up to 512 commands off each queue before it executes them. */
  function LobbyDrained(w: World): (w': World) {
    var k := Least(|w.net.lobby|, MAX_COMMANDS_PER_UPDATE);
    w.(batch := w.net.lobby[..k], net := w.net.(lobby := w.net.lobby[k..]))
  }

  function GameDrained(w: World): (w': World) {
    var k := Least(|w.game|, MAX_COMMANDS_PER_UPDATE);
    w.(gameBatch := w.game[..k], game := w.game[k..])
  }

  lemma DrainsAreSteps(w: World)
    requires Shaped(w)
    ensures w.batch == [] ==> Apply(w, DrainLobbyStep) == LobbyDrained(w)
    ensures w.gameBatch == [] ==> Apply(w, DrainGameStep) == GameDrained(w)
  {
  }

  function LobbyRound(w: World, sendFails: seq<bool>): (w': World)
    requires Shaped(w) && w.batch == []
    ensures Shaped(w')
  {
    ExecuteBatch(LobbyDrained(w), sendFails)
  }

  function GameRound(w: World): (w': World)
    requires Shaped(w) && w.gameBatch == []
    ensures Shaped(w')
  {
    ExecuteGameBatch(GameDrained(w))
  }

  lemma {:induction false} BatchKeepsRest(w: World, sendFails: seq<bool>)
    requires Shaped(w)
    ensures ExecuteBatch(w, sendFails).gameBatch == w.gameBatch && ExecuteBatch(w, sendFails).now == w.now
    decreases |sendFails|
  {
    if w.batch != [] && sendFails != [] {
      CommandKeepsRest(Popped(w), w.batch[0], sendFails[0]);
      BatchKeepsRest(Apply(w, LobbyCommandStep(sendFails[0])), sendFails[1..]);
    }
  }

  lemma RoundKeepsRest(w: World, sendFails: seq<bool>)
    requires Shaped(w) && w.batch == []
    ensures LobbyRound(w, sendFails).gameBatch == w.gameBatch && LobbyRound(w, sendFails).now == w.now
  {
    BatchKeepsRest(LobbyDrained(w), sendFails);
  }

  lemma {:induction false} GameBatchKeepsNow(w: World)
    requires Shaped(w)
    ensures ExecuteGameBatch(w).now == w.now
    decreases |w.gameBatch|
  {
    if w.gameBatch != [] { GameBatchKeepsNow(Apply(w, GameCommandStep)); }
  }

  lemma GameRoundKeepsNow(w: World)
    requires Shaped(w) && w.gameBatch == []
    ensures GameRound(w).now == w.now
  {
    GameBatchKeepsNow(GameDrained(w));
  }

  // ---- each part is a run of owner steps ----

  ghost predicate Runs(w: World, w': World) {
    WorldOK(w) && exists steps :: OwnerRun(w, steps, w')
  }

  /** `steps` lead from `w` to `w'`, and are all the owner's. */
  ghost predicate OwnerRun(w: World, steps: seq<Step>, w': World)
    requires WorldOK(w)
  {
    IsRun(w, steps) && (forall i | 0 <= i < |steps| :: ByOwnerThread(steps[i])) && After(w, steps) == w'
  }

  lemma RunsFirst(w: World, s: Step, w': World)
    requires WorldOK(w) && Enabled(w, s) && ByOwnerThread(s) && Runs(Apply(w, s), w')
    ensures Runs(w, w')
  {
    var rest :| OwnerRun(Apply(w, s), rest, w');
    OwnerRunCons(w, s, rest, w');
  }

  lemma OwnerRunCons(w: World, s: Step, rest: seq<Step>, w': World)
    requires WorldOK(w) && Enabled(w, s) && ByOwnerThread(s)
    requires WorldOK(Apply(w, s)) && OwnerRun(Apply(w, s), rest, w')
    ensures OwnerRun(w, [s] + rest, w')
  {
    RunCons(w, s, rest);
  }

  lemma RunsNothing(w: World)
    requires WorldOK(w)
    ensures Runs(w, w)
  {
    assert OwnerRun(w, [], w);
  }

  lemma {:induction false} BatchRuns(w: World, sendFails: seq<bool>)
    requires WorldOK(w)
    ensures Runs(w, ExecuteBatch(w, sendFails))
    decreases |sendFails|
  {
    if w.batch == [] || sendFails == [] {
      RunsNothing(w);
    } else {
      StepKeepsWorld(w, LobbyCommandStep(sendFails[0]));
      BatchRuns(Apply(w, LobbyCommandStep(sendFails[0])), sendFails[1..]);
      RunsFirst(w, LobbyCommandStep(sendFails[0]), ExecuteBatch(w, sendFails));
    }
  }

  lemma {:induction false} GameBatchRuns(w: World)
    requires WorldOK(w)
    ensures Runs(w, ExecuteGameBatch(w))
    decreases |w.gameBatch|
  {
    if w.gameBatch == [] {
      RunsNothing(w);
    } else {
      StepKeepsWorld(w, GameCommandStep);
      GameBatchRuns(Apply(w, GameCommandStep));
      RunsFirst(w, GameCommandStep, ExecuteGameBatch(w));
    }
  }

  lemma {:induction false} UpdatesRun(w: World, geometry: seq<Geometry>, r: nat)
    requires WorldOK(w) && |geometry| == ROOM_CAPACITY && r <= ROOM_CAPACITY
    ensures Runs(w, UpdateFrom(w, geometry, r))
    decreases ROOM_CAPACITY - r
  {
    if r == ROOM_CAPACITY {
      RunsNothing(w);
    } else {
      var w1 := UpdateRoom(w, r, geometry[r]);
      UpdateIsStep(w, r, geometry[r]);
      UpdatesRun(w1, geometry, r + 1);
      UpdateRunsFirst(w, r, geometry[r], w1, UpdateFrom(w, geometry, r));
    }
  }

  lemma UpdateIsStep(w: World, r: int, g: Geometry)
    requires WorldOK(w) && IsValidRoom(r)
    ensures Apply(w, UpdateStep(r, g)) == UpdateRoom(w, r, g) && WorldOK(UpdateRoom(w, r, g))
  {
    UpdateRoomStep(w, r, g);
  }

  lemma UpdateRunsFirst(w: World, r: int, g: Geometry, w1: World, w': World)
    requires WorldOK(w) && IsValidRoom(r) && w1 == UpdateRoom(w, r, g) && Runs(w1, w')
    ensures Runs(w, w')
  {
    UpdateIsStep(w, r, g);
    RunsFirst(w, UpdateStep(r, g), w');
  }

  /** A drain followed by the execution of what was drained. */
  lemma RoundsRun(w: World, sendFails: seq<bool>)
    requires WorldOK(w)
    ensures w.batch == [] ==> Runs(w, LobbyRound(w, sendFails))
    ensures w.gameBatch == [] ==> Runs(w, GameRound(w))
  {
    DrainsAreSteps(w);
    if w.batch == [] {
      StepKeepsWorld(w, DrainLobbyStep);
      BatchRuns(Apply(w, DrainLobbyStep), sendFails);
      RunsFirst(w, DrainLobbyStep, LobbyRound(w, sendFails));
    }
    if w.gameBatch == [] {
      StepKeepsWorld(w, DrainGameStep);
      GameBatchRuns(Apply(w, DrainGameStep));
      RunsFirst(w, DrainGameStep, GameRound(w));
    }
  }

  /** What a call of UpdateRooms does keeps every invariant of runs. */
  lemma RunsKeepReachable(w: World, w': World)
    requires Reachable(w) && Runs(w, w')
    ensures Reachable(w') && WorldOK(w')
  {
    var steps :| OwnerRun(w, steps, w');
    RunReaches(w, steps);
    RunKeepsWorld(w, steps);
  }

  /** The whole turn of the owner. */
  function Round(w: World, sendFails: seq<bool>, geometry: seq<Geometry>): (w': World)
    requires Shaped(w) && w.batch == [] && w.gameBatch == [] && |geometry| == ROOM_CAPACITY
    ensures Shaped(w')
  {
    RoundKeepsRest(w, sendFails);
    UpdateFrom(GameRound(LobbyRound(w, sendFails)), geometry, 0)
  }

  lemma RoundReachable(w: World, sendFails: seq<bool>, geometry: seq<Geometry>)
    requires Reachable(w) && WorldOK(w) && w.batch == [] && w.gameBatch == [] && |geometry| == ROOM_CAPACITY
    ensures Reachable(Round(w, sendFails, geometry)) && WorldOK(Round(w, sendFails, geometry))
  {
    RoundKeepsRest(w, sendFails);
    var w1 := LobbyRound(w, sendFails);
    RoundsRun(w, sendFails);
    RunsKeepReachable(w, w1);
    RoundsRun(w1, []);
    RunsKeepReachable(w1, GameRound(w1));
    UpdatesRun(GameRound(w1), geometry, 0);
    RunsKeepReachable(GameRound(w1), Round(w, sendFails, geometry));
  }

  lemma {:induction false} RunReaches(w: World, steps: seq<Step>)
    requires Reachable(w) && WorldOK(w) && IsRun(w, steps)
    ensures Reachable(After(w, steps))
    decreases |steps|
  {
    if steps != [] {
      StepKeepsWorld(w, steps[0]);
      ReachableStep(w, steps[0]);
      RunReaches(Apply(w, steps[0]), steps[1..]);
    }
  }
}
