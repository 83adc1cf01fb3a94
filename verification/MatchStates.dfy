/** MatchState as an object that updates its players, generators and scheduler in place. */
module MatchStates {
  import opened RoomCommand
  import opened Scheduler
  import opened MatchSpec
  import opened WorldRewinder

  class MatchState {
    const players: array<Player>
    const generators: array<Generator>
    const jobQueue: ServerEventScheduler<GameEvent>
    var state: GameState
    var generation: nat
    var exitReady: bool
    var positionBroadcastPhase: nat
    var history: seq<Entry>
    var faulted: bool

    constructor (now: int)
      ensures Valid() && fresh(Repr())
      ensures View() == Match(NoGame, 0, seq(PLAYERNUM, i => Player(-1, -1, false, 3, Idle, false, false, STILL, UNPLACED)),
                              seq(GENCNT, i => COLD), false, 0, [], [], 0, false)
    {
      players := new Player[PLAYERNUM](i => Player(-1, -1, false, 3, Idle, false, false, STILL, UNPLACED));
      generators := new Generator[GENCNT](i => COLD);
      jobQueue := new ServerEventScheduler(now);
      state, generation, exitReady, positionBroadcastPhase, history, faulted := NoGame, 0, false, 0, [], false;
      new;
      assert players[..] == seq(PLAYERNUM, i => Player(-1, -1, false, 3, Idle, false, false, STILL, UNPLACED));
      assert generators[..] == seq(GENCNT, i => COLD);
    }

    ghost function Repr(): set<object> {
      {this, players, generators, jobQueue}
    }

    ghost predicate Valid() {
      players.Length == PLAYERNUM && generators.Length == GENCNT
    }

    ghost function View(): (m: Match)
      requires Valid()
      reads Repr()
      ensures |m.players| == PLAYERNUM && |m.generators| == GENCNT
    {
      Match(state, generation, players[..], generators[..], exitReady, positionBroadcastPhase, history,
            jobQueue.taskQueue, jobQueue.nextSequence, faulted)
    }

    method ResetGenerators()
      requires Valid()
      modifies generators
      ensures generators[..] == seq(GENCNT, i => COLD)
    {
      for k := 0 to GENCNT
        invariant forall j | 0 <= j < k :: generators[j] == COLD
      {
        generators[k] := COLD;
      }
    }

    method Start(playerSids: seq<int>) returns (started: nat)
      requires Valid() && |playerSids| == PLAYERNUM
      modifies Repr()
      ensures View() == MatchSpec.Start(old(View()), playerSids) && started == generation
    {
      for i := 0 to PLAYERNUM
        modifies players
        invariant forall j | 0 <= j < i :: players[j] == PlacedAt(old(players[j]).(sid := playerSids[j], idx := j), Spawn(j), 0.0)
        invariant forall j | i <= j < PLAYERNUM :: players[j] == old(players[j])
      {
        players[i] := PlacedAt(players[i].(sid := playerSids[i], idx := i), Spawn(i), 0.0);
      }
      assert players[..] == Seat(old(players[..]), playerSids);
      ResetGenerators();
      exitReady := false;
      generation := generation + 1;
      state := Playing;
      history := [];
      var dropped := jobQueue.Clear();
      positionBroadcastPhase := 0;
      assert generators[..] == MatchSpec.Start(old(View()), playerSids).generators;
      assert players[..] == MatchSpec.Start(old(View()), playerSids).players;
      return generation;
    }

    method Reset()
      requires Valid()
      modifies Repr()
      ensures View() == MatchSpec.Reset(old(View()))
    {
      var dropped := jobQueue.Clear();
      history := [];
      for i := 0 to PLAYERNUM
        modifies players
        invariant forall j | 0 <= j < i :: players[j] == PlacedAt(Fresh(old(players[j])), Spawn(j), 0.25)
        invariant forall j | i <= j < PLAYERNUM :: players[j] == old(players[j])
      {
        players[i] := PlacedAt(Fresh(players[i]), Spawn(i), 0.25);
      }
      assert players[..] == MatchSpec.Reset(old(View())).players;
      ResetGenerators();
      exitReady := false;
      positionBroadcastPhase := 0;
      state := NoGame;
      assert generators[..] == MatchSpec.Reset(old(View())).generators;
    }

    /** Negative where the source throws out_of_range. */
    method GetPlayerBySid(sid: int) returns (i: int)
      requires Valid()
      ensures i == FindPlayer(players[..], sid)
    {
      i := 0;
      while i < PLAYERNUM
        invariant 0 <= i <= PLAYERNUM
        invariant FindPlayer(players[..], sid) == FindPlayer(players[..], sid, i)
      {
        if players[i].sid == sid { return i; }
        i := i + 1;
      }
      return -1;
    }

    method OnPlayerLeft(sid: int) returns (departure: Departure)
      requires Valid()
      modifies Repr()
      ensures (View(), departure) == PlayerLeft(old(View()), sid)
    {
      var i := GetPlayerBySid(sid);
      if i < 0 {
        faulted := true;
        return NoEffect;
      }
      players[i] := players[i].(velocity := STILL, hide := true, behavior := Crawl);
      if state != Playing { return NoEffect; }
      if players[i].idx == 0 {
        Reset();
        return EndMatch;
      }
      return HidePlayer;
    }

    method PausePlayer(sid: int)
      requires Valid()
      modifies Repr()
      ensures View() == Pause(old(View()), sid)
    {
      var i := GetPlayerBySid(sid);
      if i < 0 {
        faulted := true;
        return;
      }
      players[i] := players[i].(velocity := STILL);
    }

    method RebindPlayer(sid: int, idx: nat)
      requires Valid() && idx < PLAYERNUM
      modifies players
      ensures View() == Rebind(old(View()), sid, idx)
    {
      players[idx] := players[idx].(idx := idx);
      players[idx] := players[idx].(sid := sid);
    }

    method AddEvent(event: GameEvent, now: int)
      requires Valid()
      modifies jobQueue
      ensures View() == Schedule(old(View()), now, event.sid, event.lease, event.kind)
    {
      jobQueue.PushTask(event, 0, now);
    }

    method CheckGameState()
      requires Valid()
      modifies this
      ensures View() == old(View()).(state := MatchSpec.CheckGameState(old(View())))
    {
      var crawlCount, escapeCount := 0, 0;
      for i := 0 to PLAYERNUM
        invariant crawlCount + Crawlers(players[i..]) == Crawlers(players[..])
        invariant escapeCount + Escapees(players[i..]) == Escapees(players[..])
      {
        assert players[i..][1..] == players[i + 1..];
        if players[i].behavior == Crawl { crawlCount := crawlCount + 1; }
        if players[i].escaped { escapeCount := escapeCount + 1; }
      }
      if crawlCount == PLAYERNUM - 1 {
        state := BossWin;
      } else if crawlCount + escapeCount == PLAYERNUM - 1 && exitReady {
        state := EmpWin;
      }
    }

    /** The end of Update: every visible player moves. */
    method MovePlayers()
      requires Valid()
      modifies players
      ensures View() == Advanced(old(View()))
    {
      if state != Playing { return; }
      for i := 0 to PLAYERNUM
        invariant forall j | 0 <= j < i :: players[j] == Stepped(old(players[j]))
        invariant forall j | i <= j < PLAYERNUM :: players[j] == old(players[j])
      {
        players[i] := Stepped(players[i]);
      }
      assert players[..] == Advanced(old(View())).players;
    }

    /** The collision pass. */
    method CollidePlayers(g: Geometry)
      requires Valid()
      modifies players
      ensures players[..] == seq(PLAYERNUM, i requires 0 <= i < PLAYERNUM => Collided(old(players[i]), g))
    {
      for i := 0 to PLAYERNUM
        invariant forall j | 0 <= j < i :: players[j] == Collided(old(players[j]), g)
        invariant forall j | i <= j < PLAYERNUM :: players[j] == old(players[j])
      {
        if !players[i].hide { players[i] := Collided(players[i], g); }
      }
    }

    method CountGenerators() returns (activeGeneratorCount: nat)
      requires Valid()
      ensures activeGeneratorCount >= GENCNT <==> AllActive(generators[..])
    {
      activeGeneratorCount := 0;
      for k := 0 to GENCNT
        invariant 0 <= activeGeneratorCount <= k
        invariant activeGeneratorCount == k <==> forall j | 0 <= j < k :: generators[j].active
      {
        if generators[k].active { activeGeneratorCount := activeGeneratorCount + 1; }
      }
    }

    method LateUpdate(g: Geometry)
      requires Valid()
      modifies this, players
      ensures View() == MatchSpec.LateUpdate(old(View()), g)
    {
      if state != Playing { return; }
      CollidePlayers(g);
      var activeGeneratorCount := CountGenerators();
      if activeGeneratorCount >= GENCNT { exitReady := true; }
      ghost var m := old(View());
      assert players[..] == seq(|m.players|, i requires 0 <= i < |m.players| => Collided(m.players[i], g));
      CheckGameState();
    }

    method AddHistory()
      requires Valid()
      modifies this
      ensures View() == MatchSpec.AddHistory(old(View()))
    {
      var frame := (LastFrame(history) + 1) % UINT32;
      history := history + [Entry(frame, Picture(players[..], frame))];
    }

    /** What Tick does after the queued events: movement, the state of the game, the history, the broadcast phase. */
    method FinishTick(g: Geometry) returns (broadcast: bool)
      requires Valid()
      modifies this, players
      ensures View() == MatchSpec.FinishTick(old(View()), g)
      ensures broadcast <==> old(positionBroadcastPhase) + POSITION_BROADCAST_RATE >= TICK_RATE
    {
      MovePlayers();
      LateUpdate(g);
      AddHistory();
      positionBroadcastPhase := positionBroadcastPhase + POSITION_BROADCAST_RATE;
      if positionBroadcastPhase < TICK_RATE { return false; }
      positionBroadcastPhase := positionBroadcastPhase - TICK_RATE;
      return true;
    }

    // ---- the tasks of the queued events, once their lease has been found current ----

    method MoveTask(sid: int, keys: Keys, dir: Direction, ghost g: Geometry)
      requires Valid()
      modifies this, players
      ensures View() == Effect(old(View()), sid, Movement(keys, dir), g)
    {
      var i := GetPlayerBySid(sid);
      if i < 0 {
        faulted := true;
        return;
      }
      players[i] := players[i].(body := players[i].body.(look := dir));
      if players[i].idx == 0 {
        MovePlayer(i, keys, dir, BOSS_VELOCITY);
      } else {
        MovePlayer(i, keys, dir, EMPLOYEE_VELOCITY);
      }
      assert players[..] == old(players[..])[i := Moved(old(players[i]), keys, dir)];
    }

    /** SPlayer::Move: the keys add up, each along its own axis. */
    method MovePlayer(i: nat, keys: Keys, dir: Direction, speed: real)
      requires Valid() && i < PLAYERNUM
      modifies players
      ensures players[..] ==
              old(players[..])[i := old(players[i]).(velocity := if old(players[i]).behavior != Idle then STILL
                                                                 else Shift(keys, dir, speed))]
    {
      if players[i].behavior != Idle {
        players[i] := players[i].(velocity := STILL);
        return;
      }
      var (x, z) := (dir.x * speed, dir.z * speed);
      var shift := STILL;
      if keys.forward { shift := Direction(shift.x + x, shift.z + z); }
      if keys.backward { shift := Direction(shift.x - x, shift.z - z); }
      if keys.right { shift := Direction(shift.x + z, shift.z - x); }
      if keys.left { shift := Direction(shift.x - z, shift.z + x); }
      players[i] := players[i].(velocity := shift);
      assert shift == Shift(keys, dir, speed);
    }

    method GeneratorTask(sid: int, eventId: int, g: Geometry)
      requires Valid() && 2 <= eventId <= 10
      modifies this, generators
      ensures View() == InteractionEffect(old(View()), sid, eventId, g)
    {
      if eventId <= 4 {
        var k := eventId - 2;
        if !generators[k].active && !generators[k].onInteraction {
          var i := GetPlayerBySid(sid);
          if i < 0 {
            faulted := true;
            return;
          }
          if !g.reaches(players[i].body, k) { return; }
          generators[k] := generators[k].(onInteraction := true);
        }
      } else if eventId <= 7 {
        var k := eventId - 5;
        if !generators[k].active && generators[k].onInteraction {
          generators[k] := generators[k].(onInteraction := false);
        }
      } else {
        var k := eventId - 8;
        generators[k] := generators[k].(active := true);
      }
    }

    method PlayerTask(sid: int, eventId: int, ghost g: Geometry)
      requires Valid() && 19 <= eventId <= 35 && eventId != 31
      modifies this, players
      ensures View() == InteractionEffect(old(View()), sid, eventId, g)
    {
      if 32 <= eventId {
        var k := eventId - 32;
        players[k] := players[k].(escaped := true);
        return;
      }
      if eventId <= 22 && players[eventId - 19].rescue { return; }
      var i := GetPlayerBySid(sid);
      if i < 0 {
        faulted := true;
      } else if eventId <= 22 {
        players[eventId - 19] := players[eventId - 19].(rescue := true);
      } else if eventId <= 26 {
        players[eventId - 23] := players[eventId - 23].(rescue := false);
      } else {
        players[eventId - 27] := Revived(players[eventId - 27]);
      }
    }

    method AttackTask(target: PlayerIndex, hit: bool)
      requires Valid()
      modifies players
      ensures View() == if hit then old(View()).(players := old(players[..])[target := Attacked(old(players[target]))])
                        else old(View())
    {
      if hit {
        var emp := players[target];
        if emp.escaped || emp.behavior == Crawl { return; }
        if emp.hp > 0 { emp := emp.(hp := emp.hp - 1); }
        if emp.hp <= 0 { emp := emp.(hp := 0, behavior := Crawl); }
        players[target] := emp;
      }
    }

    method Task(sid: int, kind: EventKind, g: Geometry)
      requires Valid()
      modifies this, players, generators
      ensures View() == Effect(old(View()), sid, kind, g)
    {
      match kind {
        case Movement(keys, dir) => MoveTask(sid, keys, dir, g);
        case Attack(target, wf) => AttackTask(target, g.hits(WorldAt(history, wf), target));
        case Interaction(eventId) =>
          if 2 <= eventId <= 10 {
            GeneratorTask(sid, eventId, g);
          } else if 19 <= eventId <= 35 && eventId != 31 {
            PlayerTask(sid, eventId, g);
          }
      }
    }
  }
}
