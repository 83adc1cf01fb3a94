/** The main results about rooms, matches and sessions, over all runs from an empty server. */
module Theorems {
  import opened RoomCommand
  import opened SessionSpec
  import opened Scheduler
  import opened MatchSpec
  import opened WorldRewinder
  import opened RoomSpec
  import opened Protocol
  import opened RoomInvariant
  import opened ServerInvariant
  import opened ServerSteps
  import opened Discipline
  import opened DisciplineSteps
  import opened DisciplineRuns
  import opened LeaseSafety
  import opened Lifecycle
  import opened Waiters
  import opened ResumeExpiry
  import opened MatchIsolation
  import opened EventLeases
  import opened EventOrder
  import opened GameRules
  import opened Pictures
  import opened Expiry
  import opened CommandEffects
  import opened Retirement

  /** Some run in which the clients keep to the discipline ends in `w`. */
  ghost predicate Disciplinedly(w: World) {
    exists lobby: nat, game: nat, steps: seq<Step> ::
      WorldOK(Initial(lobby, game)) && IsDisciplinedRun(Initial(lobby, game), steps)
      && (DisciplinedRunsAreRuns(Initial(lobby, game), steps); After(Initial(lobby, game), steps) == w)
  }

  lemma ReachableKeeps(w: World)
    requires Reachable(w)
    ensures WorldOK(w) && LifeOK(w) && WaitersFirst(w)
  {
    var lobby: nat, game: nat, steps: seq<Step> :|
      WorldOK(Initial(lobby, game)) && IsRun(Initial(lobby, game), steps) && After(Initial(lobby, game), steps) == w;
    RunKeepsWorld(Initial(lobby, game), steps);
    InitialLifeOK(lobby, game);
    RunKeepsLife(Initial(lobby, game), steps);
    InitialFirst(lobby, game);
    RunKeepsFirst(Initial(lobby, game), steps);
  }

  lemma {:induction false} DisciplinedRunKeepsLeases(w: World, steps: seq<Step>)
    requires WorldOK(w) && Orderly(w) && LeasesOK(w) && IsDisciplinedRun(w, steps)
    ensures IsRun(w, steps) && LeasesOK(After(w, steps))
    decreases |steps|
  {
    DisciplinedRunsAreRuns(w, steps);
    if steps != [] {
      StepKeepsWorld(w, steps[0]);
      StepKeepsOrder(w, steps[0]);
      StepKeepsLeases(w, steps[0]);
      DisciplinedRunKeepsLeases(Apply(w, steps[0]), steps[1..]);
    }
  }

  lemma DisciplinedlyKeeps(w: World)
    requires Disciplinedly(w)
    ensures Reachable(w) && WorldOK(w) && LifeOK(w) && Orderly(w) && LeasesOK(w)
  {
    var lobby: nat, game: nat, steps: seq<Step> :|
      WorldOK(Initial(lobby, game)) && IsDisciplinedRun(Initial(lobby, game), steps)
      && (DisciplinedRunsAreRuns(Initial(lobby, game), steps); After(Initial(lobby, game), steps) == w);
    var w0 := Initial(lobby, game);
    DisciplinedRunsAreRuns(w0, steps);
    ReachableKeeps(w);
    InitialOrderly(lobby, game);
    RunKeepsOrder(w0, steps);
    assert LeasesOK(w0);
    DisciplinedRunKeepsLeases(w0, steps);
  }

  // ---- rooms and matches ----

  /** Room and match agree at every owner-step boundary, so no lookup of a player by sid ever throws. */
  lemma RoomMatchCoupling(w: World, r: int)
    requires Reachable(w) && IsValidRoom(r)
    ensures Shaped(w) && !w.rooms[r].game.faulted
    ensures w.rooms[r].status == InGame <==> w.rooms[r].game.state == Playing
    ensures w.rooms[r].status == InGame ==>
              && Filled(w.rooms[r].members[0]) && w.rooms[r].members[0].connection == Connected
              && forall i | 0 <= i < PLAYERNUM ::
                   w.rooms[r].game.players[i].idx == i
                   && (Filled(w.rooms[r].members[i]) ==> w.rooms[r].game.players[i].sid == w.rooms[r].members[i].sid)
    ensures forall i | 0 <= i < PLAYERNUM && w.rooms[r].members[i].connection == Reconnecting ::
              w.rooms[r].status == InGame && w.rooms[r].members[i].token != 0
  {
    ReachableKeeps(w);
    assert RoomOK(w.rooms[r], w.now);
    forall i | 0 <= i < PLAYERNUM ensures SlotOK(w.rooms[r].members[i]) {}
  }

  /** The member counter and the status always say how many slots are filled. */
  lemma MemberConservation(w: World, r: int)
    requires Reachable(w) && IsValidRoom(r)
    ensures Shaped(w)
    ensures var room := w.rooms[r];
            && room.count == Occupied(room.members)
            && (room.status == Empty <==> Occupied(room.members) == 0)
            && (room.status == Full <==> Occupied(room.members) == PLAYERNUM && room.game.state != Playing)
            && (room.status == NotFull <==> 0 < Occupied(room.members) < PLAYERNUM && room.game.state != Playing)
  {
    ReachableKeeps(w);
    assert RoomOK(w.rooms[r], w.now);
  }

  /** A match starts only with four ready members and a clean slate; it ends leaving four renewed free slots. */
  lemma MatchesAreIsolated(w: World, s: Step, r: int)
    requires Reachable(w) && Enabled(w, s) && IsValidRoom(r)
    ensures Shaped(w) && Turn(w.rooms[r], Apply(w, s).rooms[r])
  {
    ReachableKeeps(w);
    StepTurns(w, s, r);
  }

  /** A match starts only by the last of its members becoming ready, when the three others are. */
  lemma MatchesStartReady(w: World, s: Step, r: int)
    requires Reachable(w) && Shaped(w) && Enabled(w, s) && IsValidRoom(r)
    requires w.rooms[r].status != InGame && Apply(w, s).rooms[r].status == InGame
    ensures Readied(w, s, r) && w.rooms[r].count == PLAYERNUM
  {
    ReachableKeeps(w);
    StartNeedsReady(w, s, r);
    StepTurns(w, s, r);
  }

  /** The boss's exit or disconnection ends a match at once; nobody else's does. */
  lemma OnlyTheBossEndsAMatch(w: World, r: int, sid: int, token: nat)
    requires Reachable(w) && IsValidRoom(r) && sid in w.net.sessions && Shaped(w) && w.rooms[r].status == InGame
    ensures ExitRoom(w, sid, r).rooms[r].status != InGame <==> w.rooms[r].members[0].sid == sid
    ensures DisconnectUpTo(w, sid, token, ROOM_CAPACITY).rooms[r].status != InGame <==> w.rooms[r].members[0].sid == sid
  {
    ReachableKeeps(w);
    UserOutEndsIff(SceneAt(w, r), sid, w.now);
    DisconnectRooms(w, sid, token, ROOM_CAPACITY, r);
  }

  /** The expiry of reconnects never ends a match, whatever the clients do. */
  lemma ExpirySparesTheMatch(w: World, r: int)
    requires Reachable(w) && IsValidRoom(r) && Shaped(w) && w.rooms[r].status == InGame
    ensures Ticking(w, r).status == InGame
  {
    ReachableKeeps(w);
    ExpirySpares(w, r);
  }

  /** The employees win only if Activate events of this very match have acted for all three generators. */
  lemma EmployeesWinByActivations(lobby: nat, game: nat, steps: seq<Step>, r: int, g: Geometry, k: int)
    requires WorldOK(Initial(lobby, game)) && IsRun(Initial(lobby, game), steps) && IsValidRoom(r) && 0 <= k < GENCNT
    requires var w := After(Initial(lobby, game), steps);
             && w.rooms[r].status == InGame && Ticking(w, r).status == InGame
             && Tick(Ticking(w, r), w.now, g).game.state == EmpWin
    ensures Lights(After(Initial(lobby, game), steps), r, g, k)
            || exists j :: LitBy(Initial(lobby, game), steps, r, k, j,
                                 After(Initial(lobby, game), steps).rooms[r].game.generation)
  {
    var w := After(Initial(lobby, game), steps);
    RunKeepsWorld(Initial(lobby, game), steps);
    TickingOK(w, r);
    TickKeepsRoom(Ticking(w, r), w.now, g);
    TickLights(w, r, g, k);
    if !Lights(w, r, g, k) { LitGeneratorWasActivated(Initial(lobby, game), steps, r, k); }
  }

  /** One update of a room in game runs every queued event, in queue order, and leaves none behind. */
  lemma UpdateDrainsEvents(w: World, r: int, g: Geometry)
    requires Reachable(w) && IsValidRoom(r)
    ensures Shaped(w) && UpdateRoom(w, r, g).rooms[r].game.queue == []
    ensures w.rooms[r].status == InGame && Ticking(w, r).status == InGame ==>
              RunDue(Ticking(w, r), w.now, g)
              == RunAll(Ticking(w, r).(game := Ticking(w, r).game.(queue := [])), w.rooms[r].game.queue, g)
    ensures forall i, j | 0 <= i < j < |w.rooms[r].game.queue| ::
              Before(w.rooms[r].game.queue[i], w.rooms[r].game.queue[j])
  {
    ReachableKeeps(w);
    UpdateEmptiesQueue(SceneAt(w, r), w.now, g);
    if w.rooms[r].status == InGame {
      TickingOK(w, r);
      if Ticking(w, r).status == InGame { TickRunsQueueInOrder(Ticking(w, r), w.now, g); }
    }
  }

  /**
   * First in, first out over every run from an empty server: the events a room has run, then those it still holds,
   * are events of the game packets accepted for it, in the order in which GameCommandQueue accepted them. What is
   * missing was refused at its execution or cleared with its match.
   */
  lemma EventsRunInArrivalOrder(lobby: nat, game: nat, steps: seq<Step>, r: int)
    requires WorldOK(Initial(lobby, game)) && IsRun(Initial(lobby, game), steps) && IsValidRoom(r)
    ensures var w := After(Initial(lobby, game), steps);
            && Accepted(Initial(lobby, game), steps) == Executed(Initial(lobby, game), steps) + (w.gameBatch + w.game)
            && Within(Ran(Initial(lobby, game), steps, r) + Tasks(w.rooms[r].game.queue),
                      Requests(Accepted(Initial(lobby, game), steps), r))
  {
    var w0 := Initial(lobby, game);
    var w := After(w0, steps);
    CommandsInOrder(w0, steps);
    EventsInOrder(w0, steps, r);
    assert w0.rooms[r] == NewRoom(r);
    FromNothing(w0.gameBatch + w0.game, Tasks(w0.rooms[r].game.queue), Accepted(w0, steps), Executed(w0, steps),
                w.gameBatch + w.game, Ran(w0, steps, r) + Tasks(w.rooms[r].game.queue), r);
  }

  // ---- what updates do ----

  /** An event that acts in an update does what its kind says, to the player, the target or the generator it names. */
  lemma EventsDoAsAsked(w: World, r: int, g: Geometry, k: int)
    requires Reachable(w) && Shaped(w) && IsValidRoom(r) && Acts(w, r, g, k)
    ensures var a, e := Finds(w, r, g, k), w.rooms[r].game.queue[k];
            var b := RunOne(a, e, g);
            && b == a.(game := b.game)
            && exists i :: FirstPlayer(a.game, i, e.task.sid) && Does(a.game, b.game, i, e.task.kind, g)
  {
    ReachableKeeps(w);
    var a, e := Finds(w, r, g, k), w.rooms[r].game.queue[k];
    var i := ActorIsFound(w, r, g, k);
    ActingLeaseIsCurrent(w, r, g, k);
    EffectDoes(a.game, i, e.task.sid, e.task.kind, g);
  }

  /**
   * The expiry at the start of an update frees exactly the slots that are overdue, and stops, hides and lays down
   * exactly the first players under their sids.
   */
  lemma ExpiryFreesTheOverdue(w: World, r: int)
    requires Reachable(w) && Shaped(w) && IsValidRoom(r) && w.rooms[r].status == InGame
    ensures Expires(w.rooms[r], Ticking(w, r), w.now)
  {
    ReachableKeeps(w);
    ExpiryIs(w, r);
  }

  /**
   * An update of a room in game: once the events have run, everybody lands, the exit may open, and a picture is taken;
   * if three are down, or players down and players out make three and the exit is open, the match ends instead.
   */
  lemma UpdatesFinish(w: World, r: int, g: Geometry)
    requires Reachable(w) && Shaped(w) && IsValidRoom(r) && w.rooms[r].status == InGame
    ensures var x, b := RunDue(Ticking(w, r), w.now, g), UpdateRoom(w, r, g).rooms[r];
            && RoomShaped(x) && Finishes(x, b, g) && (Over(x.game) ==> Closed(w.rooms[r], b))
  {
    ReachableKeeps(w);
    UpdateFinishes(w, r, g);
    UpdateStepTurn(w, r, g, r);
  }

  // ---- what attacks are checked against ----

  /** An update that leaves the match on adds one picture to its history: the players as the update leaves them. */
  lemma UpdateAddsPicture(w: World, r: int, g: Geometry)
    requires Reachable(w) && IsValidRoom(r) && Shaped(w) && w.rooms[r].status == InGame
    requires UpdateRoom(w, r, g).rooms[r].status == InGame
    ensures Pictured(w.rooms[r], UpdateRoom(w, r, g).rooms[r])
  {
    ReachableKeeps(w);
    UpdatePictures(w, r, g);
  }

  /**
   * In every match of fewer than 2^32 - 30 ticks, an attack that names frame `frame` is checked against what was at the
   * end of that very tick, or of the nearest of the last 30; a negative number means the latest. Before the first tick
   * it is a blank world; else an update of this match ended that tick, and left the players where the attack sees them.
   */
  lemma AttacksSeeTheirTick(lobby: nat, game: nat, steps: seq<Step>, r: int, frame: int)
    requires WorldOK(Initial(lobby, game)) && IsRun(Initial(lobby, game), steps) && IsValidRoom(r)
    requires -0x8000_0000 <= frame < 0x8000_0000
    requires var room := After(Initial(lobby, game), steps).rooms[r];
             room.status == InGame && |room.game.history| + 30 < 0x1_0000_0000
    ensures var m := After(Initial(lobby, game), steps).rooms[r].game;
            var n := |m.history|;
            var seen := Clamp(if frame < 0 then frame + 0x1_0000_0000 else frame, if n < 30 then 0 else n - 29, n);
            Sees(Initial(lobby, game), steps, r, seen, m.generation, WorldAt(m.history, frame))
  {
    InitialFirst(lobby, game);
    assert Initial(lobby, game).rooms[r] == NewRoom(r);
    AttacksSee(Initial(lobby, game), steps, r, frame);
  }

  lemma AttacksSee(w: World, steps: seq<Step>, r: int, frame: int)
    requires WorldOK(w) && WaitersFirst(w) && IsRun(w, steps) && IsValidRoom(r) && w.rooms[r].game.history == []
    requires -0x8000_0000 <= frame < 0x8000_0000
    requires After(w, steps).rooms[r].status == InGame && |After(w, steps).rooms[r].game.history| + 30 < 0x1_0000_0000
    ensures var m := After(w, steps).rooms[r].game;
            var n := |m.history|;
            var seen := Clamp(if frame < 0 then frame + 0x1_0000_0000 else frame, if n < 30 then 0 else n - 29, n);
            Sees(w, steps, r, seen, m.generation, WorldAt(m.history, frame))
  {
    ShownWasTaken(w, steps, r);
    HistoryIsChronicle(w, steps, r);
    AttackSees(After(w, steps).rooms[r].game.history, frame);
  }

  lemma HistoryIsChronicle(w: World, steps: seq<Step>, r: int)
    requires WorldOK(w) && IsRun(w, steps) && IsValidRoom(r) && After(w, steps).rooms[r].status == InGame
    ensures Chronicle(After(w, steps).rooms[r].game.history)
  {
    RunKeepsWorld(w, steps);
    assert RoomOK(After(w, steps).rooms[r], After(w, steps).now);
  }

  /** The world `p` is that at the end of tick `seen` of the match, as an update in the run left it. */
  ghost predicate Sees(w: World, steps: seq<Step>, r: int, seen: int, generation: nat, p: WorldStatus)
    requires WorldOK(w) && IsValidRoom(r)
  {
    if seen == 0 then p == BLANK else seen > 0 && p.frame == seen && TookAt(w, steps, r, seen - 1, generation, p)
  }

  lemma ShownWasTaken(w: World, steps: seq<Step>, r: int)
    requires WorldOK(w) && WaitersFirst(w) && IsRun(w, steps) && IsValidRoom(r) && w.rooms[r].game.history == []
    ensures var m := After(w, steps).rooms[r].game;
            forall k: nat | k < |m.history| :: TookAt(w, steps, r, k, m.generation, m.history[k].status)
  {
    var m := After(w, steps).rooms[r].game;
    forall k: nat | k < |m.history| ensures TookAt(w, steps, r, k, m.generation, m.history[k].status) {
      PicturesWereTaken(w, steps, r, k);
    }
  }

  /** An update in the run took picture `k` of match `generation` in room `r`, and left the players as `p` shows them. */
  ghost predicate TookAt(w: World, steps: seq<Step>, r: int, k: nat, generation: nat, p: WorldStatus)
    requires WorldOK(w) && IsValidRoom(r)
  {
    exists j :: Took(w, steps, r, j, k, generation, p)
  }

  lemma AttackSees(h: seq<Entry>, frame: int)
    requires Chronicle(h) && -0x8000_0000 <= frame < 0x8000_0000 && |h| + MAX_REWIND < UINT32
    ensures var n := |h|;
            var seen := Clamp(if frame < 0 then frame + 0x1_0000_0000 else frame, if n < 30 then 0 else n - 29, n);
            if seen == 0 then WorldAt(h, frame) == BLANK
            else WorldAt(h, frame) == h[seen - 1].status && WorldAt(h, frame).frame == seen
  {
    forall i | 0 <= i < |h| ensures h[i].frame == i + 1 { assert (i + 1) % UINT32 == i + 1; }
    TickedShows(h, MAX_REWIND);
    ShownLookup(RingOf(h, MAX_REWIND), h, ToUnsigned(frame));
    LookupAfterTicks(h, ToUnsigned(frame), MAX_REWIND);
  }

  // ---- bindings and leases ----

  /** A bound session really occupies the slot its lease names; a retired one is never bound. */
  lemma BindingCoherence(w: World, s: int)
    requires Reachable(w) && s in w.net.sessions
    ensures w.net.sessions[s].retired ==> w.net.sessions[s].binding == UNBOUND
    ensures var b := w.net.sessions[s].binding;
            b != UNBOUND ==> IsValidRoom(b.room) && |w.rooms| == ROOM_CAPACITY
                             && exists i :: 0 <= i < |w.rooms[b.room].members|
                                            && w.rooms[b.room].members[i].sid == s
                                            && w.rooms[b.room].members[i].connection == Connected
                                            && w.rooms[b.room].members[i].generation == b.lease.memberGeneration
  {
    ReachableKeeps(w);
    if w.net.sessions[s].binding != UNBOUND {
      assert Seated(w.rooms, s, w.net.sessions[s].binding);
    }
  }

  /**
   * A slot's generation is a version stamp: if it is the same at both ends of a stretch of a run, the slot had
   * the same occupant, token and connection at every moment in between.
   */
  lemma GenerationIsAStamp(w: World, a: seq<Step>, b: seq<Step>, r: int, i: int)
    requires WorldOK(w) && IsRun(w, a + b) && IsValidRoom(r) && 0 <= i < PLAYERNUM
    requires After(w, a + b).rooms[r].members[i].generation == w.rooms[r].members[i].generation
    ensures IsRun(w, a)
    ensures var m, m' := w.rooms[r].members[i], After(w, a).rooms[r].members[i];
            m'.generation == m.generation && m'.sid == m.sid && m'.token == m.token && m'.connection == m.connection
  {
    RunSplits(w, a, b);
    RunKeepsWorld(w, a);
    var mid := After(w, a);
    RunKeepsWorld(mid, b);
    assert Succeeds(w.rooms[r], mid.rooms[r]) && Succeeds(mid.rooms[r], After(w, a + b).rooms[r]);
    assert Stamped(w.rooms[r].members[i], mid.rooms[r].members[i]);
    assert Stamped(mid.rooms[r].members[i], After(w, a + b).rooms[r].members[i]);
  }

  /** No lease of a match that is over is ever current again. */
  lemma NoLeaseOutlivesItsMatch(w: World, steps: seq<Step>, r: int, sid: int, lease: MatchLease)
    requires WorldOK(w) && IsRun(w, steps) && IsValidRoom(r)
    requires lease.matchGeneration <= w.rooms[r].game.generation
    requires !IsCurrentGeneration(w.rooms[r].game, lease.matchGeneration)
    ensures !IsCurrentLease(After(w, steps).rooms[r], sid, lease)
  {
    RunKeepsWorld(w, steps);
    assert Succeeds(w.rooms[r], After(w, steps).rooms[r]);
  }

  /**
   * An event admitted to a room's queue by a game command acts, in whatever update of whatever later state, only in
   * the match it was admitted in, and only for the stay it was admitted in: one slot has granted its lease all along,
   * or its session has resumed into another slot of that match.
   */
  lemma EventsActInTheirOwnStay(w: World, steps: seq<Step>, r: int, g: Geometry, k: int, e: QueueEvent)
    requires Reachable(w) && Shaped(w) && Enabled(w, GameCommandStep) && IsValidRoom(r)
    requires Apply(w, GameCommandStep).rooms[r].game.queue == w.rooms[r].game.queue + [e]
    requires WorldOK(Apply(w, GameCommandStep)) && IsRun(Apply(w, GameCommandStep), steps)
    requires var w' := After(Apply(w, GameCommandStep), steps);
             Acts(w', r, g, k) && w'.rooms[r].game.queue[k] == e
    ensures InMatchThroughout(Apply(w, GameCommandStep), steps, r, e.task.lease.matchGeneration)
    ensures exists j, i :: Stays(Apply(w, GameCommandStep), steps, r, j, i, e.task.sid, e.task.lease)
  {
    ReachableKeeps(w);
    AdmittedUnderALease(w, r, e);
    var w1 := Apply(w, GameCommandStep);
    RunKeepsWorld(w1, steps);
    ActingLeaseIsCurrent(After(w1, steps), r, g, k);
    MatchGoesOn(w1, steps, r, e.task.lease.matchGeneration);
    LeaseStays(w1, steps, r, e.task.sid, e.task.lease);
  }

  /** With disciplined clients, no queued command carries a lease of a match yet to start. */
  lemma NoCommandPrecedesItsMatch(w: World, k: int)
    requires Disciplinedly(w) && 0 <= k < |w.gameBatch + w.game| && Shaped(w)
    ensures var c := (w.gameBatch + w.game)[k];
            IsValidRoom(c.room) ==> c.lease.matchGeneration <= w.rooms[c.room].game.generation
  {
    DisciplinedlyKeeps(w);
    if k < |w.gameBatch| {
      assert Started(w.rooms, w.gameBatch[k].room, w.gameBatch[k].lease);
    } else {
      assert Started(w.rooms, w.game[k - |w.gameBatch|].room, w.game[k - |w.gameBatch|].lease);
    }
  }

  /** With disciplined clients, a bound session's lease names the match that is on in its room, or none. */
  lemma BoundLeasesNameTheMatch(w: World, s: int)
    requires Disciplinedly(w) && Shaped(w) && s in w.net.sessions && IsValidRoom(w.net.sessions[s].binding.room)
    ensures w.net.sessions[s].binding.lease.matchGeneration == RunningMatch(w.rooms[w.net.sessions[s].binding.room])
  {
    DisciplinedlyKeeps(w);
    assert LeaseOK(w.rooms, w.net.sessions[s].binding);
  }

  // ---- slots ----

  /** No duplicates: with disciplined clients every session fills at most one slot of all rooms. */
  lemma OneSlotPerSession(w: World, r: int, i: int, q: int, j: int)
    requires Disciplinedly(w) && Shaped(w) && IsValidRoom(r) && IsValidRoom(q)
    requires 0 <= i < PLAYERNUM && 0 <= j < PLAYERNUM && Filled(w.rooms[r].members[i])
    requires w.rooms[r].members[i].sid == w.rooms[q].members[j].sid
    ensures r == q && i == j
  {
    DisciplinedlyKeeps(w);
    var s := w.rooms[r].members[i].sid;
    assert Holds(w.rooms, r, i, s) && Holds(w.rooms, q, j, s);
  }

  /** No ghosts: after its Disconnected was executed, no slot is Connected under a session again. */
  lemma NoGhostSlots(w: World, k: int, r: int, i: int)
    requires Disciplinedly(w) && Shaped(w) && IsValidRoom(r) && 0 <= i < PLAYERNUM
    requires 0 <= k < |w.executed| && w.executed[k].Disconnected?
    ensures w.rooms[r].members[i].sid == w.executed[k].sid ==> w.rooms[r].members[i].connection == Reconnecting
  {
    DisciplinedlyKeeps(w);
    var s := w.executed[k].sid;
    assert NoLive(w.rooms, s) && s in w.net.sessions;
    assert !Live(w.rooms, r, i, s);
  }

  /** Resume tokens are distinct among slots, which resume relies on. */
  lemma TokensNameOneSlot(w: World, r: int, i: int, q: int, j: int)
    requires Disciplinedly(w) && Shaped(w) && IsValidRoom(r) && IsValidRoom(q)
    requires 0 <= i < PLAYERNUM && 0 <= j < PLAYERNUM
    requires Filled(w.rooms[r].members[i]) && Filled(w.rooms[q].members[j])
    requires w.rooms[r].members[i].token == w.rooms[q].members[j].token
    ensures r == q && i == j
  {
    DisciplinedlyKeeps(w);
    assert Holds(w.rooms, r, i, w.rooms[r].members[i].sid) && Holds(w.rooms, q, j, w.rooms[q].members[j].sid);
  }

  // ---- what lobby commands do ----

  /**
   * A Resume before the deadline succeeds: the first slot of a running match with that token, and its player, pass to
   * the session, which is bound to them.
   */
  lemma PlayersReturn(w: World, sid: int, token: nat, r: int, i: int, sendFails: bool)
    requires Reachable(w) && Shaped(w) && token != 0 && FirstOpen(w, r, i, token) && MayResume(w.net, sid)
    ensures Returns(w, ExecuteLobby(w, Resume(sid, token), sendFails), r, i, sid, token)
  {
    ReachableKeeps(w);
    ResumeCommand(w, sid, token, r, i, sendFails);
  }

  /** Any other Resume changes nothing. */
  lemma OthersDoNotReturn(w: World, sid: int, token: nat, sendFails: bool)
    requires Shaped(w)
    requires token == 0 || !MayResume(w.net, sid) || forall q, j | 0 <= q < ROOM_CAPACITY :: !OpenTo(w.rooms[q], j, token, w.now)
    ensures ExecuteLobby(w, Resume(sid, token), sendFails) == w
  {
    if token != 0 { ResumeRefused(w, sid, token); }
  }

  /** With disciplined clients the token of a slot that waits opens that slot and no other. */
  lemma WaitersReturn(w: World, sid: int, r: int, i: int, sendFails: bool)
    requires Disciplinedly(w) && Shaped(w) && IsValidRoom(r) && WaitingAt(w, r, i) && w.now < w.rooms[r].members[i].deadline
    requires MayResume(w.net, sid)
    ensures var token := w.rooms[r].members[i].token;
            Returns(w, ExecuteLobby(w, Resume(sid, token), sendFails), r, i, sid, token)
  {
    DisciplinedlyKeeps(w);
    OnlyItsToken(w, r, i);
    ResumeCommand(w, sid, w.rooms[r].members[i].token, r, i, sendFails);
  }

  lemma OnlyItsToken(w: World, r: int, i: int)
    requires Disciplinedly(w) && WorldOK(w) && IsValidRoom(r) && WaitingAt(w, r, i)
    requires w.now < w.rooms[r].members[i].deadline
    ensures FirstOpen(w, r, i, w.rooms[r].members[i].token)
    ensures w.rooms[r].members[i].token != 0
  {
    assert RoomOK(w.rooms[r], w.now) && SlotOK(w.rooms[r].members[i]);
    forall q, j | IsValidRoom(q) && 0 <= j < PLAYERNUM && w.rooms[q].members[j].token == w.rooms[r].members[i].token
      ensures q == r && j == i
    {
      assert RoomOK(w.rooms[q], w.now) && SlotOK(w.rooms[q].members[j]);
      TokensNameOneSlot(w, r, i, q, j);
    }
  }

  /**
   * A disconnection under a slot's own token makes the slot of an employee in a running match wait for 30 seconds, and
   * its player stand still; the boss, a player without a token, and whoever is in a waiting room leave at once.
   */
  lemma DisconnectionsWait(w: World, sid: int, token: nat, r: int, i: int, k: int, sendFails: bool)
    requires Reachable(w) && Shaped(w) && IsValidRoom(r) && sid in w.net.sessions
    requires FirstSlot(w.rooms[r], i, sid) && 0 <= k < PLAYERNUM
    requires w.rooms[r].status == InGame ==> FirstPlayer(w.rooms[r].game, k, sid)
    ensures Disconnects(w.rooms[r], ExecuteLobby(w, Disconnected(sid, token), sendFails).rooms[r], i, k, token, w.now)
  {
    ReachableKeeps(w);
    DisconnectCommand(w, sid, token, r, i, k, sendFails);
  }

  /** Rooms in which the session holds no slot are left alone. */
  lemma DisconnectionsSpare(w: World, sid: int, token: nat, r: int, sendFails: bool)
    requires Shaped(w) && IsValidRoom(r) && NoSlot(w.rooms[r], sid)
    ensures ExecuteLobby(w, Disconnected(sid, token), sendFails).rooms[r] == w.rooms[r]
  {
    DisconnectRooms(w, sid, token, ROOM_CAPACITY, r);
    DisconnectSpares(SceneAt(w, r), sid, token, w.now);
  }

  /** An Exit frees the session's first slot in that room, hides and lays down its player, and unbinds the session. */
  lemma ExitsDepart(w: World, sid: int, r: int, i: int, k: int, sendFails: bool)
    requires Reachable(w) && Shaped(w) && IsValidRoom(r) && sid in w.net.sessions
    requires FirstSlot(w.rooms[r], i, sid) && 0 <= k < PLAYERNUM
    requires w.rooms[r].status == InGame ==> FirstPlayer(w.rooms[r].game, k, sid)
    ensures var w' := ExecuteLobby(w, Exit(sid, r), sendFails);
            && w'.rooms == w.rooms[r := w'.rooms[r]] && Departs(w.rooms[r], w'.rooms[r], i, k)
            && Unbinds(w.net, w'.net, Unseated(w.rooms[r], i))
  {
    ReachableKeeps(w);
    ExitCommand(w, sid, r, i, k, sendFails);
  }

  /** Any other Exit changes nothing. */
  lemma NobodyExits(w: World, sid: int, r: int, sendFails: bool)
    requires Shaped(w) && (!IsValidRoom(r) || NoSlot(w.rooms[r], sid))
    ensures ExecuteLobby(w, Exit(sid, r), sendFails) == w
  {
    if IsValidRoom(r) {
      NobodyDeparts(SceneAt(w, r), sid);
      assert WithScene(w, r, SceneAt(w, r)) == w;
    }
  }

  /** A session that may enter gets the first free slot of an open room that is not full; any other changes nothing. */
  lemma EntersFirstFreeSlot(w: World, sid: int, r: int, sendFails: bool)
    requires Reachable(w) && Shaped(w) && IsValidRoom(r)
    ensures if MayEnter(w.net, sid) && w.rooms[r].status == NotFull
            then exists i, c' :: FirstSlot(w.rooms[r], i, -1) && Enters(SceneAt(w, r), c', i, sid)
                                 && ExecuteLobby(w, Enter(sid, r), sendFails) == WithScene(w, r, c')
            else ExecuteLobby(w, Enter(sid, r), sendFails) == w
  {
    ReachableKeeps(w);
    EnterIs(w, sid, r);
  }

  /** A session that may enter and creates a room gets the first slot of the first empty one. */
  lemma CreatesFirstEmpty(w: World, sid: int, r: int, sendFails: bool)
    requires Reachable(w) && Shaped(w) && MayEnter(w.net, sid)
    requires IsValidRoom(r) && w.rooms[r].status == Empty && forall q | 0 <= q < r :: w.rooms[q].status != Empty
    ensures exists c' :: Enters(SceneAt(w, r), c', 0, sid) && ExecuteLobby(w, Create(sid), sendFails) == WithScene(w, r, c')
  {
    ReachableKeeps(w);
    CreateSucceeds(w, sid, r);
  }

  /** Any other Create changes nothing. */
  lemma NoRoomToCreate(w: World, sid: int, sendFails: bool)
    requires Shaped(w) && (!MayEnter(w.net, sid) || forall q | 0 <= q < ROOM_CAPACITY :: w.rooms[q].status != Empty)
    ensures ExecuteLobby(w, Create(sid), sendFails) == w
  {
    CreateRefused(w, sid);
  }

  /** SetReady sets or clears the flag of the session's slot, and the fourth flag set starts the match. */
  lemma ReadinessStartsMatches(w: World, sid: int, ready: bool, r: int, i: int, sendFails: bool)
    requires Reachable(w) && Shaped(w) && Found(w.net, sid) && IsValidRoom(r) && w.net.sessions[sid].binding.room == r
    requires w.rooms[r].status != InGame && FirstLive(w.rooms[r], i, sid)
    ensures exists c': Scene :: RoomShaped(c'.room) && Readies(SceneAt(w, r), c', i, ready)
                                && ExecuteLobby(w, SetReady(sid, ready), sendFails) == WithScene(w, r, c')
  {
    ReachableKeeps(w);
    SetReadySucceeds(w, sid, ready, r, i);
  }

  /** During a match, and without a room, SetReady changes nothing. */
  lemma ReadinessIsIgnored(w: World, sid: int, ready: bool, sendFails: bool)
    requires Reachable(w) && Shaped(w)
    requires || !Found(w.net, sid) || w.net.sessions[sid].binding.room == -1
             || (IsValidRoom(w.net.sessions[sid].binding.room) && w.rooms[w.net.sessions[sid].binding.room].status == InGame)
    ensures ExecuteLobby(w, SetReady(sid, ready), sendFails) == w
  {
    ReachableKeeps(w);
    SetReadyRefused(w, sid, ready);
  }

  // ---- the end of a wait ----

  /** Whatever the clients do, no resume takes over a slot at or after its deadline. */
  lemma NoLateResume(w: World, sid: int, token: nat, r: int, i: int)
    requires Reachable(w) && WaitingAt(w, r, i) && IsValidRoom(r) && w.now >= w.rooms[r].members[i].deadline
    requires Shaped(w) && sid in w.net.sessions
    ensures ResumeSession(w, sid, token).rooms[r].members[i] == w.rooms[r].members[i]
  {
    ReachableKeeps(w);
    assert RoomOK(w.rooms[r], w.now) && RoomKnown(w.rooms[r], w.net);
    assert SlotOK(w.rooms[r].members[i]) && SlotKnown(w.rooms[r].members[i], w.net);
    if token != 0 { ResumeOnWaiting(w, sid, token, r, i); }
  }

  /** Whatever the clients do, in every step a wait goes on or ends in a lawful way. */
  lemma WaitEndsLawfully(w: World, s: Step, r: int, i: int)
    requires Reachable(w) && Shaped(w) && Enabled(w, s) && WaitingAt(w, r, i)
    ensures IsValidRoom(r) && (EndsWait(w, s, r, i) || StillWaiting(w.rooms[r], Apply(w, s).rooms[r], i))
    ensures s.UpdateStep? && s.room == r && w.now >= w.rooms[r].members[i].deadline ==> EndsWait(w, s, r, i)
  {
    ReachableKeeps(w);
    WaitingSlotStep(w, s, r, i);
  }

  /** Along every run a waiting slot waits, unchanged, until exactly one of the lawful endings. */
  lemma ResumeOrExpiry(w: World, steps: seq<Step>, r: int, i: int)
    requires Reachable(w) && WorldOK(w) && IsRun(w, steps) && WaitingAt(w, r, i)
    ensures exists k :: WaitsFor(w, steps, r, i, k)
  {
    ReachableKeeps(w);
    var k := WaitingSlotRun(w, steps, r, i);
  }

  /** No update at or after the deadline leaves a slot waiting. */
  lemma UpdateAfterDeadlineFrees(w: World, r: int, i: int, g: Geometry)
    requires Reachable(w) && WaitingAt(w, r, i) && IsValidRoom(r)
    requires w.now >= w.rooms[r].members[i].deadline
    ensures Shaped(w) && Gone(UpdateRoom(w, r, g).rooms[r], i)
  {
    ReachableKeeps(w);
    WaitingSlotStep(w, UpdateStep(r, g), r, i);
  }

  // ---- sessions ----

  /** Exactly once: one arrival per activated session, one departure per departed one, in that order. */
  lemma AnnouncedExactlyOnce(w: World, s: int)
    requires Reachable(w)
    ensures Joins(Log(w), s) == (if s in w.net.sessions then 1 else 0)
    ensures Leaves(Log(w), s) == (if s in w.net.sessions && s !in w.net.active && s !in w.net.leaving then 1 else 0)
    ensures forall k | 0 <= k <= |Log(w)| :: Leaves(Log(w)[..k], s) <= Joins(Log(w)[..k], s)
    ensures w.net.active !! w.net.retired
    ensures Ordinary(w.net.lobby) <= w.net.lobbyCapacity
  {
    ReachableKeeps(w);
    assert LifeOf(w, s);
  }
}
