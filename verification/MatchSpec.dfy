/** One match as a value: the specification of MatchState and of the queued game events. */
module MatchSpec {
  import opened RoomCommand
  import opened Scheduler
  import opened WorldRewinder

  const PLAYERNUM := 4
  const GENCNT := 3
  const POSITION_BROADCAST_RATE := 45
  const TICK_RATE := 60

  datatype GameState = NoGame | Playing | BossWin | EmpWin

  /** The server only ever assigns these two of the client's behaviours. */
  datatype Behavior = Idle | Crawl

  const STILL := Direction(0.0, 0.0)
  const BOSS_VELOCITY := 2.0
  const EMPLOYEE_VELOCITY := 3.0

  /** Where a player stands, at what height, and where it looks. */
  datatype Body = Body(pos: Pos, height: real, look: Direction)

  const AHEAD := Direction(0.0, 1.0)
  const UNPLACED := Body(Pos(0.0, -20.0), 0.25, AHEAD)

  /** The boss starts in the middle, the employees to its right. */
  function Spawn(i: nat): Pos {
    Pos(if i == 0 then 0.0 else if i == 1 then 10.0 else if i == 2 then 15.0 else 20.0, -18.0)
  }

  datatype Player = Player(
    sid: int, idx: int, hide: bool, hp: int, behavior: Behavior, escaped: bool, rescue: bool, velocity: Direction,
    body: Body)

  datatype Generator = Generator(active: bool, onInteraction: bool)

  datatype EventKind =
    | Movement(keys: Keys, dir: Direction)
    | Interaction(eventId: int)
    | Attack(target: PlayerIndex, frame: int)

  datatype GameEvent = GameEvent(sid: int, lease: MatchLease, kind: EventKind)

  /** A game event with the time and number under which the match's scheduler holds it. */
  type QueueEvent = Scheduled<GameEvent>

  /**
   * The geometric tests of one tick: does a player standing so reach that generator, does an attack on that player hit
   * in a past state of the world, and where does the collision pass leave a player.
   */
  datatype Geometry = Geometry(
    reaches: (Body, int) -> bool, hits: (WorldStatus, int) -> bool, collide: Body -> Pos)

  /** `history` is what the rewinder has been told since its last Clear; `faulted` records a thrown out_of_range. */
  datatype Match = Match(
    state: GameState,
    generation: nat,
    players: seq<Player>,
    generators: seq<Generator>,
    exitReady: bool,
    phase: nat,
    history: seq<Entry>,
    queue: seq<QueueEvent>,
    nextSequence: nat,
    faulted: bool)

  /** The first player under `sid`, or -1. */
  function FindPlayer(players: seq<Player>, sid: int, from: nat := 0): (i: int)
    requires from <= |players|
    ensures -1 <= i < |players|
    ensures i >= 0 ==> from <= i && players[i].sid == sid
    ensures forall k | from <= k < |players| && (i == -1 || k < i) :: players[k].sid != sid
    decreases |players| - from
  {
    if from == |players| then -1
    else if players[from].sid == sid then from
    else FindPlayer(players, sid, from + 1)
  }

  function Fresh(p: Player): Player {
    Player(-1, -1, false, 3, Idle, false, p.rescue, STILL, UNPLACED)
  }

  function PlacedAt(p: Player, pos: Pos, height: real): Player {
    p.(body := Body(pos, height, p.body.look))
  }

  const COLD := Generator(false, false)

  function Seat(players: seq<Player>, sids: seq<int>): (seated: seq<Player>)
    requires |sids| == |players|
    ensures |seated| == |players|
  {
    seq(|players|, i requires 0 <= i < |players| =>
      PlacedAt(players[i].(sid := sids[i], idx := i), Spawn(i), 0.0))
  }

  function Start(m: Match, sids: seq<int>): Match
    requires |sids| == |m.players|
  {
    m.(players := Seat(m.players, sids),
    generators := seq(|m.generators|, i => COLD),
    exitReady := false, generation := m.generation + 1, state := Playing,
    history := [], queue := [], phase := 0)
  }

  function Reset(m: Match): Match {
    m.(queue := [], history := [],
    players := seq(|m.players|, i requires 0 <= i < |m.players| => PlacedAt(Fresh(m.players[i]), Spawn(i), 0.25)),
    generators := seq(|m.generators|, i => COLD),
    exitReady := false, phase := 0, state := NoGame)
  }

  datatype Departure = NoEffect | HidePlayer | EndMatch

  /** OnPlayerLeft: the departing player crawls, hidden; the boss (index 0) takes the match along. */
  function PlayerLeft(m: Match, sid: int): (r: (Match, Departure)) {
    var i := FindPlayer(m.players, sid);
    if i < 0 then (m.(faulted := true), NoEffect)
    else
      var p := m.players[i];
      var m' := m.(players := m.players[i := p.(velocity := STILL, hide := true, behavior := Crawl)]);
      if m.state != Playing then (m', NoEffect)
      else if p.idx == 0 then (Reset(m'), EndMatch)
      else (m', HidePlayer)
  }

  function Pause(m: Match, sid: int): Match {
    var i := FindPlayer(m.players, sid);
    if i < 0 then m.(faulted := true)
    else m.(players := m.players[i := m.players[i].(velocity := STILL)])
  }

  function Rebind(m: Match, sid: int, idx: int): Match
    requires 0 <= idx < |m.players|
  {
    m.(players := m.players[idx := m.players[idx].(sid := sid, idx := idx)])
  }

  predicate IsCurrentGeneration(m: Match, generation: nat) {
    m.state == Playing && generation != 0 && generation == m.generation
  }

  // ---- queued events ----

  function Schedule(m: Match, now: int, sid: int, lease: MatchLease, kind: EventKind): Match {
    var e := Scheduled(now, m.nextSequence, GameEvent(sid, lease, kind));
    m.(queue := Insert(m.queue, e), nextSequence := m.nextSequence + 1)
  }

  function Axis(positive: bool, negative: bool): real {
    (if positive then 1.0 else 0.0) - (if negative then 1.0 else 0.0)
  }

  /** Look is (x, 0, z); Right is Up x Look = (z, 0, -x). */
  function Shift(keys: Keys, dir: Direction, speed: real): Direction {
    var ahead := Axis(keys.forward, keys.backward);
    var side := Axis(keys.right, keys.left);
    var (x, z) := (dir.x * speed, dir.z * speed);
    Direction(ahead * x + side * z, ahead * z - side * x)
  }

  function Moved(p: Player, keys: Keys, dir: Direction): Player {
    var speed := if p.idx == 0 then BOSS_VELOCITY else EMPLOYEE_VELOCITY;
    p.(velocity := if p.behavior != Idle then STILL else Shift(keys, dir, speed), body := p.body.(look := dir))
  }

  function Attacked(p: Player): Player {
    if p.escaped || p.behavior == Crawl then p
    else
      var hp := if p.hp > 0 then p.hp - 1 else p.hp;
      if hp <= 0 then p.(hp := 0, behavior := Crawl) else p.(hp := hp)
  }

  function Revived(p: Player): Player {
    p.(behavior := Idle, hp := 3)
  }

  function InteractionEffect(m: Match, sid: int, eventId: int, g: Geometry): Match
    requires |m.players| == PLAYERNUM && |m.generators| == GENCNT
  {
    var self := FindPlayer(m.players, sid);
    if 2 <= eventId <= 4 then
      var k := eventId - 2;
      if m.generators[k].active || m.generators[k].onInteraction then m
      else if self < 0 then m.(faulted := true)
      else if !g.reaches(m.players[self].body, k) then m
      else m.(generators := m.generators[k := m.generators[k].(onInteraction := true)])
    else if 5 <= eventId <= 7 then
      var k := eventId - 5;
      if m.generators[k].active || !m.generators[k].onInteraction then m
      else m.(generators := m.generators[k := m.generators[k].(onInteraction := false)])
    else if 8 <= eventId <= 10 then
      var k := eventId - 8;
      m.(generators := m.generators[k := m.generators[k].(active := true)])
    else if 19 <= eventId <= 22 then
      var k := eventId - 19;
      if m.players[k].rescue then m
      else if self < 0 then m.(faulted := true)
      else m.(players := m.players[k := m.players[k].(rescue := true)])
    else if 23 <= eventId <= 26 then
      var k := eventId - 23;
      if self < 0 then m.(faulted := true)
      else m.(players := m.players[k := m.players[k].(rescue := false)])
    else if 27 <= eventId <= 30 then
      var k := eventId - 27;
      if self < 0 then m.(faulted := true)
      else m.(players := m.players[k := Revived(m.players[k])])
    else if 32 <= eventId <= 35 then
      var k := eventId - 32;
      m.(players := m.players[k := m.players[k].(escaped := true)])
    else m
  }

  /** The world an attack packet is checked against; its signed frame number is read as unsigned. */
  function WorldAt(history: seq<Entry>, frame: int): WorldStatus {
    RingLookup(RingOf(history, MAX_REWIND), frame % UINT32)
  }

  /** What an event does once its lease has been found current. */
  function Effect(m: Match, sid: int, kind: EventKind, g: Geometry): Match
    requires |m.players| == PLAYERNUM && |m.generators| == GENCNT
  {
    match kind
    case Movement(keys, dir) =>
      var i := FindPlayer(m.players, sid);
      if i < 0 then m.(faulted := true)
      else m.(players := m.players[i := Moved(m.players[i], keys, dir)])
    case Interaction(eventId) => InteractionEffect(m, sid, eventId, g)
    case Attack(target, frame) =>
      if g.hits(WorldAt(m.history, frame), target) then m.(players := m.players[target := Attacked(m.players[target])]) else m
  }

  // ---- the tick ----

  function Crawlers(players: seq<Player>): nat {
    if players == [] then 0 else (if players[0].behavior == Crawl then 1 else 0) + Crawlers(players[1..])
  }

  function Escapees(players: seq<Player>): nat {
    if players == [] then 0 else (if players[0].escaped then 1 else 0) + Escapees(players[1..])
  }

  predicate AllActive(generators: seq<Generator>) {
    forall k | 0 <= k < |generators| :: generators[k].active
  }

  function CheckGameState(m: Match): GameState {
    if Crawlers(m.players) == PLAYERNUM - 1 then BossWin
    else if Crawlers(m.players) + Escapees(m.players) == PLAYERNUM - 1 && m.exitReady then EmpWin
    else m.state
  }

  const TICK_SECONDS := 1.0 / 60.0

  /** SPlayer::Update. */
  function Stepped(p: Player): Player {
    if p.hide then p
    else p.(body := p.body.(pos := Pos(p.body.pos.x + p.velocity.x * TICK_SECONDS, p.body.pos.z + p.velocity.z * TICK_SECONDS)))
  }

  /** SPlayer::LateUpdate. */
  function Collided(p: Player, g: Geometry): Player {
    if p.hide then p else p.(body := p.body.(pos := g.collide(p.body)))
  }

  /** The end of Update: the players move. */
  function Advanced(m: Match): Match {
    if m.state != Playing then m
    else m.(players := seq(|m.players|, i requires 0 <= i < |m.players| => Stepped(m.players[i])))
  }

  function LateUpdate(m: Match, g: Geometry): Match {
    if m.state != Playing then m
    else
      var m' := m.(players := seq(|m.players|, i requires 0 <= i < |m.players| => Collided(m.players[i], g)),
                   exitReady := m.exitReady || AllActive(m.generators));
      m'.(state := CheckGameState(m'))
  }

  function LastFrame(history: seq<Entry>): nat {
    if history == [] then 0 else history[|history| - 1].frame
  }

  /** What AddHistory records. */
  function Picture(players: seq<Player>, frame: nat): WorldStatus
    requires |players| == PLAYERNUM
  {
    WorldStatus((players[0].body.pos, players[1].body.pos, players[2].body.pos, players[3].body.pos), frame,
                (players[0].body.look.x, 0.0, players[0].body.look.z))
  }

  function AddHistory(m: Match): Match
    requires |m.players| == PLAYERNUM
  {
    var frame := (LastFrame(m.history) + 1) % UINT32;
    m.(history := m.history + [Entry(frame, Picture(m.players, frame))])
  }

  function AdvancePhase(phase: nat, tickRate: nat): nat {
    var next := phase + POSITION_BROADCAST_RATE;
    if next < tickRate then next else next - tickRate
  }

  /** The part of Tick that follows the queued events. */
  function FinishTick(m: Match, g: Geometry): Match
    requires |m.players| == PLAYERNUM
  {
    var m' := AddHistory(LateUpdate(Advanced(m), g));
    m'.(phase := AdvancePhase(m'.phase, TICK_RATE))
  }
}
