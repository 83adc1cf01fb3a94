/** What the events of a match and the end of a tick do to players, generators and the history, field by field. */
module GameRules {
  import opened RoomCommand
  import opened Scheduler
  import opened MatchSpec
  import opened WorldRewinder
  import opened RoomSpec
  import opened Protocol
  import opened RoomInvariant
  import opened MatchIsolation
  import opened GameOver

  predicate FullSize(m: Match) {
    |m.players| == PLAYERNUM && |m.generators| == GENCNT
  }

  /** Player `i` is the first one under `sid`, which is the one a lookup by sid finds. */
  predicate FirstPlayer(m: Match, i: int, sid: int) {
    0 <= i < |m.players| && m.players[i].sid == sid && forall j | 0 <= j < i :: m.players[j].sid != sid
  }

  // ---- movement ----

  function Dot(a: Direction, b: Direction): real {
    a.x * b.x + a.z * b.z
  }

  predicate Unit(dir: Direction) {
    Dot(dir, dir) == 1.0
  }

  /** To the right of a look; Up x Look in the source. */
  function RightOf(dir: Direction): Direction {
    Direction(dir.z, -dir.x)
  }

  function Held(key: bool): real {
    if key then 1.0 else 0.0
  }

  /**
   * The player looks along `dir`; one who is down stands still, any other goes ahead and to the right as the keys say,
   * at 2 for the boss and 3 for employees.
   */
  predicate Moves(p: Player, p': Player, keys: Keys, dir: Direction) {
    var speed := if p.idx == 0 then 2.0 else 3.0;
    && p' == p.(velocity := p'.velocity, body := p.body.(look := dir))
    && (if p.behavior != Idle then p'.velocity == Direction(0.0, 0.0)
        else Unit(dir) ==>
               && Dot(p'.velocity, dir) == speed * (Held(keys.forward) - Held(keys.backward))
               && Dot(p'.velocity, RightOf(dir)) == speed * (Held(keys.right) - Held(keys.left)))
  }

  /** What goes `a` ahead and `b` aside of a unit vector has just these components. */
  lemma Components(dir: Direction, a: real, b: real)
    requires Unit(dir)
    ensures var v := Direction(a * dir.x + b * dir.z, a * dir.z - b * dir.x);
            Dot(v, dir) == a && Dot(v, RightOf(dir)) == b
  {
    var x, z := dir.x, dir.z;
    calc {
      Dot(Direction(a * x + b * z, a * z - b * x), dir);
      (a * x + b * z) * x + (a * z - b * x) * z;
      a * (x * x + z * z);
      a;
    }
    calc {
      Dot(Direction(a * x + b * z, a * z - b * x), RightOf(dir));
      (a * x + b * z) * z + (a * z - b * x) * (-x);
      b * (x * x + z * z);
      b;
    }
  }

  lemma ShiftComponents(keys: Keys, dir: Direction, speed: real)
    requires Unit(dir)
    ensures Dot(Shift(keys, dir, speed), dir) == speed * (Held(keys.forward) - Held(keys.backward))
    ensures Dot(Shift(keys, dir, speed), RightOf(dir)) == speed * (Held(keys.right) - Held(keys.left))
  {
    var a, b := speed * (Held(keys.forward) - Held(keys.backward)), speed * (Held(keys.right) - Held(keys.left));
    Components(dir, a, b);
    assert Shift(keys, dir, speed) == Direction(a * dir.x + b * dir.z, a * dir.z - b * dir.x);
  }

  lemma MovedMoves(p: Player, keys: Keys, dir: Direction)
    ensures Moves(p, Moved(p, keys, dir), keys, dir)
  {
    if Unit(dir) { ShiftComponents(keys, dir, if p.idx == 0 then 2.0 else 3.0); }
  }

  // ---- attacks ----

  /** One life less, and down with the last; players who are down or have escaped are past being hit. */
  predicate Hit(p: Player, p': Player) {
    if p.escaped || p.behavior == Crawl then p' == p
    else if p.hp > 1 then p' == p.(hp := p.hp - 1)
    else p' == p.(hp := 0, behavior := Crawl)
  }

  function Attacks(p: Player, n: nat): Player {
    if n == 0 then p else Attacked(Attacks(p, n - 1))
  }

  /** Who stands with `hp` lives goes down on exactly the `hp`-th hit, and no later hit changes anything. */
  lemma {:induction false} HitsLayDown(p: Player, n: nat)
    requires !p.escaped && p.behavior == Idle && p.hp >= 1
    ensures Attacks(p, n) == if n < p.hp then p.(hp := p.hp - n) else p.(hp := 0, behavior := Crawl)
    decreases n
  {
    if n > 0 { HitsLayDown(p, n - 1); }
  }

  /** A player revived, however low, stands three hits again. */
  lemma RevivedStandsThree(p: Player, n: nat)
    requires !p.escaped
    ensures Attacks(Revived(p), n).behavior == if n < 3 then Idle else Crawl
  {
    HitsLayDown(Revived(p), n);
  }

  // ---- interactions ----

  /** An Activate event lights a generator for good; a Start and an End event turn a dark one's interaction on and off. */
  predicate GeneratorNext(a: Generator, b: Generator, k: int, id: int, reached: bool) {
    && b.active == (a.active || id == 8 + k)
    && b.onInteraction == (if a.active then a.onInteraction
                           else if id == 2 + k then a.onInteraction || reached
                           else a.onInteraction && id != 5 + k)
  }

  /** Rescue, its cancellation, revival and escape each concern one player and one thing about it. */
  predicate PlayerNext(p: Player, p': Player, j: int, id: int) {
    && p' == p.(rescue := p'.rescue, escaped := p'.escaped, hp := p'.hp, behavior := p'.behavior)
    && p'.rescue == (id == 19 + j || (p.rescue && id != 23 + j))
    && p'.escaped == (p.escaped || id == 32 + j)
    && p'.hp == (if id == 27 + j then 3 else p.hp)
    && p'.behavior == (if id == 27 + j then Idle else p.behavior)
  }

  /** The whole match after an interaction by player `i`. */
  predicate Interacts(m: Match, m': Match, i: int, id: int, g: Geometry)
    requires FullSize(m) && 0 <= i < PLAYERNUM
  {
    && FullSize(m') && m' == m.(players := m'.players, generators := m'.generators)
    && (forall k | 0 <= k < GENCNT ::
          GeneratorNext(m.generators[k], m'.generators[k], k, id, g.reaches(m.players[i].body, k)))
    && (forall j | 0 <= j < PLAYERNUM :: PlayerNext(m.players[j], m'.players[j], j, id))
  }

  lemma GeneratorEventInteracts(m: Match, i: int, sid: int, id: int, g: Geometry)
    requires FullSize(m) && FirstPlayer(m, i, sid) && id <= 10
    ensures Interacts(m, InteractionEffect(m, sid, id, g), i, id, g)
  {
    assert FindPlayer(m.players, sid) == i;
  }

  lemma PlayerEventInteracts(m: Match, i: int, sid: int, id: int, g: Geometry)
    requires FullSize(m) && FirstPlayer(m, i, sid) && 10 < id
    ensures Interacts(m, InteractionEffect(m, sid, id, g), i, id, g)
  {
    assert FindPlayer(m.players, sid) == i;
  }

  // ---- every event ----

  /** An event by player `i` does this to the match it acts in. */
  predicate Does(m: Match, m': Match, i: int, kind: EventKind, g: Geometry)
    requires FullSize(m) && 0 <= i < PLAYERNUM
  {
    match kind
    case Movement(keys, dir) =>
      && FullSize(m') && m' == m.(players := m.players[i := m'.players[i]])
      && Moves(m.players[i], m'.players[i], keys, dir)
    case Attack(target, frame) =>
      && FullSize(m') && m' == m.(players := m.players[target := m'.players[target]])
      && (if g.hits(WorldAt(m.history, frame), target) then Hit(m.players[target], m'.players[target])
          else m'.players[target] == m.players[target])
    case Interaction(id) => Interacts(m, m', i, id, g)
  }

  lemma EffectDoes(m: Match, i: int, sid: int, kind: EventKind, g: Geometry)
    requires FullSize(m) && FirstPlayer(m, i, sid)
    ensures Does(m, Effect(m, sid, kind, g), i, kind, g)
  {
    assert FindPlayer(m.players, sid) == i;
    match kind
    case Movement(keys, dir) => MovedMoves(m.players[i], keys, dir);
    case Attack(_, _) =>
    case Interaction(id) => if id <= 10 { GeneratorEventInteracts(m, i, sid, id, g); } else { PlayerEventInteracts(m, i, sid, id, g); }
  }

  // ---- the end of a tick ----

  /** A visible player goes on for a sixtieth of a second, then where the collision pass puts it. */
  predicate Lands(p: Player, p': Player, g: Geometry) {
    if p.hide then p' == p
    else
      var b := p.body;
      var there := Pos(b.pos.x + p.velocity.x / 60.0, b.pos.z + p.velocity.z / 60.0);
      p' == p.(body := Body(g.collide(Body(there, b.height, b.look)), b.height, b.look))
  }

  /** A status shows the four players where they stand, and where the boss looks. */
  predicate Depicts(s: WorldStatus, players: seq<Player>)
    requires |players| == PLAYERNUM
  {
    && s.positions.0 == players[0].body.pos && s.positions.1 == players[1].body.pos
    && s.positions.2 == players[2].body.pos && s.positions.3 == players[3].body.pos
    && s.bossDir == (players[0].body.look.x, 0.0, players[0].body.look.z)
  }

  /** The exit is open, or opens now that the last generator is lit. */
  predicate Opens(m: Match)
    requires FullSize(m)
  {
    m.exitReady || (m.generators[0].active && m.generators[1].active && m.generators[2].active)
  }

  /** The whole match after the events of a tick have run: from `m` to `m'`. */
  predicate TickEnds(m: Match, m': Match, g: Geometry)
    requires FullSize(m)
  {
    var frame := (LastFrame(m.history) + 1) % UINT32;
    && FullSize(m')
    && (forall i | 0 <= i < PLAYERNUM :: Lands(m.players[i], m'.players[i], g))
    && m'.exitReady == Opens(m)
    && m'.phase == (if m.phase < 15 then m.phase + 45 else m.phase - 15)
    && |m'.history| == |m.history| + 1 && m'.history[..|m.history|] == m.history
    && m'.history[|m.history|].frame == m'.history[|m.history|].status.frame == frame
    && Depicts(m'.history[|m.history|].status, m'.players)
    && m' == m.(players := m'.players, exitReady := m'.exitReady, phase := m'.phase, history := m'.history, state := m'.state)
  }

  lemma FinishedTick(m: Match, g: Geometry)
    requires FullSize(m) && m.state == Playing
    ensures TickEnds(m, FinishTick(m, g), g)
  {
    var late := LateUpdate(Advanced(m), g);
    forall i | 0 <= i < PLAYERNUM ensures Lands(m.players[i], late.players[i], g) {}
  }

  /** Three players are down; or the exit is open, and players down and players out make three. */
  predicate Over(m: Match)
    requires FullSize(m)
  {
    Crawlers(m.players) == 3 || (Opens(m) && Crawlers(m.players) + Escapees(m.players) == 3)
  }

  lemma {:induction false} LandingCountsAlike(a: seq<Player>, b: seq<Player>, g: Geometry)
    requires |a| == |b| && forall i | 0 <= i < |a| :: Lands(a[i], b[i], g)
    ensures Crawlers(b) == Crawlers(a) && Escapees(b) == Escapees(a)
    decreases |a|
  {
    if a != [] {
      assert Lands(a[0], b[0], g);
      LandingCountsAlike(a[1..], b[1..], g);
    }
  }

  /** A tick decides the match exactly then. */
  lemma DecidesIff(m: Match, g: Geometry)
    requires FullSize(m) && m.state == Playing
    ensures Decided(FinishTick(m, g)) <==> Over(m)
  {
    var late := LateUpdate(Advanced(m), g);
    FinishedTick(m, g);
    assert late.players == FinishTick(m, g).players;
    LandingCountsAlike(m.players, late.players, g);
  }
}
