/** When a match counts as decided, and how a player who escapes and then departs is counted twice. */
module GameOver {
  import opened MatchSpec

  predicate Down(p: Player) {
    p.behavior == Crawl
  }

  /** Players who are down or have escaped. */
  function Done(players: seq<Player>): nat {
    if players == [] then 0 else (if Down(players[0]) || players[0].escaped then 1 else 0) + Done(players[1..])
  }

  /** Players who are down and have escaped: departing lays a player down, escaped or not. */
  function Twice(players: seq<Player>): nat {
    if players == [] then 0 else (if Down(players[0]) && players[0].escaped then 1 else 0) + Twice(players[1..])
  }

  lemma {:induction false} CountsOverlap(players: seq<Player>)
    ensures Crawlers(players) + Escapees(players) == Done(players) + Twice(players)
    decreases |players|
  {
    if players != [] { CountsOverlap(players[1..]); }
  }

  /** How a tick decides a match: the boss by three players down, the employees by a sum that counts some twice. */
  lemma DecisionIff(m: Match)
    requires m.state == Playing
    ensures CheckGameState(m) == BossWin <==> Crawlers(m.players) == PLAYERNUM - 1
    ensures CheckGameState(m) == EmpWin <==>
              Crawlers(m.players) != PLAYERNUM - 1 && m.exitReady && Done(m.players) + Twice(m.players) == PLAYERNUM - 1
  {
    CountsOverlap(m.players);
  }

  lemma CountsOfFour(a: Player, b: Player, c: Player, d: Player)
    ensures Crawlers([a, b, c, d]) == (if Down(a) then 1 else 0) + (if Down(b) then 1 else 0)
                                      + (if Down(c) then 1 else 0) + (if Down(d) then 1 else 0)
    ensures Escapees([a, b, c, d]) == (if a.escaped then 1 else 0) + (if b.escaped then 1 else 0)
                                      + (if c.escaped then 1 else 0) + (if d.escaped then 1 else 0)
  {
    FirstCounts(a, [b, c, d]);
    FirstCounts(b, [c, d]);
    FirstCounts(c, [d]);
    FirstCounts(d, []);
    assert [d] + [] == [d] && [c] + [d] == [c, d] && [b] + [c, d] == [b, c, d] && [a] + [b, c, d] == [a, b, c, d];
  }

  lemma FirstCounts(a: Player, rest: seq<Player>)
    ensures Crawlers([a] + rest) == (if Down(a) then 1 else 0) + Crawlers(rest)
    ensures Escapees([a] + rest) == (if a.escaped then 1 else 0) + Escapees(rest)
  {
    assert ([a] + rest)[1..] == rest;
  }

  lemma DoneOfFour(a: Player, b: Player, c: Player, d: Player)
    ensures Done([a, b, c, d]) == (if Down(a) || a.escaped then 1 else 0) + (if Down(b) || b.escaped then 1 else 0)
                                  + (if Down(c) || c.escaped then 1 else 0) + (if Down(d) || d.escaped then 1 else 0)
    ensures Twice([a, b, c, d]) == (if Down(a) && a.escaped then 1 else 0) + (if Down(b) && b.escaped then 1 else 0)
                                   + (if Down(c) && c.escaped then 1 else 0) + (if Down(d) && d.escaped then 1 else 0)
  {
    FirstDone(a, [b, c, d]);
    FirstDone(b, [c, d]);
    FirstDone(c, [d]);
    FirstDone(d, []);
    assert [d] + [] == [d] && [c] + [d] == [c, d] && [b] + [c, d] == [b, c, d] && [a] + [b, c, d] == [a, b, c, d];
  }

  lemma FirstDone(a: Player, rest: seq<Player>)
    ensures Done([a] + rest) == (if Down(a) || a.escaped then 1 else 0) + Done(rest)
    ensures Twice([a] + rest) == (if Down(a) && a.escaped then 1 else 0) + Twice(rest)
  {
    assert ([a] + rest)[1..] == rest;
  }

  predicate CountsTwice(p: Player) {
    Down(p) && p.escaped
  }

  /** With the exit open and the boss not winning, the employees win exactly when three players are down or out. */
  predicate EndsRight(m: Match) {
    CheckGameState(m) == EmpWin <==> Done(m.players) == PLAYERNUM - 1
  }

  predicate ExitOpen(m: Match) {
    m.state == Playing && m.exitReady && |m.players| == PLAYERNUM && Crawlers(m.players) != PLAYERNUM - 1
  }

  /** The same players are both down and out. */
  predicate SameTwice(m: Match, m': Match) {
    |m'.players| == |m.players| && forall i | 0 <= i < |m.players| :: CountsTwice(m'.players[i]) == CountsTwice(m.players[i])
  }

  /**
   * A match ends right, whatever the other players do, exactly if nobody is both down and out, or three players are
   * (who are down, so that the boss has won unless all four are).
   */
  lemma EndsRightIff(m: Match)
    requires |m.players| == PLAYERNUM
    ensures (forall m' | SameTwice(m, m') && ExitOpen(m') :: EndsRight(m'))
            <==> Twice(m.players) == 0 || Twice(m.players) >= PLAYERNUM - 1
  {
    if Twice(m.players) == 0 || Twice(m.players) >= PLAYERNUM - 1 {
      forall m' | SameTwice(m, m') && ExitOpen(m') ensures EndsRight(m') {
        SameTwiceCounts(m, m');
        EndsRightUnlessTwice(m');
      }
    } else {
      var m' := EndsWrong(m);
      assert SameTwice(m, m') && ExitOpen(m') && !EndsRight(m');
    }
  }

  lemma SameTwiceCounts(m: Match, m': Match)
    requires |m.players| == PLAYERNUM && SameTwice(m, m')
    ensures Twice(m'.players) == Twice(m.players)
  {
    var (a, b) := (m.players, m'.players);
    assert a == [a[0], a[1], a[2], a[3]] && b == [b[0], b[1], b[2], b[3]];
    DoneOfFour(a[0], a[1], a[2], a[3]);
    DoneOfFour(b[0], b[1], b[2], b[3]);
    assert forall i | 0 <= i < PLAYERNUM :: CountsTwice(b[i]) == CountsTwice(a[i]);
  }

  lemma EndsRightUnlessTwice(m: Match)
    requires ExitOpen(m) && (Twice(m.players) == 0 || Twice(m.players) >= PLAYERNUM - 1)
    ensures EndsRight(m)
  {
    DecisionIff(m);
    var ps := m.players;
    assert ps == [ps[0], ps[1], ps[2], ps[3]];
    DoneOfFour(ps[0], ps[1], ps[2], ps[3]);
    CountsOfFour(ps[0], ps[1], ps[2], ps[3]);
  }

  /** If one or two count twice, it goes wrong once one other player is out and the rest are up. */
  lemma EndsWrong(m: Match) returns (m': Match)
    requires |m.players| == PLAYERNUM && 0 < Twice(m.players) < PLAYERNUM - 1
    ensures SameTwice(m, m') && ExitOpen(m') && !EndsRight(m')
  {
    var a := m.players;
    var k := if !CountsTwice(a[0]) then 0 else if !CountsTwice(a[1]) then 1 else 2;
    var b := seq(PLAYERNUM, i requires 0 <= i < PLAYERNUM =>
      if CountsTwice(a[i]) then a[i] else a[i].(behavior := Idle, escaped := i == k));
    m' := m.(state := Playing, exitReady := true, players := b);
    assert a == [a[0], a[1], a[2], a[3]] && b == [b[0], b[1], b[2], b[3]];
    DoneOfFour(a[0], a[1], a[2], a[3]);
    DoneOfFour(b[0], b[1], b[2], b[3]);
    CountsOfFour(b[0], b[1], b[2], b[3]);
  }
}
