/** What the expiry of reconnects at the start of an update frees, hides and lays down: exactly what is overdue. */
module Expiry {
  import opened RoomCommand
  import opened SessionSpec
  import opened MatchSpec
  import opened RoomSpec
  import opened Protocol
  import opened RoomInvariant
  import opened ServerInvariant
  import opened ServerSteps
  import opened Waiters
  import opened ResumeExpiry
  import opened MatchIsolation
  import opened GameRules
  import opened CommandEffects
  import opened Pictures

  predicate Overdue(m: Member, now: int) {
    m.connection == Reconnecting && now >= m.deadline
  }

  function Downed(p: Player): Player {
    p.(velocity := Direction(0.0, 0.0), hide := true, behavior := Crawl)
  }

  predicate Distinct(sids: seq<int>) {
    forall p, q | 0 <= p < q < |sids| :: sids[p] != sids[q]
  }

  /** The first slots under these sids are freed, and the first players under them are down. */
  predicate AllLeave(a: Room, b: Room, sids: seq<int>)
    requires RoomShaped(a)
  {
    && RoomShaped(b)
    && b == a.(count := b.count, members := b.members, game := a.game.(players := b.game.players))
    && (forall i | 0 <= i < PLAYERNUM ::
          b.members[i] == if a.members[i].sid in sids && FirstSlot(a, i, a.members[i].sid)
                          then Free(a.members[i].generation + 1) else a.members[i])
    && (forall k | 0 <= k < PLAYERNUM ::
          b.game.players[k] == if a.game.players[k].sid in sids && FirstPlayer(a.game, k, a.game.players[k].sid)
                               then Downed(a.game.players[k]) else a.game.players[k])
  }

  /** Nobody in the list is the boss, and each holds a slot. */
  predicate Employees(a: Room, sids: seq<int>)
    requires RoomShaped(a)
  {
    forall s | s in sids :: s != -1 && s != a.members[0].sid && !NoSlot(a, s)
  }

  lemma OneLeaves(c: Scene, sid: int, now: int) returns (i: int, k: int)
    requires RoomOK(c.room, now) && c.room.status == InGame && WaitsFirst(c.room.members)
    requires sid != -1 && sid != c.room.members[0].sid && !NoSlot(c.room, sid)
    ensures FirstSlot(c.room, i, sid) && FirstPlayer(c.room.game, k, sid) && i >= 1
    ensures var b := UserOut(c, sid).room;
            LeavesMatch(c.room, b, i, k) && RoomOK(b, now) && WaitsFirst(b.members)
  {
    i := IndexOf(c.room.members, sid);
    k := FindPlayer(c.room.game.players, sid);
    assert c.room.game.players[i].sid == sid;
    DepartsFrom(c, sid, now, i, k);
    UserOutKeepsRoom(c, sid, now);
    UserOutInGame(c, sid, now);
  }

  /** The rest leave from a room that one has just left. */
  lemma StillEmployees(a: Room, b: Room, i: int, k: int, sids: seq<int>)
    requires RoomShaped(a) && RoomShaped(b) && 1 <= i < PLAYERNUM && 0 <= k < PLAYERNUM && LeavesMatch(a, b, i, k)
    requires sids != [] && a.members[i].sid == sids[0] && Distinct(sids) && Employees(a, sids)
    ensures Employees(b, sids[1..]) && Distinct(sids[1..])
  {
    forall s | s in sids[1..] ensures s in sids && s != sids[0] && !NoSlot(b, s) {
      var q :| 0 <= q < |sids[1..]| && sids[1..][q] == s;
      assert sids[q + 1] == s;
      assert s in sids && !NoSlot(a, s);
      var j :| 0 <= j < |a.members| && a.members[j].sid == s;
      assert b.members[j].sid == s;
    }
  }

  lemma LeavingJoins(a: Room, b: Room, c: Room, i: int, k: int, sids: seq<int>)
    requires RoomShaped(a) && RoomShaped(b) && sids != [] && Distinct(sids) && -1 !in sids
    requires FirstSlot(a, i, sids[0]) && FirstPlayer(a.game, k, sids[0]) && i >= 1
    requires LeavesMatch(a, b, i, k) && AllLeave(b, c, sids[1..])
    ensures AllLeave(a, c, sids)
  {
    assert forall s :: s in sids <==> s == sids[0] || s in sids[1..];
    forall q | 0 <= q < |sids[1..]| ensures sids[1..][q] != sids[0] { assert sids[q + 1] != sids[0]; }
    forall j | 0 <= j < PLAYERNUM && a.members[j].sid != -1 && a.members[j].sid != sids[0]
      ensures b.members[j] == a.members[j] && (FirstSlot(b, j, a.members[j].sid) <==> FirstSlot(a, j, a.members[j].sid))
    {
      FirstSlotStays(a, b, i, j);
    }
    assert b.members[i].sid == -1;
    forall j | 0 <= j < PLAYERNUM
      ensures b.game.players[j].sid == a.game.players[j].sid
              && (FirstPlayer(b.game, j, a.game.players[j].sid) <==> FirstPlayer(a.game, j, a.game.players[j].sid))
    {
      assert forall q | 0 <= q < PLAYERNUM :: b.game.players[q].sid == a.game.players[q].sid;
    }
  }

  lemma FirstSlotStays(a: Room, b: Room, i: int, j: int)
    requires RoomShaped(a) && RoomShaped(b) && 0 <= i < PLAYERNUM && 0 <= j < PLAYERNUM
    requires b.members == a.members[i := b.members[i]] && b.members[i].sid == -1
    requires a.members[j].sid != -1 && a.members[j].sid != a.members[i].sid
    ensures b.members[j] == a.members[j] && (FirstSlot(b, j, a.members[j].sid) <==> FirstSlot(a, j, a.members[j].sid))
  {
    assert forall q | 0 <= q < PLAYERNUM && q != i :: b.members[q] == a.members[q];
  }

  lemma {:induction false} EachLeaves(c: Scene, sids: seq<int>, now: int)
    requires RoomOK(c.room, now) && c.room.status == InGame && WaitsFirst(c.room.members)
    requires Distinct(sids) && Employees(c.room, sids)
    ensures AllLeave(c.room, UserOutEach(c, sids).room, sids)
    decreases |sids|
  {
    if sids != [] {
      assert sids[0] in sids;
      var i, k := OneLeaves(c, sids[0], now);
      var c1 := UserOut(c, sids[0]);
      StillEmployees(c.room, c1.room, i, k, sids);
      EachLeaves(c1, sids[1..], now);
      LeavingJoins(c.room, c1.room, UserOutEach(c, sids).room, i, k, sids);
    }
  }

  lemma {:induction false} ExpiredDistinct(ms: seq<Member>, now: int)
    requires WaitsFirst(ms)
    ensures Distinct(Expired(ms, now))
    decreases |ms|
  {
    if ms != [] {
      var rest := ms[1..];
      forall k, i | 0 <= k < i < |rest| && rest[i].connection == Reconnecting ensures rest[k].sid != rest[i].sid {
        assert ms[k + 1].sid != ms[i + 1].sid;
      }
      ExpiredDistinct(rest, now);
      ExpiredSids(rest, now);
      if Overdue(ms[0], now) {
        var later := Expired(rest, now);
        forall q | 0 <= q < |later| ensures later[q] != ms[0].sid {
          assert later[q] in later;
          var k := OverdueUnder(rest, now, later[q]);
          assert ms[k + 1] == rest[k] && ms[0].sid != ms[k + 1].sid;
        }
      }
    }
  }

  /** Whoever is overdue is in the list, and nobody else's sid is. */
  lemma OverdueSids(a: Room, now: int)
    requires RoomOK(a, now) && a.status == InGame && WaitsFirst(a.members)
    ensures Distinct(Expired(a.members, now)) && Employees(a, Expired(a.members, now))
    ensures forall i | 0 <= i < PLAYERNUM ::
              Overdue(a.members[i], now) <==> a.members[i].sid in Expired(a.members, now) && FirstSlot(a, i, a.members[i].sid)
  {
    ExpiredDistinct(a.members, now);
    ExpiredSids(a.members, now);
    forall s | s in Expired(a.members, now) ensures s != -1 && s != a.members[0].sid && !NoSlot(a, s) {
      var k := OverdueUnder(a.members, now, s);
      assert SlotOK(a.members[k]);
    }
    forall i | 0 <= i < PLAYERNUM && a.members[i].sid in Expired(a.members, now) && FirstSlot(a, i, a.members[i].sid)
      ensures Overdue(a.members[i], now)
    {
      var k := OverdueUnder(a.members, now, a.members[i].sid);
      assert k == i;
    }
  }

  /** A slot of the room is overdue under this sid. */
  predicate IsOverdue(a: Room, sid: int, now: int)
    requires RoomShaped(a)
  {
    exists i | 0 <= i < PLAYERNUM :: Overdue(a.members[i], now) && a.members[i].sid == sid
  }

  /**
   * The room as the tick finds it: exactly the overdue slots are free, under the next generation, and exactly the first
   * players under their sids are still, hidden and down.
   */
  predicate Expires(a: Room, b: Room, now: int)
    requires RoomShaped(a)
  {
    && RoomShaped(b)
    && b == a.(count := b.count, members := b.members, game := a.game.(players := b.game.players))
    && (forall i | 0 <= i < PLAYERNUM ::
          b.members[i] == if Overdue(a.members[i], now) then Free(a.members[i].generation + 1) else a.members[i])
    && (forall k | 0 <= k < PLAYERNUM ::
          b.game.players[k] == if IsOverdue(a, a.game.players[k].sid, now) && FirstPlayer(a.game, k, a.game.players[k].sid)
                               then Downed(a.game.players[k]) else a.game.players[k])
  }

  lemma ExpiresRoom(c: Scene, now: int)
    requires RoomOK(c.room, now) && WaitsFirst(c.room.members) && c.room.status == InGame
    ensures Expires(c.room, ExpireReconnects(c, now).room, now)
  {
    var a := c.room;
    OverdueSids(a, now);
    EachLeaves(c, Expired(a.members, now), now);
    ExpiredSids(a.members, now);
    forall s ensures s in Expired(a.members, now) <==> IsOverdue(a, s, now) {}
  }

  lemma ExpiryIs(w: World, r: int)
    requires WorldOK(w) && WaitersFirst(w) && IsValidRoom(r) && w.rooms[r].status == InGame
    ensures Expires(w.rooms[r], Ticking(w, r), w.now)
  {
    ExpiresRoom(SceneAt(w, r), w.now);
  }
}
