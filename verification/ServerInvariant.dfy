/** What rooms and sessions keep about each other, whatever the clients do and however threads interleave. */
module ServerInvariant {
  import opened RoomCommand
  import opened SessionSpec
  import opened MatchSpec
  import opened RoomSpec
  import opened Protocol
  import opened RoomInvariant

  /** The two maps and the announcements in flight; a retired session is never bound. */
  ghost predicate NetOK(n: Net) {
    && n.active <= n.sessions.Keys && n.retired <= n.sessions.Keys && n.leaving <= n.sessions.Keys
    && n.active !! n.retired && n.active !! n.leaving
    && n.nextSid <= SID_LIMIT
    && forall s | s in n.sessions ::
         && 0 <= s < n.nextSid
         && (n.sessions[s].retired ==> n.sessions[s].binding == UNBOUND)
         && (n.sessions[s].binding.room == -1 ==> n.sessions[s].binding == UNBOUND)
         && (s !in n.active ==> n.sessions[s].retired)
  }

  /** A bound session is the Connected occupant of a slot of that room, at that slot's generation. */
  ghost predicate BindingsOK(rooms: seq<Room>, n: Net) {
    forall s | s in n.sessions && n.sessions[s].binding.room != -1 :: Seated(rooms, s, n.sessions[s].binding)
  }

  ghost predicate Seated(rooms: seq<Room>, s: int, b: GameBinding) {
    0 <= b.room < |rooms| && IsCurrentMember(rooms[b.room].members, s, b.lease.memberGeneration)
  }

  /** Slots hold sids of known sessions; a Reconnecting slot's session is gone. */
  ghost predicate SlotKnown(m: Member, n: Net) {
    Filled(m) ==> m.sid in n.sessions && (m.connection == Reconnecting ==> m.sid !in n.active)
  }

  ghost predicate RoomKnown(r: Room, n: Net) {
    forall i | 0 <= i < |r.members| :: SlotKnown(r.members[i], n)
  }

  ghost predicate CommandKnown(c: LobbyCommand, n: Net) {
    && c.sid in n.sessions
    && (c.Disconnected? ==> n.sessions[c.sid].retired && c.sid !in n.active)
    && (c.Resume? ==> c.token != 0)
  }

  ghost predicate CommandsOK(w: World) {
    && (forall k | 0 <= k < |w.batch| :: CommandKnown(w.batch[k], w.net))
    && (forall k | 0 <= k < |w.net.lobby| :: CommandKnown(w.net.lobby[k], w.net))
    && (forall k | 0 <= k < |w.gameBatch| :: w.gameBatch[k].sid in w.net.sessions)
    && (forall k | 0 <= k < |w.game| :: w.game[k].sid in w.net.sessions)
  }

  ghost predicate RoomsOK(rooms: seq<Room>, n: Net, now: int) {
    && |rooms| == ROOM_CAPACITY
    && forall r | 0 <= r < ROOM_CAPACITY :: RoomOK(rooms[r], now) && rooms[r].number == r && RoomKnown(rooms[r], n)
  }

  ghost predicate WorldOK(w: World) {
    && RoomsOK(w.rooms, w.net, w.now)
    && NetOK(w.net)
    && BindingsOK(w.rooms, w.net)
    && CommandsOK(w)
  }

  /** Every room has moved on from what it was, slot by slot and match by match; time never goes back. */
  ghost predicate Follows(w: World, w': World) {
    && Shaped(w) && Shaped(w')
    && (forall r | 0 <= r < ROOM_CAPACITY :: Succeeds(w.rooms[r], w'.rooms[r]))
    && w.now <= w'.now
  }

  lemma FollowsTransitive(a: World, b: World, c: World)
    requires Follows(a, b) && Follows(b, c)
    ensures Follows(a, c)
  {
    forall r | 0 <= r < ROOM_CAPACITY ensures Succeeds(a.rooms[r], c.rooms[r]) {
      SucceedsTransitive(a.rooms[r], b.rooms[r], c.rooms[r]);
    }
  }

  // ---- operations that only empty slots and clear bindings ----

  predicate Loose(a: Session, b: Session) {
    b == a || b == a.(binding := UNBOUND)
  }

  ghost predicate NetLoosened(n: Net, n': Net) {
    && n' == n.(sessions := n'.sessions)
    && n'.sessions.Keys == n.sessions.Keys
    && forall s | s in n.sessions :: Loose(n.sessions[s], n'.sessions[s])
  }

  predicate Left(a: Member, b: Member) {
    Filled(a) && !Filled(b)
  }

  /**
   * Slots stay as they are or become free; a session that loses a slot loses its binding, and no other does.
   */
  ghost predicate Loosened(c: Scene, c': Scene) {
    && RoomShaped(c.room) && RoomShaped(c'.room)
    && NetLoosened(c.net, c'.net)
    && (forall i | 0 <= i < PLAYERNUM :: c'.room.members[i] == c.room.members[i] || !Filled(c'.room.members[i]))
    && (forall i | 0 <= i < PLAYERNUM ::
          Left(c.room.members[i], c'.room.members[i]) && Found(c.net, c.room.members[i].sid) ==>
            c'.net.sessions[c.room.members[i].sid].binding == UNBOUND)
    && (forall s | s in c.net.sessions && c'.net.sessions[s] != c.net.sessions[s] ::
          exists i :: 0 <= i < PLAYERNUM && c.room.members[i].sid == s && Left(c.room.members[i], c'.room.members[i]))
  }

  lemma NetLoosenedTransitive(a: Net, b: Net, c: Net)
    requires NetLoosened(a, b) && NetLoosened(b, c)
    ensures NetLoosened(a, c)
  {
    forall s | s in a.sessions ensures Loose(a.sessions[s], c.sessions[s]) {
      assert Loose(a.sessions[s], b.sessions[s]) && Loose(b.sessions[s], c.sessions[s]);
    }
  }

  lemma LoosenedTransitive(a: Scene, b: Scene, c: Scene)
    requires Loosened(a, b) && Loosened(b, c)
    ensures Loosened(a, c)
  {
    forall s | s in a.net.sessions && c.net.sessions[s] != a.net.sessions[s]
      ensures exists i :: 0 <= i < PLAYERNUM && a.room.members[i].sid == s
                          && Left(a.room.members[i], c.room.members[i])
    {
      if b.net.sessions[s] != a.net.sessions[s] {
        var i :| 0 <= i < PLAYERNUM && a.room.members[i].sid == s && Left(a.room.members[i], b.room.members[i]);
        assert Left(a.room.members[i], c.room.members[i]);
      } else {
        var i :| 0 <= i < PLAYERNUM && b.room.members[i].sid == s && Left(b.room.members[i], c.room.members[i]);
        assert Left(a.room.members[i], c.room.members[i]);
      }
    }
    forall i | 0 <= i < PLAYERNUM && Left(a.room.members[i], c.room.members[i]) && Found(a.net, a.room.members[i].sid)
      ensures c.net.sessions[a.room.members[i].sid].binding == UNBOUND
    {
      var s := a.room.members[i].sid;
      assert Loose(b.net.sessions[s], c.net.sessions[s]);
      if Left(a.room.members[i], b.room.members[i]) {
      } else {
        assert Left(b.room.members[i], c.room.members[i]);
      }
    }
  }

  lemma {:induction false} ClearEachLoosens(n: Net, sids: seq<int>)
    ensures var n' := ClearEach(n, sids);
            && NetLoosened(n, n')
            && (forall s :: s in sids && Found(n, s) ==> n'.sessions[s].binding == UNBOUND)
            && (forall s | s in n.sessions && n'.sessions[s] != n.sessions[s] :: s in sids)
    decreases |sids|
  {
    if sids != [] {
      var n1 := ClearFound(n, sids[0]);
      assert NetLoosened(n, n1);
      ClearEachLoosens(n1, sids[1..]);
      var n' := ClearEach(n, sids);
      assert n' == ClearEach(n1, sids[1..]);
      forall s | s in sids && Found(n, s) ensures n'.sessions[s].binding == UNBOUND {
        if s in sids[1..] { assert Found(n1, s); } else { assert s == sids[0]; }
      }
    }
  }

  lemma UserOutKeepsSlots(c: Scene, sid: int)
    requires RoomShaped(c.room) && SlotsOK(c.room) && sid != -1
    ensures SlotsOK(UserOut(c, sid).room)
  {
    var i := IndexOf(c.room.members, sid);
    if i >= 0 { RemoveKeepsSlots(c.room, i); }
  }

  lemma RemoveKeepsSlots(r: Room, i: int)
    requires RoomShaped(r) && SlotsOK(r) && 0 <= i < PLAYERNUM && Filled(r.members[i])
    ensures SlotsOK(Remove(r, i))
  {
    OccupiedAfter(r.members, i, Vacated(r.members[i]));
  }

  lemma RemoveLoosens(c: Scene, i: int)
    requires RoomShaped(c.room) && 0 <= i < PLAYERNUM && Filled(c.room.members[i])
    ensures Loosened(c, Scene(Remove(c.room, i), ClearFound(c.net, c.room.members[i].sid)))
  {
    assert Left(c.room.members[i], Remove(c.room, i).members[i]);
  }

  lemma VacateAllLoosens(c: Scene, c': Scene)
    requires RoomShaped(c.room) && RoomShaped(c'.room) && NetOK(c.net)
    requires c'.room.members == VacateAll(c.room.members) && c'.net == ClearEach(c.net, Sids(c.room.members))
    ensures Loosened(c, c')
  {
    var sids := Sids(c.room.members);
    ClearEachLoosens(c.net, sids);
    forall s | s in c.net.sessions && c'.net.sessions[s] != c.net.sessions[s]
      ensures exists k :: 0 <= k < PLAYERNUM && c.room.members[k].sid == s
                          && Left(c.room.members[k], c'.room.members[k])
    {
      var k :| 0 <= k < |sids| && sids[k] == s;
      assert Left(c.room.members[k], c'.room.members[k]);
    }
    forall k | 0 <= k < PLAYERNUM && Found(c.net, c.room.members[k].sid)
      ensures c'.net.sessions[c.room.members[k].sid].binding == UNBOUND
    {
      assert sids[k] in sids;
    }
  }

  lemma UserOutLoosens(c: Scene, sid: int)
    requires RoomShaped(c.room) && SlotsOK(c.room) && sid != -1 && NetOK(c.net)
    ensures Loosened(c, UserOut(c, sid))
  {
    var i := IndexOf(c.room.members, sid);
    if i >= 0 {
      var c1 := Scene(Remove(c.room, i), ClearFound(c.net, sid));
      RemoveLoosens(c, i);
      LoosenedKeepsNet(c.net, c1.net);
      OccupiedAfter(c.room.members, i, Vacated(c.room.members[i]));
      if c.room.status == InGame {
        LeaveGameLoosens(c1, sid);
        LoosenedTransitive(c, c1, LeaveGame(c1, sid));
      } else {
        assert Loosened(c1, c1.(room := LeaveLobby(c1.room)));
        LoosenedTransitive(c, c1, c1.(room := LeaveLobby(c1.room)));
      }
    }
  }

  lemma LeaveGameLoosens(c: Scene, sid: int)
    requires RoomShaped(c.room) && NetOK(c.net)
    ensures Loosened(c, LeaveGame(c, sid))
  {
    var c' := LeaveGame(c, sid);
    if PlayerLeft(c.room.game, sid).1 == EndMatch { VacateAllLoosens(c, c'); }
  }

  lemma LoosenedKeepsNet(n: Net, n': Net)
    requires NetOK(n) && NetLoosened(n, n')
    ensures NetOK(n')
  {
    forall s | s in n'.sessions
      ensures 0 <= s < n'.nextSid && (n'.sessions[s].retired ==> n'.sessions[s].binding == UNBOUND)
              && (n'.sessions[s].binding.room == -1 ==> n'.sessions[s].binding == UNBOUND)
              && (s !in n'.active ==> n'.sessions[s].retired)
    {
      assert Loose(n.sessions[s], n'.sessions[s]);
    }
  }

  lemma {:induction false} UserOutEachLoosens(c: Scene, sids: seq<int>)
    requires RoomShaped(c.room) && SlotsOK(c.room) && NetOK(c.net)
    ensures Loosened(c, UserOutEach(c, sids))
    decreases |sids|
  {
    if sids != [] {
      var c' := if sids[0] != -1 then UserOut(c, sids[0]) else c;
      if sids[0] != -1 {
        UserOutLoosens(c, sids[0]);
        UserOutKeepsSlots(c, sids[0]);
      }
      LoosenedKeepsNet(c.net, c'.net);
      UserOutEachLoosens(c', sids[1..]);
      LoosenedTransitive(c, c', UserOutEach(c, sids));
    }
  }

  lemma PlayLoosens(c: Scene, now: int, g: Geometry)
    requires RoomOK(c.room, now) && NetOK(c.net)
    ensures Loosened(c, Play(c, now, g))
  {
    if c.room.status == InGame {
      TickKeepsRoom(c.room, now, g);
      var c' := c.(room := Tick(c.room, now, g));
      assert Loosened(c, c');
      if Decided(c'.room.game) {
        UserOutEachLoosens(c'.(room := c'.room.(status := Full)), Sids(c'.room.members));
        assert Loosened(c', Close(c'));
        LoosenedTransitive(c, c', Close(c'));
      }
    }
  }

  lemma UpdateLoosens(c: Scene, now: int, g: Geometry)
    requires RoomOK(c.room, now) && NetOK(c.net)
    ensures Loosened(c, Update(c, now, g))
  {
    if c.room.status == InGame {
      var c1 := ExpireReconnects(c, now);
      UserOutEachLoosens(c, Expired(c.room.members, now));
      UserOutEachKeepsRoom(c, Expired(c.room.members, now), now);
      LoosenedKeepsNet(c.net, c1.net);
      PlayLoosens(c1, now, g);
      LoosenedTransitive(c, c1, Play(c1, now, g));
    }
  }

  /** Slots that are as they were, or free, are still known; bindings that survive are still seated. */
  lemma LoosenedKeepsWorld(w: World, r: int, c': Scene)
    requires WorldOK(w) && 0 <= r < ROOM_CAPACITY
    requires Loosened(SceneAt(w, r), c')
    requires RoomOK(c'.room, w.now) && c'.room.number == r
    ensures WorldOK(WithScene(w, r, c'))
  {
    var w' := WithScene(w, r, c');
    LoosenedKeepsNet(w.net, c'.net);
    forall q | 0 <= q < ROOM_CAPACITY ensures RoomKnown(w'.rooms[q], w'.net) {
      forall i | 0 <= i < |w'.rooms[q].members| ensures SlotKnown(w'.rooms[q].members[i], w'.net) {
        assert RoomKnown(w.rooms[q], w.net);
        assert SlotKnown(w.rooms[q].members[i], w.net);
        var s := w'.rooms[q].members[i].sid;
        if s in w.net.sessions { assert Loose(w.net.sessions[s], w'.net.sessions[s]); }
      }
    }
    forall s | s in w'.net.sessions && w'.net.sessions[s].binding.room != -1
      ensures Seated(w'.rooms, s, w'.net.sessions[s].binding)
    {
      assert Loose(w.net.sessions[s], w'.net.sessions[s]);
      var b := w.net.sessions[s].binding;
      assert Seated(w.rooms, s, b);
      if b.room == r {
        var i :| 0 <= i < PLAYERNUM && w.rooms[r].members[i].sid == s
                 && w.rooms[r].members[i].connection == Connected
                 && w.rooms[r].members[i].generation == b.lease.memberGeneration;
        assert s in w.net.active;
        assert !Left(w.rooms[r].members[i], c'.room.members[i]);
      }
    }
    LoosenedKeepsCommands(w, w');
  }

  lemma LoosenedKeepsCommands(w: World, w': World)
    requires CommandsOK(w) && NetLoosened(w.net, w'.net)
    requires w'.batch == w.batch && w'.gameBatch == w.gameBatch && w'.game == w.game
    ensures CommandsOK(w')
  {
    forall c: LobbyCommand | CommandKnown(c, w.net) ensures CommandKnown(c, w'.net) {
      assert Loose(w.net.sessions[c.sid], w'.net.sessions[c.sid]);
    }
  }

  // ---- operations on the session table alone ----

  /**
   * Sessions are only added, retired or unbound; nothing is bound; commands stay known.
   */
  ghost predicate NetQuiet(n: Net, n': Net) {
    && NetOK(n')
    && n.sessions.Keys <= n'.sessions.Keys
    && (forall s | s in n'.active && s in n.sessions :: s in n.active)
    && (forall s | s in n.sessions :: n.sessions[s].retired ==> n'.sessions[s].retired)
    && (forall s | s in n'.sessions && n'.sessions[s].binding.room != -1 ::
          s in n.sessions && n'.sessions[s].binding == n.sessions[s].binding)
    && |n.lobby| <= |n'.lobby| && n'.lobby[..|n.lobby|] == n.lobby
    && (forall k | |n.lobby| <= k < |n'.lobby| :: CommandKnown(n'.lobby[k], n'))
  }

  lemma NetQuietKeepsWorld(w: World, w': World)
    requires WorldOK(w) && NetQuiet(w.net, w'.net)
    requires w'.rooms == w.rooms && w'.now == w.now && w'.batch == w.batch
    requires w'.game == w.game && w'.gameBatch == w.gameBatch
    ensures WorldOK(w')
  {
    forall r | 0 <= r < ROOM_CAPACITY ensures RoomKnown(w'.rooms[r], w'.net) {
      assert RoomKnown(w.rooms[r], w.net);
      forall i | 0 <= i < |w.rooms[r].members| ensures SlotKnown(w.rooms[r].members[i], w'.net) {
        assert SlotKnown(w.rooms[r].members[i], w.net);
      }
    }
    forall s | s in w'.net.sessions && w'.net.sessions[s].binding.room != -1
      ensures Seated(w'.rooms, s, w'.net.sessions[s].binding)
    {
      assert Seated(w.rooms, s, w.net.sessions[s].binding);
    }
    forall c: LobbyCommand | CommandKnown(c, w.net) ensures CommandKnown(c, w'.net) {}
    forall k | 0 <= k < |w'.net.lobby| ensures CommandKnown(w'.net.lobby[k], w'.net) {
      if k < |w.net.lobby| { assert w'.net.lobby[k] == w.net.lobby[k]; }
    }
  }

  lemma RetireIsQuiet(n: Net, sid: int)
    requires NetOK(n)
    ensures NetQuiet(n, Retire(n, sid)) && NetQuiet(n, Clear(n, sid)) && NetQuiet(n, ClearFound(n, sid))
  {
  }

  lemma MoveIsQuiet(n: Net, sid: int)
    requires NetOK(n) && sid in n.sessions && n.sessions[sid].retired
    ensures NetQuiet(n, Move(n, sid))
  {
  }

  lemma PublishIsQuiet(n: Net, sid: int)
    requires NetOK(n)
    ensures NetQuiet(n, Publish(n, sid)) && NetQuiet(n, Drain(n))
  {
  }

  lemma NetQuietTransitive(a: Net, b: Net, c: Net)
    requires NetQuiet(a, b) && NetQuiet(b, c)
    ensures NetQuiet(a, c)
  {
    forall k | |a.lobby| <= k < |c.lobby| ensures CommandKnown(c.lobby[k], c) {
      if k < |b.lobby| {
        assert c.lobby[k] == b.lobby[k];
        assert CommandKnown(b.lobby[k], b);
      }
    }
    assert c.lobby[..|a.lobby|] == c.lobby[..|b.lobby|][..|a.lobby|];
  }

  /** One uninterrupted removal: exactly one Disconnected, and the session is retired and out of the map. */
  lemma RequestRemoveEffect(n: Net, sid: int)
    requires NetOK(n)
    ensures var n' := RequestRemove(n, sid);
            && NetQuiet(n, n')
            && (!Found(n, sid) ==> n' == n)
            && (Found(n, sid) ==>
                  && n'.lobby == n.lobby + [Disconnected(sid, n.sessions[sid].token)]
                  && n'.sessions == n.sessions[sid := n.sessions[sid].(retired := true, binding := UNBOUND)]
                  && n'.active == n.active - {sid} && n'.leaving == n.leaving)
  {
    if Found(n, sid) {
      RetireIsQuiet(n, sid);
      var n1 := Retire(n, sid);
      MoveIsQuiet(n1, sid);
      var n2 := Move(n1, sid);
      PublishIsQuiet(n2, sid);
      var n3 := Publish(n2, sid);
      PublishIsQuiet(n3, sid);
      NetQuietTransitive(n, n1, n2);
      NetQuietTransitive(n, n2, n3);
      NetQuietTransitive(n, n3, Drain(n3));
      assert sid !in n.leaving;
      assert n2.leaving - {sid} == n.leaving;
    }
  }
}
