/** What each lobby command does to slots, players and sessions, field by field, and when it does nothing. */
module CommandEffects {
  import opened RoomCommand
  import opened SessionSpec
  import opened MatchSpec
  import opened RoomSpec
  import opened Protocol
  import opened RoomInvariant
  import opened ServerInvariant
  import opened ServerSteps
  import opened MatchIsolation
  import opened GameRules
  import opened DuplicateSlots

  /** Slot `i` is the first one under `sid`. */
  predicate FirstSlot(r: Room, i: int, sid: int)
    requires RoomShaped(r)
  {
    0 <= i < PLAYERNUM && r.members[i].sid == sid && forall k | 0 <= k < i :: r.members[k].sid != sid
  }

  predicate NoSlot(r: Room, sid: int) {
    forall i | 0 <= i < |r.members| :: r.members[i].sid != sid
  }

  function Free(generation: nat): Member {
    Member(-1, false, 0, generation, Connected, 0)
  }

  /** The session table after these sids' sessions, as far as they are active, have lost their bindings. */
  ghost predicate Unbinds(n: Net, n': Net, sids: iset<int>) {
    && n' == n.(sessions := n'.sessions) && n'.sessions.Keys == n.sessions.Keys
    && forall s | s in n.sessions ::
         n'.sessions[s] == if s in n.active && s in sids then n.sessions[s].(binding := UNBOUND) else n.sessions[s]
  }

  // ---- resume ----

  /** Slot `i` of a running match is the first with this token, and it is not too late for it. */
  predicate OpenTo(r: Room, i: int, token: nat, now: int)
    requires RoomShaped(r)
  {
    && r.status == InGame && 1 <= i < PLAYERNUM && r.members[i].token == token
    && (forall j | 1 <= j < i :: r.members[j].token != token)
    && (r.members[i].connection == Reconnecting ==> now < r.members[i].deadline)
  }

  ghost predicate FirstOpen(w: World, r: int, i: int, token: nat)
    requires Shaped(w)
  {
    && IsValidRoom(r) && OpenTo(w.rooms[r], i, token, w.now)
    && forall q, j | 0 <= q < r :: !OpenTo(w.rooms[q], j, token, w.now)
  }

  /** The session is active, bound to no room, and nobody is removing it. */
  predicate MayResume(n: Net, sid: int) {
    sid in n.active && sid in n.sessions && n.sessions[sid].binding.room == -1 && !n.sessions[sid].retired
  }

  /** Somebody still connected under another sid is thrown out of the slot `m`, retired and announced. */
  ghost predicate Replaces(n: Net, n': Net, m: Member, sid: int) {
    var replaced := m.connection == Connected && m.sid != sid && m.sid in n.active;
    && n'.sessions.Keys == n.sessions.Keys
    && (forall s | s in n.sessions && s != sid && !(replaced && s == m.sid) :: n'.sessions[s] == n.sessions[s])
    && (replaced && m.sid in n.sessions ==>
          && n'.sessions[m.sid] == n.sessions[m.sid].(binding := UNBOUND, retired := true)
          && n'.active == n.active - {m.sid}
          && n'.lobby == n.lobby + [Disconnected(m.sid, n.sessions[m.sid].token)])
    && (!replaced ==> n' == n.(sessions := n'.sessions))
  }

  /** Slot `i` and player `i` of room `r` pass to session `sid`, which is bound to them; nothing else in any room changes. */
  ghost predicate Returns(w: World, w': World, r: int, i: int, sid: int, token: nat)
    requires Shaped(w) && Shaped(w') && IsValidRoom(r) && 0 <= i < PLAYERNUM && sid in w.net.sessions
  {
    var a, b := w.rooms[r], w'.rooms[r];
    var generation := a.members[i].generation + 1;
    && w'.rooms == w.rooms[r := b]
    && b == a.(members := a.members[i := Member(sid, a.members[i].ready, token, generation, Connected, 0)],
               game := a.game.(players := a.game.players[i := a.game.players[i].(sid := sid, idx := i)]))
    && Replaces(w.net, w'.net, a.members[i], sid)
    && w'.net.sessions[sid] == w.net.sessions[sid].(binding := GameBinding(r, MatchLease(generation, a.game.generation)),
                                                    token := token)
  }

  lemma ResumeRoomIff(c: Scene, sid: int, token: nat, now: int, i: int)
    requires RoomShaped(c.room) && OpenTo(c.room, i, token, now)
    ensures CanResume(c, sid, token, now) <==> MayResume(c.net, sid)
    ensures TokenIndex(c.room.members, token) == i
  {
  }

  lemma ResumeRoomNeeds(c: Scene, sid: int, token: nat, now: int)
    requires RoomShaped(c.room) && CanResume(c, sid, token, now)
    ensures MayResume(c.net, sid) && OpenTo(c.room, TokenIndex(c.room.members, token), token, now)
  {
  }

  lemma ResumeTakes(c: Scene, sid: int, token: nat, now: int, i: int)
    requires RoomShaped(c.room) && CanResume(c, sid, token, now) && i == TokenIndex(c.room.members, token)
    ensures var m := c.room.members[i];
            ResumeUser(c, sid, token, now).room ==
            c.room.(members := c.room.members[i := Member(sid, m.ready, token, m.generation + 1, Connected, 0)],
                    game := c.room.game.(players := c.room.game.players[i := c.room.game.players[i].(sid := sid, idx := i)]))
  {
  }

  lemma ResumeReplaces(c: Scene, sid: int, token: nat, now: int)
    requires NetOK(c.net) && RoomOK(c.room, now) && 0 <= c.room.number && RoomKnown(c.room, c.net)
    requires CanResume(c, sid, token, now) && token != 0
    ensures var m := c.room.members[TokenIndex(c.room.members, token)];
            var n' := ResumeUser(c, sid, token, now).net;
            && Replaces(c.net, n', m, sid)
            && n'.sessions[sid] == c.net.sessions[sid].(
                 binding := GameBinding(c.room.number, MatchLease(m.generation + 1, c.room.game.generation)), token := token)
  {
    var m := c.room.members[TokenIndex(c.room.members, token)];
    var n := Claimed(c, sid, token);
    assert SlotOK(m) && SlotKnown(m, c.net);
    ResumeSlots(c, sid, token, now);
    ClaimedEffect(c, sid, token);
    assert NetOK(n);
    if m.connection == Connected && m.sid != sid && Found(n, m.sid) {
      ReplacedNet(n, m.sid, ResumeUser(c, sid, token, now).net);
    }
  }

  lemma ResumesHere(w: World, sid: int, token: nat, r: int, i: int)
    requires WorldOK(w) && FirstOpen(w, r, i, token) && MayResume(w.net, sid)
    ensures ResumesIn(w, sid, token, 0) == r && CanResume(SceneAt(w, r), sid, token, w.now)
  {
    ResumeRoomIff(SceneAt(w, r), sid, token, w.now, i);
    ResumesAtFirst(w, sid, token, r, 0);
  }

  lemma {:induction false} ResumesAtFirst(w: World, sid: int, token: nat, r: int, from: nat)
    requires Shaped(w) && 0 <= from <= r < ROOM_CAPACITY && CanResume(SceneAt(w, r), sid, token, w.now)
    requires forall q, j | 0 <= q < r :: !OpenTo(w.rooms[q], j, token, w.now)
    ensures ResumesIn(w, sid, token, from) == r
    decreases r - from
  {
    if from < r {
      if CanResume(SceneAt(w, from), sid, token, w.now) { ResumeRoomNeeds(SceneAt(w, from), sid, token, w.now); }
      ResumesAtFirst(w, sid, token, r, from + 1);
    }
  }

  lemma ResumesInto(w: World, sid: int, token: nat, r: int, i: int)
    requires WorldOK(w) && token != 0 && FirstOpen(w, r, i, token) && MayResume(w.net, sid)
    ensures CanResume(SceneAt(w, r), sid, token, w.now)
    ensures ResumeSession(w, sid, token) == WithScene(w, r, ResumeUser(SceneAt(w, r), sid, token, w.now))
  {
    ResumesHere(w, sid, token, r, i);
    ResumeIs(w, sid, token, 0);
  }

  /** Whoever may resume, and names a slot's token before its deadline, gets that slot. */
  lemma ResumeSucceeds(w: World, sid: int, token: nat, r: int, i: int)
    requires WorldOK(w) && token != 0 && FirstOpen(w, r, i, token) && MayResume(w.net, sid)
    ensures Returns(w, ResumeSession(w, sid, token), r, i, sid, token)
  {
    ResumesInto(w, sid, token, r, i);
    var c := SceneAt(w, r);
    ResumeRoomIff(c, sid, token, w.now, i);
    ResumeTakes(c, sid, token, w.now, i);
    ResumeReplaces(c, sid, token, w.now);
  }

  /** Nobody else gets one, and then nothing changes. */
  lemma ResumeRefused(w: World, sid: int, token: nat)
    requires Shaped(w)
    requires !MayResume(w.net, sid) || forall q, j | 0 <= q < ROOM_CAPACITY :: !OpenTo(w.rooms[q], j, token, w.now)
    ensures ResumeSession(w, sid, token) == w
  {
    ResumeIs(w, sid, token, 0);
    var q := ResumesIn(w, sid, token, 0);
    if q >= 0 { ResumeRoomNeeds(SceneAt(w, q), sid, token, w.now); }
  }

  // ---- departures ----

  /** The employee in slot `i` leaves a running match, whose player `k` stays behind, still, hidden and down. */
  predicate LeavesMatch(a: Room, b: Room, i: int, k: int)
    requires RoomShaped(a) && 0 <= i < PLAYERNUM && 0 <= k < PLAYERNUM
  {
    b == a.(count := b.count, members := a.members[i := Free(a.members[i].generation + 1)],
            game := a.game.(players := a.game.players[k := a.game.players[k].(velocity := Direction(0.0, 0.0), hide := true,
                                                                              behavior := Crawl)]))
    && b.count + 1 == a.count
  }

  /** Somebody leaves a room in which no match is on; the last one to leave closes it. */
  predicate LeavesLobby(a: Room, b: Room, i: int)
    requires RoomShaped(a) && RoomShaped(b) && 0 <= i < PLAYERNUM
  {
    && b.game == a.game && b.number == a.number && b.count + 1 == a.count
    && (if b.count == 0 then b.status == Empty && Cleared(a, b)
        else b.status == NotFull && b.members == a.members[i := Free(a.members[i].generation + 1)])
  }

  /** All four slots are free, each under a new generation. */
  predicate Cleared(a: Room, b: Room)
    requires RoomShaped(a) && RoomShaped(b)
  {
    forall j | 0 <= j < PLAYERNUM :: b.members[j] == Free(b.members[j].generation)
                                     && b.members[j].generation > a.members[j].generation
  }

  /** The session in slot `i`, its first slot, leaves the room; `k` is the first player under its sid. */
  ghost predicate Departs(a: Room, b: Room, i: int, k: int)
    requires RoomShaped(a) && RoomShaped(b) && 0 <= i < PLAYERNUM && 0 <= k < PLAYERNUM
  {
    if a.status != InGame then LeavesLobby(a, b, i)
    else if i == 0 then Closed(a, b) && Cleared(a, b)
    else LeavesMatch(a, b, i, k)
  }

  lemma NobodyDeparts(c: Scene, sid: int)
    requires NoSlot(c.room, sid)
    ensures UserOut(c, sid) == c
  {
  }

  lemma DepartsFrom(c: Scene, sid: int, now: int, i: int, k: int)
    requires RoomOK(c.room, now) && sid != -1 && FirstSlot(c.room, i, sid)
    requires 0 <= k < PLAYERNUM && (c.room.status == InGame ==> FirstPlayer(c.room.game, k, sid))
    ensures RoomShaped(UserOut(c, sid).room) && Departs(c.room, UserOut(c, sid).room, i, k)
  {
    UserOutKeepsRoom(c, sid, now);
    OccupiedAfter(c.room.members, i, Vacated(c.room.members[i]));
    if c.room.status == InGame {
      PlayerLeftCoupled(c.room, i);
      UserOutTurn(c, sid, now);
      UserOutEndsIff(c, sid, now);
    } else {
      LeavingLobby(c, sid, now, i);
    }
  }

  lemma LeavingLobby(c: Scene, sid: int, now: int, i: int)
    requires RoomOK(c.room, now) && sid != -1 && FirstSlot(c.room, i, sid) && c.room.status != InGame
    ensures RoomShaped(UserOut(c, sid).room) && LeavesLobby(c.room, UserOut(c, sid).room, i)
  {
    OccupiedAfter(c.room.members, i, Vacated(c.room.members[i]));
  }

  lemma UserOutEndsIff(c: Scene, sid: int, now: int)
    requires RoomOK(c.room, now) && c.room.status == InGame && sid != -1
    ensures UserOut(c, sid).room.status != InGame <==> c.room.members[0].sid == sid
  {
    var i := IndexOf(c.room.members, sid);
    if i >= 0 { PlayerLeftCoupled(c.room, i); }
  }

  lemma {:induction false} ClearEachUnbinds(n: Net, sids: seq<int>)
    ensures Unbinds(n, ClearEach(n, sids), iset s | s in sids)
    decreases |sids|
  {
    if sids != [] {
      ClearEachUnbinds(ClearFound(n, sids[0]), sids[1..]);
      assert forall s :: s in sids <==> s == sids[0] || s in sids[1..];
    }
  }

  lemma UnbindsBoth(a: Net, b: Net, c: Net, x: iset<int>, y: iset<int>, z: iset<int>)
    requires Unbinds(a, b, x) && Unbinds(b, c, y) && forall s | s in a.active :: s in z <==> s in x || s in y
    ensures Unbinds(a, c, z)
  {
  }

  /** Whom a departure from slot `i` unbinds: the session that leaves, and with the boss everybody in the room. */
  ghost function Unseated(r: Room, i: int): iset<int>
    requires RoomShaped(r) && 0 <= i < PLAYERNUM
  {
    if r.status == InGame && i == 0 then iset s | !NoSlot(r, s) else iset{r.members[i].sid}
  }

  lemma DepartingUnbinds(c: Scene, sid: int, now: int, i: int)
    requires RoomOK(c.room, now) && sid != -1 && FirstSlot(c.room, i, sid) && -1 !in c.net.active
    ensures Unbinds(c.net, UserOut(c, sid).net, Unseated(c.room, i))
  {
    var c1 := Scene(Remove(c.room, i), ClearFound(c.net, sid));
    assert Unbinds(c.net, c1.net, iset{sid});
    if c.room.status == InGame {
      PlayerLeftCoupled(c.room, i);
      if i == 0 {
        BossUnbinds(c, sid);
        assert UserOut(c, sid).net == ClearEach(c1.net, Sids(c1.room.members));
      }
    }
  }

  lemma BossUnbinds(c: Scene, sid: int)
    requires RoomShaped(c.room) && FirstSlot(c.room, 0, sid) && -1 !in c.net.active
    ensures var sids := Sids(Remove(c.room, 0).members);
            Unbinds(c.net, ClearEach(ClearFound(c.net, sid), sids), iset s | !NoSlot(c.room, s))
  {
    var n1, sids := ClearFound(c.net, sid), Sids(Remove(c.room, 0).members);
    ClearEachUnbinds(n1, sids);
    forall s | s in c.net.active ensures !NoSlot(c.room, s) <==> s == sid || s in sids {
      forall j | 0 <= j < PLAYERNUM && c.room.members[j].sid == s ensures s == sid || s in sids {
        if j > 0 { assert sids[j] == s; }
      }
      if s in sids {
        var j :| 0 <= j < |sids| && sids[j] == s;
        assert c.room.members[j].sid == s;
      }
    }
    UnbindsBoth(c.net, n1, ClearEach(n1, sids), iset{sid}, iset s | s in sids, iset s | !NoSlot(c.room, s));
  }

  // ---- disconnection ----

  /** Slot `i` waits for its player for 30 seconds from now on, and player `k` stands still; nothing else changes. */
  predicate StartsWaiting(a: Room, b: Room, i: int, k: int, now: int)
    requires RoomShaped(a) && 0 <= i < PLAYERNUM && 0 <= k < PLAYERNUM
  {
    var m := a.members[i];
    b == a.(members := a.members[i := Member(m.sid, m.ready, m.token, m.generation + 1, Reconnecting, now + 30_000)],
            game := a.game.(players := a.game.players[k := a.game.players[k].(velocity := Direction(0.0, 0.0))]))
  }

  /** A disconnection makes an employee's slot wait only in a running match, and only for the player with its token. */
  predicate MayWait(a: Room, i: int, token: nat)
    requires RoomShaped(a) && 0 <= i < PLAYERNUM
  {
    a.status == InGame && i >= 1 && token != 0
  }

  /** What becomes of a room in which slot `i` is the first under the sid of a disconnected session. */
  ghost predicate Disconnects(a: Room, b: Room, i: int, k: int, token: nat, now: int)
    requires RoomShaped(a) && RoomShaped(b) && 0 <= i < PLAYERNUM && 0 <= k < PLAYERNUM
  {
    if !MayWait(a, i, token) then Departs(a, b, i, k)
    else if a.members[i].connection == Connected && a.members[i].token == token then StartsWaiting(a, b, i, k, now)
    else b == a
  }

  lemma DisconnectsRoom(c: Scene, sid: int, token: nat, now: int, i: int, k: int)
    requires RoomOK(c.room, now) && sid != -1 && FirstSlot(c.room, i, sid)
    requires 0 <= k < PLAYERNUM && (c.room.status == InGame ==> FirstPlayer(c.room.game, k, sid))
    ensures var b := TransportDisconnected(c, sid, token, now).room;
            RoomShaped(b) && Disconnects(c.room, b, i, k, token, now)
  {
    if !MayWait(c.room, i, token) { DepartsFrom(c, sid, now, i, k); }
  }

  lemma DisconnectSpares(c: Scene, sid: int, token: nat, now: int)
    requires NoSlot(c.room, sid)
    ensures TransportDisconnected(c, sid, token, now) == c
  {
  }

  // ---- arrivals ----

  /** The session is known, logged in, in no room, and nobody is removing it. */
  predicate MayEnter(n: Net, sid: int) {
    MayResume(n, sid) && n.sessions[sid].token != 0
  }

  /** Session `sid` takes slot `i` of a room, under its own token and a new generation, and is bound to it. */
  predicate Enters(c: Scene, c': Scene, i: int, sid: int)
    requires RoomShaped(c.room) && 0 <= i < PLAYERNUM && sid in c.net.sessions
  {
    var a, n := c.room, c.net;
    var generation := a.members[i].generation + 1;
    && c'.room == a.(status := if a.count + 1 == 4 then Full else NotFull, count := a.count + 1,
                     members := a.members[i := Member(sid, false, n.sessions[sid].token, generation, Connected, 0)])
    && c'.net == n.(sessions := n.sessions[sid := n.sessions[sid].(binding := GameBinding(a.number, MatchLease(generation, 0)))])
  }

  lemma EntersFirstFree(c: Scene, sid: int, i: int)
    requires RoomShaped(c.room) && c.room.status == NotFull && FirstSlot(c.room, i, -1) && MayEnter(c.net, sid)
    ensures CanEnter(c, sid) && Enters(c, UserIn(c, sid), i, sid)
  {
  }

  lemma SomeSlotIsFree(r: Room, now: int) returns (i: int)
    requires RoomOK(r, now) && r.count < PLAYERNUM
    ensures FirstSlot(r, i, -1)
  {
    i := IndexOf(r.members, -1);
  }

  /** An Enter succeeds iff the session may enter and the room is open and not full; it gets the first free slot. */
  lemma EnterIs(w: World, sid: int, r: int)
    requires WorldOK(w) && IsValidRoom(r)
    ensures if MayEnter(w.net, sid) && w.rooms[r].status == NotFull
            then exists i, c' :: FirstSlot(w.rooms[r], i, -1) && Enters(SceneAt(w, r), c', i, sid)
                                 && EnterRoom(w, sid, r) == WithScene(w, r, c')
            else EnterRoom(w, sid, r) == w
  {
    var c := SceneAt(w, r);
    assert RoomOK(w.rooms[r], w.now);
    if MayEnter(w.net, sid) && w.rooms[r].status == NotFull {
      var i := SomeSlotIsFree(w.rooms[r], w.now);
      EntersFirstFree(c, sid, i);
    } else {
      assert WithScene(w, r, c) == w;
    }
  }

  /** A Create succeeds iff the session may enter and some room is empty; it gets the first slot of the first such room. */
  lemma CreateSucceeds(w: World, sid: int, r: int)
    requires WorldOK(w) && IsValidRoom(r) && w.rooms[r].status == Empty && MayEnter(w.net, sid)
    requires forall q | 0 <= q < r :: w.rooms[q].status != Empty
    ensures exists c' :: Enters(SceneAt(w, r), c', 0, sid) && CreateRoom(w, sid) == WithScene(w, r, c')
  {
    var c := SceneAt(w, r).(room := Opened(w.rooms[r]));
    assert RoomOK(w.rooms[r], w.now);
    assert FirstSlot(w.rooms[r], 0, -1);
    EntersFirstFree(c, sid, 0);
    CreatesAtFirst(w, sid, r, 0);
    CreateIs(w, sid, 0);
    assert Enters(SceneAt(w, r), UserIn(c, sid), 0, sid);
  }

  lemma {:induction false} CreatesAtFirst(w: World, sid: int, r: int, from: nat)
    requires Shaped(w) && 0 <= from <= r < ROOM_CAPACITY && w.rooms[r].status == Empty
    requires CanEnter(SceneAt(w, r).(room := Opened(w.rooms[r])), sid)
    requires forall q | 0 <= q < r :: w.rooms[q].status != Empty
    ensures OpensRoom(w, sid, from) == r
    decreases r - from
  {
    if from < r { CreatesAtFirst(w, sid, r, from + 1); }
  }

  lemma CreateRefused(w: World, sid: int)
    requires Shaped(w) && (!MayEnter(w.net, sid) || forall q | 0 <= q < ROOM_CAPACITY :: w.rooms[q].status != Empty)
    ensures CreateRoom(w, sid) == w
  {
    CreateIs(w, sid, 0);
    if OpensRoom(w, sid, 0) >= 0 { OpensEmpty(w, sid, 0); }
  }

  lemma {:induction false} OpensEmpty(w: World, sid: int, r: nat)
    requires Shaped(w) && r <= ROOM_CAPACITY && OpensRoom(w, sid, r) >= 0
    ensures w.rooms[OpensRoom(w, sid, r)].status == Empty
    ensures CanEnter(SceneAt(w, OpensRoom(w, sid, r)).(room := Opened(w.rooms[OpensRoom(w, sid, r)])), sid)
    decreases ROOM_CAPACITY - r
  {
    if !(w.rooms[r].status == Empty && CanEnter(SceneAt(w, r).(room := Opened(w.rooms[r])), sid)) {
      OpensEmpty(w, sid, r + 1);
    }
  }

  // ---- readiness ----

  /** Slot `i` is the first in which `sid` is Connected. */
  predicate FirstLive(r: Room, i: int, sid: int)
    requires RoomShaped(r)
  {
    && 0 <= i < PLAYERNUM && r.members[i].sid == sid && r.members[i].connection == Connected
    && forall k | 0 <= k < i :: r.members[k].sid != sid || r.members[k].connection != Connected
  }

  /** Everybody's readiness is spent on the match that starts. */
  predicate Spent(a: Room, b: Room)
    requires RoomShaped(a) && RoomShaped(b)
  {
    forall j | 0 <= j < PLAYERNUM :: b.members[j] == a.members[j].(ready := false)
  }

  /** SetReady sets the flag; if all four are set then, the match begins and binds its players' sessions. */
  ghost predicate Readies(c: Scene, c': Scene, i: int, ready: bool)
    requires RoomShaped(c.room) && RoomShaped(c'.room) && 0 <= i < PLAYERNUM
  {
    var a, b := c.room, c'.room;
    if ready && forall j | 0 <= j < PLAYERNUM :: j == i || a.members[j].ready then
      b.status == InGame && Begun(a, b) && Spent(a, b) && JoinsMatch(c.net, c'.net, a)
    else
      c' == c.(room := a.(members := a.members[i := a.members[i].(ready := ready)]))
  }

  /** The sessions in the room, if still bound somewhere, are bound to the match that starts. */
  ghost predicate JoinsMatch(n: Net, n': Net, a: Room) {
    && n' == n.(sessions := n'.sessions) && n'.sessions.Keys == n.sessions.Keys
    && forall s | s in n.sessions ::
         n'.sessions[s] ==
         if NoSlot(a, s) || s !in n.active || n.sessions[s].binding.room == -1 then n.sessions[s]
         else n.sessions[s].(binding := n.sessions[s].binding.(
                               lease := n.sessions[s].binding.lease.(matchGeneration := a.game.generation + 1)))
  }

  lemma StartJoins(c: Scene)
    requires RoomShaped(c.room) && NetOK(c.net)
    ensures JoinsMatch(c.net, BindMatchEach(c.net, Sids(c.room.members), c.room.game.generation + 1), c.room)
  {
    var sids := Sids(c.room.members);
    var n' := BindMatchEach(c.net, sids, c.room.game.generation + 1);
    BindMatchEachEffect(c.net, sids, c.room.game.generation + 1);
    forall s ensures NoSlot(c.room, s) <==> s !in sids {
      forall j | 0 <= j < |c.room.members| && c.room.members[j].sid == s ensures s in sids { assert sids[j] == s; }
    }
  }

  lemma Flagged(r: Room, sid: int, ready: bool, i: int)
    requires RoomShaped(r) && FirstLive(r, i, sid) && (r.status == Full || r.status == NotFull)
    ensures CanSetReady(r, sid) && SetReadyFlag(r, sid, ready) == r.(members := r.members[i := r.members[i].(ready := ready)])
  {
  }

  /** Four flags set start the match. */
  lemma Starts(c: Scene, now: int)
    requires RoomOK(c.room, now) && NetOK(c.net) && (c.room.status == Full || c.room.status == NotFull)
    requires AllReady(c.room.members)
    ensures var c' := InitGame(c);
            && RoomShaped(c'.room) && c'.room.status == InGame && Begun(c.room, c'.room) && Spent(c.room, c'.room)
            && JoinsMatch(c.net, c'.net, c.room)
  {
    InitGameTurn(c, now);
    StartJoins(c);
  }

  /** What starts with the flag `i` set started without it, too: only that flag differs. */
  lemma StartsAlike(a: Room, a1: Room, n: Net, c': Scene, i: int)
    requires RoomShaped(a) && RoomShaped(a1) && RoomShaped(c'.room) && 0 <= i < PLAYERNUM
    requires a1 == a.(members := a.members[i := a.members[i].(ready := true)])
    requires Begun(a1, c'.room) && Spent(a1, c'.room) && JoinsMatch(n, c'.net, a1)
    ensures Begun(a, c'.room) && Spent(a, c'.room) && JoinsMatch(n, c'.net, a)
  {
    assert forall j | 0 <= j < PLAYERNUM :: a1.members[j].sid == a.members[j].sid;
    forall s ensures NoSlot(a, s) <==> NoSlot(a1, s) {}
    forall j | 0 <= j < PLAYERNUM ensures Filled(a.members[j]) && c'.room.members[j].sid == a.members[j].sid {
      assert Filled(a1.members[j]);
    }
    forall j | 0 <= j < PLAYERNUM ensures c'.room.game.players[j].sid == a.members[j].sid {
      assert c'.room.game.players[j].sid == a1.members[j].sid;
    }
  }

  lemma ReadiesRoom(c: Scene, sid: int, ready: bool, now: int, i: int)
    requires RoomOK(c.room, now) && NetOK(c.net) && sid != -1 && FirstLive(c.room, i, sid)
    requires c.room.status == Full || c.room.status == NotFull
    ensures CanSetReady(c.room, sid)
    ensures var c1 := c.(room := SetReadyFlag(c.room, sid, ready));
            var c' := if ready then InitGame(c1) else c1;
            RoomShaped(c'.room) && Readies(c, c', i, ready)
  {
    SetReadyKeepsRoom(c, sid, ready, now);
    Flagged(c.room, sid, ready, i);
    var c1 := c.(room := SetReadyFlag(c.room, sid, ready));
    if ready && AllReady(c1.room.members) {
      Starts(c1, now);
      StartsAlike(c.room, c1.room, c.net, InitGame(c1), i);
    } else if ready {
      var k :| 0 <= k < PLAYERNUM && !c1.room.members[k].ready;
      assert !c.room.members[k].ready && k != i;
    }
  }

  /** A SetReady by a session in a room that is not in game does just that. */
  lemma SetReadySucceeds(w: World, sid: int, ready: bool, r: int, i: int)
    requires WorldOK(w) && IsValidRoom(r) && Found(w.net, sid) && w.net.sessions[sid].binding.room == r
    requires w.rooms[r].status != InGame && FirstLive(w.rooms[r], i, sid)
    ensures exists c': Scene :: RoomShaped(c'.room) && Readies(SceneAt(w, r), c', i, ready)
                         && SetReadyCommand(w, sid, ready) == WithScene(w, r, c')
  {
    assert RoomOK(w.rooms[r], w.now);
    SlotOfMine(w.rooms[r], w.now, sid, i);
    ReadiesRoom(SceneAt(w, r), sid, ready, w.now, i);
  }

  lemma SlotOfMine(r: Room, now: int, sid: int, i: int)
    requires RoomOK(r, now) && FirstLive(r, i, sid) && r.status != InGame && sid != -1
    ensures r.status == Full || r.status == NotFull
  {
    OccupiedAfter(r.members, i, r.members[i]);
  }

  /** Any other changes nothing. */
  lemma SetReadyRefused(w: World, sid: int, ready: bool)
    requires WorldOK(w)
    requires !Found(w.net, sid) || w.net.sessions[sid].binding.room == -1
             || (IsValidRoom(w.net.sessions[sid].binding.room) && w.rooms[w.net.sessions[sid].binding.room].status == InGame)
    ensures SetReadyCommand(w, sid, ready) == w
  {
  }

  // ---- as commands ----

  lemma ResumeCommand(w: World, sid: int, token: nat, r: int, i: int, sendFails: bool)
    requires WorldOK(w) && token != 0 && FirstOpen(w, r, i, token) && MayResume(w.net, sid)
    ensures Returns(w, ExecuteLobby(w, Resume(sid, token), sendFails), r, i, sid, token)
  {
    ResumeSucceeds(w, sid, token, r, i);
    assert ExecuteLobby(w, Resume(sid, token), sendFails) == ResumeSession(w, sid, token);
  }

  lemma DisconnectCommand(w: World, sid: int, token: nat, r: int, i: int, k: int, sendFails: bool)
    requires WorldOK(w) && IsValidRoom(r) && sid in w.net.sessions && FirstSlot(w.rooms[r], i, sid)
    requires 0 <= k < PLAYERNUM && (w.rooms[r].status == InGame ==> FirstPlayer(w.rooms[r].game, k, sid))
    ensures Disconnects(w.rooms[r], ExecuteLobby(w, Disconnected(sid, token), sendFails).rooms[r], i, k, token, w.now)
  {
    DisconnectRooms(w, sid, token, ROOM_CAPACITY, r);
    DisconnectsRoom(SceneAt(w, r), sid, token, w.now, i, k);
  }

  lemma ExitCommand(w: World, sid: int, r: int, i: int, k: int, sendFails: bool)
    requires WorldOK(w) && IsValidRoom(r) && sid in w.net.sessions && FirstSlot(w.rooms[r], i, sid)
    requires 0 <= k < PLAYERNUM && (w.rooms[r].status == InGame ==> FirstPlayer(w.rooms[r].game, k, sid))
    ensures var w' := ExecuteLobby(w, Exit(sid, r), sendFails);
            && w'.rooms == w.rooms[r := w'.rooms[r]] && Departs(w.rooms[r], w'.rooms[r], i, k)
            && Unbinds(w.net, w'.net, Unseated(w.rooms[r], i))
  {
    DepartsFrom(SceneAt(w, r), sid, w.now, i, k);
    DepartingUnbinds(SceneAt(w, r), sid, w.now, i);
    assert ExecuteLobby(w, Exit(sid, r), sendFails) == WithScene(w, r, UserOut(SceneAt(w, r), sid));
  }
}
