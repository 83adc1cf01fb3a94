/** Every step of every thread keeps the server invariant; so does every run. */
module ServerSteps {
  import opened RoomCommand
  import opened SessionSpec
  import opened MatchSpec
  import opened RoomSpec
  import opened Protocol
  import opened RoomInvariant
  import opened ServerInvariant

  /** What one step must establish. */
  ghost predicate Good(w: World, w': World) {
    WorldOK(w') && Follows(w, w')
  }

  lemma SucceedsRefl(r: Room)
    requires RoomShaped(r)
    ensures Succeeds(r, r)
  {
  }

  /** Changing one room lawfully moves the world on. */
  lemma OneRoomFollows(w: World, w': World, r: int)
    requires WorldOK(w) && 0 <= r < ROOM_CAPACITY && |w'.rooms| == ROOM_CAPACITY && w'.now >= w.now
    requires w'.rooms == w.rooms[r := w'.rooms[r]] && Succeeds(w.rooms[r], w'.rooms[r])
    ensures Follows(w, w')
  {
    forall q | 0 <= q < ROOM_CAPACITY ensures RoomShaped(w'.rooms[q]) && Succeeds(w.rooms[q], w'.rooms[q]) {
      if q != r { SucceedsRefl(w.rooms[q]); }
    }
  }

  lemma QuietStep(w: World, w': World)
    requires WorldOK(w) && NetQuiet(w.net, w'.net)
    requires w'.rooms == w.rooms && w'.now == w.now && w'.batch == w.batch
    requires w'.game == w.game && w'.gameBatch == w.gameBatch
    ensures Good(w, w')
  {
    NetQuietKeepsWorld(w, w');
    OneRoomFollows(w, w', 0);
  }

  /** A room operation that only empties slots. */
  lemma LooseStep(w: World, r: int, c': Scene)
    requires WorldOK(w) && 0 <= r < ROOM_CAPACITY
    requires Loosened(SceneAt(w, r), c') && RoomOK(c'.room, w.now) && Succeeds(w.rooms[r], c'.room)
    ensures Good(w, WithScene(w, r, c'))
  {
    LoosenedKeepsWorld(w, r, c');
    OneRoomFollows(w, WithScene(w, r, c'), r);
  }

  /** A room operation that leaves occupants, connections, generations and the session table alone. */
  lemma StillStep(w: World, r: int, room: Room)
    requires WorldOK(w) && 0 <= r < ROOM_CAPACITY
    requires RoomOK(room, w.now) && Succeeds(w.rooms[r], room)
    requires forall i | 0 <= i < PLAYERNUM :: room.members[i] == w.rooms[r].members[i].(ready := room.members[i].ready)
    ensures Good(w, WithScene(w, r, Scene(room, w.net)))
  {
    var w' := WithScene(w, r, Scene(room, w.net));
    OneRoomFollows(w, w', r);
    forall i | 0 <= i < PLAYERNUM ensures SlotKnown(room.members[i], w.net) {
      assert RoomKnown(w.rooms[r], w.net);
      assert SlotKnown(w.rooms[r].members[i], w.net);
    }
    forall s | s in w.net.sessions && w.net.sessions[s].binding.room != -1
      ensures Seated(w'.rooms, s, w.net.sessions[s].binding)
    {
      var b := w.net.sessions[s].binding;
      assert Seated(w.rooms, s, b);
      if b.room == r {
        var i :| 0 <= i < PLAYERNUM && w.rooms[r].members[i].sid == s
                 && w.rooms[r].members[i].connection == Connected
                 && w.rooms[r].members[i].generation == b.lease.memberGeneration;
        assert w'.rooms[r].members[i].sid == s;
      }
    }
  }

  lemma ExitStep(w: World, sid: int, room: int)
    requires WorldOK(w) && sid in w.net.sessions
    ensures Good(w, ExitRoom(w, sid, room))
  {
    if IsValidRoom(room) {
      UserOutLoosens(SceneAt(w, room), sid);
      UserOutKeepsRoom(SceneAt(w, room), sid, w.now);
      LooseStep(w, room, UserOut(SceneAt(w, room), sid));
    } else {
      OneRoomFollows(w, w, 0);
    }
  }

  lemma UpdateRoomStep(w: World, r: int, g: Geometry)
    requires WorldOK(w) && IsValidRoom(r)
    ensures Good(w, UpdateRoom(w, r, g))
  {
    UpdateLoosens(SceneAt(w, r), w.now, g);
    UpdateKeepsRoom(SceneAt(w, r), w.now, g);
    LooseStep(w, r, Update(SceneAt(w, r), w.now, g));
  }

  /** A slot whose session is gone starts waiting for a resume. */
  lemma DropStep(w: World, r: int, i: int, c': Scene)
    requires WorldOK(w) && IsValidRoom(r) && 0 <= i < PLAYERNUM
    requires Filled(w.rooms[r].members[i]) && w.rooms[r].members[i].sid !in w.net.active
    requires c'.net == w.net && RoomOK(c'.room, w.now) && Succeeds(w.rooms[r], c'.room)
    requires c'.room.members == w.rooms[r].members[i := Dropped(w.rooms[r].members[i], w.now)]
    ensures Good(w, WithScene(w, r, c'))
  {
    var w' := WithScene(w, r, c');
    OneRoomFollows(w, w', r);
    DropStaysKnown(w, r, i, c'.room);
    forall s | s in w.net.sessions && w.net.sessions[s].binding.room != -1
      ensures Seated(w'.rooms, s, w.net.sessions[s].binding)
    {
      DroppedWasNotBound(w, r, i, c'.room.members, s);
    }
  }

  lemma DropStaysKnown(w: World, r: int, i: int, room: Room)
    requires WorldOK(w) && IsValidRoom(r) && 0 <= i < PLAYERNUM && w.rooms[r].members[i].sid !in w.net.active
    requires room.members == w.rooms[r].members[i := Dropped(w.rooms[r].members[i], w.now)]
    ensures RoomKnown(room, w.net)
  {
    assert RoomKnown(w.rooms[r], w.net);
    forall k | 0 <= k < PLAYERNUM ensures SlotKnown(room.members[k], w.net) {
      assert SlotKnown(w.rooms[r].members[k], w.net);
    }
  }

  lemma DroppedWasNotBound(w: World, r: int, i: int, ms: seq<Member>, s: int)
    requires WorldOK(w) && IsValidRoom(r) && 0 <= i < PLAYERNUM && w.rooms[r].members[i].sid !in w.net.active
    requires |ms| == PLAYERNUM && ms == w.rooms[r].members[i := ms[i]]
    requires s in w.net.sessions && w.net.sessions[s].binding.room != -1
    ensures Seated(w.rooms[r := w.rooms[r].(members := ms)], s, w.net.sessions[s].binding)
  {
    var b := w.net.sessions[s].binding;
    assert Seated(w.rooms, s, b);
    if b.room == r {
      var k :| 0 <= k < PLAYERNUM && w.rooms[r].members[k].sid == s
               && w.rooms[r].members[k].connection == Connected
               && w.rooms[r].members[k].generation == b.lease.memberGeneration;
      assert k != i && ms[k] == w.rooms[r].members[k];
    }
  }

  /** A gone session's slot either leaves or waits, Reconnecting. */
  lemma DisconnectRoomStep(w: World, r: int, sid: int, token: nat)
    requires WorldOK(w) && IsValidRoom(r) && sid in w.net.sessions && sid !in w.net.active
    ensures var c' := TransportDisconnected(SceneAt(w, r), sid, token, w.now);
            Good(w, WithScene(w, r, c')) && NetLoosened(w.net, c'.net)
  {
    var c := SceneAt(w, r);
    var c' := TransportDisconnected(c, sid, token, w.now);
    DisconnectKeepsRoom(c, sid, token, w.now);
    assert RoomKnown(c.room, w.net);
    var i := IndexOf(c.room.members, sid);
    if i < 0 || c.room.status != InGame || i == 0 || token == 0 {
      UserOutLoosens(c, sid);
      assert c' == UserOut(c, sid);
      LooseStep(w, r, c');
    } else if c' == c {
      StillStep(w, r, c.room);
    } else {
      assert SlotKnown(c.room.members[i], w.net);
      DropStep(w, r, i, c');
    }
  }

  lemma {:induction false} DisconnectStep(w: World, sid: int, token: nat, upTo: nat)
    requires WorldOK(w) && upTo <= ROOM_CAPACITY
    requires sid in w.net.sessions && sid !in w.net.active
    ensures Good(w, DisconnectUpTo(w, sid, token, upTo))
    ensures NetLoosened(w.net, DisconnectUpTo(w, sid, token, upTo).net)
    decreases upTo
  {
    if upTo == 0 {
      OneRoomFollows(w, w, 0);
    } else {
      var w1 := DisconnectUpTo(w, sid, token, upTo - 1);
      DisconnectStep(w, sid, token, upTo - 1);
      assert Loose(w.net.sessions[sid], w1.net.sessions[sid]);
      DisconnectRoomStep(w1, upTo - 1, sid, token);
      var w' := DisconnectUpTo(w, sid, token, upTo);
      FollowsTransitive(w, w1, w');
      NetLoosenedTransitive(w.net, w1.net, w'.net);
    }
  }

  /** The next room of DisconnectSession depends only on that room. */
  lemma {:induction false} DisconnectRooms(w: World, sid: int, token: nat, upTo: nat, r: int)
    requires Shaped(w) && upTo <= ROOM_CAPACITY && IsValidRoom(r)
    ensures DisconnectUpTo(w, sid, token, upTo).rooms[r] ==
            (if r < upTo then TransportDisconnected(SceneAt(w, r), sid, token, w.now).room else w.rooms[r])
    ensures DisconnectUpTo(w, sid, token, upTo).now == w.now
    decreases upTo
  {
    if upTo != 0 {
      DisconnectRooms(w, sid, token, upTo - 1, r);
      var w1 := DisconnectUpTo(w, sid, token, upTo - 1);
      DisconnectIgnoresNet(SceneAt(w, r), w1.net, sid, token, w.now);
    }
  }

  /** What a disconnect does to a room does not depend on the session table. */
  lemma DisconnectIgnoresNet(c: Scene, n: Net, sid: int, token: nat, now: int)
    ensures TransportDisconnected(Scene(c.room, n), sid, token, now).room == TransportDisconnected(c, sid, token, now).room
  {
  }

  /** A session takes one slot and is bound to it; everybody else keeps theirs. */
  ghost predicate SlotTaken(w: World, w': World, r: int, i: int, sid: int) {
    && IsValidRoom(r) && 0 <= i < PLAYERNUM
    && Shaped(w) && Shaped(w')
    && w' == w.(rooms := w.rooms[r := w'.rooms[r]], net := w'.net)
    && w'.rooms[r].members == w.rooms[r].members[i := w'.rooms[r].members[i]]
    && var m := w'.rooms[r].members[i];
    && m.sid == sid && m.connection == Connected && m.token != 0
    && m.generation == w.rooms[r].members[i].generation + 1
    && sid in w'.net.sessions && w'.net.sessions[sid].binding.room == r
    && w'.net.sessions[sid].binding.lease.memberGeneration == m.generation
    && !w'.net.sessions[sid].retired
    && (forall s | s in w'.net.sessions && s != sid ::
          s in w.net.sessions && (w'.net.sessions[s].binding == w.net.sessions[s].binding
                                  || w'.net.sessions[s].binding == UNBOUND))
    && (Filled(w.rooms[r].members[i]) && w.rooms[r].members[i].sid != sid
        && w.rooms[r].members[i].sid in w'.net.sessions ==>
          w'.net.sessions[w.rooms[r].members[i].sid].binding == UNBOUND)
  }

  lemma SlotTakenKeepsWorld(w: World, w': World, r: int, i: int, sid: int)
    requires WorldOK(w) && SlotTaken(w, w', r, i, sid)
    requires RoomOK(w'.rooms[r], w.now) && w'.rooms[r].number == r
    requires NetOK(w'.net)
    requires w.net.sessions.Keys <= w'.net.sessions.Keys
    requires forall s | s in w.net.sessions && s in w'.net.active :: s in w.net.active
    requires CommandsOK(w')
    ensures WorldOK(w')
  {
    forall q | 0 <= q < ROOM_CAPACITY ensures RoomKnown(w'.rooms[q], w'.net) {
      assert RoomKnown(w.rooms[q], w.net);
      forall k | 0 <= k < |w'.rooms[q].members| ensures SlotKnown(w'.rooms[q].members[k], w'.net) {
        assert SlotKnown(w.rooms[q].members[k], w.net);
      }
    }
    forall s | s in w'.net.sessions && w'.net.sessions[s].binding.room != -1
      ensures Seated(w'.rooms, s, w'.net.sessions[s].binding)
    {
      var b := w'.net.sessions[s].binding;
      if s == sid {
        assert w'.rooms[r].members[i].sid == s;
      } else {
        assert Seated(w.rooms, s, b);
        if b.room == r {
          var k :| 0 <= k < PLAYERNUM && w.rooms[r].members[k].sid == s
                   && w.rooms[r].members[k].connection == Connected
                   && w.rooms[r].members[k].generation == b.lease.memberGeneration;
          assert k != i;
          assert w'.rooms[r].members[k].sid == s;
        }
      }
    }
  }

  lemma UserInStep(w: World, r: int, c: Scene, sid: int)
    requires WorldOK(w) && IsValidRoom(r) && sid in w.net.sessions && Unbound(w.net, sid)
    requires c.net == w.net && (c.room == w.rooms[r] || (c.room == Opened(w.rooms[r]) && w.rooms[r].status == Empty))
    requires CanEnter(c, sid)
    ensures Good(w, WithScene(w, r, UserIn(c, sid)))
    ensures SlotTaken(w, WithScene(w, r, UserIn(c, sid)), r, FreeIndex(c.room.members), sid)
  {
    var w' := WithScene(w, r, UserIn(c, sid));
    UserInKeepsRoom(c, sid, w.now);
    OneRoomFollows(w, w', r);
    forall x: LobbyCommand | CommandKnown(x, w.net) ensures CommandKnown(x, w'.net) {}
    SlotTakenKeepsWorld(w, w', r, FreeIndex(c.room.members), sid);
  }

  lemma {:induction false} CreateStep(w: World, sid: int, from: nat)
    requires WorldOK(w) && sid in w.net.sessions && Unbound(w.net, sid) && from <= ROOM_CAPACITY
    ensures Good(w, CreateFrom(w, sid, from))
    ensures var w' := CreateFrom(w, sid, from);
            w' == w || (exists r :: IsValidRoom(r) && w.rooms[r].status == Empty
                          && CanEnter(SceneAt(w, r).(room := Opened(w.rooms[r])), sid)
                          && w' == WithScene(w, r, UserIn(SceneAt(w, r).(room := Opened(w.rooms[r])), sid)))
    decreases ROOM_CAPACITY - from
  {
    if from == ROOM_CAPACITY {
      OneRoomFollows(w, w, 0);
    } else {
      var c := SceneAt(w, from).(room := Opened(w.rooms[from]));
      if w.rooms[from].status == Empty && CanEnter(c, sid) {
        UserInStep(w, from, c, sid);
      } else {
        CreateStep(w, sid, from + 1);
      }
    }
  }

  /** The table once the resuming session is bound, before the session it replaces is removed. */
  function Claimed(c: Scene, sid: int, token: nat): Net
    requires sid in c.net.sessions && |c.room.members| >= 1 && TokenIndex(c.room.members, token) >= 0
  {
    var m := c.room.members[TokenIndex(c.room.members, token)];
    SetToken(Bound(c.net, sid, GameBinding(c.room.number, MatchLease(m.generation + 1, c.room.game.generation))),
             sid, token)
  }

  lemma ReplacedNet(n: Net, was: int, n': Net)
    requires NetOK(n) && Found(n, was) && n' == RequestRemove(ClearFound(n, was), was)
    ensures NetQuiet(n, n') && n'.sessions.Keys == n.sessions.Keys
    ensures forall s | s in n.sessions && s != was :: n'.sessions[s] == n.sessions[s]
    ensures n'.sessions[was] == n.sessions[was].(binding := UNBOUND, retired := true)
    ensures n'.active == n.active - {was} && n'.leaving == n.leaving
    ensures n'.lobby == n.lobby + [Disconnected(was, n.sessions[was].token)]
  {
    var n1 := ClearFound(n, was);
    RetireIsQuiet(n, was);
    RequestRemoveEffect(n1, was);
    NetQuietTransitive(n, n1, n');
  }

  /** Whoever held the slot is retired and unbound afterwards; nobody else is touched. */
  lemma ResumeNet(c: Scene, sid: int, token: nat, now: int)
    requires NetOK(c.net) && RoomOK(c.room, now) && 0 <= c.room.number && RoomKnown(c.room, c.net)
    requires CanResume(c, sid, token, now) && token != 0
    ensures var n := Claimed(c, sid, token);
            var n' := ResumeUser(c, sid, token, now).net;
            var m := c.room.members[TokenIndex(c.room.members, token)];
            && Filled(m) && NetOK(n) && NetQuiet(n, n')
            && n'.sessions.Keys == n.sessions.Keys
            && (forall s | s in n.sessions && (s != m.sid || s == sid) :: n'.sessions[s] == n.sessions[s])
            && (m.sid != sid ==> n'.sessions[m.sid] == n.sessions[m.sid].(binding := UNBOUND, retired := true)
                                 && m.sid !in n'.active)
  {
    var n := Claimed(c, sid, token);
    var m := c.room.members[TokenIndex(c.room.members, token)];
    assert SlotOK(m) && SlotKnown(m, c.net);
    assert NetOK(n);
    var n' := ResumeUser(c, sid, token, now).net;
    if m.connection == Connected && m.sid != sid && Found(n, m.sid) {
      ReplacedNet(n, m.sid, n');
    } else {
      assert n' == n;
    }
  }

  /** What a resume does to the slots, without its definition. */
  lemma ResumeSlots(c: Scene, sid: int, token: nat, now: int)
    requires CanResume(c, sid, token, now) && |c.room.game.players| == |c.room.members|
    ensures var i := TokenIndex(c.room.members, token);
            ResumeUser(c, sid, token, now).room.members == c.room.members[i := Taken(c.room.members[i], sid)]
    ensures var m := c.room.members[TokenIndex(c.room.members, token)];
            var n := Claimed(c, sid, token);
            ResumeUser(c, sid, token, now).net ==
            if m.connection == Connected && m.sid != sid && Found(n, m.sid)
            then RequestRemove(ClearFound(n, m.sid), m.sid) else n
  {
  }

  lemma ClaimedEffect(c: Scene, sid: int, token: nat)
    requires sid in c.net.sessions && |c.room.members| >= 1 && TokenIndex(c.room.members, token) >= 0
    ensures var n := Claimed(c, sid, token);
            && n == c.net.(sessions := n.sessions) && n.sessions.Keys == c.net.sessions.Keys
            && (forall s | s in c.net.sessions && s != sid :: n.sessions[s] == c.net.sessions[s])
            && n.sessions[sid].token == token
  {
  }

  lemma ResumeTakesSlot(w: World, w': World, r: int, sid: int, token: nat)
    requires WorldOK(w) && IsValidRoom(r) && sid in w.net.sessions && token != 0
    requires CanResume(SceneAt(w, r), sid, token, w.now)
    requires w' == WithScene(w, r, ResumeUser(SceneAt(w, r), sid, token, w.now))
    ensures NetOK(w'.net) && CommandsOK(w') && SlotTaken(w, w', r, TokenIndex(w.rooms[r].members, token), sid)
  {
    var c := SceneAt(w, r);
    ResumeNet(c, sid, token, w.now);
    ResumeCommands(w, w', Claimed(c, sid, token));
  }

  lemma ResumeRoomStep(w: World, r: int, sid: int, token: nat)
    requires WorldOK(w) && IsValidRoom(r) && sid in w.net.sessions && token != 0
    requires CanResume(SceneAt(w, r), sid, token, w.now)
    ensures var w' := WithScene(w, r, ResumeUser(SceneAt(w, r), sid, token, w.now));
            Good(w, w') && SlotTaken(w, w', r, TokenIndex(w.rooms[r].members, token), sid)
  {
    var w' := WithScene(w, r, ResumeUser(SceneAt(w, r), sid, token, w.now));
    ResumeKeepsRoom(SceneAt(w, r), sid, token, w.now);
    OneRoomFollows(w, w', r);
    ResumeTakesSlot(w, w', r, sid, token);
    SlotTakenKeepsWorld(w, w', r, TokenIndex(w.rooms[r].members, token), sid);
  }

  lemma ResumeCommands(w: World, w': World, n: Net)
    requires CommandsOK(w) && NetQuiet(n, w'.net) && n == w.net.(sessions := n.sessions)
    requires n.sessions.Keys == w.net.sessions.Keys
    requires forall s | s in n.sessions :: n.sessions[s].retired == w.net.sessions[s].retired
    requires w'.batch == w.batch && w'.game == w.game && w'.gameBatch == w.gameBatch
    ensures CommandsOK(w')
  {
    forall x: LobbyCommand | CommandKnown(x, w.net) ensures CommandKnown(x, w'.net) {
      assert CommandKnown(x, n);
    }
    forall k | 0 <= k < |w'.net.lobby| ensures CommandKnown(w'.net.lobby[k], w'.net) {
      if k < |n.lobby| { assert w'.net.lobby[k] == w.net.lobby[k]; }
    }
  }

  lemma {:induction false} ResumeStep(w: World, sid: int, token: nat, from: nat)
    requires WorldOK(w) && sid in w.net.sessions && token != 0 && from <= ROOM_CAPACITY
    ensures Good(w, ResumeFrom(w, sid, token, from))
    ensures ResumeFrom(w, sid, token, from) == w
            || exists r :: IsValidRoom(r) && CanResume(SceneAt(w, r), sid, token, w.now)
                 && ResumeFrom(w, sid, token, from) == WithScene(w, r, ResumeUser(SceneAt(w, r), sid, token, w.now))
    decreases ROOM_CAPACITY - from
  {
    if from == ROOM_CAPACITY {
      OneRoomFollows(w, w, 0);
    } else if CanResume(SceneAt(w, from), sid, token, w.now) {
      ResumeRoomStep(w, from, sid, token);
    } else {
      ResumeStep(w, sid, token, from + 1);
    }
  }

  /** Binding sessions to a match leaves room and slot generation alone. */
  ghost predicate OnlyMatchBound(n: Net, n': Net) {
    && n' == n.(sessions := n'.sessions) && n'.sessions.Keys == n.sessions.Keys
    && forall s | s in n.sessions ::
         && n'.sessions[s] == n.sessions[s].(binding := n'.sessions[s].binding)
         && n'.sessions[s].binding.room == n.sessions[s].binding.room
         && n'.sessions[s].binding.lease.memberGeneration == n.sessions[s].binding.lease.memberGeneration
         && (n.sessions[s].binding.room == -1 ==> n'.sessions[s] == n.sessions[s])
  }

  lemma {:induction false} BindMatchEachEffect(n: Net, sids: seq<int>, generation: nat)
    ensures var n' := BindMatchEach(n, sids, generation);
            && OnlyMatchBound(n, n')
            && (forall s | s in n.sessions ::
                  n'.sessions[s].binding.lease.matchGeneration ==
                  if s in sids && Found(n, s) && !n.sessions[s].retired && n.sessions[s].binding.room != -1
                  then generation else n.sessions[s].binding.lease.matchGeneration)
    decreases |sids|
  {
    if sids != [] {
      BindMatchEachEffect(BindMatchFound(n, sids[0], generation), sids[1..], generation);
      assert forall s :: s in sids <==> s == sids[0] || s in sids[1..];
    }
  }

  lemma InitGameStep(w: World, r: int)
    requires WorldOK(w) && IsValidRoom(r) && (w.rooms[r].status == Full || w.rooms[r].status == NotFull)
    ensures Good(w, WithScene(w, r, InitGame(SceneAt(w, r))))
  {
    InitGameKeepsRoom(SceneAt(w, r), w.now);
    InitGameMembers(SceneAt(w, r));
    InitGameBinds(SceneAt(w, r));
    StartStep(w, r, InitGame(SceneAt(w, r)));
  }

  lemma InitGameMembers(c: Scene)
    requires RoomShaped(c.room)
    ensures var ms := InitGame(c).room.members;
            |ms| == PLAYERNUM && forall i | 0 <= i < PLAYERNUM :: ms[i] == c.room.members[i].(ready := ms[i].ready)
  {
  }

  /** A room that only changes its match, with the sessions bound to that match. */
  lemma StartStep(w: World, r: int, c': Scene)
    requires WorldOK(w) && IsValidRoom(r) && RoomOK(c'.room, w.now) && Succeeds(w.rooms[r], c'.room)
    requires forall i | 0 <= i < PLAYERNUM :: c'.room.members[i] == w.rooms[r].members[i].(ready := c'.room.members[i].ready)
    requires OnlyMatchBound(w.net, c'.net)
    ensures Good(w, WithScene(w, r, c'))
  {
    StillStep(w, r, c'.room);
    MatchBoundKeepsWorld(WithScene(w, r, Scene(c'.room, w.net)), WithScene(w, r, c'));
    OneRoomFollows(w, WithScene(w, r, c'), r);
  }

  lemma InitGameBinds(c: Scene)
    requires |c.room.game.players| == |c.room.members|
    ensures OnlyMatchBound(c.net, InitGame(c).net)
  {
    BindMatchEachEffect(c.net, Sids(c.room.members), c.room.game.generation + 1);
  }

  lemma TwoWrites(w: World, r: int, a: Scene, b: Scene)
    requires 0 <= r < |w.rooms|
    ensures WithScene(WithScene(w, r, a), r, b) == WithScene(w, r, b)
  {
    assert w.rooms[r := a.room][r := b.room] == w.rooms[r := b.room];
  }

  lemma SetReadyStep(w: World, sid: int, ready: bool)
    requires WorldOK(w) && sid in w.net.sessions
    ensures Good(w, SetReadyCommand(w, sid, ready))
  {
    OneRoomFollows(w, w, 0);
    if Found(w.net, sid) && IsValidRoom(w.net.sessions[sid].binding.room) {
      var r := w.net.sessions[sid].binding.room;
      if CanSetReady(w.rooms[r], sid) {
        var room := SetReadyFlag(w.rooms[r], sid, ready);
        SetReadyKeepsRoom(SceneAt(w, r), sid, ready, w.now);
        StillStep(w, r, room);
        if ready {
          var w1 := WithScene(w, r, Scene(room, w.net));
          InitGameStep(w1, r);
          var w' := WithScene(w1, r, InitGame(SceneAt(w1, r)));
          TwoWrites(w, r, SceneAt(w1, r), InitGame(SceneAt(w1, r)));
          FollowsTransitive(w, w1, w');
        }
      }
    }
  }

  lemma MatchBoundKeepsWorld(w: World, w': World)
    requires WorldOK(w) && w' == w.(net := w'.net) && (OnlyMatchBound(w.net, w'.net) || w'.net == w.net)
    ensures WorldOK(w')
  {
    forall x: LobbyCommand | CommandKnown(x, w.net) ensures CommandKnown(x, w'.net) {}
    forall q | 0 <= q < ROOM_CAPACITY ensures RoomKnown(w'.rooms[q], w'.net) {
      assert RoomKnown(w.rooms[q], w.net);
      forall k | 0 <= k < |w'.rooms[q].members| ensures SlotKnown(w'.rooms[q].members[k], w'.net) {
        assert SlotKnown(w.rooms[q].members[k], w.net);
      }
    }
    forall s | s in w'.net.sessions && w'.net.sessions[s].binding.room != -1
      ensures Seated(w'.rooms, s, w'.net.sessions[s].binding)
    {
      assert Seated(w.rooms, s, w.net.sessions[s].binding);
    }
  }

  lemma RemoveStep(w: World, sid: int)
    requires WorldOK(w)
    ensures Good(w, w.(net := RequestRemove(w.net, sid)))
  {
    RequestRemoveEffect(w.net, sid);
    QuietStep(w, w.(net := RequestRemove(w.net, sid)));
  }

  lemma EnterStep(w: World, sid: int, room: int)
    requires WorldOK(w) && sid in w.net.sessions
    ensures Good(w, EnterRoom(w, sid, room))
  {
    if !IsValidRoom(room) {
      RemoveStep(w, sid);
    } else if Unbound(w.net, sid) && CanEnter(SceneAt(w, room), sid) {
      UserInStep(w, room, SceneAt(w, room), sid);
    } else {
      OneRoomFollows(w, w, 0);
      assert WithScene(w, room, SceneAt(w, room)) == w;
    }
  }

  lemma LobbyCommandGood(w: World, c: LobbyCommand, sendFails: bool)
    requires WorldOK(w) && CommandKnown(c, w.net)
    ensures Good(w, ExecuteLobby(w, c, sendFails))
  {
    OneRoomFollows(w, w, 0);
    RemoveStep(w, c.sid);
    if c.Create? {
      if Unbound(w.net, c.sid) { CreateStep(w, c.sid, 0); }
    } else if c.Enter? {
      EnterStep(w, c.sid, c.room);
    } else if c.SetReady? {
      SetReadyStep(w, c.sid, c.ready);
    } else if c.Exit? {
      ExitStep(w, c.sid, c.room);
    } else if c.Disconnected? {
      DisconnectStep(w, c.sid, c.token, ROOM_CAPACITY);
    } else if c.Resume? {
      ResumeStep(w, c.sid, c.token, 0);
    }
  }

  lemma ProcessGood(w: World, c: GameCommand)
    requires WorldOK(w) && c.sid in w.net.sessions && IsValidRoom(c.room)
    ensures Good(w, WithScene(w, c.room, ProcessGamePacket(SceneAt(w, c.room), c, w.now)))
  {
    var s := SceneAt(w, c.room);
    var s' := ProcessGamePacket(s, c, w.now);
    ProcessKeepsRoom(s, c, w.now);
    if s'.net == w.net {
      StillStep(w, c.room, s'.room);
    } else {
      RemoveStep(w, c.sid);
      assert WithScene(w, c.room, s') == w.(net := RequestRemove(w.net, c.sid));
    }
  }

  lemma GameCommandGood(w: World, c: GameCommand)
    requires WorldOK(w) && c.sid in w.net.sessions
    ensures Good(w, ExecuteGame(w, c))
  {
    OneRoomFollows(w, w, 0);
    if IsValidRoom(c.room) { ProcessGood(w, c); }
  }

  lemma ManagerStepQuiet(n: Net, s: Step)
    requires NetOK(n) && ByManager(s) && (s.ActivateStep? ==> n.nextSid < SID_LIMIT)
    requires s.BeginIOStep? || s.CompleteIOStep? || s.RetireStep? ==> s.sid in n.sessions
    requires s.MoveStep? ==> s.sid in n.sessions && n.sessions[s.sid].retired
    requires s.CompleteIOStep? ==> n.sessions[s.sid].pendingIO > 0
    ensures NetQuiet(n, ApplyManager(n, s))
  {
    if s.ActivateStep? {
      ActivateIsQuiet(n);
    } else if s.RetireStep? {
      RetireIsQuiet(n, s.sid);
    } else if s.MoveStep? {
      MoveIsQuiet(n, s.sid);
    } else if s.PublishStep? {
      PublishIsQuiet(n, s.sid);
    } else if s.DrainStep? {
      PublishIsQuiet(n, 0);
    }
  }

  lemma ActivateIsQuiet(n: Net)
    requires NetOK(n) && n.nextSid < SID_LIMIT
    ensures NetQuiet(n, Activate(n))
  {
  }

  lemma EnqueueIsQuiet(n: Net, c: LobbyCommand)
    requires NetOK(n) && CommandKnown(c, n)
    ensures NetQuiet(n, EnqueueLobby(n, c))
  {
  }

  lemma SetTokenIsQuiet(n: Net, sid: int, token: nat)
    requires NetOK(n)
    ensures NetQuiet(n, SetToken(n, sid, token))
  {
  }

  lemma ItselfIsQuiet(n: Net)
    requires NetOK(n)
    ensures NetQuiet(n, n)
  {
  }

  lemma PacketStepQuiet(w: World, s: Step)
    requires NetOK(w.net) && Shaped(w) && Enabled(w, s) && ByPacketThread(s)
    ensures NetQuiet(w.net, ApplyPacket(w, s).net)
  {
    if s.LobbyStep? {
      EnqueueIsQuiet(w.net, s.command);
    } else if s.ExitQueueStep? {
      EnqueueIsQuiet(w.net, Exit(s.sid, HandlerOf(w, s.sid).room));
    } else if s.ExitClearStep? {
      RetireIsQuiet(w.net, s.sid);
    } else if s.LoginWriteStep? {
      SetTokenIsQuiet(w.net, s.sid, HandlerOf(w, s.sid).token);
    } else {
      ItselfIsQuiet(w.net);
    }
  }

  lemma PacketStepKeepsRest(w: World, s: Step)
    requires Shaped(w) && Enabled(w, s) && ByPacketThread(s) && !s.GameQueueStep?
    ensures var w' := ApplyPacket(w, s);
            && w'.rooms == w.rooms && w'.now == w.now && w'.batch == w.batch
            && w'.game == w.game && w'.gameBatch == w.gameBatch
  {
  }

  lemma NetStepGood(w: World, s: Step)
    requires WorldOK(w) && Enabled(w, s) && (ByManager(s) || (ByPacketThread(s) && !s.GameQueueStep?))
    ensures Good(w, Apply(w, s))
  {
    if ByManager(s) {
      ManagerStepQuiet(w.net, s);
    } else {
      PacketStepQuiet(w, s);
      PacketStepKeepsRest(w, s);
    }
    QuietStep(w, Apply(w, s));
  }

  lemma ClockGood(w: World, elapsed: nat)
    requires WorldOK(w)
    ensures Good(w, w.(now := w.now + elapsed))
  {
    var w' := w.(now := w.now + elapsed);
    OneRoomFollows(w, w', 0);
    forall r | 0 <= r < ROOM_CAPACITY ensures RoomOK(w'.rooms[r], w'.now) {
      assert RoomOK(w.rooms[r], w.now);
    }
  }

  lemma LobbyStepGood(w: World, sendFails: bool)
    requires WorldOK(w) && w.batch != []
    ensures var w1 := Popped(w);
            Good(w, ExecuteLobby(w1, w.batch[0], sendFails))
  {
    var w1 := Popped(w);
    OneRoomFollows(w, w1, 0);
    LobbyCommandGood(w1, w.batch[0], sendFails);
    FollowsTransitive(w, w1, ExecuteLobby(w1, w.batch[0], sendFails));
  }

  lemma GameStepGood(w: World)
    requires WorldOK(w) && w.gameBatch != []
    ensures Good(w, ExecuteGame(PoppedGame(w), w.gameBatch[0]))
  {
    var w1 := PoppedGame(w);
    OneRoomFollows(w, w1, 0);
    GameCommandGood(w1, w.gameBatch[0]);
    FollowsTransitive(w, w1, ExecuteGame(w1, w.gameBatch[0]));
  }

  lemma QueueStepGood(w: World, s: Step)
    requires WorldOK(w) && Enabled(w, s) && (s.DrainLobbyStep? || s.DrainGameStep? || s.GameQueueStep?)
    ensures Good(w, Apply(w, s))
  {
    if s.DrainLobbyStep? { DrainGood(w, Apply(w, s)); } else { OneRoomFollows(w, Apply(w, s), 0); }
  }

  /** The inductive step: any step of any thread, however the clients behave. */
  lemma StepKeepsWorld(w: World, s: Step)
    requires WorldOK(w) && Enabled(w, s)
    ensures Good(w, Apply(w, s))
  {
    if ByManager(s) || (ByPacketThread(s) && !s.GameQueueStep?) {
      NetStepGood(w, s);
    } else {
      if s.LobbyCommandStep? {
        LobbyStepGood(w, s.sendFails);
      } else if s.GameCommandStep? {
        GameStepGood(w);
      } else if s.UpdateStep? {
        UpdateRoomStep(w, s.room, s.geometry);
      } else if s.ClockStep? {
        ClockGood(w, s.elapsed);
      } else {
        QueueStepGood(w, s);
      }
    }
  }

  lemma DrainGood(w: World, w': World)
    requires WorldOK(w) && Enabled(w, DrainLobbyStep) && w' == Apply(w, DrainLobbyStep)
    ensures Good(w, w')
  {
    OneRoomFollows(w, w', 0);
    forall x: LobbyCommand | CommandKnown(x, w.net) ensures CommandKnown(x, w'.net) {}
    forall q | 0 <= q < ROOM_CAPACITY ensures RoomKnown(w'.rooms[q], w'.net) {
      assert RoomKnown(w.rooms[q], w.net);
      forall k | 0 <= k < |w'.rooms[q].members| ensures SlotKnown(w'.rooms[q].members[k], w'.net) {
        assert SlotKnown(w.rooms[q].members[k], w.net);
      }
    }
  }

  // ---- runs ----

  ghost predicate IsRun(w: World, steps: seq<Step>)
    requires WorldOK(w)
    decreases |steps|
  {
    steps == [] || (Enabled(w, steps[0]) && (StepKeepsWorld(w, steps[0]); IsRun(Apply(w, steps[0]), steps[1..])))
  }

  ghost function After(w: World, steps: seq<Step>): (w': World)
    requires WorldOK(w) && IsRun(w, steps)
    ensures Shaped(w')
    decreases |steps|
  {
    if steps == [] then w
    else
      StepKeepsWorld(w, steps[0]);
      After(Apply(w, steps[0]), steps[1..])
  }

  lemma InitialWorldOK(lobbyCapacity: nat, gameCapacity: nat)
    ensures WorldOK(Initial(lobbyCapacity, gameCapacity))
  {
    var w := Initial(lobbyCapacity, gameCapacity);
    forall r | 0 <= r < ROOM_CAPACITY
      ensures RoomOK(w.rooms[r], w.now) && RoomKnown(w.rooms[r], w.net)
    {
      assert w.rooms[r] == NewRoom(r);
    }
  }

  /** Every run, of any length and interleaving, stays within the invariant and only moves rooms on. */
  lemma {:induction false} RunKeepsWorld(w: World, steps: seq<Step>)
    requires WorldOK(w) && IsRun(w, steps)
    ensures WorldOK(After(w, steps)) && Follows(w, After(w, steps))
    decreases |steps|
  {
    if steps == [] {
      OneRoomFollows(w, w, 0);
    } else {
      var w1 := Apply(w, steps[0]);
      StepKeepsWorld(w, steps[0]);
      RunKeepsWorld(w1, steps[1..]);
      FollowsTransitive(w, w1, After(w, steps));
    }
  }

  lemma RunCons(w: World, s: Step, rest: seq<Step>)
    requires WorldOK(w) && Enabled(w, s) && WorldOK(Apply(w, s)) && IsRun(Apply(w, s), rest)
    ensures IsRun(w, [s] + rest) && After(w, [s] + rest) == After(Apply(w, s), rest)
  {
    assert ([s] + rest)[0] == s && ([s] + rest)[1..] == rest;
  }

  /** Only the owner changes rooms. */
  predicate TouchesRooms(s: Step) {
    s.LobbyCommandStep? || s.GameCommandStep? || s.UpdateStep?
  }

  lemma OthersKeepRooms(w: World, s: Step)
    requires WorldOK(w) && Enabled(w, s) && !TouchesRooms(s)
    ensures Apply(w, s).rooms == w.rooms
  {
  }

  /** A run can be cut anywhere. */
  lemma {:induction false} RunSplits(w: World, a: seq<Step>, b: seq<Step>)
    requires WorldOK(w) && IsRun(w, a + b)
    ensures IsRun(w, a) && WorldOK(After(w, a)) && IsRun(After(w, a), b)
    ensures After(w, a + b) == After(After(w, a), b)
    decreases |a|
  {
    if a == [] {
      assert a + b == b;
    } else {
      assert (a + b)[0] == a[0] && (a + b)[1..] == a[1..] + b;
      StepKeepsWorld(w, a[0]);
      RunSplits(Apply(w, a[0]), a[1..], b);
    }
  }

  lemma {:induction false} RunExtends(w: World, a: seq<Step>, s: Step)
    requires WorldOK(w) && IsRun(w, a) && (RunKeepsWorld(w, a); Enabled(After(w, a), s))
    ensures IsRun(w, a + [s]) && After(w, a + [s]) == Apply(After(w, a), s)
    decreases |a|
  {
    RunKeepsWorld(w, a);
    if a == [] {
      assert a + [s] == [s] && [s][1..] == [];
      StepKeepsWorld(w, s);
    } else {
      assert (a + [s])[0] == a[0] && (a + [s])[1..] == a[1..] + [s];
      StepKeepsWorld(w, a[0]);
      RunExtends(Apply(w, a[0]), a[1..], s);
    }
  }

  /** Some run of the server, with any queue capacities and any clients, ends in `w`. */
  ghost predicate Reachable(w: World) {
    exists lobby: nat, game: nat, steps: seq<Step> ::
      WorldOK(Initial(lobby, game)) && IsRun(Initial(lobby, game), steps) && After(Initial(lobby, game), steps) == w
  }

  lemma InitiallyReachable(lobbyCapacity: nat, gameCapacity: nat)
    ensures Reachable(Initial(lobbyCapacity, gameCapacity))
  {
    var w := Initial(lobbyCapacity, gameCapacity);
    InitialWorldOK(lobbyCapacity, gameCapacity);
    assert IsRun(w, []) && After(w, []) == w;
  }

  lemma ReachableStep(w: World, s: Step)
    requires Reachable(w) && Shaped(w) && Enabled(w, s)
    ensures Reachable(Apply(w, s))
  {
    var lobby: nat, game: nat, steps: seq<Step> :|
      WorldOK(Initial(lobby, game)) && IsRun(Initial(lobby, game), steps) && After(Initial(lobby, game), steps) == w;
    RunExtends(Initial(lobby, game), steps, s);
  }
}
