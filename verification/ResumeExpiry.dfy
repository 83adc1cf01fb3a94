/** A slot that waits for its player is resumed before its deadline or freed by the first update after it. */
module ResumeExpiry {
  import opened RoomCommand
  import opened SessionSpec
  import opened MatchSpec
  import opened RoomSpec
  import opened Protocol
  import opened RoomInvariant
  import opened ServerInvariant
  import opened ServerSteps
  import opened Lifecycle
  import opened Waiters

  /** Slot `i` of room `r` waits for a resume. */
  predicate WaitingAt(w: World, r: int, i: int) {
    0 <= r < |w.rooms| && 0 <= i < |w.rooms[r].members| && w.rooms[r].members[i].connection == Reconnecting
  }

  predicate StillWaiting(a: Room, b: Room, i: int)
    requires 0 <= i < |a.members| && |b.members| == |a.members|
  {
    b.members[i] == a.members[i] && b.status == InGame
  }

  /** The player came back in time, under a new sid, in the same slot with the same player index. */
  predicate ResumedAs(a: Room, b: Room, i: int, sid: int, now: int)
    requires RoomShaped(a) && RoomShaped(b) && 0 <= i < PLAYERNUM
  {
    && now < a.members[i].deadline && sid != a.members[i].sid
    && b.status == InGame && b.members[i].sid == sid && b.members[i].connection == Connected
    && b.members[i].token == a.members[i].token && b.members[i].ready == a.members[i].ready
    && b.members[i].generation == a.members[i].generation + 1
    && b.game.players[i].sid == sid && b.game.players[i].idx == i
  }

  predicate Gone(b: Room, i: int)
    requires 0 <= i < |b.members|
  {
    !Filled(b.members[i])
  }

  /** A departure touches the waiting slot only if it is that player's own, or the boss's. */
  lemma UserOutOnWaiting(c: Scene, sid: int, i: int, now: int)
    requires RoomOK(c.room, now) && c.room.status == InGame && WaitsFirst(c.room.members) && sid != -1
    requires 0 <= i < PLAYERNUM && c.room.members[i].connection == Reconnecting
    ensures var b := UserOut(c, sid).room;
            || b.status == Empty
            || (b.status == InGame && WaitsFirst(b.members)
                && if sid == c.room.members[i].sid then Gone(b, i) else b.members[i] == c.room.members[i])
    ensures sid != c.room.members[0].sid ==> UserOut(c, sid).room.status == InGame
  {
    assert SlotOK(c.room.members[i]);
    var k := IndexOf(c.room.members, sid);
    if k >= 0 { PlayerLeftCoupled(c.room, k); }
  }

  lemma {:induction false} ExpiredSids(members: seq<Member>, now: int)
    ensures forall s :: s in Expired(members, now) <==>
              exists k :: 0 <= k < |members| && members[k].connection == Reconnecting
                          && now >= members[k].deadline && members[k].sid == s
    decreases |members|
  {
    if members != [] {
      ExpiredSids(members[1..], now);
      forall s ensures s in Expired(members, now) <==>
          exists k :: 0 <= k < |members| && members[k].connection == Reconnecting
                      && now >= members[k].deadline && members[k].sid == s
      {
        if s in Expired(members[1..], now) {
          var k :| 0 <= k < |members[1..]| && members[1..][k].connection == Reconnecting
                   && now >= members[1..][k].deadline && members[1..][k].sid == s;
          assert members[k + 1].sid == s;
        }
        forall k | 0 < k < |members| && members[k].connection == Reconnecting
          && now >= members[k].deadline && members[k].sid == s
          ensures s in Expired(members[1..], now)
        {
          assert members[1..][k - 1] == members[k];
        }
      }
    }
  }

  /** Who is in the list is overdue in some slot. */
  lemma OverdueUnder(members: seq<Member>, now: int, s: int) returns (k: int)
    requires s in Expired(members, now)
    ensures 0 <= k < |members| && members[k].connection == Reconnecting && now >= members[k].deadline && members[k].sid == s
  {
    ExpiredSids(members, now);
    k :| 0 <= k < |members| && members[k].connection == Reconnecting && now >= members[k].deadline && members[k].sid == s;
  }

  /** Expiry frees exactly the slots listed, and never the boss's. */
  lemma {:induction false} ExpiryOnWaiting(c: Scene, sids: seq<int>, i: int, now: int)
    requires RoomOK(c.room, now) && c.room.status == InGame && WaitsFirst(c.room.members)
    requires 0 <= i < PLAYERNUM && (Gone(c.room, i) || c.room.members[i].connection == Reconnecting)
    requires forall s | s in sids :: s != -1 && s != c.room.members[0].sid
    ensures var b := UserOutEach(c, sids).room;
            && b.status == InGame && b.members[0] == c.room.members[0]
            && (if c.room.members[i].sid in sids || Gone(c.room, i) then Gone(b, i) else b.members[i] == c.room.members[i])
    decreases |sids|
  {
    if sids != [] {
      var c' := UserOut(c, sids[0]);
      assert sids[0] in sids && forall s | s in sids[1..] :: s in sids;
      UserOutKeepsRoom(c, sids[0], now);
      UserOutInGame(c, sids[0], now);
      if Gone(c.room, i) {
        assert Gone(c'.room, i);
      } else {
        UserOutOnWaiting(c, sids[0], i, now);
        assert Gone(c'.room, i) || c'.room.members[i] == c.room.members[i];
      }
      ExpiryOnWaiting(c', sids[1..], i, now);
      assert c.room.members[i].sid in sids <==>
        c.room.members[i].sid == sids[0] || c.room.members[i].sid in sids[1..];
    }
  }

  /** An employee's departure leaves the other slots of the running game alone. */
  lemma UserOutInGame(c: Scene, sid: int, now: int)
    requires RoomOK(c.room, now) && c.room.status == InGame && WaitsFirst(c.room.members)
    requires sid != -1 && sid != c.room.members[0].sid
    ensures var b := UserOut(c, sid).room;
            && b.status == InGame && b.members[0] == c.room.members[0] && WaitsFirst(b.members)
            && forall k | 0 <= k < PLAYERNUM && Gone(c.room, k) :: Gone(b, k)
  {
    var k := IndexOf(c.room.members, sid);
    if k >= 0 { PlayerLeftCoupled(c.room, k); }
  }

  lemma UpdateOnWaiting(w: World, r: int, i: int, g: Geometry)
    requires WorldOK(w) && WaitersFirst(w) && WaitingAt(w, r, i) && IsValidRoom(r)
    ensures var b := UpdateRoom(w, r, g).rooms[r];
            |b.members| == PLAYERNUM &&
            (b.status == Empty
             || if w.now >= w.rooms[r].members[i].deadline then Gone(b, i) else StillWaiting(w.rooms[r], b, i))
  {
    var c := SceneAt(w, r);
    ExpireOnWaiting(c, i, w.now);
    PlayOnWaiting(ExpireReconnects(c, w.now), w.now, g);
  }

  lemma ExpireOnWaiting(c: Scene, i: int, now: int)
    requires RoomOK(c.room, now) && c.room.status == InGame && WaitsFirst(c.room.members)
    requires 0 <= i < PLAYERNUM && c.room.members[i].connection == Reconnecting
    ensures var b := ExpireReconnects(c, now).room;
            && RoomOK(b, now) && b.status == InGame
            && if now >= c.room.members[i].deadline then Gone(b, i) else b.members[i] == c.room.members[i]
  {
    assert SlotOK(c.room.members[i]);
    var sids := Expired(c.room.members, now);
    ExpiredSids(c.room.members, now);
    forall s | s in sids ensures s != -1 && s != c.room.members[0].sid {
      var k := OverdueUnder(c.room.members, now, s);
      assert SlotOK(c.room.members[k]);
    }
    ExpiryOnWaiting(c, sids, i, now);
    UserOutEachKeepsRoom(c, sids, now);
  }

  /** The rest of an update leaves the slots alone, or closes the room. */
  lemma PlayOnWaiting(c: Scene, now: int, g: Geometry)
    requires RoomOK(c.room, now) && c.room.status == InGame
    ensures var b := Play(c, now, g).room;
            |b.members| == PLAYERNUM && (b.status == Empty || (b.status == InGame && b.members == c.room.members))
  {
    TickKeepsRoom(c.room, now, g);
    var c2 := c.(room := Tick(c.room, now, g));
    if Decided(c2.room.game) { CloseEmptiesRoom(c2, now); }
  }

  lemma ResumeRoomOnWaiting(c: Scene, sid: int, token: nat, now: int, i: int)
    requires RoomOK(c.room, now) && CanResume(c, sid, token, now) && token != 0
    requires 0 <= i < PLAYERNUM && c.room.members[i].connection == Reconnecting
    requires c.room.members[i].sid != sid
    ensures var b := ResumeUser(c, sid, token, now).room;
            RoomShaped(b)
            && (StillWaiting(c.room, b, i)
                || (token == c.room.members[i].token && ResumedAs(c.room, b, i, sid, now)))
  {
    ResumeSlots(c, sid, token, now);
  }

  /** The loop over rooms: only the room whose slot carries the token can change. */
  lemma {:induction false} ResumeOnWaiting(w: World, sid: int, token: nat, r: int, i: int, from: nat := 0)
    requires Shaped(w) && from <= ROOM_CAPACITY && WaitingAt(w, r, i) && token != 0
    requires RoomOK(w.rooms[r], w.now) && w.rooms[r].status == InGame && w.rooms[r].members[i].sid !in w.net.active
    ensures var b := ResumeFrom(w, sid, token, from).rooms[r];
            RoomShaped(b)
            && (StillWaiting(w.rooms[r], b, i)
                || (token == w.rooms[r].members[i].token && ResumedAs(w.rooms[r], b, i, sid, w.now)))
    decreases ROOM_CAPACITY - from
  {
    if from < ROOM_CAPACITY {
      if CanResume(SceneAt(w, from), sid, token, w.now) {
        if from == r { ResumeRoomOnWaiting(SceneAt(w, r), sid, token, w.now, i); }
      } else {
        ResumeOnWaiting(w, sid, token, r, i, from + 1);
      }
    }
  }

  lemma DisconnectOnWaiting(w: World, sid: int, token: nat, r: int, i: int)
    requires WorldOK(w) && WaitersFirst(w) && WaitingAt(w, r, i) && sid in w.net.sessions
    requires sid != w.rooms[r].members[i].sid
    ensures var b := DisconnectUpTo(w, sid, token, ROOM_CAPACITY).rooms[r];
            RoomShaped(b) && (b.status == Empty || StillWaiting(w.rooms[r], b, i))
  {
    DisconnectRooms(w, sid, token, ROOM_CAPACITY, r);
    UserOutOnWaiting(SceneAt(w, r), sid, i, w.now);
  }

  lemma {:induction false} CreateSparesGames(w: World, sid: int, r: int, from: nat := 0)
    requires Shaped(w) && from <= ROOM_CAPACITY && IsValidRoom(r) && w.rooms[r].status == InGame
    ensures CreateFrom(w, sid, from).rooms[r] == w.rooms[r]
    decreases ROOM_CAPACITY - from
  {
    if from < ROOM_CAPACITY { CreateSparesGames(w, sid, r, from + 1); }
  }

  lemma EnterSparesGames(w: World, sid: int, room: int, r: int)
    requires Shaped(w) && IsValidRoom(r) && w.rooms[r].status == InGame
    ensures EnterRoom(w, sid, room).rooms[r] == w.rooms[r]
  {
  }

  lemma SetReadySparesGames(w: World, sid: int, ready: bool, r: int)
    requires Shaped(w) && IsValidRoom(r) && w.rooms[r].status == InGame
    ensures SetReadyCommand(w, sid, ready).rooms[r] == w.rooms[r]
  {
  }

  /** Create, Enter and SetReady never touch a room that is in game. */
  lemma LobbyOnlyCommandsSpareGames(w: World, c: LobbyCommand, sendFails: bool, r: int)
    requires Shaped(w) && IsValidRoom(r) && w.rooms[r].status == InGame
    requires c.SessionConnected? || c.Create? || c.Enter? || c.SetReady?
    ensures ExecuteLobby(w, c, sendFails).rooms[r] == w.rooms[r]
  {
    if c.Create? {
      CreateSparesGames(w, c.sid, r);
    } else if c.Enter? {
      EnterSparesGames(w, c.sid, c.room, r);
    } else if c.SetReady? {
      SetReadySparesGames(w, c.sid, c.ready, r);
    }
  }

  /** The ways a wait ends. */
  predicate EndsWait(w: World, s: Step, r: int, i: int)
    requires Shaped(w) && Enabled(w, s) && IsValidRoom(r) && 0 <= i < PLAYERNUM
  {
    var a, b := w.rooms[r], Apply(w, s).rooms[r];
    || (s.LobbyCommandStep? && w.batch[0].Resume? && w.batch[0].token == a.members[i].token
        && ResumedAs(a, b, i, w.batch[0].sid, w.now))
    || (s.UpdateStep? && s.room == r && w.now >= a.members[i].deadline && Gone(b, i))
    || (s.LobbyCommandStep? && w.batch[0] == Exit(a.members[i].sid, r) && Gone(b, i))
    || (b.status == Empty && Gone(b, i))
  }

  lemma ExitOnWaiting(w: World, sid: int, room: int, r: int, i: int)
    requires WorldOK(w) && WaitersFirst(w) && WaitingAt(w, r, i) && sid in w.net.sessions
    requires w.rooms[r].status == InGame
    ensures var b := ExitRoom(w, sid, room).rooms[r];
            RoomShaped(b)
            && (StillWaiting(w.rooms[r], b, i) || b.status == Empty
                || (sid == w.rooms[r].members[i].sid && room == r && Gone(b, i)))
  {
    if room == r {
        UserOutOnWaiting(SceneAt(w, r), sid, i, w.now);
    }
  }

  /** Executing the command at the head of the batch, from the world without it. */
  lemma CommandOnWaiting(w: World, c: LobbyCommand, sendFails: bool, r: int, i: int)
    requires WorldOK(w) && WaitersFirst(w) && CommandKnown(c, w.net) && WaitingAt(w, r, i)
    requires w.rooms[r].status == InGame && (c.Disconnected? ==> c.sid != w.rooms[r].members[i].sid)
    ensures var m := w.rooms[r].members[i];
            var b := ExecuteLobby(w, c, sendFails).rooms[r];
            && RoomShaped(w.rooms[r]) && RoomShaped(b)
            && (|| StillWaiting(w.rooms[r], b, i)
                || b.status == Empty
                || (c.Resume? && c.token == m.token && ResumedAs(w.rooms[r], b, i, c.sid, w.now))
                || (c == Exit(m.sid, r) && Gone(b, i)))
  {
    assert RoomOK(w.rooms[r], w.now) && RoomKnown(w.rooms[r], w.net) && SlotKnown(w.rooms[r].members[i], w.net);
    assert SlotOK(w.rooms[r].members[i]);
    if c.Resume? {
      ResumeOnWaiting(w, c.sid, c.token, r, i);
    } else if c.Disconnected? {
      DisconnectOnWaiting(w, c.sid, c.token, r, i);
    } else if c.Exit? {
      ExitOnWaiting(w, c.sid, c.room, r, i);
    } else {
      LobbyOnlyCommandsSpareGames(w, c, sendFails, r);
    }
  }

  lemma LobbyCommandOnWaiting(w: World, sendFails: bool, r: int, i: int)
    requires WorldOK(w) && WaitersFirst(w) && LifeOK(w) && w.batch != [] && WaitingAt(w, r, i)
    requires w.rooms[r].status == InGame
    requires Good(w, Apply(w, LobbyCommandStep(sendFails)))
    ensures var s := LobbyCommandStep(sendFails);
            StillWaiting(w.rooms[r], Apply(w, s).rooms[r], i) || EndsWait(w, s, r, i)
  {
    var c := w.batch[0];
    var w1 := Popped(w);
    assert CommandKnown(c, w.net) && WorldOK(w1);
    if c.Disconnected? { DepartedOnce(w, r, i); }
    CommandOnWaiting(w1, c, sendFails, r, i);
    var b := Apply(w, LobbyCommandStep(sendFails)).rooms[r];
    if b.status == Empty { EmptyMeansGone(b, i, w.now); }
  }

  lemma EmptyMeansGone(b: Room, i: int, now: int)
    requires RoomOK(b, now) && b.status == Empty && 0 <= i < PLAYERNUM
    ensures Gone(b, i)
  {
  }

  /** The departure of a waiting slot's session has been executed, so it is not executed again. */
  lemma DepartedOnce(w: World, r: int, i: int)
    requires WorldOK(w) && LifeOK(w) && w.batch != [] && w.batch[0].Disconnected? && WaitingAt(w, r, i)
    ensures w.batch[0].sid != w.rooms[r].members[i].sid
  {
    var c := w.batch[0];
    var s := w.rooms[r].members[i].sid;
    var log := Log(w);
    assert log == w.executed + [c] + (w.batch[1..] + w.net.lobby);
    LeavesPrefix(w.executed + [c], w.batch[1..] + w.net.lobby, s);
    Appended(w.executed, c, s);
    assert LifeOf(w, s);
  }

  lemma {:induction false} LeavesPrefix(a: seq<LobbyCommand>, b: seq<LobbyCommand>, s: int)
    ensures Leaves(a, s) <= Leaves(a + b, s)
    decreases |b|
  {
    if b == [] {
      assert a + b == a;
    } else {
      assert (a + b)[..|a + b| - 1] == a + b[..|b| - 1];
      LeavesPrefix(a, b[..|b| - 1], s);
    }
  }

  lemma GameCommandOnWaiting(w: World, c: GameCommand, r: int, i: int)
    requires WorldOK(w) && c.sid in w.net.sessions && WaitingAt(w, r, i)
    ensures StillWaiting(w.rooms[r], ExecuteGame(w, c).rooms[r], i)
  {
  }

  lemma UpdateStepOnWaiting(w: World, s: Step, r: int, i: int)
    requires WorldOK(w) && WaitersFirst(w) && WaitingAt(w, r, i) && IsValidRoom(r)
    requires Enabled(w, s) && s.UpdateStep? && s.room == r
    ensures EndsWait(w, s, r, i)
            || (StillWaiting(w.rooms[r], Apply(w, s).rooms[r], i) && w.now < w.rooms[r].members[i].deadline)
  {
    UpdateOnWaiting(w, r, i, s.geometry);
    UpdateKeepsRoom(SceneAt(w, r), w.now, s.geometry);
    if Apply(w, s).rooms[r].status == Empty { EmptyMeansGone(Apply(w, s).rooms[r], i, w.now); }
  }

  lemma OtherStepOnWaiting(w: World, s: Step, r: int, i: int)
    requires WorldOK(w) && Enabled(w, s) && WaitingAt(w, r, i) && w.rooms[r].status == InGame
    requires !s.LobbyCommandStep? && !(s.UpdateStep? && s.room == r)
    ensures StillWaiting(w.rooms[r], Apply(w, s).rooms[r], i)
  {
    if s.GameCommandStep? {
      GameCommandOnWaiting(PoppedGame(w), w.gameBatch[0], r, i);
    } else if !s.UpdateStep? {
      OthersKeepRooms(w, s);
    }
  }

  /**
   * One step of a waiting slot. It either goes on waiting, which no update at or after the deadline allows, or
   * the wait ends: by a resume strictly before the deadline, by expiry, by the player's own Exit, or with the match.
   */
  lemma WaitingSlotStep(w: World, s: Step, r: int, i: int)
    requires WorldOK(w) && WaitersFirst(w) && LifeOK(w) && Enabled(w, s) && WaitingAt(w, r, i)
    ensures EndsWait(w, s, r, i)
            || (StillWaiting(w.rooms[r], Apply(w, s).rooms[r], i)
                && !(s.UpdateStep? && s.room == r && w.now >= w.rooms[r].members[i].deadline))
  {
    assert RoomOK(w.rooms[r], w.now) && SlotOK(w.rooms[r].members[i]);
    if s.LobbyCommandStep? {
      StepKeepsWorld(w, s);
      LobbyCommandOnWaiting(w, s.sendFails, r, i);
    } else if s.UpdateStep? && s.room == r {
      UpdateStepOnWaiting(w, s, r, i);
    } else {
      OtherStepOnWaiting(w, s, r, i);
    }
  }

  /** The invariants a waiting slot's fate rests on, one step later. */
  lemma WaitingStepKeeps(w: World, s: Step)
    requires WorldOK(w) && WaitersFirst(w) && LifeOK(w) && Enabled(w, s)
    ensures WorldOK(Apply(w, s)) && WaitersFirst(Apply(w, s)) && LifeOK(Apply(w, s))
  {
    StepKeepsWorld(w, s);
    StepKeepsFirst(w, s);
    StepKeepsLife(w, s);
  }

  /** `k` steps of the run leave the slot waiting as it was, and the next one, if any, ends the wait. */
  ghost predicate WaitsFor(w: World, steps: seq<Step>, r: int, i: int, k: nat) {
    && WorldOK(w) && k <= |steps| && IsRun(w, steps[..k])
    && WaitsOn(w, After(w, steps[..k]), r, i) && IsValidRoom(r)
    && WaitIsOver(After(w, steps[..k]), steps[k..], r, i)
  }

  ghost predicate WaitIsOver(w: World, rest: seq<Step>, r: int, i: int)
    requires Shaped(w) && WaitingAt(w, r, i) && IsValidRoom(r)
  {
    rest != [] ==> Enabled(w, rest[0]) && EndsWait(w, rest[0], r, i)
  }

  /** The slot waits in both worlds, for the same player, with the same deadline. */
  ghost predicate WaitsOn(w: World, w': World, r: int, i: int) {
    WaitingAt(w, r, i) && WaitingAt(w', r, i) && w'.rooms[r].members[i] == w.rooms[r].members[i]
  }

  lemma RunHead(w: World, steps: seq<Step>)
    requires WorldOK(w) && WaitersFirst(w) && LifeOK(w) && IsRun(w, steps) && steps != []
    ensures Enabled(w, steps[0])
    ensures WorldOK(Apply(w, steps[0])) && WaitersFirst(Apply(w, steps[0])) && LifeOK(Apply(w, steps[0]))
    ensures IsRun(Apply(w, steps[0]), steps[1..])
  {
    WaitingStepKeeps(w, steps[0]);
  }

  /** The first step of a run ends the wait, or leaves a run from a state that still waits. */
  lemma WaitEndsOrGoesOn(w: World, steps: seq<Step>, r: int, i: int) returns (over: bool)
    requires WorldOK(w) && WaitersFirst(w) && LifeOK(w) && IsRun(w, steps) && WaitingAt(w, r, i)
    ensures over ==> WaitsFor(w, steps, r, i, 0)
    ensures !over ==>
              && steps != [] && IsValidRoom(r) && Enabled(w, steps[0])
              && var w1 := Apply(w, steps[0]);
              && WorldOK(w1) && WaitersFirst(w1) && LifeOK(w1) && IsRun(w1, steps[1..]) && WaitsOn(w, w1, r, i)
  {
    over := true;
    if steps != [] {
      RunHead(w, steps);
      WaitingSlotStep(w, steps[0], r, i);
      over := EndsWait(w, steps[0], r, i);
    }
    if over {
      assert steps[..0] == [] && steps[0..] == steps;
      assert WaitIsOver(w, steps, r, i);
    }
  }

  lemma WaitsOneMore(w: World, w1: World, steps: seq<Step>, r: int, i: int, k: nat)
    requires WorldOK(w) && IsValidRoom(r) && steps != [] && Enabled(w, steps[0]) && w1 == Apply(w, steps[0])
    requires WaitsOn(w, w1, r, i) && WaitsFor(w1, steps[1..], r, i, k)
    ensures WaitsFor(w, steps, r, i, k + 1)
  {
    assert steps[..k + 1] == [steps[0]] + steps[1..][..k] && steps[k + 1..] == steps[1..][k..];
    RunCons(w, steps[0], steps[1..][..k]);
  }

  /** Along any run a waiting slot goes on waiting, unchanged, until one of its steps ends the wait. */
  lemma {:induction false} WaitingSlotRun(w: World, steps: seq<Step>, r: int, i: int) returns (k: nat)
    requires WorldOK(w) && WaitersFirst(w) && LifeOK(w) && IsRun(w, steps) && WaitingAt(w, r, i)
    ensures WaitsFor(w, steps, r, i, k)
    decreases |steps|
  {
    var over := WaitEndsOrGoesOn(w, steps, r, i);
    if over {
      k := 0;
    } else {
      var w1 := Apply(w, steps[0]);
      k := WaitingSlotRun(w1, steps[1..], r, i);
      WaitsOneMore(w, w1, steps, r, i, k);
      k := k + 1;
    }
  }
}
