/** The discipline's invariant holds at every owner-step boundary of every disciplined run. */
module DisciplineRuns {
  import opened RoomCommand
  import opened SessionSpec
  import opened MatchSpec
  import opened RoomSpec
  import opened Protocol
  import opened RoomInvariant
  import opened ServerInvariant
  import opened ServerSteps
  import opened Discipline
  import opened DisciplineSteps

  /** Only Exit and Disconnected are excused from anything while they execute. */
  lemma NothingExcused(w: World, c: LobbyCommand)
    requires OrderlyBut(w, c) && !c.Exit? && !c.Disconnected?
    ensures Orderly(w)
  {
    forall s | s in w.net.sessions ensures HandlerOK(w, NOTHING, s) {
      assert HandlerOK(w, c, s);
    }
  }

  lemma CalmStepOrderly(w: World, w': World)
    requires Orderly(w) && Calm(w, w')
    ensures Orderly(w')
  {
    CalmKeepsOrder(w, w', NOTHING);
  }

  // ---- leaving ----

  lemma UserOutIsCalm(w: World, r: int, sid: int)
    requires WorldOK(w) && NoDuplicates(w.rooms) && IsValidRoom(r) && sid in w.net.sessions
    ensures var w' := WithScene(w, r, UserOut(SceneAt(w, r), sid));
            Calm(w, w') && forall i :: !Holds(w'.rooms, r, i, sid)
  {
    var c := SceneAt(w, r);
    var c' := UserOut(c, sid);
    UserOutLoosens(c, sid);
    LooseIsCalm(w, r, c');
    var k := IndexOf(c.room.members, sid);
    var w' := WithScene(w, r, c');
    forall i ensures !Holds(w'.rooms, r, i, sid) {
      if k >= 0 {
        assert Holds(w.rooms, r, k, sid);
        assert !Filled(c'.room.members[k]);
      }
    }
  }

  lemma ExitOrderly(w: World, sid: int, room: int)
    requires WorldOK(w) && OrderlyBut(w, Exit(sid, room)) && sid in w.net.sessions
    ensures Orderly(ExitRoom(w, sid, room))
  {
    var c := Exit(sid, room);
    var w' := ExitRoom(w, sid, room);
    ExitStep(w, sid, room);
    if IsValidRoom(room) {
      UserOutIsCalm(w, room, sid);
      CalmKeepsOrder(w, w', c);
    }
    forall s | s in w'.net.sessions ensures HandlerOK(w', NOTHING, s) {
      assert HandlerOK(w', c, s);
      if w'.net.sessions[s].binding.room != -1 {
        var b := w'.net.sessions[s].binding;
        assert Seated(w'.rooms, s, b);
        var i :| 0 <= i < PLAYERNUM && w'.rooms[b.room].members[i].sid == s;
        assert Holds(w'.rooms, b.room, i, s);
      }
    }
    forall r, i, s | Live(w'.rooms, r, i, s) ensures c != Exit(s, r) {
      assert Holds(w'.rooms, r, i, s);
    }
  }

  /** One room of DisconnectSession: afterwards no slot of the room is Connected under the session. */
  lemma DisconnectRoomIsCalm(w: World, r: int, sid: int, token: nat)
    requires WorldOK(w) && NoDuplicates(w.rooms) && IsValidRoom(r) && sid in w.net.sessions && sid !in w.net.active
    requires forall i | Live(w.rooms, r, i, sid) :: w.rooms[r].members[i].token == token
    ensures var w' := WithScene(w, r, TransportDisconnected(SceneAt(w, r), sid, token, w.now));
            Calm(w, w') && forall i :: !Live(w'.rooms, r, i, sid)
  {
    var c := SceneAt(w, r);
    var c' := TransportDisconnected(c, sid, token, w.now);
    var w' := WithScene(w, r, c');
    var k := IndexOf(c.room.members, sid);
    if k < 0 || c.room.status != InGame || k == 0 || token == 0 {
      UserOutIsCalm(w, r, sid);
    } else {
      assert Holds(w.rooms, r, k, sid);
      assert Live(w.rooms, r, k, sid) || c.room.members[k].connection == Reconnecting;
      StillIsCalm(w, w');
      forall i ensures !Live(w'.rooms, r, i, sid) {
        assert Holds(w.rooms, r, i, sid) ==> i == k;
      }
    }
  }

  ghost predicate LiveUnder(rooms: seq<Room>, sid: int, token: nat) {
    forall r, i | Live(rooms, r, i, sid) :: rooms[r].members[i].token == token
  }

  ghost predicate NoLiveBelow(rooms: seq<Room>, sid: int, n: nat) {
    forall r, i | r < n :: !Live(rooms, r, i, sid)
  }

  /** The next room of the loop, given that the rooms before it are done. */
  lemma NextRoomIsCalm(w: World, w1: World, r: nat, sid: int, token: nat)
    requires WorldOK(w1) && NoDuplicates(w.rooms) && IsValidRoom(r) && Calm(w, w1)
    requires sid in w1.net.sessions && sid !in w1.net.active
    requires LiveUnder(w.rooms, sid, token) && NoLiveBelow(w1.rooms, sid, r)
    ensures var w' := WithScene(w1, r, TransportDisconnected(SceneAt(w1, r), sid, token, w1.now));
            Calm(w, w') && NoLiveBelow(w'.rooms, sid, r + 1)
  {
    forall i | Live(w1.rooms, r, i, sid) ensures w1.rooms[r].members[i].token == token {
      assert Holds(w1.rooms, r, i, sid) && Live(w.rooms, r, i, sid);
    }
    assert NoDuplicates(w1.rooms);
    DisconnectRoomIsCalm(w1, r, sid, token);
    var w' := WithScene(w1, r, TransportDisconnected(SceneAt(w1, r), sid, token, w1.now));
    NoLiveNext(w1, w', r, sid);
    CalmTransitive(w, w1, w');
  }

  lemma NoLiveNext(w1: World, w': World, r: nat, sid: int)
    requires Calm(w1, w') && NoLiveBelow(w1.rooms, sid, r) && forall i :: !Live(w'.rooms, r, i, sid)
    ensures NoLiveBelow(w'.rooms, sid, r + 1)
  {
  }

  /** What DisconnectSession has done once the rooms below `n` have been visited. */
  ghost predicate Dismissed(w: World, w': World, sid: int, n: nat) {
    Calm(w, w') && NoLiveBelow(w'.rooms, sid, n) && WorldOK(w') && sid in w'.net.sessions && sid !in w'.net.active
  }

  lemma NobodyDismissed(w: World, sid: int)
    requires WorldOK(w) && sid in w.net.sessions && sid !in w.net.active
    ensures Dismissed(w, w, sid, 0)
  {
    StillIsCalm(w, w);
  }

  lemma NextRoomDismisses(w: World, w1: World, w2: World, r: nat, sid: int, token: nat)
    requires NoDuplicates(w.rooms) && IsValidRoom(r) && LiveUnder(w.rooms, sid, token) && Dismissed(w, w1, sid, r)
    requires w2 == WithScene(w1, r, TransportDisconnected(SceneAt(w1, r), sid, token, w1.now))
    ensures Dismissed(w, w2, sid, r + 1)
  {
    NextRoomIsCalm(w, w1, r, sid, token);
    DisconnectRoomStep(w1, r, sid, token);
  }

  lemma {:induction false} DisconnectDismisses(w: World, sid: int, token: nat, upTo: nat)
    requires WorldOK(w) && NoDuplicates(w.rooms) && upTo <= ROOM_CAPACITY
    requires sid in w.net.sessions && sid !in w.net.active && LiveUnder(w.rooms, sid, token)
    ensures Dismissed(w, DisconnectUpTo(w, sid, token, upTo), sid, upTo)
    decreases upTo
  {
    if upTo == 0 {
      NobodyDismissed(w, sid);
    } else {
      DisconnectDismisses(w, sid, token, upTo - 1);
      NextRoomDismisses(w, DisconnectUpTo(w, sid, token, upTo - 1), DisconnectUpTo(w, sid, token, upTo), upTo - 1, sid, token);
    }
  }

  lemma DisconnectOrderly(w: World, sid: int, token: nat)
    requires WorldOK(w) && OrderlyBut(w, Disconnected(sid, token))
    requires sid in w.net.sessions && sid !in w.net.active
    requires forall r, i | Live(w.rooms, r, i, sid) :: w.rooms[r].members[i].token == token
    ensures Orderly(DisconnectUpTo(w, sid, token, ROOM_CAPACITY))
  {
    var c := Disconnected(sid, token);
    var w' := DisconnectUpTo(w, sid, token, ROOM_CAPACITY);
    DisconnectStep(w, sid, token, ROOM_CAPACITY);
    DisconnectDismisses(w, sid, token, ROOM_CAPACITY);
    CalmKeepsOrder(w, w', c);
    forall s | s in w'.net.sessions ensures HandlerOK(w', NOTHING, s) {
      assert HandlerOK(w', c, s);
    }
    forall r, i ensures !Live(w'.rooms, r, i, sid) {
      assert r < ROOM_CAPACITY ==> !Live(w'.rooms, r, i, sid);
    }
    assert NoLive(w'.rooms, sid);
  }

  // ---- arriving ----

  lemma EnterOrderly(w: World, r: int, c: Scene, sid: int, command: LobbyCommand)
    requires WorldOK(w) && OrderlyBut(w, command) && Binds(command, sid) && !command.Resume?
    requires Free(w, sid) && ReadyToBind(w, command)
    requires IsValidRoom(r) && sid in w.net.sessions && Unbound(w.net, sid)
    requires c.net == w.net && (c.room == w.rooms[r] || (c.room == Opened(w.rooms[r]) && w.rooms[r].status == Empty))
    requires CanEnter(c, sid)
    ensures Orderly(WithScene(w, r, UserIn(c, sid)))
  {
    var w' := WithScene(w, r, UserIn(c, sid));
    EnterIsBinding(w, r, c, sid);
    BindingKeepsOrder(w, w', r, FreeIndex(c.room.members), sid, command);
    NothingExcused(w', command);
  }

  lemma ResumeOrderly(w: World, sid: int, token: nat)
    requires WorldOK(w) && OrderlyBut(w, Resume(sid, token)) && sid in w.net.sessions && token != 0
    requires Free(w, sid) && ReadyToBind(w, Resume(sid, token))
    ensures Orderly(ResumeSession(w, sid, token))
  {
    var command := Resume(sid, token);
    NothingExcused(w, command);
    ResumeStep(w, sid, token, 0);
    var w' := ResumeSession(w, sid, token);
    if w' != w {
      var r :| IsValidRoom(r) && CanResume(SceneAt(w, r), sid, token, w.now)
               && w' == WithScene(w, r, ResumeUser(SceneAt(w, r), sid, token, w.now));
      ResumeIsBinding(w, r, sid, token);
      BindingKeepsOrder(w, w', r, TokenIndex(w.rooms[r].members, token), sid, command);
      NothingExcused(w', command);
    }
  }

  /** A room whose slots change in nothing but their ready flags. */
  lemma FlagsAreCalm(w: World, r: int, c: Scene)
    requires 0 <= r < |w.rooms| && |c.room.members| == |w.rooms[r].members|
    requires forall i | 0 <= i < |c.room.members| ::
               c.room.members[i] == w.rooms[r].members[i].(ready := c.room.members[i].ready)
    requires OnlyMatchBound(w.net, c.net) || c.net == w.net
    ensures Calm(w, WithScene(w, r, c))
  {
    StillIsCalm(w, WithScene(w, r, c));
  }

  lemma InitGameFlags(c: Scene)
    requires |c.room.game.players| == |c.room.members|
    ensures OnlyMatchBound(c.net, InitGame(c).net) || InitGame(c).net == c.net
    ensures |InitGame(c).room.members| == |c.room.members|
    ensures forall i | 0 <= i < |c.room.members| ::
              InitGame(c).room.members[i] == c.room.members[i].(ready := InitGame(c).room.members[i].ready)
  {
    BindMatchEachEffect(c.net, Sids(c.room.members), c.room.game.generation + 1);
  }

  lemma SetReadyIsCalm(w: World, sid: int, ready: bool)
    requires WorldOK(w) && sid in w.net.sessions
    ensures Calm(w, SetReadyCommand(w, sid, ready))
  {
    if Found(w.net, sid) && IsValidRoom(w.net.sessions[sid].binding.room) {
      var r := w.net.sessions[sid].binding.room;
      var c := SceneAt(w, r).(room := SetReadyFlag(w.rooms[r], sid, ready));
      InitGameFlags(c);
      FlagsAreCalm(w, r, c);
      FlagsAreCalm(w, r, InitGame(c));
    }
    StillIsCalm(w, w);
  }

  lemma RemovalOrderly(w: World, sid: int)
    requires WorldOK(w) && Orderly(w)
    ensures Orderly(w.(net := RequestRemove(w.net, sid)))
  {
    RemoveIsCalm(w, sid);
    CalmStepOrderly(w, w.(net := RequestRemove(w.net, sid)));
  }

  lemma CreateOrderly(w: World, sid: int)
    requires WorldOK(w) && OrderlyBut(w, Create(sid)) && sid in w.net.sessions
    requires Free(w, sid) && ReadyToBind(w, Create(sid))
    ensures Orderly(CreateRoom(w, sid))
  {
    NothingExcused(w, Create(sid));
    if Unbound(w.net, sid) {
      CreateStep(w, sid, 0);
      var w' := CreateFrom(w, sid, 0);
      if w' != w {
        var r :| IsValidRoom(r) && w.rooms[r].status == Empty
                 && CanEnter(SceneAt(w, r).(room := Opened(w.rooms[r])), sid)
                 && w' == WithScene(w, r, UserIn(SceneAt(w, r).(room := Opened(w.rooms[r])), sid));
        EnterOrderly(w, r, SceneAt(w, r).(room := Opened(w.rooms[r])), sid, Create(sid));
      }
    }
  }

  lemma EnterCommandOrderly(w: World, sid: int, room: int)
    requires WorldOK(w) && OrderlyBut(w, Enter(sid, room)) && sid in w.net.sessions
    requires Free(w, sid) && ReadyToBind(w, Enter(sid, room))
    ensures Orderly(EnterRoom(w, sid, room))
  {
    NothingExcused(w, Enter(sid, room));
    if !IsValidRoom(room) {
      RemovalOrderly(w, sid);
    } else if Found(w.net, sid) && Unbound(w.net, sid) {
      if CanEnter(SceneAt(w, room), sid) {
        EnterOrderly(w, room, SceneAt(w, room), sid, Enter(sid, room));
      } else {
        assert WithScene(w, room, SceneAt(w, room)) == w;
      }
    }
  }

  lemma LobbyCommandOrderly(w: World, sendFails: bool)
    requires WorldOK(w) && Orderly(w) && w.batch != []
    ensures Orderly(ExecuteLobby(Popped(w), w.batch[0], sendFails))
  {
    var c := w.batch[0];
    var w1 := Popped(w);
    assert CommandKnown(c, w.net);
    PopKeepsOrder(w);
    assert WorldOK(w1);
    if Binds(c, c.sid) { BinderIsReady(w); }
    if c.SessionConnected? {
      NothingExcused(w1, c);
      RemovalOrderly(w1, c.sid);
    } else if c.Create? {
      CreateOrderly(w1, c.sid);
    } else if c.Enter? {
      EnterCommandOrderly(w1, c.sid, c.room);
    } else if c.SetReady? {
      NothingExcused(w1, c);
      SetReadyIsCalm(w1, c.sid, c.ready);
      CalmStepOrderly(w1, SetReadyCommand(w1, c.sid, c.ready));
    } else if c.Exit? {
      ExitOrderly(w1, c.sid, c.room);
    } else if c.Disconnected? {
      assert Pending(w)[0] == c;
      DisconnectOrderly(w1, c.sid, c.token);
    } else if c.Resume? {
      ResumeOrderly(w1, c.sid, c.token);
    }
  }

  lemma GameCommandIsCalm(w: World, c: GameCommand)
    requires WorldOK(w)
    ensures Calm(w, ExecuteGame(w, c))
  {
    RemoveIsCalm(w, c.sid);
    StillIsCalm(w, w);
    var w' := ExecuteGame(w, c);
    if w' != w {
      if w'.net == w.net {
        StillIsCalm(w, w');
      } else {
        assert w' == w.(net := RequestRemove(w.net, c.sid));
      }
    }
  }

  // ---- the threads that handle packets ----

  /** The queue of pending commands after one admission attempt. */
  ghost predicate Extends(p: seq<LobbyCommand>, q: seq<LobbyCommand>) {
    q == p || (|q| == |p| + 1 && q[..|p|] == p && !q[|p|].Disconnected?)
  }

  lemma SlotsCarry(w: World, w': World)
    requires SlotsExplained(w, NOTHING) && w'.rooms == w.rooms && Extends(Pending(w), Pending(w'))
    requires forall r, i, s | Live(w.rooms, r, i, s) && s in w'.net.sessions
               && !w'.net.sessions[s].retired && w'.net.sessions[s].binding.room == -1 ::
               s in w.net.sessions
               && ((!w.net.sessions[s].retired && w.net.sessions[s].binding.room == -1) || ExitAhead(Pending(w), s, r))
    ensures SlotsExplained(w', NOTHING)
  {
    forall r, i, s | Live(w'.rooms, r, i, s) && s in w'.net.sessions
      && !w'.net.sessions[s].retired && w'.net.sessions[s].binding.room == -1
      ensures ExitAhead(Pending(w'), s, r)
    {
      assert Live(w.rooms, r, i, s);
      ExitAheadGrows(Pending(w), Pending(w'), s, r);
    }
  }

  /** Steps that issue no token and change none. */
  lemma TokensCarry(w: World, w': World)
    requires TokensAgree(w) && TokensDistinct(w) && w'.rooms == w.rooms && w'.issued == w.issued
    requires Extends(Pending(w), Pending(w')) && w.net.sessions.Keys <= w'.net.sessions.Keys
    requires forall s | s in w'.net.sessions ::
               w'.net.sessions[s].token == (if s in w.net.sessions then w.net.sessions[s].token else 0)
    requires forall s, t | Claims(w', s, t) :: Claims(w, s, t)
    ensures TokensAgree(w') && TokensDistinct(w')
  {
    var p, q := Pending(w), Pending(w');
    forall k, r, i | 0 <= k < |q| && q[k].Disconnected? && Live(w'.rooms, r, i, q[k].sid)
      ensures q[k].token == w'.rooms[r].members[i].token
    {
      if q != p { assert q[..|p|][k] == q[k]; }
      assert Live(w.rooms, r, i, p[k].sid);
    }
  }

  lemma LoginReadOrderly(w: World, sid: int, newToken: nat)
    requires WorldOK(w) && Orderly(w) && Enabled(w, LoginReadStep(sid, newToken))
    requires Disciplined(w, LoginReadStep(sid, newToken))
    ensures Orderly(ApplyPacket(w, LoginReadStep(sid, newToken)))
  {
    var w' := ApplyPacket(w, LoginReadStep(sid, newToken));
    assert Pending(w') == Pending(w);
    forall s | s in w'.net.sessions ensures HandlerOK(w', NOTHING, s) {
      assert HandlerOK(w, NOTHING, s);
    }
    LoginReadClaims(w, w', sid, newToken);
  }

  lemma LoginReadClaims(w: World, w': World, sid: int, newToken: nat)
    requires WorldOK(w) && Orderly(w) && Enabled(w, LoginReadStep(sid, newToken))
    requires w' == ApplyPacket(w, LoginReadStep(sid, newToken))
    ensures TokensDistinct(w')
  {
    var t := HandlerOf(w', sid).token;
    forall u, x | Claims(w', u, x) && !(u == sid && x == t) ensures Claims(w, u, x) {}
    if w.net.sessions[sid].token == 0 {
      forall u | u in w.net.sessions ensures !Claims(w, u, newToken) {
        assert HandlerOK(w, NOTHING, u);
      }
    } else {
      assert forall u, x | Claims(w', u, x) :: Claims(w, u, x);
    }
  }

  lemma LoginWriteOrderly(w: World, sid: int)
    requires WorldOK(w) && Orderly(w) && Enabled(w, LoginWriteStep(sid))
    ensures Orderly(ApplyPacket(w, LoginWriteStep(sid)))
  {
    var w' := ApplyPacket(w, LoginWriteStep(sid));
    assert Pending(w') == Pending(w);
    assert HandlerOK(w, NOTHING, sid);
    forall s | s in w'.net.sessions ensures HandlerOK(w', NOTHING, s) {
      assert HandlerOK(w, NOTHING, s);
    }
    forall u, x | Claims(w', u, x) ensures Claims(w, u, x) {}
    forall r, i, s | Live(w'.rooms, r, i, s)
      ensures w'.rooms[r].members[i].token == w'.net.sessions[s].token
    {
      assert Live(w.rooms, r, i, s);
      assert RoomOK(w.rooms[r], w.now) && SlotOK(w.rooms[r].members[i]);
    }
  }

  /** Appending a command from a waiting session. */
  lemma QueueOrderly(w: World, c: LobbyCommand)
    requires WorldOK(w) && Orderly(w) && Enabled(w, LobbyStep(c)) && Disciplined(w, LobbyStep(c))
    ensures Orderly(ApplyPacket(w, LobbyStep(c)))
  {
    var w' := ApplyPacket(w, LobbyStep(c));
    var p, q := Pending(w), Pending(w');
    assert q == p || q == p + [c];
    SlotsCarry(w, w');
    TokensCarry(w, w');
    forall s | s in w'.net.sessions ensures HandlerOK(w', NOTHING, s) {
      assert HandlerOK(w, NOTHING, s);
    }
  }

  lemma ExitReadOrderly(w: World, sid: int)
    requires WorldOK(w) && Orderly(w) && Enabled(w, ExitReadStep(sid)) && Disciplined(w, ExitReadStep(sid))
    ensures Orderly(ApplyPacket(w, ExitReadStep(sid)))
  {
    var w' := ApplyPacket(w, ExitReadStep(sid));
    assert Pending(w') == Pending(w);
    SlotsCarry(w, w');
    TokensCarry(w, w');
    forall x | x in w'.net.sessions ensures HandlerOK(w', NOTHING, x) {
      assert HandlerOK(w, NOTHING, x);
    }
  }

  lemma ExitQueueOrderly(w: World, sid: int)
    requires WorldOK(w) && Orderly(w) && Enabled(w, ExitQueueStep(sid))
    ensures Orderly(ApplyPacket(w, ExitQueueStep(sid)))
  {
    var w' := ApplyPacket(w, ExitQueueStep(sid));
    var p, q := Pending(w), Pending(w');
    assert HandlerOK(w, NOTHING, sid);
    assert q == p || q == p + [Exit(sid, HandlerOf(w, sid).room)];
    SlotsCarry(w, w');
    TokensCarry(w, w');
    forall x | x in w'.net.sessions ensures HandlerOK(w', NOTHING, x) {
      assert HandlerOK(w, NOTHING, x);
    }
  }

  /** A session about to be cleared is on its way out of the slot it is bound to. */
  lemma ExitAlreadyAhead(w: World, sid: int, r: int, i: int)
    requires WorldOK(w) && Orderly(w) && Enabled(w, ExitClearStep(sid))
    requires Live(w.rooms, r, i, sid) && w.net.sessions[sid].binding.room != -1
    ensures ExitAhead(Pending(w), sid, r)
  {
    assert HandlerOK(w, NOTHING, sid);
    var b := w.net.sessions[sid].binding;
    assert Seated(w.rooms, sid, b);
    var k :| 0 <= k < PLAYERNUM && w.rooms[b.room].members[k].sid == sid;
    assert Holds(w.rooms, b.room, k, sid) && Holds(w.rooms, r, i, sid);
  }

  /** Clearing the binding is safe now: the session's Exit from that very room is on its way. */
  lemma ExitClearOrderly(w: World, sid: int)
    requires WorldOK(w) && Orderly(w) && Enabled(w, ExitClearStep(sid))
    ensures Orderly(ApplyPacket(w, ExitClearStep(sid)))
  {
    var w' := ApplyPacket(w, ExitClearStep(sid));
    assert Pending(w') == Pending(w);
    forall r, i | Live(w.rooms, r, i, sid) && w.net.sessions[sid].binding.room != -1
      ensures ExitAhead(Pending(w), sid, r)
    {
      ExitAlreadyAhead(w, sid, r, i);
    }
    SlotsCarry(w, w');
    TokensCarry(w, w');
    forall s | s in w'.net.sessions ensures HandlerOK(w', NOTHING, s) {
      assert HandlerOK(w, NOTHING, s);
    }
  }

  /** Steps of packet threads that touch neither slots, bindings, tokens nor the lobby. */
  lemma AsideOrderly(w: World, w': World)
    requires Orderly(w)
    requires w'.rooms == w.rooms && w'.executed == w.executed && w'.issued == w.issued
    requires w'.didLogin == w.didLogin && w'.didResume == w.didResume && Pending(w') == Pending(w)
    requires w'.net.active == w.net.active && w'.net.sessions.Keys == w.net.sessions.Keys
    requires forall s | s in w.net.sessions ::
               w'.net.sessions[s] == w.net.sessions[s].(pendingIO := w'.net.sessions[s].pendingIO)
    requires w'.handlers.Keys <= w.net.sessions.Keys
    requires forall s :: HandlerOf(w', s) == HandlerOf(w, s) || HandlerOf(w', s) == Waiting || HandlerOf(w', s).GameRead?
    ensures Orderly(w')
  {
    SlotsCarry(w, w');
    TokensCarry(w, w');
    forall s | s in w'.net.sessions ensures HandlerOK(w', NOTHING, s) {
      assert HandlerOK(w, NOTHING, s);
    }
  }

  lemma ActivateOrderly(w: World)
    requires WorldOK(w) && Orderly(w)
    ensures Orderly(w.(net := Activate(w.net)))
  {
    var w' := w.(net := Activate(w.net));
    var sid := w.net.nextSid;
    var p, q := Pending(w), Pending(w');
    assert sid !in w.net.sessions;
    assert q == p || q == p + [SessionConnected(sid)];
    forall r, i ensures !Live(w.rooms, r, i, sid) {
      if 0 <= r < |w.rooms| && 0 <= i < |w.rooms[r].members| {
        assert RoomKnown(w.rooms[r], w.net) && SlotKnown(w.rooms[r].members[i], w.net);
      }
    }
    SlotsCarry(w, w');
    TokensCarry(w, w');
    forall s | s in w'.net.sessions ensures HandlerOK(w', NOTHING, s) {
      if s != sid { assert HandlerOK(w, NOTHING, s); }
    }
  }

  lemma GameCommandOrderly(w: World)
    requires WorldOK(w) && Orderly(w) && w.gameBatch != []
    ensures Orderly(ExecuteGame(PoppedGame(w), w.gameBatch[0]))
  {
    var w1 := PoppedGame(w);
    AsideOrderly(w, w1);
    assert WorldOK(w1);
    GameCommandIsCalm(w1, w.gameBatch[0]);
    CalmStepOrderly(w1, ExecuteGame(w1, w.gameBatch[0]));
  }

  lemma UpdateOrderly(w: World, r: int, g: Geometry)
    requires WorldOK(w) && Orderly(w) && IsValidRoom(r)
    ensures Orderly(UpdateRoom(w, r, g))
  {
    UpdateLoosens(SceneAt(w, r), w.now, g);
    LooseIsCalm(w, r, Update(SceneAt(w, r), w.now, g));
    CalmStepOrderly(w, UpdateRoom(w, r, g));
  }

  lemma DrainOrderly(w: World, s: Step)
    requires WorldOK(w) && Orderly(w) && Enabled(w, s) && (s.DrainLobbyStep? || s.DrainGameStep?)
    ensures Orderly(ApplyOwner(w, s))
  {
    assert Pending(ApplyOwner(w, s)) == Pending(w);
    AsideOrderly(w, ApplyOwner(w, s));
  }

  lemma OwnerKeepsOrder(w: World, s: Step)
    requires WorldOK(w) && Orderly(w) && Enabled(w, s) && ByOwnerThread(s)
    ensures Orderly(ApplyOwner(w, s))
  {
    if s.LobbyCommandStep? {
      LobbyCommandOrderly(w, s.sendFails);
    } else if s.GameCommandStep? {
      GameCommandOrderly(w);
    } else if s.UpdateStep? {
      UpdateOrderly(w, s.room, s.geometry);
    } else {
      DrainOrderly(w, s);
    }
  }

  lemma IOStepOrderly(w: World, s: Step)
    requires WorldOK(w) && Orderly(w) && Enabled(w, s) && (s.BeginIOStep? || s.CompleteIOStep? || s.ShutdownStep?)
    ensures Orderly(w.(net := ApplyManager(w.net, s)))
  {
    AsideOrderly(w, w.(net := ApplyManager(w.net, s)));
  }

  lemma ManagerKeepsOrder(w: World, s: Step)
    requires WorldOK(w) && Orderly(w) && Enabled(w, s) && ByManager(s)
    ensures Orderly(w.(net := ApplyManager(w.net, s)))
  {
    if s.ActivateStep? {
      ActivateOrderly(w);
    } else if s.PublishStep? {
      PublishIsCalm(w, s.sid);
      CalmStepOrderly(w, w.(net := ApplyManager(w.net, s)));
    } else if s.RetireStep? || s.MoveStep? || s.DrainStep? {
      RetireIsCalm(w, if s.DrainStep? then 0 else s.sid);
      CalmStepOrderly(w, w.(net := ApplyManager(w.net, s)));
    } else {
      IOStepOrderly(w, s);
    }
  }

  lemma GamePacketOrderly(w: World, s: Step)
    requires WorldOK(w) && Orderly(w) && Enabled(w, s) && (s.GameReadStep? || s.GameQueueStep?)
    ensures Orderly(ApplyPacket(w, s))
  {
    AsideOrderly(w, ApplyPacket(w, s));
  }

  lemma PacketKeepsOrder(w: World, s: Step)
    requires WorldOK(w) && Orderly(w) && Enabled(w, s) && Disciplined(w, s) && ByPacketThread(s)
    ensures Orderly(ApplyPacket(w, s))
  {
    if s.LoginReadStep? {
      LoginReadOrderly(w, s.sid, s.newToken);
    } else if s.LoginWriteStep? {
      LoginWriteOrderly(w, s.sid);
    } else if s.LobbyStep? {
      QueueOrderly(w, s.command);
    } else if s.ExitReadStep? {
      ExitReadOrderly(w, s.sid);
    } else if s.ExitQueueStep? {
      ExitQueueOrderly(w, s.sid);
    } else if s.ExitClearStep? {
      ExitClearOrderly(w, s.sid);
    } else {
      GamePacketOrderly(w, s);
    }
  }

  /** The inductive step of the discipline. */
  lemma StepKeepsOrder(w: World, s: Step)
    requires WorldOK(w) && Orderly(w) && Enabled(w, s) && Disciplined(w, s)
    ensures Orderly(Apply(w, s))
  {
    if ByPacketThread(s) {
      PacketKeepsOrder(w, s);
    } else if ByManager(s) {
      ManagerKeepsOrder(w, s);
    } else if s.ClockStep? {
      AsideOrderly(w, Apply(w, s));
    } else {
      OwnerKeepsOrder(w, s);
    }
  }

  ghost predicate IsDisciplinedRun(w: World, steps: seq<Step>)
    requires WorldOK(w)
    decreases |steps|
  {
    steps == [] || (Enabled(w, steps[0]) && Disciplined(w, steps[0])
                    && (StepKeepsWorld(w, steps[0]); IsDisciplinedRun(Apply(w, steps[0]), steps[1..])))
  }

  lemma {:induction false} DisciplinedRunsAreRuns(w: World, steps: seq<Step>)
    requires WorldOK(w) && IsDisciplinedRun(w, steps)
    ensures IsRun(w, steps)
    decreases |steps|
  {
    if steps != [] {
      StepKeepsWorld(w, steps[0]);
      DisciplinedRunsAreRuns(Apply(w, steps[0]), steps[1..]);
    }
  }

  lemma {:induction false} RunKeepsOrder(w: World, steps: seq<Step>)
    requires WorldOK(w) && Orderly(w) && IsDisciplinedRun(w, steps)
    ensures IsRun(w, steps) && Orderly(After(w, steps))
    decreases |steps|
  {
    DisciplinedRunsAreRuns(w, steps);
    if steps != [] {
      StepKeepsWorld(w, steps[0]);
      StepKeepsOrder(w, steps[0]);
      RunKeepsOrder(Apply(w, steps[0]), steps[1..]);
    }
  }

  lemma InitialOrderly(lobbyCapacity: nat, gameCapacity: nat)
    ensures Orderly(Initial(lobbyCapacity, gameCapacity))
  {
    var w := Initial(lobbyCapacity, gameCapacity);
    forall r, i, s ensures !Holds(w.rooms, r, i, s) {
      if 0 <= r < |w.rooms| { assert w.rooms[r] == NewRoom(r); }
    }
  }
}
