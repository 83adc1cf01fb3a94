/** Room as an object: its slots, its match, and the sessions it shares with all other rooms. */
module Rooms {
  import opened RoomCommand
  import opened Scheduler
  import opened SessionSpec
  import opened MatchSpec
  import opened RoomSpec
  import opened ServerSessions
  import opened MatchStates

  class Room {
    const sessions: ServerSessionManager
    const matchState: MatchState
    const roomMembers: array<Member>
    const roomNumber: int
    var status: Status
    var nMembers: nat

    constructor (sessions: ServerSessionManager, roomNumber: int, now: int)
      requires sessions.Valid()
      ensures Valid() && fresh(Own()) && this.sessions == sessions && this.roomNumber == roomNumber
      ensures RoomView() == RoomSpec.Room(roomNumber, Empty, 0, seq(PLAYERNUM, i => Member(-1, false, 0, 0, Connected, 0)),
                                          Match(NoGame, 0, seq(PLAYERNUM, i => Player(-1, -1, false, 3, Idle, false, false, STILL, UNPLACED)),
                                                seq(GENCNT, i => COLD), false, 0, [], [], 0, false))
    {
      this.sessions, this.roomNumber := sessions, roomNumber;
      matchState := new MatchState(now);
      roomMembers := new Member[PLAYERNUM](i => Member(-1, false, 0, 0, Connected, 0));
      status, nMembers := Empty, 0;
      new;
      assert roomMembers[..] == seq(PLAYERNUM, i => Member(-1, false, 0, 0, Connected, 0));
    }

    function Number(): int { roomNumber }

    method SetStatus(status: Status)
      requires Valid()
      modifies this
      ensures Valid() && RoomView() == old(RoomView()).(status := status)
    {
      this.status := status;
    }

    ghost function Own(): set<object> {
      {this, roomMembers} + matchState.Repr()
    }

    ghost predicate Valid()
      reads sessions, sessions.Repr
    {
      && roomMembers.Length == PLAYERNUM && matchState.Valid()
      && sessions.Valid() && Own() !! sessions.Repr
    }

    ghost function RoomView(): RoomSpec.Room
      requires roomMembers.Length == PLAYERNUM && matchState.Valid()
      reads Own()
    {
      RoomSpec.Room(roomNumber, status, nMembers, roomMembers[..], matchState.View())
    }

    ghost function View(): (c: Scene)
      requires Valid()
      reads Own(), sessions, sessions.Repr
      ensures |c.room.members| == PLAYERNUM
      ensures |c.room.game.players| == PLAYERNUM && |c.room.game.generators| == GENCNT
    {
      Scene(RoomView(), sessions.View())
    }

    method GetMemberIndex(sid: int, connectedOnly: bool) returns (i: int)
      requires Valid()
      ensures i == if connectedOnly then ConnectedIndex(roomMembers[..], sid) else IndexOf(roomMembers[..], sid)
    {
      i := 0;
      while i < PLAYERNUM
        invariant 0 <= i <= PLAYERNUM
        invariant ConnectedIndex(roomMembers[..], sid) == ConnectedIndex(roomMembers[..], sid, i)
                  || !connectedOnly
        invariant IndexOf(roomMembers[..], sid) == IndexOf(roomMembers[..], sid, i) || connectedOnly
      {
        if roomMembers[i].sid == sid {
          if !connectedOnly || roomMembers[i].connection == Connected { return i; }
        }
        i := i + 1;
      }
      return -1;
    }

    method IsCurrentMemberNow(sid: int, generation: nat) returns (current: bool)
      requires Valid()
      ensures current == IsCurrentMember(roomMembers[..], sid, generation)
    {
      for i := 0 to PLAYERNUM
        invariant forall j | 0 <= j < i :: !(roomMembers[j].sid == sid && roomMembers[j].connection == Connected
                                             && roomMembers[j].generation == generation)
      {
        if roomMembers[i].sid == sid && roomMembers[i].connection == Connected && roomMembers[i].generation == generation {
          assert roomMembers[..][i] == roomMembers[i];
          return true;
        }
      }
      return false;
    }

    method IsLeaseCurrent(sid: int, lease: MatchLease) returns (current: bool)
      requires Valid()
      ensures current == IsCurrentLease(RoomView(), sid, lease)
    {
      if status != InGame || matchState.state != Playing { return false; }
      if lease.matchGeneration == 0 || lease.matchGeneration != matchState.generation { return false; }
      current := IsCurrentMemberNow(sid, lease.memberGeneration);
    }

    method VacateEverySlot()
      requires Valid()
      modifies roomMembers
      ensures roomMembers[..] == VacateAll(old(roomMembers[..]))
    {
      for i := 0 to PLAYERNUM
        invariant forall j | 0 <= j < i :: roomMembers[j] == Vacated(old(roomMembers[j]))
        invariant forall j | i <= j < PLAYERNUM :: roomMembers[j] == old(roomMembers[j])
      {
        roomMembers[i] := Vacated(roomMembers[i]);
      }
    }

    method MemberSids() returns (sids: seq<int>)
      requires Valid()
      ensures sids == Sids(roomMembers[..])
    {
      sids := [];
      for i := 0 to PLAYERNUM
        invariant |sids| == i && forall j | 0 <= j < i :: sids[j] == roomMembers[j].sid
      {
        sids := sids + [roomMembers[i].sid];
      }
    }

    method ClearBindings(sids: seq<int>)
      requires Valid()
      modifies sessions.Repr
      ensures Valid() && sessions.Repr == old(sessions.Repr) && sessions.known == old(sessions.known)
      ensures View() == old(View()).(net := ClearEach(old(View()).net, sids))
    {
      for i := 0 to |sids|
        invariant Valid() && sessions.Repr == old(sessions.Repr) && sessions.known == old(sessions.known)
        invariant RoomView() == old(RoomView())
        invariant ClearEach(sessions.View(), sids[i..]) == ClearEach(old(sessions.View()), sids)
      {
        assert sids[i..][1..] == sids[i + 1..];
        sessions.ClearBindingOf(sids[i]);
      }
    }

    /** The part of UserOut under the list lock: the slot's stay ends. */
    method RemoveMember(sid: int) returns (removed: bool)
      requires Valid()
      modifies this, roomMembers
      ensures removed == (IndexOf(old(roomMembers[..]), sid) >= 0)
      ensures RoomView() == if removed then Remove(old(RoomView()), IndexOf(old(roomMembers[..]), sid)) else old(RoomView())
    {
      var i := GetMemberIndex(sid, false);
      if i < 0 { return false; }
      roomMembers[i] := Vacated(roomMembers[i]);
      if nMembers > 0 { nMembers := nMembers - 1; }
      return true;
    }

    /** The match is over: every slot ends its stay, and every member's session is unbound. */
    method Disband()
      requires Valid()
      modifies this, roomMembers, sessions.Repr
      ensures Valid() && sessions.Repr == old(sessions.Repr) && sessions.known == old(sessions.known)
      ensures var c := old(View());
              View() == Scene(c.room.(members := VacateAll(c.room.members), count := 0, status := Empty),
                              ClearEach(c.net, Sids(c.room.members)))
    {
      var sids := MemberSids();
      VacateEverySlot();
      nMembers := 0;
      status := Empty;
      ClearBindings(sids);
    }

    method LeaveMatch(sid: int)
      requires Valid()
      modifies Own(), sessions.Repr
      ensures Valid() && sessions.Repr == old(sessions.Repr) && sessions.known == old(sessions.known)
      ensures View() == LeaveGame(old(View()), sid)
    {
      var departure := matchState.OnPlayerLeft(sid);
      if departure == EndMatch { Disband(); }
    }

    method LeaveWaitingRoom()
      requires Valid()
      modifies this, roomMembers
      ensures RoomView() == LeaveLobby(old(RoomView()))
    {
      if status == Full { status := NotFull; }
      if nMembers == 0 {
        status := Empty;
        VacateEverySlot();
      }
    }

    method UserOut(sid: int)
      requires Valid()
      modifies Own(), sessions.Repr
      ensures Valid() && sessions.Repr == old(sessions.Repr) && sessions.known == old(sessions.known)
      ensures View() == RoomSpec.UserOut(old(View()), sid)
    {
      var removed := RemoveMember(sid);
      if !removed { return; }
      sessions.ClearBindingOf(sid);
      if status == InGame {
        LeaveMatch(sid);
      } else {
        LeaveWaitingRoom();
      }
    }

    method OnTransportDisconnected(sid: int, resumeToken: nat, now: int)
      requires Valid()
      modifies Own(), sessions.Repr
      ensures Valid() && sessions.Repr == old(sessions.Repr) && sessions.known == old(sessions.known)
      ensures View() == TransportDisconnected(old(View()), sid, resumeToken, now)
    {
      var i := GetMemberIndex(sid, false);
      if i < 0 { return; }
      if status != InGame || i == 0 || resumeToken == 0 {
        UserOut(sid);
        return;
      }
      if roomMembers[i].connection == Reconnecting { return; }
      if roomMembers[i].token != resumeToken { return; }
      roomMembers[i] := roomMembers[i].(connection := Reconnecting);
      roomMembers[i] := roomMembers[i].(deadline := now + GRACE_PERIOD);
      roomMembers[i] := roomMembers[i].(generation := roomMembers[i].generation + 1);
      assert roomMembers[..] == old(roomMembers[..])[i := Dropped(old(roomMembers[i]), now)];
      matchState.PausePlayer(sid);
    }

    method FillSlot(k: nat, m: Member)
      requires Valid() && k < PLAYERNUM
      modifies this, roomMembers
      ensures var r := old(RoomView());
              RoomView() == r.(members := r.members[k := m], count := r.count + 1,
                               status := if r.count + 1 == PLAYERNUM then Full else r.status)
    {
      roomMembers[k] := m;
      nMembers := nMembers + 1;
      if nMembers == PLAYERNUM { status := Full; }
    }

    /** The session takes slot `k`, unless it has been retired meanwhile. */
    method Join(session: ServerSession, sid: int, k: nat) returns (bound: bool)
      requires Valid() && k < PLAYERNUM && sid in sessions.known && sessions.known[sid] == session
      modifies this, roomMembers, session
      ensures Valid() && sessions.Repr == old(sessions.Repr) && sessions.known == old(sessions.known)
      ensures bound == !old(session.retired)
      ensures !bound ==> View() == old(View())
      ensures var c := old(View());
              var m := Member(sid, false, old(session.resumeToken), c.room.members[k].generation + 1, Connected, 0);
              bound ==> View() == Scene(c.room.(members := c.room.members[k := m], count := c.room.count + 1,
                                                status := if c.room.count + 1 == PLAYERNUM then Full else c.room.status),
                                        Bound(c.net, sid, GameBinding(roomNumber, MatchLease(m.generation, 0))))
    {
      var token := session.resumeToken;
      var nextGeneration := roomMembers[k].generation + 1;
      bound := sessions.BindRoomOf(session, sid, roomNumber, nextGeneration, 0);
      if bound { FillSlot(k, Member(sid, false, token, nextGeneration, Connected, 0)); }
    }

    method UserIn(sid: int) returns (entered: bool)
      requires Valid()
      modifies Own(), sessions.Repr
      ensures Valid() && sessions.Repr == old(sessions.Repr) && sessions.known == old(sessions.known)
      ensures entered == CanEnter(old(View()), sid) && View() == RoomSpec.UserIn(old(View()), sid)
    {
      var session := sessions.FindSession(sid);
      if session == null || session.resumeToken == 0 { return false; }
      if status != NotFull { return false; }
      var k := GetMemberIndex(-1, false);
      assert k == FreeIndex(View().room.members);
      if k < 0 { return false; }
      entered := Join(session, sid, k);
    }

    /** The slot, other than the boss's, that holds this resume token. */
    method TokenSlot(token: nat) returns (i: int)
      requires Valid()
      ensures i == TokenIndex(roomMembers[..], token)
    {
      i := 1;
      while i < PLAYERNUM
        invariant 1 <= i <= PLAYERNUM
        invariant TokenIndex(roomMembers[..], token) == TokenIndex(roomMembers[..], token, i)
      {
        if roomMembers[i].token == token { return i; }
        i := i + 1;
      }
      return -1;
    }

    /** The owner replaces a session that is still connected under the slot's old sid. */
    method ReplaceSession(oldSid: int)
      requires Valid()
      modifies sessions.Repr
      ensures Valid() && sessions.Repr == old(sessions.Repr) && sessions.known == old(sessions.known)
      ensures var c := old(View());
              View() == if Found(c.net, oldSid) then c.(net := RequestRemove(ClearFound(c.net, oldSid), oldSid)) else c
    {
      var oldSession := sessions.FindSession(oldSid);
      if oldSession == null { return; }
      sessions.ClearBindingOf(oldSid);
      sessions.RequestRemoveSession(oldSid);
    }

    method TakeOver(i: nat, newSid: int)
      requires Valid() && i < PLAYERNUM
      modifies roomMembers, matchState.players
      ensures var r := old(RoomView());
              RoomView() == r.(members := r.members[i := Taken(r.members[i], newSid)], game := Rebind(r.game, newSid, i))
    {
      var nextGeneration := roomMembers[i].generation + 1;
      roomMembers[i] := roomMembers[i].(sid := newSid, connection := Connected, deadline := 0);
      roomMembers[i] := roomMembers[i].(generation := nextGeneration);
      matchState.RebindPlayer(newSid, i);
    }

    /** The session's half of a resume: it is bound to the running match, and its token is the slot's. */
    method Rejoin(session: ServerSession, ghost newSid: int, generation: nat, resumeToken: nat)
      requires Valid() && newSid in sessions.known && sessions.known[newSid] == session && !session.retired
      modifies session
      ensures Valid() && sessions.Repr == old(sessions.Repr) && sessions.known == old(sessions.known)
      ensures var b := GameBinding(roomNumber, MatchLease(generation, old(RoomView()).game.generation));
              View() == old(View()).(net := SetToken(Bound(old(View()).net, newSid, b), newSid, resumeToken))
    {
      var bound := sessions.BindRoomOf(session, newSid, roomNumber, generation, matchState.generation);
      sessions.SetTokenOf(session, newSid, resumeToken);
    }

    method Return(session: ServerSession, newSid: int, resumeToken: nat, i: nat)
      requires Valid() && newSid in sessions.known && sessions.known[newSid] == session && !session.retired
      requires i < PLAYERNUM
      modifies roomMembers, matchState.players, session
      ensures Valid() && sessions.Repr == old(sessions.Repr) && sessions.known == old(sessions.known)
      ensures var c := old(View());
              var b := GameBinding(roomNumber, MatchLease(c.room.members[i].generation + 1, c.room.game.generation));
              View() == Scene(c.room.(members := c.room.members[i := Taken(c.room.members[i], newSid)],
                                      game := Rebind(c.room.game, newSid, i)),
                              SetToken(Bound(c.net, newSid, b), newSid, resumeToken))
    {
      Rejoin(session, newSid, roomMembers[i].generation + 1, resumeToken);
      TakeOver(i, newSid);
    }

    /** The session and the slot that a resume would bind to each other; no slot if it is refused. */
    method FindReturn(newSid: int, resumeToken: nat, now: int) returns (session: ServerSession?, i: int)
      requires Valid()
      ensures i >= 0 <==> CanResume(View(), newSid, resumeToken, now)
      ensures i >= 0 ==> i == TokenIndex(roomMembers[..], resumeToken)
      ensures i >= 0 ==> newSid in sessions.known && sessions.known[newSid] == session && !session.retired
    {
      session := sessions.FindSession(newSid);
      if session == null || session.gameBinding.room != -1 || status != InGame { return session, -1; }
      i := TokenSlot(resumeToken);
      if i < 0 { return session, -1; }
      if roomMembers[i].connection == Reconnecting && now >= roomMembers[i].deadline { return session, -1; }
      if session.retired { return session, -1; }
    }

    lemma ResumeInTwo(c: Scene, c1: Scene, sid: int, token: nat, now: int)
      requires CanResume(c, sid, token, now) && |c.room.game.players| == |c.room.members|
      requires var i := TokenIndex(c.room.members, token);
               var b := GameBinding(c.room.number, MatchLease(c.room.members[i].generation + 1, c.room.game.generation));
               c1 == Scene(c.room.(members := c.room.members[i := Taken(c.room.members[i], sid)],
                                   game := Rebind(c.room.game, sid, i)),
                           SetToken(Bound(c.net, sid, b), sid, token))
      ensures var m := c.room.members[TokenIndex(c.room.members, token)];
              RoomSpec.ResumeUser(c, sid, token, now)
              == c1.(net := if m.connection == Connected && m.sid != sid && Found(c1.net, m.sid)
                            then RequestRemove(ClearFound(c1.net, m.sid), m.sid) else c1.net)
    {
    }

    method ResumeUser(newSid: int, resumeToken: nat, now: int) returns (resumed: bool)
      requires Valid()
      modifies Own(), sessions.Repr
      ensures Valid() && sessions.Repr == old(sessions.Repr) && sessions.known == old(sessions.known)
      ensures resumed == CanResume(old(View()), newSid, resumeToken, now)
      ensures View() == RoomSpec.ResumeUser(old(View()), newSid, resumeToken, now)
    {
      ghost var c := View();
      var session, i := FindReturn(newSid, resumeToken, now);
      if i < 0 { return false; }
      var m := roomMembers[i];
      Return(session, newSid, resumeToken, i);
      ResumeInTwo(c, View(), newSid, resumeToken, now);
      if m.connection == Connected && m.sid != newSid { ReplaceSession(m.sid); }
      return true;
    }

    method UserOutAll(sids: seq<int>)
      requires Valid()
      modifies Own(), sessions.Repr
      ensures Valid() && sessions.Repr == old(sessions.Repr) && sessions.known == old(sessions.known)
      ensures View() == UserOutEach(old(View()), sids)
    {
      for i := 0 to |sids|
        invariant Valid() && sessions.Repr == old(sessions.Repr) && sessions.known == old(sessions.known)
        invariant UserOutEach(View(), sids[i..]) == UserOutEach(old(View()), sids)
      {
        assert sids[i..][0] == sids[i] && sids[i..][1..] == sids[i + 1..];
        if sids[i] != -1 { UserOut(sids[i]); }
      }
    }

    method ExpiredSids(now: int) returns (expired: seq<int>)
      requires Valid()
      ensures expired == Expired(roomMembers[..], now)
    {
      expired := [];
      ghost var all := roomMembers[..];
      for i := 0 to PLAYERNUM
        invariant expired + Expired(all[i..], now) == Expired(all, now)
      {
        ghost var rest := all[i..];
        assert rest[0] == roomMembers[i] && rest[1..] == all[i + 1..];
        if roomMembers[i].connection == Reconnecting && now >= roomMembers[i].deadline {
          expired := expired + [roomMembers[i].sid];
        }
      }
      assert all[PLAYERNUM..] == [];
    }

    method ExpireReconnects(now: int)
      requires Valid()
      modifies Own(), sessions.Repr
      ensures Valid() && sessions.Repr == old(sessions.Repr) && sessions.known == old(sessions.known)
      ensures View() == RoomSpec.ExpireReconnects(old(View()), now)
    {
      var expired := ExpiredSids(now);
      UserOutAll(expired);
    }

    method TryUpdateReady(sid: int, ready: bool) returns (updated: bool)
      requires Valid()
      modifies roomMembers
      ensures updated == CanSetReady(old(RoomView()), sid)
      ensures RoomView() == SetReadyFlag(old(RoomView()), sid, ready)
    {
      if status != NotFull && status != Full { return false; }
      var i := GetMemberIndex(sid, true);
      if i < 0 { return false; }
      roomMembers[i] := roomMembers[i].(ready := ready);
      return true;
    }

    method IsGameStartAvailable() returns (available: bool)
      requires Valid()
      ensures available == AllReady(roomMembers[..])
    {
      var cnt := 0;
      for i := 0 to PLAYERNUM
        invariant 0 <= cnt <= i
        invariant cnt == i <==> forall j | 0 <= j < i :: roomMembers[j].ready
      {
        if roomMembers[i].ready { cnt := cnt + 1; }
      }
      available := cnt == PLAYERNUM;
      assert roomMembers[..] == roomMembers[..PLAYERNUM];
    }

    method ClearReadyFlags()
      requires Valid()
      modifies roomMembers
      ensures roomMembers[..] == Unreadied(old(roomMembers[..]))
    {
      for i := 0 to PLAYERNUM
        invariant forall j | 0 <= j < i :: roomMembers[j] == old(roomMembers[j]).(ready := false)
        invariant forall j | i <= j < PLAYERNUM :: roomMembers[j] == old(roomMembers[j])
      {
        roomMembers[i] := roomMembers[i].(ready := false);
      }
    }

    method BindMatches(sids: seq<int>, generation: nat)
      requires Valid()
      modifies sessions.Repr
      ensures Valid() && sessions.Repr == old(sessions.Repr) && sessions.known == old(sessions.known)
      ensures View() == old(View()).(net := BindMatchEach(old(View()).net, sids, generation))
    {
      for i := 0 to |sids|
        invariant Valid() && sessions.Repr == old(sessions.Repr) && sessions.known == old(sessions.known)
        invariant RoomView() == old(RoomView())
        invariant BindMatchEach(sessions.View(), sids[i..], generation) == BindMatchEach(old(sessions.View()), sids, generation)
      {
        assert sids[i..][0] == sids[i] && sids[i..][1..] == sids[i + 1..];
        sessions.BindMatchOf(sids[i], generation);
      }
    }

    method StartMatch(playerSids: seq<int>) returns (generation: nat)
      requires Valid() && playerSids == Sids(roomMembers[..])
      modifies Own()
      ensures var r := old(RoomView());
              && RoomView() == r.(members := Unreadied(r.members), game := MatchSpec.Start(r.game, playerSids), status := InGame)
              && generation == RoomView().game.generation
    {
      ClearReadyFlags();
      generation := matchState.Start(playerSids);
      status := InGame;
    }

    method InitGame()
      requires Valid()
      modifies Own(), sessions.Repr
      ensures Valid() && sessions.Repr == old(sessions.Repr) && sessions.known == old(sessions.known)
      ensures View() == RoomSpec.InitGame(old(View()))
    {
      var available := IsGameStartAvailable();
      if !available { return; }
      var playerSids := MemberSids();
      var generation := StartMatch(playerSids);
      BindMatches(playerSids, generation);
    }

    /** DoTasks: the due events in order, each only if its lease is still current. */
    method DoTasks(now: int, g: Geometry)
      requires Valid()
      modifies matchState.Repr()
      ensures RoomView() == RunDue(old(RoomView()), now, g)
    {
      matchState.jobQueue.BeginTasks(now);
      while true
        invariant matchState.jobQueue.currentTick == now
        invariant RunDue(RoomView(), now, g) == RunDue(old(RoomView()), now, g)
        decreases |matchState.jobQueue.taskQueue|
      {
        var due := matchState.jobQueue.PopDue();
        if due == [] { break; }
        var e := due[0].task;
        var current := IsLeaseCurrent(e.sid, e.lease);
        if current { matchState.Task(e.sid, e.kind, g); }
      }
    }

    method Tick(now: int, g: Geometry) returns (broadcast: bool)
      requires Valid()
      modifies matchState.Repr()
      ensures RoomView() == RoomSpec.Tick(old(RoomView()), now, g)
    {
      if matchState.state == Playing { DoTasks(now, g); }
      broadcast := matchState.FinishTick(g);
    }

    method CloseMatch()
      requires Valid()
      modifies Own(), sessions.Repr
      ensures Valid() && sessions.Repr == old(sessions.Repr) && sessions.known == old(sessions.known)
      ensures View() == Close(old(View()))
    {
      ghost var c := View();
      SetStatus(Full);
      var sids := MemberSids();
      UserOutAll(sids);
      assert View() == UserOutEach(c.(room := c.room.(status := Full)), Sids(c.room.members));
      matchState.Reset();
    }

    method Update(now: int, g: Geometry)
      requires Valid()
      modifies Own(), sessions.Repr
      ensures Valid() && sessions.Repr == old(sessions.Repr) && sessions.known == old(sessions.known)
      ensures View() == RoomSpec.Update(old(View()), now, g)
    {
      if status != InGame { return; }
      ExpireReconnects(now);
      if status != InGame { return; }
      var broadcast := Tick(now, g);
      if matchState.state == EmpWin || matchState.state == BossWin { CloseMatch(); }
    }

    method AddEvent(event: GameEvent, now: int)
      requires Valid()
      modifies matchState.Repr()
      ensures RoomView() == if IsCurrentLease(old(RoomView()), event.sid, event.lease)
                            then old(RoomView()).(game := Schedule(old(RoomView()).game, now, event.sid, event.lease, event.kind))
                            else old(RoomView())
    {
      var current := IsLeaseCurrent(event.sid, event.lease);
      if current { matchState.AddEvent(event, now); }
    }

    method ProcessGamePacket(command: GameCommand, now: int)
      requires Valid()
      modifies Own(), sessions.Repr
      ensures Valid() && sessions.Repr == old(sessions.Repr) && sessions.known == old(sessions.known)
      ensures View() == RoomSpec.ProcessGamePacket(old(View()), command, now)
    {
      var current := IsLeaseCurrent(command.sid, command.lease);
      if !current { return; }
      match command.packet {
        case KeyPacket(keys, dir) => AddEvent(GameEvent(command.sid, command.lease, Movement(keys, dir)), now);
        case AttackPacket(target, frame) =>
          if target < 0 || target >= PLAYERNUM {
            sessions.RequestRemoveSession(command.sid);
          } else {
            AddEvent(GameEvent(command.sid, command.lease, Attack(target, frame)), now);
          }
        case EventPacket(eventId) => AddEvent(GameEvent(command.sid, command.lease, Interaction(eventId)), now);
        case Other =>
      }
    }
  }
}
