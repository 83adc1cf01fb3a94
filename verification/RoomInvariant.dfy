/** What every room keeps at every owner-command boundary, whatever the clients do. */
module RoomInvariant {
  import opened RoomCommand
  import opened SessionSpec
  import opened Scheduler
  import opened MatchSpec
  import opened WorldRewinder
  import opened RoomSpec
  import opened Protocol

  predicate Filled(m: Member) {
    m.sid != -1
  }

  function One(m: Member): nat {
    if Filled(m) then 1 else 0
  }

  function Occupied(ms: seq<Member>): nat
    requires |ms| == PLAYERNUM
  {
    One(ms[0]) + One(ms[1]) + One(ms[2]) + One(ms[3])
  }

  ghost predicate SlotOK(m: Member) {
    if Filled(m) then 0 <= m.sid && m.token != 0
    else m.token == 0 && !m.ready && m.connection == Connected
  }

  /** Nothing is left of whom the player was, nor of what happened to it, except a rescue flag and where it stands. */
  predicate Blank(p: Player) {
    p == PlacedAt(Fresh(p), p.body.pos, p.body.height)
  }

  /** A match nobody is playing has nothing left over from the previous one (rescue flags excepted). */
  ghost predicate Pristine(m: Match) {
    && m.state == NoGame && !m.exitReady && m.queue == [] && m.history == [] && m.phase == 0
    && (forall i | 0 <= i < |m.players| :: Blank(m.players[i]))
    && (forall k | 0 <= k < |m.generators| :: m.generators[k] == COLD)
  }

  /** A match that has been reset: pristine, with everybody back at the start. */
  ghost predicate Restored(m: Match) {
    Pristine(m) && forall i | 0 <= i < |m.players| :: m.players[i].body == Body(Spawn(i), 0.25, AHEAD)
  }

  /** One picture per tick of the match, numbered from 1 on by a 32-bit counter. */
  ghost predicate Chronicle(history: seq<Entry>) {
    forall k | 0 <= k < |history| ::
      history[k].frame == (k + 1) % UINT32 && history[k].status.frame == (k + 1) % UINT32
  }

  /** Pop order, with every event already due, numbered, and leased to the match being played. */
  ghost predicate QueueOK(m: Match, now: int) {
    && (forall i | 0 <= i < |m.queue| ::
          m.queue[i].time <= now && m.queue[i].sequence < m.nextSequence && m.queue[i].task.sid >= 0
          && m.queue[i].task.lease.matchGeneration == m.generation)
    && (forall i, j | 0 <= i < j < |m.queue| :: Before(m.queue[i], m.queue[j]))
  }

  /** Room and match agree while a match is on. */
  ghost predicate Coupled(r: Room)
    requires RoomShaped(r)
  {
    && r.game.state == Playing && r.game.generation != 0
    && Filled(r.members[0]) && r.members[0].connection == Connected
    && (forall i | 0 <= i < PLAYERNUM :: r.game.players[i].idx == i)
    && (forall i | 0 <= i < PLAYERNUM && Filled(r.members[i]) :: r.game.players[i].sid == r.members[i].sid)
    && (r.game.exitReady ==> AllActive(r.game.generators))
    && Chronicle(r.game.history)
  }

  ghost predicate Idling(r: Room)
    requires RoomShaped(r)
  {
    && Pristine(r.game)
    && (forall i | 0 <= i < PLAYERNUM :: r.members[i].connection == Connected)
    && (r.status == Empty <==> r.count == 0)
    && (r.status == Full <==> r.count == PLAYERNUM)
  }

  ghost predicate SlotsOK(r: Room)
    requires RoomShaped(r)
  {
    && (forall i | 0 <= i < PLAYERNUM :: SlotOK(r.members[i]))
    && r.count == Occupied(r.members)
  }

  ghost predicate RoomOK(r: Room, now: int) {
    && RoomShaped(r)
    && SlotsOK(r)
    && !r.game.faulted
    && (if r.status == InGame then Coupled(r) && QueueOK(r.game, now) else Idling(r))
  }

  /** A slot's generation is a version stamp of its occupant and connection. */
  ghost predicate Stamped(a: Member, b: Member) {
    && a.generation <= b.generation
    && (a.generation == b.generation ==> a.sid == b.sid && a.token == b.token && a.connection == b.connection)
  }

  /** Stamps of all slots, and of the match: a match that is over never runs again. */
  ghost predicate Succeeds(a: Room, b: Room) {
    && RoomShaped(a) && RoomShaped(b) && a.number == b.number
    && (forall i | 0 <= i < PLAYERNUM :: Stamped(a.members[i], b.members[i]))
    && a.game.generation <= b.game.generation
    && (b.game.generation == a.game.generation && b.game.state == Playing ==> a.game.state == Playing)
  }

  lemma SucceedsTransitive(a: Room, b: Room, c: Room)
    requires Succeeds(a, b) && Succeeds(b, c)
    ensures Succeeds(a, c)
  {
    forall i | 0 <= i < PLAYERNUM ensures Stamped(a.members[i], c.members[i]) {
      assert Stamped(a.members[i], b.members[i]) && Stamped(b.members[i], c.members[i]);
    }
  }

  // ---- leaving ----

  lemma OccupiedAfter(ms: seq<Member>, i: int, m: Member)
    requires |ms| == PLAYERNUM && 0 <= i < PLAYERNUM
    ensures Occupied(ms[i := m]) == Occupied(ms) - One(ms[i]) + One(m)
  {
  }

  /** In a coupled room the departing player is found, and it is the boss exactly when slot 0 leaves. */
  lemma PlayerLeftCoupled(r: Room, i: int)
    requires RoomShaped(r) && Coupled(r) && 0 <= i < PLAYERNUM && Filled(r.members[i])
    requires forall k | 0 <= k < i :: r.members[k].sid != r.members[i].sid
    ensures var (m, d) := PlayerLeft(r.game, r.members[i].sid);
            && m.faulted == r.game.faulted && m.generation == r.game.generation
            && (i == 0 ==> d == EndMatch && (!r.game.faulted ==> Restored(m)))
            && (i != 0 ==> d == HidePlayer && m == r.game.(players := m.players)
                           && |m.players| == |r.game.players|
                           && forall k | 0 <= k < PLAYERNUM ::
                                m.players[k].sid == r.game.players[k].sid && m.players[k].idx == k)
  {
    var sid := r.members[i].sid;
    assert r.game.players[i].sid == sid;
    var j := FindPlayer(r.game.players, sid);
    assert 0 <= j <= i;
    if i != 0 {
      assert r.game.players[0].sid == r.members[0].sid;
      assert j != 0;
    }
  }

  lemma LeaveLobbyKeepsRoom(c: Scene, sid: int, i: int, now: int)
    requires RoomOK(c.room, now) && c.room.status != InGame && sid != -1 && i == IndexOf(c.room.members, sid) >= 0
    ensures RoomOK(UserOut(c, sid).room, now) && Succeeds(c.room, UserOut(c, sid).room)
  {
    OccupiedAfter(c.room.members, i, Vacated(c.room.members[i]));
  }

  lemma LeaveGameKeepsRoom(c: Scene, sid: int, i: int, now: int)
    requires RoomOK(c.room, now) && c.room.status == InGame && sid != -1 && i == IndexOf(c.room.members, sid) >= 0
    ensures RoomOK(UserOut(c, sid).room, now) && Succeeds(c.room, UserOut(c, sid).room)
  {
    OccupiedAfter(c.room.members, i, Vacated(c.room.members[i]));
    PlayerLeftCoupled(c.room, i);
  }

  lemma UserOutKeepsRoom(c: Scene, sid: int, now: int)
    requires RoomOK(c.room, now) && sid != -1
    ensures RoomOK(UserOut(c, sid).room, now)
    ensures Succeeds(c.room, UserOut(c, sid).room)
  {
    var i := IndexOf(c.room.members, sid);
    if i >= 0 {
      if c.room.status == InGame { LeaveGameKeepsRoom(c, sid, i, now); } else { LeaveLobbyKeepsRoom(c, sid, i, now); }
    }
  }

  lemma {:induction false} UserOutEachKeepsRoom(c: Scene, sids: seq<int>, now: int)
    requires RoomOK(c.room, now)
    ensures RoomOK(UserOutEach(c, sids).room, now)
    ensures Succeeds(c.room, UserOutEach(c, sids).room)
    decreases |sids|
  {
    if sids != [] {
      var c' := if sids[0] != -1 then UserOut(c, sids[0]) else c;
      if sids[0] != -1 { UserOutKeepsRoom(c, sids[0], now); }
      UserOutEachKeepsRoom(c', sids[1..], now);
      SucceedsTransitive(c.room, c'.room, UserOutEach(c, sids).room);
    }
  }

  lemma DisconnectKeepsRoom(c: Scene, sid: int, token: nat, now: int)
    requires RoomOK(c.room, now) && sid != -1
    ensures RoomOK(TransportDisconnected(c, sid, token, now).room, now)
    ensures Succeeds(c.room, TransportDisconnected(c, sid, token, now).room)
  {
    var i := IndexOf(c.room.members, sid);
    if i < 0 || c.room.status != InGame || i == 0 || token == 0 {
      UserOutKeepsRoom(c, sid, now);
    } else {
      DropKeepsRoom(c.room, i, now);
    }
  }

  lemma DropKeepsRoom(r: Room, i: int, now: int)
    requires RoomOK(r, now) && r.status == InGame && 0 < i < PLAYERNUM && Filled(r.members[i])
    ensures var r' := r.(members := r.members[i := Dropped(r.members[i], now)], game := Pause(r.game, r.members[i].sid));
            RoomOK(r', now) && Succeeds(r, r')
  {
    assert r.game.players[i].sid == r.members[i].sid;
    assert FindPlayer(r.game.players, r.members[i].sid) >= 0;
  }

  // ---- arriving ----

  lemma UserInKeepsRoom(c: Scene, sid: int, now: int)
    requires RoomOK(c.room, now) || (RoomOK(c.room.(status := Empty), now) && c.room.status == NotFull)
    requires 0 <= sid
    ensures CanEnter(c, sid) ==> RoomOK(UserIn(c, sid).room, now)
    ensures Succeeds(c.room, UserIn(c, sid).room)
  {
    if CanEnter(c, sid) {
      var i := FreeIndex(c.room.members);
      OccupiedAfter(c.room.members, i, UserIn(c, sid).room.members[i]);
    }
  }

  lemma ResumeKeepsRoom(c: Scene, sid: int, token: nat, now: int)
    requires RoomOK(c.room, now) && 0 <= sid && token != 0
    ensures RoomOK(ResumeUser(c, sid, token, now).room, now)
    ensures Succeeds(c.room, ResumeUser(c, sid, token, now).room)
  {
    if CanResume(c, sid, token, now) {
      var i := TokenIndex(c.room.members, token);
      OccupiedAfter(c.room.members, i, Taken(c.room.members[i], sid));
    }
  }

  // ---- starting ----

  lemma SetReadyKeepsRoom(c: Scene, sid: int, ready: bool, now: int)
    requires RoomOK(c.room, now) && sid != -1
    ensures RoomOK(SetReadyFlag(c.room, sid, ready), now)
    ensures Succeeds(c.room, SetReadyFlag(c.room, sid, ready))
  {
    if CanSetReady(c.room, sid) {
      var i := ConnectedIndex(c.room.members, sid);
      OccupiedAfter(c.room.members, i, c.room.members[i].(ready := ready));
    }
  }

  /** A match starts only with four occupied, ready slots, and then room and match are coupled. */
  lemma InitGameKeepsRoom(c: Scene, now: int)
    requires RoomOK(c.room, now) && (c.room.status == Full || c.room.status == NotFull)
    ensures RoomOK(InitGame(c).room, now)
    ensures Succeeds(c.room, InitGame(c).room)
    ensures InitGame(c).room.status == InGame ==>
              c.room.count == PLAYERNUM && forall i | 0 <= i < PLAYERNUM ::
                Filled(c.room.members[i]) && c.room.members[i].ready
  {
    if AllReady(c.room.members) {
      forall i | 0 <= i < PLAYERNUM ensures Filled(c.room.members[i]) {
        assert SlotOK(c.room.members[i]);
      }
      var r := InitGame(c).room;
      forall i | 0 <= i < PLAYERNUM ensures SlotOK(r.members[i]) {
        assert SlotOK(c.room.members[i]);
      }
    }
  }

  // ---- playing ----

  /** The part of a match that queued events never touch. */
  ghost predicate SameFrame(a: Match, b: Match) {
    && a.(players := b.players, generators := b.generators) == b
    && |a.players| == |b.players| && |a.generators| == |b.generators|
    && (forall k | 0 <= k < |a.players| :: a.players[k].sid == b.players[k].sid && a.players[k].idx == b.players[k].idx)
    && (forall k | 0 <= k < |a.generators| :: a.generators[k].active ==> b.generators[k].active)
  }

  lemma EffectKeepsMatch(m: Match, sid: int, kind: EventKind, g: Geometry)
    requires |m.players| == PLAYERNUM && |m.generators| == GENCNT
    requires FindPlayer(m.players, sid) >= 0
    ensures SameFrame(m, Effect(m, sid, kind, g))
  {
    if kind.Interaction? { InteractionKeepsMatch(m, sid, kind.eventId, g); }
  }

  lemma InteractionKeepsMatch(m: Match, sid: int, eventId: int, g: Geometry)
    requires |m.players| == PLAYERNUM && |m.generators| == GENCNT
    requires FindPlayer(m.players, sid) >= 0
    ensures SameFrame(m, InteractionEffect(m, sid, eventId, g))
  {
  }

  /** The player whose lease is current is one of the match's players, so no lookup can throw. */
  lemma CurrentLeaseFindsPlayer(r: Room, sid: int, lease: MatchLease)
    requires RoomShaped(r) && Coupled(r) && sid != -1 && IsCurrentLease(r, sid, lease)
    ensures FindPlayer(r.game.players, sid) >= 0
  {
    var i :| 0 <= i < |r.members| && r.members[i].sid == sid && r.members[i].connection == Connected
             && r.members[i].generation == lease.memberGeneration;
    assert r.game.players[i].sid == sid;
  }

  /** Running the due events empties the queue, and changes only players and generators. */
  lemma {:induction false} RunDueKeepsRoom(r: Room, now: int, g: Geometry)
    requires RoomOK(r, now) && r.status == InGame
    ensures var r' := RunDue(r, now, g);
            && RoomOK(r', now) && r'.game.queue == []
            && r' == r.(game := r'.game) && SameFrame(r.game.(queue := []), r'.game)
    decreases |r.game.queue|
  {
    if r.game.queue != [] {
      var e := r.game.queue[0];
      var popped := r.(game := r.game.(queue := r.game.queue[1..]));
      if IsCurrentLease(r, e.task.sid, e.task.lease) {
        CurrentLeaseFindsPlayer(r, e.task.sid, e.task.lease);
        EffectKeepsMatch(popped.game, e.task.sid, e.task.kind, g);
        RunDueKeepsRoom(popped.(game := Effect(popped.game, e.task.sid, e.task.kind, g)), now, g);
      } else {
        RunDueKeepsRoom(popped, now, g);
      }
    }
  }

  /** A room whose match has just been decided, with its first `k` slots already emptied. */
  ghost predicate Closing(r: Room, k: nat) {
    && RoomShaped(r) && SlotsOK(r) && k <= PLAYERNUM
    && (r.status == Full || r.status == NotFull || r.status == Empty)
    && (r.status == Empty <==> r.count == 0)
    && (forall i | 0 <= i < k :: !Filled(r.members[i]))
  }

  /** The next member leaves a closing room. */
  lemma ClosingStep(c: Scene, k: nat)
    requires Closing(c.room, k) && k < PLAYERNUM
    ensures var m := c.room.members[k];
            var r' := (if m.sid != -1 then UserOut(c, m.sid) else c).room;
            && Closing(r', k + 1) && r'.game == c.room.game && r'.number == c.room.number
            && (forall i | 0 <= i < PLAYERNUM :: Stamped(c.room.members[i], r'.members[i]))
            && (forall i | k < i < PLAYERNUM && r'.count > 0 :: r'.members[i] == c.room.members[i])
            && (forall i | k < i < PLAYERNUM && r'.count == 0 :: !Filled(c.room.members[i]) && !Filled(r'.members[i]))
  {
    var m := c.room.members[k];
    assert SlotOK(m);
    if m.sid != -1 {
      assert IndexOf(c.room.members, m.sid) == k;
      OccupiedAfter(c.room.members, k, Vacated(m));
    }
  }

  lemma {:induction false} ClosingEmptiesRoom(c: Scene, sids: seq<int>, k: nat)
    requires Closing(c.room, k)
    requires |sids| == PLAYERNUM - k
    requires forall i | k <= i < PLAYERNUM :: sids[i - k] == c.room.members[i].sid
    ensures var r' := UserOutEach(c, sids).room;
            && Closing(r', PLAYERNUM) && r'.status == Empty && r'.game == c.room.game && r'.number == c.room.number
            && forall i | 0 <= i < PLAYERNUM :: Stamped(c.room.members[i], r'.members[i])
    decreases |sids|
  {
    if sids != [] {
      assert sids[0] == c.room.members[k].sid;
      ClosingStep(c, k);
      var c' := if sids[0] != -1 then UserOut(c, sids[0]) else c;
      forall i | k + 1 <= i < PLAYERNUM ensures sids[1..][i - (k + 1)] == c'.room.members[i].sid {
        assert sids[i - k] == c.room.members[i].sid;
      }
      ClosingEmptiesRoom(c', sids[1..], k + 1);
      StampedOn(c.room.members, c'.room.members, UserOutEach(c, sids).room.members);
    }
  }

  lemma StampedOn(a: seq<Member>, b: seq<Member>, c: seq<Member>)
    requires |a| == |b| == |c| == PLAYERNUM
    requires forall i | 0 <= i < PLAYERNUM :: Stamped(a[i], b[i])
    requires forall i | 0 <= i < PLAYERNUM :: Stamped(b[i], c[i])
    ensures forall i | 0 <= i < PLAYERNUM :: Stamped(a[i], c[i])
  {
    forall i | 0 <= i < PLAYERNUM ensures Stamped(a[i], c[i]) {
      assert Stamped(a[i], b[i]) && Stamped(b[i], c[i]);
    }
  }

  lemma TickKeepsRoom(r: Room, now: int, g: Geometry)
    requires RoomOK(r, now) && r.status == InGame
    ensures var r' := Tick(r, now, g);
            && r' == r.(game := r'.game) && RoomShaped(r') && !r'.game.faulted
            && r'.game.queue == [] && r'.game.generation == r.game.generation
            && (r'.game.state == EmpWin ==> AllActive(r'.game.generators))
            && (!Decided(r'.game) ==> RoomOK(r', now))
  {
    RunDueKeepsRoom(r, now, g);
    ChronicleGrows(LateUpdate(Advanced(RunDue(r, now, g).game), g));
  }

  lemma ChronicleGrows(m: Match)
    requires |m.players| == PLAYERNUM && Chronicle(m.history)
    ensures Chronicle(AddHistory(m).history)
  {
    assert LastFrame(m.history) == |m.history| % UINT32;
    assert (|m.history| % UINT32 + 1) % UINT32 == (|m.history| + 1) % UINT32;
  }

  /** A decided match closes into an empty room. */
  lemma CloseEmptiesRoom(c: Scene, now: int)
    requires RoomShaped(c.room) && SlotsOK(c.room) && c.room.count > 0 && !c.room.game.faulted
    ensures var r' := Close(c).room;
            && RoomOK(r', now) && r'.status == Empty && r'.count == 0 && Restored(r'.game) && r'.number == c.room.number
            && r'.game.generation == c.room.game.generation
            && forall i | 0 <= i < PLAYERNUM :: !Filled(r'.members[i]) && Stamped(c.room.members[i], r'.members[i])
  {
    var open := c.(room := c.room.(status := Full));
    ClosingEmptiesRoom(open, Sids(c.room.members), 0);
    var r' := Close(c).room;
    forall i | 0 <= i < PLAYERNUM ensures !Filled(r'.members[i]) && r'.members[i].connection == Connected {
      assert SlotOK(UserOutEach(open, Sids(c.room.members)).room.members[i]);
    }
  }

  lemma PlayKeepsRoom(c: Scene, now: int, g: Geometry)
    requires RoomOK(c.room, now)
    ensures RoomOK(Play(c, now, g).room, now)
    ensures Succeeds(c.room, Play(c, now, g).room)
  {
    if c.room.status == InGame {
      TickKeepsRoom(c.room, now, g);
      var c' := c.(room := Tick(c.room, now, g));
      if Decided(c'.room.game) { CloseEmptiesRoom(c', now); }
    }
  }

  lemma UpdateKeepsRoom(c: Scene, now: int, g: Geometry)
    requires RoomOK(c.room, now)
    ensures RoomOK(Update(c, now, g).room, now)
    ensures Succeeds(c.room, Update(c, now, g).room)
  {
    if c.room.status == InGame {
      var c1 := ExpireReconnects(c, now);
      UserOutEachKeepsRoom(c, Expired(c.room.members, now), now);
      PlayKeepsRoom(c1, now, g);
      SucceedsTransitive(c.room, c1.room, Play(c1, now, g).room);
    }
  }

  lemma ProcessKeepsRoom(c: Scene, command: GameCommand, now: int)
    requires RoomOK(c.room, now) && command.sid >= 0
    ensures RoomOK(ProcessGamePacket(c, command, now).room, now)
    ensures Succeeds(c.room, ProcessGamePacket(c, command, now).room)
  {
    if ProcessGamePacket(c, command, now).room != c.room {
      var m := c.room.game;
      var e := Scheduled(now, m.nextSequence, GameEvent(command.sid, command.lease, Kind(command.packet)[0]));
      InsertLast(m.queue, e);
    }
  }
}
