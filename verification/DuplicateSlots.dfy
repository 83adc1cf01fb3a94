/**
 * Why the clients' discipline is needed: a session that leaves an Enter outstanding when it sends Exit ends up
 * in two slots, because Exit clears its binding before the owner has freed its slot.
 */
module DuplicateSlots {
  import opened RoomCommand
  import opened SessionSpec
  import opened MatchSpec
  import opened RoomSpec
  import opened Protocol
  import opened RoomInvariant
  import opened ServerInvariant
  import opened ServerSteps
  import opened Discipline
  import opened Stories

  // ---- which slot a command gives to its session ----

  /** The room that a Create by `sid` opens, looking from room `r` on; -1 if there is none. */
  function OpensRoom(w: World, sid: int, r: nat): (room: int)
    requires Shaped(w) && r <= ROOM_CAPACITY
    ensures -1 <= room < ROOM_CAPACITY
    decreases |w.rooms| - r
  {
    if r == ROOM_CAPACITY then -1
    else if w.rooms[r].status == Empty && CanEnter(SceneAt(w, r).(room := Opened(w.rooms[r])), sid) then r
    else OpensRoom(w, sid, r + 1)
  }

  /** The room in which a Resume by `sid` finds its slot. */
  function ResumesIn(w: World, sid: int, token: nat, r: nat): (room: int)
    requires Shaped(w) && r <= ROOM_CAPACITY
    ensures -1 <= room < ROOM_CAPACITY
    decreases |w.rooms| - r
  {
    if r == ROOM_CAPACITY then -1
    else if CanResume(SceneAt(w, r), sid, token, w.now) then r
    else ResumesIn(w, sid, token, r + 1)
  }

  datatype Place = Nowhere | Place(room: int, slot: int)

  /** The slot that a lobby command gives to its session: only a successful Create, Enter or Resume gives one. */
  function Gives(w: World, c: LobbyCommand): (p: Place)
    requires Shaped(w)
    ensures p.Place? ==> IsValidRoom(p.room)
  {
    match c
    case Create(sid) =>
      if !Found(w.net, sid) || !Unbound(w.net, sid) || OpensRoom(w, sid, 0) < 0 then Nowhere
      else Place(OpensRoom(w, sid, 0), FreeIndex(w.rooms[OpensRoom(w, sid, 0)].members))
    case Enter(sid, room) =>
      if !IsValidRoom(room) || !Found(w.net, sid) || !Unbound(w.net, sid) || !CanEnter(SceneAt(w, room), sid) then Nowhere
      else Place(room, FreeIndex(w.rooms[room].members))
    case Resume(sid, token) =>
      if token == 0 || ResumesIn(w, sid, token, 0) < 0 then Nowhere
      else Place(ResumesIn(w, sid, token, 0), TokenIndex(w.rooms[ResumesIn(w, sid, token, 0)].members, token))
    case _ => Nowhere
  }

  /** The slot at `p` passes to session `sid`, and no other changes hands. */
  ghost predicate OneSlotGiven(a: seq<Room>, b: seq<Room>, p: Place, sid: int) {
    && p.Place? && |b| == |a| && 0 <= p.room < |a| && b == a[p.room := b[p.room]]
    && 0 <= p.slot < |a[p.room].members| && |b[p.room].members| == |a[p.room].members|
    && b[p.room].members == a[p.room].members[p.slot := b[p.room].members[p.slot]]
    && b[p.room].members[p.slot].sid == sid
  }

  ghost predicate NoSlotGiven(a: seq<Room>, b: seq<Room>) {
    forall r, i, s | Holds(b, r, i, s) :: Holds(a, r, i, s)
  }

  ghost predicate SlotsGiven(a: seq<Room>, b: seq<Room>, p: Place, sid: int) {
    if p == Nowhere then NoSlotGiven(a, b) else OneSlotGiven(a, b, p, sid)
  }

  lemma UserInGives(w: World, r: int, c: Scene, sid: int)
    requires Shaped(w) && IsValidRoom(r) && c.room.members == w.rooms[r].members && CanEnter(c, sid)
    ensures OneSlotGiven(w.rooms, WithScene(w, r, UserIn(c, sid)).rooms, Place(r, FreeIndex(c.room.members)), sid)
  {
  }

  lemma {:induction false} CreateIs(w: World, sid: int, r: nat)
    requires Shaped(w) && r <= ROOM_CAPACITY
    ensures var q := OpensRoom(w, sid, r);
            if q < 0 then CreateFrom(w, sid, r) == w
            else var c := SceneAt(w, q).(room := Opened(w.rooms[q]));
                 CanEnter(c, sid) && CreateFrom(w, sid, r) == WithScene(w, q, UserIn(c, sid))
    decreases |w.rooms| - r
  {
    if r < ROOM_CAPACITY { CreateIs(w, sid, r + 1); }
  }

  lemma CreateGives(w: World, sid: int)
    requires Shaped(w)
    ensures SlotsGiven(w.rooms, CreateRoom(w, sid).rooms, Gives(w, Create(sid)), sid)
  {
    CreateIs(w, sid, 0);
    var q := OpensRoom(w, sid, 0);
    if Found(w.net, sid) && Unbound(w.net, sid) && q >= 0 {
      UserInGives(w, q, SceneAt(w, q).(room := Opened(w.rooms[q])), sid);
    }
  }

  lemma EnterGives(w: World, sid: int, room: int)
    requires Shaped(w)
    ensures SlotsGiven(w.rooms, EnterRoom(w, sid, room).rooms, Gives(w, Enter(sid, room)), sid)
  {
    if IsValidRoom(room) && CanEnter(SceneAt(w, room), sid) { UserInGives(w, room, SceneAt(w, room), sid); }
  }

  lemma {:induction false} ResumeIs(w: World, sid: int, token: nat, r: nat)
    requires Shaped(w) && r <= ROOM_CAPACITY
    ensures var q := ResumesIn(w, sid, token, r);
            if q < 0 then ResumeFrom(w, sid, token, r) == w
            else CanResume(SceneAt(w, q), sid, token, w.now)
                 && ResumeFrom(w, sid, token, r) == WithScene(w, q, ResumeUser(SceneAt(w, q), sid, token, w.now))
    decreases |w.rooms| - r
  {
    if r < ROOM_CAPACITY { ResumeIs(w, sid, token, r + 1); }
  }

  lemma ResumeGives(w: World, sid: int, token: nat)
    requires Shaped(w)
    ensures SlotsGiven(w.rooms, ResumeSession(w, sid, token).rooms, Gives(w, Resume(sid, token)), sid)
  {
    ResumeIs(w, sid, token, 0);
    var q := ResumesIn(w, sid, token, 0);
    if token != 0 && q >= 0 { ResumeSlots(SceneAt(w, q), sid, token, w.now); }
  }

  /** A room whose slots stay as they are or are vacated gives no slot to anybody. */
  lemma FadingGivesNone(w: World, r: int, c': Scene)
    requires 0 <= r < |w.rooms| && Loosened(SceneAt(w, r), c')
    ensures NoSlotGiven(w.rooms, WithScene(w, r, c').rooms)
  {
  }

  lemma ExitGives(w: World, sid: int, room: int)
    requires WorldOK(w) && sid in w.net.sessions
    ensures NoSlotGiven(w.rooms, ExitRoom(w, sid, room).rooms)
  {
    if IsValidRoom(room) {
      UserOutLoosens(SceneAt(w, room), sid);
      FadingGivesNone(w, room, UserOut(SceneAt(w, room), sid));
    }
  }

  lemma DropGives(c: Scene, sid: int, token: nat, now: int)
    requires RoomOK(c.room, now) && NetOK(c.net) && sid != -1
    ensures NoSlotGiven([c.room], [TransportDisconnected(c, sid, token, now).room])
  {
    UserOutLoosens(c, sid);
  }

  lemma DisconnectGives(w: World, sid: int, token: nat)
    requires WorldOK(w) && sid in w.net.sessions
    ensures NoSlotGiven(w.rooms, DisconnectUpTo(w, sid, token, ROOM_CAPACITY).rooms)
  {
    var w' := DisconnectUpTo(w, sid, token, ROOM_CAPACITY);
    forall r, i, s | Holds(w'.rooms, r, i, s) ensures Holds(w.rooms, r, i, s) {
      DisconnectRooms(w, sid, token, ROOM_CAPACITY, r);
      DropGives(SceneAt(w, r), sid, token, w.now);
      assert Holds([w'.rooms[r]], 0, i, s);
      assert Holds([w.rooms[r]], 0, i, s);
    }
  }

  lemma SetReadyGives(w: World, sid: int, ready: bool)
    requires Shaped(w)
    ensures NoSlotGiven(w.rooms, SetReadyCommand(w, sid, ready).rooms)
  {
  }

  lemma CommandGives(w: World, c: LobbyCommand, sendFails: bool)
    requires WorldOK(w) && CommandKnown(c, w.net)
    ensures SlotsGiven(w.rooms, ExecuteLobby(w, c, sendFails).rooms, Gives(w, c), c.sid)
  {
    if c.Create? {
      CreateGives(w, c.sid);
    } else if c.Enter? {
      EnterGives(w, c.sid, c.room);
    } else if c.SetReady? {
      SetReadyGives(w, c.sid, c.ready);
    } else if c.Exit? {
      ExitGives(w, c.sid, c.room);
    } else if c.Disconnected? {
      DisconnectGives(w, c.sid, c.token);
    } else if c.Resume? {
      ResumeGives(w, c.sid, c.token);
    }
  }

  /** What a step gives, and to whom. */
  function GivesIn(w: World, s: Step): Place
    requires Shaped(w) && Enabled(w, s)
  {
    if s.LobbyCommandStep? then Gives(Popped(w), w.batch[0]) else Nowhere
  }

  lemma LobbyStepGives(w: World, sendFails: bool)
    requires WorldOK(w) && w.batch != []
    ensures SlotsGiven(w.rooms, ExecuteLobby(Popped(w), w.batch[0], sendFails).rooms,
                       Gives(Popped(w), w.batch[0]), w.batch[0].sid)
  {
    assert CommandKnown(w.batch[0], w.net);
    CommandGives(Popped(w), w.batch[0], sendFails);
  }

  lemma GameStepGives(w: World)
    requires Shaped(w) && w.gameBatch != []
    ensures NoSlotGiven(w.rooms, Apply(w, GameCommandStep).rooms)
  {
  }

  lemma UpdateStepGives(w: World, r: int, g: Geometry)
    requires WorldOK(w) && IsValidRoom(r)
    ensures NoSlotGiven(w.rooms, UpdateRoom(w, r, g).rooms)
  {
    UpdateLoosens(SceneAt(w, r), w.now, g);
    FadingGivesNone(w, r, Update(SceneAt(w, r), w.now, g));
  }

  lemma StepGives(w: World, s: Step)
    requires WorldOK(w) && Enabled(w, s)
    ensures if s.LobbyCommandStep? then SlotsGiven(w.rooms, Apply(w, s).rooms, GivesIn(w, s), w.batch[0].sid)
            else NoSlotGiven(w.rooms, Apply(w, s).rooms)
  {
    if s.LobbyCommandStep? {
      LobbyStepGives(w, s.sendFails);
    } else if s.GameCommandStep? {
      GameStepGives(w);
    } else if s.UpdateStep? {
      UpdateStepGives(w, s.room, s.geometry);
    } else {
      OthersKeepRooms(w, s);
    }
  }

  // ---- when a session comes to fill two slots ----

  /** Session `sid` holds a slot other than the one at `p`. */
  ghost predicate HoldsAnother(rooms: seq<Room>, p: Place, sid: int) {
    exists q, j :: Holds(rooms, q, j, sid) && p != Place(q, j)
  }

  lemma GivingDuplicatesIff(a: seq<Room>, b: seq<Room>, p: Place, sid: int)
    requires NoDuplicates(a) && OneSlotGiven(a, b, p, sid) && sid != -1
    ensures NoDuplicates(b) <==> !HoldsAnother(a, p, sid)
  {
    assert Holds(b, p.room, p.slot, sid);
    forall r, i, s | Holds(b, r, i, s) ensures Holds(a, r, i, s) || (p == Place(r, i) && s == sid) {}
    forall r, i, s | Holds(a, r, i, s) && p != Place(r, i) ensures Holds(b, r, i, s) {}
    if HoldsAnother(a, p, sid) {
      var q, j :| Holds(a, q, j, sid) && p != Place(q, j);
      assert Holds(b, q, j, sid);
    } else {
      forall r, i, q, j, s | Holds(b, r, i, s) && Holds(b, q, j, s) ensures r == q && i == j {
        if p != Place(r, i) { assert Holds(a, r, i, s); }
        if p != Place(q, j) { assert Holds(a, q, j, s); }
      }
    }
  }

  /**
   * From a state without duplicates, a step of any thread puts a session into two slots exactly if it is a successful
   * Create, Enter or Resume of a session that holds another slot than the one it is given.
   */
  lemma StepDuplicatesIff(w: World, s: Step)
    requires WorldOK(w) && NoDuplicates(w.rooms) && Enabled(w, s)
    ensures NoDuplicates(Apply(w, s).rooms)
            <==> GivesIn(w, s) == Nowhere || !HoldsAnother(w.rooms, GivesIn(w, s), w.batch[0].sid)
  {
    StepGives(w, s);
    if GivesIn(w, s) != Nowhere {
      assert CommandKnown(w.batch[0], w.net);
      GivingDuplicatesIff(w.rooms, Apply(w, s).rooms, GivesIn(w, s), w.batch[0].sid);
    } else {
      NotGivingKeeps(w.rooms, Apply(w, s).rooms);
    }
  }

  lemma NotGivingKeeps(a: seq<Room>, b: seq<Room>)
    requires NoDuplicates(a) && NoSlotGiven(a, b)
    ensures NoDuplicates(b)
  {
  }

  // ---- a run ----

  /** Slot `i` of the room is the first free one, and the slots before it are held by session 0. */
  ghost predicate Seats(r: Room, i: nat) {
    && RoomShaped(r) && i < PLAYERNUM && r.status == NotFull && r.number == 0 && r.count == i
    && (forall k | 0 <= k < i :: r.members[k].sid == 0)
    && (forall k | i <= k < PLAYERNUM :: r.members[k].sid == -1)
  }

  /** Session 0 is known, logged in, and bound to room `room`. */
  predicate LoggedIn(w: World, room: int) {
    && Found(w.net, 0) && !w.net.sessions[0].retired && w.net.sessions[0].token == 1
    && w.net.sessions[0].binding.room == room
  }

  lemma Founds(w: World, w': World)
    requires Shaped(w) && w.rooms[0] == NewRoom(0) && LoggedIn(w, -1) && w' == ExecuteLobby(w, Create(0), false)
    ensures Seats(w'.rooms[0], 1) && LoggedIn(w', 0) && w' == w.(rooms := w'.rooms, net := w'.net)
    ensures w'.net == w.net.(sessions := w'.net.sessions)
  {
    var c := SceneAt(w, 0).(room := Opened(w.rooms[0]));
    assert FreeIndex(c.room.members) == 0;
    assert CanEnter(c, 0);
  }

  lemma EntersTwice(w: World, w': World)
    requires Shaped(w) && Seats(w.rooms[0], 1) && LoggedIn(w, -1) && w' == ExecuteLobby(w, Enter(0, 0), false)
    ensures Shaped(w') && !NoDuplicates(w'.rooms)
  {
    var ms := w.rooms[0].members;
    assert ms[0].sid == 0 && ms[1].sid == -1;
    assert FreeIndex(ms) == 1;
    assert CanEnter(SceneAt(w, 0), 0);
    assert Holds(w'.rooms, 0, 0, 0) && Holds(w'.rooms, 0, 1, 0);
  }

  lemma FoundsRoom(ws: iset<World>, w: World) returns (w': World)
    requires Quiet(ws, w) && LoggedIn(w, -1) && w.rooms[0] == NewRoom(0)
    ensures Quiet(ws, w') && LoggedIn(w', 0) && Seats(w'.rooms[0], 1)
  {
    Asks(ws, w, Create(0));
    var w1 := Remembered(w, Create(0));
    w' := ExecuteLobby(w1, Create(0), false);
    Founds(w1, w');
    assert forall s :: HandlerOf(w', s) == HandlerOf(w, s);
    StaysQuiet(ws, w, w');
  }

  /** The client asks to enter again before it exits. */
  lemma AsksTooEarly(ws: iset<World>, w: World) returns (w': World)
    requires Quiet(ws, w) && LoggedIn(w, 0) && Seats(w.rooms[0], 1)
    ensures w' in ws && !NoDuplicates(w'.rooms)
  {
    EntersAndExits(ws, w);
    var w1 := Queued(Gone(w, 0), [Enter(0, 0), Exit(0, 0)]);
    Drains(ws, w1, [Enter(0, 0), Exit(0, 0)]);
    var w2 := Queued(w1, []).(batch := [Enter(0, 0), Exit(0, 0)]);
    Pops(ws, w2, Enter(0, 0), [Exit(0, 0)]);
    w' := ExecuteLobby(Remembered(w2, Enter(0, 0)).(batch := [Exit(0, 0)]), Enter(0, 0), false);
    EntersTwice(Remembered(w2, Enter(0, 0)).(batch := [Exit(0, 0)]), w');
  }

  lemma EntersAndExits(ws: iset<World>, w: World)
    requires Quiet(ws, w) && LoggedIn(w, 0)
    ensures Real(ws, Queued(Gone(w, 0), [Enter(0, 0), Exit(0, 0)]))
  {
    Queues(ws, w, Enter(0, 0));
    var w1 := Queued(w, [Enter(0, 0)]);
    SubmitsExit(ws, w1, 0, 0, [Enter(0, 0)]);
    assert [Enter(0, 0)] + [Exit(0, 0)] == [Enter(0, 0), Exit(0, 0)];
    assert Queued(Gone(w1, 0), [Enter(0, 0), Exit(0, 0)]) == Queued(Gone(w, 0), [Enter(0, 0), Exit(0, 0)]);
  }

  lemma DuplicatesIn(ws: iset<World>) returns (w: World)
    requires NoStepLeaves(ws) && Initial(8, 8) in ws
    ensures w in ws && !NoDuplicates(w.rooms)
  {
    var w0 := Initial(8, 8);
    InitiallyQuiet(ws, w0);
    var w1 := Arrives(ws, w0, 1);
    assert w0.rooms[0] == NewRoom(0);
    var w2 := FoundsRoom(ws, w1);
    w := AsksTooEarly(ws, w2);
  }

  /** A run without discipline that ends with one session in two slots. */
  lemma UndisciplinedDuplicates() returns (w: World)
    ensures Reachable(w) && !NoDuplicates(w.rooms)
  {
    var ws := ReachableWorlds();
    w := DuplicatesIn(ws);
  }
}
