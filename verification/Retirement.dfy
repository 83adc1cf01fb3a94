/** A session that has been removed is kept, in the retired map, until no I/O refers to it any more. */
module Retirement {
  import opened RoomCommand
  import opened SessionSpec
  import opened MatchSpec
  import opened RoomSpec
  import opened Protocol
  import opened RoomInvariant
  import opened ServerInvariant
  import opened ServerSteps

  predicate InUse(n: Net, s: int) {
    s in n.sessions && n.sessions[s].pendingIO != 0
  }

  /** Retired sessions that are in use stay; no pending count changes; whoever leaves the active map is retired while in use. */
  ghost predicate KeepsUsed(n: Net, n': Net) {
    && n.sessions.Keys <= n'.sessions.Keys
    && (forall s | s in n.sessions :: n'.sessions[s].pendingIO == n.sessions[s].pendingIO)
    && (forall s | s in n.retired && InUse(n, s) :: s in n'.retired)
    && (forall s | s in n.active && s !in n'.active && InUse(n, s) :: s in n'.retired)
  }

  lemma LooseKeepsUsed(n: Net, n': Net)
    requires NetLoosened(n, n')
    ensures KeepsUsed(n, n')
  {
    forall s | s in n.sessions ensures n'.sessions[s].pendingIO == n.sessions[s].pendingIO {
      assert Loose(n.sessions[s], n'.sessions[s]);
    }
  }

  lemma RemovalKeepsUsed(n: Net, sid: int)
    ensures KeepsUsed(n, RequestRemove(n, sid))
  {
  }

  lemma UserInKeepsUsed(c: Scene, sid: int)
    ensures KeepsUsed(c.net, UserIn(c, sid).net)
  {
  }

  lemma ResumeKeepsUsed(c: Scene, sid: int, token: nat, now: int)
    requires |c.room.game.players| == |c.room.members|
    ensures KeepsUsed(c.net, ResumeUser(c, sid, token, now).net)
  {
    if CanResume(c, sid, token, now) {
      ResumeSlots(c, sid, token, now);
      var n := Claimed(c, sid, token);
      ClaimedEffect(c, sid, token);
      assert KeepsUsed(c.net, n);
      var was := c.room.members[TokenIndex(c.room.members, token)].sid;
      assert KeepsUsed(n, ClearFound(n, was));
      RemovalKeepsUsed(ClearFound(n, was), was);
    }
  }

  lemma {:induction false} CreateKeepsUsed(w: World, sid: int, from: nat)
    requires Shaped(w) && from <= ROOM_CAPACITY
    ensures KeepsUsed(w.net, CreateFrom(w, sid, from).net)
    decreases ROOM_CAPACITY - from
  {
    if from < ROOM_CAPACITY {
      UserInKeepsUsed(SceneAt(w, from).(room := Opened(w.rooms[from])), sid);
      CreateKeepsUsed(w, sid, from + 1);
    }
  }

  lemma {:induction false} ResumingKeepsUsed(w: World, sid: int, token: nat, from: nat)
    requires Shaped(w) && from <= ROOM_CAPACITY
    ensures KeepsUsed(w.net, ResumeFrom(w, sid, token, from).net)
    decreases ROOM_CAPACITY - from
  {
    if from < ROOM_CAPACITY {
      ResumeKeepsUsed(SceneAt(w, from), sid, token, w.now);
      ResumingKeepsUsed(w, sid, token, from + 1);
    }
  }

  lemma SetReadyKeepsUsed(w: World, sid: int, ready: bool)
    requires Shaped(w)
    ensures KeepsUsed(w.net, SetReadyCommand(w, sid, ready).net)
  {
    if Found(w.net, sid) && IsValidRoom(w.net.sessions[sid].binding.room) {
      var r := w.net.sessions[sid].binding.room;
      InitGameBinds(SceneAt(w, r).(room := SetReadyFlag(w.rooms[r], sid, ready)));
    }
  }

  lemma EnterKeepsUsed(w: World, sid: int, room: int)
    requires Shaped(w)
    ensures KeepsUsed(w.net, EnterRoom(w, sid, room).net)
  {
    RemovalKeepsUsed(w.net, sid);
    if IsValidRoom(room) { UserInKeepsUsed(SceneAt(w, room), sid); }
  }

  lemma ExitKeepsUsed(w: World, sid: int, room: int)
    requires WorldOK(w) && sid in w.net.sessions
    ensures KeepsUsed(w.net, ExitRoom(w, sid, room).net)
  {
    if IsValidRoom(room) {
      UserOutLoosens(SceneAt(w, room), sid);
      LooseKeepsUsed(w.net, ExitRoom(w, sid, room).net);
    }
  }

  lemma DisconnectKeepsUsed(w: World, sid: int, token: nat)
    requires WorldOK(w) && sid in w.net.sessions && sid !in w.net.active
    ensures KeepsUsed(w.net, DisconnectUpTo(w, sid, token, ROOM_CAPACITY).net)
  {
    DisconnectStep(w, sid, token, ROOM_CAPACITY);
    LooseKeepsUsed(w.net, DisconnectUpTo(w, sid, token, ROOM_CAPACITY).net);
  }

  lemma CommandKeepsUsed(w: World, c: LobbyCommand, sendFails: bool)
    requires WorldOK(w) && CommandKnown(c, w.net)
    ensures KeepsUsed(w.net, ExecuteLobby(w, c, sendFails).net)
  {
    if c.SessionConnected? {
      RemovalKeepsUsed(w.net, c.sid);
    } else if c.Create? {
      CreateKeepsUsed(w, c.sid, 0);
    } else if c.Enter? {
      EnterKeepsUsed(w, c.sid, c.room);
    } else if c.SetReady? {
      SetReadyKeepsUsed(w, c.sid, c.ready);
    } else if c.Exit? {
      ExitKeepsUsed(w, c.sid, c.room);
    } else if c.Disconnected? {
      DisconnectKeepsUsed(w, c.sid, c.token);
    } else {
      ResumingKeepsUsed(w, c.sid, c.token, 0);
    }
  }

  lemma LobbyStepKeepsUsed(w: World, sendFails: bool)
    requires WorldOK(w) && w.batch != []
    ensures KeepsUsed(w.net, Apply(w, LobbyCommandStep(sendFails)).net)
  {
    assert CommandKnown(w.batch[0], w.net);
    CommandKeepsUsed(Popped(w), w.batch[0], sendFails);
  }

  lemma GameCommandKeepsUsed(w: World, c: GameCommand)
    requires Shaped(w)
    ensures KeepsUsed(w.net, ExecuteGame(w, c).net)
  {
    RemovalKeepsUsed(w.net, c.sid);
  }

  lemma UpdateKeepsUsed(w: World, r: int, g: Geometry)
    requires WorldOK(w) && IsValidRoom(r)
    ensures KeepsUsed(w.net, UpdateRoom(w, r, g).net)
  {
    UpdateLoosens(SceneAt(w, r), w.now, g);
    LooseKeepsUsed(w.net, UpdateRoom(w, r, g).net);
  }

  lemma PacketKeepsUsed(w: World, s: Step)
    requires Shaped(w) && Enabled(w, s) && ByPacketThread(s)
    ensures KeepsUsed(w.net, ApplyPacket(w, s).net)
  {
  }

  /** Every step but the two that begin and complete I/O keeps the counts, and whoever is in use. */
  lemma StepKeepsUsed(w: World, s: Step)
    requires WorldOK(w) && Enabled(w, s) && !s.BeginIOStep? && !s.CompleteIOStep?
    ensures KeepsUsed(w.net, Apply(w, s).net)
  {
    if s.LobbyCommandStep? {
      LobbyStepKeepsUsed(w, s.sendFails);
    } else if s.GameCommandStep? {
      GameCommandKeepsUsed(PoppedGame(w), w.gameBatch[0]);
    } else if s.UpdateStep? {
      UpdateKeepsUsed(w, s.room, s.geometry);
    } else if ByPacketThread(s) {
      PacketKeepsUsed(w, s);
    }
  }

  /** No step of any thread releases a retired session that some I/O still refers to. */
  lemma StepReleasesIdle(w: World, s: Step, sid: int)
    requires WorldOK(w) && Enabled(w, s) && InUse(w.net, sid)
    ensures sid in w.net.retired ==> sid in Apply(w, s).net.retired
    ensures sid in w.net.active ==> sid in Apply(w, s).net.active || sid in Apply(w, s).net.retired
  {
    if !s.BeginIOStep? && !s.CompleteIOStep? { StepKeepsUsed(w, s); }
  }

  /** A drain releases every retired session that no I/O refers to, and no other. */
  lemma DrainReleasesIdle(w: World)
    requires Shaped(w) && NetOK(w.net)
    ensures forall s :: s in Apply(w, DrainStep).net.retired <==> s in w.net.retired && w.net.sessions[s].pendingIO > 0
    ensures Apply(w, DrainStep) == w.(net := w.net.(retired := Apply(w, DrainStep).net.retired))
  {
  }

  /** The session is in use in every state of the run before the last. */
  ghost predicate InUseThroughout(w: World, steps: seq<Step>, sid: int)
    requires WorldOK(w) && IsRun(w, steps)
    decreases |steps|
  {
    steps == [] || (InUse(w.net, sid) && (StepKeepsWorld(w, steps[0]); InUseThroughout(Apply(w, steps[0]), steps[1..], sid)))
  }

  /** Along every run a session that is active or retired stays one or the other while I/O refers to it. */
  lemma {:induction false} KeptWhileInUse(w: World, steps: seq<Step>, sid: int)
    requires WorldOK(w) && IsRun(w, steps) && InUseThroughout(w, steps, sid)
    requires sid in w.net.active || sid in w.net.retired
    ensures sid in After(w, steps).net.active || sid in After(w, steps).net.retired
    ensures sid in w.net.retired ==> sid in After(w, steps).net.retired
    decreases |steps|
  {
    if steps != [] {
      StepKeepsWorld(w, steps[0]);
      StepReleasesIdle(w, steps[0], sid);
      KeptWhileInUse(Apply(w, steps[0]), steps[1..], sid);
    }
  }
}
