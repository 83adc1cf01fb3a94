/**
 * The whole server as a state machine: one owner thread, any number of I/O threads.
 * An owner command is one step; the I/O threads are split at every access to shared state.
 */
module Protocol {
  import opened RoomCommand
  import opened SessionSpec
  import opened MatchSpec
  import opened RoomSpec

  const ROOM_CAPACITY := 100
  const MAX_COMMANDS_PER_UPDATE := 512

  /** Session ids fit the int16 that slots store. */
  const SID_LIMIT := 32768

  /** Where the thread that handles a session's packets stands inside one packet. */
  datatype Handler =
    | Waiting
    | LoginRead(token: nat)
    | ExitRead(room: int)
    | ExitQueued(room: int)
    | GameRead(binding: GameBinding)

  /**
   * `batch` and `gameBatch` are commands drained but not yet executed; `executed` is the history of lobby
   * commands, `issued` of resume tokens, `didLogin`/`didResume` of the sessions that sent those packets.
   */
  datatype World = World(
    rooms: seq<Room>,
    net: Net,
    game: seq<GameCommand>,
    gameCapacity: nat,
    batch: seq<LobbyCommand>,
    gameBatch: seq<GameCommand>,
    executed: seq<LobbyCommand>,
    handlers: map<int, Handler>,
    now: int,
    issued: set<nat>,
    didLogin: set<int>,
    didResume: set<int>)

  predicate IsValidRoom(r: int) {
    0 <= r < ROOM_CAPACITY
  }

  /** Sizes that no step changes. */
  predicate Shaped(w: World) {
    && |w.rooms| == ROOM_CAPACITY
    && forall r | 0 <= r < |w.rooms| :: RoomShaped(w.rooms[r])
  }

  predicate RoomShaped(r: Room) {
    |r.members| == PLAYERNUM && |r.game.players| == PLAYERNUM && |r.game.generators| == GENCNT
  }

  function SceneAt(w: World, r: int): Scene
    requires 0 <= r < |w.rooms|
  {
    Scene(w.rooms[r], w.net)
  }

  function WithScene(w: World, r: int, c: Scene): World
    requires 0 <= r < |w.rooms|
  {
    w.(rooms := w.rooms[r := c.room], net := c.net)
  }

  function HandlerOf(w: World, sid: int): Handler {
    if sid in w.handlers then w.handlers[sid] else Waiting
  }

  /** Lobby commands not yet executed, oldest first. */
  function Pending(w: World): seq<LobbyCommand> {
    w.batch + w.net.lobby
  }

  // ---- owner commands ----

  function EnterRoom(w: World, sid: int, room: int): (w': World)
    requires Shaped(w)
    ensures Shaped(w')
  {
    if !IsValidRoom(room) then w.(net := RequestRemove(w.net, sid))
    else if !Found(w.net, sid) || !Unbound(w.net, sid) then w
    else WithScene(w, room, UserIn(SceneAt(w, room), sid))
  }

  function Opened(r: Room): Room {
    r.(status := NotFull)
  }

  /** The loop of CreateRoom from room `r` on. */
  function CreateFrom(w: World, sid: int, r: nat): (w': World)
    requires Shaped(w) && r <= ROOM_CAPACITY
    ensures Shaped(w')
    decreases |w.rooms| - r
  {
    if r == ROOM_CAPACITY then w
    else if w.rooms[r].status == Empty && CanEnter(SceneAt(w, r).(room := Opened(w.rooms[r])), sid) then
      WithScene(w, r, UserIn(SceneAt(w, r).(room := Opened(w.rooms[r])), sid))
    else CreateFrom(w, sid, r + 1)
  }

  function CreateRoom(w: World, sid: int): (w': World)
    requires Shaped(w)
    ensures Shaped(w')
  {
    if !Found(w.net, sid) || !Unbound(w.net, sid) then w else CreateFrom(w, sid, 0)
  }

  function ExitRoom(w: World, sid: int, room: int): (w': World)
    requires Shaped(w)
    ensures Shaped(w')
  {
    if !IsValidRoom(room) then w else WithScene(w, room, UserOut(SceneAt(w, room), sid))
  }

  /** DisconnectSession after the rooms below `upTo` have been visited. */
  function DisconnectUpTo(w: World, sid: int, token: nat, upTo: nat): (w': World)
    requires Shaped(w) && upTo <= ROOM_CAPACITY
    ensures Shaped(w')
  {
    if upTo == 0 then w
    else
      var w := DisconnectUpTo(w, sid, token, upTo - 1);
      WithScene(w, upTo - 1, TransportDisconnected(SceneAt(w, upTo - 1), sid, token, w.now))
  }

  /** The loop of ResumeSession from room `r` on. */
  function ResumeFrom(w: World, sid: int, token: nat, r: nat): (w': World)
    requires Shaped(w) && r <= ROOM_CAPACITY
    ensures Shaped(w')
    decreases |w.rooms| - r
  {
    if r == ROOM_CAPACITY then w
    else if CanResume(SceneAt(w, r), sid, token, w.now) then
      WithScene(w, r, ResumeUser(SceneAt(w, r), sid, token, w.now))
    else ResumeFrom(w, sid, token, r + 1)
  }

  function ResumeSession(w: World, sid: int, token: nat): (w': World)
    requires Shaped(w)
    ensures Shaped(w')
  {
    if token == 0 then w else ResumeFrom(w, sid, token, 0)
  }

  function SetReadyCommand(w: World, sid: int, ready: bool): (w': World)
    requires Shaped(w)
    ensures Shaped(w')
  {
    if !Found(w.net, sid) || !IsValidRoom(w.net.sessions[sid].binding.room) then w
    else
      var r := w.net.sessions[sid].binding.room;
      if !CanSetReady(w.rooms[r], sid) then w
      else
        var c := SceneAt(w, r).(room := SetReadyFlag(w.rooms[r], sid, ready));
        WithScene(w, r, if ready then InitGame(c) else c)
  }

  /** `sendFails`: a send of the initial room list fails, which removes the session. */
  function ExecuteLobby(w: World, command: LobbyCommand, sendFails: bool): (w': World)
    requires Shaped(w)
    ensures Shaped(w')
  {
    match command
    case SessionConnected(sid) =>
      if Found(w.net, sid) && sendFails then w.(net := RequestRemove(w.net, sid)) else w
    case Create(sid) => CreateRoom(w, sid)
    case Enter(sid, room) => EnterRoom(w, sid, room)
    case SetReady(sid, ready) => SetReadyCommand(w, sid, ready)
    case Exit(sid, room) => ExitRoom(w, sid, room)
    case Disconnected(sid, token) => DisconnectUpTo(w, sid, token, ROOM_CAPACITY)
    case Resume(sid, token) => ResumeSession(w, sid, token)
  }

  function ExecuteGame(w: World, command: GameCommand): (w': World)
    requires Shaped(w)
    ensures Shaped(w')
  {
    if !IsValidRoom(command.room) || !Found(w.net, command.sid) then w
    else
      var b := w.net.sessions[command.sid].binding;
      if b.room != command.room || !command.lease.Matches(b.lease.memberGeneration, b.lease.matchGeneration) then w
      else WithScene(w, command.room, ProcessGamePacket(SceneAt(w, command.room), command, w.now))
  }

  function UpdateRoom(w: World, r: int, g: Geometry): (w': World)
    requires Shaped(w) && IsValidRoom(r)
    ensures Shaped(w')
  {
    WithScene(w, r, Update(SceneAt(w, r), w.now, g))
  }

  // ---- steps ----

  datatype Step =
    // the accepting thread
    | ActivateStep
    // the thread handling one session's packets
    | LoginReadStep(sid: int, newToken: nat)
    | LoginWriteStep(sid: int)
    | LobbyStep(command: LobbyCommand)
    | ExitReadStep(sid: int)
    | ExitQueueStep(sid: int)
    | ExitClearStep(sid: int)
    | GameReadStep(sid: int)
    | GameQueueStep(sid: int, packet: GamePacket)
    // any thread inside RequestRemoveSession, BeginShutdown or DrainRetiredSessions
    | RetireStep(sid: int)
    | MoveStep(sid: int)
    | PublishStep(sid: int)
    | DrainStep
    | BeginIOStep(sid: int)
    | CompleteIOStep(sid: int)
    | ShutdownStep
    // time
    | ClockStep(elapsed: nat)
    // the owner
    | DrainLobbyStep
    | LobbyCommandStep(sendFails: bool)
    | DrainGameStep
    | GameCommandStep
    | UpdateStep(room: int, geometry: Geometry)

  /** The commands a client can ask for besides Exit, which has its own steps. */
  predicate FromPacket(c: LobbyCommand) {
    c.Create? || c.Enter? || c.SetReady? || (c.Resume? && c.token != 0)
  }

  predicate Enabled(w: World, s: Step) {
    match s
    case ActivateStep => w.net.nextSid < SID_LIMIT
    case LoginReadStep(sid, newToken) =>
      sid in w.net.sessions && HandlerOf(w, sid) == Waiting && newToken != 0 && newToken !in w.issued
    case LoginWriteStep(sid) => sid in w.net.sessions && HandlerOf(w, sid).LoginRead?
    case LobbyStep(c) => c.sid in w.net.sessions && HandlerOf(w, c.sid) == Waiting && FromPacket(c)
    case ExitReadStep(sid) => sid in w.net.sessions && HandlerOf(w, sid) == Waiting
    case ExitQueueStep(sid) => sid in w.net.sessions && HandlerOf(w, sid).ExitRead?
    case ExitClearStep(sid) => sid in w.net.sessions && HandlerOf(w, sid).ExitQueued?
    case GameReadStep(sid) => sid in w.net.sessions && HandlerOf(w, sid) == Waiting
    case GameQueueStep(sid, _) => sid in w.net.sessions && HandlerOf(w, sid).GameRead?
    case RetireStep(sid) => sid in w.net.sessions
    case MoveStep(sid) => sid in w.net.sessions && w.net.sessions[sid].retired
    case PublishStep(sid) => sid in w.net.leaving
    case DrainStep => true
    case BeginIOStep(sid) => sid in w.net.sessions
    case CompleteIOStep(sid) => sid in w.net.sessions && w.net.sessions[sid].pendingIO > 0
    case ShutdownStep => true
    case ClockStep(_) => true
    case DrainLobbyStep => w.batch == []
    case LobbyCommandStep(_) => w.batch != []
    case DrainGameStep => w.gameBatch == []
    case GameCommandStep => w.gameBatch != []
    case UpdateStep(r, _) => IsValidRoom(r)
  }

  predicate ByPacketThread(s: Step) {
    s.LoginReadStep? || s.LoginWriteStep? || s.LobbyStep? || s.ExitReadStep? || s.ExitQueueStep? || s.ExitClearStep?
    || s.GameReadStep? || s.GameQueueStep?
  }

  predicate ByManager(s: Step) {
    s.ActivateStep? || s.RetireStep? || s.MoveStep? || s.PublishStep? || s.DrainStep?
    || s.BeginIOStep? || s.CompleteIOStep? || s.ShutdownStep?
  }

  predicate ByOwnerThread(s: Step) {
    s.DrainLobbyStep? || s.LobbyCommandStep? || s.DrainGameStep? || s.GameCommandStep? || s.UpdateStep?
  }

  function SetHandler(w: World, sid: int, h: Handler): World {
    w.(handlers := w.handlers[sid := h])
  }

  /** The owner takes the next command off its batch. */
  function Popped(w: World): World
    requires w.batch != []
  {
    w.(batch := w.batch[1..], executed := w.executed + [w.batch[0]])
  }

  function PoppedGame(w: World): World
    requires w.gameBatch != []
  {
    w.(gameBatch := w.gameBatch[1..])
  }

  function Least(a: int, b: int): int {
    if a < b then a else b
  }

  /** A step of the thread that handles a session's packets. */
  function ApplyPacket(w: World, s: Step): (w': World)
    requires Shaped(w) && Enabled(w, s) && ByPacketThread(s)
    ensures Shaped(w')
  {
    match s
    case LoginReadStep(sid, newToken) =>
      var t := w.net.sessions[sid].token;
      var w := w.(didLogin := w.didLogin + {sid});
      if t == 0 then SetHandler(w, sid, LoginRead(newToken)).(issued := w.issued + {newToken})
      else SetHandler(w, sid, LoginRead(t))
    case LoginWriteStep(sid) =>
      SetHandler(w, sid, Waiting).(net := SetToken(w.net, sid, HandlerOf(w, sid).token))
    case LobbyStep(c) =>
      var w := w.(net := EnqueueLobby(w.net, c));
      if c.Resume? then w.(didResume := w.didResume + {c.sid}) else w
    case ExitReadStep(sid) => SetHandler(w, sid, ExitRead(w.net.sessions[sid].binding.room))
    case ExitQueueStep(sid) =>
      var room := HandlerOf(w, sid).room;
      var command := Exit(sid, room);
      var accepted := LobbyAdmits(w.net.lobby, w.net.lobbyCapacity, command);
      SetHandler(w, sid, if accepted then ExitQueued(room) else Waiting).(net := EnqueueLobby(w.net, command))
    case ExitClearStep(sid) => SetHandler(w, sid, Waiting).(net := Clear(w.net, sid))
    case GameReadStep(sid) =>
      var b := w.net.sessions[sid].binding;
      if b.room == -1 then w else SetHandler(w, sid, GameRead(b))
    case GameQueueStep(sid, packet) =>
      var b := HandlerOf(w, sid).binding;
      var w := SetHandler(w, sid, Waiting);
      if |w.game| >= w.gameCapacity then w
      else w.(game := w.game + [GameCommand(sid, b.room, b.lease, packet)])
  }

  /** What a step of any thread inside the session manager does to the session table. */
  function ApplyManager(n: Net, s: Step): Net
    requires ByManager(s) && (s.BeginIOStep? ==> s.sid in n.sessions)
    requires s.CompleteIOStep? ==> s.sid in n.sessions && n.sessions[s.sid].pendingIO > 0
  {
    match s
    case ActivateStep => Activate(n)
    case RetireStep(sid) => Retire(n, sid)
    case MoveStep(sid) => Move(n, sid)
    case PublishStep(sid) => Publish(n, sid)
    case DrainStep => Drain(n)
    case BeginIOStep(sid) => WithSession(n, sid, n.sessions[sid].(pendingIO := n.sessions[sid].pendingIO + 1))
    case CompleteIOStep(sid) => WithSession(n, sid, n.sessions[sid].(pendingIO := n.sessions[sid].pendingIO - 1))
    case ShutdownStep => n.(accepting := false)
  }

  function ApplyOwner(w: World, s: Step): (w': World)
    requires Shaped(w) && Enabled(w, s) && ByOwnerThread(s)
    ensures Shaped(w')
  {
    match s
    case DrainLobbyStep =>
      var k := Least(|w.net.lobby|, MAX_COMMANDS_PER_UPDATE);
      w.(batch := w.net.lobby[..k], net := w.net.(lobby := w.net.lobby[k..]))
    case LobbyCommandStep(sendFails) => ExecuteLobby(Popped(w), w.batch[0], sendFails)
    case DrainGameStep =>
      var k := Least(|w.game|, MAX_COMMANDS_PER_UPDATE);
      w.(gameBatch := w.game[..k], game := w.game[k..])
    case GameCommandStep => ExecuteGame(PoppedGame(w), w.gameBatch[0])
    case UpdateStep(r, g) => UpdateRoom(w, r, g)
  }

  function Apply(w: World, s: Step): (w': World)
    requires Shaped(w) && Enabled(w, s)
    ensures Shaped(w')
  {
    if ByPacketThread(s) then ApplyPacket(w, s)
    else if ByManager(s) then w.(net := ApplyManager(w.net, s))
    else if s.ClockStep? then w.(now := w.now + s.elapsed)
    else ApplyOwner(w, s)
  }

  // ---- the start ----

  function NewPlayer(): Player {
    Player(-1, -1, false, 3, Idle, false, false, STILL, UNPLACED)
  }

  function NewRoom(number: int): Room {
    Room(number, Empty, 0, seq(PLAYERNUM, i => Member(-1, false, 0, 0, Connected, 0)),
         Match(NoGame, 0, seq(PLAYERNUM, i => NewPlayer()), seq(GENCNT, i => COLD), false, 0, [], [], 0, false))
  }

  function Initial(lobbyCapacity: nat, gameCapacity: nat): World {
    World(seq(ROOM_CAPACITY, i => NewRoom(i)),
          Net(map[], {}, {}, {}, true, 0, [], lobbyCapacity),
          [], gameCapacity, [], [], [], map[], 0, {}, {}, {})
  }
}
