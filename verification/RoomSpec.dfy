/** One room as a value: the specification of Room, given the session table. */
module RoomSpec {
  import opened RoomCommand
  import opened SessionSpec
  import opened Scheduler
  import opened MatchSpec

  const GRACE_PERIOD := 30_000

  datatype Connection = Connected | Reconnecting

  datatype Member = Member(
    sid: int, ready: bool, token: nat, generation: nat, connection: Connection, deadline: int)

  datatype Status = InGame | Full | NotFull | Empty

  datatype Room = Room(number: int, status: Status, count: nat, members: seq<Member>, game: Match)

  /** A room together with the session table that its operations also change. */
  datatype Scene = Scene(room: Room, net: Net)

  function Vacated(m: Member): Member {
    Member(-1, false, 0, m.generation + 1, Connected, 0)
  }

  function VacateAll(members: seq<Member>): seq<Member> {
    seq(|members|, i requires 0 <= i < |members| => Vacated(members[i]))
  }

  /** GetMemberIndex(sid, false). */
  function IndexOf(members: seq<Member>, sid: int, from: nat := 0): (i: int)
    requires from <= |members|
    ensures -1 <= i < |members|
    ensures i >= 0 ==> from <= i && members[i].sid == sid
    ensures forall k | from <= k < |members| && (i == -1 || k < i) :: members[k].sid != sid
    decreases |members| - from
  {
    if from == |members| then -1
    else if members[from].sid == sid then from
    else IndexOf(members, sid, from + 1)
  }

  function ConnectedIndex(members: seq<Member>, sid: int, from: nat := 0): (i: int)
    requires from <= |members|
    ensures -1 <= i < |members|
    ensures i >= 0 ==> from <= i && members[i].sid == sid && members[i].connection == Connected
    ensures forall k | from <= k < |members| && (i == -1 || k < i) ::
              members[k].sid != sid || members[k].connection != Connected
    decreases |members| - from
  {
    if from == |members| then -1
    else if members[from].sid == sid && members[from].connection == Connected then from
    else ConnectedIndex(members, sid, from + 1)
  }

  function TokenIndex(members: seq<Member>, token: nat, from: nat := 1): (i: int)
    requires from <= |members|
    ensures -1 <= i < |members|
    ensures i >= 0 ==> from <= i && members[i].token == token
    ensures forall k | from <= k < |members| && (i == -1 || k < i) :: members[k].token != token
    decreases |members| - from
  {
    if from == |members| then -1
    else if members[from].token == token then from
    else TokenIndex(members, token, from + 1)
  }

  predicate IsCurrentMember(members: seq<Member>, sid: int, generation: nat) {
    exists i | 0 <= i < |members| ::
      members[i].sid == sid && members[i].connection == Connected && members[i].generation == generation
  }

  predicate IsCurrentLease(r: Room, sid: int, lease: MatchLease) {
    && r.status == InGame
    && IsCurrentGeneration(r.game, lease.matchGeneration)
    && IsCurrentMember(r.members, sid, lease.memberGeneration)
  }

  function Sids(members: seq<Member>): (sids: seq<int>)
    ensures |sids| == |members|
    ensures forall i | 0 <= i < |members| :: sids[i] == members[i].sid
  {
    seq(|members|, i requires 0 <= i < |members| => members[i].sid)
  }

  function ClearEach(n: Net, sids: seq<int>): Net
    decreases |sids|
  {
    if sids == [] then n else ClearEach(ClearFound(n, sids[0]), sids[1..])
  }

  /** The slot leaves the room; what follows depends on the room's status. */
  function Remove(r: Room, i: int): Room
    requires 0 <= i < |r.members|
  {
    r.(members := r.members[i := Vacated(r.members[i])], count := if r.count > 0 then r.count - 1 else 0)
  }

  function LeaveGame(c: Scene, sid: int): Scene {
    var (m, departure) := PlayerLeft(c.room.game, sid);
    if departure == EndMatch then
      Scene(c.room.(game := m, members := VacateAll(c.room.members), count := 0, status := Empty),
            ClearEach(c.net, Sids(c.room.members)))
    else Scene(c.room.(game := m), c.net)
  }

  function LeaveLobby(r: Room): Room {
    if r.count == 0 then r.(status := Empty, members := VacateAll(r.members))
    else r.(status := if r.status == Full then NotFull else r.status)
  }

  /** The arrays of a room never change length. */
  predicate SameShape(a: Room, b: Room) {
    && |a.members| == |b.members|
    && |a.game.players| == |b.game.players|
    && |a.game.generators| == |b.game.generators|
  }

  function UserOut(c: Scene, sid: int): (c': Scene)
    ensures SameShape(c.room, c'.room)
  {
    var i := IndexOf(c.room.members, sid);
    if i < 0 then c
    else
      var c' := Scene(Remove(c.room, i), ClearFound(c.net, sid));
      if c.room.status == InGame then LeaveGame(c', sid)
      else c'.(room := LeaveLobby(c'.room))
  }

  function UserOutEach(c: Scene, sids: seq<int>): (c': Scene)
    ensures SameShape(c.room, c'.room)
    decreases |sids|
  {
    if sids == [] then c
    else UserOutEach(if sids[0] != -1 then UserOut(c, sids[0]) else c, sids[1..])
  }

  function Dropped(m: Member, now: int): Member {
    m.(connection := Reconnecting, deadline := now + GRACE_PERIOD, generation := m.generation + 1)
  }

  function TransportDisconnected(c: Scene, sid: int, token: nat, now: int): (c': Scene)
    ensures SameShape(c.room, c'.room)
  {
    var i := IndexOf(c.room.members, sid);
    if i < 0 then c
    else if c.room.status != InGame || i == 0 || token == 0 then UserOut(c, sid)
    else
      var m := c.room.members[i];
      if m.connection == Reconnecting || m.token != token then c
      else c.(room := c.room.(members := c.room.members[i := Dropped(m, now)], game := Pause(c.room.game, sid)))
  }

  /** The first free slot, as UserIn looks for it. */
  function FreeIndex(members: seq<Member>): (i: int)
    ensures -1 <= i < |members|
    ensures i >= 0 ==> members[i].sid == -1
    ensures forall k | 0 <= k < |members| && (i == -1 || k < i) :: members[k].sid != -1
  {
    IndexOf(members, -1)
  }

  predicate Unbound(n: Net, sid: int)
    requires sid in n.sessions
  {
    n.sessions[sid].binding.room == -1
  }

  /** UserIn succeeds. */
  predicate CanEnter(c: Scene, sid: int) {
    && Found(c.net, sid)
    && c.net.sessions[sid].token != 0
    && c.room.status == NotFull
    && FreeIndex(c.room.members) >= 0
    && !c.net.sessions[sid].retired
  }

  function UserIn(c: Scene, sid: int): (c': Scene)
    ensures SameShape(c.room, c'.room)
  {
    if !CanEnter(c, sid) then c
    else
      var i := FreeIndex(c.room.members);
      var generation := c.room.members[i].generation + 1;
      var m := Member(sid, false, c.net.sessions[sid].token, generation, Connected, 0);
      var room := c.room.(members := c.room.members[i := m], count := c.room.count + 1);
      Scene(room.(status := if room.count == PLAYERNUM then Full else NotFull),
            Bound(c.net, sid, GameBinding(c.room.number, MatchLease(generation, 0))))
  }

  /** ResumeUser succeeds, into slot TokenIndex(members, token). */
  predicate CanResume(c: Scene, sid: int, token: nat, now: int) {
    && Found(c.net, sid) && Unbound(c.net, sid)
    && c.room.status == InGame
    && |c.room.members| >= 1
    && var i := TokenIndex(c.room.members, token);
    && i >= 0
    && !(c.room.members[i].connection == Reconnecting && now >= c.room.members[i].deadline)
    && !c.net.sessions[sid].retired
  }

  function Taken(m: Member, sid: int): Member {
    m.(sid := sid, connection := Connected, deadline := 0, generation := m.generation + 1)
  }

  function ResumeUser(c: Scene, sid: int, token: nat, now: int): (c': Scene)
    requires |c.room.game.players| == |c.room.members|
    ensures SameShape(c.room, c'.room)
  {
    if !CanResume(c, sid, token, now) then c
    else
      var i := TokenIndex(c.room.members, token);
      var m := c.room.members[i];
      var lease := MatchLease(m.generation + 1, c.room.game.generation);
      var n := SetToken(Bound(c.net, sid, GameBinding(c.room.number, lease)), sid, token);
      var room := c.room.(members := c.room.members[i := Taken(m, sid)], game := Rebind(c.room.game, sid, i));
      Scene(room, if m.connection == Connected && m.sid != sid && Found(n, m.sid)
                  then RequestRemove(ClearFound(n, m.sid), m.sid) else n)
  }

  /** The sids that ExpireReconnects collects, in slot order. */
  function Expired(members: seq<Member>, now: int): seq<int> {
    if members == [] then []
    else if members[0].connection == Reconnecting && now >= members[0].deadline then
      [members[0].sid] + Expired(members[1..], now)
    else Expired(members[1..], now)
  }

  function ExpireReconnects(c: Scene, now: int): (c': Scene)
    ensures SameShape(c.room, c'.room)
  {
    UserOutEach(c, Expired(c.room.members, now))
  }

  // ---- starting and running a match ----

  predicate CanSetReady(r: Room, sid: int) {
    (r.status == NotFull || r.status == Full) && ConnectedIndex(r.members, sid) >= 0
  }

  function SetReadyFlag(r: Room, sid: int, ready: bool): Room {
    if !CanSetReady(r, sid) then r
    else
      var i := ConnectedIndex(r.members, sid);
      r.(members := r.members[i := r.members[i].(ready := ready)])
  }

  predicate AllReady(members: seq<Member>) {
    forall i | 0 <= i < |members| :: members[i].ready
  }

  function BindMatchEach(n: Net, sids: seq<int>, generation: nat): Net
    decreases |sids|
  {
    if sids == [] then n else BindMatchEach(BindMatchFound(n, sids[0], generation), sids[1..], generation)
  }

  function Unreadied(members: seq<Member>): seq<Member> {
    seq(|members|, i requires 0 <= i < |members| => members[i].(ready := false))
  }

  function InitGame(c: Scene): (c': Scene)
    requires |c.room.game.players| == |c.room.members|
    ensures SameShape(c.room, c'.room)
  {
    if !AllReady(c.room.members) then c
    else
      var sids := Sids(c.room.members);
      var game := Start(c.room.game, sids);
      Scene(c.room.(members := Unreadied(c.room.members), game := game, status := InGame),
            BindMatchEach(c.net, sids, game.generation))
  }

  /** Pops and runs the events due at `now`; one whose lease is stale is dropped. */
  function RunDue(r: Room, now: int, g: Geometry): (r': Room)
    requires |r.game.players| == PLAYERNUM && |r.game.generators| == GENCNT
    ensures |r'.game.players| == PLAYERNUM && |r'.game.generators| == GENCNT && |r'.members| == |r.members|
    decreases |r.game.queue|
  {
    if r.game.queue == [] || now < r.game.queue[0].time then r
    else
      var e := r.game.queue[0];
      var popped := r.(game := r.game.(queue := r.game.queue[1..]));
      if IsCurrentLease(r, e.task.sid, e.task.lease)
      then RunDue(popped.(game := Effect(popped.game, e.task.sid, e.task.kind, g)), now, g)
      else RunDue(popped, now, g)
  }

  function Tick(r: Room, now: int, g: Geometry): (r': Room)
    requires |r.game.players| == PLAYERNUM && |r.game.generators| == GENCNT
    ensures SameShape(r, r')
  {
    var r' := if r.game.state == Playing then RunDue(r, now, g) else r;
    r'.(game := FinishTick(r'.game, g))
  }

  predicate Decided(m: Match) {
    m.state == EmpWin || m.state == BossWin
  }

  /** The end of a decided match: everybody leaves, then the match is reset. */
  function Close(c: Scene): (c': Scene)
    ensures SameShape(c.room, c'.room)
  {
    var c' := UserOutEach(c.(room := c.room.(status := Full)), Sids(c.room.members));
    c'.(room := c'.room.(game := Reset(c'.room.game)))
  }

  /** The part of Update after the expiry of reconnects. */
  function Play(c: Scene, now: int, g: Geometry): (c': Scene)
    requires |c.room.game.players| == PLAYERNUM && |c.room.game.generators| == GENCNT
    ensures SameShape(c.room, c'.room)
  {
    if c.room.status != InGame then c
    else
      var c' := c.(room := Tick(c.room, now, g));
      if Decided(c'.room.game) then Close(c') else c'
  }

  function Update(c: Scene, now: int, g: Geometry): (c': Scene)
    requires |c.room.game.players| == PLAYERNUM && |c.room.game.generators| == GENCNT
    ensures SameShape(c.room, c'.room)
  {
    if c.room.status != InGame then c else Play(ExpireReconnects(c, now), now, g)
  }

  /** The part of ProcessGamePacket that the room does; `Kind` is the event a packet asks for. */
  function Kind(p: GamePacket): (k: seq<EventKind>)
    ensures |k| <= 1
  {
    match p
    case KeyPacket(keys, dir) => [Movement(keys, dir)]
    case AttackPacket(target, frame) => if 0 <= target < PLAYERNUM then [Attack(target, frame)] else []
    case EventPacket(eventId) => [Interaction(eventId)]
    case Other => []
  }

  function ProcessGamePacket(c: Scene, command: GameCommand, now: int): (c': Scene)
    ensures SameShape(c.room, c'.room)
  {
    if !IsCurrentLease(c.room, command.sid, command.lease) then c
    else if command.packet.AttackPacket? && !(0 <= command.packet.target < PLAYERNUM) then
      c.(net := RequestRemove(c.net, command.sid))
    else if Kind(command.packet) == [] then c
    else c.(room := c.room.(game := Schedule(c.room.game, now, command.sid, command.lease, Kind(command.packet)[0])))
  }
}
