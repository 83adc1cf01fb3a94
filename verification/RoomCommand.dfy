/** Leases, commands and the two bounded FIFO queues between I/O threads and the room owner. */
module RoomCommand {

  /** Names one stay of a member in a slot (`memberGeneration`) during one match (`matchGeneration`). */
  datatype MatchLease = MatchLease(memberGeneration: nat, matchGeneration: nat) {
    predicate Matches(currentMember: nat, currentMatch: nat) {
      && memberGeneration != 0 && matchGeneration != 0
      && memberGeneration == currentMember && matchGeneration == currentMatch
    }
  }

  datatype LobbyCommand =
    | SessionConnected(sid: int)
    | Create(sid: int)
    | Enter(sid: int, room: int)
    | SetReady(sid: int, ready: bool)
    | Exit(sid: int, room: int)
    | Disconnected(sid: int, token: nat)
    | Resume(sid: int, token: nat)

  type PlayerIndex = i: int | 0 <= i < 4

  /** The direction of a movement packet, already made a unit vector by the receiving session. */
  datatype Direction = Direction(x: real, z: real)

  datatype Keys = Keys(forward: bool, backward: bool, right: bool, left: bool)

  /** A game packet as the room reads it; `Other` is rotation, chat or a packet of the wrong size. */
  datatype GamePacket =
    | KeyPacket(keys: Keys, dir: Direction)
    | AttackPacket(target: int, frame: int)
    | EventPacket(eventId: int)
    | Other

  datatype GameCommand = GameCommand(sid: int, room: int, lease: MatchLease, packet: GamePacket)

  /** Admission to the lobby queue: a full queue still takes `Disconnected`. */
  predicate LobbyAdmits(queue: seq<LobbyCommand>, capacity: nat, command: LobbyCommand) {
    |queue| < capacity || command.Disconnected?
  }

  /** The number of entries in the lobby queue that the capacity is meant to bound. */
  function Ordinary(queue: seq<LobbyCommand>): nat {
    if queue == [] then 0
    else Ordinary(queue[..|queue| - 1]) + if queue[|queue| - 1].Disconnected? then 0 else 1
  }

  lemma {:induction false} OrdinaryConcat(a: seq<LobbyCommand>, b: seq<LobbyCommand>)
    ensures Ordinary(a + b) == Ordinary(a) + Ordinary(b)
    ensures Ordinary(a) <= |a|
  {
    if b == [] {
      assert a + b == a;
      OrdinaryAtMostLength(a);
    } else {
      assert (a + b)[..|a + b| - 1] == a + b[..|b| - 1];
      OrdinaryConcat(a, b[..|b| - 1]);
    }
  }

  lemma {:induction false} OrdinaryAtMostLength(a: seq<LobbyCommand>)
    ensures Ordinary(a) <= |a|
  {
    if a != [] { OrdinaryAtMostLength(a[..|a| - 1]); }
  }

  /** What one admission attempt does to the queue. */
  function Enqueue(queue: seq<LobbyCommand>, capacity: nat, command: LobbyCommand): seq<LobbyCommand> {
    if LobbyAdmits(queue, capacity, command) then queue + [command] else queue
  }

  /** Only `Disconnected` can cross the capacity: the other entries never exceed it. */
  lemma EnqueueKeepsOrdinaryBounded(queue: seq<LobbyCommand>, capacity: nat, command: LobbyCommand)
    requires Ordinary(queue) <= capacity
    ensures Ordinary(Enqueue(queue, capacity, command)) <= capacity
    ensures queue <= Enqueue(queue, capacity, command)
  {
    OrdinaryConcat(queue, [command]);
    assert [command][..0] == [];
    assert Ordinary([command]) == if command.Disconnected? then 0 else 1;
  }

  class LobbyCommandQueue {
    const capacity: nat
    var commands: seq<LobbyCommand>

    constructor (capacity: nat)
      ensures this.capacity == capacity && commands == []
    {
      this.capacity := capacity;
      commands := [];
    }

    method TryEnqueue(command: LobbyCommand) returns (accepted: bool)
      modifies this`commands
      ensures accepted <==> LobbyAdmits(old(commands), capacity, command)
      ensures commands == Enqueue(old(commands), capacity, command)
    {
      if |commands| >= capacity && !command.Disconnected? {
        return false;
      }
      commands := commands + [command];
      return true;
    }

    /** Takes at most `maxCount` commands off the front, oldest first. */
    method Drain(maxCount: nat) returns (drained: seq<LobbyCommand>)
      modifies this`commands
      ensures drained + commands == old(commands)
      ensures |drained| == if |old(commands)| < maxCount then |old(commands)| else maxCount
    {
      drained := [];
      var count := if |commands| < maxCount then |commands| else maxCount;
      for i := 0 to count
        invariant |drained| == i && |commands| == |old(commands)| - i
        invariant drained + commands == old(commands)
      {
        drained := drained + [commands[0]];
        commands := commands[1..];
      }
    }
  }

  class GameCommandQueue {
    const capacity: nat
    var commands: seq<GameCommand>

    constructor (capacity: nat)
      ensures this.capacity == capacity && commands == []
    {
      this.capacity := capacity;
      commands := [];
    }

    method TryEnqueue(command: GameCommand) returns (accepted: bool)
      modifies this`commands
      ensures accepted <==> |old(commands)| < capacity
      ensures commands == if accepted then old(commands) + [command] else old(commands)
    {
      if |commands| >= capacity {
        return false;
      }
      commands := commands + [command];
      return true;
    }

    method Drain(maxCount: nat) returns (drained: seq<GameCommand>)
      modifies this`commands
      ensures drained + commands == old(commands)
      ensures |drained| == if |old(commands)| < maxCount then |old(commands)| else maxCount
    {
      drained := [];
      var count := if |commands| < maxCount then |commands| else maxCount;
      for i := 0 to count
        invariant |drained| == i && |commands| == |old(commands)| - i
        invariant drained + commands == old(commands)
      {
        drained := drained + [commands[0]];
        commands := commands[1..];
      }
    }
  }
}
