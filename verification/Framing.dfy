/**
 * Packets cut out of byte streams. Server and client keep what is left of an incomplete packet for the next
 * receive; however the stream is cut into receives, the result is that of one parse of the whole stream.
 */
module Framing {

  newtype byte = b: int | 0 <= b < 256

  const BUFSIZE := 512
  const HEADER_SIZE := 2

  /** The receiving side: its table of packet sizes and its order of checks. */
  datatype Side = Server | Client

  /** Size of the packet struct a client sends under each type; 0 for unknown types. */
  function ClientPacketSize(kind: byte): (size: nat)
    ensures size == 0 || HEADER_SIZE <= size <= 54
  {
    match kind
    case 149 => 42
    case 150 => 42
    case 151 => 4
    case 159 => 10
    case 119 => 2
    case 121 => 2
    case 122 => 2
    case 123 => 2
    case 120 => 6
    case 153 => 12
    case 154 => 6
    case 152 => 54
    case 156 => 8
    case 208 => 3
    case _ => 0
  }

  /** Size of the packet struct the server sends under each type; 0 for unknown types. */
  function ServerPacketSize(kind: byte): (size: nat)
    ensures size == 0 || HEADER_SIZE <= size <= 54
  {
    match kind
    case 148 => 2
    case 149 => 2
    case 150 => 14
    case 151 => 3
    case 159 => 7
    case 160 => 2
    case 119 => 2
    case 120 => 2
    case 123 => 2
    case 121 => 4
    case 122 => 4
    case 124 => 4
    case 125 => 14
    case 126 => 4
    case 127 => 4
    case 128 => 10
    case 152 => 54
    case 153 => 13
    case 154 => 8
    case 155 => 12
    case 157 => 4
    case 158 => 6
    case 208 => 3
    case _ => 0
  }

  /** What the head of a stream asks for. */
  datatype Verdict = NeedMore | Reject | Skip(size: nat) | Take(size: nat)

  /** The server rejects a bad header at once; the client judges a packet only when all of it is there. */
  function Head(side: Side, x: seq<byte>): (v: Verdict)
    ensures v.Skip? || v.Take? ==> HEADER_SIZE <= v.size <= |x|
  {
    if |x| < HEADER_SIZE then NeedMore
    else
      var size := x[0] as nat;
      match side
      case Server =>
        var expected := ClientPacketSize(x[1]);
        if size < HEADER_SIZE || expected == 0 || size != expected then Reject
        else if size > |x| then NeedMore
        else Take(size)
      case Client =>
        if size < HEADER_SIZE then Reject
        else if size > |x| then NeedMore
        else
          var expected := ServerPacketSize(x[1]);
          if expected == 0 then Skip(size) else if size != expected then Reject else Take(size)
  }

  /** `Open(rest)`: waiting for more; `Rejected`: a malformed packet; `Ended`: the handler wants no more. */
  datatype Status = Open(rest: seq<byte>) | Rejected | Ended

  /** The handler's state after the packets so far, and how the stream stands. */
  datatype Parsed<S> = Parsed(state: S, status: Status)

  /** Parses a whole stream, handing each packet to the handler, which answers whether to go on. */
  function Parse<S>(side: Side, handle: (S, seq<byte>) -> (S, bool), state: S, x: seq<byte>): Parsed<S>
    decreases |x|
  {
    match Head(side, x)
    case NeedMore => Parsed(state, Open(x))
    case Reject => Parsed(state, Rejected)
    case Skip(size) => Parse(side, handle, state, x[size..])
    case Take(size) =>
      var (next, more) := handle(state, x[..size]);
      if more then Parse(side, handle, next, x[size..]) else Parsed(next, Ended)
  }

  /** One receive: what was left over, then the new bytes. */
  function Feed<S>(side: Side, handle: (S, seq<byte>) -> (S, bool), p: Parsed<S>, chunk: seq<byte>): Parsed<S> {
    if p.status.Open? then Parse(side, handle, p.state, p.status.rest + chunk) else p
  }

  function FeedAll<S>(side: Side, handle: (S, seq<byte>) -> (S, bool), p: Parsed<S>, chunks: seq<seq<byte>>): Parsed<S>
    decreases |chunks|
  {
    if chunks == [] then p else FeedAll(side, handle, Feed(side, handle, p, chunks[0]), chunks[1..])
  }

  function Concat(chunks: seq<seq<byte>>): seq<byte>
    decreases |chunks|
  {
    if chunks == [] then [] else chunks[0] + Concat(chunks[1..])
  }

  /** A verdict, once given, does not depend on what comes later. */
  lemma HeadIsStable(side: Side, x: seq<byte>, y: seq<byte>)
    requires Head(side, x) != NeedMore
    ensures Head(side, x + y) == Head(side, x)
  {
  }

  /** Parsing in two instalments is parsing at once. */
  lemma {:induction false} ParseInTwo<S>(side: Side, handle: (S, seq<byte>) -> (S, bool), state: S, x: seq<byte>, y: seq<byte>)
    ensures Feed(side, handle, Parse(side, handle, state, x), y) == Parse(side, handle, state, x + y)
    decreases |x|
  {
    var v := Head(side, x);
    if v != NeedMore {
      HeadIsStable(side, x, y);
      if v.Skip? || v.Take? {
        assert (x + y)[v.size..] == x[v.size..] + y && (x + y)[..v.size] == x[..v.size];
        if v.Skip? {
          ParseInTwo(side, handle, state, x[v.size..], y);
        } else {
          ParseInTwo(side, handle, handle(state, x[..v.size]).0, x[v.size..], y);
        }
      }
    }
  }

  /** An open parse stops at its own leftovers. */
  lemma {:induction false} LeftoverIsIncomplete<S>(side: Side, handle: (S, seq<byte>) -> (S, bool), state: S, x: seq<byte>)
    ensures var p := Parse(side, handle, state, x);
            p.status.Open? ==> Head(side, p.status.rest) == NeedMore && |p.status.rest| <= |x|
    decreases |x|
  {
    var v := Head(side, x);
    if v.Skip? {
      LeftoverIsIncomplete(side, handle, state, x[v.size..]);
    } else if v.Take? {
      LeftoverIsIncomplete(side, handle, handle(state, x[..v.size]).0, x[v.size..]);
    }
  }

  /** Any split of a stream into receives gives the packets, the outcome and the leftovers of one parse. */
  lemma {:induction false} ChunkingDoesNotMatter<S>(side: Side, handle: (S, seq<byte>) -> (S, bool), state: S,
                                                     x: seq<byte>, chunks: seq<seq<byte>>)
    ensures FeedAll(side, handle, Parse(side, handle, state, x), chunks) == Parse(side, handle, state, x + Concat(chunks))
    decreases |chunks|
  {
    if chunks == [] {
      assert x + Concat(chunks) == x;
    } else {
      ParseInTwo(side, handle, state, x, chunks[0]);
      ChunkingDoesNotMatter(side, handle, state, x + chunks[0], chunks[1..]);
      assert x + chunks[0] + Concat(chunks[1..]) == x + Concat(chunks);
    }
  }

  /** The two ends of a fresh connection agree with one parse of everything received. */
  lemma StreamsAgree<S>(side: Side, handle: (S, seq<byte>) -> (S, bool), state: S, chunks: seq<seq<byte>>)
    ensures FeedAll(side, handle, Parsed(state, Open([])), chunks) == Parse(side, handle, state, Concat(chunks))
  {
    ChunkingDoesNotMatter(side, handle, state, [], chunks);
    assert [] + Concat(chunks) == Concat(chunks);
  }

  /**
   * What is carried to the next receive is less than one packet: under 54 bytes on the server and under 255 on
   * the client, so there is always room to receive into.
   */
  lemma CarryIsSmall(side: Side, x: seq<byte>)
    requires Head(side, x) == NeedMore
    ensures |x| < match side { case Server => 54 case Client => 255 }
    ensures BUFSIZE - |x| > 0
  {
  }

  // ---- streams of well-formed packets ----

  predicate WellFormed(side: Side, packet: seq<byte>) {
    && HEADER_SIZE <= |packet| < 256 && packet[0] as nat == |packet|
    && |packet| == match side { case Server => ClientPacketSize(packet[1]) case Client => ServerPacketSize(packet[1]) }
  }

  /** The handler that only collects packets. */
  function Collect(packets: seq<seq<byte>>, packet: seq<byte>): (seq<seq<byte>>, bool) {
    (packets + [packet], true)
  }

  /** Sending packets one after the other and parsing the stream gives back the packets, and waits for the rest. */
  lemma {:induction false} PacketsComeBack(side: Side, before: seq<seq<byte>>, packets: seq<seq<byte>>, rest: seq<byte>)
    requires forall i | 0 <= i < |packets| :: WellFormed(side, packets[i])
    requires Head(side, rest) == NeedMore
    ensures Parse(side, Collect, before, Concat(packets) + rest) == Parsed(before + packets, Open(rest))
    decreases |packets|
  {
    if packets == [] {
      assert Concat(packets) + rest == rest && before + packets == before;
    } else {
      var p, x := packets[0], Concat(packets) + rest;
      assert x == p + (Concat(packets[1..]) + rest);
      assert Head(side, p) == Take(|p|);
      HeadIsStable(side, p, Concat(packets[1..]) + rest);
      assert x[..|p|] == p && x[|p|..] == Concat(packets[1..]) + rest;
      PacketsComeBack(side, before + [p], packets[1..], rest);
      assert before + [p] + packets[1..] == before + packets;
    }
  }

  /** A whole packet of a type that the client does not know, which it passes over. */
  predicate Ignorable(side: Side, packet: seq<byte>) {
    side == Client && HEADER_SIZE <= |packet| && packet[0] as nat == |packet| && ServerPacketSize(packet[1]) == 0
  }

  /** A packet is taken off the head of a stream iff it is well formed, and passed over iff it is ignorable. */
  lemma HeadTakesIff(side: Side, x: seq<byte>, n: nat)
    requires n <= |x|
    ensures Head(side, x) == Take(n) <==> WellFormed(side, x[..n])
    ensures Head(side, x) == Skip(n) <==> Ignorable(side, x[..n])
  {
    if n >= HEADER_SIZE { assert x[..n][0] == x[0] && x[..n][1] == x[1]; }
  }

  /** Nothing that may still arrive completes a packet. */
  ghost predicate Hopeless(side: Side, x: seq<byte>) {
    |x| >= HEADER_SIZE && forall y :: Head(side, x + y).NeedMore? || Head(side, x + y).Reject?
  }

  /** Short of a rejection, some continuation does. */
  lemma SomethingHelps(side: Side, x: seq<byte>) returns (y: seq<byte>)
    requires |x| >= HEADER_SIZE && Head(side, x) != Reject && (side == Server || x[0] as nat <= |x|)
    ensures Head(side, x + y).Take? || Head(side, x + y).Skip?
  {
    y := seq(x[0] as nat, i => 0);
    assert (x + y)[0] == x[0] && (x + y)[1] == x[1];
  }

  /** The server rejects a stream as soon as no packet can come of it; the client waits until the packet is all there. */
  lemma RejectsIff(side: Side, x: seq<byte>)
    ensures Head(side, x) == Reject <==> Hopeless(side, x) && (side == Server || x[0] as nat <= |x|)
  {
    if Head(side, x) == Reject {
      forall y ensures Head(side, x + y) == Reject { HeadIsStable(side, x, y); }
      assert x + [] == x;
    } else if |x| >= HEADER_SIZE && (side == Server || x[0] as nat <= |x|) {
      var y := SomethingHelps(side, x);
    }
  }

  /** The packets that are handed on. */
  function Taken(side: Side, packets: seq<seq<byte>>): seq<seq<byte>>
    decreases |packets|
  {
    if packets == [] then []
    else (if WellFormed(side, packets[0]) then [packets[0]] else []) + Taken(side, packets[1..])
  }

  lemma FirstYields(side: Side, before: seq<seq<byte>>, p: seq<byte>, x: seq<byte>)
    requires WellFormed(side, p) || Ignorable(side, p)
    ensures Parse(side, Collect, before, p + x)
            == Parse(side, Collect, if WellFormed(side, p) then before + [p] else before, x)
  {
    assert (p + x)[..|p|] == p && (p + x)[|p|..] == x;
    HeadTakesIff(side, p + x, |p|);
  }

  /** Any mix of well-formed and ignorable packets yields the former, in order, whatever follows. */
  lemma {:induction false} StreamYields(side: Side, before: seq<seq<byte>>, packets: seq<seq<byte>>, x: seq<byte>)
    requires forall i | 0 <= i < |packets| :: WellFormed(side, packets[i]) || Ignorable(side, packets[i])
    ensures Parse(side, Collect, before, Concat(packets) + x) == Parse(side, Collect, before + Taken(side, packets), x)
    decreases |packets|
  {
    if packets == [] {
      assert Concat(packets) + x == x && before + Taken(side, packets) == before;
    } else {
      var p, tail := packets[0], packets[1..];
      var next := if WellFormed(side, p) then before + [p] else before;
      assert Concat(packets) + x == p + (Concat(tail) + x);
      FirstYields(side, before, p, Concat(tail) + x);
      StreamYields(side, next, tail, x);
      OneMoreTaken(side, before, packets);
    }
  }

  lemma OneMoreTaken(side: Side, before: seq<seq<byte>>, packets: seq<seq<byte>>)
    requires packets != []
    ensures (if WellFormed(side, packets[0]) then before + [packets[0]] else before) + Taken(side, packets[1..])
            == before + Taken(side, packets)
  {
  }

  /** A stream that goes wrong has handed on what came before, and nothing more. */
  lemma RejectedAfter(side: Side, packets: seq<seq<byte>>, bad: seq<byte>)
    requires forall i | 0 <= i < |packets| :: WellFormed(side, packets[i]) || Ignorable(side, packets[i])
    requires Head(side, bad) == Reject
    ensures Parse(side, Collect, [], Concat(packets) + bad) == Parsed(Taken(side, packets), Rejected)
  {
    StreamYields(side, [], packets, bad);
    assert [] + Taken(side, packets) == Taken(side, packets);
  }

  /** The handler's state after these packets, and whether it wants more; after a refusal none is handed on. */
  function HandedOn<S>(handle: (S, seq<byte>) -> (S, bool), state: S, packets: seq<seq<byte>>): (S, bool)
    decreases |packets|
  {
    if packets == [] then (state, true)
    else
      var (next, more) := handle(state, packets[0]);
      if more then HandedOn(handle, next, packets[1..]) else (next, false)
  }

  /** Whatever the handler: well-formed packets are handed on one by one, until it refuses one, which ends the stream. */
  lemma {:induction false} PacketsAreHandedOn<S>(side: Side, handle: (S, seq<byte>) -> (S, bool), state: S,
                                                 packets: seq<seq<byte>>, x: seq<byte>)
    requires forall i | 0 <= i < |packets| :: WellFormed(side, packets[i])
    ensures var (last, more) := HandedOn(handle, state, packets);
            Parse(side, handle, state, Concat(packets) + x)
            == if more then Parse(side, handle, last, x) else Parsed(last, Ended)
    decreases |packets|
  {
    if packets == [] {
      assert Concat(packets) + x == x;
    } else {
      var p, y := packets[0], Concat(packets[1..]) + x;
      assert Concat(packets) + x == p + y && (p + y)[..|p|] == p && (p + y)[|p|..] == y;
      HeadTakesIff(side, p + y, |p|);
      PacketsAreHandedOn(side, handle, handle(state, p).0, packets[1..], x);
    }
  }

  // ---- the sizes ----

  /** A packed struct, by how many fields of each width follow its two header bytes. */
  datatype Struct = Unknown | Fields(bytes: nat, words: nat, doubles: nat, quads: nat)

  function SizeOf(s: Struct): nat {
    match s
    case Unknown => 0
    case Fields(bytes, words, doubles, quads) => 2 + bytes + 2 * words + 4 * doubles + 8 * quads
  }

  /** The structs a client sends, by packet type. */
  function ClientStruct(kind: byte): Struct {
    match kind
    case 149 => Fields(0, 20, 0, 0)
    case 150 => Fields(0, 20, 0, 0)
    case 151 => Fields(0, 1, 0, 0)
    case 159 => Fields(0, 0, 0, 1)
    case 119 => Fields(0, 0, 0, 0)
    case 120 => Fields(0, 0, 1, 0)
    case 121 => Fields(0, 0, 0, 0)
    case 122 => Fields(0, 0, 0, 0)
    case 123 => Fields(0, 0, 0, 0)
    case 152 => Fields(50, 1, 0, 0)
    case 153 => Fields(2, 0, 2, 0)
    case 154 => Fields(0, 0, 1, 0)
    case 156 => Fields(0, 1, 1, 0)
    case 208 => Fields(1, 0, 0, 0)
    case _ => Unknown
  }

  /** The structs the server sends, by packet type. */
  function ServerStruct(kind: byte): Struct {
    match kind
    case 148 => Fields(0, 0, 0, 0)
    case 149 => Fields(0, 0, 0, 0)
    case 150 => Fields(0, 2, 0, 1)
    case 151 => Fields(1, 0, 0, 0)
    case 159 => Fields(1, 2, 0, 0)
    case 160 => Fields(0, 0, 0, 0)
    case 119 => Fields(0, 0, 0, 0)
    case 120 => Fields(0, 0, 0, 0)
    case 123 => Fields(0, 0, 0, 0)
    case 121 => Fields(0, 1, 0, 0)
    case 122 => Fields(0, 1, 0, 0)
    case 124 => Fields(2, 0, 0, 0)
    case 125 => Fields(4, 4, 0, 0)
    case 126 => Fields(0, 1, 0, 0)
    case 127 => Fields(0, 1, 0, 0)
    case 128 => Fields(0, 4, 0, 0)
    case 152 => Fields(50, 1, 0, 0)
    case 153 => Fields(1, 1, 2, 0)
    case 154 => Fields(0, 1, 1, 0)
    case 155 => Fields(0, 1, 2, 0)
    case 157 => Fields(2, 0, 0, 0)
    case 158 => Fields(0, 0, 1, 0)
    case 208 => Fields(1, 0, 0, 0)
    case _ => Unknown
  }

  /** The tables of expected sizes are the sizes of the structs. */
  lemma SizesAreStructs(kind: byte)
    ensures ClientPacketSize(kind) == SizeOf(ClientStruct(kind)) && ServerPacketSize(kind) == SizeOf(ServerStruct(kind))
  {
  }

  // ---- the receiving objects ----

  /** memmove of `len` bytes from `from` to the front. */
  method MoveToFront(a: array<byte>, from: nat, len: nat)
    requires from + len <= a.Length
    modifies a
    ensures a[..len] == old(a[from..from + len])
  {
    for i := 0 to len
      invariant forall k | 0 <= k < i :: a[k] == old(a[from + k])
      invariant forall k | i <= k < a.Length :: a[k] == old(a[k])
    {
      a[i] := a[from + i];
    }
  }

  /** The packet at `p` of a buffer that holds `bytes`, and what follows it. */
  lemma CutPacket(rbuf: seq<byte>, bytes: seq<byte>, p: nat, size: nat)
    requires bytes <= rbuf && p + size <= |bytes|
    ensures bytes[p..][..size] == rbuf[p..p + size] && bytes[p..][size..] == bytes[p + size..]
    ensures size >= HEADER_SIZE ==> |bytes[p..]| >= HEADER_SIZE && bytes[p..][0] == rbuf[p] && bytes[p..][1] == rbuf[p + 1]
  {
  }

  lemma Leftover(rbuf: seq<byte>, bytes: seq<byte>, p: nat)
    requires bytes <= rbuf && p <= |bytes|
    ensures bytes[p..] == rbuf[p..|bytes|]
  {
  }

  /** The server's end of a connection; `handle` is ProcessPacket, whose effects beyond its answer are in `state`. */
  class ServerReceiver<S> {
    const rbuf: array<byte>
    const handle: (S, seq<byte>) -> (S, bool)
    var cbPrevRemainPacket: nat
    var state: S
    var removed: bool

    constructor (handle: (S, seq<byte>) -> (S, bool), state: S)
      ensures Valid() && !removed && cbPrevRemainPacket == 0 && this.state == state && this.handle == handle
      ensures fresh(rbuf)
    {
      rbuf := new byte[BUFSIZE](i => 0);
      this.handle, this.state, cbPrevRemainPacket, removed := handle, state, 0, false;
    }

    /** What is carried over is incomplete, so the receive window is never empty. */
    ghost predicate Valid()
      reads this, rbuf
    {
      && rbuf.Length == BUFSIZE && cbPrevRemainPacket <= BUFSIZE
      && (!removed ==> Head(Server, rbuf[..cbPrevRemainPacket]) == NeedMore && cbPrevRemainPacket < 54)
    }

    /** The session stands as `p` says; the session of a rejected or ended stream is removed. */
    ghost predicate Stands(p: Parsed<S>, receives: bool)
      requires Valid()
      reads this, rbuf
    {
      && state == p.state
      && (p.status.Open? ==> removed == !receives && rbuf[..cbPrevRemainPacket] == p.status.rest)
      && (!p.status.Open? ==> removed)
    }

    /** An incomplete packet goes to the front. The source's test for a full buffer at this point never succeeds. */
    method CarryOver(p: nat, cbRemainBytes: nat)
      requires rbuf.Length == BUFSIZE && p + cbRemainBytes <= BUFSIZE
      requires Head(Server, rbuf[p..p + cbRemainBytes]) == NeedMore
      modifies this`cbPrevRemainPacket, rbuf
      ensures cbPrevRemainPacket == cbRemainBytes < 54 && rbuf[..cbPrevRemainPacket] == old(rbuf[p..p + cbRemainBytes])
    {
      CarryIsSmall(Server, rbuf[p..p + cbRemainBytes]);
      assert cbRemainBytes < BUFSIZE;
      cbPrevRemainPacket := cbRemainBytes;
      MoveToFront(rbuf, p, cbRemainBytes);
    }

    /** The loop over the packets of a receive; `p` is where the leftover begins, unless the session is removed. */
    method TakePackets(ghost bytes: seq<byte>, cbBytes: nat) returns (p: nat, cbRemainBytes: nat)
      requires rbuf.Length == BUFSIZE && !removed && bytes <= rbuf[..] && cbBytes == |bytes|
      modifies this`state, this`removed
      ensures p + cbRemainBytes == |bytes|
      ensures var whole := Parse(Server, handle, old(state), bytes);
              && removed == !whole.status.Open? && state == whole.state
              && (!removed ==> Head(Server, bytes[p..]) == NeedMore && whole.status.rest == bytes[p..])
    {
      p, cbRemainBytes := 0, cbBytes;
      while cbRemainBytes >= HEADER_SIZE
        invariant p + cbRemainBytes == |bytes| && !removed
        invariant Parse(Server, handle, state, bytes[p..]) == Parse(Server, handle, old(state), bytes)
        decreases cbRemainBytes
      {
        CutPacket(rbuf[..], bytes, p, HEADER_SIZE);
        var packetSize := rbuf[p] as nat;
        var expectedSize := ClientPacketSize(rbuf[p + 1]);
        if packetSize < HEADER_SIZE || expectedSize == 0 || packetSize != expectedSize {
          removed := true;
          return;
        }
        if packetSize > cbRemainBytes { break; }
        CutPacket(rbuf[..], bytes, p, packetSize);
        var (next, more) := handle(state, rbuf[p..p + packetSize]);
        state := next;
        if !more {
          removed := true;
          return;
        }
        p := p + packetSize;
        cbRemainBytes := cbRemainBytes - packetSize;
      }
      assert Head(Server, bytes[p..]) == NeedMore;
    }

    /**
     * A completed receive of `numOfBytes` bytes, which lie in the buffer behind those carried over; `receives` says
     * whether the next receive can be posted.
     */
    method Processing(numOfBytes: int, receives: bool)
      requires Valid() && !removed
      modifies this, rbuf
      ensures Valid()
      ensures var total := old(cbPrevRemainPacket) + numOfBytes;
              if 0 <= total <= BUFSIZE then Stands(Parse(Server, handle, old(state), old(rbuf[..total])), receives)
              else removed && state == old(state)
    {
      var cbBytes := numOfBytes + cbPrevRemainPacket;
      if cbBytes < 0 || cbBytes > BUFSIZE {
        removed := true;
        return;
      }
      ghost var bytes := rbuf[..cbBytes];
      var p, cbRemainBytes := TakePackets(bytes, cbBytes);
      if removed { return; }
      Leftover(rbuf[..], bytes, p);
      CarryOver(p, cbRemainBytes);
      if !receives { removed := true; }
    }
  }

  const MAX_PENDING_PACKETS := 4096
  const LOGIN_OK: byte := 150

  /** Packets waiting for the main thread, and the packet that last set the identity, if any. */
  datatype Inbox = Inbox(pending: seq<seq<byte>>, login: seq<byte>)

  /** What the client does with a whole packet; a full queue ends the stream. */
  function Queue(inbox: Inbox, packet: seq<byte>): (r: (Inbox, bool)) {
    var inbox := if |packet| >= HEADER_SIZE && packet[1] == LOGIN_OK then inbox.(login := packet) else inbox;
    if |inbox.pending| >= MAX_PENDING_PACKETS then (inbox, false)
    else (inbox.(pending := inbox.pending + [packet]), true)
  }

  /** The last packet that sets the identity, if any does. */
  function LastLogin(packets: seq<seq<byte>>, login: seq<byte>): seq<byte>
    decreases |packets|
  {
    if packets == [] then login
    else LastLogin(packets[1..], if |packets[0]| >= 2 && packets[0][1] == 150 then packets[0] else login)
  }

  /** Packets wait in order, up to 4096; the next one ends the stream. The last LOGIN_OK among them sets the identity. */
  lemma {:induction false} QueueHolds(inbox: Inbox, packets: seq<seq<byte>>)
    requires |inbox.pending| <= 4096
    ensures var free := 4096 - |inbox.pending|;
            HandedOn(Queue, inbox, packets) ==
            if |packets| <= free then (Inbox(inbox.pending + packets, LastLogin(packets, inbox.login)), true)
            else (Inbox(inbox.pending + packets[..free], LastLogin(packets[..free + 1], inbox.login)), false)
    decreases |packets|
  {
    var free := 4096 - |inbox.pending|;
    if packets == [] {
      assert inbox.pending + packets == inbox.pending;
    } else if free == 0 {
      assert packets[..1][1..] == [] && inbox.pending + packets[..0] == inbox.pending;
    } else {
      var p, tail := packets[0], packets[1..];
      var next := Queue(inbox, p).0;
      QueueHolds(next, tail);
      assert next.pending + tail == inbox.pending + packets;
      if |packets| > free {
        assert next.pending + tail[..free - 1] == inbox.pending + packets[..free];
        assert packets[..free + 1][1..] == tail[..free];
      }
    }
  }

  /** The client's end of a connection. */
  class ClientReceiver {
    const rbuf: array<byte>
    var prevRemainBytes: nat
    var pendingPackets: seq<seq<byte>>
    var login: seq<byte>
    var stopping: bool

    constructor ()
      ensures Valid() && !stopping && prevRemainBytes == 0 && Box() == Inbox([], []) && fresh(rbuf)
    {
      rbuf := new byte[BUFSIZE](i => 0);
      prevRemainBytes, pendingPackets, login, stopping := 0, [], [], false;
    }

    ghost predicate Valid()
      reads this, rbuf
    {
      && rbuf.Length == BUFSIZE && prevRemainBytes < 255 && |pendingPackets| <= MAX_PENDING_PACKETS
      && (!stopping ==> Head(Client, rbuf[..prevRemainBytes]) == NeedMore)
    }

    ghost function Box(): Inbox
      reads this
    {
      Inbox(pendingPackets, login)
    }

    ghost predicate Stands(p: Parsed<Inbox>)
      requires Valid()
      reads this, rbuf
    {
      && Box() == p.state
      && (p.status.Open? ==> !stopping && rbuf[..prevRemainBytes] == p.status.rest)
      && (!p.status.Open? ==> stopping && prevRemainBytes == 0)
    }

    method QueuePacket(packet: seq<byte>) returns (queued: bool)
      requires |pendingPackets| <= MAX_PENDING_PACKETS
      modifies this`pendingPackets
      ensures queued <==> |old(pendingPackets)| < MAX_PENDING_PACKETS
      ensures pendingPackets == if queued then old(pendingPackets) + [packet] else old(pendingPackets)
    {
      if |pendingPackets| >= MAX_PENDING_PACKETS { return false; }
      pendingPackets := pendingPackets + [packet];
      return true;
    }

    /** The main thread takes all waiting packets, in the order in which they arrived. */
    method DispatchPackets() returns (packets: seq<seq<byte>>)
      requires Valid()
      modifies this`pendingPackets
      ensures Valid() && packets == old(pendingPackets) && pendingPackets == []
    {
      packets, pendingPackets := pendingPackets, [];
    }

    /** A whole packet of the right size: LOGIN_OK also sets the identity. */
    method Accept(packet: seq<byte>) returns (queued: bool)
      requires |pendingPackets| <= MAX_PENDING_PACKETS && |packet| >= HEADER_SIZE
      modifies this`pendingPackets, this`login
      ensures (Box(), queued) == Queue(old(Box()), packet) && |pendingPackets| <= MAX_PENDING_PACKETS
    {
      if packet[1] == LOGIN_OK { login := packet; }
      queued := QueuePacket(packet);
    }

    method Reject()
      modifies this`prevRemainBytes, this`stopping
      ensures prevRemainBytes == 0 && stopping
    {
      prevRemainBytes := 0;
      stopping := true;
    }

    method CarryOver(p: nat, remainBytes: nat)
      requires rbuf.Length == BUFSIZE && p + remainBytes <= BUFSIZE && Head(Client, rbuf[p..p + remainBytes]) == NeedMore
      modifies this`prevRemainBytes, rbuf
      ensures prevRemainBytes == remainBytes < 255 && rbuf[..prevRemainBytes] == old(rbuf[p..p + remainBytes])
    {
      CarryIsSmall(Client, rbuf[p..p + remainBytes]);
      prevRemainBytes := remainBytes;
      MoveToFront(rbuf, p, remainBytes);
    }

    /** One packet of the right form: a known type must have its size, and the queue must take it. */
    method TakePacket(packet: seq<byte>) returns (accepted: bool)
      requires |pendingPackets| <= MAX_PENDING_PACKETS && HEADER_SIZE <= |packet| == packet[0] as nat
      modifies this`pendingPackets, this`login
      ensures |pendingPackets| <= MAX_PENDING_PACKETS
      ensures var expected := ServerPacketSize(packet[1]);
              if expected == 0 then accepted && Box() == old(Box())
              else if |packet| != expected then !accepted && Box() == old(Box())
              else (Box(), accepted) == Queue(old(Box()), packet)
    {
      var expectedSize := ServerPacketSize(packet[1]);
      if expectedSize == 0 { return true; }
      if |packet| != expectedSize { return false; }
      accepted := Accept(packet);
    }

    /** The loop over the packets of a receive. */
    method TakePackets(ghost bytes: seq<byte>, cbBytes: nat) returns (p: nat, remainBytes: nat)
      requires rbuf.Length == BUFSIZE && !stopping && bytes <= rbuf[..] && cbBytes == |bytes|
      requires |pendingPackets| <= MAX_PENDING_PACKETS
      modifies this`pendingPackets, this`login, this`prevRemainBytes, this`stopping
      ensures p + remainBytes == |bytes| && |pendingPackets| <= MAX_PENDING_PACKETS
      ensures var whole := Parse(Client, Queue, old(Box()), bytes);
              && stopping == !whole.status.Open? && Box() == whole.state && (stopping ==> prevRemainBytes == 0)
              && (!stopping ==> Head(Client, bytes[p..]) == NeedMore && whole.status.rest == bytes[p..])
    {
      p, remainBytes := 0, cbBytes;
      while remainBytes >= HEADER_SIZE
        invariant p + remainBytes == |bytes| && !stopping && |pendingPackets| <= MAX_PENDING_PACKETS
        invariant Parse(Client, Queue, Box(), bytes[p..]) == Parse(Client, Queue, old(Box()), bytes)
        decreases remainBytes
      {
        CutPacket(rbuf[..], bytes, p, HEADER_SIZE);
        var cbPacketSize := rbuf[p] as nat;
        if cbPacketSize < HEADER_SIZE {
          Reject();
          return;
        }
        if cbPacketSize > remainBytes { break; }
        CutPacket(rbuf[..], bytes, p, cbPacketSize);
        var accepted := TakePacket(rbuf[p..p + cbPacketSize]);
        if !accepted {
          Reject();
          return;
        }
        p := p + cbPacketSize;
        remainBytes := remainBytes - cbPacketSize;
      }
      assert Head(Client, bytes[p..]) == NeedMore;
    }

    method Processing(numOfBytes: int)
      requires Valid() && !stopping
      modifies this, rbuf
      ensures Valid()
      ensures if 0 <= numOfBytes <= BUFSIZE - old(prevRemainBytes)
              then Stands(Parse(Client, Queue, old(Box()), old(rbuf[..prevRemainBytes + numOfBytes])))
              else stopping && Box() == old(Box())
    {
      if numOfBytes < 0 || numOfBytes > BUFSIZE - prevRemainBytes {
        Reject();
        return;
      }
      var cbBytes := numOfBytes + prevRemainBytes;
      ghost var bytes := rbuf[..cbBytes];
      ghost var whole := Parse(Client, Queue, Box(), bytes);
      var p, remainBytes := TakePackets(bytes, cbBytes);
      if stopping { return; }
      Leftover(rbuf[..], bytes, p);
      CarryOver(p, remainBytes);
      assert rbuf[..prevRemainBytes] == whole.status.rest;
    }
  }
}
