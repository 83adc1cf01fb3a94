/** The ring of past world states that attacks are checked against, and the unbounded history it stands for. */
module WorldRewinder {

  const UINT32 := 0x1_0000_0000

  function AddUint32(a: nat, b: nat): (sum: nat)
    requires a < UINT32 && b < UINT32
    ensures sum == if a + b < UINT32 then a + b else a + b - UINT32
  {
    (a + b) % UINT32
  }

  /** The server keeps this many frames. */
  const MAX_REWIND := 30

  datatype Pos = Pos(x: real, z: real)

  datatype WorldStatus = WorldStatus(positions: (Pos, Pos, Pos, Pos), frame: nat, bossDir: (real, real, real))

  const ORIGIN := Pos(0.0, 0.0)
  const BLANK := WorldStatus((ORIGIN, ORIGIN, ORIGIN, ORIGIN), 0, (0.0, 0.0, 1.0))

  // ---- the history the ring stands for ----

  /** One call of SetWorldStatusByFrame. */
  datatype Entry = Entry(frame: nat, status: WorldStatus)

  /** The latest frame after the calls in `log`: a call for an earlier frame is ignored. */
  function Current(log: seq<Entry>): nat {
    if log == [] then 0
    else
      var cur := Current(log[..|log| - 1]);
      if log[|log| - 1].frame < cur then cur else log[|log| - 1].frame
  }

  /**
   * The world at any frame, however long ago. A call fills the gap since the latest frame with what was latest;
   * a call `size` or more frames ahead starts all over, with its own status everywhere.
   */
  function At(log: seq<Entry>, f: int, size: nat): WorldStatus
    decreases |log|
  {
    if log == [] then BLANK
    else
      var past := log[..|log| - 1];
      var e := log[|log| - 1];
      var cur := Current(past);
      if e.frame < cur then At(past, f, size)
      else if e.frame >= cur + size then e.status
      else if f >= e.frame then e.status
      else if f > cur then At(past, cur, size)
      else At(past, f, size)
  }

  function Clamp(f: int, low: int, high: int): int {
    if f < low then low else if f > high then high else f
  }

  lemma Ignored(log: seq<Entry>, e: Entry, f: int, size: nat)
    requires e.frame < Current(log)
    ensures Current(log + [e]) == Current(log) && At(log + [e], f, size) == At(log, f, size)
  {
    assert (log + [e])[..|log + [e]| - 1] == log;
  }

  lemma FarJump(log: seq<Entry>, e: Entry, size: nat)
    requires e.frame >= Current(log)
    ensures Current(log + [e]) == e.frame
    ensures e.frame >= Current(log) + size ==> forall f: int :: At(log + [e], f, size) == e.status
  {
    assert (log + [e])[..|log + [e]| - 1] == log;
  }

  /** The world `age` frames before a call within the window. */
  lemma AdvancedAt(log: seq<Entry>, e: Entry, age: nat, size: nat)
    requires Current(log) <= e.frame < Current(log) + size
    ensures Current(log + [e]) == e.frame
    ensures At(log + [e], e.frame - age, size)
            == if age == 0 then e.status
               else if age < e.frame - Current(log) then At(log, Current(log), size)
               else At(log, e.frame - age, size)
  {
    assert (log + [e])[..|log + [e]| - 1] == log;
  }

  /** What a lookup may see: the last `size` frames. */
  function Lookup(log: seq<Entry>, f: nat, size: nat): WorldStatus {
    At(log, Clamp(f, Current(log) - (size - 1), Current(log)), size)
  }

  /** How many frames ago slot `k` was written, if the latest frame is in slot `index`. */
  function Age(k: nat, index: nat, size: nat): (age: nat)
    requires k < size && index < size
    ensures age < size
  {
    if k <= index then index - k else index + size - k
  }

  lemma ModOnce(x: nat, size: nat)
    requires x < 2 * size
    ensures x % size == if x < size then x else x - size
  {
    var q := x / size;
    assert x == q * size + x % size;
    assert q >= 2 ==> q * size >= 2 * size;
    assert q <= 0 ==> q * size <= 0;
  }

  /** The slot the ring reads for `delta` frames ago. */
  lemma SlotOfAge(index: nat, delta: nat, size: nat)
    requires index < size && delta < size
    ensures (index + size - delta) % size < size
    ensures Age((index + size - delta) % size, index, size) == delta
  {
    ModOnce(index + size - delta, size);
  }

  /** The slot after the latest is the oldest. */
  lemma OldestSlot(index: nat, size: nat)
    requires index < size
    ensures (index + 1) % size < size && Age((index + 1) % size, index, size) == size - 1
  {
    ModOnce(index + 1, size);
  }

  /** `n` frames later every slot is `n` frames older, unless it has been written again since. */
  lemma AgeShifts(k: nat, index: nat, n: nat, size: nat)
    requires k < size && index < size && n < size
    ensures Age(k, Later(index, n, size), size) == if Age(k, index, size) + n < size then Age(k, index, size) + n
                                   else Age(k, index, size) + n - size
  {
  }

  /** Going back from the index of the latest frame, slot by slot, goes back through the history. */
  ghost predicate Mirrors(ring: seq<WorldStatus>, index: nat, cur: nat, log: seq<Entry>)
    requires index < |ring|
  {
    forall k | 0 <= k < |ring| :: Shown(ring, k, index, cur, log)
  }

  predicate Shown(ring: seq<WorldStatus>, k: nat, index: nat, cur: nat, log: seq<Entry>)
    requires k < |ring| && index < |ring|
  {
    ring[k] == At(log, cur - Age(k, index, |ring|), |ring|)
  }

  /** The latest index after `n` more frames. */
  function Later(index: nat, n: nat, size: nat): (k: nat)
    requires index < size && n < size
    ensures k < size
  {
    if index + n < size then index + n else index + n - size
  }

  lemma IgnoredMirrors(ring: seq<WorldStatus>, index: nat, log: seq<Entry>, e: Entry)
    requires index < |ring| && e.frame < Current(log) && Mirrors(ring, index, Current(log), log)
    ensures Current(log + [e]) == Current(log) && Mirrors(ring, index, Current(log), log + [e])
  {
    Ignored(log, e, 0, |ring|);
    forall k | 0 <= k < |ring| ensures Shown(ring, k, index, Current(log), log + [e]) {
      assert Shown(ring, k, index, Current(log), log);
      Ignored(log, e, Current(log) - Age(k, index, |ring|), |ring|);
    }
  }

  /** What slot `k` holds once the ring has gone on by `n` frames, the last of which shows `status`. */
  function SlotAfter(ring: seq<WorldStatus>, k: nat, index: nat, n: nat, status: WorldStatus): WorldStatus
    requires k < |ring| && index < |ring| && n < |ring|
  {
    var index' := Later(index, n, |ring|);
    if k == index' then status else if Age(k, index', |ring|) < n then ring[index] else ring[k]
  }

  lemma AgeZero(k: nat, index: nat, size: nat)
    requires k < size && index < size
    ensures Age(k, index, size) == 0 <==> k == index
  {
  }

  /** One slot after a call within the window, `age` frames before the call. */
  lemma AdvanceSlot(ring: seq<WorldStatus>, index: nat, log: seq<Entry>, e: Entry, k: nat, age: nat, now: WorldStatus)
    requires index < |ring| && k < |ring| && Current(log) <= e.frame < Current(log) + |ring|
    requires Shown(ring, k, index, Current(log), log) && Shown(ring, index, index, Current(log), log)
    requires age == Age(k, Later(index, e.frame - Current(log), |ring|), |ring|)
    requires now == if age == 0 then e.status else if age < e.frame - Current(log) then ring[index] else ring[k]
    ensures now == At(log + [e], e.frame - age, |ring|)
  {
    AdvancedAt(log, e, age, |ring|);
    AgeZero(index, index, |ring|);
    if age != 0 && age >= e.frame - Current(log) { SameMoment(k, index, Current(log), e.frame - Current(log), |ring|); }
  }

  /** A slot that is not overwritten shows the same frame as before. */
  lemma SameMoment(k: nat, index: nat, cur: nat, n: nat, size: nat)
    requires k < size && index < size && n < size && Age(k, Later(index, n, size), size) >= n
    ensures cur + n - Age(k, Later(index, n, size), size) == cur - Age(k, index, size)
  {
    AgeShifts(k, index, n, size);
  }

  lemma ShownAtAge(ring: seq<WorldStatus>, k: nat, index: nat, cur: nat, log: seq<Entry>, age: nat)
    requires k < |ring| && index < |ring| && age == Age(k, index, |ring|) && ring[k] == At(log, cur - age, |ring|)
    ensures Shown(ring, k, index, cur, log)
  {
  }

  lemma SlotByAge(ring: seq<WorldStatus>, k: nat, index: nat, n: nat, status: WorldStatus)
    requires k < |ring| && index < |ring| && n < |ring|
    ensures var age := Age(k, Later(index, n, |ring|), |ring|);
            SlotAfter(ring, k, index, n, status) == if age == 0 then status else if age < n then ring[index] else ring[k]
  {
    AgeZero(k, Later(index, n, |ring|), |ring|);
  }

  /** What a call within the window does to the ring. */
  lemma AdvanceMirrors(ring: seq<WorldStatus>, index: nat, log: seq<Entry>, e: Entry, ring': seq<WorldStatus>)
    requires index < |ring| == |ring'| && Mirrors(ring, index, Current(log), log)
    requires Current(log) <= e.frame < Current(log) + |ring|
    requires forall k | 0 <= k < |ring| ::
               ring'[k] == SlotAfter(ring, k, index, e.frame - Current(log), e.status)
    ensures Mirrors(ring', Later(index, e.frame - Current(log), |ring|), e.frame, log + [e])
  {
    var index' := Later(index, e.frame - Current(log), |ring|);
    forall k | 0 <= k < |ring| ensures Shown(ring', k, index', e.frame, log + [e]) {
      assert Shown(ring, k, index, Current(log), log) && Shown(ring, index, index, Current(log), log);
      var age := Age(k, index', |ring|);
      SlotByAge(ring, k, index, e.frame - Current(log), e.status);
      AdvanceSlot(ring, index, log, e, k, age, ring'[k]);
      ShownAtAge(ring', k, index', e.frame, log + [e], age);
    }
  }

  // ---- the ring as a value ----

  /** Any window of which two fit into the 32 bits of a frame number; the server's has 30 frames. */
  const MAX_SIZE := 0x8000_0000

  /** `index` is the slot of the latest frame, `cur`. */
  datatype Ring = Ring(slots: seq<WorldStatus>, index: nat, cur: nat)

  predicate RingOK(r: Ring) {
    0 < |r.slots| <= MAX_SIZE && r.index < |r.slots| && r.cur < UINT32
  }

  function BlankRing(size: nat): Ring {
    Ring(seq(size, i => BLANK), 0, 0)
  }

  /** One call of SetWorldStatusByFrame; the addition in the far-jump test is on 32-bit unsigned numbers. */
  function RingAfter(r: Ring, e: Entry): (r': Ring)
    requires RingOK(r) && e.frame < UINT32
    ensures RingOK(r') && |r'.slots| == |r.slots|
  {
    var size := |r.slots|;
    if e.frame < r.cur then r
    else if e.frame >= AddUint32(r.cur, size) then Ring(seq(size, i => e.status), 0, e.frame)
    else
      var n := e.frame - r.cur;
      var index := Later(r.index, n, size);
      Ring(seq(size, k requires 0 <= k < size => SlotAfter(r.slots, k, r.index, n, e.status)), index, e.frame)
  }

  /** The slot for a frame: the latest for frames to come, the oldest for frames too long ago. */
  function SlotFor(r: Ring, frame: nat): (k: nat)
    requires RingOK(r)
    ensures k < |r.slots|
    ensures r.cur - Age(k, r.index, |r.slots|) == Clamp(frame, r.cur - (|r.slots| - 1), r.cur)
  {
    var size := |r.slots|;
    if frame > r.cur then r.index
    else if r.cur - frame >= size then
      OldestSlot(r.index, size);
      (r.index + 1) % size
    else
      SlotOfAge(r.index, r.cur - frame, size);
      (r.index + size - (r.cur - frame)) % size
  }

  function RingLookup(r: Ring, frame: nat): WorldStatus
    requires RingOK(r)
  {
    r.slots[SlotFor(r, frame)]
  }

  /** The ring after a whole history of calls. */
  function RingOf(log: seq<Entry>, size: nat): (r: Ring)
    requires 0 < size <= MAX_SIZE
    ensures RingOK(r) && |r.slots| == size
  {
    if log == [] then BlankRing(size)
    else
      var e := log[|log| - 1];
      RingAfter(RingOf(log[..|log| - 1], size), Entry(e.frame % UINT32, e.status))
  }

  // ---- when the ring shows the history ----

  /** The ring holds the last frames of the history. */
  ghost predicate Shows(r: Ring, log: seq<Entry>) {
    RingOK(r) && r.cur == Current(log) && Mirrors(r.slots, r.index, r.cur, log)
  }

  lemma BlankShows(size: nat)
    requires 0 < size <= MAX_SIZE
    ensures Shows(BlankRing(size), [])
  {
  }

  lemma ShownLookup(r: Ring, log: seq<Entry>, frame: nat)
    requires Shows(r, log)
    ensures RingLookup(r, frame) == Lookup(log, frame, |r.slots|)
  {
    assert Shown(r.slots, SlotFor(r, frame), r.index, r.cur, log);
  }

  /** The call is for the past, or the sum in the far-jump test does not wrap. */
  predicate Faithful(cur: nat, frame: nat, size: nat) {
    frame < cur || cur + size < UINT32
  }

  lemma FaithfulShows(r: Ring, log: seq<Entry>, e: Entry)
    requires Shows(r, log) && e.frame < UINT32 && Faithful(r.cur, e.frame, |r.slots|)
    ensures Shows(RingAfter(r, e), log + [e])
  {
    if e.frame < r.cur {
      IgnoredMirrors(r.slots, r.index, log, e);
    } else if e.frame >= r.cur + |r.slots| {
      FarJump(log, e, |r.slots|);
    } else {
      AdvancedAt(log, e, 0, |r.slots|);
      AdvanceMirrors(r.slots, r.index, log, e, RingAfter(r, e).slots);
    }
  }

  /** With a single slot there is no past to lose. */
  lemma SingleShows(r: Ring, log: seq<Entry>, e: Entry)
    requires Shows(r, log) && e.frame < UINT32 && |r.slots| == 1
    ensures Shows(RingAfter(r, e), log + [e])
  {
    if Faithful(r.cur, e.frame, 1) {
      FaithfulShows(r, log, e);
    } else {
      FarJump(log, e, 1);
      AdvancedAt(log, e, 0, 1);
    }
  }

  /** Where the sum wraps, a call leaves nothing but its own status. */
  lemma WrapFills(r: Ring, e: Entry, frame: nat)
    requires RingOK(r) && e.frame < UINT32 && !Faithful(r.cur, e.frame, |r.slots|)
    ensures RingLookup(RingAfter(r, e), frame) == e.status
  {
  }

  /** A far jump into an empty ring, and one frame more. */
  lemma JumpShows(e: Entry, size: nat)
    requires 0 < size <= MAX_SIZE && size <= e.frame < UINT32
    ensures Shows(RingAfter(BlankRing(size), e), [e]) && RingAfter(BlankRing(size), e).cur == e.frame == Current([e])
    ensures forall f: int :: At([e], f, size) == e.status
  {
    BlankShows(size);
    FaithfulShows(BlankRing(size), [], e);
    FarJump([], e, size);
    assert [] + [e] == [e];
  }

  /** Where the sum wraps, the call wipes out the frames before it. */
  lemma WrapForgets(cur: nat, frame: nat, size: nat, a: WorldStatus, b: WorldStatus)
    requires 1 < size <= MAX_SIZE && cur < UINT32 && frame < UINT32 && !Faithful(cur, frame, size)
    ensures var log := [Entry(cur, a)];
            var r := RingAfter(BlankRing(size), log[0]);
            && Shows(r, log) && r.cur == cur
            && RingLookup(RingAfter(r, Entry(frame, b)), frame - 1) == b
            && Lookup(log + [Entry(frame, b)], frame - 1, size) == a
  {
    var log, e := [Entry(cur, a)], Entry(frame, b);
    JumpShows(log[0], size);
    WrapFills(RingAfter(BlankRing(size), log[0]), e, frame - 1);
    AdvancedAt(log, e, 1, size);
  }

  /**
   * After a call, the ring shows the history, whatever it held, exactly if the call is for the past or the sum does
   * not wrap (or the window is a single frame).
   */
  lemma ShowsIff(cur: nat, frame: nat, size: nat)
    requires 0 < size <= MAX_SIZE && cur < UINT32 && frame < UINT32
    ensures (forall r, log, status | Shows(r, log) && r.cur == cur && |r.slots| == size ::
               Shows(RingAfter(r, Entry(frame, status)), log + [Entry(frame, status)]))
            <==> Faithful(cur, frame, size) || size == 1
  {
    if Faithful(cur, frame, size) || size == 1 {
      forall r, log, status | Shows(r, log) && r.cur == cur && |r.slots| == size
        ensures Shows(RingAfter(r, Entry(frame, status)), log + [Entry(frame, status)])
      {
        if size == 1 { SingleShows(r, log, Entry(frame, status)); } else { FaithfulShows(r, log, Entry(frame, status)); }
      }
    } else {
      var a, b := BLANK, BLANK.(frame := 1);
      WrapForgets(cur, frame, size, a, b);
      var log, e := [Entry(cur, a)], Entry(frame, b);
      var r := RingAfter(BlankRing(size), log[0]);
      if Shows(RingAfter(r, e), log + [e]) { ShownLookup(RingAfter(r, e), log + [e], frame - 1); }
    }
  }

  /** The server's ring, nine frames before the counter wraps: the frame before the latest is forgotten. */
  lemma WrappingInput(a: WorldStatus, b: WorldStatus)
    requires a != b
    ensures var r := RingAfter(RingAfter(BlankRing(MAX_REWIND), Entry(0xFFFF_FFF6, a)), Entry(0xFFFF_FFF7, b));
            var log := [Entry(0xFFFF_FFF6, a), Entry(0xFFFF_FFF7, b)];
            RingLookup(r, 0xFFFF_FFF6) == b && Lookup(log, 0xFFFF_FFF6, MAX_REWIND) == a
  {
    WrapForgets(0xFFFF_FFF6, 0xFFFF_FFF7, MAX_REWIND, a, b);
    assert [Entry(0xFFFF_FFF6, a)] + [Entry(0xFFFF_FFF7, b)] == [Entry(0xFFFF_FFF6, a), Entry(0xFFFF_FFF7, b)];
  }

  class Rewinder {
    const size: nat
    const worldHistory: array<WorldStatus>
    var curFrame: nat
    var frameIndex: nat
    var lastWorldStatus: WorldStatus

    /** The calls made since the last Clear. */
    ghost var log: seq<Entry>

    constructor (size: nat)
      requires 0 < size <= MAX_SIZE
      ensures this.size == size && Valid() && log == [] && fresh(worldHistory)
      ensures lastWorldStatus == BLANK
    {
      this.size := size;
      worldHistory := new WorldStatus[size](i => BLANK);
      curFrame, frameIndex, lastWorldStatus, log := 0, 0, BLANK, [];
      new;
      BlankShows(size);
      assert Now() == BlankRing(size);
    }

    ghost predicate Shaped()
      reads this, worldHistory
    {
      && 0 < size <= MAX_SIZE && worldHistory.Length == size && frameIndex < size
      && curFrame < UINT32 && lastWorldStatus.frame < UINT32
    }

    ghost function Now(): (r: Ring)
      requires Shaped()
      reads this, worldHistory
      ensures RingOK(r)
    {
      Ring(worldHistory[..], frameIndex, curFrame)
    }

    /** The ring shows the last frames of the history. */
    ghost predicate Valid()
      reads this, worldHistory
    {
      Shaped() && Shows(Now(), log)
    }

    method Clear()
      requires Shaped()
      modifies this, worldHistory
      ensures Valid() && log == [] && lastWorldStatus == BLANK && Now() == BlankRing(size)
    {
      Fill(BLANK);
      curFrame := 0;
      frameIndex := 0;
      lastWorldStatus := BLANK;
      log := [];
      BlankShows(size);
      assert Now() == BlankRing(size);
    }

    method Fill(obj: WorldStatus)
      requires Shaped()
      modifies worldHistory
      ensures forall k | 0 <= k < size :: worldHistory[k] == obj
    {
      for i := 0 to size
        invariant forall k | 0 <= k < i :: worldHistory[k] == obj
      {
        worldHistory[i] := obj;
      }
    }

    /**
     * Every frame up to `frame` gets what was latest. The source of the copies is read through a reference to its
     * slot, which the loop never reaches again.
     */
    method FillGap(frame: nat)
      requires Shaped() && curFrame <= frame < curFrame + size && frame < UINT32
      modifies this`curFrame, this`frameIndex, worldHistory
      ensures Shaped() && curFrame == frame
      ensures var n := frame - old(curFrame);
              && frameIndex == Later(old(frameIndex), n, size)
              && forall k | 0 <= k < size ::
                   worldHistory[k] == if Age(k, frameIndex, size) < n then old(worldHistory[frameIndex]) else old(worldHistory[k])
    {
      var prevWorld := frameIndex;
      while curFrame < frame
        invariant old(curFrame) <= curFrame <= frame && frameIndex < size
        invariant frameIndex == Later(prevWorld, curFrame - old(curFrame), size)
        invariant worldHistory[prevWorld] == old(worldHistory[frameIndex])
        invariant forall k | 0 <= k < size ::
                    worldHistory[k] == if Age(k, frameIndex, size) < curFrame - old(curFrame)
                                       then old(worldHistory[frameIndex]) else old(worldHistory[k])
      {
        frameIndex := frameIndex + 1;
        if frameIndex == size { frameIndex := 0; }
        worldHistory[frameIndex] := worldHistory[prevWorld];
        curFrame := curFrame + 1;
      }
    }

    /** The ring becomes what the call makes of it, whatever it held; it still shows the history unless the sum wraps. */
    method SetWorldStatusByFrame(frame: nat, obj: WorldStatus)
      requires Shaped() && frame < UINT32
      modifies this`curFrame, this`frameIndex, this`log, worldHistory
      ensures Shaped() && log == old(log) + [Entry(frame, obj)]
      ensures Now() == RingAfter(old(Now()), Entry(frame, obj))
      ensures old(Valid()) && Faithful(old(curFrame), frame, size) ==> Valid()
    {
      ghost var ring, past := Now(), log;
      log := log + [Entry(frame, obj)];
      if frame < curFrame {
      } else if frame >= AddUint32(curFrame, size) {
        curFrame := frame;
        frameIndex := 0;
        Fill(obj);
        assert worldHistory[..] == RingAfter(ring, Entry(frame, obj)).slots;
      } else {
        FillGap(frame);
        worldHistory[frameIndex] := obj;
        assert worldHistory[..] == RingAfter(ring, Entry(frame, obj)).slots;
      }
      if Shows(ring, past) && Faithful(ring.cur, frame, size) { FaithfulShows(ring, past, Entry(frame, obj)); }
    }

    function GetWorldStatusByFrame(frame: nat): (status: WorldStatus)
      requires Shaped()
      reads this, worldHistory
      ensures status == RingLookup(Now(), frame)
      ensures Valid() ==> status == Lookup(log, frame, size)
    {
      assert Valid() ==> RingLookup(Now(), frame) == Lookup(log, frame, size) by {
        if Valid() { ShownLookup(Now(), log, frame); }
      }
      if frame > curFrame then worldHistory[frameIndex]
      else if curFrame - frame >= size then worldHistory[(frameIndex + 1) % size]
      else
        SlotOfAge(frameIndex, curFrame - frame, size);
        worldHistory[(frameIndex + size - (curFrame - frame)) % size]
    }

    /** Called once per tick with the players' positions and the boss's direction. */
    method AddHistory(positions: (Pos, Pos, Pos, Pos), bossDir: (real, real, real))
      requires Shaped()
      modifies this`curFrame, this`frameIndex, this`log, this`lastWorldStatus, worldHistory
      ensures Shaped()
      ensures lastWorldStatus == WorldStatus(positions, AddUint32(old(lastWorldStatus).frame, 1), bossDir)
      ensures log == old(log) + [Entry(lastWorldStatus.frame, lastWorldStatus)]
      ensures Now() == RingAfter(old(Now()), Entry(lastWorldStatus.frame, lastWorldStatus))
      ensures old(Valid()) && Faithful(old(curFrame), lastWorldStatus.frame, size) ==> Valid()
    {
      lastWorldStatus := WorldStatus(positions, AddUint32(lastWorldStatus.frame, 1), bossDir);
      SetWorldStatusByFrame(lastWorldStatus.frame, lastWorldStatus);
    }

    /** The world an attack packet is checked against; its signed frame number is read as unsigned. */
    function StatusForAttack(frame: int): (status: WorldStatus)
      requires Shaped() && -0x8000_0000 <= frame < 0x8000_0000
      reads this, worldHistory
      ensures status == RingLookup(Now(), if frame < 0 then frame + UINT32 else frame)
      ensures Valid() ==> status == Lookup(log, if frame < 0 then frame + UINT32 else frame, size)
    {
      GetWorldStatusByFrame(ToUnsigned(frame))
    }
  }

  function ToUnsigned(frame: int): (u: nat)
    requires -0x8000_0000 <= frame < 0x8000_0000
    ensures u == if frame < 0 then frame + UINT32 else frame
  {
    frame % UINT32
  }

  /** A negative frame number stands for the latest world. */
  lemma NegativeFrameIsLatest(log: seq<Entry>, frame: int, size: nat)
    requires -0x8000_0000 <= frame < 0 && Current(log) <= 0x8000_0000 && size > 0
    ensures Lookup(log, ToUnsigned(frame), size) == At(log, Current(log), size)
  {
    assert Clamp(ToUnsigned(frame), Current(log) - (size - 1), Current(log)) == Current(log);
  }

  // ---- a history of ticks ----

  /** The calls that `n` ticks make after a Clear. */
  ghost predicate Ticked(log: seq<Entry>) {
    forall i | 0 <= i < |log| :: log[i].frame == i + 1
  }

  lemma {:induction false} TickedCurrent(log: seq<Entry>)
    requires Ticked(log)
    ensures Current(log) == |log|
  {
    if log != [] { TickedCurrent(log[..|log| - 1]); }
  }

  /** As long as the counter is not near its limit, the ring shows the history of the ticks. */
  lemma {:induction false} TickedShows(log: seq<Entry>, size: nat)
    requires Ticked(log) && 0 < size <= MAX_SIZE && |log| + size <= UINT32
    ensures Shows(RingOf(log, size), log)
    decreases |log|
  {
    if log == [] {
      BlankShows(size);
    } else {
      var past := log[..|log| - 1];
      TickedShows(past, size);
      TickedCurrent(past);
      FaithfulShows(RingOf(past, size), past, log[|log| - 1]);
      assert past + [log[|log| - 1]] == log;
    }
  }

  /** The status recorded for frame `k`; before the first tick the world is blank. */
  function Snapshot(log: seq<Entry>, k: nat): WorldStatus
    requires k <= |log|
  {
    if k == 0 then BLANK else log[k - 1].status
  }

  lemma {:induction false} TickedAt(log: seq<Entry>, f: int, size: nat)
    requires Ticked(log) && f <= |log| && size > 1
    ensures At(log, f, size) == Snapshot(log, if f < 0 then 0 else f)
    decreases |log|
  {
    if log != [] {
      var past := log[..|log| - 1];
      TickedCurrent(past);
      if f < |log| { TickedAt(past, f, size); }
    }
  }

  /** After `n` ticks a lookup of any frame gives the snapshot of the nearest of the last `size` frames. */
  lemma LookupAfterTicks(log: seq<Entry>, f: nat, size: nat)
    requires Ticked(log) && size > 1
    ensures var n := |log|;
            Lookup(log, f, size) == Snapshot(log, Clamp(f, if n < size then 0 else n - (size - 1), n))
  {
    TickedCurrent(log);
    TickedAt(log, Clamp(f, |log| - (size - 1), |log|), size);
  }

  // ---- any history of calls ----

  /** Call `i` was not for the past when it was made. */
  predicate Heeded(log: seq<Entry>, i: nat)
    requires i < |log|
  {
    log[i].frame >= Current(log[..i])
  }

  /** Call `i` says what the world was at frame `f`: it was for `f` or an earlier frame, or it started all over. */
  predicate Governs(log: seq<Entry>, i: nat, f: int, size: nat)
    requires i < |log|
  {
    Heeded(log, i) && (log[i].frame <= f || log[i].frame >= Current(log[..i]) + size)
  }

  lemma {:induction false} HeededIsAtMostCurrent(log: seq<Entry>, i: nat)
    requires i < |log|
    ensures Heeded(log, i) ==> log[i].frame <= Current(log)
    decreases |log|
  {
    var past := log[..|log| - 1];
    if i < |past| {
      assert past[..i] == log[..i];
      HeededIsAtMostCurrent(past, i);
    }
  }

  /** Call `i` is the last to govern frame `f`; none does if `i` is -1. */
  ghost predicate LastGoverns(log: seq<Entry>, i: int, f: int, size: nat) {
    && -1 <= i < |log| && (i >= 0 ==> Governs(log, i, f, size))
    && forall j | i < j < |log| :: !Governs(log, j, f, size)
  }

  /** The last call that governs a frame gave its status; where none does, the world is blank. */
  lemma {:induction false} AtIsTheLastGoverning(log: seq<Entry>, i: int, f: int, size: nat)
    requires LastGoverns(log, i, f, size)
    ensures At(log, f, size) == if i < 0 then BLANK else log[i].status
    decreases |log|
  {
    if log != [] && i < |log| - 1 {
      var past, last := log[..|log| - 1], |log| - 1;
      assert !Governs(log, last, f, size);
      var g := if log[last].frame >= Current(past) && f > Current(past) then Current(past) else f;
      forall j | 0 <= j < |past| ensures Governs(past, j, g, size) == Governs(log, j, f, size) {
        assert past[..j] == log[..j];
        HeededIsAtMostCurrent(past, j);
      }
      AtIsTheLastGoverning(past, i, g, size);
    }
  }

  lemma SomeGovernsLast(log: seq<Entry>, f: int, size: nat, n: nat) returns (i: int)
    requires n <= |log| && forall j | n <= j < |log| :: !Governs(log, j, f, size)
    ensures LastGoverns(log, i, f, size)
  {
    if n == 0 { i := -1; }
    else if Governs(log, n - 1, f, size) { i := n - 1; }
    else { i := SomeGovernsLast(log, f, size, n - 1); }
  }

  /** After any calls, a lookup gives what the last call that governs the nearest frame of the window said. */
  lemma LookupIsTheLastGoverning(log: seq<Entry>, f: nat, size: nat) returns (i: int)
    ensures LastGoverns(log, i, Clamp(f, Current(log) - (size - 1), Current(log)), size)
    ensures Lookup(log, f, size) == if i < 0 then BLANK else log[i].status
  {
    var nearest := Clamp(f, Current(log) - (size - 1), Current(log));
    i := SomeGovernsLast(log, nearest, size, |log|);
    AtIsTheLastGoverning(log, i, nearest, size);
  }

  /** The ring as the match uses it: `n` ticks after a Clear, it answers with snapshots. */
  method RunTicks(history: Rewinder, worlds: seq<((Pos, Pos, Pos, Pos), (real, real, real))>)
    requires history.Shaped() && history.size == MAX_REWIND && |worlds| + MAX_REWIND < UINT32
    modifies history, history.worldHistory
    ensures history.Valid() && Ticked(history.log) && |history.log| == |worlds|
    ensures forall k | 0 <= k < |worlds| :: history.log[k].status == WorldStatus(worlds[k].0, k + 1, worlds[k].1)
  {
    history.Clear();
    for i := 0 to |worlds|
      invariant history.Valid() && Ticked(history.log) && |history.log| == i && history.lastWorldStatus.frame == i
      invariant forall k | 0 <= k < i :: history.log[k].status == WorldStatus(worlds[k].0, k + 1, worlds[k].1)
    {
      TickedCurrent(history.log);
      history.AddHistory(worlds[i].0, worlds[i].1);
    }
  }
}
