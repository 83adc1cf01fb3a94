/**
 * The collision octree as a value: axis-aligned boxes put into every leaf cell they touch, and a sphere that
 * is pushed out of the boxes found in the cells it touches. Numbers are reals.
 */
module OcTreeSpec {

  datatype Vec = Vec(x: real, y: real, z: real)

  /** A closed box by center and half extents. */
  datatype Box = Box(center: Vec, extents: Vec)

  datatype Sphere = Sphere(center: Vec, radius: real)

  // ---- geometry ----

  predicate Near(a: real, b: real, reach: real) {
    -reach <= a - b <= reach
  }

  predicate InBox(p: Vec, b: Box) {
    Near(p.x, b.center.x, b.extents.x) && Near(p.y, b.center.y, b.extents.y) && Near(p.z, b.center.z, b.extents.z)
  }

  function Square(a: real): real {
    a * a
  }

  function Distance2(p: Vec, q: Vec): real {
    Square(p.x - q.x) + Square(p.y - q.y) + Square(p.z - q.z)
  }

  predicate InSphere(p: Vec, s: Sphere) {
    Distance2(p, s.center) <= Square(s.radius)
  }

  /** How far `c` is outside the interval around `m`. */
  function Outside(c: real, m: real, reach: real): real {
    if c < m - reach then m - reach - c else if c > m + reach then c - (m + reach) else 0.0
  }

  /** BoundingBox::Intersects(BoundingBox). */
  predicate BoxesMeet(a: Box, b: Box) {
    && Near(a.center.x, b.center.x, a.extents.x + b.extents.x)
    && Near(a.center.y, b.center.y, a.extents.y + b.extents.y)
    && Near(a.center.z, b.center.z, a.extents.z + b.extents.z)
  }

  /** BoundingBox::Intersects(BoundingSphere). */
  predicate SphereMeets(b: Box, s: Sphere) {
    Square(Outside(s.center.x, b.center.x, b.extents.x)) + Square(Outside(s.center.y, b.center.y, b.extents.y))
    + Square(Outside(s.center.z, b.center.z, b.extents.z)) <= Square(s.radius)
  }

  lemma SquareGrows(a: real, b: real)
    requires 0.0 <= a && (a <= b || a <= -b)
    ensures Square(a) <= Square(b)
  {
    var c := if b < 0.0 then -b else b;
    assert a * a <= a * c;
    assert a * c <= c * c;
    assert c * c == b * b;
  }

  function ClampTo(c: real, m: real, reach: real): real {
    if c < m - reach then m - reach else if c > m + reach then m + reach else c
  }

  /** The two tests are exactly the meeting of closed sets in a point. */
  lemma BoxesMeetInPoint(a: Box, b: Box)
    ensures (exists p :: InBox(p, a) && InBox(p, b)) ==> BoxesMeet(a, b)
    ensures BoxesMeet(a, b) && NonEmpty(a) && NonEmpty(b) ==> exists p :: InBox(p, a) && InBox(p, b)
  {
    if BoxesMeet(a, b) && NonEmpty(a) && NonEmpty(b) {
      var p := Vec(MeetingPoint(a.center.x, a.extents.x, b.center.x, b.extents.x),
                   MeetingPoint(a.center.y, a.extents.y, b.center.y, b.extents.y),
                   MeetingPoint(a.center.z, a.extents.z, b.center.z, b.extents.z));
      assert InBox(p, a) && InBox(p, b);
    }
  }

  predicate NonEmpty(b: Box) {
    b.extents.x >= 0.0 && b.extents.y >= 0.0 && b.extents.z >= 0.0
  }

  function MeetingPoint(a: real, e: real, b: real, f: real): (p: real)
    requires Near(a, b, e + f) && e >= 0.0 && f >= 0.0
    ensures Near(p, a, e) && Near(p, b, f)
  {
    ClampTo(b, a, e)
  }

  lemma SphereMeetsInPoint(b: Box, s: Sphere)
    ensures (exists p :: InBox(p, b) && InSphere(p, s)) ==> SphereMeets(b, s)
    ensures SphereMeets(b, s) && NonEmpty(b) ==> exists p :: InBox(p, b) && InSphere(p, s)
  {
    forall p | InBox(p, b) && InSphere(p, s) ensures SphereMeets(b, s) {
      PointMeets(p, b, s);
    }
    if SphereMeets(b, s) && NonEmpty(b) {
      var p := Vec(ClampTo(s.center.x, b.center.x, b.extents.x), ClampTo(s.center.y, b.center.y, b.extents.y),
                   ClampTo(s.center.z, b.center.z, b.extents.z));
      ClosestPoint(s.center.x, b.center.x, b.extents.x);
      ClosestPoint(s.center.y, b.center.y, b.extents.y);
      ClosestPoint(s.center.z, b.center.z, b.extents.z);
      assert InBox(p, b) && InSphere(p, s);
    }
  }

  lemma ClosestPoint(c: real, m: real, reach: real)
    requires reach >= 0.0
    ensures Near(ClampTo(c, m, reach), m, reach)
    ensures Square(ClampTo(c, m, reach) - c) == Square(Outside(c, m, reach))
  {
    var d := ClampTo(c, m, reach) - c;
    assert d == Outside(c, m, reach) || d == -Outside(c, m, reach);
    assert d * d == (-d) * (-d);
  }

  lemma PointMeets(p: Vec, b: Box, s: Sphere)
    requires InBox(p, b) && InSphere(p, s)
    ensures SphereMeets(b, s)
  {
    SquareGrows(Outside(s.center.x, b.center.x, b.extents.x), p.x - s.center.x);
    SquareGrows(Outside(s.center.y, b.center.y, b.extents.y), p.y - s.center.y);
    SquareGrows(Outside(s.center.z, b.center.z, b.extents.z), p.z - s.center.z);
  }

  // ---- the tree ----

  const MAX_LEVEL := 3

  datatype Tree = Leaf(area: Box, boxes: seq<Box>) | Node(area: Box, children: seq<Tree>)

  function Cube(center: Vec, volume: real): Box {
    Box(center, Vec(volume / 2.0, volume / 2.0, volume / 2.0))
  }

  /** The centers of the eight children, in the order of the child array. */
  function ChildCenter(c: Vec, volume: real, i: nat): Vec
    requires i < 8
  {
    var q := volume / 4.0;
    var east := i % 2 == 0;
    var up := i < 4;
    var north := 2 <= i <= 5;
    Vec(if east then c.x + q else c.x - q, if up then c.y + q else c.y - q, if north then c.z + q else c.z - q)
  }

  /** A freshly built tree. */
  function Built(level: nat, center: Vec, volume: real): Tree
    requires level <= MAX_LEVEL
    decreases MAX_LEVEL - level
  {
    if level == MAX_LEVEL then Leaf(Cube(center, volume), [])
    else
      Node(Cube(center, volume),
           seq(8, i requires 0 <= i < 8 => Built(level + 1, ChildCenter(center, volume, i), volume / 2.0)))
  }

  function Insert(t: Tree, b: Box): Tree {
    if !BoxesMeet(t.area, b) then t
    else match t
      case Leaf(area, boxes) => Leaf(area, boxes + [b])
      case Node(area, children) => Node(area, seq(|children|, i requires 0 <= i < |children| => Insert(children[i], b)))
  }

  function InsertAll(t: Tree, boxes: seq<Box>): Tree
    decreases |boxes|
  {
    if boxes == [] then t else Insert(InsertAll(t, boxes[..|boxes| - 1]), boxes[|boxes| - 1])
  }

  // ---- collision ----

  /** A sphere being pushed, the position that follows its center, and whether anything was hit. */
  datatype Probe = Probe(sphere: Sphere, position: Vec, hit: bool)

  function Abs(a: real): real {
    if a < 0.0 then -a else a
  }

  /** The source's clamp: inside the interval it goes to the nearer end, on a tie to the lower. */
  function Snap(v: real, low: real, high: real): real {
    var v := if v < low then low else v;
    var v := if v > high then high else v;
    if v != low && v != high then (if v - low > high - v then high else low) else v
  }

  /** Distance along one axis between the sphere's center and the box's edge nearest to it. */
  function Gap(offset: real, extent: real): real {
    var close := Snap(offset, -1.0 * extent, extent);
    if offset >= 0.0 then offset - close else close - offset
  }

  /** The push out of one box, given its distances from the edges: along x or z, whichever is the smaller correction. */
  function PushedBy(s: Sphere, b: Box, gapX: real, gapZ: real): Sphere {
    var dx, dz := s.center.x - b.center.x, s.center.z - b.center.z;
    if Abs(s.radius - Abs(gapX)) < Abs(s.radius - Abs(gapZ)) then
      var push := Abs(s.radius - gapX) * 1.2;
      s.(center := s.center.(x := if dx < 0.0 then s.center.x - push else s.center.x + push))
    else
      var push := Abs(s.radius - gapZ) * 1.2;
      s.(center := s.center.(z := if dz < 0.0 then s.center.z - push else s.center.z + push))
  }

  function Pushed(s: Sphere, b: Box): Sphere {
    PushedBy(s, b, Gap(s.center.x - b.center.x, b.extents.x), Gap(s.center.z - b.center.z, b.extents.z))
  }

  function AgainstBox(b: Box, p: Probe): Probe {
    if !SphereMeets(b, p.sphere) then p
    else
      var s := Pushed(p.sphere, b);
      Probe(s, s.center, true)
  }

  /** The boxes of a leaf from the `i`-th on, each against the sphere as the previous ones left it. */
  function AgainstBoxes(boxes: seq<Box>, p: Probe, i: nat := 0): Probe
    requires i <= |boxes|
    decreases |boxes| - i
  {
    if i == |boxes| then p else AgainstBoxes(boxes, AgainstBox(boxes[i], p), i + 1)
  }

  /** CheckCollision: every child is visited once per pass, in eight passes, each followed by one child again. */
  function Check(t: Tree, p: Probe): Probe
    decreases t
  {
    if !SphereMeets(t.area, p.sphere) then p
    else match t
      case Leaf(_, boxes) => AgainstBoxes(boxes, p)
      case Node(_, children) => CheckPasses(children, p)
  }

  function CheckEach(ts: seq<Tree>, p: Probe, i: nat := 0): Probe
    requires i <= |ts|
    decreases ts, 0, |ts| - i
  {
    if i == |ts| then p else CheckEach(ts, Check(ts[i], p), i + 1)
  }

  function CheckPasses(ts: seq<Tree>, p: Probe, i: nat := 0): Probe
    requires i <= |ts|
    decreases ts, 1, |ts| - i
  {
    if i == |ts| then p else CheckPasses(ts, Check(ts[i], CheckEach(ts, p)), i + 1)
  }

  // ---- what a check finds ----

  /** Some leaf cell on the sphere's way holds a box that meets the sphere. */
  predicate Finds(t: Tree, s: Sphere)
    decreases t
  {
    SphereMeets(t.area, s)
    && match t
       case Leaf(_, boxes) => exists i | 0 <= i < |boxes| :: SphereMeets(boxes[i], s)
       case Node(_, children) => exists i | 0 <= i < |children| :: Finds(children[i], s)
  }

  lemma {:induction false} BoxesQuiet(boxes: seq<Box>, p: Probe, i: nat)
    requires i <= |boxes| && forall k | i <= k < |boxes| :: !SphereMeets(boxes[k], p.sphere)
    ensures AgainstBoxes(boxes, p, i) == p
    decreases |boxes| - i
  {
    if i < |boxes| { BoxesQuiet(boxes, p, i + 1); }
  }

  /** A check that finds nothing leaves sphere and position alone. */
  lemma {:induction false} CheckQuiet(t: Tree, p: Probe)
    requires !Finds(t, p.sphere)
    ensures Check(t, p) == p
    decreases t
  {
    if SphereMeets(t.area, p.sphere) {
      match t
      case Leaf(_, boxes) => BoxesQuiet(boxes, p, 0);
      case Node(_, children) => PassesQuiet(children, p, 0);
    }
  }

  lemma {:induction false} EachQuiet(ts: seq<Tree>, p: Probe, i: nat)
    requires i <= |ts| && forall k | i <= k < |ts| :: !Finds(ts[k], p.sphere)
    ensures CheckEach(ts, p, i) == p
    decreases ts, 0, |ts| - i
  {
    if i < |ts| {
      CheckQuiet(ts[i], p);
      EachQuiet(ts, p, i + 1);
    }
  }

  lemma {:induction false} PassesQuiet(ts: seq<Tree>, p: Probe, i: nat)
    requires i <= |ts| && forall k | 0 <= k < |ts| :: !Finds(ts[k], p.sphere)
    ensures CheckPasses(ts, p, i) == p
    decreases ts, 1, |ts| - i
  {
    if i < |ts| {
      EachQuiet(ts, p, 0);
      CheckQuiet(ts[i], p);
      PassesQuiet(ts, p, i + 1);
    }
  }

  lemma {:induction false} BoxesLoud(boxes: seq<Box>, p: Probe, i: nat)
    requires i <= |boxes|
    requires p.hit || exists k :: i <= k < |boxes| && SphereMeets(boxes[k], p.sphere)
    ensures AgainstBoxes(boxes, p, i).hit
    decreases |boxes| - i
  {
    if i < |boxes| { BoxesLoud(boxes, AgainstBox(boxes[i], p), i + 1); }
  }

  /** A check that finds something reports a hit, and no hit is forgotten. */
  lemma {:induction false} CheckLoud(t: Tree, p: Probe)
    requires p.hit || Finds(t, p.sphere)
    ensures Check(t, p).hit
    decreases t
  {
    if SphereMeets(t.area, p.sphere) {
      match t
      case Leaf(_, boxes) => BoxesLoud(boxes, p, 0);
      case Node(_, children) => PassesLoud(children, p, 0);
    }
  }

  lemma {:induction false} EachLoud(ts: seq<Tree>, p: Probe, i: nat)
    requires i <= |ts|
    requires p.hit || exists k :: i <= k < |ts| && Finds(ts[k], p.sphere)
    ensures CheckEach(ts, p, i).hit
    decreases ts, 0, |ts| - i
  {
    if i < |ts| {
      if p.hit || Finds(ts[i], p.sphere) { CheckLoud(ts[i], p); } else { CheckQuiet(ts[i], p); }
      EachLoud(ts, Check(ts[i], p), i + 1);
    }
  }

  lemma {:induction false} PassesLoud(ts: seq<Tree>, p: Probe, i: nat)
    requires i <= |ts|
    requires p.hit || (i < |ts| && exists k :: 0 <= k < |ts| && Finds(ts[k], p.sphere))
    ensures CheckPasses(ts, p, i).hit
    decreases ts, 1, |ts| - i
  {
    if i < |ts| {
      EachLoud(ts, p, 0);
      CheckLoud(ts[i], CheckEach(ts, p));
      PassesLoud(ts, Check(ts[i], CheckEach(ts, p)), i + 1);
    }
  }

  /** The answer of a check, and what it leaves alone if the answer is no. */
  lemma CheckAnswers(t: Tree, s: Sphere, position: Vec)
    ensures var p := Check(t, Probe(s, position, false));
            && (p.hit <==> Finds(t, s))
            && (!p.hit ==> p.sphere == s && p.position == position)
  {
    if Finds(t, s) {
      CheckLoud(t, Probe(s, position, false));
    } else {
      CheckQuiet(t, Probe(s, position, false));
    }
  }

  // ---- against brute force ----

  /** `t` was built over this cube and then given exactly `boxes`, one after the other. */
  function Loaded(center: Vec, volume: real, boxes: seq<Box>): Tree {
    InsertAll(Built(0, center, volume), boxes)
  }

  /** `i`-th child of a tree built over a cube, after the insertions. */
  lemma {:induction false} InsertAllParts(level: nat, center: Vec, volume: real, boxes: seq<Box>)
    requires level <= MAX_LEVEL
    ensures var t := InsertAll(Built(level, center, volume), boxes);
            && t.area == Cube(center, volume)
            && (if level == MAX_LEVEL then t == Leaf(t.area, Touching(t.area, boxes))
                else t.Node? && |t.children| == 8 && forall i | 0 <= i < 8 ::
                       t.children[i] == InsertAll(Built(level + 1, ChildCenter(center, volume, i), volume / 2.0),
                                                  Touching(t.area, boxes)))
    decreases |boxes|
  {
    if boxes != [] {
      InsertAllParts(level, center, volume, boxes[..|boxes| - 1]);
    }
  }

  /** The boxes that touch an area, in order. */
  function Touching(area: Box, boxes: seq<Box>): seq<Box>
    decreases |boxes|
  {
    if boxes == [] then []
    else
      var rest := Touching(area, boxes[..|boxes| - 1]);
      if BoxesMeet(area, boxes[|boxes| - 1]) then rest + [boxes[|boxes| - 1]] else rest
  }

  lemma {:induction false} TouchingOnly(area: Box, boxes: seq<Box>, b: Box)
    ensures b in Touching(area, boxes) <==> b in boxes && BoxesMeet(area, b)
    decreases |boxes|
  {
    if boxes != [] {
      TouchingOnly(area, boxes[..|boxes| - 1], b);
      assert boxes == boxes[..|boxes| - 1] + [boxes[|boxes| - 1]];
    }
  }

  /** Whatever is found is one of the boxes inserted, and it meets the sphere. */
  lemma {:induction false} FoundIsReal(level: nat, center: Vec, volume: real, boxes: seq<Box>, s: Sphere)
    requires level <= MAX_LEVEL && Finds(InsertAll(Built(level, center, volume), boxes), s)
    ensures exists b :: b in boxes && SphereMeets(b, s)
    decreases MAX_LEVEL - level
  {
    var t := InsertAll(Built(level, center, volume), boxes);
    var kept := Touching(t.area, boxes);
    InsertAllParts(level, center, volume, boxes);
    if level == MAX_LEVEL {
      var i :| 0 <= i < |kept| && SphereMeets(kept[i], s);
      TouchingOnly(t.area, boxes, kept[i]);
    } else {
      var i :| 0 <= i < |t.children| && Finds(t.children[i], s);
      FoundIsReal(level + 1, ChildCenter(center, volume, i), volume / 2.0, kept, s);
      var b :| b in kept && SphereMeets(b, s);
      TouchingOnly(t.area, boxes, b);
    }
  }

  /** The octant of a point. */
  function Octant(center: Vec, p: Vec): (i: nat)
    ensures i < 8
  {
    var east := p.x >= center.x;
    var up := p.y >= center.y;
    var north := p.z >= center.z;
    if up then (if north then (if east then 2 else 3) else (if east then 0 else 1))
    else (if north then (if east then 4 else 5) else (if east then 6 else 7))
  }

  lemma OctantHolds(center: Vec, volume: real, p: Vec)
    requires InBox(p, Cube(center, volume))
    ensures InBox(p, Cube(ChildCenter(center, volume, Octant(center, p)), volume / 2.0))
  {
  }

  /** A box that meets the sphere at a point of the cell is found. */
  lemma {:induction false} MeetingIsFound(level: nat, center: Vec, volume: real, boxes: seq<Box>, s: Sphere, b: Box, p: Vec)
    requires level <= MAX_LEVEL && b in boxes && InBox(p, b) && InSphere(p, s) && InBox(p, Cube(center, volume))
    ensures Finds(InsertAll(Built(level, center, volume), boxes), s)
    decreases MAX_LEVEL - level
  {
    var t := InsertAll(Built(level, center, volume), boxes);
    var kept := Touching(t.area, boxes);
    InsertAllParts(level, center, volume, boxes);
    PointMeets(p, t.area, s);
    BoxesMeetInPoint(t.area, b);
    TouchingOnly(t.area, boxes, b);
    assert b in kept;
    if level == MAX_LEVEL {
      PointMeets(p, b, s);
      var i :| 0 <= i < |kept| && kept[i] == b;
      assert SphereMeets(t.boxes[i], s);
    } else {
      var i := Octant(center, p);
      OctantHolds(center, volume, p);
      MeetingIsFound(level + 1, ChildCenter(center, volume, i), volume / 2.0, kept, s, b, p);
      assert Finds(t.children[i], s);
    }
  }

  /**
   * The octree against testing every box: it answers yes if some box meets the sphere at a point of the root
   * cube; if it answers yes, some box meets the sphere; if it answers no, sphere and position are as before.
   */
  lemma RefinesBruteForce(center: Vec, volume: real, boxes: seq<Box>, s: Sphere, position: Vec)
    ensures var p := Check(Loaded(center, volume, boxes), Probe(s, position, false));
            && ((exists b, q :: b in boxes && InBox(q, b) && InSphere(q, s) && InBox(q, Cube(center, volume))) ==> p.hit)
            && (p.hit ==> exists b :: b in boxes && SphereMeets(b, s))
            && (!p.hit ==> p.sphere == s && p.position == position)
  {
    CheckAnswers(Loaded(center, volume, boxes), s, position);
    if Finds(Loaded(center, volume, boxes), s) { FoundIsReal(0, center, volume, boxes, s); }
    forall b, q | b in boxes && InBox(q, b) && InSphere(q, s) && InBox(q, Cube(center, volume))
      ensures Finds(Loaded(center, volume, boxes), s)
    {
      MeetingIsFound(0, center, volume, boxes, s, b, q);
    }
  }

  // ---- exactly when it answers yes ----

  type Octants = path: seq<nat> | forall k | 0 <= k < |path| :: path[k] < 8

  /** The cell that a path of octants leads to. */
  function CellAt(center: Vec, volume: real, path: Octants): Box
    decreases |path|
  {
    if path == [] then Cube(center, volume)
    else CellAt(ChildCenter(center, volume, path[0]), volume / 2.0, path[1..])
  }

  predicate Within(a: real, e: real, b: real, f: real) {
    b - f <= a - e && a + e <= b + f
  }

  /** Box `a` lies in box `b`. */
  predicate Inside(a: Box, b: Box) {
    && Within(a.center.x, a.extents.x, b.center.x, b.extents.x)
    && Within(a.center.y, a.extents.y, b.center.y, b.extents.y)
    && Within(a.center.z, a.extents.z, b.center.z, b.extents.z)
  }

  lemma LargerMeetsToo(a: Box, b: Box, s: Sphere, c: Box)
    requires Inside(a, b) && NonEmpty(a)
    ensures SphereMeets(a, s) ==> SphereMeets(b, s)
    ensures BoxesMeet(a, c) ==> BoxesMeet(b, c)
  {
    SquareGrows(Outside(s.center.x, b.center.x, b.extents.x), Outside(s.center.x, a.center.x, a.extents.x));
    SquareGrows(Outside(s.center.y, b.center.y, b.extents.y), Outside(s.center.y, a.center.y, a.extents.y));
    SquareGrows(Outside(s.center.z, b.center.z, b.extents.z), Outside(s.center.z, a.center.z, a.extents.z));
  }

  lemma {:induction false} CellsNest(center: Vec, volume: real, path: Octants)
    requires volume >= 0.0
    ensures Inside(CellAt(center, volume, path), Cube(center, volume)) && NonEmpty(CellAt(center, volume, path))
    decreases |path|
  {
    if path != [] { CellsNest(ChildCenter(center, volume, path[0]), volume / 2.0, path[1..]); }
  }

  /** A leaf cell, the sphere and a box, each meeting the other two. */
  predicate Triple(cell: Box, b: Box, s: Sphere) {
    SphereMeets(cell, s) && BoxesMeet(cell, b) && SphereMeets(b, s)
  }

  lemma {:induction false} TripleIsFound(level: nat, center: Vec, volume: real, boxes: seq<Box>, s: Sphere, b: Box, path: Octants)
    requires level <= MAX_LEVEL && volume >= 0.0 && b in boxes && |path| == MAX_LEVEL - level
    requires Triple(CellAt(center, volume, path), b, s)
    ensures Finds(InsertAll(Built(level, center, volume), boxes), s)
    decreases MAX_LEVEL - level
  {
    var t := InsertAll(Built(level, center, volume), boxes);
    var kept := Touching(t.area, boxes);
    InsertAllParts(level, center, volume, boxes);
    CellsNest(center, volume, path);
    LargerMeetsToo(CellAt(center, volume, path), t.area, s, b);
    TouchingOnly(t.area, boxes, b);
    if level == MAX_LEVEL {
      var i :| 0 <= i < |kept| && kept[i] == b;
      assert SphereMeets(t.boxes[i], s);
    } else {
      TripleIsFound(level + 1, ChildCenter(center, volume, path[0]), volume / 2.0, kept, s, b, path[1..]);
      assert Finds(t.children[path[0]], s);
    }
  }

  lemma {:induction false} FoundIsTriple(level: nat, center: Vec, volume: real, boxes: seq<Box>, s: Sphere)
    returns (b: Box, path: Octants)
    requires level <= MAX_LEVEL && Finds(InsertAll(Built(level, center, volume), boxes), s)
    ensures b in boxes && |path| == MAX_LEVEL - level && Triple(CellAt(center, volume, path), b, s)
    decreases MAX_LEVEL - level
  {
    var t := InsertAll(Built(level, center, volume), boxes);
    var kept := Touching(t.area, boxes);
    InsertAllParts(level, center, volume, boxes);
    if level == MAX_LEVEL {
      var i :| 0 <= i < |kept| && SphereMeets(kept[i], s);
      b, path := kept[i], [];
    } else {
      var i :| 0 <= i < |t.children| && Finds(t.children[i], s);
      var rest: Octants;
      b, rest := FoundIsTriple(level + 1, ChildCenter(center, volume, i), volume / 2.0, kept, s);
      path := [i] + rest;
      assert path[1..] == rest;
    }
    TouchingOnly(t.area, boxes, b);
  }

  /** The answer is yes exactly if some leaf cell, some box and the sphere meet each other in pairs. */
  lemma HitIffTriple(center: Vec, volume: real, boxes: seq<Box>, s: Sphere, position: Vec)
    requires volume >= 0.0
    ensures Check(Loaded(center, volume, boxes), Probe(s, position, false)).hit
            <==> exists b, path: Octants :: b in boxes && |path| == MAX_LEVEL && Triple(CellAt(center, volume, path), b, s)
  {
    CheckAnswers(Loaded(center, volume, boxes), s, position);
    if Finds(Loaded(center, volume, boxes), s) {
      var b, path := FoundIsTriple(0, center, volume, boxes, s);
    }
    forall b, path: Octants | b in boxes && |path| == MAX_LEVEL && Triple(CellAt(center, volume, path), b, s)
      ensures Finds(Loaded(center, volume, boxes), s)
    {
      TripleIsFound(0, center, volume, boxes, s, b, path);
    }
  }

  // ---- the collision response ----

  /** How far the center of a sphere is from the box's face on its side, along one axis; negative inside. */
  function FaceDistance(offset: real, extent: real): real {
    Abs(offset) - extent
  }

  /** The distance from the face, which is the extent itself for a center level with the box's. */
  function Correction(offset: real, extent: real): real {
    if offset == 0.0 then extent else FaceDistance(offset, extent)
  }

  lemma GapIs(offset: real, extent: real)
    requires extent >= 0.0
    ensures Gap(offset, extent) == Correction(offset, extent)
  {
  }

  /** The push along the axis on which the center is `offset` from the box's center: 1.2 times the correction, outward. */
  function PushedOffset(offset: real, extent: real, radius: real): real {
    var push := 1.2 * Abs(radius - Correction(offset, extent));
    if offset < 0.0 then offset - push else offset + push
  }

  /** A pushed sphere clears the box on this axis: its center is a radius or more from the face. */
  predicate Clears(offset: real, extent: real, radius: real) {
    FaceDistance(offset, extent) >= radius
  }

  /** A sphere within reach of the face is pushed clear of it, unless it is level with the center and not pushed far enough. */
  lemma PushClearsIff(offset: real, extent: real, radius: real)
    requires extent >= 0.0 && radius >= 0.0 && FaceDistance(offset, extent) <= radius
    ensures Clears(PushedOffset(offset, extent, radius), extent, radius)
            <==> offset != 0.0 || 1.2 * Abs(radius - extent) >= extent + radius
  {
  }

  /** On the axis with the smaller correction. */
  predicate AlongX(s: Sphere, b: Box) {
    var dx, dz := s.center.x - b.center.x, s.center.z - b.center.z;
    Abs(s.radius - Abs(Correction(dx, b.extents.x))) < Abs(s.radius - Abs(Correction(dz, b.extents.z)))
  }

  /** What a push does to the sphere: one horizontal axis changes, by 1.2 times the correction, away from the box. */
  lemma PushMoves(s: Sphere, b: Box)
    requires NonEmpty(b)
    ensures var dx, dz := s.center.x - b.center.x, s.center.z - b.center.z;
            Pushed(s, b) ==
            if AlongX(s, b) then Sphere(Vec(b.center.x + PushedOffset(dx, b.extents.x, s.radius), s.center.y, s.center.z), s.radius)
            else Sphere(Vec(s.center.x, s.center.y, b.center.z + PushedOffset(dz, b.extents.z, s.radius)), s.radius)
  {
    GapIs(s.center.x - b.center.x, b.extents.x);
    GapIs(s.center.z - b.center.z, b.extents.z);
    CorrectedBy(s, b, Gap(s.center.x - b.center.x, b.extents.x), Gap(s.center.z - b.center.z, b.extents.z));
  }

  lemma CorrectedBy(s: Sphere, b: Box, gapX: real, gapZ: real)
    requires gapX == Correction(s.center.x - b.center.x, b.extents.x)
    requires gapZ == Correction(s.center.z - b.center.z, b.extents.z)
    ensures var dx, dz := s.center.x - b.center.x, s.center.z - b.center.z;
            PushedBy(s, b, gapX, gapZ) ==
            if AlongX(s, b) then Sphere(Vec(b.center.x + PushedOffset(dx, b.extents.x, s.radius), s.center.y, s.center.z), s.radius)
            else Sphere(Vec(s.center.x, s.center.y, b.center.z + PushedOffset(dz, b.extents.z, s.radius)), s.radius)
  {
  }

  /** No point of the box is inside the sphere. */
  ghost predicate Apart(b: Box, s: Sphere) {
    forall p | InBox(p, b) :: Distance2(p, s.center) >= Square(s.radius)
  }

  lemma OutsideIsFace(c: real, m: real, reach: real)
    requires reach >= 0.0
    ensures Outside(c, m, reach) == if FaceDistance(c - m, reach) > 0.0 then FaceDistance(c - m, reach) else 0.0
  {
  }

  lemma PositiveProduct(a: real, b: real) returns (c: real)
    requires a > 0.0 && b > 0.0
    ensures c == a * b && c > 0.0
  {
    c := a * b;
  }

  lemma LargerSquare(a: real, b: real)
    requires a > b >= 0.0
    ensures Square(a) > Square(b)
  {
    var c := PositiveProduct(a - b, a + b);
    assert c == a * a - b * b;
  }

  lemma SquareIsPositive(a: real)
    ensures Square(a) >= 0.0
  {
  }

  lemma PartOfSum(a: real, b: real, c: real, r: real)
    requires r >= 0.0 && Square(a) + Square(b) + Square(c) <= Square(r)
    ensures a <= r
  {
    SquareIsPositive(b);
    SquareIsPositive(c);
    if a > r { LargerSquare(a, r); }
  }

  /** A sphere that meets a box is within a radius of its faces on every axis. */
  lemma MeetingIsNear(b: Box, s: Sphere)
    requires NonEmpty(b) && s.radius >= 0.0 && SphereMeets(b, s)
    ensures FaceDistance(s.center.x - b.center.x, b.extents.x) <= s.radius
    ensures FaceDistance(s.center.z - b.center.z, b.extents.z) <= s.radius
  {
    var x, y, z := Outside(s.center.x, b.center.x, b.extents.x), Outside(s.center.y, b.center.y, b.extents.y),
                   Outside(s.center.z, b.center.z, b.extents.z);
    PartOfSum(x, y, z, s.radius);
    PartOfSum(z, x, y, s.radius);
    OutsideIsFace(s.center.x, b.center.x, b.extents.x);
    OutsideIsFace(s.center.z, b.center.z, b.extents.z);
  }

  lemma AxisApart(c: real, m: real, reach: real, radius: real, p: real)
    requires Clears(c - m, reach, radius) && Near(p, m, reach) && radius >= 0.0
    ensures Square(radius) <= Square(p - c)
  {
    SquareGrows(radius, p - c);
  }

  lemma ClearIsApart(b: Box, s: Sphere)
    requires NonEmpty(b) && s.radius >= 0.0
    requires Clears(s.center.x - b.center.x, b.extents.x, s.radius) || Clears(s.center.z - b.center.z, b.extents.z, s.radius)
    ensures Apart(b, s)
  {
    forall p | InBox(p, b) ensures Distance2(p, s.center) >= Square(s.radius) {
      PointIsApart(b, s, p);
    }
  }

  lemma PointIsApart(b: Box, s: Sphere, p: Vec)
    requires s.radius >= 0.0 && InBox(p, b)
    requires Clears(s.center.x - b.center.x, b.extents.x, s.radius) || Clears(s.center.z - b.center.z, b.extents.z, s.radius)
    ensures Distance2(p, s.center) >= Square(s.radius)
  {
    SquareIsPositive(p.x - s.center.x);
    SquareIsPositive(p.y - s.center.y);
    SquareIsPositive(p.z - s.center.z);
    if Clears(s.center.x - b.center.x, b.extents.x, s.radius) {
      AxisApart(s.center.x, b.center.x, b.extents.x, s.radius, p.x);
    } else {
      AxisApart(s.center.z, b.center.z, b.extents.z, s.radius, p.z);
    }
  }

  /** Offset and extent on the axis along which a sphere is pushed. */
  function PushedAxis(s: Sphere, b: Box): (real, real) {
    if AlongX(s, b) then (s.center.x - b.center.x, b.extents.x) else (s.center.z - b.center.z, b.extents.z)
  }

  /** A push takes the sphere out of the box it met, unless its center is level with the box's on that axis. */
  lemma PushedApart(s: Sphere, b: Box)
    requires NonEmpty(b) && s.radius >= 0.0 && SphereMeets(b, s)
    requires var (offset, extent) := PushedAxis(s, b);
             offset != 0.0 || 1.2 * Abs(s.radius - extent) >= extent + s.radius
    ensures Apart(b, Pushed(s, b))
  {
    MeetingIsNear(b, s);
    PushMoves(s, b);
    var (offset, extent) := PushedAxis(s, b);
    PushClearsIff(offset, extent, s.radius);
    ClearIsApart(b, Pushed(s, b));
  }

  lemma NoDistance(p: Vec)
    ensures Distance2(p, p) == 0.0
  {
    var zero := 0.0;
    assert p.x - p.x == zero && p.y - p.y == zero && p.z - p.z == zero;
    assert Square(zero) == zero;
  }

  /** A sphere right in the middle of a cube as large as itself is pushed by nothing at all. */
  lemma StuckInTheMiddle(c: Vec, r: real)
    requires r > 0.0
    ensures SphereMeets(Box(c, Vec(r, r, r)), Sphere(c, r)) && Pushed(Sphere(c, r), Box(c, Vec(r, r, r))) == Sphere(c, r)
    ensures InBox(c, Box(c, Vec(r, r, r))) && !Apart(Box(c, Vec(r, r, r)), Sphere(c, r))
  {
    var b, s := Box(c, Vec(r, r, r)), Sphere(c, r);
    PositiveSquare(r);
    NoDistance(c);
    InTheMiddle(b, s);
    PointMeets(c, b, s);
    PushMoves(s, b);
  }

  lemma PositiveSquare(r: real)
    requires r > 0.0
    ensures Square(r) > 0.0
  {
    var q := PositiveProduct(r, r);
    assert Square(r) == q;
  }

  lemma InTheMiddle(b: Box, s: Sphere)
    requires NonEmpty(b) && s.center == b.center && Distance2(s.center, s.center) == 0.0 && Square(s.radius) > 0.0
    ensures InBox(s.center, b) && !Apart(b, s)
  {
    assert InBox(s.center, b);
  }

  /** A check keeps the sphere's size and height, and a position once set is the sphere's center. */
  predicate Follows(p: Probe, q: Probe) {
    && q.sphere.radius == p.sphere.radius && q.sphere.center.y == p.sphere.center.y
    && (p.hit ==> q.hit) && (!q.hit ==> q == p)
    && (q == p || q.position == q.sphere.center)
  }

  lemma {:induction false} BoxesFollow(boxes: seq<Box>, p: Probe, i: nat)
    requires i <= |boxes|
    ensures Follows(p, AgainstBoxes(boxes, p, i))
    decreases |boxes| - i
  {
    if i < |boxes| { BoxesFollow(boxes, AgainstBox(boxes[i], p), i + 1); }
  }

  /** After a check the position is the center of the sphere, unless nothing was hit and nothing has changed. */
  lemma {:induction false} CheckFollows(t: Tree, p: Probe)
    ensures Follows(p, Check(t, p))
    decreases t
  {
    if SphereMeets(t.area, p.sphere) {
      match t
      case Leaf(_, boxes) => BoxesFollow(boxes, p, 0);
      case Node(_, children) => PassesFollow(children, p, 0);
    }
  }

  lemma {:induction false} EachFollows(ts: seq<Tree>, p: Probe, i: nat)
    requires i <= |ts|
    ensures Follows(p, CheckEach(ts, p, i))
    decreases ts, 0, |ts| - i
  {
    if i < |ts| {
      CheckFollows(ts[i], p);
      EachFollows(ts, Check(ts[i], p), i + 1);
    }
  }

  lemma {:induction false} PassesFollow(ts: seq<Tree>, p: Probe, i: nat)
    requires i <= |ts|
    ensures Follows(p, CheckPasses(ts, p, i))
    decreases ts, 1, |ts| - i
  {
    if i < |ts| {
      EachFollows(ts, p, 0);
      CheckFollows(ts[i], CheckEach(ts, p));
      PassesFollow(ts, Check(ts[i], CheckEach(ts, p)), i + 1);
    }
  }

  // ---- the hit flag only records ----

  function Or(p: Probe, hit: bool): Probe {
    p.(hit := p.hit || hit)
  }

  lemma {:induction false} BoxesRecord(boxes: seq<Box>, p: Probe, hit: bool, i: nat)
    requires i <= |boxes|
    ensures AgainstBoxes(boxes, Or(p, hit), i) == Or(AgainstBoxes(boxes, p, i), hit)
    decreases |boxes| - i
  {
    if i < |boxes| { BoxesRecord(boxes, AgainstBox(boxes[i], p), hit, i + 1); }
  }

  /** An earlier hit changes nothing about a check but its answer. */
  lemma {:induction false} CheckRecords(t: Tree, p: Probe, hit: bool)
    ensures Check(t, Or(p, hit)) == Or(Check(t, p), hit)
    decreases t
  {
    if SphereMeets(t.area, p.sphere) {
      match t
      case Leaf(_, boxes) => BoxesRecord(boxes, p, hit, 0);
      case Node(_, children) => PassesRecord(children, p, hit, 0);
    }
  }

  lemma {:induction false} EachRecords(ts: seq<Tree>, p: Probe, hit: bool, i: nat)
    requires i <= |ts|
    ensures CheckEach(ts, Or(p, hit), i) == Or(CheckEach(ts, p, i), hit)
    decreases ts, 0, |ts| - i
  {
    if i < |ts| {
      CheckRecords(ts[i], p, hit);
      EachRecords(ts, Check(ts[i], p), hit, i + 1);
    }
  }

  lemma {:induction false} PassesRecord(ts: seq<Tree>, p: Probe, hit: bool, i: nat)
    requires i <= |ts|
    ensures CheckPasses(ts, Or(p, hit), i) == Or(CheckPasses(ts, p, i), hit)
    decreases ts, 1, |ts| - i
  {
    if i < |ts| {
      EachRecords(ts, p, hit, 0);
      CheckRecords(ts[i], CheckEach(ts, p), hit);
      PassesRecord(ts, Check(ts[i], CheckEach(ts, p)), hit, i + 1);
    }
  }
}
