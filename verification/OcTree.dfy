/** The octree as objects that build their children, take boxes into their leaves and push a sphere in place. */
module OcTrees {
  import opened OcTreeSpec

  /** What a check updates through references: a player's bounding sphere and position. */
  class Body {
    var sphere: Sphere
    var position: Vec

    constructor (sphere: Sphere, position: Vec)
      ensures this.sphere == sphere && this.position == position
    {
      this.sphere, this.position := sphere, position;
    }

    ghost function Probed(hit: bool): Probe
      reads this
    {
      Probe(sphere, position, hit)
    }
  }

  class OcTree {
    const curLevel: nat
    const volume: real
    const center: Vec
    const area: Box
    var childTree: seq<OcTree>
    var boxes: seq<Box>
    ghost var Repr: set<object>

    constructor (level: nat, center: Vec, volume: real)
      ensures curLevel == level && this.center == center && this.volume == volume && area == Cube(center, volume)
      ensures Unbuilt()
    {
      curLevel, this.center, this.volume := level, center, volume;
      area := Box(center, Vec(volume / 2.0, volume / 2.0, volume / 2.0));
      childTree, boxes, Repr := [], [], {this};
    }

    ghost predicate Unbuilt()
      reads this
    {
      childTree == [] && boxes == [] && Repr == {this}
    }

    /** The children are separate objects, none of which contains this one. */
    ghost predicate Separate()
      reads this, childTree
    {
      && this in Repr
      && (forall i | 0 <= i < |childTree| ::
            childTree[i] in Repr && childTree[i].Repr <= Repr && this !in childTree[i].Repr && childTree[i] in childTree[i].Repr)
      && (forall i, j | 0 <= i < j < |childTree| :: childTree[i].Repr !! childTree[j].Repr)
    }

    /** A built tree that stands for the value `t`. */
    ghost predicate Shows(t: Tree)
      reads this, Repr
      decreases t
    {
      && this in Repr && curLevel <= MAX_LEVEL && t.area == area
      && match t
         case Leaf(_, kept) => curLevel == MAX_LEVEL && kept == boxes && childTree == []
         case Node(_, children) =>
           && curLevel < MAX_LEVEL && |childTree| == |children| == 8
           && (forall i | 0 <= i < 8 :: childTree[i] in Repr)
           && Separate()
           && (forall i | 0 <= i < 8 :: childTree[i].curLevel == curLevel + 1 && childTree[i].Shows(children[i]))
    }

    method BuildTree()
      requires Unbuilt() && curLevel <= MAX_LEVEL && area == Cube(center, volume)
      modifies this
      ensures Shows(Built(curLevel, center, volume)) && fresh(Repr - {this})
      decreases MAX_LEVEL - curLevel, 1
    {
      if curLevel < MAX_LEVEL { BuildChildTree(); }
    }

    static method BuildChild(level: nat, center: Vec, volume: real) returns (child: OcTree)
      requires 0 < level <= MAX_LEVEL
      ensures child.curLevel == level && child.Shows(Built(level, center, volume)) && fresh(child.Repr)
      decreases MAX_LEVEL - level, 2
    {
      child := new OcTree(level, center, volume);
      child.BuildTree();
    }

    /** The eight centers, in the order of the child array. */
    method ChildCenters() returns (centers: seq<Vec>)
      ensures |centers| == 8 && forall i | 0 <= i < 8 :: centers[i] == ChildCenter(center, volume, i)
    {
      var q := volume / 4.0;
      centers := [
        Vec(center.x + q, center.y + q, center.z - q),
        Vec(center.x - q, center.y + q, center.z - q),
        Vec(center.x + q, center.y + q, center.z + q),
        Vec(center.x - q, center.y + q, center.z + q),
        Vec(center.x + q, center.y - q, center.z + q),
        Vec(center.x - q, center.y - q, center.z + q),
        Vec(center.x + q, center.y - q, center.z - q),
        Vec(center.x - q, center.y - q, center.z - q)];
    }

    /** The children so far are those of a freshly built tree. */
    ghost predicate Begun(children: seq<Tree>)
      reads this, Repr
    {
      && |childTree| <= |children| == 8 && this in Repr
      && (forall j | 0 <= j < |childTree| :: childTree[j] in Repr)
      && Separate()
      && forall j | 0 <= j < |childTree| :: childTree[j].curLevel == curLevel + 1 && childTree[j].Shows(children[j])
    }

    method BuildChildTree()
      requires Unbuilt() && curLevel < MAX_LEVEL && area == Cube(center, volume)
      modifies this
      ensures Shows(Built(curLevel, center, volume)) && fresh(Repr - {this})
      decreases MAX_LEVEL - curLevel, 0
    {
      var centers := ChildCenters();
      ghost var children := Built(curLevel, center, volume).children;
      for i := 0 to 8
        invariant |childTree| == i && Begun(children) && boxes == [] && fresh(Repr - {this})
      {
        var child := BuildChild(curLevel + 1, centers[i], volume / 2.0);
        Adopt(child, children);
      }
    }

    method Adopt(child: OcTree, ghost children: seq<Tree>)
      requires Begun(children) && |childTree| < 8 && child.Repr !! Repr && child in child.Repr
      requires child.curLevel == curLevel + 1 && child.Shows(children[|childTree|])
      modifies this
      ensures childTree == old(childTree) + [child] && boxes == old(boxes) && Repr == old(Repr) + child.Repr
      ensures Begun(children)
    {
      childTree := childTree + [child];
      Repr := Repr + child.Repr;
    }

    method AddBoundingBox(aabb: Box, ghost t: Tree)
      requires Shows(t)
      modifies Repr
      ensures Repr == old(Repr) && Shows(Insert(t, aabb))
      decreases t, 1
    {
      if curLevel == MAX_LEVEL {
        if BoxesMeet(area, aabb) { boxes := boxes + [aabb]; }
      } else if BoxesMeet(area, aabb) {
        AddToChildren(aabb, t);
      }
    }

    method AddToChild(i: nat, aabb: Box, ghost t: Tree)
      requires i < |childTree| && Separate() && childTree[i].Shows(t)
      modifies childTree[i].Repr
      ensures Repr == old(Repr) && childTree == old(childTree) && boxes == old(boxes) && Separate()
      ensures childTree[i].Shows(Insert(t, aabb)) && childTree[i].Repr == old(childTree[i].Repr)
      decreases t, 2
    {
      forall j | 0 <= j < |childTree| && j != i ensures childTree[j].Repr !! childTree[i].Repr {}
      childTree[i].AddBoundingBox(aabb, t);
      assert forall j | 0 <= j < |childTree| :: childTree[j].Repr == old(childTree[j].Repr);
    }

    method AddToChildren(aabb: Box, ghost t: Tree)
      requires Shows(t) && t.Node? && BoxesMeet(area, aabb)
      modifies Repr
      ensures Repr == old(Repr) && Shows(Insert(t, aabb))
      decreases t, 0
    {
      for i := 0 to 8
        invariant Repr == old(Repr) && childTree == old(childTree) && boxes == old(boxes) && Separate()
        invariant forall j | 0 <= j < i :: childTree[j].Shows(Insert(t.children[j], aabb))
        invariant forall j | i <= j < 8 :: childTree[j].Shows(t.children[j])
      {
        AddToChild(i, aabb, t.children[i]);
      }
    }

    /** One leaf's boxes, each against the sphere as the previous ones left it. */
    method CheckBoxes(body: Body) returns (hit: bool)
      modifies body
      ensures body.Probed(hit) == AgainstBoxes(boxes, old(body.Probed(false)))
    {
      hit := false;
      for i := 0 to |boxes|
        modifies body
        invariant AgainstBoxes(boxes, body.Probed(hit), i) == AgainstBoxes(boxes, old(body.Probed(false)))
      {
        if SphereMeets(boxes[i], body.sphere) {
          Push(boxes[i], body);
          body.position := body.sphere.center;
          hit := true;
        }
      }
    }

    /** How far the center is from the box's nearest edge along one axis. */
    static method EdgeDistance(offset: real, extent: real) returns (distance: real)
      ensures distance == Gap(offset, extent)
    {
      var close := Snap(offset, -1.0 * extent, extent);
      if offset >= 0.0 { distance := offset - close; } else { distance := close - offset; }
    }

    /** The collision response. */
    static method Push(box: Box, body: Body)
      modifies body`sphere
      ensures body.sphere == Pushed(old(body.sphere), box)
    {
      var c := body.sphere.center;
      var dx, dz := c.x - box.center.x, c.z - box.center.z;
      var distX := EdgeDistance(dx, box.extents.x);
      var distZ := EdgeDistance(dz, box.extents.z);
      var radius := body.sphere.radius;
      if Abs(radius - Abs(distX)) < Abs(radius - Abs(distZ)) {
        var push := Abs(radius - distX) * 1.2;
        body.sphere := Sphere(c.(x := if dx < 0.0 then c.x - push else c.x + push), radius);
      } else {
        var push := Abs(radius - distZ) * 1.2;
        body.sphere := Sphere(c.(z := if dz < 0.0 then c.z - push else c.z + push), radius);
      }
    }

    method CheckCollision(body: Body, ghost t: Tree) returns (hit: bool)
      requires Shows(t) && body !in Repr
      modifies body
      ensures body.Probed(hit) == Check(t, old(body.Probed(false)))
      decreases t
    {
      if !SphereMeets(area, body.sphere) { return false; }
      if curLevel == MAX_LEVEL {
        hit := CheckBoxes(body);
      } else {
        hit := CheckChildren(body, t);
      }
    }

    /** One child, added to what was found so far. */
    method CheckChild(i: nat, hit: bool, body: Body, ghost t: Tree) returns (hit': bool)
      requires Shows(t) && t.Node? && i < 8 && body !in Repr
      modifies body
      ensures body.Probed(hit') == Check(t.children[i], old(body.Probed(hit)))
      decreases t, 0
    {
      ghost var p := body.Probed(false);
      hit' := childTree[i].CheckCollision(body, t.children[i]);
      CheckRecords(t.children[i], p, hit);
      hit' := hit' || hit;
    }

    method CheckEachChild(hit: bool, body: Body, ghost t: Tree) returns (hit': bool)
      requires Shows(t) && t.Node? && body !in Repr
      modifies body
      ensures body.Probed(hit') == CheckEach(t.children, old(body.Probed(hit)))
      decreases t, 1
    {
      hit' := hit;
      for i := 0 to 8
        modifies body
        invariant CheckEach(t.children, body.Probed(hit'), i) == CheckEach(t.children, old(body.Probed(hit)))
      {
        hit' := CheckChild(i, hit', body, t);
      }
    }

    /** The nested loops over the children, the inner one hiding the outer one's variable. */
    method CheckChildren(body: Body, ghost t: Tree) returns (hit: bool)
      requires Shows(t) && t.Node? && body !in Repr
      modifies body
      ensures body.Probed(hit) == CheckPasses(t.children, old(body.Probed(false)))
      decreases t, 2
    {
      hit := false;
      for i := 0 to 8
        modifies body
        invariant CheckPasses(t.children, body.Probed(hit), i) == CheckPasses(t.children, old(body.Probed(false)))
      {
        hit := CheckEachChild(hit, body, t);
        hit := CheckChild(i, hit, body, t);
      }
    }
  }

  /** A tree built over a cube and loaded with boxes answers as `RefinesBruteForce` says. */
  method Load(center: Vec, volume: real, boxes: seq<Box>) returns (root: OcTree)
    ensures root.Shows(Loaded(center, volume, boxes))
  {
    root := new OcTree(0, center, volume);
    root.BuildTree();
    for i := 0 to |boxes|
      invariant root.Shows(InsertAll(Built(0, center, volume), boxes[..i])) && fresh(root.Repr)
    {
      assert boxes[..i + 1][..i] == boxes[..i];
      root.AddBoundingBox(boxes[i], InsertAll(Built(0, center, volume), boxes[..i]));
    }
    assert boxes[..|boxes|] == boxes;
  }
}
