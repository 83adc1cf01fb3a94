/** When attaching closes a cycle, and what follows for a whole life of a heap of game objects. */
module OwnershipCycles {
  import opened Ownership
  import opened OwnershipRuns

  ghost predicate NoCycle<T>(h: Heap<T>) {
    forall x, n: nat | x in h && n > 0 :: !Leads(h, x, x, n)
  }

  lemma {:induction false} LeadsOn<T>(h: Heap<T>, a: T, b: T, n: nat, c: T, m: nat)
    requires Leads(h, a, b, n) && Leads(h, b, c, m)
    ensures Leads(h, a, c, n + m)
    decreases m
  {
    if m > 0 {
      var d :| d in h && Leads(h, b, d, m - 1) && Edge(h, d, c);
      LeadsOn(h, a, b, n, d, m - 1);
    }
  }

  lemma ReachesOn<T>(h: Heap<T>, a: T, b: T, c: T)
    requires Reaches(h, a, b) && Reaches(h, b, c)
    ensures Reaches(h, a, c)
  {
    var n: nat :| Leads(h, a, b, n);
    var m: nat :| Leads(h, b, c, m);
    LeadsOn(h, a, b, n, c, m);
  }

  lemma ReachesEdge<T>(h: Heap<T>, a: T, b: T)
    requires a in h && b in h
    ensures Reaches(h, a, a) && (Edge(h, a, b) ==> Reaches(h, a, b))
  {
    assert Leads(h, a, a, 0);
    if Edge(h, a, b) { assert Leads(h, a, b, 1); }
  }

  /** An edge that can be gone back closes a cycle. */
  lemma NoWayBack<T>(h: Heap<T>, y: T, x: T)
    requires NoCycle(h) && Edge(h, y, x) && x in h
    ensures !Reaches(h, x, y)
  {
    forall n: nat ensures !Leads(h, x, y, n) {
      if Leads(h, x, y, n) {
        assert Leads(h, x, x, n + 1);
      }
    }
  }

  // ---- depths ----

  ghost predicate Above<T>(h: Heap<T>, y: T, x: T) {
    exists n: nat :: n > 0 && Leads(h, y, x, n)
  }

  ghost function Ancestors<T>(h: Heap<T>, x: T): set<T> {
    set y | y in h && Above(h, y, x)
  }

  ghost function DepthOf<T>(h: Heap<T>): map<T, nat> {
    map x | x in h :: |Ancestors(h, x)|
  }

  lemma {:induction false} SmallerSet<T>(a: set<T>, b: set<T>, y: T)
    requires a <= b && y in b && y !in a
    ensures |a| < |b|
    decreases |a|
  {
    if a != {} {
      var z :| z in a;
      SmallerSet(a - {z}, b - {z}, y);
    }
  }

  lemma DepthsGrow<T>(h: Heap<T>)
    requires NoCycle(h)
    ensures Acyclic(h, DepthOf(h))
  {
    forall y, x | y in h && x in h && Edge(h, y, x) ensures DepthOf(h)[y] < DepthOf(h)[x] {
      forall z | z in Ancestors(h, y) ensures z in Ancestors(h, x) {
        var n: nat :| n > 0 && Leads(h, z, y, n);
        assert Leads(h, z, x, n + 1);
      }
      assert Leads(h, y, y, 0) && Leads(h, y, x, 1);
      SmallerSet(Ancestors(h, y), Ancestors(h, x), y);
    }
  }

  lemma {:induction false} DepthAlong<T>(h: Heap<T>, depth: map<T, nat>, a: T, b: T, n: nat)
    requires Acyclic(h, depth) && a in h && Leads(h, a, b, n)
    ensures depth[a] + n <= depth[b]
    decreases n
  {
    if n > 0 {
      var c :| c in h && Leads(h, a, c, n - 1) && Edge(h, c, b);
      DepthAlong(h, depth, a, c, n - 1);
    }
  }

  lemma DepthsForbidCycles<T>(h: Heap<T>, depth: map<T, nat>)
    requires Acyclic(h, depth)
    ensures NoCycle(h)
  {
    forall x, n: nat | x in h && n > 0 ensures !Leads(h, x, x, n) {
      if Leads(h, x, x, n) { DepthAlong(h, depth, x, x, n); }
    }
  }

  // ---- inserting a node after another ----

  /** `g` is `h` with `c` put behind `p`, and in front of `s`, which used to be behind `p`. */
  ghost predicate Inserted<T>(h: Heap<T>, g: Heap<T>, p: T, c: T, s: Option<T>) {
    && g.Keys == h.Keys && p in h && c in h && Live(h, s)
    && (forall y, x | y in h && x in h && Edge(g, y, x) :: Edge(h, y, x) || (y == p && x == c) || (y == c && s == Some(x)))
    && (forall y, x | y in h && x in h && Edge(h, y, x) :: Edge(g, y, x) || (y == p && s == Some(x)))
    && Edge(g, p, c) && (s.Some? ==> Edge(g, c, s.value) && Edge(h, p, s.value))
  }

  /** The new child does not lead back to its holder, nor its new sibling to the new child. */
  ghost predicate Safe<T>(h: Heap<T>, p: T, c: T, s: Option<T>) {
    !Reaches(h, c, p) && (s.Some? ==> !Reaches(h, s.value, c))
  }

  /** How a way in `g` comes about in `h`. */
  ghost predicate Explained<T>(h: Heap<T>, p: T, c: T, s: Option<T>, a: T, b: T) {
    || Reaches(h, a, b)
    || (Reaches(h, a, p) && Reaches(h, c, b))
    || (s.Some? && Reaches(h, a, c) && Reaches(h, s.value, b))
  }

  lemma ExplainedOn<T>(h: Heap<T>, g: Heap<T>, p: T, c: T, s: Option<T>, a: T, y: T, b: T)
    requires NoCycle(h) && Inserted(h, g, p, c, s) && Safe(h, p, c, s) && y in h && b in h
    requires Explained(h, p, c, s, a, y) && Edge(g, y, b)
    ensures Explained(h, p, c, s, a, b)
  {
    if s.Some? { NoWayBack(h, p, s.value); }
    ReachesEdge(h, y, b);
    if Edge(h, y, b) {
      if Reaches(h, a, y) { ReachesOn(h, a, y, b); }
      if Reaches(h, c, y) { ReachesOn(h, c, y, b); }
      if s.Some? && Reaches(h, s.value, y) { ReachesOn(h, s.value, y, b); }
    } else if y == p && b == c {
      ReachesEdge(h, c, c);
      assert Reaches(h, a, p);
    } else {
      ReachesEdge(h, b, b);
      if Reaches(h, a, p) {
        ReachesEdge(h, p, b);
        ReachesOn(h, a, p, b);
      }
    }
  }

  lemma LastEdge<T>(h: Heap<T>, a: T, b: T, n: nat) returns (y: T)
    requires Leads(h, a, b, n) && n > 0
    ensures y in h && b in h && Leads(h, a, y, n - 1) && Edge(h, y, b)
  {
    y :| y in h && Leads(h, a, y, n - 1) && Edge(h, y, b);
  }

  lemma {:induction false} WaysExplained<T>(h: Heap<T>, g: Heap<T>, p: T, c: T, s: Option<T>, a: T, b: T, n: nat)
    requires NoCycle(h) && Inserted(h, g, p, c, s) && Safe(h, p, c, s)
    requires a in h && Leads(g, a, b, n)
    ensures Explained(h, p, c, s, a, b)
    decreases n
  {
    if n == 0 {
      ReachesEdge(h, a, a);
    } else {
      var y := LastEdge(g, a, b, n);
      WaysExplained(h, g, p, c, s, a, y, n - 1);
      ExplainedOn(h, g, p, c, s, a, y, b);
    }
  }

  lemma SafeInsertion<T>(h: Heap<T>, g: Heap<T>, p: T, c: T, s: Option<T>)
    requires NoCycle(h) && Inserted(h, g, p, c, s) && Safe(h, p, c, s)
    ensures NoCycle(g)
  {
    forall x, n: nat | x in g && n > 0 ensures !Leads(g, x, x, n) {
      if Leads(g, x, x, n) {
        var y := LastEdge(g, x, x, n);
        WaysExplained(h, g, p, c, s, x, y, n - 1);
        NoClosure(h, g, p, c, s, x, y);
      }
    }
  }

  /** No edge of `g` leads back to where an explained way began. */
  lemma NoClosure<T>(h: Heap<T>, g: Heap<T>, p: T, c: T, s: Option<T>, x: T, y: T)
    requires NoCycle(h) && Inserted(h, g, p, c, s) && Safe(h, p, c, s) && x in h && y in h
    requires Explained(h, p, c, s, x, y)
    ensures !Edge(g, y, x)
  {
    if s.Some? { NoWayBack(h, p, s.value); }
    if Edge(h, y, x) {
      NoWayBack(h, y, x);
      ReachesEdge(h, y, x);
      if Reaches(h, c, y) && Reaches(h, x, p) { ReachesOn(h, c, y, x); ReachesOn(h, c, x, p); }
      if s.Some? && Reaches(h, s.value, y) && Reaches(h, x, c) {
        ReachesOn(h, s.value, y, x);
        ReachesOn(h, s.value, x, c);
      }
    }
  }

  lemma LeadsStep<T>(h: Heap<T>, a: T, d: T, b: T, n: nat)
    requires Leads(h, a, d, n) && Edge(h, d, b) && b in h
    ensures Leads(h, a, b, n + 1)
  {
    assert d in h;
  }

  /** Every edge of `h` on a way to `target` is an edge of `g`. */
  ghost predicate KeepsEdgesTo<T>(h: Heap<T>, g: Heap<T>, target: T) {
    g.Keys == h.Keys && forall y, x | y in h && x in h && Edge(h, y, x) && Reaches(h, x, target) :: Edge(g, y, x)
  }

  lemma OneEdgeTo<T>(h: Heap<T>, g: Heap<T>, d: T, b: T, target: T)
    requires KeepsEdgesTo(h, g, target) && d in h && b in h && Edge(h, d, b) && Reaches(h, b, target)
    ensures Edge(g, d, b) && Reaches(h, d, target)
  {
    ReachesEdge(h, d, b);
    ReachesOn(h, d, b, target);
  }

  lemma {:induction false} KeepsWayTo<T>(h: Heap<T>, g: Heap<T>, a: T, b: T, n: nat, target: T)
    requires KeepsEdgesTo(h, g, target) && Leads(h, a, b, n) && Reaches(h, b, target)
    ensures Leads(g, a, b, n)
    decreases n
  {
    if n > 0 {
      var d :| d in h && Leads(h, a, d, n - 1) && Edge(h, d, b);
      OneEdgeTo(h, g, d, b, target);
      KeepsWayTo(h, g, a, d, n - 1, target);
      LeadsStep(g, a, d, b, n - 1);
    }
  }

  lemma {:induction false} KeepsWayFrom<T>(h: Heap<T>, g: Heap<T>, p: T, c: T, a: T, b: T, n: nat)
    requires NoCycle(h) && Inserted(h, g, p, c, Some(a)) && Leads(h, a, b, n)
    ensures Leads(g, a, b, n)
    decreases n
  {
    if n > 0 {
      assert b != a;
      var d := LastEdge(h, a, b, n);
      KeepsWayFrom(h, g, p, c, a, d, n - 1);
      LeadsStep(g, a, d, b, n - 1);
    }
  }

  lemma UnsafeInsertion<T>(h: Heap<T>, g: Heap<T>, p: T, c: T, s: Option<T>)
    requires NoCycle(h) && Inserted(h, g, p, c, s) && !Safe(h, p, c, s)
    ensures !NoCycle(g)
  {
    if Reaches(h, c, p) {
      if s.Some? { NoWayBack(h, p, s.value); }
      var n: nat :| Leads(h, c, p, n);
      ReachesEdge(h, p, p);
      KeepsWayTo(h, g, c, p, n, p);
      assert Leads(g, c, c, n + 1);
    } else {
      var n: nat :| Leads(h, s.value, c, n);
      KeepsWayFrom(h, g, p, c, s.value, c, n);
      assert Leads(g, s.value, s.value, n + 1);
    }
  }

  /** The object that ends up behind the new child. */
  function Next<T(==)>(h: Heap<T>, owner: T): (s: Option<T>)
    requires owner in h && Closed(h, multiset{})
    ensures Live(h, s)
  {
    if h[owner].child.Some? then h[h[owner].child.value].sibling else None
  }

  /** The heap without the sibling that AttachChild is about to overwrite. */
  function Detached<T(==)>(h: Heap<T>, owner: T, c: T): (g: Heap<T>)
    requires owner in h && c in h
    ensures g.Keys == h.Keys
  {
    if h[owner].child.Some? then h[c := h[c].(sibling := None)] else h
  }

  lemma DetachedIsClosed<T>(h: Heap<T>, owner: T, c: T)
    requires Closed(h, multiset{}) && owner in h && c in h
    ensures Closed(Detached(h, owner, c), multiset{})
  {
  }

  lemma DetachedIsSame<T>(h: Heap<T>, owner: T, c: T)
    requires owner in h && c in h && (h[owner].child.None? || h[c].sibling.None?)
    ensures Detached(h, owner, c) == h
  {
  }

  lemma FewerEdgesNoCycle<T>(h: Heap<T>, g: Heap<T>)
    requires NoCycle(h) && g.Keys == h.Keys && forall y, x | y in g && x in g && Edge(g, y, x) :: Edge(h, y, x)
    ensures NoCycle(g)
  {
    DepthsGrow(h);
    DepthsForbidCycles(g, DepthOf(h));
  }

  lemma AttachInserts<T>(h: Heap<T>, owner: T, c: T, addReference: bool)
    requires Closed(h, multiset{}) && owner in h && c in h
    ensures Closed(Detached(h, owner, c), multiset{})
    ensures var d := Detached(h, owner, c);
            Inserted(d, Attach(h, owner, Some(c), addReference), Holder(d, owner), c, Next(d, owner))
  {
    DetachedIsClosed(h, owner, c);
    var d := Detached(h, owner, c);
    var g, p, s := Attach(h, owner, Some(c), addReference), Holder(d, owner), Next(d, owner);
    AttachUpdates(h, owner, c, addReference);
    assert g.Keys == d.Keys;
    forall y | y in h && y != p && y != c ensures g[y] == d[y] {}
  }

  /**
   * On a heap without cycles AttachChild closes a cycle exactly if, without the sibling it overwrites, the new child
   * leads to its holder, the first child or the owner, or the object now behind it leads to the new child.
   */
  lemma AttachStaysAcyclicIff<T>(h: Heap<T>, owner: T, c: T, addReference: bool)
    requires Closed(h, multiset{}) && NoCycle(h) && owner in h && c in h
    ensures var d := Detached(h, owner, c);
            && Closed(d, multiset{})
            && (NoCycle(Attach(h, owner, Some(c), addReference)) <==> Safe(d, Holder(d, owner), c, Next(d, owner)))
  {
    var d, g := Detached(h, owner, c), Attach(h, owner, Some(c), addReference);
    AttachInserts(h, owner, c, addReference);
    FewerEdgesNoCycle(h, d);
    if Safe(d, Holder(d, owner), c, Next(d, owner)) {
      SafeInsertion(d, g, Holder(d, owner), c, Next(d, owner));
    } else {
      UnsafeInsertion(d, g, Holder(d, owner), c, Next(d, owner));
    }
  }

  /** Attaching the first child once more, or an object to itself, always closes a cycle. */
  lemma ReattachingClosesCycle<T>(h: Heap<T>, owner: T, c: T, addReference: bool)
    requires Closed(h, multiset{}) && NoCycle(h) && owner in h && c in h && (c == owner || h[owner].child == Some(c))
    ensures !NoCycle(Attach(h, owner, Some(c), addReference))
  {
    AttachStaysAcyclicIff(h, owner, c, addReference);
    var d := Detached(h, owner, c);
    ReachesEdge(d, c, c);
    ReachesEdge(d, c, Holder(d, owner));
  }

  // ---- whole lives ----

  datatype Action<T> =
    | Make(x: T)
    | Count(x: T)
    | Adopt(owner: T, child: Option<T>, addReference: bool)
    | Drop(x: T)

  /** The objects alive and the claims held outside. */
  datatype State<T> = State(heap: Heap<T>, outside: multiset<T>)

  /** The ownership rules the engine's code keeps to. */
  ghost predicate Lawful<T>(s: State<T>, a: Action<T>)
    requires Closed(s.heap, multiset{})
  {
    match a
    case Make(x) => x !in s.heap
    case Count(x) => x in s.heap
    case Drop(x) => x in s.outside
    case Adopt(owner, child, addReference) =>
      && owner in s.heap
      && (child.Some? ==>
            var c := child.value;
            && c in s.heap
            && Handed(s.heap, c, addReference) <= s.outside
            && (s.heap[owner].child.None? || s.heap[c].sibling.None?)
            && Safe(s.heap, Holder(s.heap, owner), c, Next(s.heap, owner)))
  }

  function Act<T(==)>(s: State<T>, a: Action<T>): State<T>
    requires Closed(s.heap, multiset{})
    requires a.Count? ==> a.x in s.heap
    requires a.Adopt? ==> a.owner in s.heap && Live(s.heap, a.child)
  {
    match a
    case Make(x) => State(Created(s.heap, x), s.outside + multiset{x})
    case Count(x) => State(AddRef(s.heap, x), if s.heap[x].refs == 0 then s.outside else s.outside + multiset{x})
    case Drop(x) => State(Release(s.heap, x).heap, s.outside - multiset{x})
    case Adopt(owner, child, addReference) =>
      State(Attach(s.heap, owner, child, addReference),
            if child.Some? then s.outside - Handed(s.heap, child.value, addReference) else s.outside)
  }

  /** Claims balance and there are no cycles. */
  ghost predicate Orderly<T>(s: State<T>) {
    Accounted(s.heap, s.outside) && NoCycle(s.heap)
  }

  lemma OrderlyIsClosed<T>(s: State<T>)
    requires Orderly(s)
    ensures Closed(s.heap, multiset{})
  {
  }

  lemma SameEdgesSameCycles<T>(h: Heap<T>, g: Heap<T>)
    requires NoCycle(h) && g.Keys == h.Keys && forall y | y in h :: g[y].child == h[y].child && g[y].sibling == h[y].sibling
    ensures NoCycle(g)
  {
    DepthsGrow(h);
    forall y, x | y in g && x in g && Edge(g, y, x) ensures DepthOf(h)[y] < DepthOf(h)[x] {
      assert Edge(h, y, x);
    }
    DepthsForbidCycles(g, DepthOf(h));
  }

  lemma CreatedNoCycle<T>(h: Heap<T>, outside: multiset<T>, x: T)
    requires NoCycle(h) && Closed(h, outside) && x !in h
    ensures NoCycle(Created(h, x))
  {
    var g, depth := Created(h, x), DepthOf(h)[x := 0];
    DepthsGrow(h);
    forall y, z | y in g && z in g && Edge(g, y, z) ensures depth[y] < depth[z] {
      assert y != x && Edge(h, y, z) && z in h;
    }
    DepthsForbidCycles(g, depth);
  }

  lemma DropKeepsOrderly<T>(s: State<T>, x: T)
    requires Orderly(s) && x in s.outside
    ensures Closed(s.heap, multiset{}) && Orderly(Act(s, Drop(x)))
  {
    OneRelease(s.heap, s.outside, x);
    assert Act(s, Drop(x)) == State(Release(s.heap, x).heap, s.outside - multiset{x});
  }

  lemma OneRelease<T>(h: Heap<T>, outside: multiset<T>, x: T)
    requires Accounted(h, outside) && NoCycle(h) && x in outside
    ensures Accounted(Release(h, x).heap, outside - multiset{x}) && NoCycle(Release(h, x).heap)
  {
    var h', work := Release(h, x).heap, [x];
    assert multiset(work) == multiset{x};
    ReleaseKeepsAccounts(h, work, outside);
    DepthsGrow(h);
    StaysAcyclic(h, h', DepthOf(h));
    DepthsForbidCycles(h', DepthOf(h));
  }

  lemma AdoptKeepsOrderly<T>(s: State<T>, owner: T, child: Option<T>, addReference: bool)
    requires Orderly(s) && Closed(s.heap, multiset{}) && Lawful(s, Adopt(owner, child, addReference))
    ensures Orderly(Act(s, Adopt(owner, child, addReference)))
  {
    if child.Some? {
      DetachedIsSame(s.heap, owner, child.value);
      AttachBalancesIff(s.heap, s.outside, owner, child.value, addReference);
      AttachStaysAcyclicIff(s.heap, owner, child.value, addReference);
    }
  }

  lemma ActKeepsOrderly<T>(s: State<T>, a: Action<T>)
    requires Orderly(s) && Closed(s.heap, multiset{}) && Lawful(s, a)
    ensures Orderly(Act(s, a))
  {
    match a {
      case Make(x) =>
        CreateBalances(s.heap, s.outside, x);
        CreatedNoCycle(s.heap, s.outside, x);
      case Count(x) =>
        AddRefBalances(s.heap, s.outside, x);
        SameEdgesSameCycles(s.heap, AddRef(s.heap, x));
      case Drop(x) => DropKeepsOrderly(s, x);
      case Adopt(owner, child, addReference) => AdoptKeepsOrderly(s, owner, child, addReference);
    }
  }

  ghost predicate IsLife<T>(s: State<T>, actions: seq<Action<T>>)
    requires Orderly(s)
    decreases |actions|
  {
    actions == [] || (OrderlyIsClosed(s); Lawful(s, actions[0]) && (ActKeepsOrderly(s, actions[0]); IsLife(Act(s, actions[0]), actions[1..])))
  }

  ghost function EndOf<T>(s: State<T>, actions: seq<Action<T>>): State<T>
    requires Orderly(s) && IsLife(s, actions)
    decreases |actions|
  {
    if actions == [] then s
    else
      OrderlyIsClosed(s);
      ActKeepsOrderly(s, actions[0]);
      EndOf(Act(s, actions[0]), actions[1..])
  }

  /**
   * However objects are made, counted, attached and released: what is alive is exactly what somebody outside
   * holds, directly or through edges; once nobody holds anything, nothing is alive.
   */
  lemma {:induction false} AliveIffHeld<T>(s: State<T>, actions: seq<Action<T>>, y: T)
    requires Orderly(s) && IsLife(s, actions)
    ensures var e := EndOf(s, actions);
            && Orderly(e) && (y in e.heap <==> Held(e.heap, e.outside, y))
            && (e.outside == multiset{} ==> y !in e.heap)
    decreases |actions|
  {
    if actions == [] {
      if y in s.heap {
        DepthsGrow(s.heap);
        AliveIsHeld(s.heap, s.outside, DepthOf(s.heap), y);
      }
    } else {
      OrderlyIsClosed(s);
      ActKeepsOrderly(s, actions[0]);
      AliveIffHeld(Act(s, actions[0]), actions[1..], y);
    }
  }

  function Nothing<T(==)>(): State<T> {
    State(map[], multiset{})
  }

  lemma NothingIsOrderly<T>()
    ensures Orderly(Nothing<T>())
  {
  }

  /** A life that begins with the empty heap. */
  ghost predicate IsWholeLife<T>(actions: seq<Action<T>>) {
    NothingIsOrderly<T>();
    IsLife(Nothing(), actions)
  }

  /** Over a whole life nothing leaks: what is alive is held from outside, and once nothing is, the heap is empty. */
  lemma NothingLeaks<T>(actions: seq<Action<T>>)
    requires IsWholeLife(actions)
    ensures Orderly(Nothing<T>())
    ensures var e := EndOf(Nothing(), actions);
            && (forall y :: y in e.heap <==> Held(e.heap, e.outside, y))
            && (e.outside == multiset{} ==> e.heap == map[])
  {
    NothingIsOrderly<T>();
    var e := EndOf(Nothing(), actions);
    forall y ensures y in e.heap <==> Held(e.heap, e.outside, y) { AliveIffHeld(Nothing(), actions, y); }
    if e.outside == multiset{} && e.heap != map[] {
      var y :| y in e.heap;
      AliveIffHeld(Nothing(), actions, y);
    }
  }
}
