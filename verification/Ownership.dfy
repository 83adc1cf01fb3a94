/**
 * Game objects own their first child and their next sibling, and count references. A count of zero still stands
 * for one claim. A release that takes the last claim destroys the object and releases what it owned.
 */
module Ownership {

  datatype Option<T> = None | Some(value: T)

  datatype Node<T> = Node(refs: nat, parent: Option<T>, child: Option<T>, sibling: Option<T>)

  /** The objects alive. */
  type Heap<T(==)> = map<T, Node<T>>

  function Claims<T>(n: Node<T>): (c: nat)
    ensures c >= 1
  {
    if n.refs == 0 then 1 else n.refs
  }

  predicate Edge<T(==)>(h: Heap<T>, y: T, x: T) {
    y in h && (h[y].child == Some(x) || h[y].sibling == Some(x))
  }

  function ChildOwners<T(==)>(h: Heap<T>, x: T): set<T> {
    set y | y in h && h[y].child == Some(x)
  }

  function SiblingOwners<T(==)>(h: Heap<T>, x: T): set<T> {
    set y | y in h && h[y].sibling == Some(x)
  }

  function InEdges<T(==)>(h: Heap<T>, x: T): nat {
    |ChildOwners(h, x)| + |SiblingOwners(h, x)|
  }

  /**
   * Every claim on a live object is either an edge from a live object or one of the claims from outside, and
   * neither edges nor outside claims lead to the dead.
   */
  ghost predicate Accounted<T>(h: Heap<T>, outside: multiset<T>) {
    && (forall x | x in h :: Claims(h[x]) == InEdges(h, x) + outside[x])
    && Closed(h, outside)
  }

  ghost predicate Closed<T>(h: Heap<T>, outside: multiset<T>) {
    && (forall x | x in outside :: x in h)
    && (forall y | y in h :: Live(h, h[y].child) && Live(h, h[y].sibling))
  }

  predicate Live<T(==)>(h: Heap<T>, o: Option<T>) {
    o.Some? ==> o.value in h
  }

  function Owned<T>(n: Node<T>): seq<T> {
    (if n.child.Some? then [n.child.value] else []) + (if n.sibling.Some? then [n.sibling.value] else [])
  }

  function Dropped<T(==)>(h: Heap<T>, x: T): (h': Heap<T>)
    requires x in h && h[x].refs > 0
    ensures h'.Keys == h.Keys && |h'| == |h|
  {
    var h' := h[x := h[x].(refs := h[x].refs - 1)];
    assert h'.Keys == h.Keys;
    h'
  }

  function Without<T(==)>(h: Heap<T>, x: T): (h': Heap<T>)
    requires x in h
    ensures h'.Keys == h.Keys - {x} && |h'| == |h| - 1
  {
    var h' := map y | y in h && y != x :: h[y];
    assert h'.Keys == h.Keys - {x};
    h'
  }

  /** `fault`: an object was released that is not alive. */
  datatype Outcome<T(==)> = Outcome(heap: Heap<T>, destroyed: seq<T>, fault: bool)

  /**
   * Releases the objects in `work`, first to last; a destroyed object's child and sibling are released before
   * the rest.
   */
  function ReleaseAll<T(==)>(h: Heap<T>, work: seq<T>): (o: Outcome<T>)
    ensures |o.heap| <= |h|
    decreases |h|, |work|
  {
    if work == [] then Outcome(h, [], false)
    else if work[0] !in h then Outcome(h, [], true)
    else
      var x := work[0];
      if Claims(h[x]) > 1 then ReleaseAll(Dropped(h, x), work[1..])
      else
        var o := ReleaseAll(Without(h, x), Owned(h[x]) + work[1..]);
        o.(destroyed := [x] + o.destroyed)
  }

  function Release<T(==)>(h: Heap<T>, x: T): Outcome<T> {
    ReleaseAll(h, [x])
  }

  // ---- one step ----

  lemma DropKeepsOthers<T>(h: Heap<T>, outside: multiset<T>, x: T)
    requires Accounted(h, outside) && x in outside && Claims(h[x]) > 1
    ensures Accounted(Dropped(h, x), outside - multiset{x})
  {
    var h' := Dropped(h, x);
    forall z | z in h' ensures Claims(h'[z]) == InEdges(h', z) + (outside - multiset{x})[z] {
      SameEdges(h, h', z);
    }
  }

  /** Counts of references have no part in edges. */
  lemma SameEdges<T>(h: Heap<T>, h': Heap<T>, z: T)
    requires h.Keys == h'.Keys && forall y | y in h :: h'[y].child == h[y].child && h'[y].sibling == h[y].sibling
    ensures InEdges(h', z) == InEdges(h, z)
  {
    assert ChildOwners(h', z) == ChildOwners(h, z) && SiblingOwners(h', z) == SiblingOwners(h, z);
  }

  /** The claims that a dying object's edges turn into. */
  function Freed<T(==)>(n: Node<T>): multiset<T> {
    multiset(Owned(n))
  }

  lemma FreedCounts<T>(n: Node<T>, z: T)
    ensures Freed(n)[z] == (if n.child == Some(z) then 1 else 0) + (if n.sibling == Some(z) then 1 else 0)
  {
  }

  lemma OwnersWithout<T>(h: Heap<T>, x: T, z: T)
    requires x in h
    ensures InEdges(h, z) == InEdges(Without(h, x), z) + Freed(h[x])[z]
  {
    FreedCounts(h[x], z);
    var c, s := ChildOwners(h, z), SiblingOwners(h, z);
    assert ChildOwners(Without(h, x), z) == c - {x} && SiblingOwners(Without(h, x), z) == s - {x};
    assert x in c <==> h[x].child == Some(z);
    assert x in s <==> h[x].sibling == Some(z);
  }

  /** A last claim from outside means that nothing else leads to the object, not even itself. */
  lemma DeathKeepsAccounts<T>(h: Heap<T>, outside: multiset<T>, x: T)
    requires Accounted(h, outside) && x in outside && Claims(h[x]) == 1
    ensures Accounted(Without(h, x), outside - multiset{x} + Freed(h[x]))
    ensures forall y | y in h :: !Edge(h, y, x)
  {
    var h', outside' := Without(h, x), outside - multiset{x} + Freed(h[x]);
    assert InEdges(h, x) == 0 && outside[x] == 1;
    assert ChildOwners(h, x) == {} && SiblingOwners(h, x) == {};
    forall y | y in h ensures !Edge(h, y, x) {
      assert y !in ChildOwners(h, x) && y !in SiblingOwners(h, x);
    }
    forall z | z in h' ensures Claims(h'[z]) == InEdges(h', z) + outside'[z] {
      OwnersWithout(h, x, z);
    }
    FreedCounts(h[x], x);
    assert !Edge(h, x, x) && outside'[x] == 0;
    forall z | z in outside' ensures z in h' {
      FreedCounts(h[x], z);
    }
  }

  // ---- whole releases ----

  /** What a release leaves: fewer objects, with the edges they had. */
  ghost predicate Shrunk<T>(h: Heap<T>, h': Heap<T>) {
    && h'.Keys <= h.Keys
    && forall y | y in h' :: h'[y].child == h[y].child && h'[y].sibling == h[y].sibling && h'[y].parent == h[y].parent
  }

  lemma FirstClaim<T>(work: seq<T>, outside: multiset<T>)
    requires work != [] && multiset(work) <= outside
    ensures work[0] in outside && multiset(work[1..]) <= outside - multiset{work[0]}
    ensures outside - multiset{work[0]} - multiset(work[1..]) == outside - multiset(work)
  {
    assert work == [work[0]] + work[1..];
    assert multiset(work) == multiset{work[0]} + multiset(work[1..]);
    assert work[0] in multiset(work);
  }

  lemma MoreClaims<T>(freed: seq<T>, rest: seq<T>, outside: multiset<T>)
    requires multiset(rest) <= outside
    ensures multiset(freed + rest) <= outside + multiset(freed)
    ensures outside + multiset(freed) - multiset(freed + rest) == outside - multiset(rest)
  {
    assert multiset(freed + rest) == multiset(freed) + multiset(rest);
  }

  lemma ShrunkFurther<T>(h: Heap<T>, h1: Heap<T>, h2: Heap<T>)
    requires Shrunk(h, h1) && Shrunk(h1, h2)
    ensures Shrunk(h, h2)
  {
  }

  /**
   * Safety of every release, also of one that runs into shared or cyclic structures: no dead object is ever
   * released, and afterwards the accounts balance with the released claims gone.
   */
  lemma {:induction false} ReleaseKeepsAccounts<T>(h: Heap<T>, work: seq<T>, outside: multiset<T>)
    requires Accounted(h, outside) && multiset(work) <= outside
    ensures var o := ReleaseAll(h, work);
            && !o.fault && Accounted(o.heap, outside - multiset(work)) && Shrunk(h, o.heap)
    decreases |h|, |work|
  {
    if work == [] {
      assert outside - multiset(work) == outside;
    } else {
      FirstClaim(work, outside);
      if Claims(h[work[0]]) > 1 {
        DropKeepsAccounts(h, work, outside);
      } else {
        DyingKeepsAccounts(h, work, outside);
      }
    }
  }

  lemma {:induction false} DropKeepsAccounts<T>(h: Heap<T>, work: seq<T>, outside: multiset<T>)
    requires Accounted(h, outside) && multiset(work) <= outside && work != []
    requires work[0] in h && Claims(h[work[0]]) > 1
    ensures var o := ReleaseAll(h, work);
            && !o.fault && Accounted(o.heap, outside - multiset(work)) && Shrunk(h, o.heap)
    decreases |h|, |work|, 0
  {
    var x := work[0];
    var h1 := Dropped(h, x);
    FirstClaim(work, outside);
    DropKeepsOthers(h, outside, x);
    assert Shrunk(h, h1);
    ReleaseKeepsAccounts(h1, work[1..], outside - multiset{x});
    ShrunkFurther(h, h1, ReleaseAll(h, work).heap);
  }

  lemma {:induction false} DyingKeepsAccounts<T>(h: Heap<T>, work: seq<T>, outside: multiset<T>)
    requires Accounted(h, outside) && multiset(work) <= outside && work != []
    requires work[0] in h && Claims(h[work[0]]) == 1
    ensures var o := ReleaseAll(h, work);
            && !o.fault && Accounted(o.heap, outside - multiset(work)) && Shrunk(h, o.heap)
    decreases |h|, |work|, 0
  {
    var x, rest := work[0], work[1..];
    var h1, work1, outside1 := Without(h, x), Owned(h[x]) + rest, outside - multiset{x} + Freed(h[x]);
    FirstClaim(work, outside);
    DeathKeepsAccounts(h, outside, x);
    MoreClaims(Owned(h[x]), rest, outside - multiset{x});
    DeathShrinks(h, x);
    ReleaseKeepsAccounts(h1, work1, outside1);
    assert outside1 - multiset(work1) == outside - multiset(work);
    assert ReleaseAll(h, work).heap == ReleaseAll(h1, work1).heap;
    ShrunkFurther(h, h1, ReleaseAll(h1, work1).heap);
  }

  lemma DeathShrinks<T>(h: Heap<T>, x: T)
    requires x in h
    ensures Shrunk(h, Without(h, x))
  {
  }

  /** An object is destroyed once, and exactly the destroyed ones are gone. */
  lemma {:induction false} DestroyedOnce<T>(h: Heap<T>, work: seq<T>)
    ensures var o := ReleaseAll(h, work);
            && (forall y :: y in o.destroyed <==> y in h && y !in o.heap)
            && (forall i, j | 0 <= i < j < |o.destroyed| :: o.destroyed[i] != o.destroyed[j])
            && o.heap.Keys <= h.Keys
    decreases |h|, |work|
  {
    if work != [] && work[0] in h {
      var x := work[0];
      if Claims(h[x]) > 1 {
        DestroyedOnce(Dropped(h, x), work[1..]);
      } else {
        DestroyedOnce(Without(h, x), Owned(h[x]) + work[1..]);
      }
    }
  }

  // ---- what survives ----

  /** From `a`, exactly `n` edges between live objects lead to `b`. */
  ghost predicate Leads<T>(h: Heap<T>, a: T, b: T, n: nat) {
    b in h && if n == 0 then a == b else exists c | c in h :: Leads(h, a, c, n - 1) && Edge(h, c, b)
  }

  ghost predicate Reaches<T>(h: Heap<T>, a: T, b: T) {
    exists n: nat :: Leads(h, a, b, n)
  }

  /** Somebody outside holds an object from which edges lead to `y`. */
  ghost predicate Held<T>(h: Heap<T>, outside: multiset<T>, y: T) {
    exists a | a in outside :: Reaches(h, a, y)
  }

  /** No cycles: edges lead from lower to higher depths. */
  ghost predicate Acyclic<T>(h: Heap<T>, depth: map<T, nat>) {
    && h.Keys <= depth.Keys
    && forall y, x | y in h && x in h && Edge(h, y, x) :: depth[y] < depth[x]
  }

  /** Without cycles, everything alive is held from outside. */
  lemma {:induction false} AliveIsHeld<T>(h: Heap<T>, outside: multiset<T>, depth: map<T, nat>, y: T)
    requires Accounted(h, outside) && Acyclic(h, depth) && y in h
    ensures Held(h, outside, y)
    decreases depth[y]
  {
    if y in outside {
      assert Leads(h, y, y, 0);
    } else {
      assert InEdges(h, y) >= 1;
      var owner := SomeOwner(h, y);
      AliveIsHeld(h, outside, depth, owner);
      var a :| a in outside && Reaches(h, a, owner);
      var n: nat :| Leads(h, a, owner, n);
      assert Leads(h, a, y, n + 1);
    }
  }

  lemma SomeOwner<T>(h: Heap<T>, y: T) returns (owner: T)
    requires InEdges(h, y) >= 1
    ensures Edge(h, owner, y)
  {
    if ChildOwners(h, y) != {} {
      owner :| owner in ChildOwners(h, y);
    } else {
      owner :| owner in SiblingOwners(h, y);
    }
  }

  lemma {:induction false} HeldIsAlive<T>(h: Heap<T>, h': Heap<T>, outside: multiset<T>, a: T, y: T, n: nat)
    requires Shrunk(h, h') && Closed(h', outside) && a in outside && Leads(h, a, y, n)
    ensures y in h'
    decreases n
  {
    if n > 0 {
      var c :| c in h && Leads(h, a, c, n - 1) && Edge(h, c, y);
      HeldIsAlive(h, h', outside, a, c, n - 1);
    }
  }

  lemma {:induction false} PathWasThere<T>(h: Heap<T>, h': Heap<T>, a: T, y: T, n: nat)
    requires Shrunk(h, h') && Leads(h', a, y, n)
    ensures Leads(h, a, y, n)
    decreases n
  {
    if n > 0 {
      var c :| c in h' && Leads(h', a, c, n - 1) && Edge(h', c, y);
      PathWasThere(h, h', a, c, n - 1);
    }
  }

  lemma SurvivorIsHeld<T>(h: Heap<T>, h': Heap<T>, outside: multiset<T>, depth: map<T, nat>, y: T)
    requires Shrunk(h, h') && Accounted(h', outside) && Acyclic(h', depth) && y in h'
    ensures Held(h, outside, y)
  {
    AliveIsHeld(h', outside, depth, y);
    var a :| a in outside && Reaches(h', a, y);
    var n: nat :| Leads(h', a, y, n);
    PathWasThere(h, h', a, y, n);
    assert Reaches(h, a, y);
  }

  lemma HeldSurvives<T>(h: Heap<T>, h': Heap<T>, outside: multiset<T>, y: T)
    requires Shrunk(h, h') && Closed(h', outside) && Held(h, outside, y)
    ensures y in h'
  {
    var a :| a in outside && Reaches(h, a, y);
    var n: nat :| Leads(h, a, y, n);
    HeldIsAlive(h, h', outside, a, y, n);
  }

  lemma StaysAcyclic<T>(h: Heap<T>, h': Heap<T>, depth: map<T, nat>)
    requires Shrunk(h, h') && Acyclic(h, depth)
    ensures Acyclic(h', depth)
  {
    forall y, x | y in h' && x in h' && Edge(h', y, x) ensures depth[y] < depth[x] {
      assert Edge(h, y, x);
    }
  }

  /**
   * Exactness: on a heap without cycles, a release destroys exactly the objects that nobody outside holds any
   * more, each once. What is shared stays until its last owner goes.
   */
  lemma ReleaseCollectsExactly<T>(h: Heap<T>, outside: multiset<T>, depth: map<T, nat>, x: T)
    requires Accounted(h, outside) && Acyclic(h, depth) && x in outside
    ensures var o := Release(h, x);
            && !o.fault && Accounted(o.heap, outside - multiset{x}) && Acyclic(o.heap, depth)
            && (forall y | y in h :: y in o.heap <==> Held(h, outside - multiset{x}, y))
            && (forall y :: y in o.destroyed <==> y in h && !Held(h, outside - multiset{x}, y))
            && (forall i, j | 0 <= i < j < |o.destroyed| :: o.destroyed[i] != o.destroyed[j])
  {
    var o, left := Release(h, x), outside - multiset{x};
    assert multiset([x]) == multiset{x};
    ReleaseKeepsAccounts(h, [x], outside);
    DestroyedOnce(h, [x]);
    StaysAcyclic(h, o.heap, depth);
    forall y | y in h ensures y in o.heap <==> Held(h, left, y) {
      if y in o.heap { SurvivorIsHeld(h, o.heap, left, depth, y); }
      if Held(h, left, y) { HeldSurvives(h, o.heap, left, y); }
    }
  }
}
