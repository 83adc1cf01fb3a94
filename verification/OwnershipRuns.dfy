/** Attaching children, counting references, and whole lives of a heap of game objects. */
module OwnershipRuns {
  import opened Ownership

  // ---- counting references ----

  function AddRef<T(==)>(h: Heap<T>, x: T): (h': Heap<T>)
    requires x in h
    ensures h'.Keys == h.Keys
  {
    h[x := h[x].(refs := h[x].refs + 1)]
  }

  /** The heap after `j` releases of `x`. */
  function ReleaseTimes<T(==)>(h: Heap<T>, x: T, j: nat): Heap<T> {
    if j == 0 then h else Release(ReleaseTimes(h, x, j - 1), x).heap
  }

  lemma {:induction false} EarlyReleases<T>(h: Heap<T>, x: T, j: nat)
    requires x in h && j < Claims(h[x])
    ensures ReleaseTimes(h, x, j) == h[x := h[x].(refs := h[x].refs - j)]
  {
    if j > 0 {
      var g := ReleaseTimes(h, x, j - 1);
      EarlyReleases(h, x, j - 1);
      assert Claims(g[x]) > 1 && [x][1..] == [];
      assert ReleaseAll(Dropped(g, x), []).heap == Dropped(g, x);
      assert Release(g, x).heap == Dropped(g, x);
    }
  }

  /** An object with `k` references dies on exactly its max(1, k)-th release. */
  lemma DiesOnLastRelease<T>(h: Heap<T>, x: T, j: nat)
    requires x in h && j <= Claims(h[x])
    ensures x in ReleaseTimes(h, x, j) <==> j < (if h[x].refs == 0 then 1 else h[x].refs)
  {
    if j < Claims(h[x]) {
      EarlyReleases(h, x, j);
    } else {
      var g := ReleaseTimes(h, x, j - 1);
      EarlyReleases(h, x, j - 1);
      assert Claims(g[x]) == 1 && [x][1..] == [];
      DestroyedOnce(Without(g, x), Owned(g[x]) + []);
    }
  }

  // ---- attaching ----

  /**
   * AttachChild: the new child goes second in the list of children, so that the first keeps its place; its own
   * sibling is overwritten when there is a first child.
   */
  function Attach<T(==)>(h: Heap<T>, owner: T, child: Option<T>, addReference: bool): (h': Heap<T>)
    requires owner in h && Closed(h, multiset{}) && Live(h, child)
    ensures h'.Keys == h.Keys
  {
    if child.None? then h
    else
      var c := child.value;
      var h := if addReference then h[c := h[c].(parent := None, refs := h[c].refs + 1)]
               else h[c := h[c].(parent := Some(owner))];
      if h[owner].child.Some? then
        var first := h[owner].child.value;
        var h := h[c := h[c].(sibling := h[first].sibling)];
        h[first := h[first].(sibling := child)]
      else h[owner := h[owner].(child := child)]
  }

  /** `cs` are the objects from `o` on, sibling by sibling. */
  ghost predicate IsChain<T>(h: Heap<T>, o: Option<T>, cs: seq<T>)
    decreases |cs|
  {
    if cs == [] then o == None else o == Some(cs[0]) && cs[0] in h && IsChain(h, h[cs[0]].sibling, cs[1..])
  }

  ghost predicate Children<T>(h: Heap<T>, owner: T, cs: seq<T>) {
    && owner in h && IsChain(h, h[owner].child, cs)
    && forall i, j | 0 <= i < j < |cs| :: cs[i] != cs[j]
  }

  lemma {:induction false} ChainStays<T>(h: Heap<T>, h': Heap<T>, o: Option<T>, cs: seq<T>)
    requires IsChain(h, o, cs) && h'.Keys == h.Keys
    requires forall i | 0 <= i < |cs| :: cs[i] in h && h'[cs[i]].sibling == h[cs[i]].sibling
    ensures IsChain(h', o, cs)
    decreases |cs|
  {
    if cs != [] { ChainStays(h, h', h[cs[0]].sibling, cs[1..]); }
  }

  lemma {:induction false} ChainAlive<T>(h: Heap<T>, o: Option<T>, cs: seq<T>)
    requires IsChain(h, o, cs)
    ensures forall i | 0 <= i < |cs| :: cs[i] in h
    decreases |cs|
  {
    if cs != [] { ChainAlive(h, h[cs[0]].sibling, cs[1..]); }
  }

  /** Every earlier child is still a child, once, in the same order, and the new one is too. */
  lemma AttachKeepsChildren<T>(h: Heap<T>, owner: T, c: T, addReference: bool, cs: seq<T>)
    requires Closed(h, multiset{}) && Children(h, owner, cs) && c in h && c != owner && c !in cs
    requires cs == [] ==> h[c].sibling == None
    ensures Children(Attach(h, owner, Some(c), addReference), owner, if cs == [] then [c] else [cs[0], c] + cs[1..])
  {
    var h' := Attach(h, owner, Some(c), addReference);
    ChainAlive(h, h[owner].child, cs);
    if cs == [] {
      assert IsChain(h', None, [c][1..]);
    } else {
      var ds := [cs[0], c] + cs[1..];
      forall i | 0 <= i < |cs[1..]| ensures cs[1..][i] in h && h'[cs[1..][i]].sibling == h[cs[1..][i]].sibling {
        assert cs[1..][i] == cs[i + 1];
      }
      ChainStays(h, h', h[cs[0]].sibling, cs[1..]);
      assert ds[1..] == [c] + cs[1..] && ds[1..][1..] == cs[1..];
      assert IsChain(h', Some(c), ds[1..]);
    }
  }

  lemma {:induction false} NextInChain<T>(h: Heap<T>, o: Option<T>, cs: seq<T>, i: nat)
    requires IsChain(h, o, cs) && i < |cs|
    ensures cs[i] in h && h[cs[i]].sibling == if i + 1 < |cs| then Some(cs[i + 1]) else None
    decreases |cs|
  {
    if i > 0 { NextInChain(h, h[cs[0]].sibling, cs[1..], i - 1); }
  }

  /** The object attached to has no child yet, or neither its first child nor a new sibling for `c` matters to `ds`. */
  ghost predicate Elsewhere<T>(h: Heap<T>, owner: T, c: T, ds: seq<T>)
    requires Closed(h, multiset{}) && owner in h && c in h
  {
    h[owner].child.Some? ==>
      var first := h[owner].child.value;
      first !in ds && (c in ds ==> h[c].sibling == h[first].sibling)
  }

  /**
   * Children of another owner stay as they are exactly if they do not include the first child of the one attached to,
   * nor the new child, unless that has the first child's sibling already.
   */
  lemma AttachSparesOthersIff<T>(h: Heap<T>, owner: T, c: T, addReference: bool, other: T, ds: seq<T>)
    requires Closed(h, multiset{}) && owner in h && c in h && Children(h, other, ds) && other != owner
    ensures Children(Attach(h, owner, Some(c), addReference), other, ds) <==> Elsewhere(h, owner, c, ds)
  {
    var h' := Attach(h, owner, Some(c), addReference);
    ChainAlive(h, h[other].child, ds);
    if Elsewhere(h, owner, c, ds) {
      ChainStays(h, h', h[other].child, ds);
    } else if Children(h', other, ds) {
      var first := h[owner].child.value;
      if first in ds {
        var i :| 0 <= i < |ds| && ds[i] == first;
        NextInChain(h, h[other].child, ds, i);
        NextInChain(h', h'[other].child, ds, i);
        assert i + 1 < |ds| && ds[i + 1] == c;
        NextInChain(h', h'[other].child, ds, i + 1);
        assert false;
      } else {
        var i :| 0 <= i < |ds| && ds[i] == c;
        NextInChain(h, h[other].child, ds, i);
        NextInChain(h', h'[other].child, ds, i);
        assert false;
      }
    }
  }

  // ---- accounts ----

  lemma EdgesAfterUpdate<T>(h: Heap<T>, y: T, n: Node<T>, z: T)
    requires y in h
    ensures InEdges(h[y := n], z) + Freed(h[y])[z] == InEdges(h, z) + Freed(n)[z]
  {
    var h' := h[y := n];
    OwnersWithout(h, y, z);
    OwnersWithout(h', y, z);
    assert Without(h', y) == Without(h, y);
  }

  /** The outside claim that AttachChild turns into an edge: none, if it adds a reference to a counted object. */
  function Handed<T(==)>(h: Heap<T>, c: T, addReference: bool): multiset<T>
    requires c in h
  {
    if addReference && h[c].refs >= 1 then multiset{} else multiset{c}
  }

  /** The object that gets an edge to the new child: the first child, or else the owner. */
  function Holder<T(==)>(h: Heap<T>, owner: T): (p: T)
    requires owner in h && Closed(h, multiset{})
    ensures p in h
  {
    if h[owner].child.Some? then h[owner].child.value else owner
  }

  /** AttachChild changes the new child and the object before it, which may be one and the same. */
  lemma AttachUpdates<T>(h: Heap<T>, owner: T, c: T, addReference: bool)
    requires Closed(h, multiset{}) && owner in h && c in h
    ensures var h', p := Attach(h, owner, Some(c), addReference), Holder(h, owner);
            && h' == h[c := h'[c]][p := h'[p]]
            && (forall y | y in h :: h'[y].refs == h[y].refs + if y == c && addReference then 1 else 0)
            && (h[owner].child.Some? ==>
                  && (forall y | y in h :: h'[y].child == h[y].child)
                  && h'[p].sibling == Some(c) && (p != c ==> h'[c].sibling == h[p].sibling))
            && (h[owner].child.None? ==>
                  && (forall y | y in h :: h'[y].sibling == h[y].sibling)
                  && h'[p].child == Some(c) && (p != c ==> h'[c].child == h[c].child))
  {
    var h', p := Attach(h, owner, Some(c), addReference), Holder(h, owner);
    assert h'.Keys == h[c := h'[c]][p := h'[p]].Keys;
  }

  /** One slot for an edge changes hands. */
  lemma EdgesAfterOne<T>(h: Heap<T>, c: T, n: Node<T>, z: T)
    requires c in h
    ensures InEdges(h[c := n], z) == InEdges(h, z)
            + (if n.child == Some(z) then 1 else 0) + (if n.sibling == Some(z) then 1 else 0)
            - (if h[c].child == Some(z) then 1 else 0) - (if h[c].sibling == Some(z) then 1 else 0)
  {
    FreedCounts(h[c], z);
    FreedCounts(n, z);
    EdgesAfterUpdate(h, c, n, z);
  }

  lemma EdgesAfterAttach<T>(h: Heap<T>, owner: T, c: T, addReference: bool, z: T)
    requires Closed(h, multiset{}) && owner in h && c in h
    ensures InEdges(Attach(h, owner, Some(c), addReference), z)
            == InEdges(h, z) + (if z == c then 1 else 0)
               - (if h[owner].child.Some? && h[c].sibling == Some(z) then 1 else 0)
  {
    var h', p := Attach(h, owner, Some(c), addReference), Holder(h, owner);
    AttachUpdates(h, owner, c, addReference);
    if p == c {
      assert h' == h[c := h'[c]];
      EdgesAfterOne(h, c, h'[c], z);
    } else {
      EdgesAfterOne(h, c, h'[c], z);
      EdgesAfterOne(h[c := h'[c]], p, h'[p], z);
    }
  }

  lemma AttachStaysClosed<T>(h: Heap<T>, outside: multiset<T>, owner: T, c: T, addReference: bool)
    requires Closed(h, outside) && owner in h && c in h
    ensures Closed(h, multiset{}) && Closed(Attach(h, owner, Some(c), addReference), outside)
  {
    AttachUpdates(h, owner, c, addReference);
    var h', p := Attach(h, owner, Some(c), addReference), Holder(h, owner);
    forall y | y in h' ensures Live(h', h'[y].child) && Live(h', h'[y].sibling) {
      assert Live(h, h[y].child) && Live(h, h[y].sibling) && Live(h, h[p].sibling);
    }
  }

  /** The account of one object after AttachChild. */
  predicate Balanced<T(==)>(h: Heap<T>, outside: multiset<T>, z: T)
    requires z in h
  {
    Claims(h[z]) == InEdges(h, z) + outside[z]
  }

  lemma AccountAfterAttach<T>(h: Heap<T>, outside: multiset<T>, owner: T, c: T, addReference: bool, z: T)
    requires Closed(h, multiset{}) && owner in h && c in h
    requires Handed(h, c, addReference) <= outside && z in h && Balanced(h, outside, z)
    ensures Balanced(Attach(h, owner, Some(c), addReference), outside - Handed(h, c, addReference), z)
            <==> !(h[owner].child.Some? && h[c].sibling == Some(z))
  {
    EdgesAfterAttach(h, owner, c, addReference, z);
    AttachUpdates(h, owner, c, addReference);
  }

  /** AttachChild balances the accounts exactly if no sibling of the new child is overwritten. */
  lemma AttachBalancesIff<T>(h: Heap<T>, outside: multiset<T>, owner: T, c: T, addReference: bool)
    requires Accounted(h, outside) && owner in h && c in h && Handed(h, c, addReference) <= outside
    ensures Closed(h, multiset{})
    ensures Accounted(Attach(h, owner, Some(c), addReference), outside - Handed(h, c, addReference))
            <==> h[owner].child.None? || h[c].sibling.None?
  {
    AttachStaysClosed(h, outside, owner, c, addReference);
    var h', outside' := Attach(h, owner, Some(c), addReference), outside - Handed(h, c, addReference);
    forall z | z in h ensures Balanced(h', outside', z) <==> !(h[owner].child.Some? && h[c].sibling == Some(z)) {
      assert Balanced(h, outside, z);
      AccountAfterAttach(h, outside, owner, c, addReference, z);
    }
    AccountedIff(h', outside');
    if h[owner].child.Some? && h[c].sibling.Some? {
      assert !Balanced(h', outside', h[c].sibling.value);
    }
  }

  /** Objects 0 and 2 are held from outside and have children: 1, and 3 and 4. */
  function TwoFamilies(): Heap<int> {
    map[0 := Node(0, None, Some(1), None), 1 := Node(0, Some(0), None, None),
        2 := Node(0, None, Some(3), None), 3 := Node(1, Some(2), None, Some(4)), 4 := Node(0, Some(2), None, None)]
  }

  lemma FamilyEdges(h: Heap<int>, z: int)
    requires h == TwoFamilies() && z in h
    ensures InEdges(h, z) == if z == 0 || z == 2 then 0 else 1
  {
    if z == 1 { assert ChildOwners(h, z) == {0} && SiblingOwners(h, z) == {}; }
    else if z == 3 { assert ChildOwners(h, z) == {2} && SiblingOwners(h, z) == {}; }
    else if z == 4 { assert ChildOwners(h, z) == {} && SiblingOwners(h, z) == {3}; }
    else { assert ChildOwners(h, z) == {} && SiblingOwners(h, z) == {}; }
  }

  lemma TwoFamiliesAccounted(h: Heap<int>)
    requires h == TwoFamilies()
    ensures Accounted(h, multiset{0, 2})
  {
    forall z | z in h ensures Balanced(h, multiset{0, 2}, z) { FamilyEdges(h, z); }
    AccountedIff(h, multiset{0, 2});
  }

  /** An object that no edge leads to outlives all releases of other objects. */
  lemma {:induction false} NobodyReleases<T>(h: Heap<T>, work: seq<T>, z: T)
    requires z in h && z !in work && forall y | y in h :: !Edge(h, y, z)
    ensures z in ReleaseAll(h, work).heap
    decreases |h|, |work|
  {
    if work != [] && work[0] in h {
      var x := work[0];
      if Claims(h[x]) > 1 {
        forall y | y in h ensures !Edge(Dropped(h, x), y, z) { assert !Edge(h, y, z); }
        NobodyReleases(Dropped(h, x), work[1..], z);
      } else {
        assert !Edge(h, x, z);
        forall y | y in Without(h, x) ensures !Edge(Without(h, x), y, z) { assert !Edge(h, y, z); }
        NobodyReleases(Without(h, x), Owned(h[x]) + work[1..], z);
      }
    }
  }

  /**
   * Object 0 adopts the first child of 2 as well. Its sibling 4 is lost: nothing holds it any more, and whatever else
   * is released, it stays alive.
   */
  lemma AdoptingLeaks(work: seq<int>)
    requires 4 !in work
    ensures Accounted(TwoFamilies(), multiset{0, 2}) && Closed(TwoFamilies(), multiset{})
    ensures var h := Attach(TwoFamilies(), 0, Some(3), true);
            && !Accounted(h, multiset{0, 2}) && (forall y | y in h :: !Edge(h, y, 4))
            && 4 in ReleaseAll(h, work).heap
  {
    var f := TwoFamilies();
    TwoFamiliesAccounted(f);
    AttachBalancesIff(f, multiset{0, 2}, 0, 3, true);
    assert multiset{0, 2} - Handed(f, 3, true) == multiset{0, 2};
    NobodyReleases(Attach(f, 0, Some(3), true), work, 4);
  }

  lemma AccountedIff<T>(h: Heap<T>, outside: multiset<T>)
    requires Closed(h, outside)
    ensures Accounted(h, outside) <==> forall z | z in h :: Balanced(h, outside, z)
  {
  }

  lemma AddRefBalances<T>(h: Heap<T>, outside: multiset<T>, x: T)
    requires Accounted(h, outside) && x in h
    ensures Accounted(AddRef(h, x), if h[x].refs == 0 then outside else outside + multiset{x})
  {
    var h', outside' := AddRef(h, x), if h[x].refs == 0 then outside else outside + multiset{x};
    forall z | z in h' ensures Balanced(h', outside', z) {
      SameEdges(h, h', z);
    }
    assert Closed(h', outside');
    AccountedIff(h', outside');
  }

  function Created<T(==)>(h: Heap<T>, x: T): Heap<T> {
    h[x := Node(0, None, None, None)]
  }

  lemma CreateBalances<T>(h: Heap<T>, outside: multiset<T>, x: T)
    requires Accounted(h, outside) && x !in h
    ensures Accounted(Created(h, x), outside + multiset{x})
  {
    var h' := Created(h, x);
    forall z | z in h' ensures InEdges(h', z) == if z == x then 0 else InEdges(h, z) {
      OwnersWithout(h', x, z);
      FreedCounts(h'[x], z);
      assert Without(h', x) == h;
      if z == x {
        assert ChildOwners(h, x) == {} && SiblingOwners(h, x) == {};
      }
    }
  }
}
