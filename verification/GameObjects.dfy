/** Game objects as objects on the heap; the set of all of them stands for a value of Ownership.Heap. */
module GameObjects {
  import opened Ownership
  import opened OwnershipRuns

  ghost function Link(o: GameObject?): Option<GameObject> {
    if o == null then None
    else
      var alive: GameObject := o;
      Some(alive)
  }

  ghost function View(all: set<GameObject>): (h: Heap<GameObject>)
    reads all
    ensures h.Keys <= all
  {
    map x | x in all && x.alive :: Node(x.references, Link(x.parent), Link(x.child), Link(x.sibling))
  }

  lemma {:induction false} ReleaseInTurn<T>(h: Heap<T>, a: seq<T>, b: seq<T>)
    requires !ReleaseAll(h, a).fault
    ensures ReleaseAll(h, a + b).heap == ReleaseAll(ReleaseAll(h, a).heap, b).heap
    decreases |h|, |a|
  {
    if a == [] {
      assert a + b == b;
    } else {
      var x := a[0];
      assert (a + b)[0] == x && (a + b)[1..] == a[1..] + b;
      if Claims(h[x]) > 1 {
        ReleaseInTurn(Dropped(h, x), a[1..], b);
      } else {
        assert Owned(h[x]) + (a[1..] + b) == (Owned(h[x]) + a[1..]) + b;
        ReleaseInTurn(Without(h, x), Owned(h[x]) + a[1..], b);
      }
    }
  }

  /** After the release of the first of two links, if it is set. */
  function AfterOne<T(==)>(h: Heap<T>, o: Option<T>): Heap<T> {
    if o.Some? then Release(h, o.value).heap else h
  }

  function LessOne<T(==)>(outside: multiset<T>, o: Option<T>): multiset<T> {
    if o.Some? then outside - multiset{o.value} else outside
  }

  lemma OneReleased<T>(h: Heap<T>, outside: multiset<T>, o: Option<T>)
    requires Accounted(h, outside) && (o.Some? ==> o.value in outside)
    ensures Accounted(AfterOne(h, o), LessOne(outside, o)) && |AfterOne(h, o)| <= |h|
    ensures o.Some? ==> !Release(h, o.value).fault
  {
    if o.Some? {
      var work := [o.value];
      assert multiset(work) == multiset{o.value};
      ReleaseKeepsAccounts(h, work, outside);
    }
  }

  /** Releasing what a node owns is releasing its child, then its sibling. */
  lemma OwnedInTurn<T>(h: Heap<T>, n: Node<T>)
    requires n.child.Some? ==> !Release(h, n.child.value).fault
    ensures ReleaseAll(h, Owned(n)).heap == AfterOne(AfterOne(h, n.child), n.sibling)
  {
    if n.child.Some? && n.sibling.Some? {
      assert Owned(n) == [n.child.value] + [n.sibling.value];
      ReleaseInTurn(h, [n.child.value], [n.sibling.value]);
    } else if n.child.Some? {
      assert Owned(n) == [n.child.value];
    } else if n.sibling.Some? {
      assert Owned(n) == [n.sibling.value];
    }
  }

  lemma OwnedAreOutside<T>(outside: multiset<T>, n: Node<T>)
    ensures n.child.Some? ==> n.child.value in outside + Freed(n)
    ensures n.sibling.Some? ==> n.sibling.value in LessOne(outside + Freed(n), n.child)
  {
    if n.child.Some? { FreedCounts(n, n.child.value); }
    if n.sibling.Some? { FreedCounts(n, n.sibling.value); }
  }

  lemma LastClaimUnfolds<T>(h: Heap<T>, x: T)
    requires x in h
    ensures Claims(h[x]) == 1 ==> Release(h, x).heap == ReleaseAll(Without(h, x), Owned(h[x])).heap
    ensures Claims(h[x]) > 1 ==> Release(h, x).heap == Dropped(h, x)
  {
    assert [x][1..] == [] && Owned(h[x]) + [] == Owned(h[x]);
    if Claims(h[x]) > 1 { assert ReleaseAll(Dropped(h, x), []).heap == Dropped(h, x); }
  }

  /** The release of an object's last claim is its death, then the release of its child and of its sibling. */
  lemma DeathInTurn<T>(h: Heap<T>, outside: multiset<T>, x: T)
    requires Accounted(h, outside) && x in outside && Claims(h[x]) == 1
    ensures var n, outside1 := h[x], outside - multiset{x} + Freed(h[x]);
            && Accounted(Without(h, x), outside1)
            && (n.child.Some? ==> n.child.value in outside1)
            && (n.sibling.Some? ==> n.sibling.value in LessOne(outside1, n.child))
            && Release(h, x).heap == AfterOne(AfterOne(Without(h, x), n.child), n.sibling)
  {
    DeathKeepsAccounts(h, outside, x);
    OwnedAreOutside(outside - multiset{x}, h[x]);
    OneReleased(Without(h, x), outside - multiset{x} + Freed(h[x]), h[x].child);
    OwnedInTurn(Without(h, x), h[x]);
    LastClaimUnfolds(h, x);
  }

  lemma UncountedSize<T>(h: Heap<T>, x: T, n: Node<T>)
    requires x in h
    ensures h[x := n].Keys == h.Keys && |h[x := n]| == |h| && Without(h[x := n], x) == Without(h, x)
  {
    assert h[x := n].Keys == h.Keys;
  }

  class GameObject {
    var references: nat
    var parent: GameObject?
    var child: GameObject?
    var sibling: GameObject?

    /** False once the destructor has run. */
    var alive: bool

    constructor ()
      ensures alive && references == 0 && parent == null && child == null && sibling == null
    {
      references, parent, child, sibling, alive := 0, null, null, null, true;
    }

    method AddRef(ghost all: set<GameObject>)
      requires this in all && alive
      modifies this
      ensures View(all) == OwnershipRuns.AddRef(old(View(all)), this)
    {
      references := references + 1;
    }

    /** ReferenceCount::Release: true if that was the last claim. */
    method ReleaseCount(ghost all: set<GameObject>) returns (last: bool)
      requires this in all && alive
      modifies this
      ensures alive && parent == old(parent) && child == old(child) && sibling == old(sibling)
      ensures last <==> Claims(old(View(all))[this]) == 1
      ensures View(all) == if last then old(View(all))[this := old(View(all))[this].(refs := 0)]
                           else Dropped(old(View(all)), this)
    {
      if references == 0 { return true; }
      references := references - 1;
      return references == 0;
    }

    /** ReleaseHierarchy takes the links out of the dying object before it follows them. */
    method TakeOwned(ghost all: set<GameObject>) returns (ownedChild: GameObject?, ownedSibling: GameObject?)
      requires this in all && alive
      modifies this
      ensures View(all) == Without(old(View(all)), this)
      ensures ownedChild == old(child) && ownedSibling == old(sibling)
    {
      ownedChild, ownedSibling := child, sibling;
      parent, child, sibling, alive := null, null, null, false;
    }

    /** Releases one claim; the last one destroys the object, and then what it owned is released. */
    method Release(ghost all: set<GameObject>, ghost outside: multiset<GameObject>)
      requires this in all && Accounted(View(all), outside) && this in outside
      modifies all
      ensures View(all) == Ownership.Release(old(View(all)), this).heap
      decreases |View(all)|, 2
    {
      ghost var h := View(all);
      LastClaimUnfolds(h, this);
      var last := ReleaseCount(all);
      if last {
        UncountedSize(h, this, h[this].(refs := 0));
        Destroy(all, outside, h);
      }
    }

    /** The destructor. `h` is the heap before the last claim went. */
    method Destroy(ghost all: set<GameObject>, ghost outside: multiset<GameObject>, ghost h: Heap<GameObject>)
      requires this in all && alive && this in outside && this in h && Claims(h[this]) == 1 && Accounted(h, outside)
      requires View(all) == h[this := h[this].(refs := 0)]
      modifies all
      ensures View(all) == Ownership.Release(h, this).heap
      decreases |View(all)|, 1
    {
      ghost var n := View(all)[this];
      assert n.child == Link(child) && n.sibling == Link(sibling);
      DeathInTurn(h, outside, this);
      UncountedSize(h, this, n);
      var ownedChild, ownedSibling := TakeOwned(all);
      ReleaseBoth(ownedChild, ownedSibling, all, outside - multiset{this} + Freed(h[this]));
    }

    static method ReleaseBoth(first: GameObject?, second: GameObject?, ghost all: set<GameObject>,
                              ghost outside: multiset<GameObject>)
      requires Accounted(View(all), outside) && (first != null ==> first in outside)
      requires second != null ==> second in LessOne(outside, Link(first))
      modifies all
      ensures View(all) == AfterOne(AfterOne(old(View(all)), Link(first)), Link(second))
      decreases |View(all)|, 4
    {
      OneReleased(View(all), outside, Link(first));
      ReleaseIfSet(first, all, outside);
      ReleaseIfSet(second, all, LessOne(outside, Link(first)));
    }

    static method ReleaseIfSet(owned: GameObject?, ghost all: set<GameObject>, ghost outside: multiset<GameObject>)
      requires Accounted(View(all), outside) && (owned != null ==> owned in outside)
      modifies all
      ensures View(all) == AfterOne(old(View(all)), Link(owned))
      decreases |View(all)|, 3
    {
      if owned != null { owned.Release(all, outside); }
    }

    /** The new child's own fields: its parent, and one more reference if the owner adds one. */
    method Adopted(owner: GameObject, addReference: bool, ghost all: set<GameObject>)
      requires this in all && alive
      modifies this
      ensures alive && child == old(child) && sibling == old(sibling)
      ensures var n := old(View(all))[this];
              View(all) == old(View(all))[this := if addReference then n.(parent := None, refs := n.refs + 1)
                                                  else n.(parent := Some(owner))]
    {
      if addReference {
        parent := null;
        references := references + 1;
      } else {
        parent := owner;
      }
    }

    method SetSibling(next: GameObject?, ghost all: set<GameObject>)
      requires this in all && alive
      modifies this
      ensures alive && sibling == next && child == old(child)
      ensures View(all) == old(View(all))[this := old(View(all))[this].(sibling := Link(next))]
    {
      sibling := next;
    }

    method SetFirstChild(first: GameObject, ghost all: set<GameObject>)
      requires this in all && alive
      modifies this
      ensures View(all) == old(View(all))[this := old(View(all))[this].(child := Some(first))]
    {
      child := first;
    }

    /** The new child takes over the sibling of this first child, and becomes its sibling. */
    method InsertBehind(newChild: GameObject, ghost all: set<GameObject>)
      requires this in all && alive && newChild in all && newChild.alive
      modifies this, newChild
      ensures var h := old(View(all))[newChild := old(View(all))[newChild].(sibling := old(View(all))[this].sibling)];
              View(all) == h[this := h[this].(sibling := Some(newChild))]
    {
      assert View(all)[this].sibling == Link(sibling);
      newChild.SetSibling(sibling, all);
      SetSibling(newChild, all);
    }

    method SetChild(newChild: GameObject?, addReference: bool, ghost all: set<GameObject>)
      requires this in all && alive && Closed(View(all), multiset{})
      requires newChild != null ==> newChild in all && newChild.alive
      modifies all
      ensures View(all) == Attach(old(View(all)), this, Link(newChild), addReference)
    {
      if newChild == null { return; }
      assert View(all)[this].child == Link(child);
      var first := child;
      newChild.Adopted(this, addReference, all);
      if first != null {
        first.InsertBehind(newChild, all);
      } else {
        SetFirstChild(newChild, all);
      }
    }
  }
}
