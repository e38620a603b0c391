/** removeNode: what it does to the tree, and exactly when the tree survives it. */
module PriorityEviction {
  import opened Basics
  import opened StreamTree
  import opened PriorityNodes
  import opened PriorityTree
  import opened PrioritySort

  /** n has a parent, and the links around it are not degenerate. */
  ghost predicate CanRemove(m: Links, n: Node) {
    && AllMirrored(m) && n in m && m[n].parent != null && m[n].parent != n
    && (forall x :: x in m ==> m[x].parent != x)
    && (m[n].kids != null ==> m[n].kids != m[n].parent)
  }

  /**
   * The links after removeNode(n). Only the first kid is moved to the parent of n: after that the loop follows that
   * list.
   */
  ghost function Removed(m: Links, n: Node): Links
    requires CanRemove(m, n)
  {
    assert Mirrored(m, n);
    var q := m[n].parent;
    var k := m[n].kids;
    if k == null then Reparented(m, n, null)
    else
      assert Mirrored(m, k) && Mirrored(m, q);
      var m1 := Reparented(m, k, q);
      if Mirrored(m1, n) then Reparented(m1, n, null) else m1
  }

  /** The parent relation when v is removed and its kids move to its parent. */
  ghost function Spliced(par: Parents, v: nat): Parents
    requires v in par
  {
    Tabulated(par.Keys - {v}, x requires x in par => if par[x] == v then par[v] else par[x])
  }

  lemma SplicedRanked(par: Parents, rank: map<nat, nat>, v: nat)
    requires Ranked(par, rank) && v in par
    ensures Ranked(Spliced(par, v), rank)
  {
    assert Falls(par, rank, v);
    forall x | x in Spliced(par, v) ensures Falls(Spliced(par, v), rank, x) {
      assert Falls(par, rank, x);
    }
  }

  /** Of the kids of n, none or only the first has moved; n itself has left. */
  lemma RemovedParents(nodes: map<nat, Node>, m: Links, rank: map<nat, nat>, n: Node)
    requires TreeShaped(nodes, m, rank) && n in m && n.id != 0
    ensures CanRemove(m, n) && Linked(Removed(m, n)) && Removed(m, n).Keys == m.Keys
    ensures Removed(m, n)[n].parent == null
    ensures forall x :: x in m && x != n ==>
              Removed(m, n)[x].parent == if m[n].kids == x then m[n].parent else m[x].parent
  {
    CanRemoveInTree(nodes, m, rank, n);
    ParentAt(nodes, m, n);
    var q := m[n].parent;
    var k := m[n].kids;
    var m1 := m;
    if k != null {
      assert Mirrored(m, k) && Mirrored(m, q);
      ReparentedParents(m, k, q);
      ReparentedLinked(m, k, q);
      m1 := Reparented(m, k, q);
    }
    assert Mirrored(m1, n);
    ReparentedParents(m1, n, null);
    ReparentedLinked(m1, n, null);
  }

  lemma CanRemoveInTree(nodes: map<nat, Node>, m: Links, rank: map<nat, nat>, n: Node)
    requires TreeShaped(nodes, m, rank) && n in m && n.id != 0
    ensures CanRemove(m, n)
  {
    ParentAt(nodes, m, n);
    forall x | x in m ensures m[x].parent != x { ParentAt(nodes, m, x); }
    if m[n].kids != null {
      assert Mirrored(m, n);
      ParentAt(nodes, m, m[n].kids);
      assert Falls(ParentIds(nodes, m), rank, n.id);
      assert Falls(ParentIds(nodes, m), rank, m[n].kids.id);
    }
  }

  /** The snapshot without n, once no other node refers to it. */
  lemma WithoutNode(m: Links, n: Node)
    requires Linked(m) && n in m && m[n].parent == null && forall x :: x in m ==> m[x].parent != n
    ensures Linked(m - {n})
  {
    var r := m - {n};
    assert Mirrored(m, n);
    forall x | x in r ensures Mirrored(r, x) && Started(r, x) {
      assert Mirrored(m, x) && Started(m, x);
      if m[x].parent != null { assert Mirrored(m, m[x].parent); }
    }
    forall x, y | x in r && y in r ensures InOrder(r, x, y) {
      assert InOrder(m, x, y) && Mirrored(m, x);
    }
  }

  /** With at most one kid the rest is the spliced tree. */
  lemma RemovedTree(nodes: map<nat, Node>, m: Links, rank: map<nat, nat>, n: Node)
    requires TreeShaped(nodes, m, rank) && n in m && n.id != 0
    requires forall x, y :: x in m && y in m && m[x].parent == n && m[y].parent == n ==> x == y
    ensures CanRemove(m, n)
    ensures TreeShaped(nodes - {n.id}, Removed(m, n) - {n}, rank)
    ensures n.id in ParentIds(nodes, m)
    ensures ParentIds(nodes - {n.id}, Removed(m, n) - {n}) == Spliced(ParentIds(nodes, m), n.id)
  {
    RemovedParents(nodes, m, rank, n);
    ParentAt(nodes, m, n);
    var m' := Removed(m, n);
    forall x | x in m ensures m'[x].parent != n {
      if x != n && m[x].parent == n {
        FromFirst(m, n);
        assert Mirrored(m, n);
      }
    }
    WithoutNode(m', n);
    SplicedRanked(ParentIds(nodes, m), rank, n.id);
    SplicedIds(nodes, m, rank, n);
  }

  lemma SplicedAt(nodes: map<nat, Node>, m: Links, rank: map<nat, nat>, n: Node, x: Node)
    requires TreeShaped(nodes, m, rank) && n in m && n.id != 0 && x in m && x != n
    requires forall x, y :: x in m && y in m && m[x].parent == n && m[y].parent == n ==> x == y
    ensures CanRemove(m, n) && n.id in ParentIds(nodes, m) && x.id != n.id
    ensures (x.id == 0 <==> Removed(m, n)[x].parent == null) && Removed(m, n)[x].parent != x
    ensures x.id != 0 ==> && Removed(m, n)[x].parent != null && Removed(m, n)[x].parent != n
                          && Removed(m, n)[x].parent.id == Spliced(ParentIds(nodes, m), n.id)[x.id]
  {
    RemovedParents(nodes, m, rank, n);
    ParentAt(nodes, m, n);
    ParentAt(nodes, m, x);
    FromFirst(m, n);
    if x.id != 0 {
      ParentAt(nodes, m, m[x].parent);
    }
  }

  lemma SplicedIds(nodes: map<nat, Node>, m: Links, rank: map<nat, nat>, n: Node)
    requires TreeShaped(nodes, m, rank) && n in m && n.id != 0
    requires forall x, y :: x in m && y in m && m[x].parent == n && m[y].parent == n ==> x == y
    ensures CanRemove(m, n) && n.id in ParentIds(nodes, m) && Removed(m, n).Keys == m.Keys
    ensures forall i :: i in nodes && i != n.id ==>
              && (i == 0 <==> Removed(m, n)[nodes[i]].parent == null) && Removed(m, n)[nodes[i]].parent != nodes[i]
    ensures ParentIds(nodes - {n.id}, Removed(m, n) - {n}) == Spliced(ParentIds(nodes, m), n.id)
  {
    RemovedParents(nodes, m, rank, n);
    ParentAt(nodes, m, n);
    forall i | i in nodes && i != n.id
      ensures (i == 0 <==> Removed(m, n)[nodes[i]].parent == null) && Removed(m, n)[nodes[i]].parent != nodes[i]
    {
      SplicedAt(nodes, m, rank, n, nodes[i]);
    }
    var r := Removed(m, n) - {n};
    forall i | i in nodes && i != n.id && i != 0
      ensures ParentId(r, nodes[i]) == Spliced(ParentIds(nodes, m), n.id)[i] {
      SplicedAt(nodes, m, rank, n, nodes[i]);
    }
    assert ParentIds(nodes - {n.id}, r).Keys == Spliced(ParentIds(nodes, m), n.id).Keys;
  }

  /** removeNode keeps a tree on the remaining nodes exactly when the node has at most one kid. */
  lemma RemoveKeepsTreeIff(nodes: map<nat, Node>, m: Links, rank: map<nat, nat>, n: Node)
    requires TreeShaped(nodes, m, rank) && n in m && n.id != 0
    ensures CanRemove(m, n)
    ensures (exists rank' :: TreeShaped(nodes - {n.id}, Removed(m, n) - {n}, rank'))
       <==> (forall x, y :: x in m && y in m && m[x].parent == n && m[y].parent == n ==> x == y)
  {
    CanRemoveInTree(nodes, m, rank, n);
    if forall x, y :: x in m && y in m && m[x].parent == n && m[y].parent == n ==> x == y {
      RemovedTree(nodes, m, rank, n);
    } else {
      var x: Node, y: Node :| x in m && y in m && m[x].parent == n && m[y].parent == n && x != y;
      KidLeftBehind(nodes, m, rank, n, if m[n].kids == x then y else x);
    }
  }

  /** A kid other than the first keeps its parent, which is gone. */
  lemma KidLeftBehind(nodes: map<nat, Node>, m: Links, rank: map<nat, nat>, n: Node, z: Node)
    requires TreeShaped(nodes, m, rank) && n in m && n.id != 0 && z in m && m[z].parent == n && m[n].kids != z
    ensures CanRemove(m, n) && !Linked(Removed(m, n) - {n})
  {
    CanRemoveInTree(nodes, m, rank, n);
    RemovedParents(nodes, m, rank, n);
    ParentAt(nodes, m, z);
    assert !Mirrored(Removed(m, n) - {n}, z);
  }

  /** Hands the kids of n to its parent and takes n out, as removeNode does. */
  method Unhook(n: Node, ghost nodes: map<nat, Node>, ghost m: Links, ghost rank: map<nat, nat>)
    returns (ghost m': Links)
    requires LinksOf(m.Keys) == m && TreeShaped(nodes, m, rank) && n in m && n.id != 0
    modifies m.Keys`parent, m.Keys`kids, m.Keys`prev, m.Keys`next, m.Keys`pos
    ensures LinksOf(m.Keys) == m' && CanRemove(m, n) && m' == Removed(m, n) && Linked(m')
  {
    CanRemoveInTree(nodes, m, rank, n);
    RemovedParents(nodes, m, rank, n);
    m' := MoveKids(n, nodes, m, rank);
    n.SetParent(null, m.Keys);
    m' := Removed(m, n);
  }

  /** The loop of removeNode over the kids of n. */
  method MoveKids(n: Node, ghost nodes: map<nat, Node>, ghost m: Links, ghost rank: map<nat, nat>)
    returns (ghost m': Links)
    requires LinksOf(m.Keys) == m && TreeShaped(nodes, m, rank) && n in m && n.id != 0 && CanRemove(m, n)
    modifies m.Keys`parent, m.Keys`kids, m.Keys`prev, m.Keys`next, m.Keys`pos
    ensures LinksOf(m.Keys) == m' && Linked(m') && Mirrored(m', n) && m'[n].parent == m[n].parent
    ensures m[n].kids == null ==> m' == m
    ensures m[n].kids != null ==>
              Mirrored(m, m[n].kids) && Mirrored(m, m[n].parent) && m' == Reparented(m, m[n].kids, m[n].parent)
  {
    assert Mirrored(m, n) && Mirrored(m, m[n].parent);
    ghost var q := n.parent;
    ghost var moved := false;
    m' := m;
    var k := n.kids;
    while k != null
      invariant LinksOf(m.Keys) == m' && Linked(m') && m'.Keys == m.Keys && m'[n].parent == q
      invariant k != null ==> k in m'
      invariant !moved ==> m' == m && k == m[n].kids
      invariant moved ==> m[n].kids != null && Mirrored(m, m[n].kids) && m' == Reparented(m, m[n].kids, q)
      invariant moved && k != null ==> m'[k].parent == q
      decreases !moved, if moved then From(m', q, k) else {}
    {
      assert Mirrored(m', k) && Mirrored(m', q) && n.parent == LinksOf(m.Keys)[n].parent;
      assert k.parent == LinksOf(m.Keys)[k].parent;
      ReparentedParents(m', k, q);
      m' := Reparented(m', k, q);  // the same links again, once the first kid has moved
      k.SetParent(n.parent, m.Keys);
      moved := true;
      assert Mirrored(m', k) && k.next == LinksOf(m.Keys)[k].next;
      FromShrinks(m', q, k);
      k := k.next;
    }
    assert Mirrored(m', n);
  }
}
