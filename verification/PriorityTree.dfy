/** Nodes that form a tree, and the operations that relink them, on the heap and on snapshots of the links. */
module PriorityTree {
  import opened FlowControl
  import opened WriteQueues
  import opened StreamTree
  import opened PriorityNodes

  /** Stream ids name the nodes of S one to one. */
  ghost predicate Indexed(nodes: map<nat, Node>, S: set<Node>) {
    && 0 in nodes
    && (forall i :: i in nodes ==> nodes[i].id == i && nodes[i] in S)
    && (forall x :: x in S ==> x.id in nodes && nodes[x.id] == x)
  }

  ghost function ParentId(m: Links, x: Node): nat {
    if x in m && m[x].parent != null then m[x].parent.id else 0
  }

  ghost predicate AreParents(par: Parents, nodes: map<nat, Node>, m: Links) {
    par.Keys == nodes.Keys - {0} && forall i {:trigger par[i]} :: i in par ==> par[i] == ParentId(m, nodes[i])
  }

  /** The dependency relation the links stand for. */
  ghost function ParentIds(nodes: map<nat, Node>, m: Links): (par: Parents)
    ensures par.Keys == nodes.Keys - {0} && AreParents(par, nodes, m)
  {
    assert AreParents(map i | i in nodes && i != 0 :: ParentId(m, nodes[i]), nodes, m);
    var par :| AreParents(par, nodes, m);
    par
  }

  /** Consistent links, every node but the root with a parent. */
  ghost predicate Rooted(nodes: map<nat, Node>, m: Links) {
    && Indexed(nodes, m.Keys)
    && Linked(m)
    && forall i :: i in nodes ==> (i == 0 <==> m[nodes[i]].parent == null) && m[nodes[i]].parent != nodes[i]
  }

  /** ... and no cycles. */
  ghost predicate TreeShaped(nodes: map<nat, Node>, m: Links, rank: map<nat, nat>) {
    Rooted(nodes, m) && Ranked(ParentIds(nodes, m), rank)
  }

  /** One setParent is one change of the dependency relation. */
  lemma ReparentedIds(nodes: map<nat, Node>, m: Links, n: Node, p: Node)
    requires Rooted(nodes, m) && Mirrored(m, n) && Mirrored(m, p) && n != p && n.id != 0
    ensures var m' := Reparented(m, n, p);
            && m'.Keys == m.Keys
            && m'[n].parent == p
            && (forall x :: x in m && x != n ==> m'[x].parent == m[x].parent)
            && ParentIds(nodes, m') == ParentIds(nodes, m)[n.id := p.id]
            && (forall i :: i in nodes ==> (i == 0 <==> m'[nodes[i]].parent == null) && m'[nodes[i]].parent != nodes[i])
  {
    ReparentedParents(m, n, p);
  }

  /** The parent pointer and the dependency relation agree at every node. */
  lemma ParentAt(nodes: map<nat, Node>, m: Links, x: Node)
    requires Rooted(nodes, m) && x in m
    ensures Mirrored(m, x) && x.id in nodes && nodes[x.id] == x
    ensures (m[x].parent == null <==> x.id == 0) && m[x].parent != x
    ensures x.id != 0 ==> && m[x].parent in m && m[x].parent.id in nodes
                          && x.id in ParentIds(nodes, m) && ParentIds(nodes, m)[x.id] == m[x].parent.id
  {
    assert Mirrored(m, x);
  }

  /** The tree after one setParent, given ranks for the new relation. */
  lemma ReparentedTree(nodes: map<nat, Node>, m: Links, n: Node, p: Node, rank: map<nat, nat>)
    requires Rooted(nodes, m) && Mirrored(m, n) && Mirrored(m, p) && n != p && n.id != 0 && m[n].parent != n
    requires Ranked(ParentIds(nodes, m)[n.id := p.id], rank)
    ensures TreeShaped(nodes, Reparented(m, n, p), rank)
    ensures ParentIds(nodes, Reparented(m, n, p)) == ParentIds(nodes, m)[n.id := p.id]
    ensures Reparented(m, n, p)[n].parent == p
  {
    ReparentedIds(nodes, m, n, p);
    ReparentedLinked(m, n, p);
  }

  /** While the kids of p are handed to n one by one, k next: x is already handed over. */
  ghost predicate Passed(m: Links, p: Node, n: Node, k: Node?, x: Node)
    requires x in m && (k != null ==> k in m)
  {
    m[x].parent == p && x != n && (k == null || m[x].pos < m[k].pos)
  }

  /** Links m, once the kids of p before k have been handed to n. */
  ghost predicate HandedOver(m: Links, p: Node, n: Node, k: Node?, cur: Links) {
    && cur.Keys == m.Keys
    && (k != null ==> k in m && m[k].parent == p)
    && (forall x :: x in m ==> cur[x].parent == if Passed(m, p, n, k, x) then n else m[x].parent)
    && (forall x :: x in m && m[x].parent == p && k != null && m[x].pos >= m[k].pos ==> cur[x].next == m[x].next)
  }

  /** The kids of p from k on. */
  ghost function From(m: Links, p: Node, k: Node?): set<Node>
    requires k != null ==> k in m
  {
    set x | x in m && m[x].parent == p && k != null && m[x].pos >= m[k].pos
  }

  lemma FromShrinks(m: Links, p: Node, k: Node)
    requires Linked(m) && Mirrored(m, k) && m[k].parent == p
    ensures From(m, p, m[k].next) == From(m, p, k) - {k}
    ensures k in From(m, p, k)
  {
    forall x | x in m ensures x in From(m, p, m[k].next) <==> x in From(m, p, k) && x != k {
      assert InOrder(m, k, x);
    }
  }

  lemma FromFirst(m: Links, p: Node)
    requires Linked(m) && p in m
    ensures Mirrored(m, p) && forall x :: x in m && m[x].parent == p ==> m[p].kids != null && x in From(m, p, m[p].kids)
  {
    assert Mirrored(m, p);
    forall x | x in m && m[x].parent == p ensures m[p].kids != null && x in From(m, p, m[p].kids) {
      assert Started(m, x);
    }
  }

  lemma HandOverStarts(m: Links, p: Node, n: Node)
    requires Linked(m) && p in m
    ensures Mirrored(m, p) && HandedOver(m, p, n, m[p].kids, m)
  {
    assert Mirrored(m, p);
    forall x | x in m ensures !Passed(m, p, n, m[p].kids, x) {
      assert Started(m, x);
    }
  }

  lemma HandOverStep(m: Links, p: Node, n: Node, k: Node, cur: Links, cur': Links)
    requires Linked(m) && Linked(cur) && HandedOver(m, p, n, k, cur) && n in m && p != n
    requires Mirrored(m, k) && Mirrored(cur, k) && Mirrored(cur, n)
    requires cur' == if k == n then cur else Reparented(cur, k, n)
    ensures HandedOver(m, p, n, m[k].next, cur')
  {
    var nx := m[k].next;
    if k != n {
      ReparentedParents(cur, k, n);
    }
    forall x | x in m
      ensures cur'[x].parent == if Passed(m, p, n, nx, x) then n else m[x].parent
    {
      assert InOrder(m, k, x);
    }
    forall x | x in m && m[x].parent == p && nx != null && m[x].pos >= m[nx].pos
      ensures cur'[x].next == m[x].next
    {
      assert Mirrored(m, x);
      if k != n {
        ReparentedNext(cur, k, n, x);
      }
    }
  }

  lemma AdoptedIds(nodes: map<nat, Node>, m: Links, p: Node, n: Node, cur: Links)
    requires Rooted(nodes, m) && Linked(cur) && p in m && n in m && n != p && HandedOver(m, p, n, null, cur)
    ensures Rooted(nodes, cur) && ParentIds(nodes, cur) == Adopted(ParentIds(nodes, m), n.id, p.id, true)
  {
    forall i | i in nodes
      ensures (i == 0 <==> cur[nodes[i]].parent == null) && cur[nodes[i]].parent != nodes[i]
      ensures i != 0 ==> ParentIds(nodes, cur)[i] == Adopted(ParentIds(nodes, m), n.id, p.id, true)[i]
    {
      ParentAt(nodes, m, nodes[i]);
      ParentAt(nodes, m, p);
      ParentAt(nodes, m, n);
      if i != 0 { ParentAt(nodes, m, m[nodes[i]].parent); }
    }
  }

  /** e is data d after the climb from n has added b to the subtree counts of every node before c. */
  ghost predicate Bumped(par: Parents, d: Data, n: Node, c: Node?, b: int, e: Data) {
    && e.Keys == d.Keys
    && forall x :: x in d ==>
         e[x] == d[x].(subtreeBytes := d[x].subtreeBytes + BumpAt(par, n, c, b, x))
  }

  ghost function BumpAt(par: Parents, n: Node, c: Node?, b: int, x: Node): int {
    if Climbed(par, n.id, if c == null then 0 else c.id, c == null, x.id) then b else 0
  }

  lemma BumpStep(nodes: map<nat, Node>, m: Links, rank: map<nat, nat>, d: Data, n: Node, c: Node, b: int, e: Data)
    requires TreeShaped(nodes, m, rank) && d.Keys == m.Keys && n in m && c in m
    requires Ancestor(ParentIds(nodes, m), c.id, n.id) && Bumped(ParentIds(nodes, m), d, n, c, b, e)
    ensures Bumped(ParentIds(nodes, m), d, n, m[c].parent, b, e[c := e[c].(subtreeBytes := e[c].subtreeBytes + b)])
    ensures m[c].parent != null ==> && Ancestor(ParentIds(nodes, m), m[c].parent.id, n.id) && m[c].parent in m
                                    && RankOf(rank, m[c].parent.id) < RankOf(rank, c.id)
  {
    var par := ParentIds(nodes, m);
    ParentAt(nodes, m, c);
    forall x | x in m ensures BumpAt(par, n, m[c].parent, b, x) == BumpAt(par, n, c, b, x) + if x == c then b else 0 {
      ParentAt(nodes, m, x);
      AncestorSelf(par, c.id);
      ClimbStep(par, rank, n.id, c.id, x.id);
    }
    if c.id != 0 {
      assert Falls(par, rank, c.id);
      AncestorUp(par, c.id, n.id);
    }
  }

  /** If n lies above parent, parent first takes the place of n. */
  method LiftParent(n: Node, parent: Node, ghost nodes: map<nat, Node>, ghost m: Links, ghost rank: map<nat, nat>)
    returns (ghost m': Links)
    requires LinksOf(m.Keys) == m && TreeShaped(nodes, m, rank)
    requires n in m && parent in m && n != parent && n.id != 0
    modifies m.Keys`parent, m.Keys`kids, m.Keys`prev, m.Keys`next, m.Keys`pos
    ensures LinksOf(m.Keys) == m' && m'.Keys == m.Keys && TreeShaped(nodes, m', rank)
    ensures var par := ParentIds(nodes, m);
            && n.id in par
            && ParentIds(nodes, m') == Lifted(par, n.id, parent.id, Ancestor(par, n.id, parent.id))
            && !Ancestor(ParentIds(nodes, m'), n.id, parent.id)
  {
    ghost var par := ParentIds(nodes, m);
    m' := m;
    ParentAt(nodes, m, n);
    ParentAt(nodes, m, parent);
    AncestorAtTop(par, n.id, 0);
    if parent.id != 0 { AncestorStep(par, n.id, parent.id); }
    AncestorSelf(par, n.id);
    var x := parent.parent;
    while x != null
      invariant LinksOf(m.Keys) == m == m'
      invariant x != null ==> x in m
      invariant Ancestor(par, n.id, parent.id) <==> x != null && Ancestor(par, n.id, x.id)
      decreases if x == null then 0 else 1 + RankOf(rank, x.id)
    {
      ParentAt(nodes, m, x);
      assert x.parent == LinksOf(m.Keys)[x].parent;
      if x.id != 0 { assert Falls(par, rank, x.id); }
      if x == n {
        LiftKeepsTree(par, rank, n.id, parent.id);
        ParentAt(nodes, m, n.parent);
        AncestorRank(par, rank, n.id, parent.id);
        ReparentedTree(nodes, m, parent, n.parent, rank);
        m' := Reparented(m, parent, n.parent);
        parent.SetParent(n.parent, m.Keys);
        return;
      }
      if x.id != 0 { AncestorStep(par, n.id, x.id); }
      x := x.parent;
    }
  }

  /** Hands all kids of parent but n to n. In between, n may come to lie on a cycle. */
  method AdoptKids(n: Node, parent: Node, ghost nodes: map<nat, Node>, ghost m: Links) returns (ghost m': Links)
    requires LinksOf(m.Keys) == m && Rooted(nodes, m)
    requires n in m && parent in m && n != parent && n.id != 0
    modifies m.Keys`parent, m.Keys`kids, m.Keys`prev, m.Keys`next, m.Keys`pos
    ensures LinksOf(m.Keys) == m' && m'.Keys == m.Keys && Rooted(nodes, m')
    ensures ParentIds(nodes, m') == Adopted(ParentIds(nodes, m), n.id, parent.id, true)
  {
    HandOverStarts(m, parent, n);
    var k := parent.kids;
    m' := m;
    while k != null
      invariant LinksOf(m.Keys) == m' && Linked(m') && HandedOver(m, parent, n, k, m')
      decreases From(m, parent, k)
    {
      ParentAt(nodes, m, k);
      assert Mirrored(m', k) && Mirrored(m', n);
      FromShrinks(m, parent, k);
      ghost var cur := m';
      var next := k.next;
      if k != n {
        m' := Reparented(m', k, n);
        k.SetParent(n, m.Keys);
      }
      HandOverStep(m, parent, n, k, cur, m');
      k := next;
    }
    AdoptedIds(nodes, m, parent, n, m');
  }

  /** Makes n depend on parent: the relinking part of AdjustStream. */
  method Relink(n: Node, parent: Node, exclusive: bool, ghost nodes: map<nat, Node>, ghost m: Links,
                ghost rank: map<nat, nat>)
    returns (ghost m': Links, ghost rank': map<nat, nat>)
    requires LinksOf(m.Keys) == m && TreeShaped(nodes, m, rank)
    requires n in m && parent in m && n != parent && n.id != 0
    modifies m.Keys`parent, m.Keys`kids, m.Keys`prev, m.Keys`next, m.Keys`pos
    ensures LinksOf(m.Keys) == m' && m'.Keys == m.Keys && TreeShaped(nodes, m', rank')
    ensures n.id in ParentIds(nodes, m)
    ensures ParentIds(nodes, m') == Reprioritized(ParentIds(nodes, m), n.id, parent.id, exclusive)
    ensures m'[n].parent == parent
  {
    ParentAt(nodes, m, n);
    ParentAt(nodes, m, parent);
    rank' := ReprioritizedIsTree(ParentIds(nodes, m), rank, n.id, parent.id, exclusive);
    m' := LiftParent(n, parent, nodes, m, rank);
    if exclusive {
      m' := AdoptKids(n, parent, nodes, m');
    }
    ParentAt(nodes, m', n);
    ParentAt(nodes, m', parent);
    ReparentedTree(nodes, m', n, parent, rank');
    m' := Reparented(m', n, parent);
    n.SetParent(parent, m.Keys);
  }

  /** Adds b to the subtree counts from n up to the root. */
  method Climb(n: Node, b: int, ghost nodes: map<nat, Node>, ghost m: Links, ghost rank: map<nat, nat>,
               ghost d: Data, ghost W: set<Flow>) returns (ghost e: Data)
    requires TreeShaped(nodes, m, rank) && n in m && LinksOf(m.Keys) == m && DataOf(m.Keys) == d
    modifies m.Keys`subtreeBytes
    ensures DataOf(m.Keys) == e && Bumped(ParentIds(nodes, m), d, n, null, b, e)
    ensures WindowsOf(W) == old(WindowsOf(W)) && LinksOf(m.Keys) == m
  {
    ghost var par := ParentIds(nodes, m);
    ghost var F := WindowsOf(W);
    AncestorSelf(par, n.id);
    e := d;
    var c: Node? := n;
    while c != null
      invariant c != null ==> c in m && Ancestor(par, c.id, n.id)
      invariant DataOf(m.Keys) == e && Bumped(par, d, n, c, b, e) && WindowsOf(W) == F && LinksOf(m.Keys) == m
      decreases if c == null then 0 else 1 + RankOf(rank, c.id)
    {
      BumpStep(nodes, m, rank, d, n, c, b, e);
      assert c.parent == LinksOf(m.Keys)[c].parent;
      e := c.AddSubtreeBytes(b, m.Keys, e, W);
      c := c.parent;
    }
  }

  /** e is data d after b bytes are credited to n and to the subtrees it lies in. */
  ghost predicate Credited(par: Parents, d: Data, n: Node, b: int, e: Data) {
    && e.Keys == d.Keys
    && forall x :: x in d ==>
         e[x] == d[x].(bytes := d[x].bytes + (if x == n then b else 0),
                       subtreeBytes := d[x].subtreeBytes + (if Ancestor(par, x.id, n.id) then b else 0))
  }

  lemma BumpedIsCredited(par: Parents, d: Data, n: Node, b: int, e: Data)
    requires n in d && Bumped(par, d[n := d[n].(bytes := d[n].bytes + b)], n, null, b, e)
    ensures Credited(par, d, n, b, e)
  {
  }

  /** addBytes: n and everything above it. */
  method AddBytes(n: Node, b: int, ghost nodes: map<nat, Node>, ghost m: Links, ghost rank: map<nat, nat>,
                  ghost d: Data, ghost W: set<Flow>) returns (ghost e: Data)
    requires TreeShaped(nodes, m, rank) && n in m && LinksOf(m.Keys) == m && DataOf(m.Keys) == d
    modifies n`bytes, m.Keys`subtreeBytes
    ensures DataOf(m.Keys) == e && Credited(ParentIds(nodes, m), d, n, b, e)
    ensures WindowsOf(W) == old(WindowsOf(W)) && LinksOf(m.Keys) == m
  {
    e := n.AddOwnBytes(b, m.Keys, d, W);
    e := Climb(n, b, nodes, m, rank, e, W);
    BumpedIsCredited(ParentIds(nodes, m), d, n, b, e);
  }
}
