/** Adding a node to the priority tree, taking one out, and reprioritizing one, on snapshots of the whole tree. */
module PriorityUpdates {
  import opened FlowControl
  import opened WriteQueues
  import opened StreamTree
  import opened PriorityNodes
  import opened PriorityTree
  import opened PriorityWalk
  import opened PriorityEviction

  // ----- adding -----

  /** A node with no links at all joins the snapshot. */
  lemma AloneLinked(m: Links, n: Node, pos: int)
    requires Linked(m) && n !in m
    ensures Linked(m[n := Link(null, null, null, null, pos)])
  {
    var m' := m[n := Link(null, null, null, null, pos)];
    forall x | x in m' ensures Mirrored(m', x) && Started(m', x) {
      if x != n {
        assert Mirrored(m, x) && Started(m, x);
      }
    }
    forall x, y | x in m' && y in m' ensures InOrder(m', x, y) {
      if x != n && y != n {
        assert InOrder(m, x, y) && Mirrored(m, x);
      } else if x != n {
        assert Mirrored(m, x);
      }
    }
  }

  /** The links once n has been put under p. */
  ghost function Inserted(m: Links, n: Node, pos: int, p: Node): Links
    requires Linked(m) && n !in m && p in m
  {
    var m1 := m[n := Link(null, null, null, null, pos)];
    AloneLinked(m, n, pos);
    assert Mirrored(m1, n) && Mirrored(m1, p);
    Reparented(m1, n, p)
  }

  lemma InsertedLinks(m: Links, n: Node, pos: int, p: Node)
    requires Linked(m) && n !in m && p in m
    ensures var m' := Inserted(m, n, pos, p);
            && m'.Keys == m.Keys + {n} && Linked(m') && m'[n].parent == p
            && forall x :: x in m ==> m'[x].parent == m[x].parent
  {
    var m1 := m[n := Link(null, null, null, null, pos)];
    AloneLinked(m, n, pos);
    assert Mirrored(m1, n) && Mirrored(m1, p);
    ReparentedLinked(m1, n, p);
    ReparentedParents(m1, n, p);
  }

  lemma InsertedTree(nodes: map<nat, Node>, m: Links, rank: map<nat, nat>, n: Node, pos: int, p: Node)
    requires TreeShaped(nodes, m, rank) && n !in m && n.id !in nodes && p in m
    ensures var nodes' := nodes[n.id := n];
            var m' := Inserted(m, n, pos, p);
            var rank' := rank[n.id := RankOf(rank, p.id) + 1];
            && m'.Keys == m.Keys + {n}
            && TreeShaped(nodes', m', rank')
            && ParentIds(nodes', m') == ParentIds(nodes, m)[n.id := p.id]
  {
    var m' := Inserted(m, n, pos, p);
    InsertedLinks(m, n, pos, p);
    ParentAt(nodes, m, p);
    InsertedRooted(nodes, m, n, m', p);
    InsertedIds(nodes, m, n, m', p);
    InsertKeepsTree(ParentIds(nodes, m), rank, n.id, p.id);
  }

  lemma InsertedRooted(nodes: map<nat, Node>, m: Links, n: Node, m': Links, p: Node)
    requires Rooted(nodes, m) && n.id !in nodes && n !in m && p in m && Linked(m')
    requires m'.Keys == m.Keys + {n} && m'[n].parent == p && forall x :: x in m ==> m'[x].parent == m[x].parent
    ensures Rooted(nodes[n.id := n], m')
  {
    forall i | i in nodes ensures (i == 0 <==> m'[nodes[i]].parent == null) && m'[nodes[i]].parent != nodes[i] {
      ParentAt(nodes, m, nodes[i]);
    }
  }

  lemma InsertedIds(nodes: map<nat, Node>, m: Links, n: Node, m': Links, p: Node)
    requires Rooted(nodes, m) && n.id !in nodes && n !in m && p in m
    requires m'.Keys == m.Keys + {n} && m'[n].parent == p && forall x :: x in m ==> m'[x].parent == m[x].parent
    ensures ParentIds(nodes[n.id := n], m') == ParentIds(nodes, m)[n.id := p.id]
  {
    forall i | i in nodes && i != 0 ensures ParentId(m', nodes[i]) == ParentId(m, nodes[i]) {
      ParentAt(nodes, m, nodes[i]);
    }
  }

  /** Puts the fresh node n under p. */
  method Insert(n: Node, p: Node, ghost w: World, ghost W: set<Flow>) returns (ghost w': World)
    requires Holds(w, W) && Good(w, W) && n !in w.m && n.id !in w.nodes && p in w.m
    requires n.parent == null && n.kids == null && n.prev == null && n.next == null && n.q == []
    modifies w.m.Keys`parent, w.m.Keys`kids, w.m.Keys`prev, w.m.Keys`next, w.m.Keys`pos
    modifies n`parent, n`kids, n`prev, n`next, n`pos
    ensures Holds(w', W) && Good(w', W) && w'.m.Keys == w.m.Keys + {n}
    ensures w'.nodes == w.nodes[n.id := n] && w'.F == w.F
    ensures w'.d == w.d[n := NodeData([], n.weight, n.state, n.bytes, n.subtreeBytes)]
    ensures Par(w') == Par(w)[n.id := p.id]
  {
    ghost var S := w.m.Keys + {n};
    InsertedTree(w.nodes, w.m, w.rank, n, n.pos, p);
    ghost var m1 := w.m[n := Link(null, null, null, null, n.pos)];
    AloneLinked(w.m, n, n.pos);
    ExtendSnapshots(w.m.Keys, n);
    w' := World(w.nodes[n.id := n], w.rank[n.id := RankOf(w.rank, p.id) + 1], Inserted(w.m, n, n.pos, p),
                w.d[n := NodeData([], n.weight, n.state, n.bytes, n.subtreeBytes)], w.F);
    PlaceUnder(n, p, S, W);
  }

  lemma ExtendSnapshots(S: set<Node>, n: Node)
    ensures LinksOf(S + {n}) == LinksOf(S)[n := Link(n.parent, n.kids, n.prev, n.next, n.pos)]
    ensures DataOf(S + {n}) == DataOf(S)[n := NodeData(n.q, n.weight, n.state, n.bytes, n.subtreeBytes)]
  {
  }

  method InsertNew(id: nat, weight: nat, state: NodeState, p: Node, ghost w: World, ghost W: set<Flow>)
    returns (n: Node, ghost w': World)
    requires Holds(w, W) && Good(w, W) && id !in w.nodes && p in w.m
    modifies w.m.Keys`parent, w.m.Keys`kids, w.m.Keys`prev, w.m.Keys`next, w.m.Keys`pos
    ensures fresh(n) && n.id == id
    ensures Holds(w', W) && Good(w', W) && w'.m.Keys == w.m.Keys + {n}
    ensures w'.nodes == w.nodes[id := n] && w'.F == w.F && Par(w') == Par(w)[id := p.id]
    ensures w'.d == w.d[n := NodeData([], weight, state, 0, 0)]
  {
    n := new Node(id, weight, state);
    w' := Insert(n, p, w, W);
  }

  lemma SameSnapshots(S: set<Node>, W: set<Flow>, d: Data, F: map<Flow, int>)
    requires AreData(d, S) && AreWindows(F, W)
    ensures DataOf(S) == d && WindowsOf(W) == F
  {
  }

  /** SetParent, which leaves the data and the windows alone. */
  method PlaceUnder(n: Node, p: Node?, ghost S: set<Node>, ghost W: set<Flow>)
    requires Linked(LinksOf(S)) && n in S && (p != null ==> p in S) && p != n && n.parent != n
    modifies S`parent, S`kids, S`prev, S`next, S`pos
    ensures var m := old(LinksOf(S));
            && Mirrored(m, n) && (p != null ==> Mirrored(m, p))
            && LinksOf(S) == Reparented(m, n, p) && Linked(LinksOf(S))
    ensures DataOf(S) == old(DataOf(S)) && WindowsOf(W) == old(WindowsOf(W))
  {
    ghost var d, F := DataOf(S), WindowsOf(W);
    n.SetParent(p, S);
    SameSnapshots(S, W, d, F);
  }

  // ----- removing -----

  /** n has no kids, or one. */
  ghost predicate AtMostOneKid(m: Links, n: Node) {
    forall x, y :: x in m && y in m && m[x].parent == n && m[y].parent == n ==> x == y
  }

  method UnhookOnly(n: Node, ghost nodes: map<nat, Node>, ghost m: Links, ghost rank: map<nat, nat>, ghost W: set<Flow>)
    returns (ghost m': Links)
    requires LinksOf(m.Keys) == m && TreeShaped(nodes, m, rank) && n in m && n.id != 0
    modifies m.Keys`parent, m.Keys`kids, m.Keys`prev, m.Keys`next, m.Keys`pos
    ensures LinksOf(m.Keys) == m' && CanRemove(m, n) && m' == Removed(m, n)
    ensures DataOf(m.Keys) == old(DataOf(m.Keys)) && WindowsOf(W) == old(WindowsOf(W))
  {
    ghost var d, F := DataOf(m.Keys), WindowsOf(W);
    m' := Unhook(n, nodes, m, rank);
    SameSnapshots(m.Keys, W, d, F);
  }

  /** removeNode: takes n out of the tree. */
  method Remove(n: Node, ghost w: World, ghost W: set<Flow>) returns (ghost w': World)
    requires Holds(w, W) && Good(w, W) && n in w.m && n.id != 0 && AtMostOneKid(w.m, n)
    modifies w.m.Keys`parent, w.m.Keys`kids, w.m.Keys`prev, w.m.Keys`next, w.m.Keys`pos
    ensures Holds(w', W) && Good(w', W) && w'.m.Keys == w.m.Keys - {n}
    ensures w'.nodes == w.nodes - {n.id} && w'.d == w.d - {n} && w'.F == w.F
    ensures n.id in Par(w) && Par(w') == Spliced(Par(w), n.id)
  {
    RemovedTree(w.nodes, w.m, w.rank, n);
    RemovedParents(w.nodes, w.m, w.rank, n);
    ghost var m' := UnhookOnly(n, w.nodes, w.m, w.rank, W);
    w' := World(w.nodes - {n.id}, w.rank, m' - {n}, w.d - {n}, w.F);
    RestrictSnapshots(w.m.Keys, n);
  }

  lemma RestrictSnapshots(S: set<Node>, n: Node)
    ensures LinksOf(S - {n}) == LinksOf(S) - {n}
    ensures DataOf(S - {n}) == DataOf(S) - {n}
  {
  }

  // ----- reprioritizing -----

  /** The dependency relation after PRIORITY information for stream id: an unknown parent means the root. */
  ghost function Adjusted(par: Parents, id: nat, dep: nat, exclusive: bool): Parents
    requires id in par
  {
    if dep != 0 && dep !in par then par[id := 0]
    else if dep == id then par
    else Reprioritized(par, id, dep, exclusive)
  }

  method RelinkOnly(n: Node, p: Node, exclusive: bool, ghost nodes: map<nat, Node>, ghost m: Links,
                    ghost rank: map<nat, nat>, ghost W: set<Flow>) returns (ghost m': Links, ghost rank': map<nat, nat>)
    requires LinksOf(m.Keys) == m && TreeShaped(nodes, m, rank)
    requires n in m && p in m && n != p && n.id != 0
    modifies m.Keys`parent, m.Keys`kids, m.Keys`prev, m.Keys`next, m.Keys`pos
    ensures LinksOf(m.Keys) == m' && m'.Keys == m.Keys && TreeShaped(nodes, m', rank')
    ensures n.id in ParentIds(nodes, m)
    ensures ParentIds(nodes, m') == Reprioritized(ParentIds(nodes, m), n.id, p.id, exclusive)
    ensures DataOf(m.Keys) == old(DataOf(m.Keys)) && WindowsOf(W) == old(WindowsOf(W))
  {
    ghost var d, F := DataOf(m.Keys), WindowsOf(W);
    m', rank' := Relink(n, p, exclusive, nodes, m, rank);
    SameSnapshots(m.Keys, W, d, F);
  }

  /** Makes n depend on p. */
  method Depend(n: Node, p: Node, exclusive: bool, ghost w: World, ghost W: set<Flow>) returns (ghost w': World)
    requires Holds(w, W) && Good(w, W) && n in w.m && p in w.m && n != p && n.id != 0
    modifies w.m.Keys`parent, w.m.Keys`kids, w.m.Keys`prev, w.m.Keys`next, w.m.Keys`pos
    ensures Holds(w', W) && Good(w', W) && w' == w.(m := w'.m, rank := w'.rank) && w'.m.Keys == w.m.Keys
    ensures n.id in Par(w) && Par(w') == Reprioritized(Par(w), n.id, p.id, exclusive)
  {
    ghost var m', rank' := RelinkOnly(n, p, exclusive, w.nodes, w.m, w.rank, W);
    w' := w.(m := m', rank := rank');
  }

  /** n.setParent(root) for a node of the tree. */
  method DependOnRoot(n: Node, root: Node, ghost w: World, ghost W: set<Flow>) returns (ghost w': World)
    requires Holds(w, W) && Good(w, W) && n in w.m && root in w.m && root.id == 0 && n.id != 0
    modifies w.m.Keys`parent, w.m.Keys`kids, w.m.Keys`prev, w.m.Keys`next, w.m.Keys`pos
    ensures Holds(w', W) && Good(w', W) && w' == w.(m := w'.m, rank := w'.rank) && w'.m.Keys == w.m.Keys
    ensures n.id in Par(w) && Par(w') == Par(w)[n.id := 0]
  {
    ghost var par := Par(w);
    ParentAt(w.nodes, w.m, n);
    ParentAt(w.nodes, w.m, root);
    AncestorAtTop(par, n.id, 0);
    ReparentKeepsTree(par, w.rank, n.id, 0);
    ReparentedTree(w.nodes, w.m, n, root, LiftedRank(par, w.rank, n.id, 0));
    w' := w.(m := Reparented(w.m, n, root), rank := LiftedRank(par, w.rank, n.id, 0));
    PlaceUnder(n, root, w.m.Keys, W);
  }

  lemma ReweightKeepsGood(w: World, n: Node, weight: nat, W: set<Flow>)
    requires Good(w, W) && n in w.m
    ensures var w' := w.(d := w.d[n := w.d[n].(weight := weight)]); Good(w', W) && Par(w') == Par(w)
  {
  }

  method Reweight(n: Node, weight: nat, ghost w: World, ghost W: set<Flow>) returns (ghost w': World)
    requires Holds(w, W) && Good(w, W) && n in w.m
    modifies n`weight
    ensures Holds(w', W) && Good(w', W) && w' == w.(d := w.d[n := w.d[n].(weight := weight)]) && Par(w') == Par(w)
  {
    ReweightKeepsGood(w, n, weight, W);
    ghost var e := n.SetWeight(weight, w.m.Keys, w.d, W);
    w' := w.(d := e);
  }

  /**
   * What PRIORITY information does to the weight: nothing if the stream names itself, the default if the parent is
   * unknown.
   */
  function AdjustedWeight(known: bool, self: bool, was: nat, weight: nat, default: nat): nat {
    if !known then default else if self then was else weight
  }

  /** The part of AdjustStream after the stream's node n and its new parent have been looked up. */
  method Adjust(n: Node, parent: Node?, exclusive: bool, weight: nat, default: nat, root: Node, ghost dep: nat,
                ghost w: World, ghost W: set<Flow>)
    returns (ghost w': World)
    requires Holds(w, W) && Good(w, W) && n in w.m && n.id != 0 && 0 in w.nodes && w.nodes[0] == root
    requires parent == if dep in w.nodes then w.nodes[dep] else null
    modifies w.m.Keys`parent, w.m.Keys`kids, w.m.Keys`prev, w.m.Keys`next, w.m.Keys`pos, n`weight
    ensures Holds(w', W) && Good(w', W) && w'.nodes == w.nodes && w'.m.Keys == w.m.Keys && w'.F == w.F
    ensures n.id in Par(w) && Par(w') == Adjusted(Par(w), n.id, dep, exclusive)
    ensures var weight' := AdjustedWeight(parent != null, parent == n, w.d[n].weight, weight, default);
            w'.d == w.d[n := w.d[n].(weight := weight')]
  {
    AdjustCases(w, n, parent, dep, root);
    if parent == null {
      w' := ToRoot(n, root, default, w, W);
    } else if n == parent {
      w' := w;
    } else {
      w' := ToParent(n, parent, exclusive, weight, w, W);
    }
  }

  lemma AdjustCases(w: World, n: Node, parent: Node?, dep: nat, root: Node)
    requires Rooted(w.nodes, w.m) && n in w.m && n.id != 0 && w.nodes[0] == root
    requires parent == if dep in w.nodes then w.nodes[dep] else null
    ensures n.id in Par(w) && root in w.m && root.id == 0
    ensures parent == null <==> dep != 0 && dep !in Par(w)
    ensures parent != null ==> parent in w.m && parent.id == dep
    ensures parent == n <==> dep == n.id
  {
    ParentAt(w.nodes, w.m, n);
    ParentAt(w.nodes, w.m, root);
  }

  method ToRoot(n: Node, root: Node, weight: nat, ghost w: World, ghost W: set<Flow>) returns (ghost w': World)
    requires Holds(w, W) && Good(w, W) && n in w.m && root in w.m && root.id == 0 && n.id != 0
    modifies w.m.Keys`parent, w.m.Keys`kids, w.m.Keys`prev, w.m.Keys`next, w.m.Keys`pos, n`weight
    ensures Holds(w', W) && Good(w', W) && w'.nodes == w.nodes && w'.m.Keys == w.m.Keys && w'.F == w.F
    ensures n.id in Par(w) && Par(w') == Par(w)[n.id := 0] && w'.d == w.d[n := w.d[n].(weight := weight)]
  {
    w' := DependOnRoot(n, root, w, W);
    w' := Reweight(n, weight, w', W);
  }

  method ToParent(n: Node, parent: Node, exclusive: bool, weight: nat, ghost w: World, ghost W: set<Flow>)
    returns (ghost w': World)
    requires Holds(w, W) && Good(w, W) && n in w.m && parent in w.m && n != parent && n.id != 0
    modifies w.m.Keys`parent, w.m.Keys`kids, w.m.Keys`prev, w.m.Keys`next, w.m.Keys`pos, n`weight
    ensures Holds(w', W) && Good(w', W) && w'.nodes == w.nodes && w'.m.Keys == w.m.Keys && w'.F == w.F
    ensures n.id in Par(w) && Par(w') == Reprioritized(Par(w), n.id, parent.id, exclusive)
    ensures w'.d == w.d[n := w.d[n].(weight := weight)]
  {
    w' := Depend(n, parent, exclusive, w, W);
    w' := Reweight(n, weight, w', W);
  }

  // ----- closing -----

  /** w' is w with n closed: its frames dropped, its bytes taken out of all counts. */
  ghost predicate IsShut(w: World, n: Node, w': World) {
    && n in w.d && w' == w.(d := w'.d) && w'.d.Keys == w.d.Keys
    && forall x :: x in w.d ==>
         w'.d[x] == NodeData(if x == n then [] else w.d[x].q, w.d[x].weight, if x == n then Closed else w.d[x].state,
                             if x == n then 0 else w.d[x].bytes,
                             w.d[x].subtreeBytes - (if Ancestor(Par(w), x.id, n.id) then w.d[n].bytes else 0))
  }

  lemma ShutIsShut(w: World, n: Node, d1: Data, e: Data)
    requires n in w.d && d1 == w.d[n := w.d[n].(state := Closed)]
    requires Credited(Par(w), d1, n, -w.d[n].bytes, e)
    ensures IsShut(w, n, w.(d := e[n := e[n].(q := [])]))
  {
  }

  lemma ShutIsGood(w: World, n: Node, w': World, W: set<Flow>)
    requires Good(w, W) && IsShut(w, n, w')
    ensures Good(w', W) && Par(w') == Par(w)
  {
  }

  /** The part of CloseStream that does not relink. */
  method Shut(n: Node, ghost w: World, ghost W: set<Flow>) returns (ghost w': World)
    requires Holds(w, W) && Good(w, W) && n in w.m
    modifies n`state, n`q, n`bytes, w.m.Keys`subtreeBytes
    ensures Holds(w', W) && Good(w', W) && IsShut(w, n, w') && Par(w') == Par(w)
  {
    ghost var d1, e := Discount(n, w.nodes, w.m, w.rank, w.d, W, w.F);
    ShutIsShut(w, n, d1, e);
    e := n.SetQueue([], w.m.Keys, e, W);
    w' := w.(d := e);
    ShutIsGood(w, n, w', W);
  }

  /** n is closed, and its bytes leave all counts. */
  method Discount(n: Node, ghost nodes: map<nat, Node>, ghost m: Links, ghost rank: map<nat, nat>, ghost d: Data,
                  ghost W: set<Flow>, ghost F: map<Flow, int>) returns (ghost d1: Data, ghost e: Data)
    requires TreeShaped(nodes, m, rank) && LinksOf(m.Keys) == m && DataOf(m.Keys) == d && n in m && WindowsOf(W) == F
    modifies n`state, n`bytes, m.Keys`subtreeBytes
    ensures LinksOf(m.Keys) == m && DataOf(m.Keys) == e && WindowsOf(W) == F
    ensures d1 == d[n := d[n].(state := Closed)] && Credited(ParentIds(nodes, m), d1, n, -d[n].bytes, e)
  {
    var b := n.bytes;
    assert b == d[n].bytes;
    d1 := n.SetState(Closed, m.Keys, d, W);
    e := AddBytes(n, -b, nodes, m, rank, d1, W);
  }
}
