/** Sorting the kids of a node: they are all detached into a scratch slice, sorted, and linked back in. */
module PrioritySort {
  import opened PriorityNodes

  /** The slice shared by all levels of one walk over the tree. */
  class Scratch {
    var nodes: seq<Node>

    constructor ()
      ensures nodes == []
    {
      nodes := [];
    }
  }

  ghost predicate Distinct<T>(s: seq<T>) {
    forall i, j :: 0 <= i < j < |s| ==> s[i] != s[j]
  }

  lemma DistinctIffCounts<T>(s: seq<T>)
    ensures Distinct(s) <==> forall x :: x in s ==> multiset(s)[x] == 1
  {
    if s != [] {
      var t := s[..|s| - 1];
      var z := s[|s| - 1];
      DistinctIffCounts(t);
      assert s == t + [z];
      assert forall x :: multiset(s)[x] == multiset(t)[x] + if x == z then 1 else 0;
      if Distinct(s) {
        assert z !in t;
        assert Distinct(t);
      } else if forall x :: x in s ==> multiset(s)[x] == 1 {
        assert z in s && multiset(t)[z] == 0;
        assert z in t <==> z in multiset(t);
        forall x | x in t ensures multiset(t)[x] == 1 { assert x in s; }
        forall i, j | 0 <= i < j < |s| ensures s[i] != s[j] {
          if j < |t| { assert t[i] != t[j]; } else { assert t[i] in t; }
        }
      }
    }
  }

  /** The library's sort with a comparison that is no order: all that is known is that it permutes. */
  method Sort(s: seq<Node>) returns (r: seq<Node>)
    ensures multiset(r) == multiset(s)
    ensures Distinct(s) ==> Distinct(r)
    ensures forall x :: x in r <==> x in s
  {
    assert multiset(s) == multiset(s);
    r :| multiset(r) == multiset(s);
    DistinctIffCounts(s);
    DistinctIffCounts(r);
    assert forall x :: x in r <==> x in multiset(r);
    assert forall x :: x in s <==> x in multiset(s);
  }

  /** Links outside the kids of n: same place, same next. */
  ghost predicate SameOutside(m: Links, n: Node, cur: Links) {
    && cur.Keys == m.Keys
    && forall x :: x in m && m[x].parent != n ==> cur[x].next == m[x].next && cur[x].pos == m[x].pos
  }

  ghost predicate SameParents(m: Links, cur: Links) {
    cur.Keys == m.Keys && forall x :: x in m ==> cur[x].parent == m[x].parent
  }

  /** Links m with the kids ds of n taken out. */
  ghost predicate Detached(m: Links, n: Node, ds: seq<Node>, cur: Links) {
    && SameOutside(m, n, cur)
    && (forall x :: x in ds ==> x in m && m[x].parent == n)
    && (forall x :: x in m ==> cur[x].parent == if x in ds then null else m[x].parent)
  }

  ghost function KidsOf(m: Links, n: Node): set<Node> {
    set x | x in m && m[x].parent == n
  }

  lemma DetachStep(m: Links, n: Node, ds: seq<Node>, cur: Links)
    requires Linked(cur) && n in m && Detached(m, n, ds, cur) && cur[n].kids != null && m[n].parent != n
    ensures var k := cur[n].kids;
            && Mirrored(cur, k) && m[k].parent == n && k !in ds && k != n
            && Detached(m, n, ds + [k], Reparented(cur, k, null))
            && KidsOf(Reparented(cur, k, null), n) == KidsOf(cur, n) - {k} && k in KidsOf(cur, n)
  {
    assert Mirrored(cur, n);
    var k := cur[n].kids;
    assert Mirrored(cur, k);
    ReparentedParents(cur, k, null);
    forall x | x in m && m[x].parent != n ensures Reparented(cur, k, null)[x].next == m[x].next {
      assert Mirrored(cur, x);
      ReparentedNext(cur, k, null, x);
    }
  }

  /** The kids ds of n from position i on are linked in again, in order. */
  ghost predicate Attached(m: Links, n: Node, ds: seq<Node>, i: nat, cur: Links)
    requires i <= |ds|
  {
    && SameOutside(m, n, cur)
    && (forall x :: x in ds ==> x in m)
    && (forall x :: x in m ==> cur[x].parent == if x in ds[..i] then null else m[x].parent)
    && (forall a, b :: i <= a < b < |ds| ==> cur[ds[a]].pos < cur[ds[b]].pos)
  }

  lemma AttachStep(m: Links, n: Node, ds: seq<Node>, i: nat, cur: Links)
    requires Linked(cur) && n in m && i < |ds| && Attached(m, n, ds, i + 1, cur) && Distinct(ds)
    requires forall x :: x in ds ==> x in m && m[x].parent == n
    requires m[n].parent != n
    ensures Mirrored(cur, ds[i]) && Mirrored(cur, n) && ds[i] != n
    ensures Attached(m, n, ds, i, Reparented(cur, ds[i], n))
  {
    var k := ds[i];
    assert k in ds[..i + 1];
    assert Mirrored(cur, k) && Mirrored(cur, n);
    ReparentedParents(cur, k, n);
    var cur' := Reparented(cur, k, n);
    forall x | x in m ensures cur'[x].parent == if x in ds[..i] then null else m[x].parent {
      assert x in ds[..i + 1] <==> x in ds[..i] || x == k;
    }
    forall x | x in m && m[x].parent != n ensures cur'[x].next == m[x].next {
      assert Mirrored(cur, x);
      ReparentedNext(cur, k, n, x);
    }
    forall b | i < b < |ds| ensures cur'[k].pos < cur'[ds[b]].pos {
      assert ds[b] !in ds[..i + 1];
      assert Started(cur, ds[b]);
    }
  }

  method DetachKids(n: Node, scratch: Scratch, ghost m: Links) returns (ghost m': Links)
    requires LinksOf(m.Keys) == m && Linked(m) && n in m && m[n].parent != n && scratch.nodes == []
    modifies scratch, m.Keys`parent, m.Keys`kids, m.Keys`prev, m.Keys`next, m.Keys`pos
    ensures LinksOf(m.Keys) == m' && Linked(m') && Detached(m, n, scratch.nodes, m') && Distinct(scratch.nodes)
    ensures forall x :: x in m ==> (x in scratch.nodes <==> m[x].parent == n)
  {
    m' := m;
    while n.kids != null
      invariant LinksOf(m.Keys) == m' && Linked(m') && Detached(m, n, scratch.nodes, m') && Distinct(scratch.nodes)
      decreases KidsOf(m', n)
    {
      var k;
      k, m' := DetachFirst(n, scratch.nodes, m, m');
      scratch.nodes := scratch.nodes + [k];
      LinksAre(m', m.Keys);
    }
    assert n.kids == LinksOf(m.Keys)[n].kids;
    AllDetached(m, n, scratch.nodes, m');
  }

  method DetachFirst(n: Node, ghost ds: seq<Node>, ghost m: Links, ghost cur: Links) returns (k: Node, ghost m': Links)
    requires LinksOf(m.Keys) == cur && Linked(cur) && n in m && m[n].parent != n && n.kids != null
    requires Detached(m, n, ds, cur) && Distinct(ds)
    modifies m.Keys`parent, m.Keys`kids, m.Keys`prev, m.Keys`next, m.Keys`pos
    ensures LinksOf(m.Keys) == m' && Linked(m') && Detached(m, n, ds + [k], m') && Distinct(ds + [k])
    ensures KidsOf(m', n) < KidsOf(cur, n)
  {
    assert n.kids == LinksOf(m.Keys)[n].kids;
    DetachStep(m, n, ds, cur);
    k := n.kids;
    m' := Reparented(cur, k, null);
    k.SetParent(null, m.Keys);
  }

  lemma AllDetached(m: Links, n: Node, ds: seq<Node>, m': Links)
    requires Linked(m') && Detached(m, n, ds, m') && n in m' && m'[n].kids == null
    ensures forall x :: x in m ==> (x in ds <==> m[x].parent == n)
  {
    forall x | x in m && m[x].parent == n ensures x in ds {
      assert Started(m', x);
    }
  }

  /** Links ds in as the kids of n, the last one first. */
  method AttachKids(n: Node, ds: seq<Node>, ghost m: Links, ghost cur: Links) returns (ghost m': Links)
    requires LinksOf(m.Keys) == cur && Linked(cur) && n in m && m[n].parent != n
    requires Detached(m, n, ds, cur) && Distinct(ds)
    modifies m.Keys`parent, m.Keys`kids, m.Keys`prev, m.Keys`next, m.Keys`pos
    ensures LinksOf(m.Keys) == m' && Linked(m') && Attached(m, n, ds, 0, m')
  {
    m' := cur;
    assert ds[..|ds|] == ds;
    for i := |ds| downto 0
      invariant LinksOf(m.Keys) == m' && Linked(m') && Attached(m, n, ds, i, m')
    {
      AttachStep(m, n, ds, i, m');
      m' := Reparented(m', ds[i], n);
      ds[i].SetParent(n, m.Keys);
    }
  }

  /** Reorders the kids of n; every node keeps its parent, and only the kids of n change place. */
  method SortKids(n: Node, scratch: Scratch, ghost m: Links) returns (ghost m': Links)
    requires LinksOf(m.Keys) == m && Linked(m) && n in m && m[n].parent != n
    modifies scratch, m.Keys`parent, m.Keys`kids, m.Keys`prev, m.Keys`next, m.Keys`pos
    ensures LinksOf(m.Keys) == m' && Linked(m') && SameParents(m, m') && SameOutside(m, n, m')
    ensures forall x :: x in m ==> (x in scratch.nodes <==> m[x].parent == n)
    ensures forall a, b :: 0 <= a < b < |scratch.nodes| ==>
              scratch.nodes[a] in m' && scratch.nodes[b] in m' && m'[scratch.nodes[a]].pos < m'[scratch.nodes[b]].pos
  {
    scratch.nodes := [];
    ghost var cur := DetachKids(n, scratch, m);
    scratch.nodes := Sort(scratch.nodes);
    m' := AttachKids(n, scratch.nodes, m, cur);
    assert scratch.nodes[..0] == [];
  }
}
