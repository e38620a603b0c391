/**
 * Nodes of the HTTP/2 priority tree: parent links and doubly linked lists of siblings. Methods work on the heap; what
 * they do to the links is stated on snapshots, where it is proved.
 */
module PriorityNodes {
  import opened FlowControl
  import opened WriteQueues

  datatype NodeState = Open | Closed | Idle

  /** The links of one node; pos is its place among its siblings and grows along next. */
  datatype Link = Link(parent: Node?, kids: Node?, prev: Node?, next: Node?, pos: int)

  /** A snapshot of the links of a set of nodes. */
  type Links = map<Node, Link>

  /** The links out of n are mirrored by the nodes they lead to. */
  ghost predicate Mirrored(m: Links, n: Node) {
    n in m &&
    var l := m[n];
    && (l.parent == null ==> l.prev == null && l.next == null)
    && (l.parent != null ==> l.parent in m && (l.prev == null ==> m[l.parent].kids == n))
    && (l.prev != null ==> l.prev in m && m[l.prev].next == n && m[l.prev].parent == l.parent)
    && (l.next != null ==> l.next in m && m[l.next].prev == n && m[l.next].parent == l.parent && l.pos < m[l.next].pos)
    && (l.kids != null ==> l.kids in m && m[l.kids].parent == n && m[l.kids].prev == null)
  }

  /** The list a node stands in starts no later than the node. */
  ghost predicate Started(m: Links, n: Node) {
    n in m &&
    var p := m[n].parent;
    p != null ==> p in m && m[p].kids != null && m[p].kids in m && m[m[p].kids].pos <= m[n].pos
  }

  /** No sibling of n stands between it and its next. */
  ghost predicate InOrder(m: Links, n: Node, x: Node) {
    n in m && x in m &&
    var nx := m[n].next;
    m[n].parent != null && m[x].parent == m[n].parent && x != n && m[x].pos >= m[n].pos
    ==> nx != null && nx in m && m[x].pos >= m[nx].pos
  }

  ghost predicate AllMirrored(m: Links) {
    forall n {:trigger Mirrored(m, n)} :: n in m ==> Mirrored(m, n)
  }

  /** All links are consistent; nothing is said about cycles. */
  ghost predicate Linked(m: Links) {
    && AllMirrored(m)
    && (forall n {:trigger Started(m, n)} :: n in m ==> Started(m, n))
    && (forall n, x {:trigger InOrder(m, n, x)} :: n in m && x in m ==> InOrder(m, n, x))
  }

  /** First half of setParent: n is taken out of the list it stands in. */
  ghost function Left(m: Links, n: Node): Links
    requires n in m && Mirrored(m, n)
  {
    var l := m[n];
    if l.parent == null then m else
    var m1 := if l.prev == null then m[l.parent := m[l.parent].(kids := l.next)]
              else m[l.prev := m[l.prev].(next := l.next)];
    if l.next != null then m1[l.next := m1[l.next].(prev := l.prev)] else m1
  }

  /** Second half: n goes to the front of the kids of p, or nowhere. */
  ghost function Joined(m: Links, n: Node, p: Node?): Links
    requires n in m && (p != null ==> p in m && (m[p].kids != null ==> m[p].kids in m))
  {
    if p == null then m[n := m[n].(parent := null, prev := null, next := null)] else
    var nx := m[p].kids;
    var m1 := m[n := m[n].(parent := p, prev := null, next := nx, pos := if nx == null then 0 else m[nx].pos - 1)];
    var m2 := if nx != null then m1[nx := m1[nx].(prev := n)] else m1;
    m2[p := m2[p].(kids := n)]
  }

  lemma JoinedAt(m: Links, n: Node, p: Node, x: Node)
    requires n in m && p in m && n != p && (m[p].kids != null ==> m[p].kids in m) && x in m
    ensures Joined(m, n, p).Keys == m.Keys
    ensures var nx := m[p].kids;
            Joined(m, n, p)[x] ==
            Link(if x == n then p else m[x].parent, if x == p then n else m[x].kids,
                 if x == nx then n else if x == n then null else m[x].prev, if x == n then nx else m[x].next,
                 if x != n then m[x].pos else if nx == null then 0 else m[nx].pos - 1)
  {
  }

  /** The links after n has left its parent's list and stands alone. */
  ghost function Unlinked(m: Links, n: Node): Links
    requires n in m && Mirrored(m, n)
  {
    Joined(Left(m, n), n, null)
  }

  lemma UnlinkedMirrored(m: Links, n: Node, x: Node)
    requires Mirrored(m, n) && Mirrored(m, x) && m[n].parent != n
    requires m[n].next != null ==> Mirrored(m, m[n].next)
    requires m[n].prev != null ==> Mirrored(m, m[n].prev)
    requires m[x].next != null ==> Mirrored(m, m[x].next)
    ensures Mirrored(Unlinked(m, n), x)
  {
  }

  lemma UnlinkedInOrder(m: Links, n: Node, x: Node, y: Node)
    requires Mirrored(m, n) && m[n].parent != n
    requires Mirrored(m, x) && InOrder(m, x, y) && InOrder(m, n, y)
    requires m[n].next != null ==> Mirrored(m, m[n].next)
    requires Mirrored(Unlinked(m, n), x)
    ensures InOrder(Unlinked(m, n), x, y)
  {
  }

  lemma UnlinkedStarted(m: Links, n: Node, x: Node)
    requires Mirrored(m, n) && m[n].parent != n
    requires Mirrored(m, x) && Started(m, x) && InOrder(m, n, x)
    requires m[n].next != null ==> Mirrored(m, m[n].next)
    ensures Started(Unlinked(m, n), x)
  {
  }

  lemma UnlinkedLinked(m: Links, n: Node)
    requires Linked(m) && Mirrored(m, n) && m[n].parent != n
    ensures Linked(Unlinked(m, n))
  {
    if m[n].next != null { assert Mirrored(m, m[n].next); }
    if m[n].prev != null { assert Mirrored(m, m[n].prev); }
    forall x | x in m ensures Mirrored(Unlinked(m, n), x) && Started(Unlinked(m, n), x) {
      assert Mirrored(m, x) && Started(m, x) && InOrder(m, n, x);
      if m[x].next != null { assert Mirrored(m, m[x].next); }
      UnlinkedMirrored(m, n, x);
      UnlinkedStarted(m, n, x);
    }
    forall x, y | x in m && y in m ensures InOrder(Unlinked(m, n), x, y) {
      assert Mirrored(m, x) && InOrder(m, x, y) && InOrder(m, n, y);
      assert Mirrored(Unlinked(m, n), x);
      UnlinkedInOrder(m, n, x, y);
    }
  }

  lemma JoinedMirrored(m: Links, n: Node, p: Node, x: Node)
    requires Mirrored(m, n) && Mirrored(m, p) && Mirrored(m, x) && n != p && m[n].parent == null
    requires m[p].kids != null ==> Mirrored(m, m[p].kids)
    ensures Mirrored(Joined(m, n, p), x)
  {
  }

  lemma JoinedInOrder(m: Links, n: Node, p: Node, x: Node, y: Node)
    requires Mirrored(m, n) && Mirrored(m, p) && n != p && m[n].parent == null
    requires Mirrored(m, x) && Mirrored(m, y) && InOrder(m, x, y) && Started(m, x) && Started(m, y)
    requires m[p].kids != null ==> Mirrored(m, m[p].kids)
    ensures InOrder(Joined(m, n, p), x, y)
  {
  }

  lemma JoinedStarted(m: Links, n: Node, p: Node, x: Node)
    requires Mirrored(m, n) && Mirrored(m, p) && n != p && m[n].parent == null
    requires Mirrored(m, x) && Started(m, x) && (m[x].parent != null ==> Mirrored(m, m[x].parent))
    ensures Started(Joined(m, n, p), x)
  {
  }

  lemma JoinedLinked(m: Links, n: Node, p: Node)
    requires Linked(m) && Mirrored(m, n) && Mirrored(m, p) && n != p && m[n].parent == null
    ensures Linked(Joined(m, n, p))
  {
    if m[p].kids != null { assert Mirrored(m, m[p].kids); }
    forall x | x in m ensures Mirrored(Joined(m, n, p), x) && Started(Joined(m, n, p), x) {
      assert Mirrored(m, x) && Started(m, x);
      if m[x].parent != null { assert Mirrored(m, m[x].parent); }
      JoinedMirrored(m, n, p, x);
      JoinedStarted(m, n, p, x);
    }
    forall x, y | x in m && y in m ensures InOrder(Joined(m, n, p), x, y) {
      assert Mirrored(m, x) && Mirrored(m, y) && InOrder(m, x, y) && Started(m, x) && Started(m, y);
      JoinedInOrder(m, n, p, x, y);
    }
  }

  /** The links after n.setParent(p). */
  ghost function Reparented(m: Links, n: Node, p: Node?): Links
    requires Mirrored(m, n) && (p != null ==> Mirrored(m, p) && n != p)
  {
    if m[n].parent == p then m else Joined(Left(m, n), n, p)
  }

  /** setParent keeps the links consistent, changes one parent, and puts the node at the front. */
  lemma ReparentedLinked(m: Links, n: Node, p: Node?)
    requires Linked(m) && Mirrored(m, n) && m[n].parent != n && (p != null ==> Mirrored(m, p) && n != p)
    ensures Linked(Reparented(m, n, p))
  {
    if m[n].parent != p {
      UnlinkedLinked(m, n);
      var u := Unlinked(m, n);
      if p != null {
        assert Mirrored(u, n) && Mirrored(u, p);
        JoinedLinked(u, n, p);
        assert m[p].kids != n by { assert Mirrored(m, p); }
        assert Joined(u, n, p) == Joined(Left(m, n), n, p);
      }
    }
  }

  lemma LeftParent(m: Links, n: Node, x: Node)
    requires Mirrored(m, n) && x in m
    ensures var m' := Left(m, n);
            m'.Keys == m.Keys && m'[x].parent == m[x].parent && m'[x].pos == m[x].pos
  {
  }

  lemma JoinedParent(m: Links, n: Node, p: Node?, x: Node)
    requires n in m && x in m && (p != null ==> p in m && (m[p].kids != null ==> m[p].kids in m) && n != p)
    ensures var m' := Joined(m, n, p);
            && m'.Keys == m.Keys
            && m'[n].parent == p
            && (x != n ==> m'[x].parent == m[x].parent && m'[x].pos == m[x].pos)
  {
  }

  /** setParent changes the parent of one node and the place of that node only. */
  lemma ReparentedParents(m: Links, n: Node, p: Node?)
    requires Mirrored(m, n) && (p != null ==> Mirrored(m, p) && n != p)
    ensures var m' := Reparented(m, n, p);
            && m'.Keys == m.Keys
            && m'[n].parent == p
            && (forall x :: x in m && x != n ==> m'[x].parent == m[x].parent && m'[x].pos == m[x].pos)
  {
    if m[n].parent != p {
      var l := Left(m, n);
      LeftParent(m, n, n);
      JoinedParent(l, n, p, n);
      forall x | x in m && x != n
        ensures Reparented(m, n, p)[x].parent == m[x].parent && Reparented(m, n, p)[x].pos == m[x].pos
      {
        LeftParent(m, n, x);
        JoinedParent(l, n, p, x);
      }
    }
  }

  /** setParent cuts no next link but the ones into and out of the moved node. */
  lemma ReparentedNext(m: Links, n: Node, p: Node?, x: Node)
    requires Mirrored(m, n) && (p != null ==> Mirrored(m, p) && n != p) && x in m && x != n && m[x].next != n
    ensures x in Reparented(m, n, p) && Reparented(m, n, p)[x].next == m[x].next
  {
  }

  class Node {
    const id: nat
    var q: seq<FrameWriteRequest>
    var weight: nat
    var state: NodeState
    var bytes: int
    var subtreeBytes: int
    var parent: Node?
    var kids: Node?
    var prev: Node?
    var next: Node?
    ghost var pos: int

    constructor (id: nat, weight: nat, state: NodeState)
      ensures this.id == id && this.weight == weight && this.state == state
      ensures q == [] && bytes == 0 && subtreeBytes == 0
      ensures parent == null && kids == null && prev == null && next == null
    {
      this.id := id;
      this.weight := weight;
      this.state := state;
      q := [];
      bytes, subtreeBytes := 0, 0;
      parent, kids, prev, next := null, null, null, null;
    }

    method LeaveSiblings(ghost S: set<Node>)
      requires this in S && Mirrored(LinksOf(S), this)
      modifies S`kids, S`prev, S`next
      ensures LinksOf(S) == Left(old(LinksOf(S)), this)
    {
      ghost var m := LinksOf(S);
      if parent != null {
        if prev == null {
          parent.kids := next;
        } else {
          prev.next := next;
        }
        if next != null {
          next.prev := prev;
        }
      }
      LinksAre(Left(m, this), S);
    }

    method JoinKids(parent: Node?, ghost S: set<Node>)
      requires this in S && (parent != null ==> parent in S && (parent.kids != null ==> parent.kids in S))
      requires parent != this
      modifies S`parent, S`kids, S`prev, S`next, S`pos
      ensures LinksOf(S) == Joined(old(LinksOf(S)), this, parent)
    {
      if parent == null {
        ghost var m := LinksOf(S);
        this.parent := null;
        next := null;
        prev := null;
        LinksAre(Joined(m, this, null), S);
      } else {
        BecomeFirst(parent, S);
      }
    }

    method BecomeFirst(parent: Node, ghost S: set<Node>)
      requires this in S && parent in S && (parent.kids != null ==> parent.kids in S) && parent != this
      modifies S`parent, S`kids, S`prev, S`next, S`pos
      ensures LinksOf(S) == Joined(old(LinksOf(S)), this, parent)
    {
      ghost var m := LinksOf(S);
      this.parent := parent;
      next := parent.kids;
      prev := null;
      pos := if next == null then 0 else next.pos - 1;
      if next != null {
        next.prev := this;
      }
      parent.kids := this;
      forall x | x in S ensures Joined(m, this, parent)[x] == Link(x.parent, x.kids, x.prev, x.next, x.pos) {
        JoinedAt(m, this, parent, x);
      }
      LinksAre(Joined(m, this, parent), S);
    }

    method AddSubtreeBytes(b: int, ghost S: set<Node>, ghost d: Data, ghost W: set<Flow>) returns (ghost e: Data)
      requires this in S && DataOf(S) == d
      modifies this`subtreeBytes
      ensures e == d[this := d[this].(subtreeBytes := d[this].subtreeBytes + b)] && DataOf(S) == e
      ensures WindowsOf(W) == old(WindowsOf(W)) && LinksOf(S) == old(LinksOf(S))
    {
      subtreeBytes := subtreeBytes + b;
      e := d[this := d[this].(subtreeBytes := d[this].subtreeBytes + b)];
    }

    method SetQueue(q: seq<FrameWriteRequest>, ghost S: set<Node>, ghost d: Data, ghost W: set<Flow>)
      returns (ghost e: Data)
      requires this in S && DataOf(S) == d
      modifies this`q
      ensures e == d[this := d[this].(q := q)] && DataOf(S) == e
      ensures WindowsOf(W) == old(WindowsOf(W)) && LinksOf(S) == old(LinksOf(S))
    {
      this.q := q;
      e := d[this := d[this].(q := q)];
    }

    method SetState(state: NodeState, ghost S: set<Node>, ghost d: Data, ghost W: set<Flow>) returns (ghost e: Data)
      requires this in S && DataOf(S) == d
      modifies this`state
      ensures e == d[this := d[this].(state := state)] && DataOf(S) == e
      ensures WindowsOf(W) == old(WindowsOf(W)) && LinksOf(S) == old(LinksOf(S))
    {
      this.state := state;
      e := d[this := d[this].(state := state)];
    }

    method SetWeight(weight: nat, ghost S: set<Node>, ghost d: Data, ghost W: set<Flow>) returns (ghost e: Data)
      requires this in S && DataOf(S) == d
      modifies this`weight
      ensures e == d[this := d[this].(weight := weight)] && DataOf(S) == e
      ensures WindowsOf(W) == old(WindowsOf(W)) && LinksOf(S) == old(LinksOf(S))
    {
      this.weight := weight;
      e := d[this := d[this].(weight := weight)];
    }

    method AddOwnBytes(b: int, ghost S: set<Node>, ghost d: Data, ghost W: set<Flow>) returns (ghost e: Data)
      requires this in S && DataOf(S) == d
      modifies this`bytes
      ensures e == d[this := d[this].(bytes := d[this].bytes + b)] && DataOf(S) == e
      ensures WindowsOf(W) == old(WindowsOf(W)) && LinksOf(S) == old(LinksOf(S))
    {
      bytes := bytes + b;
      e := d[this := d[this].(bytes := d[this].bytes + b)];
    }

    /** Moves the node to the front of the kids of parent, or out of the tree. The source panics on parent == this. */
    method SetParent(parent: Node?, ghost S: set<Node>)
      requires Linked(LinksOf(S)) && this in S && (parent != null ==> parent in S) && parent != this
      requires this.parent != this
      modifies S`parent, S`kids, S`prev, S`next, S`pos
      ensures var m := old(LinksOf(S));
              && Mirrored(m, this) && (parent != null ==> Mirrored(m, parent))
              && LinksOf(S) == Reparented(m, this, parent) && Linked(LinksOf(S))
    {
      ghost var m := LinksOf(S);
      assert Mirrored(m, this) && (parent != null ==> Mirrored(m, parent));
      ReparentedLinked(m, this, parent);
      if this.parent == parent {
        return;
      }
      LeaveSiblings(S);
      assert parent != null ==> LinksOf(S)[parent].kids != null ==> LinksOf(S)[parent].kids in S;
      JoinKids(parent, S);
    }
  }

  ghost predicate AreLinks(m: Links, S: set<Node>)
    reads S`parent, S`kids, S`prev, S`next, S`pos
  {
    m.Keys == S && forall n {:trigger m[n]} :: n in S ==> m[n] == Link(n.parent, n.kids, n.prev, n.next, n.pos)
  }

  ghost function LinksOf(S: set<Node>): (m: Links)
    reads S`parent, S`kids, S`prev, S`next, S`pos
    ensures m.Keys == S && AreLinks(m, S)
  {
    assert AreLinks(map n | n in S :: Link(n.parent, n.kids, n.prev, n.next, n.pos), S);
    var m :| AreLinks(m, S);
    m
  }

  lemma LinksAre(m: Links, S: set<Node>)
    requires AreLinks(m, S)
    ensures LinksOf(S) == m
  {
  }

  /** Everything a node holds besides its links. */
  datatype NodeData = NodeData(q: seq<FrameWriteRequest>, weight: nat, state: NodeState, bytes: int, subtreeBytes: int)

  type Data = map<Node, NodeData>

  ghost predicate AreData(m: Data, S: set<Node>)
    reads S`q, S`weight, S`state, S`bytes, S`subtreeBytes
  {
    && m.Keys == S
    && forall n {:trigger m[n]} :: n in S ==> m[n] == NodeData(n.q, n.weight, n.state, n.bytes, n.subtreeBytes)
  }

  ghost function DataOf(S: set<Node>): (m: Data)
    reads S`q, S`weight, S`state, S`bytes, S`subtreeBytes
    ensures m.Keys == S && AreData(m, S)
  {
    assert AreData(map n | n in S :: NodeData(n.q, n.weight, n.state, n.bytes, n.subtreeBytes), S);
    var m :| AreData(m, S);
    m
  }
}
