/** The priority write scheduler: walking the tree for the next frame, opening, closing and reprioritizing streams. */
module PriorityScheduler {
  import opened Basics
  import opened FlowControl
  import opened WriteQueues
  import opened StreamTree
  import opened PriorityNodes
  import opened PriorityTree
  import opened PrioritySort
  import opened PriorityWalk
  import opened PriorityEviction
  import opened PriorityUpdates
  import opened PrioritySums
  import opened Sums

  const DEFAULT_WEIGHT: nat := 15

  /** The write throttle never falls to zero, so it never blocks a stream by itself. */
  type Limit = x: int32 | x > 0 witness 1

  /** How the out-of-order throttle moves when a frame is written. */
  function NextThrottle(limit: Limit, openParent: bool, enabled: bool): (r: Limit)
    ensures openParent ==> r == if limit + 1024 > MAX_INT32 then MAX_INT32 else limit + 1024
  {
    if openParent then
      var l := Wrap32(limit + 1024);
      if l < 0 then MAX_INT32 else l
    else if enabled then 1024 else limit
  }

  lemma {:induction false} MaxRank(rank: map<nat, nat>, s: set<nat>) returns (hi: nat)
    ensures forall i :: i in s ==> RankOf(rank, i) <= hi
    decreases s
  {
    hi := 0;
    if s != {} {
      var i :| i in s;
      var h := MaxRank(rank, s - {i});
      hi := if RankOf(rank, i) > h then RankOf(rank, i) else h;
    }
  }

  lemma SingletonTree(w: World, r: Node)
    requires w.nodes == map[0 := r] && r.id == 0 && w.m.Keys == {r} == w.d.Keys && w.rank == map[]
    requires w.m[r] == Link(null, null, null, null, w.m[r].pos)
    requires w.d[r].q == [] && w.d[r].bytes == 0 && w.d[r].subtreeBytes == 0
    ensures Good(w, w.F.Keys) && TrueSums(w)
  {
    AncestorSelf(Par(w), 0);
    var s: set<Node> := SubtreeOf(w, r);
    assert s == {r};
    SumSplit<Node>(BytesOf(w.d), s, r);
    assert s - {r} == {};
  }

  /** What a walk from the root comes to: every node lies below it. */
  ghost predicate IsPop(w: World, root: Node, ok: bool, at: Node, wr: FrameWriteRequest, last: bool, visited: seq<Node>,
                        w': World) {
    forall f {:trigger PopPart(w, root, ok, at, wr, last, visited, w', f)} ::
      PopPart(w, root, ok, at, wr, last, visited, w', f)
  }

  /** What is taken, and which nodes are asked. */
  datatype PopFold = Taking | Asking

  ghost predicate PopPart(w: World, root: Node, ok: bool, at: Node, wr: FrameWriteRequest, last: bool,
                          visited: seq<Node>, w': World, f: PopFold) {
    match f
    case Taking =>
      && (if ok then Found(w, root, at, wr, last, w') else Nothing(w, root, w'))
      && (!ok <==> forall x :: x in w.d ==> Exhausted(w.d[x].q, w.F))
      && Par(w') == Par(w)
    case Asking =>
      && VisitedOnce(w, root, visited)
      && (if ok then EndsAt(w, at, visited) && ParentsFirst(w, root, at)
          else forall x :: x in w.d && w.d[x].q != [] ==> x in visited)
  }

  lemma WholeTree(w: World, root: Node, ok: bool, at: Node, wr: FrameWriteRequest, last: bool, visited: seq<Node>,
                  w': World)
    requires TreeShaped(w.nodes, w.m, w.rank) && w.d.Keys == w.m.Keys && root in w.m && root.id == 0
    requires if ok then Found(w, root, at, wr, last, w') else Nothing(w, root, w')
    requires Walked(w, root, ok, at, visited)
    ensures IsPop(w, root, ok, at, wr, last, visited, w')
  {
    ReorderedPar(w, root, w'.m);
    forall x | x in w.d ensures Ancestor(Par(w), 0, x.id) {
      ParentAt(w.nodes, w.m, x);
      ReachesRoot(Par(w), w.rank, x.id, RankOf(w.rank, x.id));
    }
    forall f ensures PopPart(w, root, ok, at, wr, last, visited, w', f) {
    }
  }

  /** Which node has to go to make room for one more in a list of at most maxSize. */
  function Victim(list: seq<Node>, maxSize: int): Option<Node> {
    if maxSize != 0 && |list| == maxSize then Some(list[0]) else None
  }

  /** A list of closed or idle nodes keeps to its size; a negative size is no limit, as only equality is tested. */
  predicate WithinSize(list: seq<Node>, maxSize: int) {
    maxSize >= 0 ==> |list| <= maxSize
  }

  /** addClosedOrIdleNode on the list alone: n is remembered, in place of the victim if there is one. */
  function Remembered(list: seq<Node>, maxSize: int, n: Node): (r: seq<Node>)
    ensures WithinSize(list, maxSize) ==> WithinSize(r, maxSize)
    ensures maxSize != 0 ==> r != [] && r[|r| - 1] == n && (Victim(list, maxSize) == None ==> r == list + [n])
    ensures forall x :: x in r ==> x in list || x == n
  {
    if maxSize == 0 then list
    else (if Victim(list, maxSize).Some? then list[1..] else list) + [n]
  }

  /** Discarding the node leaves a tree: it is in the tree, is not the root, and has at most one kid. */
  ghost predicate Discardable(w: World, victim: Option<Node>) {
    victim.Some? ==> victim.value in w.m && victim.value.id != 0 && AtMostOneKid(w.m, victim.value)
  }

  /** Which node CloseStream takes out of the tree. */
  function ClosingVictim(closed: seq<Node>, maxClosed: int, n: Node): Option<Node> {
    if maxClosed > 0 then Victim(closed, maxClosed) else Some(n)
  }

  /** w' is w without the victim, whose kid has taken its place. */
  ghost predicate IsDiscarded(w: World, victim: Option<Node>, w': World) {
    match victim
    case None => w' == w
    case Some(v) =>
      && v.id in Par(w) && Par(w') == Spliced(Par(w), v.id)
      && w'.nodes == w.nodes - {v.id} && w'.m.Keys == w.m.Keys - {v} && w'.d == w.d - {v} && w'.F == w.F
  }

  /** w' is w with a node for the idle stream id under the root. */
  ghost predicate IsAdded(w: World, id: nat, w': World) {
    && id in w'.nodes && w'.nodes[id].id == id && w'.nodes == w.nodes[id := w'.nodes[id]]
    && w'.m.Keys == w.m.Keys + {w'.nodes[id]}
    && Par(w') == Par(w)[id := 0] && w'.F == w.F
    && w'.d == w.d[w'.nodes[id] := NodeData([], DEFAULT_WEIGHT, Idle, 0, 0)]
  }

  /** The node added for a stream goes to the end of the list of idle nodes. */
  ghost predicate IsListed(list: seq<Node>, maxSize: int, w: World, id: nat, list': seq<Node>) {
    id in w.nodes && list' == Remembered(list, maxSize, w.nodes[id])
  }

  /** The data once the stream of n has been told to depend on dep with the given weight. */
  ghost function Reweighted(w: World, n: Node, dep: nat, weight: nat): Data
    requires n in w.d
  {
    w.d[n := w.d[n].(weight := AdjustedWeight(dep in w.nodes, dep == n.id, w.d[n].weight, weight, DEFAULT_WEIGHT))]
  }

  /** w' is w with stream id depending on dep as RFC 7540 says, on the same nodes, with the weight given to it. */
  ghost predicate IsAdjusted(w: World, id: nat, dep: nat, exclusive: bool, weight: nat, w': World) {
    && id in Par(w) && Par(w') == Adjusted(Par(w), id, dep, exclusive)
    && w'.nodes == w.nodes && w'.m.Keys == w.m.Keys && w'.F == w.F
    && id in w.nodes && w.nodes[id] in w.d && w'.d == Reweighted(w, w.nodes[id], dep, weight)
  }

  lemma AddedStays(w: World, id: nat, w0: World, victim: Option<Node>, w': World)
    requires IsAdded(w, id, w0) && IsDiscarded(w0, victim, w') && (victim.Some? ==> victim.value.id != id)
    ensures id in w'.nodes && w'.m.Keys <= w.m.Keys + {w0.nodes[id]}
  {
  }

  lemma AddedKeepsDiscardable(w: World, id: nat, w': World, victim: Option<Node>, W: set<Flow>)
    requires Good(w, W) && Good(w', W) && IsAdded(w, id, w') && Discardable(w, victim)
    ensures Discardable(w', victim)
  {
    if victim.Some? {
      var v := victim.value;
      ParentAt(w.nodes, w.m, v);
      forall x | x in w'.m && w'.m[x].parent == v ensures x in w.m && w.m[x].parent == v {
        ParentAt(w'.nodes, w'.m, x);
        if x in w.m {
          ParentAt(w.nodes, w.m, x);
          if x.id != 0 {
            ParentAt(w.nodes, w.m, w.m[x].parent);
          }
        }
      }
    }
  }

  /** w' is w with wr at the end of the queue of n. */
  ghost predicate IsPushed(w: World, n: Node, wr: FrameWriteRequest, w': World) {
    n in w.d && w' == w.(d := w.d[n := w.d[n].(q := w.d[n].q + [wr])], F := w'.F) && w.F.Keys <= w'.F.Keys
  }

  lemma PushKeepsGood(w: World, n: Node, wr: FrameWriteRequest, w': World)
    requires Good(w, w.F.Keys) && IsPushed(w, n, wr, w') && wr.Valid() && wr.Windows() <= w'.F.Keys
    ensures Good(w', w'.F.Keys)
  {
    forall x | x in w'.d ensures AllValid(w'.d[x].q) && Covers(w'.F.Keys, w'.d[x].q) {
      assert AllValid(w.d[x].q) && Covers(w.F.Keys, w.d[x].q);
    }
  }

  lemma OpenKeepsGood(w: World, n: Node, W: set<Flow>)
    requires Good(w, W) && n in w.m
    ensures var w' := w.(d := w.d[n := w.d[n].(state := Open)]); Good(w', W) && Par(w') == Par(w)
  {
  }

  lemma ShutKeepsSums(w: World, n: Node, w': World)
    requires IsShut(w, n, w') && TrueSums(w)
    ensures TrueSums(w')
  {
    GrowKeepsSums(w, n, -w.d[n].bytes, w');
  }

  // The invariant of the tree is kept folded: what only passes it on does not see its quantifiers.

  datatype Fold = Folded

  ghost predicate SoundAt(w: World, f: Fold) {
    Good(w, w.F.Keys) && 0 in w.nodes
  }

  ghost predicate Sound(w: World) {
    forall f {:trigger SoundAt(w, f)} :: SoundAt(w, f)
  }

  lemma Unfold(w: World)
    requires Sound(w)
    ensures Good(w, w.F.Keys)
  {
    assert SoundAt(w, Folded);
  }

  lemma Refold(w: World)
    requires Good(w, w.F.Keys) && 0 in w.nodes
    ensures Sound(w)
  {
  }

  lemma InTree(w: World, id: nat)
    requires Sound(w) && id in w.nodes
    ensures w.nodes[id] in w.m && w.nodes[id] in w.d && w.nodes[id].id == id && (id != 0 ==> id in Par(w))
  {
    Unfold(w);
    ParentAt(w.nodes, w.m, w.nodes[id]);
  }

  lemma NodeInTree(w: World, n: Node)
    requires Sound(w) && n in w.m
    ensures n.id in w.nodes && w.nodes[n.id] == n && n in w.d
  {
    Unfold(w);
  }

  ghost predicate RankAtMost(w: World, hi: nat, i: nat) {
    i in w.nodes ==> RankOf(w.rank, i) <= hi
  }

  /** No rank exceeds hi, so that a walk downwards ends. */
  ghost predicate Capped(w: World, hi: nat) {
    forall i {:trigger RankAtMost(w, hi, i)} :: RankAtMost(w, hi, i)
  }

  lemma CappedElsewhere(w: World, w': World, hi: nat)
    requires Capped(w, hi) && w'.nodes == w.nodes && w'.rank == w.rank
    ensures Capped(w', hi)
  {
    forall i ensures RankAtMost(w', hi, i) {
      assert RankAtMost(w, hi, i);
    }
  }

  datatype AskFacet = Answer | Yield

  ghost predicate AskPart(w: World, W: set<Flow>, n: Node, ok: bool, wr: FrameWriteRequest, last: bool, w': World,
                          f: AskFacet)
  {
    match f
    case Answer => Good(w', W) && (!ok ==> w' == w) && n in w.d && (ok <==> !Exhausted(w.d[n].q, w.F))
    case Yield => ok ==> Found(w, n, n, wr, last, w')
  }

  /** n was asked for a frame: it gave one, unless its queue was exhausted. */
  ghost predicate IsAsked(w: World, W: set<Flow>, n: Node, ok: bool, wr: FrameWriteRequest, last: bool, w': World) {
    forall f {:trigger AskPart(w, W, n, ok, wr, last, w', f)} :: AskPart(w, W, n, ok, wr, last, w', f)
  }

  lemma AskedHow(w: World, W: set<Flow>, n: Node, ok: bool, wr: FrameWriteRequest, last: bool, w': World)
    requires Good(w', W) && (!ok ==> w' == w) && n in w.d && (ok <==> !Exhausted(w.d[n].q, w.F))
    requires ok ==> Found(w, n, n, wr, last, w')
    ensures IsAsked(w, W, n, ok, wr, last, w')
  {
  }

  /** The tree of a new scheduler. */
  ghost function Alone(r: Node): World
    reads r
  {
    World(map[0 := r], map[], LinksOf({r}), DataOf({r}), map[])
  }

  lemma RootAlone(r: Node)
    requires r.id == 0 && r.parent == null && r.kids == null && r.prev == null && r.next == null
    requires r.q == [] && r.bytes == 0 && r.subtreeBytes == 0
    ensures var w := Alone(r);
      && Holds(w, w.F.Keys) && Sound(w) && TrueSums(w)
      && w.m.Keys == {r} && r in w.d && w.d[r].q == []
  {
    SingletonTree(Alone(r), r);
    Refold(Alone(r));
  }

  class Scheduler {
    const root: Node
    var nodes: map<nat, Node>
    var maxID: nat
    var closedNodes: seq<Node>
    var idleNodes: seq<Node>
    const maxClosedNodesInTree: int
    const maxIdleNodesInTree: int
    var writeThrottleLimit: Limit
    const enableWriteThrottle: bool
    const tmp: Scratch
    ghost var view: World  // the tree, its queues and counts, and the windows queued frames draw on
    ghost var visits: seq<Node>  // every node ever asked for a frame, in order

    /** The nodes are a tree rooted at stream 0 with consistent links, and every queued frame is well formed. */
    ghost predicate Valid()
      reads this`nodes, this`maxID, this`view, this`idleNodes, this`closedNodes, view.m.Keys, view.F.Keys
    {
      && WithinSize(idleNodes, maxIdleNodesInTree) && WithinSize(closedNodes, maxClosedNodesInTree)
      && Holds(view, view.F.Keys) && Sound(view)
      && view.nodes == nodes && 0 in nodes && nodes[0] == root
      && forall i :: i in nodes ==> i <= maxID
    }

    /** Sets the scheduler's own fields to a new state of the tree. */
    method Install(nodes': map<nat, Node>, maxID': nat, ghost w': World)
      requires Holds(w', w'.F.Keys) && Sound(w') && w'.nodes == nodes' && 0 in nodes' && nodes'[0] == root
      requires forall i :: i in nodes' ==> i <= maxID'
      requires WithinSize(idleNodes, maxIdleNodesInTree) && WithinSize(closedNodes, maxClosedNodesInTree)
      modifies this`nodes, this`maxID, this`view
      ensures nodes == nodes' && maxID == maxID' && view == w' && Valid()
    {
      nodes, maxID, view := nodes', maxID', w';
    }

    constructor (maxClosed: int, maxIdle: int, throttle: bool)
      ensures Valid() && nodes.Keys == {0} && TrueSums(view) && root in view.d && view.d[root].q == []
      ensures fresh(view.m.Keys) && fresh(tmp) && view.F.Keys == {} && closedNodes == [] == idleNodes
      ensures maxClosedNodesInTree == maxClosed && maxIdleNodesInTree == maxIdle && maxID == 0
    {
      var r := new Node(0, 0, Open);
      root := r;
      nodes := map[0 := r];
      maxID := 0;
      closedNodes, idleNodes := [], [];
      tmp := new Scratch();
      maxClosedNodesInTree, maxIdleNodesInTree, enableWriteThrottle := maxClosed, maxIdle, throttle;
      writeThrottleLimit := if throttle then 1024 else MAX_INT32;
      visits := [];
      view := World(map[], map[], map[], map[], map[]);
      new;
      RootAlone(r);
      Install(nodes, maxID, Alone(r));
    }

    /** What the walk does at a node with frames: take from its queue and account for the bytes. */
    method Visit(n: Node, openParent: bool, ghost w: World, ghost W: set<Flow>, ghost asked: seq<Node>)
      returns (ok: bool, wr: FrameWriteRequest, ghost last: bool, ghost w': World)
      requires Holds(w, W) && Good(w, W) && n in w.m && visits == asked
      modifies this`writeThrottleLimit, this`visits, n`q, n`bytes, w.m.Keys`subtreeBytes, W
      ensures Holds(w', W) && IsAsked(w, W, n, ok, wr, last, w') && visits == asked + [n]
      ensures !ok ==> writeThrottleLimit == old(writeThrottleLimit)
      ensures ok ==> writeThrottleLimit == NextThrottle(old(writeThrottleLimit), openParent, enableWriteThrottle)
      ensures ok && openParent ==> wr.DataSize() <= old(writeThrottleLimit)
    {
      Note(n, w, W, asked);
      ok, wr, last, w' := Ask(n, openParent, w, W);
    }

    /** The only place where a visit is recorded. */
    ghost method Note(n: Node, w: World, W: set<Flow>, asked: seq<Node>)
      requires Holds(w, W) && visits == asked
      modifies this`visits
      ensures Holds(w, W) && visits == asked + [n]
    {
      visits := visits + [n];
    }

    method Ask(n: Node, openParent: bool, ghost w: World, ghost W: set<Flow>)
      returns (ok: bool, wr: FrameWriteRequest, ghost last: bool, ghost w': World)
      requires Holds(w, W) && Good(w, W) && n in w.m
      modifies this`writeThrottleLimit, n`q, n`bytes, w.m.Keys`subtreeBytes, W
      ensures Holds(w', W) && IsAsked(w, W, n, ok, wr, last, w')
      ensures !ok ==> writeThrottleLimit == old(writeThrottleLimit)
      ensures ok ==> writeThrottleLimit == NextThrottle(old(writeThrottleLimit), openParent, enableWriteThrottle)
      ensures ok && openParent ==> wr.DataSize() <= old(writeThrottleLimit)
    {
      assert AllValid(w.d[n].q) && Covers(W, w.d[n].q);
      AncestorSelf(Par(w), n.id);
      var limit: int32 := MAX_INT32;
      if openParent {
        limit := writeThrottleLimit;
      }
      ghost var e, F';
      ok, wr, last, e, F' := TakeAt(n, limit, w.nodes, w.m, w.rank, W, w.d, w.F);
      w' := w.(d := e, F := F');
      if ok {
        TakenKeepsQueues(Par(w), w.d, n, wr, last, e, W);
        UpdateThrottle(openParent, w.m.Keys, W);
      }
      AskedHow(w, W, n, ok, wr, last, w');
    }

    method UpdateThrottle(openParent: bool, ghost S: set<Node>, ghost W: set<Flow>)
      modifies this`writeThrottleLimit
      ensures DataOf(S) == old(DataOf(S)) && LinksOf(S) == old(LinksOf(S)) && WindowsOf(W) == old(WindowsOf(W))
      ensures writeThrottleLimit == NextThrottle(old(writeThrottleLimit), openParent, enableWriteThrottle)
    {
      if openParent {
        var limit := Wrap32(writeThrottleLimit + 1024);
        if limit < 0 {
          limit := MAX_INT32;
        }
        writeThrottleLimit := limit;
      } else if enableWriteThrottle {
        writeThrottleLimit := 1024;
      }
    }

    /** Whether the kids of n differ in weight. */
    method NeedSort(n: Node, ghost m: Links) returns (needSort: bool)
      requires LinksOf(m.Keys) == m && Linked(m) && n in m && n.kids != null
      ensures needSort <==> exists x :: x in m && m[x].parent == n && x.weight != n.kids.weight
    {
      assert Mirrored(m, n);
      assert Mirrored(m, n.kids);
      var w := n.kids.weight;
      var k := n.kids.next;
      FromShrinks(m, n, n.kids);
      FromFirst(m, n);
      while k != null
        invariant k != null ==> k in m && m[k].parent == n
        invariant forall x :: x in m && m[x].parent == n && x !in From(m, n, k) ==> x.weight == w
        decreases From(m, n, k)
      {
        assert Mirrored(m, k) && k.next == LinksOf(m.Keys)[k].next;
        if k.weight != w {
          return true;
        }
        FromShrinks(m, n, k);
        k := k.next;
      }
      return false;
    }

    /** Sorts the kids of n. */
    method Reorder(n: Node, ghost w: World, ghost W: set<Flow>) returns (ghost w': World)
      requires Holds(w, W) && Good(w, W) && n in w.m
      modifies tmp, w.m.Keys`parent, w.m.Keys`kids, w.m.Keys`prev, w.m.Keys`next, w.m.Keys`pos
      ensures Holds(w', W) && Good(w', W) && w' == w.(m := w'.m) && Reordered(w, n, w'.m)
    {
      ParentAt(w.nodes, w.m, n);
      ghost var m' := SortOnly(n, tmp, w.m, W);
      SameParentsTree(w.nodes, w.m, w.rank, m');
      SortedSameAbove(w.nodes, w.m, w.rank, n, m');
      w' := w.(m := m');
    }

    /** One round of WalkKids; us are the nodes asked in it. */
    method WalkKid(n: Node, k: Node, openParent: bool, ghost hi: nat, ghost w: World, ghost W: set<Flow>,
                   ghost wc: World, ghost vs: seq<Node>, ghost asked: seq<Node>)
      returns (ok: bool, wr: FrameWriteRequest, next: Node?, ghost last: bool, ghost at: Node, ghost us: seq<Node>,
               ghost w': World)
      requires Good(w, W) && n in w.m && visits == asked
      requires wc == w.(m := wc.m) && Holds(wc, W) && KidsWalked(w, n, k, wc.m, vs)
      requires Capped(w, hi)
      modifies this`writeThrottleLimit, this`visits, tmp, w.m.Keys, W
      decreases hi - RankOf(w.rank, n.id), 0
      ensures Holds(w', W) && Good(w', W) && visits == asked + us
      ensures !ok ==> && w' == w.(m := w'.m) && KidsWalked(w, n, next, w'.m, vs + us)
                      && From(w.m, n, next) < From(w.m, n, k) && writeThrottleLimit == old(writeThrottleLimit)
      ensures ok ==> Found(w, n, at, wr, last, w') && WalkedBelow(w, n, true, at, vs + us)
    {
      ParentAt(w.nodes, w.m, k);
      assert Falls(Par(w), w.rank, k.id);
      assert Good(wc, W) by {
        assert KidsPart(w, n, k, wc.m, vs, Moved);
      }
      CappedElsewhere(w, wc, hi);
      assert RankAtMost(w, hi, k.id) && RankAtMost(w, hi, n.id);
      ok, wr, last, at, us, w' := Walk(k, openParent, hi, wc, W, asked);
      if ok {
        KidsWalkedFound(w, n, k, wc.m, vs, at, wr, last, w');
        KidsWalkedMet(w, n, k, wc.m, vs, at, us);
      } else {
        KidsWalkedStep(w, n, k, wc.m, vs, w', us);
        FromShrinks(w.m, n, k);
        assert k.next == LinksOf(w'.m.Keys)[k].next;
      }
      next := k.next;
    }

    method WalkKids(n: Node, openParent: bool, ghost hi: nat, ghost w: World, ghost W: set<Flow>,
                    ghost asked: seq<Node>)
      returns (ok: bool, wr: FrameWriteRequest, ghost last: bool, ghost at: Node, ghost visited: seq<Node>,
               ghost w': World)
      requires Holds(w, W) && Good(w, W) && visits == asked
      requires n in w.m && Exhausted(w.d[n].q, w.F)
      requires Capped(w, hi)
      modifies this`writeThrottleLimit, this`visits, tmp, w.m.Keys, W
      decreases hi - RankOf(w.rank, n.id), 1
      ensures Holds(w', W) && Good(w', W) && visits == asked + visited
      ensures !ok ==> Nothing(w, n, w') && writeThrottleLimit == old(writeThrottleLimit)
      ensures ok ==> Found(w, n, at, wr, last, w')
      ensures WalkedBelow(w, n, ok, at, visited)
    {
      ok, wr, last, at, visited, w' := false, FrameWriteRequest(Other(0), null, None), false, n, [], w;
      KidsWalkedStarts(w, n);
      assert asked + [] == asked;
      var k := n.kids;
      while k != null
        invariant w' == w.(m := w'.m) && Holds(w', W) && !ok
        invariant writeThrottleLimit == old(writeThrottleLimit) && visits == asked + visited
        invariant KidsWalked(w, n, k, w'.m, visited)
        decreases From(w.m, n, k)
      {
        var next;
        ghost var us;
        ok, wr, next, last, at, us, w' := WalkKid(n, k, openParent, hi, w, W, w', visited, asked + visited);
        Reassociate(asked, visited, us);
        visited := visited + us;
        if ok {
          return;
        }
        k := next;
      }
      KidsWalkedEnds(w, n, w'.m, visited);
      at := n;
    }

    /** Walks the kids of n in order, sorting them first if their weights differ. */
    method WalkBelow(n: Node, openParent: bool, ghost hi: nat, ghost w: World, ghost W: set<Flow>,
                     ghost asked: seq<Node>)
      returns (ok: bool, wr: FrameWriteRequest, ghost last: bool, ghost at: Node, ghost visited: seq<Node>,
               ghost w': World)
      requires Holds(w, W) && Good(w, W) && visits == asked
      requires n in w.m && Exhausted(w.d[n].q, w.F)
      requires Capped(w, hi)
      modifies this`writeThrottleLimit, this`visits, tmp, w.m.Keys, W
      decreases hi - RankOf(w.rank, n.id), 2
      ensures Holds(w', W) && Good(w', W) && visits == asked + visited
      ensures !ok ==> Nothing(w, n, w') && writeThrottleLimit == old(writeThrottleLimit)
      ensures ok ==> Found(w, n, at, wr, last, w')
      ensures WalkedBelow(w, n, ok, at, visited)
    {
      ghost var w1 := SortIfNeeded(n, w, W);
      CappedElsewhere(w, w1, hi);
      ok, wr, last, at, visited, w' := WalkKids(n, openParent, hi, w1, W, asked);
      AfterReorder(w, n, w1, ok, at, wr, last, w', visited);
    }

    method SortIfNeeded(n: Node, ghost w: World, ghost W: set<Flow>) returns (ghost w': World)
      requires Holds(w, W) && Good(w, W) && n in w.m
      modifies tmp, w.m.Keys`parent, w.m.Keys`kids, w.m.Keys`prev, w.m.Keys`next, w.m.Keys`pos
      ensures Holds(w', W) && Good(w', W) && w' == w.(m := w'.m) && Reordered(w, n, w'.m)
    {
      w' := w;
      if n.kids != null {
        var needSort := NeedSort(n, w.m);
        if needSort {
          w' := Reorder(n, w, W);
        }
      }
    }

    /** The node itself comes first, if it has frames. */
    method VisitFirst(n: Node, openParent: bool, ghost w: World, ghost W: set<Flow>, ghost asked: seq<Node>)
      returns (ok: bool, wr: FrameWriteRequest, ghost last: bool, ghost first: seq<Node>, ghost w': World)
      requires Holds(w, W) && Good(w, W) && n in w.m && visits == asked
      modifies this`writeThrottleLimit, this`visits, n`q, n`bytes, w.m.Keys`subtreeBytes, W
      ensures Holds(w', W) && Good(w', W) && visits == asked + first && first == if w.d[n].q == [] then [] else [n]
      ensures !ok ==> w' == w && Exhausted(w.d[n].q, w.F) && writeThrottleLimit == old(writeThrottleLimit)
      ensures ok ==> w.d[n].q != [] && Found(w, n, n, wr, last, w')
    {
      assert n.q == DataOf(w.m.Keys)[n].q;
      ok, wr, last, first, w' := false, FrameWriteRequest(Other(0), null, None), false, [], w;
      assert asked + [] == asked;
      if n.q != [] {
        ok, wr, last, w' := Visit(n, openParent, w, W, asked);
        assert AskPart(w, W, n, ok, wr, last, w', Answer) && AskPart(w, W, n, ok, wr, last, w', Yield);
        first := [n];
      }
    }

    /** Walks the subtree of n in priority order until some node gives up a frame. */
    method Walk(n: Node, openParent: bool, ghost hi: nat, ghost w: World, ghost W: set<Flow>, ghost asked: seq<Node>)
      returns (ok: bool, wr: FrameWriteRequest, ghost last: bool, ghost at: Node, ghost visited: seq<Node>,
               ghost w': World)
      requires Holds(w, W) && Good(w, W) && visits == asked
      requires n in w.m
      requires Capped(w, hi)
      modifies this`writeThrottleLimit, this`visits, tmp, w.m.Keys, W
      decreases hi - RankOf(w.rank, n.id), 3
      ensures Holds(w', W) && Good(w', W) && visits == asked + visited
      ensures !ok ==> Nothing(w, n, w') && writeThrottleLimit == old(writeThrottleLimit)
      ensures ok ==> Found(w, n, at, wr, last, w')
      ensures Walked(w, n, ok, at, visited)
    {
      ghost var first;
      ok, wr, last, first, w' := VisitFirst(n, openParent, w, W, asked);
      visited, at := first, n;
      if ok {
        WalkedOne(w, n);
        return;
      }
      var open := openParent;
      if n.id != 0 {
        open := openParent || n.state == Open;
      }
      ok, wr, last, at, visited, w' := WalkBelow(n, open, hi, w, W, asked + first);
      WalkedFrom(w, n, ok, at, visited);
      Reassociate(asked, first, visited);
      visited := first + visited;
    }

    /**
     * The next frame to write. Nothing is returned only when every queue is empty or starts with a DATA frame that
     * has a used-up window; then nothing has changed but the order of siblings. Otherwise one node has given up (a
     * piece of) its first frame, and the windows and byte counts reflect exactly that. The visits made are distinct
     * nodes with frames: all of them if nothing is returned, otherwise some with nothing to give and then the one
     * that gave.
     */
    method Pop()
      returns (wr: FrameWriteRequest, ok: bool, ghost last: bool, ghost at: Node, ghost visited: seq<Node>)
      requires Valid()
      modifies this`nodes, this`maxID, this`view, this`writeThrottleLimit, this`visits, tmp, view.m.Keys, view.F.Keys
      ensures Valid() && nodes == old(nodes) && maxID == old(maxID)
      ensures IsPop(old(view), root, ok, at, wr, last, visited, view) && visits == old(visits) + visited
      ensures view.m.Keys == old(view.m.Keys) && view.F.Keys == old(view.F.Keys)
      ensures TrueSums(old(view)) ==> TrueSums(view)
    {
      var ns, mx := nodes, maxID;
      ghost var w';
      wr, ok, last, at, visited, w' := WalkAll(view, visits);
      Install(ns, mx, w');
    }

    /** The walk of the whole tree. */
    method WalkAll(ghost w: World, ghost asked: seq<Node>)
      returns (wr: FrameWriteRequest, ok: bool, ghost last: bool, ghost at: Node, ghost visited: seq<Node>,
               ghost w': World)
      requires Holds(w, w.F.Keys) && Sound(w) && 0 in w.nodes && w.nodes[0] == root && visits == asked
      modifies this`writeThrottleLimit, this`visits, tmp, w.m.Keys, w.F.Keys
      ensures Holds(w', w'.F.Keys) && Sound(w') && w'.nodes == w.nodes && w'.m.Keys == w.m.Keys && w'.F.Keys == w.F.Keys
      ensures IsPop(w, root, ok, at, wr, last, visited, w') && visits == asked + visited
      ensures TrueSums(w) ==> TrueSums(w')
    {
      Unfold(w);
      ParentAt(w.nodes, w.m, root);
      ghost var hi := MaxRank(w.rank, w.nodes.Keys);
      ok, wr, last, at, visited, w' := Walk(root, false, hi, w, w.F.Keys, asked);
      assert w'.F.Keys == w.F.Keys;
      WholeTree(w, root, ok, at, wr, last, visited, w');
      if TrueSums(w) {
        WalkKeepsSums(w, root, ok, at, wr, last, w');
      }
      Refold(w');
    }

    /** removeNode. With two kids or more the rest of the nodes would not be a tree: see RemoveKeepsTreeIff. */
    method RemoveNode(n: Node)
      requires Valid() && n in view.m && n != root && AtMostOneKid(view.m, n)
      modifies this`nodes, this`maxID, this`view, view.m.Keys`parent, view.m.Keys`kids, view.m.Keys`prev
      modifies view.m.Keys`next, view.m.Keys`pos
      ensures Valid()
      ensures maxID == old(maxID) && nodes == old(nodes) - {n.id} && view.m.Keys == old(view).m.Keys - {n}
      ensures n.id in Par(old(view)) && Par(view) == Spliced(Par(old(view)), n.id)
      ensures view.d == old(view).d - {n} && view.F == old(view).F
    {
      var ns, mx := nodes, maxID;
      ghost var w := view;
      Unfold(w);
      ParentAt(w.nodes, w.m, n);
      ghost var w' := Remove(n, w, w.F.Keys);
      Refold(w');
      Install(ns - {n.id}, mx, w');
    }

    /** Puts a new node for stream id under p. */
    method AddNode(id: nat, state: NodeState, p: Node) returns (n: Node)
      requires Valid() && id !in nodes && p in view.m
      modifies this`nodes, this`maxID, this`view
      modifies view.m.Keys`parent, view.m.Keys`kids, view.m.Keys`prev, view.m.Keys`next, view.m.Keys`pos
      ensures Valid() && fresh(n) && n.id == id && nodes == old(nodes)[id := n]
      ensures maxID == if id > old(maxID) then id else old(maxID)
      ensures view.m.Keys == old(view).m.Keys + {n} && view.F == old(view).F
      ensures view.d == old(view).d[n := NodeData([], DEFAULT_WEIGHT, state, 0, 0)]
      ensures Par(view) == Par(old(view))[id := p.id]
    {
      var ns, mx := nodes, maxID;
      ghost var w';
      n, w' := NewNode(id, state, p, view);
      Install(ns[id := n], if id > mx then id else mx, w');
    }

    method NewNode(id: nat, state: NodeState, p: Node, ghost w: World) returns (n: Node, ghost w': World)
      requires Holds(w, w.F.Keys) && Sound(w) && id !in w.nodes && p in w.m
      modifies w.m.Keys`parent, w.m.Keys`kids, w.m.Keys`prev, w.m.Keys`next, w.m.Keys`pos
      ensures Holds(w', w'.F.Keys) && Sound(w') && fresh(n) && n.id == id && w'.nodes == w.nodes[id := n]
      ensures w'.m.Keys == w.m.Keys + {n} && w'.F == w.F && w'.d == w.d[n := NodeData([], DEFAULT_WEIGHT, state, 0, 0)]
      ensures Par(w') == Par(w)[id := p.id]
    {
      Unfold(w);
      n, w' := InsertNew(id, DEFAULT_WEIGHT, state, p, w, w.F.Keys);
      Refold(w');
    }

    /** The source panics when the stream is already open or closed. */
    method OpenStream(streamID: nat, pusherID: nat)
      requires Valid() && (streamID in nodes ==> nodes[streamID].state == Idle)
      modifies this`nodes, this`maxID, this`view, view.m.Keys`state
      modifies view.m.Keys`parent, view.m.Keys`kids, view.m.Keys`prev, view.m.Keys`next, view.m.Keys`pos
      ensures Valid() && view.F == old(view).F && streamID in nodes && fresh(view.m.Keys - old(view.m.Keys))
      ensures maxID == if streamID > old(maxID) then streamID else old(maxID)
      ensures streamID in old(nodes) ==>
                && nodes == old(nodes) && Par(view) == Par(old(view))
                && var n := old(nodes)[streamID];
                   n in old(view).d && view.d == old(view).d[n := old(view).d[n].(state := Open)]
      ensures streamID !in old(nodes) ==>
                && nodes == old(nodes)[streamID := nodes[streamID]]
                && Par(view) == Par(old(view))[streamID := if pusherID in old(nodes) then pusherID else 0]
                && view.d == old(view).d[nodes[streamID] := NodeData([], DEFAULT_WEIGHT, Open, 0, 0)]
    {
      if streamID in nodes {
        InTree(view, streamID);
        Reopen(nodes[streamID]);
        return;
      }
      var parent := if pusherID in nodes then nodes[pusherID] else root;
      InTree(view, if pusherID in nodes then pusherID else 0);
      var _ := AddNode(streamID, Open, parent);
    }

    method Reopen(n: Node)
      requires Valid() && n in view.m
      modifies this`nodes, this`maxID, this`view, n`state
      ensures Valid() && nodes == old(nodes) && maxID == old(maxID)
      ensures view == old(view).(d := old(view).d[n := old(view).d[n].(state := Open)]) && Par(view) == Par(old(view))
    {
      var ns, mx := nodes, maxID;
      ghost var w := view;
      Unfold(w);
      OpenKeepsGood(w, n, w.F.Keys);
      ghost var e := n.SetState(Open, w.m.Keys, w.d, w.F.Keys);
      Refold(w.(d := e));
      Install(ns, mx, w.(d := e));
    }

    /** The source panics on DATA for a stream that has no node. */
    method Push(wr: FrameWriteRequest)
      requires Valid() && wr.Valid() && (wr.StreamID() != 0 && wr.StreamID() !in nodes ==> wr.DataSize() == 0)
      modifies this`nodes, this`maxID, this`view, view.m.Keys`q
      ensures Valid() && nodes == old(nodes) && maxID == old(maxID)
      ensures IsPushed(old(view), if wr.StreamID() in nodes then nodes[wr.StreamID()] else root, wr, view)
      ensures view.F.Keys == old(view.F.Keys) + wr.Windows()
    {
      var n := root;
      if wr.StreamID() != 0 && wr.StreamID() in nodes {
        n := nodes[wr.StreamID()];
      }
      InTree(view, if wr.StreamID() in nodes then wr.StreamID() else 0);
      Put(n, wr);
    }

    method Put(n: Node, wr: FrameWriteRequest)
      requires Valid() && wr.Valid() && n in view.m
      modifies this`nodes, this`maxID, this`view, n`q
      ensures Valid() && nodes == old(nodes) && maxID == old(maxID)
      ensures IsPushed(old(view), n, wr, view) && view.F.Keys == old(view.F.Keys) + wr.Windows()
    {
      var ns, mx := nodes, maxID;
      ghost var w' := PutOnly(n, wr, view);
      Install(ns, mx, w');
    }

    method PutOnly(n: Node, wr: FrameWriteRequest, ghost w: World) returns (ghost w': World)
      requires Holds(w, w.F.Keys) && Sound(w) && wr.Valid() && n in w.m
      modifies n`q
      ensures Holds(w', w'.F.Keys) && Sound(w')
      ensures IsPushed(w, n, wr, w') && w'.F.Keys == w.F.Keys + wr.Windows()
    {
      Unfold(w);
      ghost var W := w.F.Keys + wr.Windows();
      w' := w.(d := w.d[n := w.d[n].(q := w.d[n].q + [wr])], F := WindowsOf(W));
      PushKeepsGood(w, n, wr, w');
      Refold(w');
      assert n.q == DataOf(w.m.Keys)[n].q;
      ghost var e := n.SetQueue(n.q + [wr], w.m.Keys, w.d, W);
    }

    /** Takes the victim, if there is one, out of the tree. */
    method Discard(victim: Option<Node>)
      requires Valid() && Discardable(view, victim)
      modifies this`nodes, this`maxID, this`view, view.m.Keys`parent, view.m.Keys`kids, view.m.Keys`prev
      modifies view.m.Keys`next, view.m.Keys`pos
      ensures Valid() && maxID == old(maxID) && IsDiscarded(old(view), victim, view)
    {
      if victim.Some? {
        NodeInTree(view, victim.value);
        InTree(view, 0);
        RemoveNode(victim.value);
      }
    }

    /** The source panics for stream 0, for an unknown stream and for one that is not open. */
    method CloseStream(streamID: nat) returns (ghost w1: World)
      requires Valid() && streamID != 0 && streamID in nodes && nodes[streamID].state == Open
      requires Discardable(view, ClosingVictim(closedNodes, maxClosedNodesInTree, nodes[streamID]))
      modifies this`nodes, this`maxID, this`view, this`closedNodes, view.m.Keys
      ensures Valid() && IsShut(old(view), old(nodes)[streamID], w1) && view.m.Keys <= old(view.m.Keys)
      ensures maxID == old(maxID)
      ensures closedNodes == if maxClosedNodesInTree > 0
                             then Remembered(old(closedNodes), maxClosedNodesInTree, old(nodes)[streamID])
                             else old(closedNodes)
      ensures IsDiscarded(w1, ClosingVictim(old(closedNodes), maxClosedNodesInTree, old(nodes)[streamID]), view)
      ensures TrueSums(old(view)) && maxClosedNodesInTree > 0 && Victim(old(closedNodes), maxClosedNodesInTree) == None
              ==> TrueSums(view)
    {
      InTree(view, streamID);
      var n := nodes[streamID];
      var victim := Some(n);
      if maxClosedNodesInTree > 0 {
        victim := Victim(closedNodes, maxClosedNodesInTree);
        closedNodes := Remembered(closedNodes, maxClosedNodesInTree, n);
      }
      w1 := ShutAndDiscard(n, victim);
    }

    method ShutAndDiscard(n: Node, victim: Option<Node>) returns (ghost w1: World)
      requires Valid() && n in view.m && Discardable(view, victim)
      modifies this`nodes, this`maxID, this`view, view.m.Keys
      ensures Valid() && IsShut(old(view), n, w1) && IsDiscarded(w1, victim, view) && view.m.Keys <= old(view.m.Keys)
      ensures maxID == old(maxID)
      ensures TrueSums(old(view)) && victim == None ==> TrueSums(view)
    {
      w1 := ShutNode(n);
      Discard(victim);
    }

    method ShutNode(n: Node) returns (ghost w1: World)
      requires Valid() && n in view.m
      modifies this`nodes, this`maxID, this`view, n`state, n`q, n`bytes, view.m.Keys`subtreeBytes
      ensures Valid() && nodes == old(nodes) && maxID == old(maxID)
      ensures view == w1 && IsShut(old(view), n, w1) && w1.m == old(view).m && (TrueSums(old(view)) ==> TrueSums(w1))
    {
      var ns, mx := nodes, maxID;
      ghost var w := view;
      Unfold(w);
      w1 := Shut(n, w, w.F.Keys);
      if TrueSums(w) {
        ShutKeepsSums(w, n, w1);
      }
      Refold(w1);
      Install(ns, mx, w1);
    }

    /**
     * PRIORITY information for a stream. A stream without a node that may still become open gets one, at the risk of
     * discarding an older idle one. For a stream with a node the tree changes as RFC 7540, section 5.3, says.
     */
    method AdjustStream(streamID: nat, dep: nat, exclusive: bool, weight: nat)
      returns (ghost w0: World, ghost w1: World)
      requires Valid() && streamID != 0
      requires streamID in nodes || streamID <= maxID || Discardable(view, Victim(idleNodes, maxIdleNodesInTree))
      modifies this`nodes, this`maxID, this`view, this`idleNodes, view.m.Keys
      ensures Valid() && view.F == old(view).F && fresh(view.m.Keys - old(view.m.Keys))
      ensures if streamID in old(nodes) || streamID <= old(maxID) || maxIdleNodesInTree == 0
              then maxID == old(maxID) && idleNodes == old(idleNodes)
              else maxID == streamID && IsListed(old(idleNodes), maxIdleNodesInTree, w0, streamID, idleNodes)
      ensures if streamID in old(nodes) then w1 == old(view) && IsAdjusted(w1, streamID, dep, exclusive, weight, view)
              else if streamID <= old(maxID) || maxIdleNodesInTree == 0 then view == old(view) && nodes == old(nodes)
              else && IsAdded(old(view), streamID, w0)
                   && IsDiscarded(w0, Victim(old(idleNodes), maxIdleNodesInTree), w1)
                   && IsAdjusted(w1, streamID, dep, exclusive, weight, view)
    {
      w0, w1 := view, view;
      if streamID in nodes {
        InTree(view, streamID);
        AdjustNode(nodes[streamID], dep, exclusive, weight);
      } else if streamID > maxID && maxIdleNodesInTree != 0 {
        w0, w1 := AdjustNew(streamID, dep, exclusive, weight);
      }
    }

    method AdjustNew(streamID: nat, dep: nat, exclusive: bool, weight: nat) returns (ghost w0: World, ghost w1: World)
      requires Valid() && streamID != 0 && streamID !in nodes && streamID > maxID
      requires Discardable(view, Victim(idleNodes, maxIdleNodesInTree))
      modifies this`nodes, this`maxID, this`view, this`idleNodes, view.m.Keys
      ensures Valid() && view.F == old(view).F && fresh(view.m.Keys - old(view.m.Keys))
      ensures maxID == streamID && IsListed(old(idleNodes), maxIdleNodesInTree, w0, streamID, idleNodes)
      ensures IsAdded(old(view), streamID, w0) && IsDiscarded(w0, Victim(old(idleNodes), maxIdleNodesInTree), w1)
      ensures IsAdjusted(w1, streamID, dep, exclusive, weight, view)
    {
      w0 := AddIdle(streamID);
      w1 := view;
      InTree(view, streamID);
      AdjustNode(nodes[streamID], dep, exclusive, weight);
    }

    /** A node for a stream that is still idle, in place of the oldest such node if there are too many. */
    method AddIdle(streamID: nat) returns (ghost w0: World)
      requires Valid() && streamID !in nodes && streamID > maxID
      requires Discardable(view, Victim(idleNodes, maxIdleNodesInTree))
      modifies this`nodes, this`maxID, this`view, this`idleNodes
      modifies view.m.Keys`parent, view.m.Keys`kids, view.m.Keys`prev, view.m.Keys`next, view.m.Keys`pos
      ensures Valid() && streamID in nodes && fresh(view.m.Keys - old(view).m.Keys)
      ensures IsAdded(old(view), streamID, w0) && IsDiscarded(w0, Victim(old(idleNodes), maxIdleNodesInTree), view)
      ensures maxID == streamID && IsListed(old(idleNodes), maxIdleNodesInTree, w0, streamID, idleNodes)
    {
      var victim := Victim(idleNodes, maxIdleNodesInTree);
      ghost var w := view;
      w0 := AddIdleNode(streamID);
      Discard(victim);
      AddedStays(w, streamID, w0, victim, view);
    }

    method AddIdleNode(streamID: nat) returns (ghost w0: World)
      requires Valid() && streamID !in nodes && streamID > maxID
      requires Discardable(view, Victim(idleNodes, maxIdleNodesInTree))
      modifies this`nodes, this`maxID, this`view, this`idleNodes
      modifies view.m.Keys`parent, view.m.Keys`kids, view.m.Keys`prev, view.m.Keys`next, view.m.Keys`pos
      ensures Valid() && view == w0 && IsAdded(old(view), streamID, w0) && fresh(w0.nodes[streamID])
      ensures Discardable(w0, Victim(old(idleNodes), maxIdleNodesInTree))
      ensures maxID == streamID && IsListed(old(idleNodes), maxIdleNodesInTree, w0, streamID, idleNodes)
      ensures Victim(old(idleNodes), maxIdleNodesInTree).Some? ==>
                Victim(old(idleNodes), maxIdleNodesInTree).value in old(view).m
      ensures Victim(old(idleNodes), maxIdleNodesInTree).Some? ==>
                Victim(old(idleNodes), maxIdleNodesInTree).value.id != streamID
    {
      ghost var w := view;
      InTree(w, 0);
      Unfold(w);
      var n := AddNode(streamID, Idle, root);
      w0 := view;
      Unfold(w0);
      AddedKeepsDiscardable(w, streamID, w0, Victim(idleNodes, maxIdleNodesInTree), w.F.Keys);
      RememberIdle(n);
    }

    /** The list of idle nodes stays within its size: n goes to its end, and the oldest entry goes if it was full. */
    method RememberIdle(n: Node)
      requires Valid()
      modifies this`idleNodes
      ensures Valid() && idleNodes == Remembered(old(idleNodes), maxIdleNodesInTree, n)
      ensures maxIdleNodesInTree >= 0 ==> |idleNodes| <= maxIdleNodesInTree
      ensures maxIdleNodesInTree > 0 ==> idleNodes[|idleNodes| - 1] == n
      ensures maxIdleNodesInTree > 0 ==>
                |idleNodes| == if |old(idleNodes)| == maxIdleNodesInTree then |old(idleNodes)| else |old(idleNodes)| + 1
    {
      idleNodes := Remembered(idleNodes, maxIdleNodesInTree, n);
    }

    method AdjustNode(n: Node, dep: nat, exclusive: bool, weight: nat)
      requires Valid() && n in view.m && n.id != 0
      modifies this`nodes, this`maxID, this`view, view.m.Keys
      ensures Valid() && nodes == old(nodes) && maxID == old(maxID) && view.m.Keys == old(view.m.Keys)
      ensures view.F == old(view).F
      ensures IsAdjusted(old(view), n.id, dep, exclusive, weight, view)
    {
      var ns, mx := nodes, maxID;
      var parent := if dep in nodes then nodes[dep] else null;
      ghost var w' := Readjust(n, parent, dep, exclusive, weight, view);
      Install(ns, mx, w');
    }

    method Readjust(n: Node, parent: Node?, ghost dep: nat, exclusive: bool, weight: nat, ghost w: World)
      returns (ghost w': World)
      requires Holds(w, w.F.Keys) && Sound(w) && n in w.m && n.id != 0 && 0 in w.nodes && w.nodes[0] == root
      requires parent == if dep in w.nodes then w.nodes[dep] else null
      modifies w.m.Keys
      ensures Holds(w', w'.F.Keys) && Sound(w') && IsAdjusted(w, n.id, dep, exclusive, weight, w')
    {
      Unfold(w);
      NodeInTree(w, n);
      InTree(w, n.id);
      w' := Adjust(n, parent, exclusive, weight, DEFAULT_WEIGHT, root, dep, w, w.F.Keys);
      Refold(w');
    }
  }
}
