/** What a walk over the priority tree does to the tree, its queues, its byte counts and the windows. */
module PriorityWalk {
  import opened Basics
  import opened FlowControl
  import opened WriteQueues
  import opened StreamTree
  import opened PriorityNodes
  import opened PriorityTree
  import opened PrioritySort

  ghost predicate QueuesOK(d: Data, W: set<Flow>) {
    forall x :: x in d ==> AllValid(d[x].q) && Covers(W, d[x].q)
  }

  /** The data after node `at` gave up wr: its queue and the byte counts from it to the root, nothing else. */
  ghost predicate TakenAt(par: Parents, d: Data, at: Node, wr: FrameWriteRequest, last: bool, d': Data) {
    && d'.Keys == d.Keys && at in d
    && HeadTaken(d[at].q, d'[at].q, wr, last)
    && forall x :: x in d ==>
         && d'[x].weight == d[x].weight && d'[x].state == d[x].state
         && (x != at ==> d'[x].q == d[x].q)
         && d'[x].bytes == d[x].bytes + (if x == at then wr.DataSize() else 0)
         && d'[x].subtreeBytes == d[x].subtreeBytes + (if Ancestor(par, x.id, at.id) then wr.DataSize() else 0)
  }

  /** ConsumeHead, which leaves the tree alone. */
  method TakeFrom(s: seq<FrameWriteRequest>, limit: int32, ghost S: set<Node>, ghost W: set<Flow>)
    returns (s': seq<FrameWriteRequest>, wr: FrameWriteRequest, ok: bool, ghost last: bool)
    requires AllValid(s) && Covers(W, s) && limit > 0
    modifies W
    ensures AllValid(s') && Covers(W, s')
    ensures ok <==> !Exhausted(s, old(WindowsOf(W)))
    ensures !ok ==> s' == s && WindowsOf(W) == old(WindowsOf(W))
    ensures ok ==> HeadTaken(s, s', wr, last) && wr.DataSize() <= limit
    ensures ok ==> WindowsOf(W) == Debited(old(WindowsOf(W)), HeadWindows(s), wr.DataSize())
    ensures DataOf(S) == old(DataOf(S)) && LinksOf(S) == old(LinksOf(S))
  {
    s', wr, ok, last := ConsumeHead(s, limit, W);
  }

  /** Takes what is allowed off the queue of n. */
  method Dequeue(n: Node, limit: int32, ghost S: set<Node>, ghost W: set<Flow>, ghost d: Data, ghost F: map<Flow, int>)
    returns (ok: bool, wr: FrameWriteRequest, ghost last: bool, ghost e: Data, ghost F': map<Flow, int>)
    requires n in S && DataOf(S) == d && WindowsOf(W) == F && AllValid(d[n].q) && Covers(W, d[n].q) && limit > 0
    modifies n`q, W
    ensures DataOf(S) == e && WindowsOf(W) == F' && n in e && LinksOf(S) == old(LinksOf(S))
    ensures AllValid(e[n].q) && Covers(W, e[n].q) && e == d[n := d[n].(q := e[n].q)]
    ensures ok <==> !Exhausted(d[n].q, F)
    ensures !ok ==> e == d && F' == F
    ensures ok ==> HeadTaken(d[n].q, e[n].q, wr, last) && F' == Debited(F, HeadWindows(d[n].q), wr.DataSize())
    ensures ok ==> wr.DataSize() <= limit
  {
    var q;
    q, wr, ok, last := TakeFrom(n.q, limit, S, W);
    F' := WindowsOf(W);
    e := n.SetQueue(q, S, d, W);
  }

  /** SortKids, which leaves the data and the windows alone. */
  method SortOnly(n: Node, scratch: Scratch, ghost m: Links, ghost W: set<Flow>) returns (ghost m': Links)
    requires LinksOf(m.Keys) == m && Linked(m) && n in m && m[n].parent != n
    modifies scratch, m.Keys`parent, m.Keys`kids, m.Keys`prev, m.Keys`next, m.Keys`pos
    ensures LinksOf(m.Keys) == m' && Linked(m') && SameParents(m, m') && SameOutside(m, n, m')
    ensures DataOf(m.Keys) == old(DataOf(m.Keys)) && WindowsOf(W) == old(WindowsOf(W))
  {
    m' := SortKids(n, scratch, m);
  }

  lemma CreditedIsTaken(par: Parents, d: Data, d1: Data, n: Node, wr: FrameWriteRequest, last: bool, e: Data)
    requires n in d && d1.Keys == d.Keys
    requires d1 == d[n := d[n].(q := d1[n].q)] && HeadTaken(d[n].q, d1[n].q, wr, last)
    requires Credited(par, d1, n, wr.DataSize(), e)
    ensures TakenAt(par, d, n, wr, last, e) && e[n].q == d1[n].q
  {
  }

  /** Takes from the queue of n and accounts for the bytes. */
  method TakeAt(n: Node, limit: int32, ghost nodes: map<nat, Node>, ghost m: Links, ghost rank: map<nat, nat>,
                ghost W: set<Flow>, ghost d: Data, ghost F: map<Flow, int>)
    returns (ok: bool, wr: FrameWriteRequest, ghost last: bool, ghost e: Data, ghost F': map<Flow, int>)
    requires LinksOf(m.Keys) == m && TreeShaped(nodes, m, rank) && n in m
    requires DataOf(m.Keys) == d && WindowsOf(W) == F && AllValid(d[n].q) && Covers(W, d[n].q) && limit > 0
    modifies n`q, n`bytes, m.Keys`subtreeBytes, W
    ensures DataOf(m.Keys) == e && WindowsOf(W) == F' && n in e && LinksOf(m.Keys) == m
    ensures AllValid(e[n].q) && Covers(W, e[n].q)
    ensures ok <==> !Exhausted(d[n].q, F)
    ensures !ok ==> e == d && F' == F
    ensures ok ==>
              TakenAt(ParentIds(nodes, m), d, n, wr, last, e) && F' == Debited(F, HeadWindows(d[n].q), wr.DataSize())
    ensures ok ==> wr.DataSize() <= limit
  {
    ghost var d1;
    ok, wr, last, d1, F' := Dequeue(n, limit, m.Keys, W, d, F);
    e := d1;
    if ok {
      e := AddBytes(n, wr.DataSize(), nodes, m, rank, d1, W);
      CreditedIsTaken(ParentIds(nodes, m), d, d1, n, wr, last, e);
    }
  }

  lemma TakenKeepsQueues(par: Parents, d: Data, at: Node, wr: FrameWriteRequest, last: bool, e: Data, W: set<Flow>)
    requires QueuesOK(d, W) && TakenAt(par, d, at, wr, last, e) && AllValid(e[at].q) && Covers(W, e[at].q)
    ensures QueuesOK(e, W)
  {
  }

  // ----- the walk -----

  lemma SameParentsTree(nodes: map<nat, Node>, m: Links, rank: map<nat, nat>, m': Links)
    requires TreeShaped(nodes, m, rank) && Linked(m') && SameParents(m, m')
    ensures TreeShaped(nodes, m', rank) && ParentIds(nodes, m') == ParentIds(nodes, m)
  {
    forall i | i in nodes && i != 0 ensures ParentId(m', nodes[i]) == ParentId(m, nodes[i]) {
      ParentAt(nodes, m, nodes[i]);
    }
    assert ParentIds(nodes, m') == ParentIds(nodes, m);
  }

  ghost predicate StrictlyBelow(par: Parents, n: Node, x: Node) {
    Ancestor(par, n.id, x.id) && x != n
  }

  /** Only nodes strictly below n change their place among their siblings. */
  ghost predicate SameAbove(par: Parents, m: Links, n: Node, m': Links) {
    && m'.Keys == m.Keys
    && forall x :: x in m && !StrictlyBelow(par, n, x) ==> m'[x].next == m[x].next && m'[x].pos == m[x].pos
  }

  /** Sorting the kids of n, or walking below one of them, moves only nodes strictly below n. */
  lemma SortedSameAbove(nodes: map<nat, Node>, m: Links, rank: map<nat, nat>, n: Node, m': Links)
    requires TreeShaped(nodes, m, rank) && n in m && SameOutside(m, n, m')
    ensures SameAbove(ParentIds(nodes, m), m, n, m')
  {
    var par := ParentIds(nodes, m);
    forall x | x in m && !StrictlyBelow(par, n, x) ensures m[x].parent != n {
      ParentAt(nodes, m, x);
      if m[x].parent == n {
        AncestorSelf(par, n.id);
        AncestorStep(par, n.id, x.id);
      }
    }
  }

  lemma BelowKid(nodes: map<nat, Node>, m: Links, rank: map<nat, nat>, n: Node, k: Node, x: Node)
    requires TreeShaped(nodes, m, rank) && n in m && k in m && x in m && m[k].parent == n
    requires Ancestor(ParentIds(nodes, m), k.id, x.id)
    ensures StrictlyBelow(ParentIds(nodes, m), n, x)
    ensures forall y :: y in m && m[y].parent == n && y != k ==> !Ancestor(ParentIds(nodes, m), y.id, x.id)
  {
    var par := ParentIds(nodes, m);
    ParentAt(nodes, m, k);
    ParentAt(nodes, m, x);
    ParentAt(nodes, m, n);
    AncestorUp(par, k.id, x.id);
    KidNotAbove(par, rank, k.id);
    forall y | y in m && m[y].parent == n && y != k ensures !Ancestor(par, y.id, x.id) {
      ParentAt(nodes, m, y);
      KidsDisjoint(par, rank, k.id, y.id, x.id);
    }
  }

  lemma KidSameAbove(nodes: map<nat, Node>, m: Links, rank: map<nat, nat>, n: Node, k: Node, mc: Links, m': Links)
    requires TreeShaped(nodes, m, rank) && n in m && k in m && m[k].parent == n
    requires SameAbove(ParentIds(nodes, m), mc, k, m') && mc.Keys == m.Keys
    ensures SameAbove(ParentIds(nodes, m), mc, n, m')
    ensures forall x :: x in m && m[x].parent == n ==> m'[x].next == mc[x].next && m'[x].pos == mc[x].pos
  {
    var par := ParentIds(nodes, m);
    forall x | x in m && StrictlyBelow(par, k, x) ensures StrictlyBelow(par, n, x) && m[x].parent != n {
      BelowKid(nodes, m, rank, n, k, x);
      if m[x].parent == n {
        AncestorSelf(par, x.id);
      }
    }
  }

  /** Every queue at or below n is empty or starts with a DATA frame that has a used-up window. */
  ghost predicate ExhaustedBelow(par: Parents, d: Data, F: map<Flow, int>, n: Node) {
    forall x :: x in d && Ancestor(par, n.id, x.id) ==> Exhausted(d[x].q, F)
  }

  /** Every node at or below n with frames is among those visited. */
  ghost predicate AskedBelow(par: Parents, d: Data, n: Node, visited: seq<Node>) {
    forall x :: x in d && Ancestor(par, n.id, x.id) && d[x].q != [] ==> x in visited
  }

  lemma KidsAsked(nodes: map<nat, Node>, m: Links, rank: map<nat, nat>, d: Data, n: Node, visited: seq<Node>,
                  all: seq<Node>)
    requires TreeShaped(nodes, m, rank) && n in m && d.Keys == m.Keys
    requires forall k :: k in m && m[k].parent == n ==> AskedBelow(ParentIds(nodes, m), d, k, visited)
    requires all == if d[n].q != [] then [n] + visited else visited
    ensures AskedBelow(ParentIds(nodes, m), d, n, all)
  {
    var par := ParentIds(nodes, m);
    forall x | x in d && Ancestor(par, n.id, x.id) && d[x].q != [] ensures x in all {
      ParentAt(nodes, m, x);
      ParentAt(nodes, m, n);
      if x != n {
        AncestorAtTop(par, n.id, 0);
        var k := KidAbove(par, rank, n.id, x.id);
        ParentAt(nodes, m, nodes[k]);
        ParentAt(nodes, m, m[nodes[k]].parent);
      }
    }
  }

  lemma KidsExhausted(nodes: map<nat, Node>, m: Links, rank: map<nat, nat>, d: Data, F: map<Flow, int>, n: Node)
    requires TreeShaped(nodes, m, rank) && n in m && d.Keys == m.Keys
    requires Exhausted(d[n].q, F)
    requires forall k :: k in m && m[k].parent == n ==> ExhaustedBelow(ParentIds(nodes, m), d, F, k)
    ensures ExhaustedBelow(ParentIds(nodes, m), d, F, n)
  {
    var par := ParentIds(nodes, m);
    forall x | x in d && Ancestor(par, n.id, x.id) ensures Exhausted(d[x].q, F) {
      ParentAt(nodes, m, x);
      ParentAt(nodes, m, n);
      if x != n {
        AncestorAtTop(par, n.id, 0);
        var k := KidAbove(par, rank, n.id, x.id);
        ParentAt(nodes, m, nodes[k]);
        ParentAt(nodes, m, m[nodes[k]].parent);
      }
    }
  }

  /** A snapshot of the tree with its data, and of the windows its frames draw on. */
  datatype World = World(nodes: map<nat, Node>, rank: map<nat, nat>, m: Links, d: Data, F: map<Flow, int>)

  ghost function Par(w: World): Parents {
    ParentIds(w.nodes, w.m)
  }

  /** The heap is as the snapshot says. */
  ghost predicate Holds(w: World, W: set<Flow>)
    reads w.m.Keys, W
  {
    LinksOf(w.m.Keys) == w.m && DataOf(w.m.Keys) == w.d && WindowsOf(W) == w.F
  }

  ghost predicate Good(w: World, W: set<Flow>) {
    TreeShaped(w.nodes, w.m, w.rank) && w.d.Keys == w.m.Keys && QueuesOK(w.d, W)
  }

  /** At most the order of siblings strictly below n has changed. */
  ghost predicate Reordered(w: World, n: Node, m': Links) {
    TreeShaped(w.nodes, m', w.rank) && SameParents(w.m, m') && SameAbove(Par(w), w.m, n, m')
  }

  /** A walk of the subtree of n found nothing: every queue there is exhausted, and only siblings were reordered. */
  ghost predicate Nothing(w: World, n: Node, w': World) {
    && w' == w.(m := w'.m) && Reordered(w, n, w'.m)
    && ExhaustedBelow(Par(w), w.d, w.F, n)
  }

  /** A walk of the subtree of n took wr from node `at` in it. */
  ghost predicate Found(w: World, n: Node, at: Node, wr: FrameWriteRequest, last: bool, w': World) {
    && w' == w.(m := w'.m, d := w'.d, F := w'.F) && Reordered(w, n, w'.m)
    && at in w.d && Ancestor(Par(w), n.id, at.id) && !Exhausted(w.d[at].q, w.F)
    && TakenAt(Par(w), w.d, at, wr, last, w'.d)
    && w'.F == Debited(w.F, HeadWindows(w.d[at].q), wr.DataSize())
  }

  /** Nodes asked for a frame: each once, each at or below n, each with a queue that is not empty. */
  ghost predicate VisitedOnce(w: World, n: Node, visited: seq<Node>) {
    Distinct(visited) && forall v :: v in visited ==> v in w.d && Ancestor(Par(w), n.id, v.id) && w.d[v].q != []
  }

  /** Nodes that were asked and had nothing to give. */
  ghost predicate InVain(w: World, visited: seq<Node>) {
    forall v :: v in visited ==> v in w.d && Exhausted(w.d[v].q, w.F)
  }

  /** The walk went on to `at`, past nodes that had nothing to give. */
  ghost predicate EndsAt(w: World, at: Node, visited: seq<Node>) {
    visited != [] && visited[|visited| - 1] == at && InVain(w, visited[..|visited| - 1])
  }

  /** If x is at or below n and above `at`, it had nothing to give. */
  ghost predicate PassedUp(w: World, n: Node, at: Node, x: Node) {
    x in w.d && x != at && Ancestor(Par(w), n.id, x.id) && Ancestor(Par(w), x.id, at.id) ==> Exhausted(w.d[x].q, w.F)
  }

  /** Streams come before those that depend on them: from n down to `at`, only `at` had something to give. */
  ghost predicate ParentsFirst(w: World, n: Node, at: Node) {
    forall x {:trigger PassedUp(w, n, at, x)} :: x in w.d ==> PassedUp(w, n, at, x)
  }

  /** The same, n itself left aside. */
  ghost predicate ParentsFirstBelow(w: World, n: Node, at: Node) {
    forall x {:trigger PassedUp(w, n, at, x)} :: x in w.d && x != n ==> PassedUp(w, n, at, x)
  }

  /** A whole walk of the subtree of n: nobody with frames was left out, or it ended where a frame was found. */
  ghost predicate Walked(w: World, n: Node, ok: bool, at: Node, visited: seq<Node>) {
    && VisitedOnce(w, n, visited)
    && if ok then EndsAt(w, at, visited) && ParentsFirst(w, n, at) else AskedBelow(Par(w), w.d, n, visited)
  }

  /** The same for the nodes strictly below n. */
  ghost predicate WalkedBelow(w: World, n: Node, ok: bool, at: Node, visited: seq<Node>) {
    && VisitedOnce(w, n, visited) && n !in visited
    && if ok then EndsAt(w, at, visited) && ParentsFirstBelow(w, n, at)
       else forall k :: k in w.m && w.m[k].parent == n ==> AskedBelow(Par(w), w.d, k, visited)
  }

  lemma VainThenEnds(w: World, vs: seq<Node>, at: Node, us: seq<Node>)
    requires InVain(w, vs) && EndsAt(w, at, us)
    ensures EndsAt(w, at, vs + us)
  {
    var all := vs + us;
    assert all[..|all| - 1] == vs + us[..|us| - 1];
  }

  lemma NothingInVain(w: World, n: Node, visited: seq<Node>)
    requires VisitedOnce(w, n, visited) && ExhaustedBelow(Par(w), w.d, w.F, n)
    ensures InVain(w, visited)
  {
  }

  lemma WalkedOne(w: World, n: Node)
    requires TreeShaped(w.nodes, w.m, w.rank) && w.d.Keys == w.m.Keys && n in w.d && w.d[n].q != []
    ensures Walked(w, n, true, n, [n])
  {
    VisitedFirst(w, n, []);
    forall x | x in w.d && x != n && Ancestor(Par(w), n.id, x.id) ensures !Ancestor(Par(w), x.id, n.id) {
      ParentAt(w.nodes, w.m, x);
      ParentAt(w.nodes, w.m, n);
      AncestorRank(Par(w), w.rank, n.id, x.id);
      if Ancestor(Par(w), x.id, n.id) {
        AncestorRank(Par(w), w.rank, x.id, n.id);
      }
    }
    forall x | x in w.d ensures PassedUp(w, n, n, x) {
    }
  }

  /** What holds from a kid k of n down to `at` holds below n. */
  lemma FirstThroughKid(w: World, n: Node, k: Node, at: Node)
    requires TreeShaped(w.nodes, w.m, w.rank) && w.d.Keys == w.m.Keys && n in w.m && k in w.m && w.m[k].parent == n
    requires at in w.m && Ancestor(Par(w), k.id, at.id) && ParentsFirst(w, k, at)
    ensures ParentsFirstBelow(w, n, at)
  {
    forall x | x in w.d && x != n ensures PassedUp(w, n, at, x) {
      assert PassedUp(w, k, at, x);
      if x in w.d && Ancestor(Par(w), n.id, x.id) && Ancestor(Par(w), x.id, at.id) {
        OnTheWay(w, n, k, at, x);
      }
    }
  }

  /** A node strictly below n on the way to a node below its kid k is at or below k. */
  lemma OnTheWay(w: World, n: Node, k: Node, at: Node, x: Node)
    requires TreeShaped(w.nodes, w.m, w.rank) && n in w.m && k in w.m && w.m[k].parent == n && at in w.m && x in w.m
    requires x != n && Ancestor(Par(w), k.id, at.id) && Ancestor(Par(w), n.id, x.id) && Ancestor(Par(w), x.id, at.id)
    ensures Ancestor(Par(w), k.id, x.id)
  {
    ParentAt(w.nodes, w.m, at);
    ParentAt(w.nodes, w.m, k);
    ParentAt(w.nodes, w.m, x);
    ParentAt(w.nodes, w.m, n);
    AncestorsComparable(Par(w), w.rank, k.id, x.id, at.id);
    AncestorSelf(Par(w), k.id);
    if !Ancestor(Par(w), k.id, x.id) {
      AncestorStep(Par(w), x.id, k.id);
      AncestorRank(Par(w), w.rank, x.id, n.id);
      AncestorRank(Par(w), w.rank, n.id, x.id);
    }
  }

  /** A node with frames but nothing to give, and then the walk below it. */
  lemma WalkedFrom(w: World, n: Node, ok: bool, at: Node, below: seq<Node>)
    requires TreeShaped(w.nodes, w.m, w.rank) && n in w.m && w.d.Keys == w.m.Keys && Exhausted(w.d[n].q, w.F)
    requires WalkedBelow(w, n, ok, at, below)
    ensures Walked(w, n, ok, at, (if w.d[n].q != [] then [n] else []) + below)
  {
    if w.d[n].q != [] {
      VisitedFirst(w, n, below);
      if ok {
        VainThenEnds(w, [n], at, below);
      }
    }
    var all := (if w.d[n].q != [] then [n] else []) + below;
    assert w.d[n].q == [] ==> all == below;
    if ok {
      forall x | x in w.d ensures PassedUp(w, n, at, x) {
        assert x != n ==> PassedUp(w, n, at, x);
      }
    } else {
      KidsAsked(w.nodes, w.m, w.rank, w.d, n, below, all);
    }
  }

  /** The kids of n before k have been walked without success. The quantifiers are kept folded. */
  ghost predicate KidsWalked(w: World, n: Node, k: Node?, m': Links, visited: seq<Node>) {
    && (k != null ==> k in w.m && w.m[k].parent == n)
    && forall f {:trigger KidsPart(w, n, k, m', visited, f)} :: KidsPart(w, n, k, m', visited, f)
  }

  datatype KidsFold = Moved | Passed | Met

  ghost predicate KidsPart(w: World, n: Node, k: Node?, m': Links, visited: seq<Node>, f: KidsFold)
    requires k != null ==> k in w.m
  {
    match f
    case Moved => Reordered(w, n, m') && forall x :: x in w.m && w.m[x].parent == n ==> m'[x].next == w.m[x].next
    case Passed => PassedExhausted(w, n, k) && PassedAsked(w, n, k, visited)
    case Met => VisitedOnce(w, n, visited) && n !in visited && Apart(w, n, k, visited) && InVain(w, visited)
  }

  ghost predicate PassedAsked(w: World, n: Node, k: Node?, visited: seq<Node>)
    requires k != null ==> k in w.m
  {
    forall x :: x in w.m && w.m[x].parent == n && x !in From(w.m, n, k) ==> AskedBelow(Par(w), w.d, x, visited)
  }

  lemma PassedAskedStep(w: World, n: Node, k: Node, vs: seq<Node>, us: seq<Node>)
    requires Linked(w.m) && Mirrored(w.m, k) && w.m[k].parent == n
    requires PassedAsked(w, n, k, vs) && AskedBelow(Par(w), w.d, k, us)
    ensures PassedAsked(w, n, w.m[k].next, vs + us)
  {
    FromShrinks(w.m, n, k);
    forall x | x in w.m && w.m[x].parent == n && x !in From(w.m, n, w.m[k].next)
      ensures AskedBelow(Par(w), w.d, x, vs + us) {
      assert x != k ==> x !in From(w.m, n, k);
    }
  }

  ghost predicate PassedExhausted(w: World, n: Node, k: Node?)
    requires k != null ==> k in w.m
  {
    forall x :: x in w.m && w.m[x].parent == n && x !in From(w.m, n, k) ==> ExhaustedBelow(Par(w), w.d, w.F, x)
  }

  /** None of the nodes visited lies below a kid of n that is still to come. */
  ghost predicate Apart(w: World, n: Node, k: Node?, visited: seq<Node>)
    requires k != null ==> k in w.m
  {
    forall x, v :: x in From(w.m, n, k) && v in visited ==> !Ancestor(Par(w), x.id, v.id)
  }

  lemma PassedStep(w: World, n: Node, k: Node)
    requires Linked(w.m) && Mirrored(w.m, k) && w.m[k].parent == n
    requires PassedExhausted(w, n, k) && ExhaustedBelow(Par(w), w.d, w.F, k)
    ensures PassedExhausted(w, n, w.m[k].next)
  {
    FromShrinks(w.m, n, k);
  }

  lemma ApartStep(w: World, n: Node, k: Node, vs: seq<Node>, us: seq<Node>)
    requires Linked(w.m) && Mirrored(w.m, k) && w.m[k].parent == n
    requires Apart(w, n, k, vs)
    requires forall x, v :: x in w.m && w.m[x].parent == n && x != k && v in us ==> !Ancestor(Par(w), x.id, v.id)
    ensures Apart(w, n, w.m[k].next, vs + us)
  {
    FromShrinks(w.m, n, k);
    forall x, v | x in From(w.m, n, w.m[k].next) && v in vs + us ensures !Ancestor(Par(w), x.id, v.id) {
      assert x in From(w.m, n, k) && x != k;
    }
  }

  lemma ReorderedPar(w: World, n: Node, m': Links)
    requires TreeShaped(w.nodes, w.m, w.rank) && Reordered(w, n, m')
    ensures Par(w.(m := m')) == Par(w)
  {
    SameParentsTree(w.nodes, w.m, w.rank, m');
  }

  lemma ReorderedThroughKid(w: World, n: Node, k: Node, mc: Links, m': Links)
    requires TreeShaped(w.nodes, w.m, w.rank) && n in w.m && k in w.m && w.m[k].parent == n
    requires Reordered(w, n, mc) && Reordered(w.(m := mc), k, m')
    ensures Reordered(w, n, m')
    ensures forall x :: x in w.m && w.m[x].parent == n ==> m'[x].next == mc[x].next
  {
    ReorderedPar(w, n, mc);
    KidSameAbove(w.nodes, w.m, w.rank, n, k, mc, m');
  }

  lemma VisitedThroughKid(w: World, n: Node, k: Node, vs: seq<Node>, us: seq<Node>)
    requires TreeShaped(w.nodes, w.m, w.rank) && n in w.m && k in w.m && w.m[k].parent == n && w.d.Keys == w.m.Keys
    requires VisitedOnce(w, n, vs) && n !in vs && VisitedOnce(w, k, us)
    requires forall v :: v in vs ==> !Ancestor(Par(w), k.id, v.id)
    ensures VisitedOnce(w, n, vs + us) && n !in vs + us
    ensures forall x, v :: x in w.m && w.m[x].parent == n && x != k && v in us ==> !Ancestor(Par(w), x.id, v.id)
  {
    forall v | v in us
      ensures StrictlyBelow(Par(w), n, v)
      ensures forall x :: x in w.m && w.m[x].parent == n && x != k ==> !Ancestor(Par(w), x.id, v.id)
    {
      BelowKid(w.nodes, w.m, w.rank, n, k, v);
    }
    var all := vs + us;
    forall i, j | 0 <= i < j < |all| ensures all[i] != all[j] {
      if i < |vs| <= j {
        assert all[i] in vs && all[j] in us;
      }
    }
  }

  lemma VisitedFirst(w: World, n: Node, visited: seq<Node>)
    requires n in w.d && w.d[n].q != [] && VisitedOnce(w, n, visited) && n !in visited
    ensures VisitedOnce(w, n, [n]) && VisitedOnce(w, n, [n] + visited)
  {
    AncestorSelf(Par(w), n.id);
    var all := [n] + visited;
    forall i, j | 0 <= i < j < |all| ensures all[i] != all[j] {
      assert all[j] in visited;
    }
  }

  lemma KidsWalkedStep(w: World, n: Node, k: Node, mc: Links, vs: seq<Node>, w': World, us: seq<Node>)
    requires TreeShaped(w.nodes, w.m, w.rank) && n in w.m && w.d.Keys == w.m.Keys && Mirrored(w.m, k)
    requires KidsWalked(w, n, k, mc, vs)
    requires Nothing(w.(m := mc), k, w') && Walked(w.(m := mc), k, false, k, us)
    ensures KidsWalked(w, n, w.m[k].next, w'.m, vs + us)
  {
    forall f ensures KidsPart(w, n, w.m[k].next, w'.m, vs + us, f) {
      assert KidsPart(w, n, k, mc, vs, f);
      if f == Moved {
        ReorderedThroughKid(w, n, k, mc, w'.m);
      } else {
        assert Reordered(w, n, mc) by {
          assert KidsPart(w, n, k, mc, vs, Moved);
        }
        NothingMoved(w, n, mc, k, us);
        if f == Passed {
          PassedStep(w, n, k);
          PassedAskedStep(w, n, k, vs, us);
        } else {
          NothingInVain(w, k, us);
          VisitedPastKid(w, n, k, vs, us);
        }
      }
    }
  }

  /** What was found and who was asked does not depend on the order of siblings. */
  lemma NothingMoved(w: World, n: Node, mc: Links, k: Node, us: seq<Node>)
    requires TreeShaped(w.nodes, w.m, w.rank) && Reordered(w, n, mc)
    requires ExhaustedBelow(Par(w.(m := mc)), w.d, w.F, k) && Walked(w.(m := mc), k, false, k, us)
    ensures ExhaustedBelow(Par(w), w.d, w.F, k) && VisitedOnce(w, k, us) && AskedBelow(Par(w), w.d, k, us)
  {
    ReorderedPar(w, n, mc);
  }

  lemma VisitedPastKid(w: World, n: Node, k: Node, vs: seq<Node>, us: seq<Node>)
    requires TreeShaped(w.nodes, w.m, w.rank) && n in w.m && w.d.Keys == w.m.Keys && Mirrored(w.m, k)
    requires w.m[k].parent == n
    requires VisitedOnce(w, n, vs) && n !in vs && Apart(w, n, k, vs) && VisitedOnce(w, k, us)
    ensures VisitedOnce(w, n, vs + us) && n !in vs + us && Apart(w, n, w.m[k].next, vs + us)
  {
    assert k in From(w.m, n, k);
    VisitedThroughKid(w, n, k, vs, us);
    ApartStep(w, n, k, vs, us);
  }

  lemma KidsWalkedFound(w: World, n: Node, k: Node, mc: Links, vs: seq<Node>, at: Node, wr: FrameWriteRequest,
                        last: bool, w': World)
    requires TreeShaped(w.nodes, w.m, w.rank) && n in w.m && w.d.Keys == w.m.Keys
    requires KidsWalked(w, n, k, mc, vs) && Found(w.(m := mc), k, at, wr, last, w')
    ensures Found(w, n, at, wr, last, w')
  {
    assert KidsPart(w, n, k, mc, vs, Moved);
    FoundThroughKid(w, n, k, mc, at, wr, last, w');
  }

  lemma KidsWalkedMet(w: World, n: Node, k: Node, mc: Links, vs: seq<Node>, at: Node, us: seq<Node>)
    requires TreeShaped(w.nodes, w.m, w.rank) && n in w.m && w.d.Keys == w.m.Keys && Mirrored(w.m, k)
    requires KidsWalked(w, n, k, mc, vs) && Walked(w.(m := mc), k, true, at, us)
    ensures WalkedBelow(w, n, true, at, vs + us)
  {
    assert Walked(w, k, true, at, us) by {
      assert KidsPart(w, n, k, mc, vs, Moved);
      WalkedMoved(w, n, mc, k, at, us);
    }
    assert KidsPart(w, n, k, mc, vs, Met);
    WalkedThroughKid(w, n, k, vs, at, us);
  }

  lemma WalkedMoved(w: World, n: Node, mc: Links, k: Node, at: Node, us: seq<Node>)
    requires TreeShaped(w.nodes, w.m, w.rank) && Reordered(w, n, mc) && Walked(w.(m := mc), k, true, at, us)
    ensures Walked(w, k, true, at, us)
  {
    ReorderedPar(w, n, mc);
    forall x | x in w.d ensures PassedUp(w, k, at, x) {
      assert PassedUp(w.(m := mc), k, at, x);
    }
  }

  lemma WalkedThroughKid(w: World, n: Node, k: Node, vs: seq<Node>, at: Node, us: seq<Node>)
    requires TreeShaped(w.nodes, w.m, w.rank) && n in w.m && w.d.Keys == w.m.Keys && Mirrored(w.m, k)
    requires w.m[k].parent == n
    requires VisitedOnce(w, n, vs) && n !in vs && Apart(w, n, k, vs) && InVain(w, vs) && Walked(w, k, true, at, us)
    ensures WalkedBelow(w, n, true, at, vs + us)
  {
    VisitedPastKid(w, n, k, vs, us);
    VainThenEnds(w, vs, at, us);
    assert at in us;
    FirstThroughKid(w, n, k, at);
  }

  lemma FoundThroughKid(w: World, n: Node, k: Node, mc: Links, at: Node, wr: FrameWriteRequest, last: bool, w': World)
    requires TreeShaped(w.nodes, w.m, w.rank) && n in w.m && w.d.Keys == w.m.Keys && k in w.m && w.m[k].parent == n
    requires Reordered(w, n, mc) && Found(w.(m := mc), k, at, wr, last, w')
    ensures Found(w, n, at, wr, last, w')
  {
    ReorderedPar(w, n, mc);
    ReorderedThroughKid(w, n, k, mc, w'.m);
    BelowKid(w.nodes, w.m, w.rank, n, k, at);
  }

  lemma KidsWalkedStarts(w: World, n: Node)
    requires TreeShaped(w.nodes, w.m, w.rank) && n in w.m
    ensures Mirrored(w.m, n) && KidsWalked(w, n, w.m[n].kids, w.m, [])
  {
    FromFirst(w.m, n);
    forall f ensures KidsPart(w, n, w.m[n].kids, w.m, [], f) {
    }
  }

  lemma KidsWalkedEnds(w: World, n: Node, m': Links, visited: seq<Node>)
    requires TreeShaped(w.nodes, w.m, w.rank) && n in w.m && w.d.Keys == w.m.Keys
    requires Exhausted(w.d[n].q, w.F) && KidsWalked(w, n, null, m', visited)
    ensures Nothing(w, n, w.(m := m')) && WalkedBelow(w, n, false, n, visited)
  {
    assert KidsPart(w, n, null, m', visited, Moved) && KidsPart(w, n, null, m', visited, Passed);
    assert KidsPart(w, n, null, m', visited, Met);
    KidsExhausted(w.nodes, w.m, w.rank, w.d, w.F, n);
  }

  lemma ReorderedTwice(w: World, n: Node, m1: Links, m': Links)
    requires TreeShaped(w.nodes, w.m, w.rank) && Reordered(w, n, m1) && Reordered(w.(m := m1), n, m')
    ensures Reordered(w, n, m')
  {
    ReorderedPar(w, n, m1);
  }

  /** What a walk finds after the kids of n were sorted is what it finds in the tree as it was. */
  lemma AfterReorder(w: World, n: Node, w1: World, ok: bool, at: Node, wr: FrameWriteRequest, last: bool, w': World,
                     visited: seq<Node>)
    requires TreeShaped(w.nodes, w.m, w.rank) && w1 == w.(m := w1.m) && Reordered(w, n, w1.m)
    requires if ok then Found(w1, n, at, wr, last, w') else Nothing(w1, n, w')
    requires WalkedBelow(w1, n, ok, at, visited)
    ensures if ok then Found(w, n, at, wr, last, w') else Nothing(w, n, w')
    ensures WalkedBelow(w, n, ok, at, visited)
  {
    ReorderedPar(w, n, w1.m);
    ReorderedTwice(w, n, w1.m, w'.m);
    if ok {
      forall x | x in w.d && x != n ensures PassedUp(w, n, at, x) {
        assert PassedUp(w1, n, at, x);
      }
    }
  }
}
