/** The subtree byte counts: each is the sum of the bytes written by the nodes at or below it. */
module PrioritySums {
  import opened Basics
  import opened WriteQueues
  import opened StreamTree
  import opened PriorityNodes
  import opened PriorityTree
  import opened PriorityWalk
  import opened Sums

  ghost function BytesOf(d: Data): map<Node, int> {
    Tabulated(d.Keys, x requires x in d => d[x].bytes)
  }

  ghost function SubtreeOf(w: World, x: Node): set<Node> {
    set y | y in w.d && Ancestor(Par(w), x.id, y.id)
  }

  ghost predicate TrueSumAt(w: World, x: Node)
    requires x in w.d
  {
    w.d[x].subtreeBytes == SumOver<Node>(BytesOf(w.d), SubtreeOf(w, x))
  }

  ghost predicate TrueSums(w: World) {
    forall x :: x in w.d ==> TrueSumAt(w, x)
  }

  /** Byte counts that grow by b at n and in the subtrees n lies in stay true sums. */
  lemma GrowKeepsSums(w: World, n: Node, b: int, w': World)
    requires TrueSums(w) && n in w.d && w'.d.Keys == w.d.Keys && Par(w') == Par(w)
    requires forall x :: x in w.d ==>
               && w'.d[x].bytes == w.d[x].bytes + (if x == n then b else 0)
               && w'.d[x].subtreeBytes == w.d[x].subtreeBytes + (if Ancestor(Par(w), x.id, n.id) then b else 0)
    ensures TrueSums(w')
  {
    var f: map<Node, int> := BytesOf(w.d);
    assert BytesOf(w'.d) == f[n := f[n] + b];
    forall x | x in w'.d ensures TrueSumAt(w', x) {
      assert TrueSumAt(w, x);
      var s: set<Node> := SubtreeOf(w, x);
      assert SubtreeOf(w', x) == s;
      assert n in s <==> Ancestor(Par(w), x.id, n.id);
      SumUpdate<Node>(f, s, n, f[n] + b);
      SumSame<Node>(BytesOf(w'.d), f[n := f[n] + b], s);
    }
  }

  /** A walk of the whole tree keeps true sums, across every sorting and relinking of kids on its way. */
  lemma WalkKeepsSums(w: World, n: Node, ok: bool, at: Node, wr: FrameWriteRequest, last: bool, w': World)
    requires TreeShaped(w.nodes, w.m, w.rank) && w.d.Keys == w.m.Keys && n in w.d && TrueSums(w)
    requires if ok then Found(w, n, at, wr, last, w') else Nothing(w, n, w')
    ensures TrueSums(w')
  {
    ReorderedPar(w, n, w'.m);
    assert Par(w') == Par(w);
    GrowKeepsSums(w, if ok then at else n, if ok then wr.DataSize() else 0, w');
  }
}
