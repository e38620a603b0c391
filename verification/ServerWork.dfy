/** How much work is queued or can still be queued by writing what is queued: why the write loop ends. */
module ServerWork {
  import opened ServerTypes
  import Sums

  /** A promise opens a stream. DATA goes out in at most len pieces. */
  function Weight(w: Write): nat {
    match w
    case DataWrite(_, len, _) => len + 1
    case PushPromise(_) => 4
    case _ => 1
  }

  function QueueWork(q: seq<Write>): nat {
    if q == [] then 0 else Weight(q[0]) + QueueWork(q[1..])
  }

  /** A stream that ends locally while open is reset, and a stream that closes returns its window. */
  function StreamWeight(s: Stream): nat {
    match s.state
    case Closed => 0
    case Open => 4
    case _ => 2
  }

  ghost predicate AreQueueWeights(m: map<nat, int>, queues: Queues) {
    m.Keys == queues.Keys && forall id {:trigger m[id]} :: id in queues ==> m[id] == QueueWork(queues[id])
  }

  ghost function QueueWeights(queues: Queues): (m: map<nat, int>)
    ensures m.Keys == queues.Keys && AreQueueWeights(m, queues)
  {
    assert AreQueueWeights(map id | id in queues :: QueueWork(queues[id]), queues);
    var m :| AreQueueWeights(m, queues);
    m
  }

  ghost predicate AreStreamWeights(m: map<nat, int>, all: Streams) {
    m.Keys == all.Keys && forall id {:trigger m[id]} :: id in all ==> m[id] == StreamWeight(all[id])
  }

  ghost function StreamWeights(all: Streams): (m: map<nat, int>)
    ensures m.Keys == all.Keys && AreStreamWeights(m, all)
  {
    assert AreStreamWeights(map id | id in all :: StreamWeight(all[id]), all);
    var m :| AreStreamWeights(m, all);
    m
  }

  ghost function QueuesWork(queues: Queues): int {
    Sums.SumOver(QueueWeights(queues), queues.Keys)
  }

  ghost function StreamsWork(all: Streams): int {
    Sums.SumOver(StreamWeights(all), all.Keys)
  }

  lemma {:induction false} QueueWorkAppend(q: seq<Write>, w: Write)
    ensures QueueWork(q + [w]) == QueueWork(q) + Weight(w)
  {
    if q == [] {
      assert q + [w] == [w] && [w][1..] == [];
    } else {
      assert (q + [w])[1..] == q[1..] + [w];
      QueueWorkAppend(q[1..], w);
    }
  }

  lemma {:induction false} SumPositive(f: map<nat, int>, s: set<nat>)
    requires s <= f.Keys && forall x :: x in s ==> f[x] >= 0
    ensures Sums.SumOver(f, s) >= 0
    decreases s
  {
    if s != {} {
      var x :| x in s;
      Sums.SumSplit(f, s, x);
      SumPositive(f, s - {x});
    }
  }

  lemma WorkPositive(queues: Queues, all: Streams)
    ensures QueuesWork(queues) >= 0 && StreamsWork(all) >= 0
  {
    SumPositive(QueueWeights(queues), queues.Keys);
    SumPositive(StreamWeights(all), all.Keys);
  }

  lemma QueueSet(queues: Queues, id: nat, q: seq<Write>)
    ensures QueuesWork(queues[id := q])
        == QueuesWork(queues) + QueueWork(q) - (if id in queues then QueueWork(queues[id]) else 0)
  {
    var f, g := QueueWeights(queues), QueueWeights(queues[id := q]);
    var s := queues.Keys - {id};
    assert queues[id := q].Keys - {id} == s;
    Sums.SumSplit(g, queues[id := q].Keys, id);
    Sums.SumSame(f, g, s);
    if id in queues {
      Sums.SumSplit(f, queues.Keys, id);
    } else {
      assert s == queues.Keys;
    }
  }

  lemma QueueDropped(queues: Queues, id: nat)
    ensures QueuesWork(queues - {id}) <= QueuesWork(queues)
  {
    var f, g := QueueWeights(queues), QueueWeights(queues - {id});
    var s := queues.Keys - {id};
    assert (queues - {id}).Keys == s;
    Sums.SumSame(f, g, s);
    if id in queues {
      Sums.SumSplit(f, queues.Keys, id);
    } else {
      assert s == queues.Keys;
    }
  }

  lemma StreamSet(all: Streams, id: nat, t: Stream)
    ensures StreamsWork(all[id := t])
        == StreamsWork(all) + StreamWeight(t) - (if id in all then StreamWeight(all[id]) else 0)
  {
    var f, g := StreamWeights(all), StreamWeights(all[id := t]);
    var s := all.Keys - {id};
    assert all[id := t].Keys - {id} == s;
    Sums.SumSplit(g, all[id := t].Keys, id);
    Sums.SumSame(f, g, s);
    if id in all {
      Sums.SumSplit(f, all.Keys, id);
    } else {
      assert s == all.Keys;
    }
  }
}
