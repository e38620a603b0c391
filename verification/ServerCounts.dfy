/** Counting streams: live streams, their counters and the bounds on their ids. */
module ServerCounts {
  import opened Protocol
  import opened ServerTypes

  function OfParity(s: set<nat>, p: nat): set<nat> {
    set id | id in s && id % 2 == p
  }

  /** The counters count the odd and the even ids in the map of streams. */
  ghost predicate Counted(streams: set<nat>, client: nat, pushed: nat) {
    client == |OfParity(streams, 1)| && pushed == |OfParity(streams, 0)|
  }

  predicate Active(s: Stream) {
    s.state == Open || s.state == HalfClosedLocal || s.state == HalfClosedRemote
  }

  /** Every mapped stream is open or half-closed. */
  ghost predicate Mapped(all: Streams, streams: set<nat>) {
    forall id {:trigger MappedAt(all, streams, id)} :: MappedAt(all, streams, id)
  }

  /** A stream outside the map is closed, or was told its request had ended after it closed. */
  predicate MappedAt(all: Streams, streams: set<nat>, id: nat) {
    && (id in streams ==> id in all && Active(all[id]))
    && (id in all && id !in streams ==> all[id].state == Closed || all[id].state == HalfClosedRemote)
  }

  /** Ids do not exceed the largest seen of their parity, and are never 0. */
  ghost predicate Bounded(ids: set<nat>, maxClient: nat, maxPush: nat) {
    && maxClient < MAX_ID && maxPush < MAX_ID && maxPush % 2 == 0
    && forall id {:trigger Within(ids, maxClient, maxPush, id)} :: Within(ids, maxClient, maxPush, id)
  }

  predicate Within(ids: set<nat>, maxClient: nat, maxPush: nat, id: nat) {
    id in ids ==> 0 < id <= if id % 2 == 1 then maxClient else maxPush
  }

  lemma OpenCounted(streams: set<nat>, client: nat, pushed: nat, id: nat)
    requires Counted(streams, client, pushed) && id !in streams
    ensures Counted(streams + {id}, client + id % 2, pushed + 1 - id % 2)
  {
    ParityAdd(streams, id, 1);
    ParityAdd(streams, id, 0);
  }

  lemma CloseCounted(streams: set<nat>, client: nat, pushed: nat, id: nat)
    requires Counted(streams, client, pushed) && id in streams
    ensures client >= id % 2 && pushed >= 1 - id % 2
    ensures Counted(streams - {id}, client - id % 2, pushed - (1 - id % 2))
  {
    assert streams - {id} + {id} == streams;
    ParityAdd(streams - {id}, id, 1);
    ParityAdd(streams - {id}, id, 0);
  }

  lemma ParityAdd(s: set<nat>, id: nat, p: nat)
    requires id !in s && p < 2
    ensures |OfParity(s + {id}, p)| == |OfParity(s, p)| + if id % 2 == p then 1 else 0
  {
    if id % 2 == p {
      assert OfParity(s + {id}, p) == OfParity(s, p) + {id};
    } else {
      assert OfParity(s + {id}, p) == OfParity(s, p);
    }
  }

  lemma SetMapped(all: Streams, streams: set<nat>, id: nat, s: Stream)
    requires Mapped(all, streams)
    requires if id in streams then Active(s) else s.state == Closed || s.state == HalfClosedRemote
    ensures Mapped(all[id := s], streams)
  {
    var all' := all[id := s];
    forall k ensures MappedAt(all', streams, k) {
      assert MappedAt(all, streams, k);
    }
  }

  lemma MappedKeys(all: Streams, streams: set<nat>)
    requires Mapped(all, streams)
    ensures streams <= all.Keys
  {
    forall id | id in streams ensures id in all {
      assert MappedAt(all, streams, id);
    }
  }

  lemma OpenMapped(all: Streams, streams: set<nat>, id: nat, s: Stream)
    requires Mapped(all, streams) && Active(s)
    ensures Mapped(all[id := s], streams + {id})
  {
    var all', streams' := all[id := s], streams + {id};
    forall k ensures MappedAt(all', streams', k) {
      assert MappedAt(all, streams, k);
    }
  }

  lemma CloseMapped(all: Streams, streams: set<nat>, id: nat, s: Stream)
    requires Mapped(all, streams) && s.state == Closed
    ensures Mapped(all[id := s], streams - {id})
  {
    var all', streams' := all[id := s], streams - {id};
    forall k ensures MappedAt(all', streams', k) {
      assert MappedAt(all, streams, k);
    }
  }

  lemma AddBounded(ids: set<nat>, maxClient: nat, maxPush: nat, id: nat)
    requires Bounded(ids, maxClient, maxPush) && 0 < id <= if id % 2 == 1 then maxClient else maxPush
    ensures Bounded(ids + {id}, maxClient, maxPush)
  {
    forall k ensures Within(ids + {id}, maxClient, maxPush, k) {
      assert Within(ids, maxClient, maxPush, k);
    }
  }

  lemma RaiseBounded(ids: set<nat>, maxClient: nat, maxPush: nat, maxClient': nat, maxPush': nat)
    requires Bounded(ids, maxClient, maxPush) && maxClient <= maxClient' < MAX_ID && maxPush <= maxPush' < MAX_ID
    requires maxPush' % 2 == 0
    ensures Bounded(ids, maxClient', maxPush')
  {
    forall k ensures Within(ids, maxClient', maxPush', k) {
      assert Within(ids, maxClient, maxPush, k);
    }
  }

  lemma {:induction false} ParityBound(s: set<nat>, p: nat, m: nat)
    requires p < 2 && forall id :: id in s ==> id % 2 == p && 0 < id <= m
    ensures |s| <= (m + 1) / 2
  {
    if m == 0 {
      assert s == {};
    } else if m in s {
      assert m == 1 || m - 1 !in s;
      assert m == 1 ==> s == {1};
      if m > 1 {
        assert forall id :: id in s - {m} ==> id != m - 1;
        ParityBound(s - {m}, p, m - 2);
      }
    } else {
      ParityBound(s, p, m - 1);
    }
  }

  /** A counter stays far from the end of 32 bits: there are at most 2^30 ids of one parity. */
  lemma CounterSmall(ids: set<nat>, streams: set<nat>, client: nat, pushed: nat, maxClient: nat, maxPush: nat)
    requires Counted(streams, client, pushed) && streams <= ids && Bounded(ids, maxClient, maxPush)
    ensures client <= MAX_ID / 2 && pushed <= MAX_ID / 2
  {
    assert forall id :: id in streams ==> Within(ids, maxClient, maxPush, id);
    ParityBound(OfParity(streams, 1), 1, maxClient);
    ParityBound(OfParity(streams, 0), 0, maxPush);
  }
}
