/** The inbound ledger of a stream: its window, its buffered bytes and the bytes read but not yet reported. */
module ServerLedger {
  import opened Basics
  import opened ServerTypes

  function Buffered(s: Stream): nat {
    if s.body.Some? then s.body.value.buffered else 0
  }

  function Ledger(s: Stream): int {
    s.inflow + Buffered(s) + s.unreported
  }

  /** No stream is ever owed more than the initial window. */
  predicate Solvent(s: Stream) {
    0 <= s.inflow && Ledger(s) <= INITIAL_WINDOW
  }

  predicate SolventAt(all: Streams, id: nat) {
    id in all ==> Solvent(all[id])
  }

  ghost predicate AllSolvent(all: Streams) {
    forall id {:trigger SolventAt(all, id)} :: SolventAt(all, id)
  }

  /** A stream on which DATA is accepted. */
  predicate Receiving(s: Stream) {
    s.state == Open && !s.resetQueued
  }

  /** The request on the stream is not over: the client may still be sending it. */
  predicate Unended(s: Stream) {
    s.state == Open || s.state == HalfClosedLocal
  }

  /** Until the request is over, no inbound byte is unaccounted for. */
  predicate Balanced(s: Stream) {
    Unended(s) ==> Ledger(s) == INITIAL_WINDOW
  }

  /** The ledger is exact, and while DATA is accepted the pipe exists and can be written. */
  predicate Exact(s: Stream) {
    Balanced(s) && (Receiving(s) ==> s.body.Some? && !s.body.value.closed)
  }

  predicate ExactAt(all: Streams, id: nat) {
    id in all ==> Exact(all[id])
  }

  ghost predicate AllExact(all: Streams) {
    forall id {:trigger ExactAt(all, id)} :: ExactAt(all, id)
  }

  /**
   * What writing frames may do to a stream: it moves towards being closed, its outbound window is used up, no inbound
   * byte moves.
   */
  predicate Follows(s: Stream, t: Stream) {
    && t.inflow == s.inflow && t.unreported == s.unreported && t.bodyBytes == s.bodyBytes
    && (t.flow == s.flow || 0 <= t.flow < s.flow)
    && t.body.Some? == s.body.Some? && Buffered(t) == Buffered(s)
    && (Receiving(t) ==> Receiving(s) && t.body == s.body) && (Unended(t) ==> Unended(s))
    && (s.resetQueued ==> t.resetQueued) && (s.wroteHeaders ==> t.wroteHeaders)
    && (s.state == Closed ==> t.state == Closed)
    && (s.state == HalfClosedLocal || s.state == HalfClosedRemote ==> t.state == s.state || t.state == Closed)
  }

  /** Streams that exist follow what they were; streams that are new are promised ones. */
  predicate LaterAt(a: Streams, b: Streams, id: nat) {
    && (id in a ==> id in b && Follows(a[id], b[id]))
    && (id in b && id !in a ==> !Unended(b[id]) && Solvent(b[id]))
  }

  ghost predicate Later(a: Streams, b: Streams) {
    forall id {:trigger LaterAt(a, b, id)} :: LaterAt(a, b, id)
  }

  lemma LaterTrans(a: Streams, b: Streams, c: Streams)
    requires Later(a, b) && Later(b, c)
    ensures Later(a, c)
  {
    forall id ensures LaterAt(a, c, id) {
      assert LaterAt(a, b, id) && LaterAt(b, c, id);
    }
  }

  lemma LaterSame(a: Streams)
    ensures Later(a, a)
  {
  }

  lemma LaterExact(a: Streams, b: Streams)
    requires Later(a, b) && AllExact(a)
    ensures AllExact(b)
  {
    forall id ensures ExactAt(b, id) {
      assert LaterAt(a, b, id) && ExactAt(a, id);
    }
  }

  lemma LaterOne(a: Streams, id: nat, s: Stream)
    requires if id in a then Follows(a[id], s) else !Unended(s) && Solvent(s)
    ensures Later(a, a[id := s])
  {
  }

  lemma SetSolvent(a: Streams, id: nat, s: Stream)
    requires AllSolvent(a) && Solvent(s)
    ensures AllSolvent(a[id := s])
  {
    var b := a[id := s];
    forall k ensures SolventAt(b, k) {
      assert SolventAt(a, k);
    }
  }

  lemma SetExact(a: Streams, id: nat, s: Stream)
    requires AllExact(a) && Exact(s)
    ensures AllExact(a[id := s])
  {
    var b := a[id := s];
    forall k ensures ExactAt(b, k) {
      assert ExactAt(a, k);
    }
  }

  /** A change that commutes: more window before what follows, or after it. */
  lemma LaterCredited(a: Streams, b: Streams, id: nat, n: int)
    requires Later(a, b) && id in a && id in b
    ensures Later(a[id := a[id].(inflow := a[id].inflow + n)], b[id := b[id].(inflow := b[id].inflow + n)])
  {
    var a', b' := a[id := a[id].(inflow := a[id].inflow + n)], b[id := b[id].(inflow := b[id].inflow + n)];
    forall k ensures LaterAt(a', b', k) {
      assert LaterAt(a, b, k);
    }
  }

  predicate ExactButAt(all: Streams, id: nat, k: nat) {
    k != id && k in all ==> Exact(all[k])
  }

  /** The ledger is exact on every stream but one, which is about to be reset. */
  ghost predicate AllExactBut(all: Streams, id: nat) {
    forall k {:trigger ExactButAt(all, id, k)} :: ExactButAt(all, id, k)
  }

  lemma ExactButOne(all: Streams, id: nat)
    ensures AllExact(all) ==> AllExactBut(all, id)
    ensures AllExactBut(all, id) && (id in all ==> Exact(all[id])) ==> AllExact(all)
  {
    if AllExact(all) {
      forall k ensures ExactButAt(all, id, k) {
        assert ExactAt(all, k);
      }
    }
    if AllExactBut(all, id) && (id in all ==> Exact(all[id])) {
      forall k ensures ExactAt(all, k) {
        assert ExactButAt(all, id, k);
      }
    }
  }

  lemma LaterExactBut(a: Streams, b: Streams, id: nat)
    requires Later(a, b) && AllExactBut(a, id)
    ensures AllExactBut(b, id)
  {
    forall k ensures ExactButAt(b, id, k) {
      assert LaterAt(a, b, k) && ExactButAt(a, id, k);
    }
  }

  lemma SetExactBut(a: Streams, id: nat, s: Stream)
    requires AllExactBut(a, id)
    ensures AllExactBut(a[id := s], id)
  {
    var b := a[id := s];
    forall k ensures ExactButAt(b, id, k) {
      assert ExactButAt(a, id, k);
    }
  }

  /** Padding counts against the window and is returned at once. */
  lemma PaddingReturned(a: Streams, b: Streams, id: nat, pad: int)
    requires AllExactBut(a, id) && id in a && Later(a[id := a[id].(inflow := a[id].inflow + pad)], b)
    requires Exact(a[id].(inflow := a[id].inflow + pad))
    ensures AllExact(b)
  {
    SetExactBut(a, id, a[id].(inflow := a[id].inflow + pad));
    ExactButOne(a[id := a[id].(inflow := a[id].inflow + pad)], id);
    LaterExact(a[id := a[id].(inflow := a[id].inflow + pad)], b);
  }
}
