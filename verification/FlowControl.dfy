/** Flow-control windows: the signed 32-bit counters kept per stream and per connection. */
module FlowControl {

  const MAX_INT32: int := 0x7fff_ffff
  const MIN_INT32: int := -0x8000_0000

  type int32 = x: int | MIN_INT32 <= x <= MAX_INT32

  /** Two's-complement truncation to 32 bits, as Go's int32 arithmetic does. */
  function Wrap32(x: int): (r: int32)
    ensures MIN_INT32 <= x <= MAX_INT32 ==> r == x
    ensures (r - x) % 0x1_0000_0000 == 0
  {
    (x + 0x8000_0000) % 0x1_0000_0000 - 0x8000_0000
  }

  /** The guard of `add`: the remaining room is itself computed in 32 bits. */
  predicate AddAccepts(n: int32, k: int32) {
    k <= Wrap32(MAX_INT32 - n)
  }

  /** What `add` documents: it refuses exactly the sums above 2^31-1, and adds otherwise. */
  ghost predicate AddIsExactAt(n: int32, k: int32) {
    && (AddAccepts(n, k) <==> n + k <= MAX_INT32)
    && (AddAccepts(n, k) ==> Wrap32(n + k) == n + k)
  }

  /** The documented behaviour holds for every increment exactly when the window is not negative. */
  lemma AddExactIffNonNegative(n: int32)
    ensures (forall k: int32 :: AddIsExactAt(n, k)) <==> n >= 0
  {
    if n >= 0 {
      assert forall k: int32 :: AddIsExactAt(n, k);
    } else {
      assert !AddIsExactAt(n, 1) by {
        assert Wrap32(MAX_INT32 - n) == MAX_INT32 - n - 0x1_0000_0000;
      }
    }
  }

  /** On a negative window an accepted increment always wraps the counter round to the other sign. */
  lemma NegativeWindowAddWraps(n: int32, k: int32)
    requires n < 0 && AddAccepts(n, k)
    ensures Wrap32(n + k) == n + k + 0x1_0000_0000
    ensures Wrap32(n + k) >= 0
  {
    assert Wrap32(MAX_INT32 - n) == MAX_INT32 - n - 0x1_0000_0000;
    assert n + k <= MAX_INT32 - 0x1_0000_0000;
  }

  /** A window; a stream's window points at the connection's, which points nowhere. */
  class Flow {
    var n: int32
    const conn: Flow?

    constructor (n: int32, conn: Flow?)
      requires conn != null ==> conn.conn == null
      ensures this.n == n && this.conn == conn
    {
      this.n := n;
      this.conn := conn;
    }

    /** Both windows must admit the bytes. */
    function Available(): (r: int32)
      reads this, conn
      ensures r <= n && (conn != null ==> r <= conn.n)
      ensures r == n || (conn != null && r == conn.n)
    {
      if conn != null && conn.n < n then conn.n else n
    }

    /** Debits both windows. The source panics when k exceeds what is available: that is the precondition. */
    method Take(k: int32)
      requires 0 <= k <= Available()
      requires conn != this
      modifies this, conn
      ensures n == old(n) - k
      ensures conn != null ==> conn.n == old(conn.n) - k
    {
      n := n - k;
      if conn != null {
        conn.n := conn.n - k;
      }
    }

    method Add(k: int32) returns (ok: bool)
      modifies this
      ensures ok == AddAccepts(old(n), k)
      ensures n == if ok then Wrap32(old(n) + k) else old(n)
      ensures old(n) >= 0 ==> ok == (old(n) + k <= MAX_INT32) && (ok ==> n == old(n) + k)
    {
      var remain := Wrap32(MAX_INT32 - n);
      if k > remain {
        return false;
      }
      n := Wrap32(n + k);
      return true;
    }
  }
}
