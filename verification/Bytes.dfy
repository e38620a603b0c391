/** Bytes, and filling a buffer from the front. */
module Bytes {
  import opened Basics

  /** Copies s into b, in place. */
  method CopyIn(b: array<byte>, at: nat, s: bytes)
    requires at + |s| <= b.Length
    modifies b
    ensures b[..] == old(b[..])[..at] + s + old(b[..])[at + |s|..]
  {
    for i := 0 to |s|
      invariant b[..at] == old(b[..at]) && b[at..at + i] == s[..i] && b[at + |s|..] == old(b[..])[at + |s|..]
    {
      b[at + i] := s[i];
    }
    assert b[..] == b[..at] + b[at..at + |s|] + b[at + |s|..];
  }

  /** A buffer that held b0 and was filled with got takes d behind it. */
  lemma Grown(got: bytes, b0: bytes, d: bytes)
    requires |got| + |d| <= |b0|
    ensures var had := got + b0[|got|..];
      had[..|got|] + d + had[|got| + |d|..] == got + d + b0[|got| + |d|..]
  {
    var had := got + b0[|got|..];
    assert had[..|got|] == got && had[|got| + |d|..] == b0[|got| + |d|..];
  }

  lemma Parts(b: bytes, got: bytes, b0: bytes)
    requires |got| <= |b0| && b == got + b0[|got|..]
    ensures b[..|got|] == got && b[|got|..] == b0[|got|..]
  {
  }

  lemma Divide(a: bytes, b: bytes, n: nat)
    requires n <= |b|
    ensures a + b == a + b[..n] + b[n..]
  {
  }
}
