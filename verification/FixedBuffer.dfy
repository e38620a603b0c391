/** A byte queue in a fixed array: it moves old bytes to the front instead of growing. */
module FixedBuffer {
  import opened Basics
  import opened Bytes

  datatype Error = NoError | ReadEmpty | WriteFull

  class Buffer {
    const buf: array<byte>
    var r: nat
    var w: nat

    /** Every byte that was accepted, and every byte that was handed out. */
    ghost var input: seq<byte>
    ghost var output: seq<byte>

    /** What went in is what came out followed by what is still inside. */
    ghost predicate Valid()
      reads this, buf
    {
      r <= w <= buf.Length && input == output + Contents()
    }

    ghost function Contents(): seq<byte>
      requires r <= w <= buf.Length
      reads this, buf
    {
      buf[r..w]
    }

    constructor (size: nat)
      ensures Valid() && fresh(buf) && buf.Length == size && Contents() == [] && input == []
    {
      buf := new byte[size](_ => 0);
      r, w := 0, 0;
      input, output := [], [];
    }

    function Len(): (n: nat)
      requires Valid()
      reads this, buf
      ensures n == |Contents()|
    {
      w - r
    }

    /** The oldest bytes, as many as fit in p; an empty buffer is an error. */
    method Read(p: array<byte>) returns (n: nat, e: Error)
      requires Valid() && p != buf
      modifies this, p
      ensures Valid() && input == old(input)
      ensures n == Min(p.Length, |old(Contents())|)
      ensures e == (if old(Contents()) == [] then ReadEmpty else NoError)
      ensures p[..n] == old(Contents())[..n] && p[n..] == old(p[n..])
      ensures Contents() == old(Contents())[n..] && output == old(output) + p[..n]
    {
      if r == w {
        return 0, ReadEmpty;
      }
      ghost var was := Contents();
      n := Min(p.Length, w - r);
      CopyOut(p, n);
      r := r + n;
      Divide(output, was, n);
      output := output + was[..n];
      if r == w {
        r, w := 0, 0;
      }
      e := NoError;
    }

    method CopyOut(p: array<byte>, n: nat)
      requires r <= w <= buf.Length && n <= p.Length && n <= w - r && p != buf
      modifies p
      ensures p[..n] == Contents()[..n] && p[n..] == old(p[n..])
    {
      for i := 0 to n
        invariant forall k :: 0 <= k < i ==> p[k] == buf[r + k]
        invariant p[n..] == old(p[n..])
      {
        p[i] := buf[r + i];
      }
    }

    /** Moves the unread bytes to the front. */
    method Compact()
      requires Valid() && r > 0
      modifies this`r, this`w, buf
      ensures Valid() && r == 0 && Contents() == old(Contents())
    {
      ghost var was := Contents();
      for i := 0 to w - r
        invariant r == old(r) && w == old(w)
        invariant forall k :: 0 <= k < i ==> buf[k] == was[k]
        invariant forall k :: i <= k < w - r ==> buf[r + k] == was[k]
      {
        buf[i] := buf[r + i];
      }
      w, r := w - r, 0;
      SameBytes(buf[..w], was);
    }

    /** As much of p as there is room for, counting the room in front; anything less than all of p is an error. */
    method Write(p: seq<byte>) returns (n: nat, e: Error)
      requires Valid()
      modifies this, buf
      ensures Valid() && output == old(output)
      ensures n == Min(|p|, buf.Length - |old(Contents())|)
      ensures e == if n < |p| then WriteFull else NoError
      ensures Contents() == old(Contents()) + p[..n] && input == old(input) + p[..n]
    {
      if r > 0 && |p| > buf.Length - w {
        Compact();
      }
      n := Min(|p|, buf.Length - w);
      Append(p, n);
      e := if n < |p| then WriteFull else NoError;
    }

    method Append(p: seq<byte>, n: nat)
      requires Valid() && n <= |p| && w + n <= buf.Length
      modifies this`w, this`input, buf
      ensures Valid() && Contents() == old(Contents()) + p[..n] && input == old(input) + p[..n]
    {
      ghost var was := Contents();
      Fill(p, n);
      Split(buf[..], r, w, n);
      Reassociate(output, was, p[..n]);
      w := w + n;
      input := input + p[..n];
    }

    method Fill(p: seq<byte>, n: nat)
      requires r <= w && w + n <= buf.Length && n <= |p|
      modifies buf
      ensures buf[..w] == old(buf[..w]) && buf[w..w + n] == p[..n]
    {
      for i := 0 to n
        invariant buf[..w] == old(buf[..w])
        invariant forall k :: 0 <= k < i ==> buf[w + k] == p[k]
      {
        buf[w + i] := p[i];
      }
    }
  }

  datatype Op = Put(p: seq<byte>) | Get(size: nat)

  /** Any run of writes and reads: the bytes read are the bytes accepted, in order, less those still inside. */
  method Exercise(size: nat, ops: seq<Op>) returns (accepted: seq<byte>, delivered: seq<byte>, left: nat)
    ensures delivered <= accepted && left == |accepted| - |delivered| <= size
  {
    var b := new Buffer(size);
    accepted, delivered := [], [];
    for i := 0 to |ops|
      invariant b.Valid() && b.buf.Length == size && fresh(b) && fresh(b.buf)
      invariant accepted == b.input && delivered == b.output
    {
      match ops[i]
      case Put(p) =>
        var n, _ := b.Write(p);
        accepted := accepted + p[..n];
      case Get(k) =>
        var d := new byte[k](_ => 0);
        var n, _ := b.Read(d);
        delivered := delivered + d[..n];
    }
    left := b.Len();
  }

  lemma Split(b: seq<byte>, r: nat, w: nat, n: nat)
    requires r <= w && w + n <= |b|
    ensures b[r..w + n] == b[..w][r..] + b[w..w + n] && b[r..w] == b[..w][r..]
  {
  }

  lemma SameBytes(a: seq<byte>, b: seq<byte>)
    requires |a| == |b| && forall k :: 0 <= k < |a| ==> a[k] == b[k]
    ensures a == b
  {
  }
}
