/** The SSH channel buffer: a linked list of byte slices, written at the tail and read from the head. */
module SshBuffer {
  import opened Basics
  import opened Bytes

  class Element {
    var buf: bytes
    var next: Element?

    constructor (buf: bytes)
      ensures this.buf == buf && next == null
    {
      this.buf, next := buf, null;
    }
  }

  /** Blocked: nothing to read yet, the reader waits for a write or the end. */
  datatype Outcome = NoError | EOF | Blocked

  lemma ConcatCut(bufs: seq<bytes>, r: nat)
    requires bufs != [] && r <= |bufs[0]|
    ensures Concat(bufs) == bufs[0][..r] + Concat([bufs[0][r..]] + bufs[1..])
  {
    var first, rest := bufs[0], bufs[1..];
    assert first == first[..r] + first[r..];
    assert ([first[r..]] + rest)[1..] == rest;
    Reassociate(first[..r], first[r..], Concat(rest));
  }

  /** From the first element to the last by next, without repetition, holding the given slices. */
  ghost predicate Chain(es: seq<Element>, bufs: seq<bytes>)
    reads es
  {
    && es != [] && |bufs| == |es|
    && (forall i, j :: 0 <= i < j < |es| ==> es[i] != es[j])
    && (forall i :: 0 <= i < |es| ==> es[i].buf == bufs[i])
    && (forall i :: 0 <= i < |es| - 1 ==> es[i].next == es[i + 1])
    && es[|es| - 1].next == null
  }

  /** A read under way: got was read into a buffer that held b0; all was there to read, out had been read before. */
  datatype Partial = Partial(got: bytes, b0: bytes, all: bytes, out: bytes) {
    ghost predicate Holds(b: bytes, rest: bytes, output: bytes) {
      |got| <= |b0| && b == got + b0[|got|..] && all == got + rest && output == out + got
    }

    lemma Begin()
      requires got == []
      ensures Holds(b0, all, out)
    {
      assert [] + b0[0..] == b0 && [] + all == all && out + [] == out;
    }

    /** d more bytes were read, and went into b behind the others. */
    lemma More(d: bytes, b: bytes, rest: bytes, output: bytes, b': bytes, rest': bytes)
      requires Holds(b, rest, output) && |got| + |d| <= |b0| && rest == d + rest'
      requires b' == b[..|got|] + d + b[|got| + |d|..]
      ensures this.(got := got + d).Holds(b', rest', output + d)
    {
      Grown(got, b0, d);
      Reassociate(got, d, rest');
      Reassociate(out, got, d);
    }

    lemma End(b: bytes, rest: bytes, output: bytes)
      requires Holds(b, rest, output)
      ensures b[..|got|] == got == all[..|got|] && b[|got|..] == b0[|got|..] && rest == all[|got|..]
      ensures |all| == |got| + |rest|
    {
    }
  }

  class Buffer {
    var head: Element
    var tail: Element
    var closed: bool

    /** The elements from head to tail and their slices; everything written, and everything read. */
    ghost var elems: seq<Element>
    ghost var bufs: seq<bytes>
    ghost var input: bytes
    ghost var output: bytes

    /** What was written is what was read followed by what remains in the list. */
    ghost predicate Valid()
      reads this, elems
    {
      Chain(elems, bufs) && head == elems[0] && tail == elems[|elems| - 1] && input == output + Contents()
    }

    ghost function Contents(): bytes
      reads this`bufs
    {
      Concat(bufs)
    }

    constructor ()
      ensures Valid() && Contents() == [] && !closed && input == [] && fresh(elems)
    {
      var e := new Element([]);
      head, tail, closed := e, e, false;
      elems, bufs, input, output := [e], [[]], [], [];
    }

    method Write(buf: bytes)
      requires Valid()
      modifies this, tail
      ensures Valid() && Contents() == old(Contents()) + buf && input == old(input) + buf && output == old(output)
      ensures closed == old(closed)
      ensures |elems| == |old(elems)| + 1 && fresh(elems[|old(elems)|])
      ensures forall i :: 0 <= i < |old(elems)| ==> elems[i] == old(elems)[i]
    {
      var e := new Element(buf);
      tail.next := e;
      tail := e;
      ConcatAppend(bufs, buf);
      Reassociate(output, Concat(bufs), buf);
      elems, bufs := elems + [e], bufs + [buf];
      input := input + buf;
    }

    method Eof()
      requires Valid()
      modifies this`closed
      ensures Valid() && closed && Contents() == old(Contents())
    {
      closed := true;
    }

    /** Up to k bytes leave the front element. */
    method TakeFront(k: nat) returns (d: bytes)
      requires Valid()
      modifies this`bufs, this`output, head
      ensures Valid() && d == old(bufs)[0][..Min(k, |old(bufs)[0]|)] && old(Contents()) == d + Contents()
      ensures output == old(output) + d && bufs == [old(bufs)[0][|d|..]] + old(bufs)[1..]
    {
      var r := Min(k, |head.buf|);
      d := head.buf[..r];
      ConcatCut(bufs, r);
      head.buf := head.buf[r..];
      bufs := [bufs[0][r..]] + bufs[1..];
      Reassociate(output, d, Concat(bufs));
      output := output + d;
    }

    /** What fits of the front element goes into b, behind what was read so far. */
    method ReadFront(b: array<byte>, n: nat, ghost p: Partial) returns (d: bytes, ghost q: Partial)
      requires Valid() && bufs[0] != [] && n == |p.got| < b.Length && p.Holds(b[..], Contents(), output)
      modifies this`bufs, this`output, head, b
      ensures Valid() && 0 < |d| && n + |d| == |q.got| && q == p.(got := p.got + d)
      ensures q.Holds(b[..], Contents(), output)
      ensures |bufs| == |old(bufs)|
    {
      ghost var b0, rest, out := b[..], Contents(), output;
      d := TakeFront(b.Length - n);
      CopyIn(b, n, d);
      p.More(d, b0, rest, out, b[..], Contents());
      q := p.(got := p.got + d);
    }

    /** An empty front element that is not the last is passed over. */
    method Advance()
      requires Valid() && bufs[0] == [] && head != tail
      modifies this`head, this`elems, this`bufs
      ensures Valid() && Contents() == old(Contents()) && elems == old(elems)[1..] && |bufs| == |old(bufs)| - 1
    {
      assert elems[0].next == elems[1];
      head := head.next;
      assert [] + Concat(bufs[1..]) == Concat(bufs[1..]);
      elems, bufs := elems[1..], bufs[1..];
    }

    /**
     * Reads as many bytes as there are and fit. The end is only reported when the buffer was closed and nothing
     * remains; with nothing to read and the buffer open, the reader waits.
     */
    method Read(b: array<byte>) returns (n: nat, e: Outcome)
      requires Valid()
      modifies this`head, this`elems, this`bufs, this`output, elems, b
      ensures Valid() && n == Min(b.Length, |old(Contents())|) && b[n..] == old(b[..])[n..]
      ensures b[..n] == old(Contents())[..n] && Contents() == old(Contents())[n..] && output == old(output) + b[..n]
      ensures e == EOF <==> b.Length > 0 && old(Contents()) == [] && closed
      ensures e == Blocked <==> b.Length > 0 && old(Contents()) == [] && !closed
      ensures forall i :: 0 <= i < |elems| ==> elems[i] in old(elems)
    {
      ghost var p := Partial([], b[..], Contents(), output);
      n, e := 0, NoError;
      p.Begin();
      while n < b.Length
        invariant Valid() && n == |p.got| <= b.Length && closed == old(closed)
        invariant p == Partial(p.got, old(b[..]), old(Contents()), old(output)) && p.Holds(b[..], Contents(), output)
        invariant forall i :: 0 <= i < |elems| ==> elems[i] in old(elems)
        decreases b.Length - n, |bufs|
      {
        assert head == elems[0] && head in elems;
        if |head.buf| > 0 {
          var d, q := ReadFront(b, n, p);
          p := q;
          n := n + |d|;
          continue;
        }
        if head != tail {
          Advance();
          continue;
        }
        Emptied();
        if n > 0 {
          break;
        }
        e := if closed then EOF else Blocked;
        break;
      }
      p.End(b[..], Contents(), output);
    }

    lemma Emptied()
      requires Valid() && bufs[0] == [] && head == tail
      ensures Contents() == []
    {
      assert elems[0] == elems[|elems| - 1];
      assert bufs[1..] == [] && Concat(bufs) == bufs[0] + Concat(bufs[1..]);
    }
  }

  datatype Op = Put(d: bytes) | Close | Get(size: nat)

  /** One operation: what it wrote, what it read, and whether it saw the end. */
  method Step(b: Buffer, op: Op) returns (written: bytes, read: bytes, ended: bool)
    requires b.Valid()
    modifies b, b.elems
    ensures b.Valid() && forall i :: 0 <= i < |b.elems| ==> b.elems[i] in old(b.elems) || fresh(b.elems[i])
    ensures b.input == old(b.input) + written && b.output == old(b.output) + read
    ensures ended ==> b.output == b.input
  {
    written, read, ended := [], [], false;
    match op
    case Put(d) =>
      b.Write(d);
      written := d;
    case Close => b.Eof();
    case Get(size) =>
      var a := new byte[size](_ => 0);
      var n, e := b.Read(a);
      read := a[..n];
      ended := e == EOF;
  }

  /**
   * Any interleaving: the bytes read are a prefix of the bytes written, and the end is only seen when it is all of
   * them.
   */
  method Exercise(ops: seq<Op>) returns (written: bytes, read: bytes, ended: bool)
    ensures read <= written && (ended ==> read == written)
  {
    var b := new Buffer();
    written, read, ended := [], [], false;
    for i := 0 to |ops|
      invariant b.Valid() && fresh(b) && forall k :: 0 <= k < |b.elems| ==> fresh(b.elems[k])
      invariant written == b.input && read == b.output && (ended ==> read == written)
    {
      var w, r;
      w, r, ended := Step(b, ops[i]);
      written, read := written + w, read + r;
    }
  }
}
