/** Chunked transfer coding: the writer, and the reader over any pattern of short reads. */
module Chunked {
  import opened Basics
  import opened Bytes
  import Hex

  const CR: byte := 13
  const LF: byte := 10
  const SPACE: byte := 32
  const TAB: byte := 9
  const SEMICOLON: byte := ';' as int
  const CRLF: bytes := [CR, LF]
  const MAX_LINE_LENGTH: int := 4096
  const BUFFER_SIZE: int := 4096
  const UINT64: int := 0x1_0000_0000_0000_0000

  datatype Err = NoErr | EOF | UnexpectedEOF | LineTooLong | Malformed | InvalidLength | LengthTooLarge

  // ----- the wire format -----

  /** The last chunk has length 0; the trailer after it belongs to whoever reads on. */
  const LAST: bytes := [Hex.ZERO] + CRLF

  function Header(n: nat): bytes {
    Hex.Print(n) + CRLF
  }

  function Chunk(d: bytes): bytes {
    Header(|d|) + (d + CRLF)
  }

  /** A slice's length fits in 63 bits. */
  predicate Chunks(cs: seq<bytes>) {
    forall i :: 0 <= i < |cs| ==> 0 < |cs[i]| < UINT64
  }

  function Encoded(cs: seq<bytes>): bytes {
    if cs == [] then [] else Chunk(cs[0]) + Encoded(cs[1..])
  }

  /** What is on the wire from a chunk boundary on. */
  function Wire(cs: seq<bytes>, tail: bytes): bytes {
    Encoded(cs) + (LAST + tail)
  }

  lemma {:induction false} EncodedAppend(cs: seq<bytes>, d: bytes)
    ensures Encoded(cs + [d]) == Encoded(cs) + Chunk(d)
  {
    if cs == [] {
      assert cs + [d] == [d] && [d][1..] == [];
    } else {
      assert (cs + [d])[1..] == cs[1..] + [d];
      EncodedAppend(cs[1..], d);
      Reassociate(Chunk(cs[0]), Encoded(cs[1..]), Chunk(d));
    }
  }

  class ChunkedWriter {
    var wire: bytes
    ghost var chunks: seq<bytes>

    ghost predicate Valid()
      reads this
    {
      Chunks(chunks) && wire == Encoded(chunks)
    }

    constructor ()
      ensures Valid() && chunks == []
    {
      wire, chunks := [], [];
    }

    /** One chunk per write; an empty write sends nothing, as an empty chunk would end the stream. */
    method Write(data: bytes) returns (n: nat)
      requires Valid() && |data| < UINT64
      modifies this
      ensures Valid() && n == |data| && Concat(chunks) == old(Concat(chunks)) + data
      ensures chunks == old(chunks) + if data == [] then [] else [data]
    {
      if |data| == 0 {
        return 0;
      }
      EncodedAppend(chunks, data);
      ConcatAppend(chunks, data);
      ghost var w := wire;
      wire := wire + (Hex.Print(|data|) + CRLF);
      wire := wire + data;
      wire := wire + CRLF;
      Reassociate(w + Header(|data|), data, CRLF);
      Reassociate(w, Header(|data|), data + CRLF);
      chunks := chunks + [data];
      n := |data|;
    }

    /** Ends the stream. */
    method Close()
      requires Valid()
      modifies this`wire
      ensures wire == Encoded(chunks) + LAST
    {
      wire := wire + ([Hex.ZERO] + CRLF);
    }
  }

  // ----- lines -----

  /** Where a byte first occurs, or the length. */
  function IndexOf(s: bytes, b: byte): (i: nat)
    ensures i <= |s| && (i < |s| ==> s[i] == b) && b !in s[..i]
  {
    if s == [] then 0
    else if s[0] == b then 0
    else
      var i := IndexOf(s[1..], b);
      assert s[..i + 1] == [s[0]] + s[1..][..i];
      i + 1
  }

  predicate IsSpace(b: byte) {
    b == SPACE || b == TAB || b == LF || b == CR
  }

  function Trim(s: bytes): bytes {
    if s != [] && IsSpace(s[|s| - 1]) then Trim(s[..|s| - 1]) else s
  }

  datatype Line = Line(line: bytes, err: Err, rest: bytes)

  /** A line of at most the size of the read buffer, without trailing space and chunk extensions. */
  function ReadLine(r: bytes): Line {
    var i := IndexOf(r, LF);
    if i >= BUFFER_SIZE then Line([], LineTooLong, r[BUFFER_SIZE..])
    else if i == |r| then Line([], UnexpectedEOF, [])
    else if i + 1 >= MAX_LINE_LENGTH then Line([], LineTooLong, r[i + 1..])
    else
      var p := Trim(r[..i + 1]);
      Line(p[..IndexOf(p, SEMICOLON)], NoErr, r[i + 1..])
  }

  method TrimTrailingWhitespace(p: bytes) returns (b: bytes)
    ensures b == Trim(p)
  {
    b := p;
    while |b| > 0 && IsSpace(b[|b| - 1])
      invariant Trim(b) == Trim(p)
    {
      b := b[..|b| - 1];
    }
  }

  /** readChunkLine, over what the buffered reader still has to give. */
  method ReadChunkLine(r: bytes) returns (l: Line)
    ensures l == ReadLine(r)
  {
    var i := IndexOf(r, LF);
    if i >= BUFFER_SIZE {
      return Line([], LineTooLong, r[BUFFER_SIZE..]);
    }
    if i == |r| {
      return Line([], UnexpectedEOF, []);
    }
    if i + 1 >= MAX_LINE_LENGTH {
      return Line([], LineTooLong, r[i + 1..]);
    }
    var p := TrimTrailingWhitespace(r[..i + 1]);
    l := Line(p[..IndexOf(p, SEMICOLON)], NoErr, r[i + 1..]);
  }

  lemma {:induction false} IndexOfAt(s: bytes, b: byte, i: nat)
    requires i < |s| && s[i] == b && b !in s[..i]
    ensures IndexOf(s, b) == i
  {
    if i > 0 {
      assert s[0] in s[..i];
      assert forall k :: k in s[1..][..i - 1] ==> k in s[..i];
      IndexOfAt(s[1..], b, i - 1);
    }
  }

  lemma {:induction false} IndexOfNone(s: bytes, b: byte)
    requires b !in s
    ensures IndexOf(s, b) == |s|
  {
    if s != [] {
      IndexOfNone(s[1..], b);
    }
  }

  lemma DigitsArePlain(s: bytes)
    requires Hex.AllDigits(s)
    ensures LF !in s && SEMICOLON !in s
  {
  }

  lemma TrimHeader(s: bytes)
    requires s != [] && Hex.AllDigits(s)
    ensures Trim(s + CRLF) == s
  {
    var t := s + CRLF;
    assert t[..|t| - 1] == s + [CR] && (s + [CR])[..|s|] == s;
    assert Trim(t) == Trim(s + [CR]) == Trim(s);
    assert !IsSpace(s[|s| - 1]);
  }

  /** A chunk header is read as the length it was printed from. */
  lemma HeaderRead(n: nat, more: bytes)
    requires n < UINT64
    ensures ReadLine(Header(n) + more) == Line(Hex.Print(n), NoErr, more)
  {
    var s := Hex.Print(n);
    var r := Header(n) + more;
    Hex.Pow16At16();
    Hex.PrintLength(n, 16);
    DigitsArePlain(s);
    var i := |s| + 1;
    assert r[i] == LF && r[..i] == s + [CR] && r[..i + 1] == s + CRLF && r[i + 1..] == more;
    IndexOfAt(r, LF, i);
    TrimHeader(s);
    IndexOfNone(s, SEMICOLON);
  }

  // ----- a stream from the chunked writer, partly read -----

  /** The chunks to come, the rest of the current one, and what follows the last chunk. */
  datatype Stream = Stream(chunks: seq<bytes>, left: bytes, tail: bytes)

  /** What is still to be delivered. */
  function Payload(s: Stream): bytes {
    s.left + Concat(s.chunks)
  }

  /** The reader's fields when it is somewhere in such a stream. */
  ghost predicate Good(r: bytes, n: nat, err: Err, checkEnd: bool, s: Stream) {
    && Chunks(s.chunks) && n == |s.left| && (checkEnd ==> n == 0)
    && (err == EOF || err == NoErr)
    && (err == EOF ==> s.chunks == [] && s.left == [] && r == s.tail)
    && (err == NoErr ==>
          r == if checkEnd || n > 0 then s.left + (CRLF + Wire(s.chunks, s.tail)) else Wire(s.chunks, s.tail))
  }

  /** A buffer that held b0 now starts with got, which is count bytes. */
  ghost predicate Filled(b: bytes, got: bytes, b0: bytes, count: nat) {
    count == |got| <= |b0| && b == got + b0[count..]
  }

  /** Of the payload all, got has been read and the rest is still to come. */
  ghost predicate Splits(all: bytes, got: bytes, s: Stream) {
    all == got + Payload(s)
  }

  /** At a chunk boundary the next header is that of the next chunk, or of the last one. */
  lemma NextHeader(r: bytes, cs: seq<bytes>, tail: bytes)
    requires Chunks(cs) && r == Wire(cs, tail)
    ensures var l := ReadLine(r);
      && l.err == NoErr
      && (cs == [] ==> Hex.Parse(l.line) == Hex.Ok(0) && l.rest == tail)
      && (cs != [] ==> Hex.Parse(l.line) == Hex.Ok(|cs[0]|) && l.rest == cs[0] + (CRLF + Wire(cs[1..], tail)))
  {
    if cs == [] {
      assert Hex.Print(0) == [Hex.ZERO];
      assert r == Header(0) + tail;
      HeaderRead(0, tail);
      Hex.ParsePrint(0);
    } else {
      var d := cs[0];
      var more := d + (CRLF + Wire(cs[1..], tail));
      assert r == Header(|d|) + more by {
        Reassociate(Chunk(d), Encoded(cs[1..]), LAST + tail);
        Reassociate(Header(|d|), d + CRLF, Wire(cs[1..], tail));
        Reassociate(d, CRLF, Wire(cs[1..], tail));
      }
      HeaderRead(|d|, more);
      Hex.ParsePrint(|d|);
    }
  }

  function Next(s: Stream): Stream {
    if s.chunks == [] then s else Stream(s.chunks[1..], s.chunks[0], s.tail)
  }

  lemma BeginGood(r: bytes, s: Stream)
    requires Good(r, 0, NoErr, false, s)
    ensures var l := ReadLine(r);
      var p := Hex.Parse(l.line);
      && l.err == NoErr && p.Ok? && (p.value == 0 <==> Payload(s) == [])
      && Good(l.rest, p.value, if p.value == 0 then EOF else NoErr, false, Next(s)) && Payload(Next(s)) == Payload(s)
  {
    NextHeader(r, s.chunks, s.tail);
    assert s.left == [];
    if s.chunks != [] {
      assert [] + Concat(s.chunks) == Concat(s.chunks);
    }
  }

  lemma EndGood(r: bytes, s: Stream)
    requires Good(r, 0, NoErr, true, s)
    ensures |r| >= 2 && r[..2] == CRLF && Good(r[2..], 0, NoErr, false, s)
  {
    assert r == CRLF + Wire(s.chunks, s.tail);
  }

  function Taken(s: Stream, k: nat): Stream
    requires k <= |s.left|
  {
    s.(left := s.left[k..])
  }

  lemma TakeGood(r: bytes, n: nat, s: Stream, k: nat)
    requires Good(r, n, NoErr, false, s) && 0 < k <= n && k <= |r|
    ensures Good(r[k..], n - k, NoErr, k == n, Taken(s, k)) && Payload(s) == r[..k] + Payload(Taken(s, k))
  {
    var more := CRLF + Wire(s.chunks, s.tail);
    assert r[..k] == s.left[..k] && r[k..] == s.left[k..] + more;
    assert s.left == s.left[..k] + s.left[k..];
    Reassociate(s.left[..k], s.left[k..], Concat(s.chunks));
  }

  // ----- the reader -----

  class ChunkedReader {
    /** The bytes that the buffered reader still has to give. */
    var r: bytes
    /** Unread bytes in the current chunk. */
    var n: nat
    var err: Err
    var checkEnd: bool

    /** The stream that is being read, if it came from the chunked writer. */
    ghost var s: Stream

    ghost predicate Valid()
      reads this
    {
      (checkEnd ==> n == 0) && n < UINT64
    }

    ghost predicate WellFormed()
      reads this
    {
      Good(r, n, err, checkEnd, s)
    }

    constructor (r: bytes, ghost s: Stream)
      ensures Valid() && this.r == r && this.s == s && err == NoErr
      ensures Chunks(s.chunks) && s.left == [] && r == Wire(s.chunks, s.tail) ==> WellFormed()
    {
      this.r, n, err, checkEnd := r, 0, NoErr, false;
      this.s := s;
    }

    /** How many bytes are buffered is up to the connection. */
    method Buffered() returns (k: nat)
      ensures k <= |r|
    {
      k :| 0 <= k <= |r|;
    }

    method ChunkHeaderAvailable() returns (ok: bool)
      ensures ok ==> LF in r
    {
      var k := Buffered();
      ok := LF in r[..k];
    }

    method BeginChunk()
      requires Valid() && n == 0 && !checkEnd
      modifies this
      ensures Valid() && !checkEnd && |r| <= |old(r)| && (err == NoErr ==> |r| < |old(r)| && n > 0)
      ensures old(WellFormed() && err == NoErr) ==>
                WellFormed() && Payload(s) == old(Payload(s)) && s.tail == old(s.tail)
      ensures old(WellFormed() && err == NoErr) && old(Payload(s)) == [] ==> err == EOF
    {
      if WellFormed() && err == NoErr {
        BeginGood(r, s);
        s := Next(s);
      }
      var l := ReadChunkLine(r);
      r, err := l.rest, l.err;
      if err != NoErr {
        return;
      }
      var p := Hex.ParseHexUint(l.line);
      if p.Ok? {
        n := p.value;
        if n == 0 {
          err := EOF;
        }
      } else {
        err := if p.InvalidByte? then InvalidLength else LengthTooLarge;
      }
    }

    /** The two bytes after a chunk; stop tells that there is data to return and waiting for them could block. */
    method CheckEnd(count: nat) returns (stop: bool)
      requires Valid() && err == NoErr && checkEnd
      modifies this`r, this`err, this`checkEnd
      ensures |r| <= |old(r)| && (err == NoErr && !stop ==> |r| < |old(r)|)
      ensures stop && err == NoErr ==> count > 0
      ensures !stop ==> !checkEnd
      ensures old(WellFormed()) ==> WellFormed() && err == NoErr
    {
      var k := Buffered();
      if count > 0 && k < 2 {
        return true;
      }
      if WellFormed() {
        EndGood(r, s);
      }
      if |r| < 2 {
        err := if r == [] then EOF else UnexpectedEOF;
        r := [];
      } else {
        var two := r[..2];
        r := r[2..];
        if two != CRLF {
          err := Malformed;
          return true;
        }
      }
      checkEnd := false;
      stop := false;
    }

    /** Bytes of the current chunk, as many as the buffered reader cares to give at once. */
    method ReadSome(b: array<byte>, count: nat) returns (n0: nat)
      requires Valid() && err == NoErr && !checkEnd && n > 0 && count < b.Length
      modifies this, b
      ensures Valid() && n0 <= |old(r)| && count + n0 <= b.Length
      ensures b[..] == old(b[..])[..count] + old(r)[..n0] + old(b[..])[count + n0..]
      ensures r == old(r)[n0..] && (n0 > 0 || err != NoErr)
      ensures old(WellFormed()) ==> && WellFormed() && n0 > 0 && err == NoErr && s.tail == old(s.tail)
                                    && old(Payload(s)) == old(r)[..n0] + Payload(s)
    {
      var size := if b.Length - count > n then n else b.Length - count;
      if |r| == 0 {
        n0, err := 0, EOF;
      } else {
        n0 :| 0 < n0 <= size && n0 <= |r|;
        CopyIn(b, count, r[..n0]);
      }
      Advance(n0);
    }

    /** n0 bytes of the chunk are gone. */
    method Advance(n0: nat)
      requires Valid() && !checkEnd && n0 <= n && n0 <= |r| && n > 0 && (n0 > 0 <==> err == NoErr)
      modifies this
      ensures Valid() && r == old(r)[n0..] && err == old(err)
      ensures old(WellFormed() && err == NoErr) ==> && WellFormed() && s.tail == old(s.tail)
                                                    && old(Payload(s)) == old(r)[..n0] + Payload(s)
    {
      if WellFormed() && err == NoErr {
        TakeGood(r, n, s, n0);
        s := Taken(s, n0);
      }
      r := r[n0..];
      n := n - n0;
      if n == 0 && err == NoErr {
        checkEnd := true;
      }
    }

    /** got is what was read into b so far, b0 what b held before. */
    method ReadOn(b: array<byte>, ghost got: bytes, ghost b0: bytes, count: nat, ghost wf: bool, ghost all: bytes)
      returns (n0: nat, ghost more: bytes)
      requires Valid() && err == NoErr && !checkEnd && n > 0 && count < b.Length && Filled(b[..], got, b0, count)
      requires wf ==> WellFormed() && Splits(all, got, s)
      modifies this, b
      ensures Valid() && |r| <= |old(r)| && Filled(b[..], more, b0, count + n0)
      ensures err == NoErr ==> |r| < |old(r)|
      ensures wf ==> WellFormed() && n0 > 0 && s.tail == old(s.tail) && Splits(all, more, s)
    {
      ghost var was := r;
      n0 := ReadSome(b, count);
      Grown(got, b0, was[..n0]);
      Reassociate(got, was[..n0], Payload(s));
      more := got + was[..n0];
    }

    /** One turn of the read loop: the end of a chunk, the start of one, or some of its bytes. */
    method Turn(b: array<byte>, ghost got: bytes, ghost b0: bytes, count: nat, ghost wf: bool, ghost all: bytes)
      returns (stop: bool, n0: nat, ghost more: bytes)
      requires Valid() && err == NoErr && Filled(b[..], got, b0, count)
      requires wf ==> WellFormed() && Splits(all, got, s)
      modifies this, b
      ensures Valid() && Filled(b[..], more, b0, count + n0)
      ensures !stop ==> |r| < |old(r)| || (err != NoErr && |r| <= |old(r)|)
      ensures wf ==> WellFormed() && s.tail == old(s.tail) && Splits(all, more, s)
      ensures wf && stop ==> count > 0 || b.Length == 0
    {
      n0, more, stop := 0, got, false;
      if checkEnd {
        stop := CheckEnd(count);
        if stop {
          return;
        }
      }
      if n == 0 {
        var available := ChunkHeaderAvailable();
        if count > 0 && !available {
          stop := true;
          return;
        }
        BeginChunk();
        return;
      }
      if count == b.Length {
        stop := true;
        return;
      }
      n0, more := ReadOn(b, got, b0, count, wf, all);
    }

    /** Fills b with payload until it is full, the stream ends, or waiting for more could block. */
    method Read(b: array<byte>) returns (count: nat, e: Err)
      requires Valid()
      modifies this, b
      ensures Valid() && count <= b.Length && e == err && b[count..] == old(b[..])[count..]
      ensures old(err) != NoErr ==> count == 0 && err == old(err) && r == old(r)
      ensures old(WellFormed()) ==> WellFormed() && s.tail == old(s.tail) && old(Payload(s)) == b[..count] + Payload(s)
      ensures old(WellFormed()) && b.Length > 0 && old(Payload(s)) != [] ==> count > 0
      ensures old(WellFormed()) && b.Length > 0 && old(Payload(s)) == [] ==> e == EOF
    {
      ghost var wf, payload, b0 := WellFormed(), Payload(s), b[..];
      ghost var got;
      count, got := ReadLoop(b);
      Parts(b[..], got, b0);
      if wf {
        AtEnd(r, n, err, checkEnd, s);
        assert |payload| == |got| + |Payload(s)|;
      }
      e := err;
    }

    method ReadLoop(b: array<byte>) returns (count: nat, ghost got: bytes)
      requires Valid()
      modifies this, b
      ensures Valid() && Filled(b[..], got, old(b[..]), count)
      ensures old(err) != NoErr ==> count == 0 && err == old(err) && r == old(r)
      ensures old(WellFormed()) ==> WellFormed() && s.tail == old(s.tail) && Splits(old(Payload(s)), got, s)
      ensures old(WellFormed()) && err == NoErr ==> count > 0 || b.Length == 0
    {
      ghost var wf, payload, tail := WellFormed(), Payload(s), s.tail;
      ghost var b0 := b[..];
      count, got := 0, [];
      StartFilled(b0, s);
      while err == NoErr
        invariant Valid() && Filled(b[..], got, b0, count)
        invariant old(err) != NoErr ==> count == 0 && err == old(err) && r == old(r)
        invariant wf ==> WellFormed() && s.tail == tail && Splits(payload, got, s)
        decreases |r| + if err == NoErr then 1 else 0
      {
        var stop, n0, more := Turn(b, got, b0, count, wf, payload);
        got := more;
        count := count + n0;
        if stop {
          return;
        }
      }
    }
  }

  lemma StartFilled(b: bytes, s: Stream)
    ensures Filled(b, [], b, 0) && Splits(Payload(s), [], s)
  {
  }

  lemma AtEnd(r: bytes, n: nat, err: Err, checkEnd: bool, s: Stream)
    requires Good(r, n, err, checkEnd, s)
    ensures err != NoErr ==> Payload(s) == [] && r == s.tail && err == EOF
  {
  }

  // ----- the round trip -----

  function Positive(sizes: seq<nat>): nat {
    if sizes == [] then 0 else Positive(sizes[..|sizes| - 1]) + if sizes[|sizes| - 1] > 0 then 1 else 0
  }

  lemma ConcatUpTo(cs: seq<bytes>, i: nat)
    requires i < |cs|
    ensures Concat(cs[..i + 1]) == Concat(cs[..i]) + cs[i]
  {
    assert cs[..i + 1] == cs[..i] + [cs[i]];
    ConcatAppend(cs[..i], cs[i]);
  }

  lemma PositiveUpTo(sizes: seq<nat>, i: nat)
    requires i < |sizes|
    ensures Positive(sizes[..i + 1]) == Positive(sizes[..i]) + if sizes[i] > 0 then 1 else 0
  {
    assert sizes[..i + 1][..i] == sizes[..i];
  }

  method WriteAll(writes: seq<bytes>) returns (wire: bytes, ghost chunks: seq<bytes>)
    requires forall i :: 0 <= i < |writes| ==> |writes[i]| < UINT64
    ensures Chunks(chunks) && wire == Encoded(chunks) + LAST && Concat(chunks) == Concat(writes)
  {
    var cw := new ChunkedWriter();
    for i := 0 to |writes|
      invariant cw.Valid() && Concat(cw.chunks) == Concat(writes[..i])
    {
      ConcatUpTo(writes, i);
      var _ := cw.Write(writes[i]);
    }
    assert writes[..|writes|] == writes;
    cw.Close();
    wire, chunks := cw.wire, cw.chunks;
  }

  /**
   * For any writes, any read sizes and any pattern of short reads: what is read is a prefix of what was written; at
   * the end it is all of it, and what follows the last chunk is not touched; and the end is reached once there have
   * been more non-empty reads than bytes.
   */
  method Transfer(writes: seq<bytes>, sizes: seq<nat>, tail: bytes) returns (got: bytes, ended: bool, unread: bytes)
    requires forall i :: 0 <= i < |writes| ==> |writes[i]| < UINT64
    ensures got <= Concat(writes)
    ensures ended ==> got == Concat(writes) && unread == tail
    ensures Positive(sizes) > |Concat(writes)| ==> ended
  {
    var wire, chunks := WriteAll(writes);
    ghost var all := Concat(writes);
    Reassociate(Encoded(chunks), LAST, tail);
    var cr := new ChunkedReader(wire + tail, Stream(chunks, [], tail));
    got, ended := [], false;
    assert [] + all == all;
    for i := 0 to |sizes|
      invariant fresh(cr) && cr.Valid() && cr.WellFormed() && cr.s.tail == tail && all == got + Payload(cr.s)
      invariant ended <==> cr.err == EOF
      invariant ended || |got| >= Positive(sizes[..i])
    {
      var b := new byte[sizes[i]](_ => 0);
      PositiveUpTo(sizes, i);
      var count, e := cr.Read(b);
      Reassociate(got, b[..count], Payload(cr.s));
      got := got + b[..count];
      ended := e == EOF;
    }
    assert sizes[..|sizes|] == sizes;
    unread := cr.r;
  }
}
