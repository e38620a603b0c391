/** Header blocks cut into HEADERS (or PUSH_PROMISE) and CONTINUATION frames, and put together again. */
module HeaderBlocks {
  import opened Basics
  import opened Protocol
  import opened Frames
  import opened FrameStreams
  import opened Framing

  const MAX_FRAGMENT: int := 16384

  /** The first frame of a block: a response or request header, or a promise. */
  datatype Block =
    | HeaderBlock(id: uint32, endStream: bool)
    | PromiseBlock(id: uint32, promiseID: uint32)

  /** writeHeaderBlock: the frame for one fragment. */
  function Piece(b: Block, frag: seq<byte>, first: bool, last: bool): Request {
    if !first then Continuation(b.id, last, frag)
    else
      match b
      case HeaderBlock(id, endStream) => Headers(id, frag, endStream, last, 0, NO_PRIORITY)
      case PromiseBlock(id, promiseID) => PushPromise(id, promiseID, frag, last, 0)
  }

  function Chunk(block: seq<byte>, size: nat): seq<byte> {
    if |block| > size then block[..size] else block
  }

  /** The frames of what is left of a block. */
  function Pieces(b: Block, block: seq<byte>, first: bool, size: nat): seq<Request>
    requires size > 0
    decreases |block|
  {
    if block == [] then []
    else
      var c := Chunk(block, size);
      [Piece(b, c, first, |c| == |block|)] + Pieces(b, block[|c|..], false, size)
  }

  function FragOf(q: Request): seq<byte> {
    match q
    case Headers(_, frag, _, _, _, _) => frag
    case PushPromise(_, _, frag, _, _) => frag
    case Continuation(_, _, frag) => frag
    case _ => []
  }

  function Fragments(qs: seq<Request>): seq<byte> {
    if qs == [] then [] else FragOf(qs[0]) + Fragments(qs[1..])
  }

  lemma PieceFrag(b: Block, frag: seq<byte>, first: bool, last: bool)
    ensures FragOf(Piece(b, frag, first, last)) == frag
  {
  }

  /** Nothing is lost or reordered. */
  lemma {:induction false} PiecesCover(b: Block, block: seq<byte>, first: bool, size: nat)
    requires size > 0
    ensures Fragments(Pieces(b, block, first, size)) == block
    decreases |block|
  {
    if block != [] {
      var c := Chunk(block, size);
      var left := block[|c|..];
      PieceFrag(b, c, first, |c| == |block|);
      PiecesCover(b, left, false, size);
      ChunkJoins(block, size);
      FragmentsStep(Piece(b, c, first, |c| == |block|), Pieces(b, left, false, size));
    }
  }

  lemma FragmentsStep(q: Request, qs: seq<Request>)
    ensures Fragments([q] + qs) == FragOf(q) + Fragments(qs)
  {
    assert ([q] + qs)[1..] == qs;
  }

  predicate Sized(qs: seq<Request>, size: nat) {
    forall i :: 0 <= i < |qs| ==> 0 < |FragOf(qs[i])| <= size
  }

  /** Every frame carries between one byte and size bytes. */
  lemma {:induction false} PiecesSized(b: Block, block: seq<byte>, first: bool, size: nat)
    requires size > 0
    ensures Sized(Pieces(b, block, first, size), size)
    decreases |block|
  {
    if block != [] {
      var c := Chunk(block, size);
      PieceFrag(b, c, first, |c| == |block|);
      PiecesSized(b, block[|c|..], false, size);
    }
  }

  /** Only a cut of size 0 fails to shorten a block: the client's loop would then not end. */
  lemma ChunkShortensIff(block: seq<byte>, size: nat)
    requires block != []
    ensures |block[|Chunk(block, size)|..]| < |block| <==> size > 0
  {
  }

  predicate ValidBlock(b: Block) {
    ValidStreamID(b.id) && (b.PromiseBlock? ==> ValidStreamID(b.promiseID))
  }

  lemma PieceAccepted(b: Block, frag: seq<byte>, first: bool, last: bool)
    requires |frag| + 4 < MAX_LENGTH
    ensures ValidBlock(b) ==> Encode(Piece(b, frag, first, last), false).Ok?
    ensures ValidBlock(b) && frag != [] ==> Readable(Piece(b, frag, first, last))
    ensures first && !ValidBlock(b) ==> Encode(Piece(b, frag, first, last), false) == Err(InvalidStreamID)
  {
  }

  lemma PieceLength(b: Block, frag: seq<byte>, first: bool, last: bool)
    ensures HeaderOf(Piece(b, frag, first, last)).length <= |frag| + 4
    ensures !(first && b.PromiseBlock?) ==> HeaderOf(Piece(b, frag, first, last)).length == |frag|
  {
  }

  lemma PieceHeader(b: Block, frag: seq<byte>, first: bool, last: bool)
    ensures var h := HeaderOf(Piece(b, frag, first, last));
      && h.id == b.id && (Has(h.flags, END_HEADERS) <==> last)
      && h.typ == (if !first then CONTINUATION else if b.HeaderBlock? then HEADERS else PUSH_PROMISE)
  {
    FlagsReadBack(Piece(b, frag, first, last));
  }

  lemma {:induction false} PiecesTail(b: Block, block: seq<byte>, size: nat)
    requires size > 0 && block != []
    ensures Tail(b.id, HeadersOf(Pieces(b, block, false, size)))
    decreases |block|
  {
    var c := Chunk(block, size);
    PieceHeader(b, c, false, |c| == |block|);
    var hs := HeadersOf(Pieces(b, block, false, size));
    if |c| < |block| {
      PiecesTail(b, block[|c|..], size);
      assert hs[1..] == HeadersOf(Pieces(b, block[|c|..], false, size));
      forall i | 0 <= i < |hs|
        ensures hs[i].typ == CONTINUATION && hs[i].id == b.id && (Has(hs[i].flags, END_HEADERS) <==> i == |hs| - 1)
      {
        assert i > 0 ==> hs[i] == hs[1..][i - 1];
      }
    } else {
      assert Pieces(b, [], false, size) == [] && block[|c|..] == [];
    }
  }

  /**
   * The frames of a block are one unit of the frame grammar: HEADERS, then CONTINUATION on the same stream,
   * END_HEADERS on the last frame and only there. So they pass the order check.
   */
  lemma PiecesInOrder(b: Block, block: seq<byte>, size: nat)
    requires size > 0 && block != [] && b.HeaderBlock? && b.id != 0
    ensures Unit(HeadersOf(Pieces(b, block, true, size)))
    ensures Order(0, HeadersOf(Pieces(b, block, true, size))) == Ok(0)
  {
    var c := Chunk(block, size);
    var hs := HeadersOf(Pieces(b, block, true, size));
    PieceHeader(b, c, true, |c| == |block|);
    if |c| < |block| {
      PiecesTail(b, block[|c|..], size);
      assert hs[1..] == HeadersOf(Pieces(b, block[|c|..], false, size));
      TailOrder(b.id, hs[1..]);
    } else {
      assert Pieces(b, [], false, size) == [] && block[|c|..] == [];
    }
  }

  /** A promise is only let through by the order check when its block fits in one frame. */
  lemma PromiseInOrderIff(b: Block, block: seq<byte>, size: nat)
    requires size > 0 && block != [] && b.PromiseBlock?
    ensures Order(0, HeadersOf(Pieces(b, block, true, size))).Ok? <==> |block| <= size
  {
    var c := Chunk(block, size);
    var hs := HeadersOf(Pieces(b, block, true, size));
    PieceHeader(b, c, true, |c| == |block|);
    assert hs[1..] == HeadersOf(Pieces(b, block[|c|..], false, size));
    if |c| < |block| {
      PiecesTail(b, block[|c|..], size);
    } else {
      assert Pieces(b, [], false, size) == [] && block[|c|..] == [];
    }
  }

  // ----- writing -----

  /** A frame that the framer takes, alone; nothing for one it refuses. */
  function Sent(q: Request): (r: seq<Request>)
    ensures Accepted(r)
  {
    if Encode(q, false).Ok? then [q] else []
  }

  /** The frames of a list that the framer does not refuse. */
  function Kept(qs: seq<Request>): (r: seq<Request>)
    ensures Accepted(r)
  {
    if qs == [] then [] else Sent(qs[0]) + Kept(qs[1..])
  }

  lemma {:induction false} KeptAll(qs: seq<Request>)
    requires Accepted(qs)
    ensures Kept(qs) == qs
  {
    if qs != [] {
      KeptAll(qs[1..]);
      assert qs == [qs[0]] + qs[1..];
    }
  }

  lemma {:induction false} KeptAppend(s: seq<Request>, q: Request)
    ensures Kept(s + [q]) == Kept(s) + Sent(q)
  {
    if s == [] {
      assert s + [q] == [q] && [q][1..] == [];
    } else {
      assert (s + [q])[1..] == s[1..] + [q];
      KeptAppend(s[1..], q);
      Reassociate(Sent(s[0]), Kept(s[1..]), Sent(q));
    }
  }

  lemma {:induction false} WireAppend(s: seq<Request>, q: Request)
    requires Accepted(s) && Encode(q, false).Ok?
    ensures Accepted(s + [q]) && Wire(s + [q]) == Wire(s) + Encode(q, false).value
  {
    if s == [] {
      assert s + [q] == [q] && [q][1..] == [];
    } else {
      assert (s + [q])[1..] == s[1..] + [q];
      WireAppend(s[1..], q);
      Reassociate(Encode(s[0], false).value, Wire(s[1..]), Encode(q, false).value);
    }
  }

  /** One call of the framer for one fragment. */
  method WritePiece(fr: Framer, b: Block, frag: seq<byte>, first: bool, last: bool) returns (e: Option<FrameError>)
    requires !fr.allowIllegalWrites
    modifies fr`wbuf, fr`w
    ensures Written(Piece(b, frag, first, last), false, old(fr.w), fr.w, e)
  {
    if !first {
      e := fr.WriteContinuation(b.id, last, frag);
    } else if b.HeaderBlock? {
      e := fr.WriteHeaders(b.id, frag, b.endStream, last, 0, NO_PRIORITY);
    } else {
      e := fr.WritePushPromise(b.id, b.promiseID, frag, last, 0);
    }
  }

  /** The server's splitter: the whole block, or nothing and an error if a stream id is invalid. */
  method SplitHeaderBlock(fr: Framer, b: Block, headerBlock: seq<byte>) returns (e: Option<FrameError>)
    requires !fr.allowIllegalWrites
    modifies fr`wbuf, fr`w
    ensures ValidBlock(b) || headerBlock == [] ==>
              && e == None && Accepted(Pieces(b, headerBlock, true, MAX_FRAGMENT))
              && fr.w == old(fr.w) + Wire(Pieces(b, headerBlock, true, MAX_FRAGMENT))
    ensures !ValidBlock(b) && headerBlock != [] ==> e == Some(InvalidStreamID) && fr.w == old(fr.w)
  {
    var first, block := true, headerBlock;
    ghost var done: seq<Request> := [];
    assert [] + Pieces(b, block, true, MAX_FRAGMENT) == Pieces(b, block, true, MAX_FRAGMENT);
    while |block| > 0
      invariant first ==> block == headerBlock
      invariant !first ==> ValidBlock(b)
      invariant done + Pieces(b, block, first, MAX_FRAGMENT) == Pieces(b, headerBlock, true, MAX_FRAGMENT)
      invariant Accepted(done) && fr.w == old(fr.w) + Wire(done)
    {
      var frag := block;
      if |frag| > MAX_FRAGMENT {
        frag := frag[..MAX_FRAGMENT];
      }
      ghost var was := block;
      block := block[|frag|..];
      ghost var q := Piece(b, frag, first, |block| == 0);
      PieceAccepted(b, frag, first, |block| == 0);
      ghost var w := fr.w;
      var err := WritePiece(fr, b, frag, first, |block| == 0);
      if err.Some? {
        assert first && done == [] by {
          assert !ValidBlock(b);
          assert |done + Pieces(b, was, first, MAX_FRAGMENT)| == |done| + |Pieces(b, was, first, MAX_FRAGMENT)|;
        }
        return err;
      }
      Reassociate(done, [q], Pieces(b, block, false, MAX_FRAGMENT));
      Reassociate(old(fr.w), Wire(done), Encode(q, false).value);
      WireAppend(done, q);
      done := done + [q];
      first := false;
    }
    assert done + [] == done;
    e := None;
  }

  /** The client's splitter ignores what the framer answers. A cut of size 0 would not end. */
  method ClientWriteHeaders(fr: Framer, id: uint32, endStream: bool, headerBlock: seq<byte>, frameSize: nat)
    requires !fr.allowIllegalWrites && frameSize > 0
    modifies fr`wbuf, fr`w
    ensures fr.w == old(fr.w) + Wire(Kept(Pieces(HeaderBlock(id, endStream), headerBlock, true, frameSize)))
  {
    var first, hdrs := true, headerBlock;
    var b := HeaderBlock(id, endStream);
    ghost var done: seq<Request> := [];
    assert [] + Pieces(b, hdrs, true, frameSize) == Pieces(b, hdrs, true, frameSize);
    while |hdrs| > 0
      invariant done + Pieces(b, hdrs, first, frameSize) == Pieces(b, headerBlock, true, frameSize)
      invariant fr.w == old(fr.w) + Wire(Kept(done))
    {
      var chunk := hdrs;
      if |chunk| > frameSize {
        chunk := chunk[..frameSize];
      }
      hdrs := hdrs[|chunk|..];
      ghost var q := Piece(b, chunk, first, |hdrs| == 0);
      var _ := WritePiece(fr, b, chunk, first, |hdrs| == 0);
      KeptAppend(done, q);
      if Encode(q, false).Ok? {
        WireAppend(Kept(done), q);
        Reassociate(old(fr.w), Wire(Kept(done)), Encode(q, false).value);
      } else {
        assert Kept(done) + [] == Kept(done);
      }
      Reassociate(done, [q], Pieces(b, hdrs, false, frameSize));
      done := done + [q];
      first := false;
    }
    assert done + [] == done;
  }

  /** The client's frames all go out exactly when the stream id is valid and no chunk is over the 24-bit length. */
  lemma ClientKeepsAllIff(b: Block, block: seq<byte>, size: nat)
    requires size > 0 && block != [] && b.HeaderBlock?
    ensures Kept(Pieces(b, block, true, size)) == Pieces(b, block, true, size)
       <==> ValidStreamID(b.id) && (size < MAX_LENGTH || |block| < MAX_LENGTH)
  {
    var c := Chunk(block, size);
    var qs := Pieces(b, block, true, size);
    if ValidStreamID(b.id) && |c| < MAX_LENGTH {
      HeadersAccepted(b, block, true, size);
      KeptAll(qs);
    } else {
      assert !Encode(qs[0], false).Ok?;
      assert !Accepted(qs) && Accepted(Kept(qs));
    }
  }

  lemma {:induction false} HeadersAccepted(b: Block, block: seq<byte>, first: bool, size: nat)
    requires size > 0 && b.HeaderBlock? && ValidStreamID(b.id) && |Chunk(block, size)| < MAX_LENGTH
    ensures Accepted(Pieces(b, block, first, size))
    decreases |block|
  {
    if block != [] {
      var c := Chunk(block, size);
      HeadersAccepted(b, block[|c|..], false, size);
      HeaderPieceAccepted(b, c, first, |c| == |block|);
    }
  }

  lemma HeaderPieceAccepted(b: Block, frag: seq<byte>, first: bool, last: bool)
    requires b.HeaderBlock? && ValidStreamID(b.id) && |frag| < MAX_LENGTH
    ensures Encode(Piece(b, frag, first, last), false).Ok?
    ensures frag != [] ==> Readable(Piece(b, frag, first, last))
  {
  }

  // ----- putting a block together -----

  datatype Meta = Meta(block: Result<seq<byte>>, rest: seq<byte>, last: nat)

  predicate CarriesBlock(f: Frame) {
    f.HeadersFrame? || f.ContinuationFrame?
  }

  /** The state in which readMetaFrame is entered: a frame of a block that the order check has just let through. */
  predicate InBlock(f: Frame, last: nat) {
    CarriesBlock(f) && (!Has(f.fh.flags, END_HEADERS) ==> f.fh.id != 0 && last == f.fh.id)
  }

  /** Inside a header block the next frame is a CONTINUATION frame, so the type assertion on it holds. */
  lemma NextIsContinuation(r: seq<byte>, last: nat, maxRead: nat)
    requires last != 0 && ReadFrame(r, last, maxRead, false).frame.Ok?
    ensures var one := ReadFrame(r, last, maxRead, false);
      one.frame.value.ContinuationFrame? && InBlock(one.frame.value, one.lastHeaderStream) && |one.rest| < |r|
  {
    var fh := GetHeader(r[..HEADER_LEN]);
    ParseKeepsHeader(fh, r[HEADER_LEN..][..fh.length]);
  }

  /**
   * With AllowIllegalReads the order is not checked: inside a block any readable frame comes through, and the assertion
   * can fail.
   */
  lemma IllegalReadsSkipOrder(q: Request, rest: seq<byte>, last: nat, maxRead: nat)
    requires Encode(q, false).Ok? && Readable(q) && HeaderOf(q).length <= maxRead
    ensures ReadFrame(Encode(q, false).value + rest, last, maxRead, true).frame == Ok(FrameOf(q))
  {
    ReadableId(q);
    ParsedIff(q);
    ReadAny(HeaderOf(q), PayloadOf(q), rest, last, maxRead, true);
  }

  /**
   * A header decoder, by what it makes of the bytes of a block so far: whether it takes them, and whether the block may
   * end there.
   */
  datatype Decoder = Decoder(takes: seq<byte> -> bool, whole: seq<byte> -> bool)

  /** The bytes that the frames of a block hand to the header decoder, after those of sofar. */
  function MetaBlock(dec: Decoder, sofar: seq<byte>, f: Frame, r: seq<byte>, last: nat, maxRead: nat): Meta
    requires InBlock(f, last)
    decreases |r|
  {
    var block := sofar + f.frag;
    if !dec.takes(block) then Meta(Err(ConnectionError(COMPRESSION_ERROR)), r, last)
    else if Has(f.fh.flags, END_HEADERS) then
      Meta(if dec.whole(block) then Ok(block) else Err(ConnectionError(COMPRESSION_ERROR)), r, last)
    else
      var one := ReadFrame(r, last, maxRead, false);
      if one.frame.Err? then Meta(Err(one.frame.error), one.rest, one.lastHeaderStream)
      else
        NextIsContinuation(r, last, maxRead);
        MetaBlock(dec, block, one.frame.value, one.rest, one.lastHeaderStream, maxRead)
  }

  method ReadMetaFrame(fr: Framer, f: Frame, dec: Decoder) returns (block: Result<seq<byte>>)
    requires fr.Valid() && InBlock(f, fr.lastHeaderStream)
    modifies fr`r, fr`lastFrame, fr`lastHeaderStream
    ensures fr.Valid()
    ensures fr.allowIllegalReads ==> block == Err(IllegalUse) && unchanged(fr)
    ensures !fr.allowIllegalReads ==>
              Meta(block, fr.r, fr.lastHeaderStream)
                  == MetaBlock(dec, [], f, old(fr.r), old(fr.lastHeaderStream), fr.maxReadSize)
  {
    if fr.allowIllegalReads {
      return Err(IllegalUse);
    }
    var hc, sofar := f, [];
    while true
      invariant fr.Valid() && InBlock(hc, fr.lastHeaderStream)
      invariant MetaBlock(dec, [], f, old(fr.r), old(fr.lastHeaderStream), fr.maxReadSize)
             == MetaBlock(dec, sofar, hc, fr.r, fr.lastHeaderStream, fr.maxReadSize)
      decreases |fr.r|
    {
      ghost var r, last := fr.r, fr.lastHeaderStream;
      sofar := sofar + hc.frag;
      if !dec.takes(sofar) {
        return Err(ConnectionError(COMPRESSION_ERROR));
      }
      if Has(hc.fh.flags, END_HEADERS) {
        break;
      }
      var next := fr.ReadNext();
      if next.Err? {
        return Err(next.error);
      }
      NextIsContinuation(r, last, fr.maxReadSize);
      hc := next.value;
    }
    block := if dec.whole(sofar) then Ok(sofar) else Err(ConnectionError(COMPRESSION_ERROR));
  }

  /** One frame of a block, read back in its turn. */
  lemma PieceRead(b: Block, frag: seq<byte>, first: bool, last: bool, more: seq<byte>, maxRead: nat) returns (f: Frame)
    requires b.HeaderBlock? && ValidStreamID(b.id) && frag != [] && |frag| < MAX_LENGTH && |frag| <= maxRead
    ensures Encode(Piece(b, frag, first, last), false).Ok?
    ensures ReadFrame(Encode(Piece(b, frag, first, last), false).value + more,
                      if first then 0 else b.id, maxRead, false)
         == ReadResult(Ok(f), more, if last then 0 else b.id)
    ensures f == FrameOf(Piece(b, frag, first, last))
    ensures CarriesBlock(f) && f.frag == frag && f.fh.id == b.id && (Has(f.fh.flags, END_HEADERS) <==> last)
  {
    var q := Piece(b, frag, first, last);
    HeaderPieceAccepted(b, frag, first, last);
    PieceHeader(b, frag, first, last);
    PieceLength(b, frag, first, last);
    f := FrameOf(q);
    ReadsBackIff(q, more, if first then 0 else b.id, maxRead);
  }

  lemma MetaStep(dec: Decoder, sofar: seq<byte>, f: Frame, r: seq<byte>, last: nat, maxRead: nat, g: Frame,
                 more: seq<byte>, last': nat)
    requires InBlock(f, last) && !Has(f.fh.flags, END_HEADERS) && InBlock(g, last') && dec.takes(sofar + f.frag)
    requires ReadFrame(r, last, maxRead, false) == ReadResult(Ok(g), more, last')
    ensures MetaBlock(dec, sofar, f, r, last, maxRead) == MetaBlock(dec, sofar + f.frag, g, more, last', maxRead)
  {
    NextIsContinuation(r, last, maxRead);
  }

  /** The decoder takes every chunk of block after sofar, and the block may end with the last. */
  predicate Decodable(dec: Decoder, sofar: seq<byte>, block: seq<byte>, size: nat)
    requires size > 0
    decreases |block|
  {
    if block == [] then dec.whole(sofar)
    else
      var c := Chunk(block, size);
      dec.takes(sofar + c) && Decodable(dec, sofar + c, block[|c|..], size)
  }

  lemma ChunkJoins(block: seq<byte>, size: nat)
    ensures Chunk(block, size) + block[|Chunk(block, size)|..] == block
  {
  }

  /** The block is whole once the rest of its frames are read, if the decoder can make something of it. */
  lemma {:induction false} MetaOfPieces(dec: Decoder, sofar: seq<byte>, b: Block, f: Frame, block: seq<byte>, size: nat,
                                        rest: seq<byte>, maxRead: nat)
    requires 0 < size && b.HeaderBlock? && ValidStreamID(b.id)
    requires |Chunk(block, size)| < MAX_LENGTH && |Chunk(block, size)| <= maxRead
    requires CarriesBlock(f) && f.fh.id == b.id && (Has(f.fh.flags, END_HEADERS) <==> block == [])
    ensures Accepted(Pieces(b, block, false, size))
    ensures var r, last := Wire(Pieces(b, block, false, size)) + rest, if block == [] then 0 else b.id;
      Collected(dec, sofar + f.frag, block, size, rest, MetaBlock(dec, sofar, f, r, last, maxRead))
    decreases |block|
  {
    HeadersAccepted(b, block, false, size);
    var now := sofar + f.frag;
    if block == [] {
      assert Wire([]) + rest == rest && now + [] == now;
    } else if dec.takes(now) {
      var c := Chunk(block, size);
      var left := block[|c|..];
      HeadersAccepted(b, left, false, size);
      var more := Wire(Pieces(b, left, false, size)) + rest;
      var g := PieceRead(b, c, false, |c| == |block|, more, maxRead);
      MetaOfPieces(dec, now, b, g, left, size, rest, maxRead);
      WireSplit(b, block, false, size, rest);
      var r := Wire(Pieces(b, block, false, size)) + rest;
      MetaStep(dec, sofar, f, r, b.id, maxRead, g, more, if left == [] then 0 else b.id);
      CollectedStep(dec, now, block, size, rest, MetaBlock(dec, sofar, f, r, b.id, maxRead));
    }
  }

  /** The block comes to now followed by block if the decoder can make something of it. */
  predicate Collected(dec: Decoder, now: seq<byte>, block: seq<byte>, size: nat, rest: seq<byte>, m: Meta)
    requires size > 0
  {
    if dec.takes(now) && Decodable(dec, now, block, size) then m == Meta(Ok(now + block), rest, 0)
    else m.block == Err(ConnectionError(COMPRESSION_ERROR))
  }

  lemma CollectedStep(dec: Decoder, now: seq<byte>, block: seq<byte>, size: nat, rest: seq<byte>, m: Meta)
    requires size > 0 && block != [] && dec.takes(now)
    requires var c := Chunk(block, size); Collected(dec, now + c, block[|c|..], size, rest, m)
    ensures Collected(dec, now, block, size, rest, m)
  {
    var c := Chunk(block, size);
    ChunkJoins(block, size);
    Reassociate(now, c, block[|c|..]);
  }

  lemma WireSplit(b: Block, block: seq<byte>, first: bool, size: nat, rest: seq<byte>)
    requires size > 0 && block != [] && Accepted(Pieces(b, block, first, size))
    ensures var c := Chunk(block, size);
      && Encode(Piece(b, c, first, |c| == |block|), false).Ok? && Accepted(Pieces(b, block[|c|..], false, size))
      && Wire(Pieces(b, block, first, size)) + rest
         == Encode(Piece(b, c, first, |c| == |block|), false).value
             + (Wire(Pieces(b, block[|c|..], false, size)) + rest)
  {
    var c := Chunk(block, size);
    var qs := Pieces(b, block, first, size);
    assert qs[0] == Piece(b, c, first, |c| == |block|) && qs[1..] == Pieces(b, block[|c|..], false, size);
    Reassociate(Encode(qs[0], false).value, Wire(qs[1..]), rest);
  }

  /**
   * Any non-empty header block, cut at any positive size and written, is read back whole, HEADERS first, then
   * everything up to END_HEADERS, and nothing after it: exactly if the header decoder takes every chunk of it, and
   * its end.
   */
  lemma BlockReadBack(dec: Decoder, b: Block, block: seq<byte>, size: nat, rest: seq<byte>, maxRead: nat)
    requires 0 < size && block != [] && b.HeaderBlock? && ValidStreamID(b.id)
    requires |Chunk(block, size)| < MAX_LENGTH && |Chunk(block, size)| <= maxRead
    ensures Accepted(Pieces(b, block, true, size))
    ensures var one := ReadFrame(Wire(Pieces(b, block, true, size)) + rest, 0, maxRead, false);
      && one.frame == Ok(FrameOf(Piece(b, Chunk(block, size), true, |block| <= size)))
      && InBlock(one.frame.value, one.lastHeaderStream)
      && var m := MetaBlock(dec, [], one.frame.value, one.rest, one.lastHeaderStream, maxRead);
         if Decodable(dec, [], block, size) then m == Meta(Ok(block), rest, 0)
         else m.block == Err(ConnectionError(COMPRESSION_ERROR))
  {
    HeadersAccepted(b, block, true, size);
    var c := Chunk(block, size);
    var left := block[|c|..];
    HeadersAccepted(b, left, false, size);
    var more := Wire(Pieces(b, left, false, size)) + rest;
    var g := PieceRead(b, c, true, |c| == |block|, more, maxRead);
    MetaOfPieces(dec, [], b, g, left, size, rest, maxRead);
    WireSplit(b, block, true, size, rest);
    assert [] + c == c;
    ChunkJoins(block, size);
  }
}
