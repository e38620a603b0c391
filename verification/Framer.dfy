/** The framer: a write buffer filled step by step, and a reader that keeps the order of header blocks. */
module Framing {
  import opened Basics
  import opened Protocol
  import opened Frames

  /** A header with the length still to come. */
  function Blank(typ: byte, flags: byte, id: uint32): (r: seq<byte>)
    ensures |r| == HEADER_LEN
  {
    [0, 0, 0, typ, flags] + Put32(id)
  }

  lemma FilledIn(typ: byte, flags: byte, id: uint32, p: seq<byte>)
    requires |p| < MAX_LENGTH
    ensures [|p| / 0x1_0000, |p| / 0x100 % 0x100, |p| % 0x100] + (Blank(typ, flags, id) + p)[3..]
         == PutHeader(FrameHeader(typ, flags, |p|, id)) + p
  {
    var n: seq<byte> := [|p| / 0x1_0000, |p| / 0x100 % 0x100, |p| % 0x100];
    var b := Blank(typ, flags, id);
    assert (b + p)[3..] == b[3..] + p;
    assert n + b[3..] == PutHeader(FrameHeader(typ, flags, |p|, id));
    Reassociate(n, b[3..], p);
  }

  /** The priority fields as they are appended: bit 31 is or-ed in. */
  function DepBits(p: PriorityParam): uint32 {
    if p.exclusive && p.streamDep < MAX_ID then p.streamDep + MAX_ID else p.streamDep
  }

  lemma {:induction false} PutSettingsAppend(ss: seq<Setting>, s: Setting)
    ensures PutSettings(ss + [s]) == PutSettings(ss) + Put16(s.id) + Put32(s.val)
  {
    if ss == [] {
      assert ss + [s] == [s];
      assert PutSettings([s][1..]) == [];
    } else {
      assert (ss + [s])[1..] == ss[1..] + [s];
      PutSettingsAppend(ss[1..], s);
      Reassociate(Put16(ss[0].id) + Put32(ss[0].val), PutSettings(ss[1..]), Put16(s.id));
      Reassociate(Put16(ss[0].id) + Put32(ss[0].val), PutSettings(ss[1..]) + Put16(s.id), Put32(s.val));
    }
  }

  function PadPrefix(pad: byte): seq<byte> {
    if pad != 0 then [pad] else []
  }

  /** Appending the optional parts one after the other gives the padded payload. */
  lemma PaddedAppend(pad: byte, front: seq<byte>, frag: seq<byte>)
    ensures PadPrefix(pad) + front + frag + Zeros(pad) == Padded(pad, front + (frag + Zeros(pad)))
  {
    Reassociate(front, frag, Zeros(pad));
    if pad != 0 {
      Reassociate([pad], front, frag);
      Reassociate([pad], front + frag, Zeros(pad));
    } else {
      assert [] + front == front;
    }
  }

  ghost function BlankOf(q: Request): seq<byte> {
    Blank(TypeOf(q), FlagsOf(q), IdOf(q))
  }

  /** What a Write method does: one write of the encoded frame, or an error and no write. */
  ghost predicate Written(q: Request, illegal: bool, was: seq<byte>, now: seq<byte>, e: Option<FrameError>) {
    match Encode(q, illegal)
    case Ok(b) => e == None && now == was + b
    case Err(x) => e == Some(x) && now == was
  }

  class Framer {
    var wbuf: seq<byte>
    /** The bytes handed to the underlying writer. */
    var w: seq<byte>
    /** The bytes the underlying reader still holds. */
    var r: seq<byte>
    var lastFrame: Option<Frame>
    var lastHeaderStream: nat
    var maxReadSize: nat
    const allowIllegalWrites: bool
    const allowIllegalReads: bool

    /** The error message for a frame out of order looks at the last frame. */
    ghost predicate Valid()
      reads this
    {
      lastHeaderStream != 0 ==> lastFrame.Some?
    }

    constructor (r: seq<byte>, allowIllegalWrites: bool, allowIllegalReads: bool)
      ensures Valid() && this.w == [] && this.r == r && lastHeaderStream == 0 && maxReadSize == MAX_LENGTH - 1
      ensures this.allowIllegalWrites == allowIllegalWrites && this.allowIllegalReads == allowIllegalReads
    {
      this.r := r;
      w, wbuf := [], [];
      lastFrame, lastHeaderStream, maxReadSize := None, 0, MAX_LENGTH - 1;
      this.allowIllegalWrites, this.allowIllegalReads := allowIllegalWrites, allowIllegalReads;
    }

    method StartWrite(typ: byte, flags: byte, id: uint32)
      modifies this`wbuf
      ensures wbuf == Blank(typ, flags, id) + []
    {
      wbuf := Blank(typ, flags, id);
    }

    method Append(v: seq<byte>, ghost b: seq<byte>, ghost p: seq<byte>)
      requires wbuf == b + p
      modifies this`wbuf
      ensures wbuf == b + (p + v)
    {
      wbuf := wbuf + v;
    }

    method EndWrite(ghost q: Request) returns (e: Option<FrameError>)
      requires Refusal(q, allowIllegalWrites) == None
      requires wbuf == BlankOf(q) + PayloadOf(q)
      modifies this`wbuf, this`w
      ensures Written(q, allowIllegalWrites, old(w), w, e)
    {
      var length := |wbuf| - HEADER_LEN;
      if length >= 0x100_0000 {
        return Some(FrameTooLarge);
      }
      FilledIn(TypeOf(q), FlagsOf(q), IdOf(q), PayloadOf(q));
      wbuf := [length / 0x1_0000, length / 0x100 % 0x100, length % 0x100] + wbuf[3..];
      w := w + wbuf;
      e := None;
    }

    method WriteDataPadded(id: uint32, endStream: bool, data: seq<byte>, pad: Option<seq<byte>>)
      returns (e: Option<FrameError>)
      modifies this`wbuf, this`w
      ensures Written(Data(id, endStream, data, pad), allowIllegalWrites, old(w), w, e)
    {
      ghost var q := Data(id, endStream, data, pad);
      if !ValidStreamID(id) && !allowIllegalWrites {
        return Some(InvalidStreamID);
      }
      if pad.Some? && |pad.value| > 255 {
        return Some(PadTooLong);
      }
      var flags := Flag(endStream, END_STREAM) + Flag(pad.Some?, PADDED);
      StartWrite(DATA, flags, id);
      ghost var b, p := BlankOf(q), [];
      if pad.Some? {
        Append([|pad.value|], b, p);
        p := p + [|pad.value|];
      }
      Append(data, b, p);
      p := p + data;
      if pad.Some? {
        Append(pad.value, b, p);
        p := p + pad.value;
        Reassociate([|pad.value|], data, pad.value);
      }
      assert p == PayloadOf(Data(id, endStream, data, pad));
      e := EndWrite(q);
    }

    method AppendPadLength(padLength: byte, ghost b: seq<byte>)
      requires wbuf == b + []
      modifies this`wbuf
      ensures wbuf == b + PadPrefix(padLength)
    {
      if padLength != 0 {
        Append([padLength], b, []);
        assert [] + [padLength] == [padLength];
      }
    }

    method AppendPriority(prio: PriorityParam, ghost b: seq<byte>, ghost p: seq<byte>)
      requires wbuf == b + p
      modifies this`wbuf
      ensures wbuf == b + (p + PutPriority(prio))
    {
      Append(Put32(DepBits(prio)), b, p);
      Append([prio.weight], b, p + Put32(DepBits(prio)));
      Reassociate(p, Put32(DepBits(prio)), [prio.weight]);
    }

    method AppendBlock(padLength: byte, frag: seq<byte>, ghost b: seq<byte>, ghost front: seq<byte>)
      requires wbuf == b + (PadPrefix(padLength) + front)
      modifies this`wbuf
      ensures wbuf == b + Padded(padLength, front + (frag + Zeros(padLength)))
    {
      ghost var p := PadPrefix(padLength) + front;
      Append(frag, b, p);
      Append(Zeros(padLength), b, p + frag);
      PaddedAppend(padLength, front, frag);
    }

    method WriteHeaders(id: uint32, frag: seq<byte>, endStream: bool, endHeaders: bool, padLength: byte,
                        prio: PriorityParam)
      returns (e: Option<FrameError>)
      modifies this`wbuf, this`w
      ensures Written(Headers(id, frag, endStream, endHeaders, padLength, prio), allowIllegalWrites, old(w), w, e)
    {
      ghost var q := Headers(id, frag, endStream, endHeaders, padLength, prio);
      if !ValidStreamID(id) && !allowIllegalWrites {
        return Some(InvalidStreamID);
      }
      var flags := Flag(endStream, END_STREAM) + Flag(endHeaders, END_HEADERS) + Flag(padLength != 0, PADDED)
          + Flag(prio != NO_PRIORITY, HAS_PRIORITY);
      StartWrite(HEADERS, flags, id);
      ghost var b := BlankOf(q);
      AppendPadLength(padLength, b);
      if prio != NO_PRIORITY {
        if prio.streamDep >= MAX_ID && !allowIllegalWrites {
          return Some(InvalidDepStreamID);
        }
        AppendPriority(prio, b, PadPrefix(padLength));
      }
      AppendBlock(padLength, frag, b, if prio != NO_PRIORITY then PutPriority(prio) else []);
      e := EndWrite(q);
    }

    method WritePriority(id: uint32, prio: PriorityParam) returns (e: Option<FrameError>)
      modifies this`wbuf, this`w
      ensures Written(Priority(id, prio), allowIllegalWrites, old(w), w, e)
    {
      ghost var q := Priority(id, prio);
      if !ValidStreamID(id) && !allowIllegalWrites {
        return Some(InvalidStreamID);
      }
      if prio.streamDep >= MAX_ID {
        return Some(InvalidDepStreamID);
      }
      StartWrite(PRIORITY, 0, id);
      ghost var b := BlankOf(q);
      Append(Put32(DepBits(prio)), b, []);
      Append([prio.weight], b, [] + Put32(DepBits(prio)));
      assert [] + Put32(DepBits(prio)) == Put32(DepBits(prio));
      e := EndWrite(q);
    }

    /** Frames whose payload is appended as it stands. */
    method WriteWhole(typ: byte, flags: byte, id: uint32, p: seq<byte>, ghost q: Request)
      returns (e: Option<FrameError>)
      requires Refusal(q, allowIllegalWrites) == None
      requires TypeOf(q) == typ && FlagsOf(q) == flags && IdOf(q) == id && PayloadOf(q) == p
      modifies this`wbuf, this`w
      ensures Written(q, allowIllegalWrites, old(w), w, e)
    {
      StartWrite(typ, flags, id);
      Append(p, Blank(typ, flags, id), []);
      assert [] + p == p;
      e := EndWrite(q);
    }

    method WriteRstStream(id: uint32, code: uint32) returns (e: Option<FrameError>)
      modifies this`wbuf, this`w
      ensures Written(RstStream(id, code), allowIllegalWrites, old(w), w, e)
    {
      if !ValidStreamID(id) && !allowIllegalWrites {
        return Some(InvalidStreamID);
      }
      e := WriteWhole(RST_STREAM, 0, id, Put32(code), RstStream(id, code));
    }

    method WriteSettings(settings: seq<Setting>) returns (e: Option<FrameError>)
      modifies this`wbuf, this`w
      ensures Written(Settings(settings), allowIllegalWrites, old(w), w, e)
    {
      ghost var q := Settings(settings);
      StartWrite(SETTINGS, 0, 0);
      ghost var b := BlankOf(q);
      for i := 0 to |settings|
        invariant wbuf == b + PutSettings(settings[..i])
        invariant w == old(w)
      {
        ghost var p := PutSettings(settings[..i]);
        Append(Put16(settings[i].id), b, p);
        Append(Put32(settings[i].val), b, p + Put16(settings[i].id));
        PutSettingsAppend(settings[..i], settings[i]);
        assert settings[..i] + [settings[i]] == settings[..i + 1];
      }
      assert settings[..|settings|] == settings;
      e := EndWrite(q);
    }

    method WriteSettingsAck() returns (e: Option<FrameError>)
      modifies this`wbuf, this`w
      ensures Written(SettingsAck, allowIllegalWrites, old(w), w, e)
    {
      ghost var q := SettingsAck;
      StartWrite(SETTINGS, ACK, 0);
      e := EndWrite(q);
    }

    method WritePushPromise(id: uint32, promiseID: uint32, frag: seq<byte>, endHeaders: bool, padLength: byte)
      returns (e: Option<FrameError>)
      modifies this`wbuf, this`w
      ensures Written(PushPromise(id, promiseID, frag, endHeaders, padLength), allowIllegalWrites, old(w), w, e)
    {
      ghost var q := PushPromise(id, promiseID, frag, endHeaders, padLength);
      if !ValidStreamID(id) && !allowIllegalWrites {
        return Some(InvalidStreamID);
      }
      var flags := Flag(endHeaders, END_HEADERS) + Flag(padLength != 0, PADDED);
      StartWrite(PUSH_PROMISE, flags, id);
      ghost var b := BlankOf(q);
      AppendPadLength(padLength, b);
      if !ValidStreamID(promiseID) && !allowIllegalWrites {
        return Some(InvalidStreamID);
      }
      Append(Put32(promiseID), b, PadPrefix(padLength));
      AppendBlock(padLength, frag, b, Put32(promiseID));
      e := EndWrite(q);
    }

    method WritePing(ack: bool, data: PingData) returns (e: Option<FrameError>)
      modifies this`wbuf, this`w
      ensures Written(Ping(ack, data), allowIllegalWrites, old(w), w, e)
    {
      e := WriteWhole(PING, Flag(ack, ACK), 0, data, Ping(ack, data));
    }

    method WriteGoAway(maxStreamID: uint32, code: uint32, debug: seq<byte>) returns (e: Option<FrameError>)
      modifies this`wbuf, this`w
      ensures Written(GoAway(maxStreamID, code, debug), allowIllegalWrites, old(w), w, e)
    {
      ghost var q := GoAway(maxStreamID, code, debug);
      StartWrite(GOAWAY, 0, 0);
      ghost var b := BlankOf(q);
      Append(Put32(maxStreamID % MAX_ID), b, []);
      ghost var p := [] + Put32(maxStreamID % MAX_ID);
      assert p == Put32(maxStreamID % MAX_ID);
      Append(Put32(code), b, p);
      Append(debug, b, p + Put32(code));
      e := EndWrite(q);
    }

    method WriteWindowUpdate(id: uint32, incr: uint32) returns (e: Option<FrameError>)
      modifies this`wbuf, this`w
      ensures Written(WindowUpdate(id, incr), allowIllegalWrites, old(w), w, e)
    {
      if (incr < 1 || incr > 2147483647) && !allowIllegalWrites {
        return Some(IllegalIncrement);
      }
      e := WriteWhole(WINDOW_UPDATE, 0, id, Put32(incr), WindowUpdate(id, incr));
    }

    method WriteContinuation(id: uint32, endHeaders: bool, frag: seq<byte>) returns (e: Option<FrameError>)
      modifies this`wbuf, this`w
      ensures Written(Continuation(id, endHeaders, frag), allowIllegalWrites, old(w), w, e)
    {
      if !ValidStreamID(id) && !allowIllegalWrites {
        return Some(InvalidStreamID);
      }
      e := WriteWhole(CONTINUATION, Flag(endHeaders, END_HEADERS), id, frag, Continuation(id, endHeaders, frag));
    }

    method WriteRawFrame(typ: byte, flags: byte, id: uint32, payload: seq<byte>) returns (e: Option<FrameError>)
      modifies this`wbuf, this`w
      ensures Written(Raw(typ, flags, id, payload), allowIllegalWrites, old(w), w, e)
    {
      e := WriteWhole(typ, flags, id, payload, Raw(typ, flags, id, payload));
    }

    // ----- reading -----

    /** io.ReadFull: all n bytes, or an error with the reader drained. */
    method ReadFull(n: nat) returns (b: Result<seq<byte>>)
      modifies this`r
      ensures |old(r)| >= n ==> b == Ok(old(r)[..n]) && r == old(r)[n..]
      ensures |old(r)| < n ==> b == Err(ShortRead(old(r))) && r == []
    {
      if |r| < n {
        b := Err(ShortRead(r));
        r := [];
      } else {
        b := Ok(r[..n]);
        r := r[n..];
      }
    }

    method CheckOrder(f: Frame) returns (e: Option<FrameError>)
      requires Valid()
      modifies this`lastFrame, this`lastHeaderStream
      ensures Valid()
      ensures match CheckFrameOrder(old(lastHeaderStream), f.fh, allowIllegalReads)
              case Ok(last) => e == None && lastHeaderStream == last
              case Err(x) => e == Some(x) && lastHeaderStream == old(lastHeaderStream)
    {
      var last := lastFrame;
      lastFrame := Some(f);
      if allowIllegalReads {
        return None;
      }
      var fh := f.fh;
      if lastHeaderStream != 0 {
        if fh.typ != CONTINUATION {
          var expectedAfter := last.value.fh.typ;
          return Some(ConnectionError(PROTOCOL_ERROR));
        }
        if fh.id != lastHeaderStream {
          return Some(ConnectionError(PROTOCOL_ERROR));
        }
      } else if fh.typ == CONTINUATION {
        return Some(ConnectionError(PROTOCOL_ERROR));
      }
      if fh.typ == HEADERS || fh.typ == CONTINUATION {
        if Has(fh.flags, END_HEADERS) {
          lastHeaderStream := 0;
        } else {
          lastHeaderStream := fh.id;
        }
      }
      e := None;
    }

    method ReadNext() returns (f: Result<Frame>)
      requires Valid()
      modifies this`r, this`lastFrame, this`lastHeaderStream
      ensures Valid()
      ensures ReadResult(f, r, lastHeaderStream)
          == ReadFrame(old(r), old(lastHeaderStream), maxReadSize, allowIllegalReads)
    {
      var head := ReadFull(HEADER_LEN);
      if head.Err? {
        return Err(head.error);
      }
      var fh := GetHeader(head.value);
      if fh.length > maxReadSize {
        return Err(FrameTooLarge);
      }
      var payload := ReadFull(fh.length);
      if payload.Err? {
        return Err(payload.error);
      }
      f := Parse(fh, payload.value);
      if f.Ok? {
        ParseKeepsHeader(fh, payload.value);
        var e := CheckOrder(f.value);
        if e.Some? {
          f := Err(e.value);
        }
      }
    }
  }

  /** A parsed frame carries the header it was parsed with, and its type follows the header. */
  lemma ParseKeepsHeader(fh: FrameHeader, p: seq<byte>)
    requires Parse(fh, p).Ok?
    ensures Parse(fh, p).value.fh == fh
    ensures fh.typ == CONTINUATION ==> Parse(fh, p).value.ContinuationFrame?
    ensures fh.typ == HEADERS ==> Parse(fh, p).value.HeadersFrame?
  {
  }
}
