/** HTTP/2 frames on the wire (RFC 7540, sections 4.1 and 6): what the framer writes and how it reads it back. */
module Frames {
  import opened Basics
  import opened Protocol

  type uint16 = x: int | 0 <= x < 0x1_0000
  type PingData = s: seq<byte> | |s| == 8 witness [0, 0, 0, 0, 0, 0, 0, 0]
  type uint32 = x: int | 0 <= x < 0x1_0000_0000

  const HEADER_LEN: int := 9

  datatype Result<+T> = Ok(value: T) | Err(error: FrameError)

  datatype FrameError =
    | InvalidStreamID
    | InvalidDepStreamID
    | PadTooLong
    | FrameTooLarge
    | IllegalIncrement
    | EndOfFile
    | UnexpectedEndOfFile
    | IllegalUse
    | ConnectionError(code: nat)
    | StreamError(id: nat, code: nat)

  // ----- integers -----

  function Put16(v: uint16): (r: seq<byte>)
    ensures |r| == 2
  {
    [v / 0x100, v % 0x100]
  }

  function Get16(b: seq<byte>): uint16
    requires |b| == 2
  {
    b[0] as int * 0x100 + b[1]
  }

  function Put32(v: uint32): (r: seq<byte>)
    ensures |r| == 4
  {
    [v / 0x100_0000, v / 0x1_0000 % 0x100, v / 0x100 % 0x100, v % 0x100]
  }

  function Get32(b: seq<byte>): uint32
    requires |b| == 4
  {
    b[0] as int * 0x100_0000 + b[1] as int * 0x1_0000 + b[2] as int * 0x100 + b[3]
  }

  lemma Get16Put16(v: uint16)
    ensures Get16(Put16(v)) == v
  {
  }

  lemma Get32Put32(v: uint32)
    ensures Get32(Put32(v)) == v
  {
    assert v / 0x100 == v / 0x1_0000 * 0x100 + v / 0x100 % 0x100;
    assert v / 0x1_0000 == v / 0x100_0000 * 0x100 + v / 0x1_0000 % 0x100;
  }

  // ----- frame headers -----

  datatype FrameHeader = FrameHeader(typ: byte, flags: byte, length: nat, id: nat)

  const DATA: byte := 0
  const HEADERS: byte := 1
  const PRIORITY: byte := 2
  const RST_STREAM: byte := 3
  const SETTINGS: byte := 4
  const PUSH_PROMISE: byte := 5
  const PING: byte := 6
  const GOAWAY: byte := 7
  const WINDOW_UPDATE: byte := 8
  const CONTINUATION: byte := 9

  const END_STREAM: byte := 0x1
  const ACK: byte := 0x1
  const END_HEADERS: byte := 0x4
  const PADDED: byte := 0x8
  const HAS_PRIORITY: byte := 0x20

  /** Whether the bit of a flag (a power of two) is set. */
  predicate Has(flags: byte, flag: byte)
    requires flag > 0
  {
    flags / flag % 2 == 1
  }

  function Flag(on: bool, flag: byte): byte {
    if on then flag else 0
  }

  /** startWrite and endWrite: the nine bytes in front of the payload. */
  function PutHeader(h: FrameHeader): (r: seq<byte>)
    requires h.length < MAX_LENGTH && h.id < 0x1_0000_0000
    ensures |r| == HEADER_LEN
  {
    [h.length / 0x1_0000, h.length / 0x100 % 0x100, h.length % 0x100, h.typ, h.flags] + Put32(h.id)
  }

  /** readFrameHeader: the reserved bit of the stream id is dropped. */
  function GetHeader(b: seq<byte>): FrameHeader
    requires |b| == HEADER_LEN
  {
    FrameHeader(b[3], b[4], b[0] as int * 0x1_0000 + b[1] as int * 0x100 + b[2], Get32(b[5..]) % MAX_ID)
  }

  lemma GetHeaderPutHeader(h: FrameHeader)
    requires h.length < MAX_LENGTH && h.id < 0x1_0000_0000
    ensures GetHeader(PutHeader(h)) == h.(id := h.id % MAX_ID)
  {
    var b := PutHeader(h);
    assert b[5..] == Put32(h.id);
    Get32Put32(h.id);
  }

  // ----- what can be written -----

  datatype PriorityParam = PriorityParam(streamDep: uint32, exclusive: bool, weight: byte)

  const NO_PRIORITY: PriorityParam := PriorityParam(0, false, 0)

  datatype Setting = Setting(id: uint16, val: uint32)

  /** The arguments of one call of a Write method. */
  datatype Request =
    | Data(id: uint32, endStream: bool, data: seq<byte>, pad: Option<seq<byte>>)
    | Headers(id: uint32, frag: seq<byte>, endStream: bool, endHeaders: bool, padLength: byte, priority: PriorityParam)
    | Priority(id: uint32, priority: PriorityParam)
    | RstStream(id: uint32, code: uint32)
    | Settings(settings: seq<Setting>)
    | SettingsAck
    | PushPromise(id: uint32, promiseID: uint32, frag: seq<byte>, endHeaders: bool, padLength: byte)
    | Ping(ack: bool, ping: PingData)
    | GoAway(maxStreamID: uint32, code: uint32, debug: seq<byte>)
    | WindowUpdate(id: uint32, incr: uint32)
    | Continuation(id: uint32, endHeaders: bool, frag: seq<byte>)
    | Raw(typ: byte, flags: byte, id: uint32, payload: seq<byte>)

  predicate ValidStreamID(id: uint32) {
    0 < id < MAX_ID
  }

  function TypeOf(q: Request): byte {
    match q
    case Data(_, _, _, _) => DATA
    case Headers(_, _, _, _, _, _) => HEADERS
    case Priority(_, _) => PRIORITY
    case RstStream(_, _) => RST_STREAM
    case Settings(_) => SETTINGS
    case SettingsAck => SETTINGS
    case PushPromise(_, _, _, _, _) => PUSH_PROMISE
    case Ping(_, _) => PING
    case GoAway(_, _, _) => GOAWAY
    case WindowUpdate(_, _) => WINDOW_UPDATE
    case Continuation(_, _, _) => CONTINUATION
    case Raw(t, _, _, _) => t
  }

  /** The flags are disjoint bits, so or-ing them is adding them. */
  function FlagsOf(q: Request): byte {
    match q
    case Data(_, e, _, pad) => Flag(e, END_STREAM) + Flag(pad.Some?, PADDED)
    case Headers(_, _, e, h, pad, p) =>
      Flag(e, END_STREAM) + Flag(h, END_HEADERS) + Flag(pad != 0, PADDED) + Flag(p != NO_PRIORITY, HAS_PRIORITY)
    case SettingsAck => ACK
    case PushPromise(_, _, _, h, pad) => Flag(h, END_HEADERS) + Flag(pad != 0, PADDED)
    case Ping(ack, _) => Flag(ack, ACK)
    case Continuation(_, h, _) => Flag(h, END_HEADERS)
    case Raw(_, f, _, _) => f
    case _ => 0
  }

  function IdOf(q: Request): uint32 {
    match q
    case Settings(_) => 0
    case SettingsAck => 0
    case Ping(_, _) => 0
    case GoAway(_, _, _) => 0
    case _ => q.id
  }

  /** A body behind its optional pad length. */
  function Padded(pad: byte, body: seq<byte>): seq<byte> {
    if pad != 0 then [pad] + body else body
  }

  function PutPriority(p: PriorityParam): (r: seq<byte>)
    ensures |r| == 5
  {
    Put32(if p.exclusive && p.streamDep < MAX_ID then p.streamDep + MAX_ID else p.streamDep) + [p.weight]
  }

  function PutSettings(ss: seq<Setting>): (r: seq<byte>)
    ensures |r| == 6 * |ss|
  {
    if ss == [] then [] else Put16(ss[0].id) + Put32(ss[0].val) + PutSettings(ss[1..])
  }

  function PayloadOf(q: Request): seq<byte> {
    match q
    case Data(_, _, data, pad) =>
      if pad.Some? then [if |pad.value| < 256 then |pad.value| else 0] + (data + pad.value) else data
    case Headers(_, frag, _, _, pad, p) =>
      Padded(pad, (if p != NO_PRIORITY then PutPriority(p) else []) + (frag + Zeros(pad)))
    case Priority(_, p) => PutPriority(p)
    case RstStream(_, code) => Put32(code)
    case Settings(ss) => PutSettings(ss)
    case SettingsAck => []
    case PushPromise(_, promise, frag, _, pad) => Padded(pad, Put32(promise) + (frag + Zeros(pad)))
    case Ping(_, data) => data
    case GoAway(id, code, debug) => Put32(id % MAX_ID) + Put32(code) + debug
    case WindowUpdate(_, incr) => Put32(incr)
    case Continuation(_, _, frag) => frag
    case Raw(_, _, _, p) => p
  }

  /** The checks of the Write methods, in their order; illegal is AllowIllegalWrites. */
  function Refusal(q: Request, illegal: bool): Option<FrameError> {
    match q
    case Data(id, _, _, pad) =>
      if !ValidStreamID(id) && !illegal then Some(InvalidStreamID)
      else if pad.Some? && |pad.value| > 255 then Some(PadTooLong) else None
    case Headers(id, _, _, _, _, p) =>
      if !ValidStreamID(id) && !illegal then Some(InvalidStreamID)
      else if p != NO_PRIORITY && p.streamDep >= MAX_ID && !illegal then Some(InvalidDepStreamID) else None
    case Priority(id, p) =>
      if !ValidStreamID(id) && !illegal then Some(InvalidStreamID)
      else if p.streamDep >= MAX_ID then Some(InvalidDepStreamID) else None
    case RstStream(id, _) => if !ValidStreamID(id) && !illegal then Some(InvalidStreamID) else None
    case PushPromise(id, promise, _, _, _) =>
      if (!ValidStreamID(id) || !ValidStreamID(promise)) && !illegal then Some(InvalidStreamID) else None
    case WindowUpdate(_, incr) => if !(1 <= incr < MAX_ID) && !illegal then Some(IllegalIncrement) else None
    case Continuation(id, _, _) => if !ValidStreamID(id) && !illegal then Some(InvalidStreamID) else None
    case _ => None
  }

  function HeaderOf(q: Request): FrameHeader {
    FrameHeader(TypeOf(q), FlagsOf(q), |PayloadOf(q)|, IdOf(q))
  }

  /** The bytes one Write call puts on the wire, or the error it returns. */
  function Encode(q: Request, illegal: bool): Result<seq<byte>> {
    if Refusal(q, illegal).Some? then Err(Refusal(q, illegal).value)
    else if |PayloadOf(q)| >= MAX_LENGTH then Err(FrameTooLarge)
    else Ok(PutHeader(HeaderOf(q)) + PayloadOf(q))
  }

  // ----- what is read -----

  datatype Frame =
    | DataFrame(fh: FrameHeader, data: seq<byte>)
    | HeadersFrame(fh: FrameHeader, priority: PriorityParam, frag: seq<byte>)
    | PriorityFrame(fh: FrameHeader, priority: PriorityParam)
    | RstStreamFrame(fh: FrameHeader, code: uint32)
    | SettingsFrame(fh: FrameHeader, p: seq<byte>)
    | PushPromiseFrame(fh: FrameHeader, promiseID: nat, frag: seq<byte>)
    | PingFrame(fh: FrameHeader, ping: seq<byte>)
    | GoAwayFrame(fh: FrameHeader, lastStreamID: nat, code: uint32, debug: seq<byte>)
    | WindowUpdateFrame(fh: FrameHeader, incr: nat)
    | ContinuationFrame(fh: FrameHeader, frag: seq<byte>)
    | UnknownFrame(fh: FrameHeader, p: seq<byte>)

  function GetPriority(b: seq<byte>): PriorityParam
    requires |b| == 5
  {
    var v := Get32(b[..4]);
    PriorityParam(v % MAX_ID, v % MAX_ID != v, b[4])
  }

  /** The pad length in front of the payload, if the flag says there is one. */
  function SplitPad(fh: FrameHeader, p: seq<byte>): Result<(seq<byte>, nat)> {
    if !Has(fh.flags, PADDED) then Ok((p, 0))
    else if p == [] then Err(UnexpectedEndOfFile)
    else Ok((p[1..], p[0]))
  }

  function ParseData(fh: FrameHeader, p: seq<byte>): Result<Frame> {
    if fh.id == 0 then Err(ConnectionError(PROTOCOL_ERROR))
    else
      match SplitPad(fh, p)
      case Err(e) => Err(e)
      case Ok((p, pad)) =>
        if pad > |p| then Err(ConnectionError(PROTOCOL_ERROR)) else Ok(DataFrame(fh, p[..|p| - pad]))
  }

  function ParseHeaders(fh: FrameHeader, p: seq<byte>): Result<Frame> {
    if fh.id == 0 then Err(ConnectionError(PROTOCOL_ERROR))
    else
      match SplitPad(fh, p)
      case Err(e) => Err(e)
      case Ok((p, pad)) =>
        if Has(fh.flags, HAS_PRIORITY) && |p| < 5 then Err(UnexpectedEndOfFile)
        else
          var prio := if Has(fh.flags, HAS_PRIORITY) then GetPriority(p[..5]) else NO_PRIORITY;
          var p' := if Has(fh.flags, HAS_PRIORITY) then p[5..] else p;
          if |p'| - pad <= 0 then Err(StreamError(fh.id, PROTOCOL_ERROR))
          else Ok(HeadersFrame(fh, prio, p'[..|p'| - pad]))
  }

  function ParsePriority(fh: FrameHeader, p: seq<byte>): Result<Frame> {
    if fh.id == 0 then Err(ConnectionError(PROTOCOL_ERROR))
    else if |p| != 5 then Err(ConnectionError(FRAME_SIZE_ERROR))
    else Ok(PriorityFrame(fh, GetPriority(p)))
  }

  function ParseRstStream(fh: FrameHeader, p: seq<byte>): Result<Frame> {
    if |p| != 4 then Err(ConnectionError(FRAME_SIZE_ERROR))
    else if fh.id == 0 then Err(ConnectionError(PROTOCOL_ERROR))
    else Ok(RstStreamFrame(fh, Get32(p)))
  }

  /** The value of the first entry for a setting. */
  function SettingValue(p: seq<byte>, id: uint16): Option<uint32>
    requires |p| % 6 == 0
  {
    if p == [] then None
    else if Get16(p[..2]) == id then Some(Get32(p[2..6]))
    else SettingValue(p[6..], id)
  }

  function ParseSettings(fh: FrameHeader, p: seq<byte>): Result<Frame> {
    if Has(fh.flags, ACK) && fh.length > 0 then Err(ConnectionError(FRAME_SIZE_ERROR))
    else if fh.id != 0 then Err(ConnectionError(PROTOCOL_ERROR))
    else if |p| % 6 != 0 then Err(ConnectionError(FRAME_SIZE_ERROR))
    else
      var v := SettingValue(p, INITIAL_WINDOW_SIZE);
      if v.Some? && v.value >= MAX_ID then Err(ConnectionError(FLOW_CONTROL_ERROR)) else Ok(SettingsFrame(fh, p))
  }

  function ParsePushPromise(fh: FrameHeader, p: seq<byte>): Result<Frame> {
    if fh.id == 0 then Err(ConnectionError(PROTOCOL_ERROR))
    else
      match SplitPad(fh, p)
      case Err(e) => Err(e)
      case Ok((p, pad)) =>
        if |p| < 4 then Err(UnexpectedEndOfFile)
        else if pad > |p| - 4 then Err(ConnectionError(PROTOCOL_ERROR))
        else Ok(PushPromiseFrame(fh, Get32(p[..4]) % MAX_ID, p[4..|p| - pad]))
  }

  function ParsePing(fh: FrameHeader, p: seq<byte>): Result<Frame> {
    if |p| != 8 then Err(ConnectionError(FRAME_SIZE_ERROR))
    else if fh.id != 0 then Err(ConnectionError(PROTOCOL_ERROR))
    else Ok(PingFrame(fh, p))
  }

  function ParseGoAway(fh: FrameHeader, p: seq<byte>): Result<Frame> {
    if fh.id != 0 then Err(ConnectionError(PROTOCOL_ERROR))
    else if |p| < 8 then Err(ConnectionError(FRAME_SIZE_ERROR))
    else Ok(GoAwayFrame(fh, Get32(p[..4]) % MAX_ID, Get32(p[4..8]), p[8..]))
  }

  function ParseWindowUpdate(fh: FrameHeader, p: seq<byte>): Result<Frame> {
    if |p| != 4 then Err(ConnectionError(FRAME_SIZE_ERROR))
    else
      var incr := Get32(p) % MAX_ID;
      if incr == 0 then
        Err(if fh.id == 0 then ConnectionError(PROTOCOL_ERROR) else StreamError(fh.id, PROTOCOL_ERROR))
      else Ok(WindowUpdateFrame(fh, incr))
  }

  function ParseContinuation(fh: FrameHeader, p: seq<byte>): Result<Frame> {
    if fh.id == 0 then Err(ConnectionError(PROTOCOL_ERROR)) else Ok(ContinuationFrame(fh, p))
  }

  function Parse(fh: FrameHeader, p: seq<byte>): Result<Frame> {
    if fh.typ == DATA then ParseData(fh, p)
    else if fh.typ == HEADERS then ParseHeaders(fh, p)
    else if fh.typ == PRIORITY then ParsePriority(fh, p)
    else if fh.typ == RST_STREAM then ParseRstStream(fh, p)
    else if fh.typ == SETTINGS then ParseSettings(fh, p)
    else if fh.typ == PUSH_PROMISE then ParsePushPromise(fh, p)
    else if fh.typ == PING then ParsePing(fh, p)
    else if fh.typ == GOAWAY then ParseGoAway(fh, p)
    else if fh.typ == WINDOW_UPDATE then ParseWindowUpdate(fh, p)
    else if fh.typ == CONTINUATION then ParseContinuation(fh, p)
    else Ok(UnknownFrame(fh, p))
  }

  // ----- reading back what was written -----

  function FirstSetting(ss: seq<Setting>, id: uint16): Option<uint32> {
    if ss == [] then None else if ss[0].id == id then Some(ss[0].val) else FirstSetting(ss[1..], id)
  }

  /** The requests the reader accepts: see ReadsBackIff. */
  predicate Readable(q: Request) {
    && Refusal(q, false) == None
    && |PayloadOf(q)| < MAX_LENGTH
    && match q
       case Headers(_, frag, _, _, _, _) => frag != []
       case Settings(ss) =>
         FirstSetting(ss, INITIAL_WINDOW_SIZE).Some? ==> FirstSetting(ss, INITIAL_WINDOW_SIZE).value < MAX_ID
       case WindowUpdate(id, _) => id < MAX_ID
       case Raw(t, _, id, _) => t > CONTINUATION && id < MAX_ID
       case _ => true
  }

  /** The frame that stands for a request. */
  function FrameOf(q: Request): Frame {
    var fh := HeaderOf(q);
    match q
    case Data(_, _, data, _) => DataFrame(fh, data)
    case Headers(_, frag, _, _, _, p) => HeadersFrame(fh, p, frag)
    case Priority(_, p) => PriorityFrame(fh, p)
    case RstStream(_, code) => RstStreamFrame(fh, code)
    case Settings(ss) => SettingsFrame(fh, PutSettings(ss))
    case SettingsAck => SettingsFrame(fh, [])
    case PushPromise(_, promise, frag, _, _) => PushPromiseFrame(fh, promise, frag)
    case Ping(_, data) => PingFrame(fh, data)
    case GoAway(id, code, debug) => GoAwayFrame(fh, id % MAX_ID, code, debug)
    case WindowUpdate(_, incr) => WindowUpdateFrame(fh, incr)
    case Continuation(_, _, frag) => ContinuationFrame(fh, frag)
    case Raw(_, _, _, p) => UnknownFrame(fh, p)
  }

  lemma FlagsReadBack(q: Request)
    ensures q.Data? ==> (Has(FlagsOf(q), PADDED) <==> q.pad.Some?) && (Has(FlagsOf(q), END_STREAM) <==> q.endStream)
    ensures q.Headers? ==>
              && (Has(FlagsOf(q), PADDED) <==> q.padLength != 0) && (Has(FlagsOf(q), END_STREAM) <==> q.endStream)
                           && (Has(FlagsOf(q), END_HEADERS) <==> q.endHeaders)
                           && (Has(FlagsOf(q), HAS_PRIORITY) <==> q.priority != NO_PRIORITY)
    ensures q.PushPromise? ==>
              (Has(FlagsOf(q), PADDED) <==> q.padLength != 0) && (Has(FlagsOf(q), END_HEADERS) <==> q.endHeaders)
    ensures q.Continuation? ==> (Has(FlagsOf(q), END_HEADERS) <==> q.endHeaders)
    ensures q.Settings? ==> !Has(FlagsOf(q), ACK)
    ensures q.SettingsAck? ==> Has(FlagsOf(q), ACK)
    ensures q.Ping? ==> (Has(FlagsOf(q), ACK) <==> q.ack)
  {
  }

  lemma ReservedBit(dep: nat)
    requires dep < MAX_ID
    ensures dep % MAX_ID == dep && (dep + MAX_ID) % MAX_ID == dep
  {
  }

  lemma PriorityReadBack(p: PriorityParam)
    requires p.streamDep < MAX_ID
    ensures GetPriority(PutPriority(p)) == p
  {
    var b := PutPriority(p);
    var v := if p.exclusive then p.streamDep + MAX_ID else p.streamDep;
    assert b[..4] == Put32(v) && b[4] == p.weight;
    Get32Put32(v);
    ReservedBit(p.streamDep);
  }

  lemma {:induction false} SettingsReadBack(ss: seq<Setting>, id: uint16)
    ensures SettingValue(PutSettings(ss), id) == FirstSetting(ss, id)
  {
    if ss != [] {
      var b := PutSettings(ss);
      assert b[..2] == Put16(ss[0].id);
      assert b[2..6] == Put32(ss[0].val);
      assert b[6..] == PutSettings(ss[1..]);
      Get16Put16(ss[0].id);
      Get32Put32(ss[0].val);
      SettingsReadBack(ss[1..], id);
    }
  }

  lemma DataParsed(fh: FrameHeader, data: seq<byte>, pad: seq<byte>)
    requires fh.id != 0 && |pad| < 256
    ensures Has(fh.flags, PADDED) ==> ParseData(fh, [|pad|] + (data + pad)) == Ok(DataFrame(fh, data))
    ensures !Has(fh.flags, PADDED) ==> ParseData(fh, data) == Ok(DataFrame(fh, data))
  {
    var p := [|pad|] + (data + pad);
    assert p[1..] == data + pad;
    assert (data + pad)[..|data|] == data == data[..|data|];
  }

  lemma PadSplit(fh: FrameHeader, pad: byte, body: seq<byte>)
    requires Has(fh.flags, PADDED) <==> pad != 0
    ensures SplitPad(fh, Padded(pad, body)) == Ok((body, pad))
  {
  }

  lemma HeadersParsed(fh: FrameHeader, pad: byte, prio: PriorityParam, frag: seq<byte>)
    requires fh.id != 0 && prio.streamDep < MAX_ID && frag != []
    requires Has(fh.flags, PADDED) <==> pad != 0
    requires Has(fh.flags, HAS_PRIORITY) <==> prio != NO_PRIORITY
    ensures ParseHeaders(fh, Padded(pad, (if prio != NO_PRIORITY then PutPriority(prio) else []) + (frag + Zeros(pad))))
         == Ok(HeadersFrame(fh, prio, frag))
  {
    var b := if prio != NO_PRIORITY then PutPriority(prio) else [];
    var tail := frag + Zeros(pad);
    PadSplit(fh, pad, b + tail);
    PriorityReadBack(prio);
    assert (b + tail)[..|b|] == b && (b + tail)[|b|..] == tail;
    assert tail[..|tail| - pad] == frag;
    assert prio == NO_PRIORITY ==> b + tail == tail;
  }

  lemma PushPromiseParsed(fh: FrameHeader, pad: byte, promise: uint32, frag: seq<byte>)
    requires fh.id != 0 && promise < MAX_ID && (Has(fh.flags, PADDED) <==> pad != 0)
    ensures ParsePushPromise(fh, Padded(pad, Put32(promise) + (frag + Zeros(pad))))
        == Ok(PushPromiseFrame(fh, promise, frag))
  {
    var body := Put32(promise) + (frag + Zeros(pad));
    PadSplit(fh, pad, body);
    Get32Put32(promise);
    assert body[..4] == Put32(promise) && body[4..|body| - pad] == frag;
  }

  lemma GoAwayParsed(fh: FrameHeader, id: nat, code: uint32, debug: seq<byte>)
    requires fh.id == 0 && id < MAX_ID
    ensures ParseGoAway(fh, Put32(id) + Put32(code) + debug) == Ok(GoAwayFrame(fh, id, code, debug))
  {
    var p := Put32(id) + Put32(code) + debug;
    assert p[..4] == Put32(id) && p[4..8] == Put32(code) && p[8..] == debug;
    Get32Put32(id);
    Get32Put32(code);
  }

  lemma SettingsParsed(fh: FrameHeader, ss: seq<Setting>)
    requires fh.id == 0 && !Has(fh.flags, ACK)
    ensures ParseSettings(fh, PutSettings(ss)) ==
      var v := FirstSetting(ss, INITIAL_WINDOW_SIZE);
      if v.Some? && v.value >= MAX_ID then Err(ConnectionError(FLOW_CONTROL_ERROR))
      else Ok(SettingsFrame(fh, PutSettings(ss)))
  {
    SettingsReadBack(ss, INITIAL_WINDOW_SIZE);
  }

  lemma WindowUpdateParsed(fh: FrameHeader, incr: uint32)
    requires 0 < incr < MAX_ID
    ensures ParseWindowUpdate(fh, Put32(incr)) == Ok(WindowUpdateFrame(fh, incr))
  {
    Get32Put32(incr);
  }

  /** Parsing the payload that was written gives back the frame that was asked for. */
  lemma ParseReadBack(q: Request)
    requires Readable(q)
    ensures Parse(HeaderOf(q), PayloadOf(q)) == Ok(FrameOf(q))
  {
    FlagsReadBack(q);
    if q.Data? || q.Headers? || q.PushPromise? {
      PaddedReadBack(q);
    } else {
      PlainReadBack(q);
    }
  }

  lemma PaddedReadBack(q: Request)
    requires Readable(q) && (q.Data? || q.Headers? || q.PushPromise?)
    ensures Parse(HeaderOf(q), PayloadOf(q)) == Ok(FrameOf(q))
  {
    FlagsReadBack(q);
    match q
    case Data(_, _, data, pad) => DataParsed(HeaderOf(q), data, if pad.Some? then pad.value else []);
    case Headers(_, frag, _, _, pad, p) => HeadersParsed(HeaderOf(q), pad, p, frag);
    case PushPromise(_, promise, frag, _, pad) => PushPromiseParsed(HeaderOf(q), pad, promise, frag);
  }

  lemma PlainReadBack(q: Request)
    requires Readable(q) && !q.Data? && !q.Headers? && !q.PushPromise?
    ensures Parse(HeaderOf(q), PayloadOf(q)) == Ok(FrameOf(q))
  {
    FlagsReadBack(q);
    match q
    case Priority(_, p) => PriorityReadBack(p);
    case RstStream(_, code) => Get32Put32(code);
    case Settings(ss) => SettingsParsed(HeaderOf(q), ss);
    case SettingsAck =>
    case Ping(_, _) =>
    case GoAway(id, code, debug) => GoAwayParsed(HeaderOf(q), id % MAX_ID, code, debug);
    case WindowUpdate(_, incr) => WindowUpdateParsed(HeaderOf(q), incr);
    case Continuation(_, _, _) =>
    case Raw(_, _, _, _) =>
  }

  // ----- reading from a stream of bytes -----

  datatype ReadResult = ReadResult(frame: Result<Frame>, rest: seq<byte>, lastHeaderStream: nat)

  /**
   * The order of HEADERS and CONTINUATION frames: the stream whose header block is still open (0 for none), or an
   * error.
   */
  function CheckFrameOrder(last: nat, fh: FrameHeader, illegal: bool): Result<nat> {
    if illegal then Ok(last)
    else if last != 0 && (fh.typ != CONTINUATION || fh.id != last) then Err(ConnectionError(PROTOCOL_ERROR))
    else if last == 0 && fh.typ == CONTINUATION then Err(ConnectionError(PROTOCOL_ERROR))
    else if fh.typ == HEADERS || fh.typ == CONTINUATION then Ok(if Has(fh.flags, END_HEADERS) then 0 else fh.id)
    else Ok(last)
  }

  /** io.ReadFull on too few bytes. */
  function ShortRead(r: seq<byte>): FrameError {
    if r == [] then EndOfFile else UnexpectedEndOfFile
  }

  function ReadFrame(r: seq<byte>, last: nat, maxRead: nat, illegal: bool): ReadResult {
    if |r| < HEADER_LEN then ReadResult(Err(ShortRead(r)), [], last)
    else
      var fh := GetHeader(r[..HEADER_LEN]);
      var r1 := r[HEADER_LEN..];
      if fh.length > maxRead then ReadResult(Err(FrameTooLarge), r1, last)
      else if |r1| < fh.length then ReadResult(Err(ShortRead(r1)), [], last)
      else
        var rest := r1[fh.length..];
        match Parse(fh, r1[..fh.length])
        case Err(e) => ReadResult(Err(e), rest, last)
        case Ok(f) =>
          match CheckFrameOrder(last, fh, illegal)
          case Err(e) => ReadResult(Err(e), rest, last)
          case Ok(last') => ReadResult(Ok(f), rest, last')
  }

  /**
   * The header is read with the reserved bit of the stream id dropped; the size, the payload and the order are checked
   * in turn.
   */
  lemma ReadAny(fh: FrameHeader, p: seq<byte>, rest: seq<byte>, last: nat, maxRead: nat, illegal: bool)
    requires fh.length == |p| < MAX_LENGTH && fh.id < 0x1_0000_0000
    ensures var fh' := fh.(id := fh.id % MAX_ID);
            var rr := ReadFrame(PutHeader(fh) + p + rest, last, maxRead, illegal);
            && (rr.frame.Ok? <==> |p| <= maxRead && Parse(fh', p).Ok? && CheckFrameOrder(last, fh', illegal).Ok?)
            && (rr.frame.Ok? ==> rr == ReadResult(Parse(fh', p), rest, CheckFrameOrder(last, fh', illegal).value))
  {
    var r := PutHeader(fh) + p + rest;
    assert r[..HEADER_LEN] == PutHeader(fh);
    assert r[HEADER_LEN..] == p + rest;
    GetHeaderPutHeader(fh);
    assert (p + rest)[..|p|] == p && (p + rest)[|p|..] == rest;
  }

  /** What is not readable is refused, or read as another frame. */
  lemma UnreadableParsed(q: Request)
    requires Refusal(q, false) == None && |PayloadOf(q)| < MAX_LENGTH && !Readable(q)
    ensures Parse(HeaderOf(q).(id := IdOf(q) % MAX_ID), PayloadOf(q)) != Ok(FrameOf(q))
  {
    var fh := HeaderOf(q).(id := IdOf(q) % MAX_ID);
    FlagsReadBack(q);
    match q
    case Headers(_, frag, _, _, pad, p) => EmptyHeadersParsed(fh, pad, p);
    case Settings(ss) => SettingsParsed(fh, ss);
    case _ =>
  }

  lemma EmptyHeadersParsed(fh: FrameHeader, pad: byte, prio: PriorityParam)
    requires Has(fh.flags, PADDED) <==> pad != 0
    requires Has(fh.flags, HAS_PRIORITY) <==> prio != NO_PRIORITY
    ensures ParseHeaders(fh,
                         Padded(pad, (if prio != NO_PRIORITY then PutPriority(prio) else []) + ([] + Zeros(pad)))).Err?
  {
    var b := if prio != NO_PRIORITY then PutPriority(prio) else [];
    PadSplit(fh, pad, b + ([] + Zeros(pad)));
  }

  lemma ParsedIff(q: Request)
    requires Encode(q, false).Ok?
    ensures Parse(HeaderOf(q).(id := IdOf(q) % MAX_ID), PayloadOf(q)) == Ok(FrameOf(q)) <==> Readable(q)
    ensures Readable(q) ==> IdOf(q) < MAX_ID
  {
    if Readable(q) {
      ReadableId(q);
      ParseReadBack(q);
      Unmasked(HeaderOf(q));
    } else {
      UnreadableParsed(q);
    }
  }

  lemma ReadableId(q: Request)
    requires Readable(q)
    ensures IdOf(q) < MAX_ID
  {
  }

  /** The next frame to read: in order and within the read limit. */
  predicate InTurn(fh: FrameHeader, last: nat, maxRead: nat) {
    fh.length <= maxRead && CheckFrameOrder(last, fh, false).Ok?
  }

  /**
   * A frame that the writer accepts comes back as it was written, whatever follows it, exactly when it is readable,
   * in order and within the read limit.
   */
  lemma ReadsBackIff(q: Request, rest: seq<byte>, last: nat, maxRead: nat)
    requires Encode(q, false).Ok?
    ensures ReadFrame(Encode(q, false).value + rest, last, maxRead, false).frame == Ok(FrameOf(q))
       <==> Readable(q) && InTurn(HeaderOf(q), last, maxRead)
    ensures Readable(q) && InTurn(HeaderOf(q), last, maxRead) ==>
              ReadFrame(Encode(q, false).value + rest, last, maxRead, false)
              == ReadResult(Ok(FrameOf(q)), rest, CheckFrameOrder(last, HeaderOf(q), false).value)
  {
    ParsedIff(q);
    ReadIff(HeaderOf(q), PayloadOf(q), FrameOf(q), Readable(q), rest, last, maxRead);
  }

  lemma Unmasked(fh: FrameHeader)
    requires fh.id < MAX_ID
    ensures fh.(id := fh.id % MAX_ID) == fh
  {
  }

  lemma ReadIff(fh: FrameHeader, p: seq<byte>, f: Frame, ok: bool, rest: seq<byte>, last: nat, maxRead: nat)
    requires fh.length == |p| < MAX_LENGTH && fh.id < 0x1_0000_0000
    requires Parse(fh.(id := fh.id % MAX_ID), p) == Ok(f) <==> ok
    requires ok ==> fh.id < MAX_ID
    ensures ReadFrame(PutHeader(fh) + p + rest, last, maxRead, false).frame == Ok(f) <==>
              ok && InTurn(fh, last, maxRead)
    ensures ok && InTurn(fh, last, maxRead) ==>
              ReadFrame(PutHeader(fh) + p + rest, last, maxRead, false)
                  == ReadResult(Ok(f), rest, CheckFrameOrder(last, fh, false).value)
  {
    ReadAny(fh, p, rest, last, maxRead, false);
    if ok {
      Unmasked(fh);
    }
  }
}
