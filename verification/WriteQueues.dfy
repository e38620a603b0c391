/** Frame write requests, how flow control cuts DATA frames, and the queues that hold them. */
module WriteQueues {
  import opened Basics
  import opened FlowControl

  /** SETTINGS_MAX_FRAME_SIZE: a SETTINGS frame with a value outside this range is refused. */
  type FrameSize = x: int32 | 16384 <= x <= 0xff_ffff witness 16384

  /** The parts of a server connection the schedulers look at. */
  class Conn {
    const flow: Flow
    var maxFrameSize: FrameSize

    constructor (flow: Flow, maxFrameSize: FrameSize)
      requires flow.conn == null
      ensures this.flow == flow && this.maxFrameSize == maxFrameSize
    {
      this.flow := flow;
      this.maxFrameSize := maxFrameSize;
    }
  }

  class Stream {
    const id: nat
    const sc: Conn
    const flow: Flow

    constructor (id: nat, sc: Conn, flow: Flow)
      ensures this.id == id && this.sc == sc && this.flow == flow
    {
      this.id := id;
      this.sc := sc;
      this.flow := flow;
    }

    /** Stream ids are not 0; the stream's window is linked to its connection's, and is a different object. */
    predicate Linked() {
      id != 0 && flow.conn == sc.flow && sc.flow.conn == null && flow != sc.flow
    }

    function Windows(): set<Flow> {
      {flow, sc.flow}
    }
  }

  /** DATA frames are cut by flow control; RST_STREAM may name a stream it does not carry; the rest are opaque. */
  datatype WriteFramer =
    | Data(p: seq<byte>, endStream: bool)
    | StreamError(streamID: nat, code: nat)
    | Other(tag: nat)

  datatype FrameWriteRequest = FrameWriteRequest(write: WriteFramer, stream: Stream?, done: Option<nat>) {

    /** The stream the frame belongs to, 0 for frames of the connection. */
    function StreamID(): nat {
      if stream == null then
        if write.StreamError? then write.streamID else 0
      else stream.id
    }

    /** Flow-control bytes needed to write the frame; 0 for anything but DATA. */
    function DataSize(): nat {
      if write.Data? then |write.p| else 0
    }

    /** DATA is only ever written on behalf of a stream. */
    predicate Valid() {
      && (write.Data? ==> stream != null)
      && (stream != null ==> stream.Linked())
    }

    /** The windows the frame draws on. */
    function Windows(): set<Flow> {
      if stream != null && DataSize() > 0 then stream.Windows() else {}
    }

    /** How many bytes may leave now, given a caller's limit n. */
    function Allowed(n: int32): int32
      requires Valid() && DataSize() > 0
      reads stream, stream.sc, stream.Windows()
    {
      var a := if n < stream.flow.Available() then n else stream.flow.Available();
      if stream.sc.maxFrameSize < a then stream.sc.maxFrameSize else a
    }

    /** Flow control (or the limit) lets no byte of the frame through. */
    predicate Blocked(n: int32)
      requires Valid()
      reads if stream != null then {stream, stream.sc} + stream.Windows() else {}
    {
      DataSize() > 0 && Allowed(n) <= 0
    }

    /** Cuts the frame: 0 frames if blocked, 1 if it leaves whole, otherwise the head and the rest. */
    method Consume(n: int32) returns (consumed: FrameWriteRequest, rest: FrameWriteRequest, num: nat)
      requires Valid()
      modifies Windows()
      ensures num <= 2
      ensures num == 0 <==> old(Blocked(n))
      ensures num == 0 ==> forall f :: f in Windows() ==> f.n == old(f.n)
      ensures num == 1 ==> consumed == this
      ensures num == 1 && DataSize() > 0 ==> DataSize() <= old(Allowed(n))
      ensures num == 2 ==> DataSize() > 0 && consumed.DataSize() == old(Allowed(n)) && rest.DataSize() > 0
      ensures num == 2 ==> consumed == FrameWriteRequest(Data(consumed.write.p, false), stream, None)
      ensures num == 2 ==> rest == FrameWriteRequest(Data(rest.write.p, write.endStream), stream, done)
      ensures num == 2 ==> consumed.write.p + rest.write.p == write.p
      ensures num != 0 ==> forall f :: f in Windows() ==> f.n == old(f.n) - consumed.DataSize()
    {
      var empty := FrameWriteRequest(Other(0), null, None);
      if !write.Data? || |write.p| == 0 {
        return this, empty, 1;
      }
      var allowed := stream.flow.Available();
      if n < allowed {
        allowed := n;
      }
      if stream.sc.maxFrameSize < allowed {
        allowed := stream.sc.maxFrameSize;
      }
      if allowed <= 0 {
        return empty, empty, 0;
      }
      if |write.p| > allowed {
        stream.flow.Take(allowed);
        consumed := FrameWriteRequest(Data(write.p[..allowed], false), stream, None);
        rest := FrameWriteRequest(Data(write.p[allowed..], write.endStream), stream, done);
        return consumed, rest, 2;
      }
      stream.flow.Take(|write.p|);
      return this, empty, 1;
    }
  }

  /** The items a queue stands for: its DATA bytes one by one, and one mark where a whole frame ends. */
  datatype Item = DataByte(b: byte) | FrameEnd(write: WriteFramer, done: Option<nat>)

  function Bytes(p: seq<byte>): (r: seq<Item>)
    ensures |r| == |p| && forall i :: 0 <= i < |p| ==> r[i] == DataByte(p[i])
  {
    seq(|p|, i requires 0 <= i < |p| => DataByte(p[i]))
  }

  /** A frame that leaves as the last piece contributes its bytes and its mark; an earlier piece only its bytes. */
  function ItemsOf(wr: FrameWriteRequest, last: bool): seq<Item> {
    (if wr.write.Data? then Bytes(wr.write.p) else [])
    + (if last then [FrameEnd(if wr.write.Data? then Data([], wr.write.endStream) else wr.write, wr.done)] else [])
  }

  function QueueItems(s: seq<FrameWriteRequest>): seq<Item> {
    if s == [] then [] else ItemsOf(s[0], true) + QueueItems(s[1..])
  }

  lemma {:induction false} QueueItemsAppend(s: seq<FrameWriteRequest>, t: seq<FrameWriteRequest>)
    ensures QueueItems(s + t) == QueueItems(s) + QueueItems(t)
  {
    if s == [] {
      assert s + t == t;
    } else {
      QueueItemsAppend(s[1..], t);
      assert (s + t)[0] == s[0] && (s + t)[1..] == s[1..] + t;
      Reassociate(ItemsOf(s[0], true), QueueItems(s[1..]), QueueItems(t));
    }
  }

  lemma QueueItemsOne(wr: FrameWriteRequest)
    ensures QueueItems([wr]) == ItemsOf(wr, true)
  {
    assert QueueItems([wr]) == ItemsOf(wr, true) + QueueItems([]);
  }

  /** Cutting a DATA frame moves bytes, never marks, from the queue to the wire. */
  lemma CutKeepsItems(whole: FrameWriteRequest, head: FrameWriteRequest, rest: FrameWriteRequest)
    requires whole.write.Data? && head.write.Data? && rest.write.Data?
    requires head.write.p + rest.write.p == whole.write.p
    requires rest.write.endStream == whole.write.endStream && rest.done == whole.done
    ensures ItemsOf(head, false) + ItemsOf(rest, true) == ItemsOf(whole, true)
  {
    assert Bytes(head.write.p) + Bytes(rest.write.p) == Bytes(whole.write.p);
  }

  predicate AllValid(s: seq<FrameWriteRequest>) {
    forall i :: 0 <= i < |s| ==> s[i].Valid()
  }

  // ----- windows -----

  ghost predicate AreWindows(m: map<Flow, int>, W: set<Flow>)
    reads W`n
  {
    m.Keys == W && forall f {:trigger m[f]} :: f in W ==> m[f] == f.n
  }

  /** A snapshot of windows. */
  ghost function WindowsOf(W: set<Flow>): (m: map<Flow, int>)
    reads W`n
    ensures m.Keys == W && AreWindows(m, W)
  {
    assert AreWindows(map f | f in W :: f.n, W);
    var m :| AreWindows(m, W);
    m
  }

  ghost function Debited(F: map<Flow, int>, ws: set<Flow>, k: int): map<Flow, int> {
    Tabulated(F.Keys, f requires f in F => if f in ws then F[f] - k else F[f])
  }

  ghost function HeadWindows(s: seq<FrameWriteRequest>): set<Flow> {
    if s == [] then {} else s[0].Windows()
  }

  /** W has the windows of every frame of the queue. */
  ghost predicate Covers(W: set<Flow>, s: seq<FrameWriteRequest>) {
    forall i :: 0 <= i < |s| ==> s[i].Windows() <= W
  }

  /** The frame is a DATA frame with bytes, and one of its two windows is used up. */
  ghost predicate Stuck(wr: FrameWriteRequest, F: map<Flow, int>) {
    && wr.DataSize() > 0 && wr.stream != null
    && wr.stream.flow in F && wr.stream.sc.flow in F
    && (F[wr.stream.flow] <= 0 || F[wr.stream.sc.flow] <= 0)
  }

  /** Nothing can be taken from the queue under windows F. */
  ghost predicate Exhausted(s: seq<FrameWriteRequest>, F: map<Flow, int>) {
    s == [] || Stuck(s[0], F)
  }

  /** Queue s gave up wr and is now s': the whole first frame, or some of its bytes without its mark. */
  ghost predicate HeadTaken(s: seq<FrameWriteRequest>, s': seq<FrameWriteRequest>, wr: FrameWriteRequest, last: bool) {
    && s != [] && wr.Valid() && wr.stream == s[0].stream && wr.StreamID() == s[0].StreamID()
    && if last then wr == s[0] && s' == s[1..]
       else && s' != [] && s'[1..] == s[1..] && s[0].write.Data? && s'[0].write.Data? && wr.write.Data?
            && s'[0] == s[0].(write := s[0].write.(p := s'[0].write.p))
            && wr == FrameWriteRequest(Data(wr.write.p, false), s[0].stream, None)
            && wr.write.p + s'[0].write.p == s[0].write.p
            && wr.write.p != [] && s'[0].write.p != []
  }

  /** Taking from the head loses, adds and reorders nothing. */
  lemma HeadTakenKeepsItems(s: seq<FrameWriteRequest>, s': seq<FrameWriteRequest>, wr: FrameWriteRequest, last: bool)
    requires HeadTaken(s, s', wr, last)
    ensures ItemsOf(wr, last) + QueueItems(s') == QueueItems(s)
  {
    if !last {
      CutKeepsItems(s[0], wr, s'[0]);
      Reassociate(ItemsOf(wr, false), ItemsOf(s'[0], true), QueueItems(s[1..]));
    }
  }

  /** The DATA bytes among the items. */
  function Payload(items: seq<Item>): seq<byte> {
    if items == [] then [] else (if items[0].DataByte? then [items[0].b] else []) + Payload(items[1..])
  }

  lemma {:induction false} PayloadAppend(a: seq<Item>, b: seq<Item>)
    ensures Payload(a + b) == Payload(a) + Payload(b)
  {
    if a == [] {
      assert a + b == b;
    } else {
      PayloadAppend(a[1..], b);
      assert (a + b)[0] == a[0] && (a + b)[1..] == a[1..] + b;
      Reassociate(if a[0].DataByte? then [a[0].b] else [], Payload(a[1..]), Payload(b));
    }
  }

  lemma {:induction false} PayloadOfBytes(p: seq<byte>)
    ensures Payload(Bytes(p)) == p
  {
    if p != [] {
      PayloadOfBytes(p[1..]);
      assert Bytes(p)[1..] == Bytes(p[1..]);
    }
  }

  /** The items that frames of a stream stand for; lasts tells which frames are last pieces. */
  ghost function ItemsFor(frames: seq<FrameWriteRequest>, lasts: seq<bool>, id: nat): seq<Item>
    requires |frames| == |lasts|
  {
    if frames == [] then []
    else
      var n := |frames| - 1;
      ItemsFor(frames[..n], lasts[..n], id) + if frames[n].StreamID() == id then ItemsOf(frames[n], lasts[n]) else []
  }

  ghost function AllLast(frames: seq<FrameWriteRequest>): (r: seq<bool>)
    ensures |r| == |frames|
  {
    seq(|frames|, _ => true)
  }

  lemma ItemsForAppend(frames: seq<FrameWriteRequest>, lasts: seq<bool>, wr: FrameWriteRequest, last: bool, id: nat)
    requires |frames| == |lasts|
    ensures ItemsFor(frames + [wr], lasts + [last], id)
         == ItemsFor(frames, lasts, id) + if wr.StreamID() == id then ItemsOf(wr, last) else []
  {
    var n := |frames|;
    assert (frames + [wr])[..n] == frames && (lasts + [last])[..n] == lasts;
  }

  lemma AllLastAppend(frames: seq<FrameWriteRequest>, wr: FrameWriteRequest)
    ensures AllLast(frames + [wr]) == AllLast(frames) + [true]
  {
  }

  /** Pieces that are not the last carry neither END_STREAM nor the reply channel. */
  ghost predicate Unmarked(outs: seq<FrameWriteRequest>, lasts: seq<bool>)
    requires |outs| == |lasts|
  {
    forall i :: 0 <= i < |outs| && !lasts[i] ==> outs[i].write.Data? && !outs[i].write.endStream && outs[i].done == None
  }

  /** The DATA bytes that a list of frames carries for a stream, in order. */
  function PayloadFor(frames: seq<FrameWriteRequest>, id: nat): seq<byte> {
    if frames == [] then []
    else
      var mine := frames[0].write.Data? && frames[0].StreamID() == id;
      (if mine then frames[0].write.p else []) + PayloadFor(frames[1..], id)
  }

  lemma {:induction false} PayloadForAppend(s: seq<FrameWriteRequest>, wr: FrameWriteRequest, id: nat)
    ensures PayloadFor(s + [wr], id) == PayloadFor(s, id) + PayloadFor([wr], id)
  {
    if s == [] {
      assert s + [wr] == [wr];
    } else {
      assert (s + [wr])[1..] == s[1..] + [wr];
      PayloadForAppend(s[1..], wr, id);
      Reassociate(PayloadFor([s[0]], id), PayloadFor(s[1..], id), PayloadFor([wr], id));
    }
  }

  lemma HeadTakenPayload(s: seq<FrameWriteRequest>, s': seq<FrameWriteRequest>, wr: FrameWriteRequest, last: bool,
                         id: nat)
    requires HeadTaken(s, s', wr, last)
    ensures PayloadFor([wr], id) + PayloadFor(s', id) == PayloadFor(s, id)
  {
    if !last && wr.StreamID() == id {
      assert s'[0].StreamID() == id;
      Reassociate(wr.write.p, s'[0].write.p, PayloadFor(s[1..], id));
    }
  }

  lemma {:induction false} PayloadOfItems(frames: seq<FrameWriteRequest>, lasts: seq<bool>, id: nat)
    requires |frames| == |lasts|
    ensures Payload(ItemsFor(frames, lasts, id)) == PayloadFor(frames, id)
  {
    if frames != [] {
      var n := |frames| - 1;
      PayloadOfItems(frames[..n], lasts[..n], id);
      assert frames == frames[..n] + [frames[n]];
      PayloadForAppend(frames[..n], frames[n], id);
      PayloadOfOneFor(frames[n], lasts[n], id);
      PayloadAppend(ItemsFor(frames[..n], lasts[..n], id),
                    if frames[n].StreamID() == id then ItemsOf(frames[n], lasts[n]) else []);
    }
  }

  lemma PayloadOfOneFor(wr: FrameWriteRequest, last: bool, id: nat)
    ensures Payload(if wr.StreamID() == id then ItemsOf(wr, last) else []) == PayloadFor([wr], id)
  {
    PayloadOfOne(wr, last);
  }

  lemma PayloadOfOne(wr: FrameWriteRequest, last: bool)
    ensures Payload(ItemsOf(wr, last)) == if wr.write.Data? then wr.write.p else []
  {
    var end := FrameEnd(if wr.write.Data? then Data([], wr.write.endStream) else wr.write, wr.done);
    var mark := if last then [end] else [];
    assert Payload(mark) == [];
    if wr.write.Data? {
      PayloadOfBytes(wr.write.p);
      PayloadAppend(Bytes(wr.write.p), mark);
    } else {
      assert ItemsOf(wr, last) == mark;
    }
  }

  /** The items queued for a stream, in a queue that may hold frames of others. */
  function QueueItemsFor(s: seq<FrameWriteRequest>, id: nat): seq<Item> {
    if s == [] then []
    else (if s[0].StreamID() == id then ItemsOf(s[0], true) else []) + QueueItemsFor(s[1..], id)
  }

  lemma {:induction false} QueueItemsForAppend(s: seq<FrameWriteRequest>, wr: FrameWriteRequest, id: nat)
    ensures QueueItemsFor(s + [wr], id)
         == QueueItemsFor(s, id) + if wr.StreamID() == id then ItemsOf(wr, true) else []
  {
    if s == [] {
      assert s + [wr] == [wr] && QueueItemsFor([], id) == [];
    } else {
      assert (s + [wr])[0] == s[0] && (s + [wr])[1..] == s[1..] + [wr];
      QueueItemsForAppend(s[1..], wr, id);
      Reassociate(if s[0].StreamID() == id then ItemsOf(s[0], true) else [], QueueItemsFor(s[1..], id),
                  if wr.StreamID() == id then ItemsOf(wr, true) else []);
    }
  }

  /** Taking from the head of a queue loses, adds and reorders nothing for any stream. */
  lemma HeadTakenKeepsFor(s: seq<FrameWriteRequest>, s': seq<FrameWriteRequest>, wr: FrameWriteRequest, last: bool,
                          id: nat)
    requires HeadTaken(s, s', wr, last)
    ensures (if wr.StreamID() == id then ItemsOf(wr, last) else []) + QueueItemsFor(s', id) == QueueItemsFor(s, id)
  {
    if !last && wr.StreamID() == id {
      CutKeepsItems(s[0], wr, s'[0]);
      Reassociate(ItemsOf(wr, false), ItemsOf(s'[0], true), QueueItemsFor(s[1..], id));
    }
  }

  /** Every frame leaves a mark: a queue with no items for a stream has no frames for it. */
  lemma {:induction false} NoFramesFor(s: seq<FrameWriteRequest>, id: nat, i: nat)
    requires QueueItemsFor(s, id) == [] && i < |s|
    ensures s[i].StreamID() != id
  {
    if i > 0 {
      NoFramesFor(s[1..], id, i - 1);
    }
  }

  lemma {:induction false} PayloadOfQueue(s: seq<FrameWriteRequest>, id: nat)
    ensures Payload(QueueItemsFor(s, id)) == PayloadFor(s, id)
  {
    if s != [] {
      PayloadOfQueue(s[1..], id);
      PayloadOfOne(s[0], true);
      PayloadAppend(if s[0].StreamID() == id then ItemsOf(s[0], true) else [], QueueItemsFor(s[1..], id));
    }
  }

  /**
   * Takes what flow control and the limit n allow off the head of s. Nothing is taken only if the queue is empty or
   * its head is a DATA frame with a used-up window; what is taken is debited from both windows.
   */
  method ConsumeHead(s: seq<FrameWriteRequest>, n: int32, ghost W: set<Flow>)
    returns (s': seq<FrameWriteRequest>, wr: FrameWriteRequest, ok: bool, ghost last: bool)
    requires AllValid(s) && Covers(W, s) && n > 0
    modifies W
    ensures AllValid(s') && Covers(W, s')
    ensures ok <==> !Exhausted(s, old(WindowsOf(W)))
    ensures !ok ==> s' == s && WindowsOf(W) == old(WindowsOf(W))
    ensures ok ==> HeadTaken(s, s', wr, last)
    ensures ok ==> WindowsOf(W) == Debited(old(WindowsOf(W)), HeadWindows(s), wr.DataSize())
    ensures ok ==> wr.DataSize() <= n && (wr.DataSize() > 0 ==> wr.DataSize() <= wr.stream.sc.maxFrameSize)
    ensures ok ==> forall f :: f in s[0].Windows() ==> wr.DataSize() <= old(WindowsOf(W))[f]
  {
    wr := FrameWriteRequest(Other(0), null, None);
    last := false;
    if |s| == 0 {
      return s, wr, false, last;
    }
    ghost var F := WindowsOf(W);
    assert s[0].Windows() <= W;
    var consumed, rest, num := s[0].Consume(n);
    if num == 0 {
      assert WindowsOf(W) == F;
      return s, wr, false, last;
    }
    assert WindowsOf(W) == Debited(F, s[0].Windows(), consumed.DataSize());
    if num == 1 {
      return s[1..], consumed, true, true;
    }
    return s[0 := rest], consumed, true, false;
  }

  class WriteQueue {
    var s: seq<FrameWriteRequest>

    constructor ()
      ensures s == []
    {
      s := [];
    }

    method Push(wr: FrameWriteRequest)
      modifies this
      ensures s == old(s) + [wr]
    {
      s := s + [wr];
    }

    /** The source panics on an empty queue. */
    method Shift() returns (wr: FrameWriteRequest)
      requires s != []
      modifies this
      ensures [wr] + s == old(s)
    {
      wr := s[0];
      s := s[1..];
    }

    /** ConsumeHead on the queue's own frames. */
    method Consume(n: int32, ghost W: set<Flow>) returns (wr: FrameWriteRequest, ok: bool, ghost last: bool)
      requires AllValid(s) && Covers(W, s) && n > 0
      modifies this, W
      ensures AllValid(s) && Covers(W, s)
      ensures ok <==> !Exhausted(old(s), old(WindowsOf(W)))
      ensures !ok ==> s == old(s) && WindowsOf(W) == old(WindowsOf(W))
      ensures ok ==> HeadTaken(old(s), s, wr, last)
      ensures ok ==> WindowsOf(W) == Debited(old(WindowsOf(W)), HeadWindows(old(s)), wr.DataSize())
      ensures ok ==> wr.DataSize() <= n && (wr.DataSize() > 0 ==> wr.DataSize() <= wr.stream.sc.maxFrameSize)
      ensures ok ==> forall f :: f in old(s)[0].Windows() ==> wr.DataSize() <= old(WindowsOf(W))[f]
    {
      s, wr, ok, last := ConsumeHead(s, n, W);
    }
  }
}
