/** The values a server connection is made of: streams, frames to write and the queues that hold them. */
module ServerTypes {
  import opened Basics
  import opened FlowControl

  const INITIAL_WINDOW: int := 65535

  /** What processing a frame can answer. */
  datatype Err = NoErr | StreamErr(id: nat, code: nat) | ConnErr(code: nat) | FlowErr

  datatype StreamState = Idle | Open | HalfClosedLocal | HalfClosedRemote | Closed

  /** A request body: the bytes in its pipe, and whether the pipe was closed for writing. */
  datatype Body = Body(buffered: nat, closed: bool)

  /**
   * A stream object. unreported counts the bytes its handler has read from the pipe and not yet reported to the serve
   * loop.
   */
  datatype Stream = Stream(
    state: StreamState,
    resetQueued: bool,
    wroteHeaders: bool,
    gotTrailerHeader: bool,
    flow: int32,
    inflow: int,
    body: Option<Body>,
    unreported: nat,
    declBodyBytes: int,
    bodyBytes: nat)

  /** The pipe is closed for writing. */
  function PipeClosed(s: Stream): Stream {
    if s.body.Some? then s.(body := Some(s.body.value.(closed := true))) else s
  }

  /** Every stream object ever made, by id; a stream is named by its id since no id is used twice. */
  type Streams = map<nat, Stream>

  /** What can be handed to the frame writer; stream is the stream object a request points at. */
  datatype Write =
    | DataWrite(stream: nat, len: nat, endStream: bool)
    | ResHeaders(stream: nat, endStream: bool)
    | Continue100(stream: nat)
    | HandlerPanicRST(stream: nat)
    | PushPromise(stream: nat)
    | StreamWindowUpdate(stream: nat)
    | ConnWindowUpdate
    | StreamReset(id: nat)
    | PingAck
    | SettingsWrite
    | SettingsAck
    | GoAway(maxStreamID: nat, code: nat)
    | Flush

  predicate HasStream(w: Write) {
    w.DataWrite? || w.ResHeaders? || w.Continue100? || w.HandlerPanicRST? || w.PushPromise? || w.StreamWindowUpdate?
  }

  /** The queue a request goes to. */
  function StreamID(w: Write): nat {
    if HasStream(w) then w.stream else if w.StreamReset? then w.id else 0
  }

  predicate EndsStream(w: Write) {
    (w.DataWrite? || w.ResHeaders?) && w.endStream
  }

  /** A frame that changes nothing about its stream when it has been written. */
  predicate Inert(w: Write) {
    !EndsStream(w) && !w.StreamReset? && !w.HandlerPanicRST?
  }

  /** Frames whose size is not known beforehand are never written on the serve goroutine. */
  predicate MayStayInBuffer(w: Write) {
    !w.GoAway? && !w.Flush? && !w.ResHeaders? && !w.PushPromise?
  }

  // ----- queues -----

  type Queues = map<nat, seq<Write>>

  /** How much of a frame flow control lets out; frames other than DATA are not held back. */
  function Allowed(s: Stream, connFlow: int32, maxFrameSize: int32): int32 {
    var available := if connFlow < s.flow then connFlow else s.flow;
    if maxFrameSize < available then maxFrameSize else available
  }

  predicate CanSend(w: Write, all: Streams, connFlow: int32, maxFrameSize: int32) {
    w.DataWrite? && w.len > 0 ==> w.stream in all && Allowed(all[w.stream], connFlow, maxFrameSize) > 0
  }

  /** The queue of id starts with a frame that can go out. */
  predicate Ready(id: nat, queues: Queues, all: Streams, connFlow: int32, maxFrameSize: int32) {
    id in queues && queues[id] != [] && CanSend(queues[id][0], all, connFlow, maxFrameSize)
  }

  predicate FlowAt(all: Streams, all': Streams, id: nat) {
    id in all ==> id in all' && all'[id].flow == all[id].flow
  }

  ghost predicate SameFlows(all: Streams, all': Streams) {
    forall id {:trigger FlowAt(all, all', id)} :: FlowAt(all, all', id)
  }

  lemma SameFlowsOne(all: Streams, id: nat, s: Stream)
    requires id in all && s.flow == all[id].flow
    ensures SameFlows(all[id := s], all) && SameFlows(all, all[id := s])
  {
  }

  /** No queue starts with a frame that can go out. */
  ghost predicate NoneReady(queues: Queues, all: Streams, connFlow: int32, maxFrameSize: int32) {
    forall id {:trigger Ready(id, queues, all, connFlow, maxFrameSize)} ::
        !Ready(id, queues, all, connFlow, maxFrameSize)
  }

  /** Only the windows and the queues decide what is ready. */
  lemma StillNoneReady(queues: Queues, all: Streams, queues': Queues, all': Streams, connFlow: int32,
                       maxFrameSize: int32)
    requires NoneReady(queues, all, connFlow, maxFrameSize)
    requires SameFlows(all', all) && queues'.Keys <= queues.Keys && forall id :: id in queues' ==>
              queues'[id] == queues[id]
    ensures NoneReady(queues', all', connFlow, maxFrameSize)
  {
    forall id ensures !Ready(id, queues', all', connFlow, maxFrameSize) {
      assert !Ready(id, queues, all, connFlow, maxFrameSize);
      if id in queues' && queues'[id] != [] && queues'[id][0].DataWrite? {
        assert FlowAt(all', all, queues'[id][0].stream);
      }
    }
  }

  /**
   * A request that may be queued: the stream object it points at is in the map of streams, or among those being closed.
   */
  predicate Pending(w: Write, streams: set<nat>, closing: set<nat>) {
    Queueable(w) && (HasStream(w) ==> w.stream in streams || w.stream in closing)
  }

  /** Requests in a queue belong to it and point at mapped streams, except while a stream is being closed. */
  ghost predicate QueueOK(q: seq<Write>, id: nat, streams: set<nat>, closing: set<nat>) {
    forall i :: 0 <= i < |q| ==> StreamID(q[i]) == id && Pending(q[i], streams, closing)
  }

  ghost predicate QueuedAt(queues: Queues, streams: set<nat>, closing: set<nat>, id: nat) {
    id in queues ==> QueueOK(queues[id], id, streams, closing)
  }

  ghost predicate Queued(queues: Queues, streams: set<nat>, closing: set<nat>) {
    forall id {:trigger QueuedAt(queues, streams, closing, id)} :: QueuedAt(queues, streams, closing, id)
  }

  lemma SetKeepsQueued(queues: Queues, streams: set<nat>, closing: set<nat>, id: nat, q: seq<Write>)
    requires Queued(queues, streams, closing) && QueueOK(q, id, streams, closing)
    ensures Queued(queues[id := q], streams, closing)
  {
    var queues' := queues[id := q];
    forall k ensures QueuedAt(queues', streams, closing, k) {
      assert QueuedAt(queues, streams, closing, k);
    }
  }

  lemma PushKeepsQueued(queues: Queues, streams: set<nat>, closing: set<nat>, w: Write)
    requires Queued(queues, streams, closing) && Pending(w, streams, closing)
    ensures var q := if StreamID(w) in queues then queues[StreamID(w)] else [];
            Queued(queues[StreamID(w) := q + [w]], streams, closing)
  {
    assert QueuedAt(queues, streams, closing, StreamID(w));
    var q := if StreamID(w) in queues then queues[StreamID(w)] else [];
    SetKeepsQueued(queues, streams, closing, StreamID(w), q + [w]);
  }

  lemma MapKeepsQueued(queues: Queues, streams: set<nat>, closing: set<nat>, id: nat)
    requires Queued(queues, streams, closing)
    ensures Queued(queues, streams + {id}, closing)
  {
    forall k ensures QueuedAt(queues, streams + {id}, closing, k) {
      assert QueuedAt(queues, streams, closing, k);
    }
  }

  /** A stream that leaves the map while its queue is still there is one being closed. */
  lemma UnmapKeepsQueued(queues: Queues, streams: set<nat>, closing: set<nat>, id: nat)
    requires Queued(queues, streams, closing)
    ensures Queued(queues, streams - {id}, closing + {id})
  {
    forall k ensures QueuedAt(queues, streams - {id}, closing + {id}, k) {
      assert QueuedAt(queues, streams, closing, k);
    }
  }

  lemma DropKeepsQueued(queues: Queues, streams: set<nat>, closing: set<nat>, id: nat)
    requires Queued(queues, streams, closing)
    ensures Queued(queues - {id}, streams, closing - {id})
  {
    forall k ensures QueuedAt(queues - {id}, streams, closing - {id}, k) {
      assert QueuedAt(queues, streams, closing, k);
    }
  }

  /** What goes out, and what stays in the queue: DATA is cut when flow control takes only part of it. */
  function Gone(w: Write, n: nat): Write {
    if w.DataWrite? && n < w.len then DataWrite(w.stream, n, false) else w
  }

  function Left(q: seq<Write>, n: nat): seq<Write>
    requires q != []
  {
    if q[0].DataWrite? && n < q[0].len then [q[0].(len := q[0].len - n)] + q[1..] else q[1..]
  }

  /** The requests that pass through the scheduler; the others are made by the write loop itself. */
  predicate Queueable(w: Write) {
    !w.GoAway? && !w.SettingsAck? && !w.Flush?
  }
}
