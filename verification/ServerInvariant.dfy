/** The state of a server connection as one value, what every step keeps of it, and the small steps it moves by. */
module ServerInvariant {
  import opened Basics
  import opened FlowControl
  import opened Protocol
  import opened ServerTypes
  import opened ServerCounts
  import opened ServerLedger
  import opened ServerWork
  import opened ServerTrace

  /** The streams: every one made, those in the map, the counters and the largest ids seen. */
  datatype Table = Table(
    all: Streams,
    streams: set<nat>,
    curClientStreams: nat,
    curPushedStreams: nat,
    maxClientStreamID: nat,
    maxPushPromiseID: nat)

  datatype Windows = Windows(connFlow: int32, connInflow: int32, initialWindowSize: int32, maxFrameSize: int32)

  datatype Flags = Flags(
    writingFrame: bool,
    writingFrameAsync: bool,
    needsFrameFlush: bool,
    inGoAway: bool,
    inFrameScheduleLoop: bool,
    needToSendGoAway: bool,
    needToSendSettingsAck: bool,
    goAwayCode: nat)

  /**
   * inFlight is the frame a writer goroutine is busy with. closing holds the streams that closeStream has taken out
   * of the map and not yet out of the scheduler. trace is the run so far.
   */
  datatype Conn = Conn(
    advMaxStreams: nat,
    table: Table,
    queues: Queues,
    windows: Windows,
    flags: Flags,
    inFlight: Option<Write>,
    closing: set<nat>,
    trace: seq<Step>)

  function Now(c: Conn): Context {
    Context(c.table.all.Keys, c.table.maxClientStreamID, c.table.maxPushPromiseID,
            c.flags.inGoAway, c.flags.goAwayCode, c.flags.needToSendGoAway, c.flags.needToSendSettingsAck,
            c.queues, c.flags.writingFrame, None)
  }

  /** A stream that a write still points at was not brought back after closing. */
  predicate Held(t: Table, id: nat) {
    id in t.streams || (id in t.all && t.all[id].state == Closed)
  }

  /** A frame is being written exactly when a writer goroutine has it; a GOAWAY is only due in shutdown. */
  predicate Settled(c: Conn) {
    && (c.flags.needToSendGoAway ==> c.flags.inGoAway)
    && c.flags.writingFrame == c.flags.writingFrameAsync == c.inFlight.Some?
    && (c.inFlight.Some? && HasStream(c.inFlight.value) ==> Held(c.table, c.inFlight.value.stream))
  }

  predicate ClosedAt(all: Streams, closing: set<nat>, id: nat) {
    id in closing ==> id in all && all[id].state == Closed
  }

  ghost predicate AllClosed(all: Streams, closing: set<nat>) {
    forall id {:trigger ClosedAt(all, closing, id)} :: ClosedAt(all, closing, id)
  }

  datatype Aspect = InMap | InCounters | InIds | InQueues | InClosing | InLedgers | InWindows | InTrace | InWriter

  ghost predicate Holds(c: Conn, a: Aspect) {
    match a
    case InMap => Mapped(c.table.all, c.table.streams)
    case InCounters => && Counted(c.table.streams, c.table.curClientStreams, c.table.curPushedStreams)
                       && c.table.curClientStreams <= c.advMaxStreams
    case InIds => Bounded(c.table.all.Keys, c.table.maxClientStreamID, c.table.maxPushPromiseID)
    case InQueues => Queued(c.queues, c.table.streams, c.closing)
    case InClosing => AllClosed(c.table.all, c.closing)
    case InLedgers => AllSolvent(c.table.all)
    case InWindows => c.windows.connInflow >= 0 && c.windows.initialWindowSize >= 0 && c.windows.maxFrameSize > 0
    case InTrace => Reaches(c.trace, Now(c))
    case InWriter => Settled(c)
  }

  /** What holds whenever the serve goroutine is between two statements that matter. */
  ghost predicate Inv(c: Conn) {
    forall a {:trigger Holds(c, a)} :: Holds(c, a)
  }

  /** The frame in flight, if any, is not for a stream that is gone. */
  predicate FlightMapped(c: Conn) {
    c.inFlight.Some? && HasStream(c.inFlight.value) ==> c.inFlight.value.stream in c.table.streams
  }

  predicate PopPermitted(f: Flags) {
    !f.inGoAway || f.goAwayCode == NO_ERROR
  }

  /** A frame is in flight, or nothing is left that could be written now. */
  ghost predicate NothingLeft(c: Conn) {
    || c.flags.writingFrameAsync
    || (&& !c.flags.needToSendGoAway && !c.flags.needToSendSettingsAck && !c.flags.needsFrameFlush
        && (PopPermitted(c.flags) ==> NoneReady(c.queues, c.table.all, c.windows.connFlow, c.windows.maxFrameSize)))
  }

  /** After something that looks for frames to write, none is left; otherwise as much is left as before. */
  ghost predicate Looked(looks: bool, c: Conn, d: Conn) {
    if looks then NothingLeft(d) else NothingLeft(d) <==> NothingLeft(c)
  }

  /** Only queues, outbound windows and flags decide whether something is left. */
  lemma SameLeft(c: Conn, d: Conn)
    requires d.flags == c.flags && d.queues == c.queues && d.windows.connFlow == c.windows.connFlow
    requires d.windows.maxFrameSize == c.windows.maxFrameSize
    requires SameFlows(c.table.all, d.table.all) && SameFlows(d.table.all, c.table.all)
    ensures Looked(false, c, d)
  {
    if NoneReady(c.queues, c.table.all, c.windows.connFlow, c.windows.maxFrameSize) {
      StillNoneReady(c.queues, c.table.all, d.queues, d.table.all, c.windows.connFlow, c.windows.maxFrameSize);
    }
    if NoneReady(d.queues, d.table.all, d.windows.connFlow, d.windows.maxFrameSize) {
      StillNoneReady(d.queues, d.table.all, c.queues, c.table.all, c.windows.connFlow, c.windows.maxFrameSize);
    }
  }

  ghost function Work(c: Conn): int {
    QueuesWork(c.queues) + StreamsWork(c.table.all) + (if c.flags.inGoAway then 0 else 2)
    + (if c.flags.needToSendGoAway then 1 else 0) + (if c.flags.needToSendSettingsAck then 1 else 0)
  }

  datatype Change = ToStreams | ToLoop | ToFlight | ToTrace

  /** The run goes on, and window of the connection is only ever returned. */
  predicate Extends(c: Conn, d: Conn) {
    c.trace <= d.trace && c.windows.connInflow <= d.windows.connInflow
  }

  /** extra: the work a step may add inside the write loop. gone: the streams it takes out of the map. */
  ghost predicate Kept(c: Conn, d: Conn, extra: int, gone: set<nat>, k: Change) {
    match k
    case ToStreams => Later(c.table.all, d.table.all)
    case ToLoop => c.flags.inFrameScheduleLoop ==> d.inFlight == c.inFlight && Work(d) <= Work(c) + extra
    case ToTrace => Extends(c, d)
    case ToFlight =>
      if c.inFlight.None? then FlightMapped(d)
      else d.table.streams == c.table.streams - gone && d.inFlight == c.inFlight
  }

  /** What every step of the frame writer does to the connection. */
  ghost predicate Progress(c: Conn, d: Conn, extra: int, gone: set<nat>) {
    && Inv(d) && d.closing == c.closing && d.flags.inFrameScheduleLoop == c.flags.inFrameScheduleLoop
    && forall k {:trigger Kept(c, d, extra, gone, k)} :: Kept(c, d, extra, gone, k)
  }

  lemma EqualProgress(c: Conn, d: Conn)
    requires Inv(c) && d == c
    ensures Progress(c, d, 0, {})
  {
    assert Holds(c, InWriter);
    LaterSame(c.table.all);
    forall k ensures Kept(c, d, 0, {}, k) {
    }
  }

  lemma SameProgress(c: Conn)
    requires Inv(c)
    ensures Progress(c, c, 0, {})
  {
    EqualProgress(c, c);
  }

  lemma ProgressTrans(c: Conn, d: Conn, e: Conn, x: int, y: int, gone: set<nat>)
    requires Inv(c) && Progress(c, d, x, gone) && Progress(d, e, y, {})
    ensures Progress(c, e, x + y, gone)
  {
    var z := x + y;
    forall k ensures Kept(c, e, z, gone, k) {
      assert Kept(c, d, x, gone, k) && Kept(d, e, y, {}, k);
      match k
      case ToStreams => LaterTrans(c.table.all, d.table.all, e.table.all);
      case ToLoop =>
      case ToFlight =>
      case ToTrace =>
    }
  }

  // ----- small steps -----

  /** Only flags, the frame in flight and the run have changed. */
  lemma FlagsInv(c: Conn, d: Conn)
    requires forall a {:trigger Holds(c, a)} :: a != InTrace && a != InWriter ==> Holds(c, a)
    requires d.advMaxStreams == c.advMaxStreams && d.table == c.table && d.queues == c.queues && d.windows == c.windows
    requires d.closing == c.closing
    requires Reaches(d.trace, Now(d)) && Settled(d)
    ensures Inv(d)
  {
    forall a ensures Holds(d, a) {
      if a != InTrace && a != InWriter {
        assert Holds(c, a);
      }
    }
  }

  lemma SetClosed(all: Streams, closing: set<nat>, id: nat, s: Stream)
    requires AllClosed(all, closing) && (id in closing ==> s.state == Closed)
    ensures AllClosed(all[id := s], closing)
  {
    var all' := all[id := s];
    forall k ensures ClosedAt(all', closing, k) {
      assert ClosedAt(all, closing, k);
    }
  }

  function Replaced(c: Conn, id: nat, s: Stream): Conn {
    c.(table := c.table.(all := c.table.all[id := s]))
  }

  predicate OnFlight(c: Conn, id: nat) {
    c.inFlight.Some? && HasStream(c.inFlight.value) && c.inFlight.value.stream == id
  }

  lemma ReplacedHolds(c: Conn, id: nat, s: Stream, a: Aspect)
    requires Inv(c) && id in c.table.all && Solvent(s)
    requires MappedAt(c.table.all[id := s], c.table.streams, id) && (id in c.closing ==> s.state == Closed)
    requires OnFlight(c, id) && id !in c.table.streams ==> s.state == Closed
    ensures Holds(Replaced(c, id, s), a)
  {
    var d := Replaced(c, id, s);
    assert Holds(c, a);
    assert d.table.all.Keys == c.table.all.Keys;
    match a
    case InMap => SetMapped(c.table.all, c.table.streams, id, s);
    case InClosing => SetClosed(c.table.all, c.closing, id, s);
    case InLedgers => SetSolvent(c.table.all, id, s);
    case _ =>
  }

  /** A stream changes and stays in the map, or out of it. */
  lemma ReplaceInv(c: Conn, id: nat, s: Stream)
    requires Inv(c) && id in c.table.all && Solvent(s)
    requires MappedAt(c.table.all[id := s], c.table.streams, id) && (id in c.closing ==> s.state == Closed)
    requires OnFlight(c, id) && id !in c.table.streams ==> s.state == Closed
    ensures Inv(Replaced(c, id, s))
    ensures StreamsWork(Replaced(c, id, s).table.all)
        == StreamsWork(c.table.all) + StreamWeight(s) - StreamWeight(c.table.all[id])
  {
    var d := Replaced(c, id, s);
    forall a ensures Holds(d, a) {
      ReplacedHolds(c, id, s, a);
    }
    StreamSet(c.table.all, id, s);
  }

  lemma ReplaceProgress(c: Conn, id: nat, s: Stream)
    requires Inv(c) && id in c.table.all && Follows(c.table.all[id], s)
    requires s.state == c.table.all[id].state || (c.table.all[id].state == Open && s.state == HalfClosedLocal)
    ensures Progress(c, Replaced(c, id, s), StreamWeight(s) - StreamWeight(c.table.all[id]), {})
    ensures s.flow == c.table.all[id].flow && NothingLeft(c) ==> NothingLeft(Replaced(c, id, s))
  {
    var d := Replaced(c, id, s);
    var x := StreamWeight(s) - StreamWeight(c.table.all[id]);
    assert Holds(c, InMap) && MappedAt(c.table.all, c.table.streams, id);
    assert Holds(c, InLedgers) && SolventAt(c.table.all, id);
    assert Holds(c, InClosing) && ClosedAt(c.table.all, c.closing, id) && Holds(c, InWriter);
    ReplaceInv(c, id, s);
    forall k ensures Kept(c, d, x, {}, k) {
      match k
      case ToStreams => LaterOne(c.table.all, id, s);
      case ToLoop =>
      case ToFlight =>
      case ToTrace =>
    }
    if s.flow == c.table.all[id].flow && NoneReady(c.queues, c.table.all, c.windows.connFlow, c.windows.maxFrameSize) {
      SameFlowsOne(c.table.all, id, s);
      StillNoneReady(c.queues, c.table.all, d.queues, d.table.all, c.windows.connFlow, c.windows.maxFrameSize);
    }
  }

  function Pushed(c: Conn, w: Write): Conn {
    c.(queues := c.queues[StreamID(w) := QueueOf(c.queues, StreamID(w)) + [w]], trace := c.trace + [Enqueued(w)])
  }

  lemma PushProgress(c: Conn, w: Write)
    requires Inv(c) && Pending(w, c.table.streams, c.closing)
    ensures Progress(c, Pushed(c, w), Weight(w), {})
  {
    var d := Pushed(c, w);
    var id := StreamID(w);
    var q := QueueOf(c.queues, id);
    forall a ensures Holds(d, a) {
      assert Holds(c, a);
      match a
      case InQueues => PushKeepsQueued(c.queues, c.table.streams, c.closing, w);
      case InTrace => ReachStep(c.trace, Now(c), Enqueued(w));
      case _ =>
    }
    QueueSet(c.queues, id, q + [w]);
    QueueWorkAppend(q, w);
    assert Holds(c, InWriter);
    LaterSame(c.table.all);
    forall k ensures Kept(c, d, Weight(w), {}, k) {
    }
  }

  // ----- taking a frame from the scheduler -----

  /** How many bytes of a frame flow control takes; it must be able to go out. */
  function Sent(w: Write, all: Streams, windows: Windows): (n: int32)
    requires CanSend(w, all, windows.connFlow, windows.maxFrameSize)
    ensures n > 0 ==> w.DataWrite? && w.stream in all && n <= w.len && n <= all[w.stream].flow && n <= windows.connFlow
    ensures n >= 0 && MayTake(w, n)
    ensures w.DataWrite? && w.len > 0 ==> n > 0
  {
    if w.DataWrite? && w.len > 0 then
      var allowed := Allowed(all[w.stream], windows.connFlow, windows.maxFrameSize);
      if w.len > allowed then allowed else w.len
    else 0
  }

  lemma CutOK(q: seq<Write>, id: nat, streams: set<nat>, closing: set<nat>, n: nat)
    requires q != [] && QueueOK(q, id, streams, closing)
    requires q[0].DataWrite? && q[0].len > 0 ==> 0 < n
    ensures QueueOK(Left(q, n), id, streams, closing) && Pending(Gone(q[0], n), streams, closing)
    ensures QueueWork(Left(q, n)) <= QueueWork(q) - if q[0].PushPromise? then 4 else 1
  {
    if q[0].DataWrite? && n < q[0].len {
      assert Left(q, n)[1..] == q[1..];
    }
  }

  predicate ReadyIn(c: Conn, id: nat) {
    Ready(id, c.queues, c.table.all, c.windows.connFlow, c.windows.maxFrameSize)
  }

  /**
   * How much of the first frame in the queue of id a scheduler may take: at least a byte, at most what flow control
   * allows.
   */
  predicate MayPop(c: Conn, id: nat, n: int32) {
    ReadyIn(c, id) && var most := Sent(c.queues[id][0], c.table.all, c.windows); 0 <= n <= most && (most > 0 ==> n > 0)
  }

  /** The queue after a pop. */
  function Shifted(c: Conn, id: nat, n: int32): Conn
    requires MayPop(c, id, n)
  {
    c.(queues := c.queues[id := Left(c.queues[id], n)], trace := c.trace + [Dequeued(id, n)])
  }

  /** The windows after a pop: both are debited by what went out. */
  function Debited(c: Conn, id: nat, n: int32): Conn
    requires n > 0 ==> id in c.table.all && n <= c.table.all[id].flow && n <= c.windows.connFlow
    requires n >= 0
  {
    if n == 0 then c
    else
      var d := Replaced(c, id, c.table.all[id].(flow := c.table.all[id].flow - n));
      d.(windows := c.windows.(connFlow := c.windows.connFlow - n))
  }

  lemma ShiftTraced(c: Conn, id: nat, n: int32)
    requires Inv(c) && MayPop(c, id, n) && PopPermitted(c.flags)
    ensures Holds(Shifted(c, id, n), InTrace)
    ensures Replay(Shifted(c, id, n).trace).value.popped == Some(Gone(c.queues[id][0], n))
  {
    assert Holds(c, InTrace);
    ReachStep(c.trace, Now(c), Dequeued(id, n));
  }

  lemma ShiftProgress(c: Conn, id: nat, n: int32)
    requires Inv(c) && MayPop(c, id, n) && PopPermitted(c.flags)
    ensures var w := c.queues[id][0];
      var w' := Gone(w, n);
      && Pending(w', c.table.streams, c.closing)
      && Progress(c, Shifted(c, id, n), if w.PushPromise? then -4 else -1, {})
      && Replay(Shifted(c, id, n).trace).Some? && Replay(Shifted(c, id, n).trace).value.popped == Some(w')
  {
    var d := Shifted(c, id, n);
    var q := c.queues[id];
    var x := if q[0].PushPromise? then -4 else -1;
    assert Holds(c, InQueues) && QueuedAt(c.queues, c.table.streams, c.closing, id);
    CutOK(q, id, c.table.streams, c.closing, n);
    QueueSet(c.queues, id, Left(q, n));
    ShiftTraced(c, id, n);
    forall a ensures Holds(d, a) {
      assert Holds(c, a);
      match a
      case InQueues => SetKeepsQueued(c.queues, c.table.streams, c.closing, id, Left(q, n));
      case InTrace => assert Holds(d, InTrace);
      case _ =>
    }
    assert Holds(c, InWriter);
    LaterSame(c.table.all);
    forall k ensures Kept(c, d, x, {}, k) {
    }
  }

  lemma DebitProgress(c: Conn, id: nat, n: int32)
    requires Inv(c) && n >= 0 && (n > 0 ==> id in c.table.all && n <= c.table.all[id].flow && n <= c.windows.connFlow)
    ensures Progress(c, Debited(c, id, n), 0, {})
  {
    if n == 0 {
      SameProgress(c);
    } else {
      var s := c.table.all[id].(flow := c.table.all[id].flow - n);
      var m := Replaced(c, id, s);
      ReplaceProgress(c, id, s);
      ConnFlowProgress(m, Debited(c, id, n));
      ProgressTrans(c, m, Debited(c, id, n), 0, 0, {});
    }
  }

  /** Another outbound window of the connection. */
  lemma ConnFlowProgress(c: Conn, d: Conn)
    requires Inv(c) && d == c.(windows := c.windows.(connFlow := d.windows.connFlow))
    ensures Progress(c, d, 0, {})
  {
    forall a ensures Holds(d, a) {
      assert Holds(c, a);
    }
    assert Holds(c, InWriter);
    LaterSame(c.table.all);
    forall k ensures Kept(c, d, 0, {}, k) {
    }
  }

  /** A pop: the queue and both windows. */
  lemma TakeProgress(c: Conn, id: nat, n: int32)
    requires Inv(c) && MayPop(c, id, n) && PopPermitted(c.flags)
    ensures var w := c.queues[id][0];
      var w' := Gone(w, n);
      var d := Debited(Shifted(c, id, n), StreamID(w), n);
      && Pending(w', d.table.streams, d.closing) && Progress(c, d, if w.PushPromise? then -4 else -1, {})
      && Replay(d.trace).Some? && Replay(d.trace).value.popped == Some(w')
  {
    var m := Shifted(c, id, n);
    var w := c.queues[id][0];
    ShiftProgress(c, id, n);
    DebitProgress(m, StreamID(w), n);
    ProgressTrans(c, m, Debited(m, StreamID(w), n), if w.PushPromise? then -4 else -1, 0, {});
  }

  // ----- closing -----

  lemma AddClosed(all: Streams, closing: set<nat>, id: nat, s: Stream)
    requires AllClosed(all, closing) && s.state == Closed
    ensures AllClosed(all[id := s], closing + {id})
  {
    var all', closing' := all[id := s], closing + {id};
    forall k ensures ClosedAt(all', closing', k) {
      assert ClosedAt(all, closing, k);
    }
  }

  lemma DropClosed(all: Streams, closing: set<nat>, id: nat)
    requires AllClosed(all, closing)
    ensures AllClosed(all, closing - {id})
  {
    forall k ensures ClosedAt(all, closing - {id}, k) {
      assert ClosedAt(all, closing, k);
    }
  }

  const UINT32: int := 0x1_0000_0000

  /** The stream leaves the map and the counters, which are 32-bit. */
  function CloseIn(t: Table, id: nat): Table
    requires id in t.all
  {
    t.(all := t.all[id := t.all[id].(state := Closed)],
       streams := t.streams - {id},
       curClientStreams := if id % 2 == 1 then (t.curClientStreams + UINT32 - 1) % UINT32 else t.curClientStreams,
       curPushedStreams := if id % 2 == 0 then (t.curPushedStreams + UINT32 - 1) % UINT32 else t.curPushedStreams)
  }

  function Unmapped(c: Conn, id: nat): Conn
    requires id in c.table.all
  {
    c.(table := CloseIn(c.table, id), closing := c.closing + {id})
  }

  lemma UnmapCounters(c: Conn, id: nat)
    requires Inv(c) && id in c.table.streams && id in c.table.all
    ensures Holds(Unmapped(c, id), InCounters)
  {
    var t := c.table;
    assert Holds(c, InCounters) && Holds(c, InIds) && Holds(c, InMap);
    MappedKeys(t.all, t.streams);
    CounterSmall(t.all.Keys, t.streams, t.curClientStreams, t.curPushedStreams,
                 t.maxClientStreamID, t.maxPushPromiseID);
    CloseCounted(t.streams, t.curClientStreams, t.curPushedStreams, id);
  }

  lemma UnmapInv(c: Conn, id: nat)
    requires Inv(c) && id in c.table.streams
    ensures id in c.table.all && id !in c.closing && Inv(Unmapped(c, id))
    ensures Later(c.table.all, Unmapped(c, id).table.all) && Work(Unmapped(c, id)) <= Work(c) - 2
    ensures NothingLeft(c) ==> NothingLeft(Unmapped(c, id))
  {
    var t := c.table;
    assert Holds(c, InMap) && MappedAt(t.all, t.streams, id);
    assert Holds(c, InClosing) && ClosedAt(t.all, c.closing, id);
    assert Holds(c, InLedgers) && SolventAt(t.all, id);
    var d := Unmapped(c, id);
    var s := t.all[id].(state := Closed);
    forall a ensures Holds(d, a) {
      UnmapHolds(c, id, a);
    }
    LaterOne(t.all, id, s);
    StreamSet(t.all, id, s);
    if NoneReady(c.queues, t.all, c.windows.connFlow, c.windows.maxFrameSize) {
      SameFlowsOne(t.all, id, s);
      StillNoneReady(c.queues, t.all, d.queues, d.table.all, c.windows.connFlow, c.windows.maxFrameSize);
    }
  }

  lemma UnmapHolds(c: Conn, id: nat, a: Aspect)
    requires Inv(c) && id in c.table.streams && id in c.table.all && Solvent(c.table.all[id])
    ensures Holds(Unmapped(c, id), a)
  {
    var t := c.table;
    var s := t.all[id].(state := Closed);
    assert Holds(c, a);
    assert Unmapped(c, id).table.all.Keys == t.all.Keys;
    match a
    case InMap => CloseMapped(t.all, t.streams, id, s);
    case InCounters => UnmapCounters(c, id);
    case InQueues => UnmapKeepsQueued(c.queues, t.streams, c.closing, id);
    case InClosing => AddClosed(t.all, c.closing, id, s);
    case InLedgers => SetSolvent(t.all, id, s);
    case _ =>
  }

  /** The scheduler drops the queue of a closed stream. */
  function Forgotten(c: Conn, id: nat): Conn {
    c.(queues := c.queues - {id}, closing := c.closing - {id}, trace := c.trace + [Discarded(id)])
  }

  lemma ForgetInv(c: Conn, id: nat)
    requires Inv(c)
    ensures Inv(Forgotten(c, id)) && Work(Forgotten(c, id)) <= Work(c)
    ensures NothingLeft(c) ==> NothingLeft(Forgotten(c, id))
  {
    var d := Forgotten(c, id);
    forall a ensures Holds(d, a) {
      assert Holds(c, a);
      match a
      case InQueues => DropKeepsQueued(c.queues, c.table.streams, c.closing, id);
      case InClosing => DropClosed(c.table.all, c.closing, id);
      case InTrace => ReachStep(c.trace, Now(c), Discarded(id));
      case _ =>
    }
    QueueDropped(c.queues, id);
    if NoneReady(c.queues, c.table.all, c.windows.connFlow, c.windows.maxFrameSize) {
      assert SameFlows(c.table.all, c.table.all);
      StillNoneReady(c.queues, c.table.all, d.queues, d.table.all, c.windows.connFlow, c.windows.maxFrameSize);
    }
  }

  /** Closing a stream: out of the map, whatever is written meanwhile, out of the scheduler. */
  lemma CloseProgress(c: Conn, id: nat, m: Conn)
    requires Inv(c) && id in c.table.streams && id in c.table.all && Progress(Unmapped(c, id), m, 1, {})
    ensures Progress(c, Forgotten(m, id), -1, {id})
    ensures NothingLeft(m) ==> NothingLeft(Forgotten(m, id))
  {
    var u, d := Unmapped(c, id), Forgotten(m, id);
    UnmapInv(c, id);
    ForgetInv(m, id);
    assert d.closing == c.closing;
    forall k ensures Kept(c, d, -1, {id}, k) {
      assert Kept(u, m, 1, {}, k);
      match k
      case ToStreams => LaterTrans(c.table.all, u.table.all, m.table.all);
      case ToLoop =>
      case ToFlight =>
      case ToTrace =>
    }
  }

  // ----- opening -----

  /** The frame that was popped last is still the same one. */
  ghost predicate SamePopped(c: Conn, d: Conn) {
    Replay(c.trace).Some? && Replay(d.trace).Some? && Replay(d.trace).value.popped == Replay(c.trace).value.popped
  }

  /** A stream as newStream makes it. */
  function Fresh(state: StreamState, initialWindowSize: int32): Stream {
    Stream(state, false, false, false, initialWindowSize, INITIAL_WINDOW, None, 0, 0, 0)
  }

  function OpenIn(t: Table, id: nat, s: Stream): Table {
    t.(all := t.all[id := s],
       streams := t.streams + {id},
       curClientStreams := if id % 2 == 1 then (t.curClientStreams + 1) % UINT32 else t.curClientStreams,
       curPushedStreams := if id % 2 == 0 then (t.curPushedStreams + 1) % UINT32 else t.curPushedStreams)
  }

  function Opening(c: Conn, id: nat, state: StreamState): Conn {
    c.(table := OpenIn(c.table, id, Fresh(state, c.windows.initialWindowSize)), trace := c.trace + [Opened(id)])
  }

  predicate CanOpen(c: Conn, id: nat, state: StreamState) {
    && id !in c.table.all && 0 < id <= (if id % 2 == 1 then c.table.maxClientStreamID else c.table.maxPushPromiseID)
    && (state == Open || state == HalfClosedRemote)
    && (id % 2 == 1 ==> !c.flags.inGoAway && c.table.curClientStreams + 1 <= c.advMaxStreams)
  }

  lemma OpenCounters(c: Conn, id: nat, state: StreamState)
    requires Inv(c) && CanOpen(c, id, state)
    ensures Holds(Opening(c, id, state), InCounters)
  {
    var t := c.table;
    assert Holds(c, InCounters) && Holds(c, InIds) && Holds(c, InMap);
    MappedKeys(t.all, t.streams);
    CounterSmall(t.all.Keys, t.streams, t.curClientStreams, t.curPushedStreams,
                 t.maxClientStreamID, t.maxPushPromiseID);
    OpenCounted(t.streams, t.curClientStreams, t.curPushedStreams, id);
  }

  lemma OpenHolds(c: Conn, id: nat, state: StreamState, a: Aspect)
    requires Inv(c) && CanOpen(c, id, state)
    ensures Holds(Opening(c, id, state), a)
  {
    var t := c.table;
    var s := Fresh(state, c.windows.initialWindowSize);
    assert Holds(c, a);
    assert Opening(c, id, state).table.all.Keys == t.all.Keys + {id};
    match a
    case InMap => OpenMapped(t.all, t.streams, id, s);
    case InCounters => OpenCounters(c, id, state);
    case InIds => AddBounded(t.all.Keys, t.maxClientStreamID, t.maxPushPromiseID, id);
    case InQueues => MapKeepsQueued(c.queues, t.streams, c.closing, id);
    case InClosing =>
      assert ClosedAt(t.all, c.closing, id);
      SetClosed(t.all, c.closing, id, s);
    case InLedgers => SetSolvent(t.all, id, s);
    case InTrace => ReachStep(c.trace, Now(c), Opened(id));
    case InWindows =>
    case InWriter =>
  }

  lemma OpenInv(c: Conn, id: nat, state: StreamState)
    requires Inv(c) && CanOpen(c, id, state)
    ensures Inv(Opening(c, id, state)) && SamePopped(c, Opening(c, id, state))
    ensures Work(Opening(c, id, state)) == Work(c) + StreamWeight(Fresh(state, c.windows.initialWindowSize))
  {
    var d := Opening(c, id, state);
    forall a ensures Holds(d, a) {
      OpenHolds(c, id, state, a);
    }
    StreamSet(c.table.all, id, Fresh(state, c.windows.initialWindowSize));
    assert Holds(c, InTrace);
    ReachStep(c.trace, Now(c), Opened(id));
  }

  // ----- asking for a write -----

  /** A stream not in the map is closed if its id is not above the largest seen of its parity. */
  function StateOf(t: Table, id: nat): StreamState {
    if id in t.streams && id in t.all then t.all[id].state
    else if id % 2 == 1 then (if id <= t.maxClientStreamID then Closed else Idle)
    else (if id <= t.maxPushPromiseID then Closed else Idle)
  }

  /** Writes for closed streams are dropped, except resets; so is 100-continue once the headers are written. */
  predicate Ignored(t: Table, w: Write) {
    || (StreamID(w) != 0 && !w.StreamReset? && StateOf(t, StreamID(w)) == Closed)
    || (w.Continue100? && w.stream in t.all && t.all[w.stream].wroteHeaders)
  }

  function HeadersNoted(c: Conn, w: Write): Conn {
    if w.ResHeaders? && w.stream in c.table.all
    then Replaced(c, w.stream, c.table.all[w.stream].(wroteHeaders := true))
    else c
  }

  /** A request on its way into the scheduler. */
  function Requested(c: Conn, w: Write): Conn {
    if Ignored(c.table, w) then HeadersNoted(c, w) else Pushed(HeadersNoted(c, w), w)
  }

  lemma RequestProgress(c: Conn, w: Write)
    requires Inv(c) && Queueable(w) && (HasStream(w) ==> w.stream in c.table.all)
    ensures Progress(c, Requested(c, w), Weight(w), {})
  {
    var d := HeadersNoted(c, w);
    NotedProgress(c, w);
    MoreExtra(c, d, 0, Weight(w), {});
    if !Ignored(c.table, w) {
      NotIgnored(c, w);
      PushProgress(d, w);
      ProgressTrans(c, d, Pushed(d, w), 0, Weight(w), {});
    }
  }

  lemma NotedProgress(c: Conn, w: Write)
    requires Inv(c)
    ensures Progress(c, HeadersNoted(c, w), 0, {})
  {
    SameProgress(c);
    if w.ResHeaders? && w.stream in c.table.all {
      ReplaceProgress(c, w.stream, c.table.all[w.stream].(wroteHeaders := true));
    }
  }

  /** A request that is not dropped is for a mapped stream. */
  lemma NotIgnored(c: Conn, w: Write)
    requires Inv(c) && Queueable(w) && (HasStream(w) ==> w.stream in c.table.all) && !Ignored(c.table, w)
    ensures Pending(w, c.table.streams, c.closing)
  {
    assert Holds(c, InIds);
    assert Within(c.table.all.Keys, c.table.maxClientStreamID, c.table.maxPushPromiseID, StreamID(w));
  }

  /** A run that has noted the start of shutdown is in shutdown, with that code. */
  lemma ShutdownRemembered(c: Conn, i: nat)
    requires Inv(c) && i < |c.trace| && c.trace[i].Shutdown?
    ensures c.flags.inGoAway && c.flags.goAwayCode == c.trace[i].code
  {
    assert Holds(c, InTrace);
    ReplayIsSafe(c.trace);
  }

  // ----- starting and finishing a write -----

  /** How the work left changes when a frame is written at once; a promise opens a stream. */
  function Extra(w: Write): int {
    if w.PushPromise? then 2 else if w.SettingsAck? then -1 else 0
  }

  /** A stream whose frame may be started is in the map. */
  lemma StartsOnMapped(c: Conn, w: Write)
    requires Inv(c) && HasStream(w) && (w.stream in c.table.streams || w.stream in c.closing)
    ensures w.stream in c.table.all && (c.table.all[w.stream].state != Closed ==> w.stream in c.table.streams)
  {
    assert Holds(c, InMap) && MappedAt(c.table.all, c.table.streams, w.stream);
    assert Holds(c, InClosing) && ClosedAt(c.table.all, c.closing, w.stream);
  }

  /** The flag of a frame that the write loop makes itself goes down before the frame is started. */
  function Lowered(c: Conn, w: Write): Conn {
    c.(flags := c.flags.(needToSendGoAway := c.flags.needToSendGoAway && !w.GoAway?,
                         needToSendSettingsAck := c.flags.needToSendSettingsAck && !w.SettingsAck?))
  }

  function Starting(c: Conn, w: Write): Conn {
    c.(flags := c.flags.(writingFrame := true, needsFrameFlush := true,
                         needToSendGoAway := c.flags.needToSendGoAway && !w.GoAway?,
                         needToSendSettingsAck := c.flags.needToSendSettingsAck && !w.SettingsAck?),
       trace := c.trace + [Started(w)])
  }

  function Finishing(c: Conn): Conn {
    c.(flags := c.flags.(writingFrame := false, writingFrameAsync := false), inFlight := None,
       trace := c.trace + [Finished])
  }

  function InBackground(c: Conn, w: Write): Conn {
    c.(flags := c.flags.(writingFrameAsync := true), inFlight := Some(w))
  }

  ghost predicate CanStart(c: Conn, w: Write) {
    && Replay(c.trace).Some? && (Queueable(w) ==> Replay(c.trace).value.popped == Some(w))
    && (w.SettingsAck? ==> c.flags.needToSendSettingsAck)
    && !c.flags.writingFrame && (HasStream(w) ==> w.stream in c.table.streams)
    && (w.GoAway? ==> c.flags.inGoAway && c.flags.needToSendGoAway && w.maxStreamID == c.table.maxClientStreamID)
  }

  lemma StartAsync(c: Conn, w: Write)
    requires Inv(c) && CanStart(c, w)
    ensures c.flags.inFrameScheduleLoop ==> Looped(c, InBackground(Starting(c, w), w))
  {
    assert Holds(c, InTrace) && Holds(c, InWriter);
    LaterSame(c.table.all);
    ReachStart(c.trace, Now(c), w);
    FlagsInv(c, InBackground(Starting(c, w), w));
  }

  lemma StartSync(c: Conn, w: Write)
    requires Inv(c) && CanStart(c, w)
    ensures Inv(Finishing(Starting(c, w)))
    ensures Work(Finishing(Starting(c, w))) <= Work(c) - if w.SettingsAck? then 1 else 0
    ensures c.flags.inFrameScheduleLoop ==> Looped(c, Finishing(Starting(c, w)))
  {
    assert Holds(c, InTrace) && Holds(c, InWriter);
    LaterSame(c.table.all);
    ReachStart(c.trace, Now(c), w);
    ReachStep(c.trace + [Started(w)], Now(Starting(c, w)), Finished);
    FlagsInv(c, Finishing(Starting(c, w)));
  }

  lemma FinishInv(c: Conn)
    requires Inv(c) && c.flags.writingFrame
    ensures Inv(Finishing(c))
  {
    assert Holds(c, InTrace) && Holds(c, InWriter);
    ReachStep(c.trace, Now(c), Finished);
    FlagsInv(c, Finishing(c));
  }

  // ----- the write loop -----

  /** Where the write loop can get from c. */
  ghost predicate Looped(c: Conn, d: Conn) {
    && Inv(d) && FlightMapped(d) && d.flags.inFrameScheduleLoop && d.closing == c.closing
    && Later(c.table.all, d.table.all) && Extends(c, d)
  }

  lemma LoopedTrans(c: Conn, d: Conn, e: Conn)
    requires Looped(c, d) && Looped(d, e)
    ensures Looped(c, e)
  {
    LaterTrans(c.table.all, d.table.all, e.table.all);
  }

  /** Progress inside the loop with no frame in flight. */
  lemma ProgressLooped(c: Conn, d: Conn, extra: int, gone: set<nat>)
    requires Inv(c) && c.flags.inFrameScheduleLoop && !c.flags.writingFrame && Progress(c, d, extra, gone)
    ensures Looped(c, d) && !d.flags.writingFrame && d.inFlight == None && Work(d) <= Work(c) + extra
  {
    assert Holds(c, InWriter) && Holds(d, InWriter);
    assert Kept(c, d, extra, gone, ToStreams) && Kept(c, d, extra, gone, ToLoop) && Kept(c, d, extra, gone, ToFlight);
    assert Kept(c, d, extra, gone, ToTrace);
  }

  lemma MoreExtra(c: Conn, d: Conn, x: int, y: int, gone: set<nat>)
    requires Progress(c, d, x, gone) && x <= y
    ensures Progress(c, d, y, gone)
  {
    forall k ensures Kept(c, d, y, gone, k) {
      assert Kept(c, d, x, gone, k);
    }
  }

  /** A frame written at once inside the loop, and what followed from it. */
  lemma SyncLooped(c: Conn, w: Write, e: Conn)
    requires Inv(c) && CanStart(c, w) && c.flags.inFrameScheduleLoop && Progress(Finishing(Starting(c, w)), e, 0, {})
    ensures Looped(c, e) && Work(e) <= Work(c) - if w.SettingsAck? then 1 else 0
  {
    var d := Finishing(Starting(c, w));
    StartSync(c, w);
    ProgressLooped(d, e, 0, {});
    LoopedTrans(c, d, e);
  }

  function WithLoop(c: Conn, on: bool): Conn {
    c.(flags := c.flags.(inFrameScheduleLoop := on))
  }

  lemma EnterLoop(c: Conn)
    requires Inv(c) && !c.flags.writingFrame
    ensures Looped(c, WithLoop(c, true))
  {
    assert Holds(c, InWriter) && Holds(c, InTrace);
    FlagsInv(c, WithLoop(c, true));
    LaterSame(c.table.all);
  }

  lemma LeaveLoop(c: Conn, d: Conn)
    requires Inv(c) && !c.flags.writingFrame && !c.flags.inFrameScheduleLoop && Looped(c, d)
    ensures Progress(c, WithLoop(d, false), 0, {})
    ensures NothingLeft(d) ==> NothingLeft(WithLoop(d, false))
  {
    var e := WithLoop(d, false);
    assert Holds(c, InWriter) && Holds(d, InWriter) && Holds(d, InTrace);
    FlagsInv(d, e);
    forall k ensures Kept(c, e, 0, {}, k) {
    }
  }

  function Flushed(c: Conn): Conn {
    c.(flags := c.flags.(needsFrameFlush := false))
  }

  lemma FlushLooped(c: Conn)
    requires Inv(c) && FlightMapped(c) && c.flags.inFrameScheduleLoop
    ensures Looped(c, Flushed(c))
  {
    assert Holds(c, InWriter) && Holds(c, InTrace);
    FlagsInv(c, Flushed(c));
    LaterSame(c.table.all);
  }

  /** With no frame in flight it does not matter which streams left the map. */
  lemma NoneGone(c: Conn, d: Conn, x: int, id: nat)
    requires Inv(c) && !c.flags.writingFrame && Progress(c, d, x, {id}) && x <= 0
    ensures Progress(c, d, 0, {})
  {
    assert Holds(c, InWriter);
    forall k ensures Kept(c, d, 0, {}, k) {
      assert Kept(c, d, x, {id}, k);
    }
  }

  function ShuttingDown(c: Conn, code: nat): Conn {
    c.(flags := c.flags.(inGoAway := true, needToSendGoAway := true, goAwayCode := code),
       trace := c.trace + [Shutdown(code)])
  }

  lemma ShutdownProgress(c: Conn, code: nat)
    requires Inv(c) && !c.flags.inGoAway
    ensures Progress(c, ShuttingDown(c, code), 0, {})
  {
    var d := ShuttingDown(c, code);
    assert Holds(c, InWriter) && Holds(c, InTrace);
    ReachStep(c.trace, Now(c), Shutdown(code));
    FlagsInv(c, d);
    LaterSame(c.table.all);
    forall k ensures Kept(c, d, 0, {}, k) {
    }
  }

  /** Credit on the inbound window of the connection. */
  lemma CreditProgress(c: Conn, d: Conn)
    requires Inv(c) && d == c.(windows := d.windows) && d.windows == c.windows.(connInflow := d.windows.connInflow)
    requires c.windows.connInflow <= d.windows.connInflow
    ensures Progress(c, d, 0, {}) && (NothingLeft(c) <==> NothingLeft(d))
  {
    forall a ensures Holds(d, a) {
      assert Holds(c, a);
    }
    assert Holds(c, InWriter);
    LaterSame(c.table.all);
    forall k ensures Kept(c, d, 0, {}, k) {
    }
  }

  function Seeing(c: Conn, id: nat): Conn {
    c.(table := if id % 2 == 1 then c.table.(maxClientStreamID := id) else c.table.(maxPushPromiseID := id),
       trace := c.trace + [Saw(id)])
  }

  /** A new largest id; for a client's stream, not during shutdown. */
  lemma SeeInv(c: Conn, id: nat)
    requires Inv(c) && id < MAX_ID && (id % 2 == 1 ==> !c.flags.inGoAway)
    requires id > if id % 2 == 1 then c.table.maxClientStreamID else c.table.maxPushPromiseID
    ensures Inv(Seeing(c, id)) && SamePopped(c, Seeing(c, id)) && id !in c.table.all && Work(Seeing(c, id)) == Work(c)
  {
    var t := c.table;
    assert Holds(c, InIds) && Within(t.all.Keys, t.maxClientStreamID, t.maxPushPromiseID, id);
    assert Holds(c, InTrace);
    ReachStep(c.trace, Now(c), Saw(id));
    forall a ensures Holds(Seeing(c, id), a) {
      SeeHolds(c, id, a);
    }
  }

  lemma SeeHolds(c: Conn, id: nat, a: Aspect)
    requires Inv(c) && id < MAX_ID && (id % 2 == 1 ==> !c.flags.inGoAway)
    requires id > if id % 2 == 1 then c.table.maxClientStreamID else c.table.maxPushPromiseID
    ensures Holds(Seeing(c, id), a)
  {
    var t, t' := c.table, Seeing(c, id).table;
    assert Holds(c, a);
    match a
    case InIds =>
      RaiseBounded(t.all.Keys, t.maxClientStreamID, t.maxPushPromiseID, t'.maxClientStreamID, t'.maxPushPromiseID);
    case InTrace => ReachStep(c.trace, Now(c), Saw(id));
    case _ =>
  }

  /** A closed stream stays closed and out of the map. */
  lemma StaysClosed(c: Conn, d: Conn, extra: int, id: nat)
    requires Inv(c) && Progress(c, d, extra, {}) && id in c.table.all && c.table.all[id].state == Closed
    ensures id in d.table.all && d.table.all[id].state == Closed && id !in d.table.streams
  {
    assert Kept(c, d, extra, {}, ToStreams) && LaterAt(c.table.all, d.table.all, id);
    assert Holds(d, InMap) && MappedAt(d.table.all, d.table.streams, id);
  }

  /**
   * What a frame, once written, means for its stream. END_STREAM half-closes an open stream, which is then reset,
   * and closes one whose request is over; a reset closes its stream.
   */
  predicate Concluded(t: Table, w: Write, t': Table) {
    && (EndsStream(w) && w.stream in t.all && t.all[w.stream].state == Open ==>
          && w.stream in t'.all
          && (t'.all[w.stream].state == Closed
              || (t'.all[w.stream].state == HalfClosedLocal && t'.all[w.stream].resetQueued)))
    && (EndsStream(w) && w.stream in t.all && t.all[w.stream].state == HalfClosedRemote ==>
          w.stream in t'.all && t'.all[w.stream].state == Closed)
    && (w.StreamReset? && w.id in t.streams ==> w.id in t'.all && t'.all[w.id].state == Closed)
    && (w.HandlerPanicRST? ==> w.stream in t'.all && t'.all[w.stream].state == Closed)
  }

  lemma StillConcluded(c: Conn, d: Conn, e: Conn, w: Write)
    requires Inv(d) && Progress(d, e, 0, {}) && Concluded(c.table, w, d.table)
    ensures Concluded(c.table, w, e.table)
  {
    assert Kept(d, e, 0, {}, ToStreams);
    if HasStream(w) {
      assert LaterAt(d.table.all, e.table.all, w.stream);
    }
    if w.StreamReset? && w.id in c.table.streams {
      StaysClosed(d, e, 0, w.id);
    }
  }

  /** Counters do not wrap round when a stream is added. */
  lemma CountersSmall(c: Conn)
    requires Inv(c)
    ensures c.table.curClientStreams + 1 < UINT32 && c.table.curPushedStreams + 1 < UINT32
  {
    var t := c.table;
    assert Holds(c, InMap) && Holds(c, InCounters) && Holds(c, InIds);
    MappedKeys(t.all, t.streams);
    CounterSmall(t.all.Keys, t.streams, t.curClientStreams, t.curPushedStreams,
                 t.maxClientStreamID, t.maxPushPromiseID);
  }

  /** A promised stream: the next even id, half-closed from the start. */
  function Promising(c: Conn): Conn {
    var id := c.table.maxPushPromiseID + 2;
    Opening(Seeing(c, id), id, HalfClosedRemote)
  }

  lemma PromiseLooped(c: Conn)
    requires Inv(c) && c.flags.inFrameScheduleLoop && !c.flags.writingFrame && c.table.maxPushPromiseID + 2 < MAX_ID
    ensures Looped(c, Promising(c)) && SamePopped(c, Promising(c)) && Work(Promising(c)) == Work(c) + 2
    ensures Promising(c).table.streams >= c.table.streams
  {
    var id := c.table.maxPushPromiseID + 2;
    assert Holds(c, InIds) && Holds(c, InWriter);
    SeeInv(c, id);
    OpenInv(Seeing(c, id), id, HalfClosedRemote);
    LaterOne(c.table.all, id, Fresh(HalfClosedRemote, c.windows.initialWindowSize));
  }

  // ----- when all that can be written is inert -----

  predicate Startable(t: Table, w: Write) {
    && Inert(w) && !w.PushPromise?
    && (HasStream(w) ==>
          w.stream in t.streams && w.stream in t.all && t.all[w.stream].state in {Open, HalfClosedRemote})
  }

  /** Up to a DATA frame that flow control holds back, the frames of a queue can be written and change no stream. */
  predicate Quiet(q: seq<Write>, t: Table, windows: Windows) {
    || q == []
    || (q[0].DataWrite? && q[0].len > 0 && !CanSend(q[0], t.all, windows.connFlow, windows.maxFrameSize))
    || ((q[0].DataWrite? ==> q[0].len == 0) && Startable(t, q[0]) && Quiet(q[1..], t, windows))
  }

  predicate CalmAt(c: Conn, id: nat) {
    Quiet(QueueOf(c.queues, id), c.table, c.windows)
  }

  ghost predicate Calm(c: Conn) {
    forall id {:trigger CalmAt(c, id)} :: CalmAt(c, id)
  }

  /** What is held back in a queue. */
  function HeldBack(q: seq<Write>): seq<Write> {
    if q == [] || (q[0].DataWrite? && q[0].len > 0) then q else HeldBack(q[1..])
  }

  predicate HeldAt(c: Conn, d: Conn, id: nat) {
    HeldBack(QueueOf(d.queues, id)) == HeldBack(QueueOf(c.queues, id))
  }

  function One(b: bool): nat {
    if b then 1 else 0
  }

  /** The work left, and the flush after it. */
  ghost function Due(c: Conn): int {
    2 * Work(c) + One(c.flags.needsFrameFlush)
  }

  /**
   * Only inert frames were written: nothing has changed but the queues in front of what is held back, and the writer.
   */
  ghost predicate Drains(c: Conn, d: Conn) {
    && Calm(d) && d.advMaxStreams == c.advMaxStreams && d.table == c.table && d.windows == c.windows
    && d.closing == c.closing
    && d.flags.inGoAway == c.flags.inGoAway && d.flags.goAwayCode == c.flags.goAwayCode && Due(d) <= Due(c)
    && (d.inFlight.Some? ==> d.inFlight == c.inFlight || Inert(d.inFlight.value))
    && forall id {:trigger HeldAt(c, d, id)} :: HeldAt(c, d, id)
  }

  lemma DrainsTrans(c: Conn, d: Conn, e: Conn)
    requires Drains(c, d) && Drains(d, e)
    ensures Drains(c, e)
  {
    forall id ensures HeldAt(c, e, id) {
      assert HeldAt(c, d, id) && HeldAt(d, e, id);
    }
  }

  /** Only flags, the frame in flight and the run have changed. */
  lemma SameDrains(c: Conn, d: Conn)
    requires Calm(c) && d.advMaxStreams == c.advMaxStreams && d.table == c.table && d.windows == c.windows
    requires d.closing == c.closing
    requires d.flags.inGoAway == c.flags.inGoAway && d.flags.goAwayCode == c.flags.goAwayCode && d.queues == c.queues
    requires Due(d) <= Due(c) && (d.inFlight.Some? ==> d.inFlight == c.inFlight || Inert(d.inFlight.value))
    ensures Drains(c, d)
  {
    forall id ensures CalmAt(d, id) {
      assert CalmAt(c, id);
    }
    forall id ensures HeldAt(c, d, id) {
    }
  }

  lemma DrainsWithLoop(c: Conn, d: Conn, on: bool)
    requires Drains(c, d)
    ensures Drains(c, WithLoop(d, on)) && Due(WithLoop(d, on)) == Due(d)
  {
    SameDrains(d, WithLoop(d, on));
    DrainsTrans(c, d, WithLoop(d, on));
  }

  /** A frame was started: it is in flight, or was written at once. */
  predicate Begun(c: Conn, w: Write, d: Conn) {
    d == InBackground(Starting(c, w), w) || d == Finishing(Starting(c, w))
  }

  /** A GOAWAY or SETTINGS ack that was due. */
  lemma StartDrains(c: Conn, w: Write, d: Conn)
    requires Calm(c) && Begun(c, w, d)
    requires (w.GoAway? && c.flags.needToSendGoAway) || (w.SettingsAck? && c.flags.needToSendSettingsAck)
    ensures Drains(c, d) && Due(d) < Due(c)
  {
    SameDrains(c, d);
  }

  predicate PoppedAt(c: Conn, w: Write, d: Conn, id: nat) {
    MayPop(c, id, 0) && c.queues[id][0] == w && Startable(c.table, w) && d == Shifted(c, id, 0)
  }

  ghost predicate PoppedCalmly(c: Conn, w: Write, d: Conn) {
    exists id {:trigger PoppedAt(c, w, d, id)} :: PoppedAt(c, w, d, id)
  }

  /** What comes out of the scheduler is inert. */
  lemma CalmPop(c: Conn, id: nat, n: int32)
    requires Calm(c) && MayPop(c, id, n)
    ensures n == 0
    ensures PoppedAt(c, Gone(c.queues[id][0], 0), Debited(Shifted(c, id, 0), StreamID(c.queues[id][0]), 0), id)
  {
    assert CalmAt(c, id);
  }

  lemma ShiftDrains(c: Conn, w: Write, id: nat)
    requires Inv(c) && Calm(c) && MayPop(c, id, 0) && PoppedAt(c, w, Shifted(c, id, 0), id)
    ensures Drains(c, Shifted(c, id, 0)) && Work(Shifted(c, id, 0)) < Work(c)
  {
    var d := Shifted(c, id, 0);
    var q := c.queues[id];
    assert CalmAt(c, id) && Left(q, 0) == q[1..];
    assert Holds(c, InQueues) && QueuedAt(c.queues, c.table.streams, c.closing, id);
    CutOK(q, id, c.table.streams, c.closing, 0);
    QueueSet(c.queues, id, q[1..]);
    forall k ensures CalmAt(d, k) && HeldAt(c, d, k) {
      assert CalmAt(c, k);
    }
  }

  lemma PoppedDrains(c: Conn, w: Write, b: Conn, d: Conn)
    requires Inv(c) && Calm(c) && PoppedCalmly(c, w, b) && Queueable(w) && Begun(b, w, d)
    ensures Drains(c, d) && Due(d) < Due(c)
  {
    var id :| PoppedAt(c, w, b, id);
    ShiftDrains(c, w, id);
    assert Work(d) == Work(b);
    SameButFlush(b, d);
    forall k ensures HeldAt(c, d, k) {
      assert HeldAt(c, b, k);
    }
  }

  lemma SameButFlush(c: Conn, d: Conn)
    requires Calm(c) && d.table == c.table && d.windows == c.windows && d.queues == c.queues
    ensures Calm(d)
  {
    forall id ensures CalmAt(d, id) {
      assert CalmAt(c, id);
    }
  }

  lemma FlushDrains(c: Conn, d: Conn)
    requires Calm(c) && Begun(c, Flush, d) && c.flags.needsFrameFlush
    ensures Drains(c, Flushed(d)) && Due(Flushed(d)) < Due(c)
  {
    SameDrains(c, Flushed(d));
  }

  // ----- between events -----

  /** What holds between two events of the serve loop. */
  ghost predicate Resting(c: Conn) {
    Inv(c) && AllExact(c.table.all) && !c.flags.inFrameScheduleLoop && c.closing == {}
  }

  /** The same while stream id, if it still receives, is about to be reset. */
  ghost predicate RestingBut(c: Conn, id: nat) {
    Inv(c) && AllExactBut(c.table.all, id) && !c.flags.inFrameScheduleLoop && c.closing == {}
  }

  lemma ProgressRests(c: Conn, d: Conn, extra: int, gone: set<nat>)
    requires Resting(c) && Progress(c, d, extra, gone)
    ensures Resting(d)
  {
    assert Kept(c, d, extra, gone, ToStreams);
    LaterExact(c.table.all, d.table.all);
  }

  lemma ProgressRestsBut(c: Conn, d: Conn, extra: int, gone: set<nat>, id: nat)
    requires RestingBut(c, id) && Progress(c, d, extra, gone)
    ensures RestingBut(d, id)
    ensures id in d.table.all && !Unended(d.table.all[id]) ==> Resting(d)
    ensures id in c.table.all && Balanced(c.table.all[id]) && id in d.table.all && !Receiving(d.table.all[id]) ==>
              Resting(d)
    ensures id !in c.table.all ==> Resting(d)
    ensures id in c.table.all ==> id in d.table.all && Follows(c.table.all[id], d.table.all[id])
  {
    assert Kept(c, d, extra, gone, ToStreams) && LaterAt(c.table.all, d.table.all, id);
    LaterExactBut(c.table.all, d.table.all, id);
    ExactButOne(d.table.all, id);
  }

  lemma RestsBut(c: Conn, id: nat)
    requires Resting(c)
    ensures RestingBut(c, id) && (id in c.table.all ==> Balanced(c.table.all[id]))
  {
    assert ExactAt(c.table.all, id);
    ExactButOne(c.table.all, id);
  }

  /** Other windows, still sane. */
  lemma WindowsInv(c: Conn, d: Conn)
    requires Inv(c) && d == c.(windows := d.windows)
    requires d.windows.connInflow >= 0 && d.windows.initialWindowSize >= 0 && d.windows.maxFrameSize > 0
    ensures Inv(d)
  {
    forall a ensures Holds(d, a) {
      assert Holds(c, a);
    }
  }
}
