/** The events of the serve loop: frames from the client, requests from handlers, writes that end, timers. */
module ServerEvents {
  import opened Basics
  import opened FlowControl
  import opened Protocol
  import opened ServerTypes
  import opened ServerCounts
  import opened ServerLedger
  import opened ServerTrace
  import opened ServerInvariant
  import opened ServerSettings
  import opened Server

  /** The state that goes with an answer: a stream to be reset may be out of balance. */
  ghost predicate Answered(c: Conn, e: Err) {
    if e.StreamErr? then RestingBut(c, e.id) && (e.id in c.table.all ==> Balanced(c.table.all[e.id])) else Resting(c)
  }

  // ----- window updates for a stream -----

  /** Returns n bytes to the window of a stream. The panic on overflow is out of reach: the ledger bounds the window. */
  method SendStreamWindowUpdate(sc: ServerConn, id: nat, n: int32) returns (r: Run)
    requires Inv(sc.View()) && !sc.flags.inFrameScheduleLoop && 0 <= n
    requires id in sc.table.all && Ledger(sc.table.all[id]) + n <= INITIAL_WINDOW
    modifies sc`table, sc`queues, sc`windows, sc`flags, sc`inFlight, sc`closing, sc`trace
    ensures Stopped(r, sc.trace)
    ensures r.Fine? ==> Inv(sc.View()) && !sc.flags.inFrameScheduleLoop && sc.closing == old(sc.closing)
    ensures r.Fine? ==>
              var s := old(sc.table.all[id]);
              Later(old(sc.table.all)[id := s.(inflow := s.inflow + n)], sc.table.all)
    ensures r.Fine? ==>
              if old(sc.inFlight).None? then FlightMapped(sc.View())
              else sc.table.streams == old(sc.table.streams) && sc.inFlight == old(sc.inFlight)
    ensures r.Fine? ==> sc.windows.connInflow >= old(sc.windows.connInflow)
    ensures old(sc.flags.writingFrame) ==> r.Fine? && sc.windows == old(sc.windows)
    ensures r.Fine? ==> Looked(n > 0, old(sc.View()), sc.View())
  {
    ghost var c := sc.View();
    if n == 0 {
      var st := sc.table.all[id];
      assert st.(inflow := st.inflow + n) == st && sc.table.all[id := st] == sc.table.all;
      LaterSame(sc.table.all);
      EqualProgress(c, sc.View());
      assert Kept(c, sc.View(), 0, {}, ToFlight);
      return Fine;
    }
    :- sc.WriteFrame(StreamWindowUpdate(id));
    StillSolvent(c, sc.View(), id, n);
    assert Kept(c, sc.View(), 1, {}, ToFlight) && Kept(c, sc.View(), 1, {}, ToTrace);
    sc.table := sc.table.(all := sc.table.all[id := sc.table.all[id].(inflow := sc.table.all[id].inflow + n)]);
    r := Fine;
  }

  /** What a write leaves of a stream's ledger has room for the n bytes it announced. */
  lemma StillSolvent(c: Conn, d: Conn, id: nat, n: int32)
    requires Progress(c, d, 1, {}) && id in c.table.all && 0 <= n
    requires Ledger(c.table.all[id]) + n <= INITIAL_WINDOW
    ensures id in d.table.all && 0 <= d.table.all[id].inflow <= INITIAL_WINDOW && AddAccepts(d.table.all[id].inflow, n)
    ensures var s, t := c.table.all[id], d.table.all[id].(inflow := d.table.all[id].inflow + n);
      && Inv(Replaced(d, id, t)) && Looked(false, d, Replaced(d, id, t))
      && Later(c.table.all[id := s.(inflow := s.inflow + n)], d.table.all[id := t])
  {
    assert Kept(c, d, 1, {}, ToStreams) && LaterAt(c.table.all, d.table.all, id);
    assert Holds(d, InLedgers) && SolventAt(d.table.all, id);
    CreditInv(d, id, n);
    LaterCredited(c.table.all, d.table.all, id, n);
  }

  /** More window for a stream, within its ledger. */
  lemma CreditInv(c: Conn, id: nat, n: int)
    requires Inv(c) && id in c.table.all && 0 <= n && Ledger(c.table.all[id]) + n <= INITIAL_WINDOW
    ensures var s := c.table.all[id].(inflow := c.table.all[id].inflow + n);
      Inv(Replaced(c, id, s)) && Looked(false, c, Replaced(c, id, s))
  {
    var s := c.table.all[id].(inflow := c.table.all[id].inflow + n);
    assert Holds(c, InLedgers) && SolventAt(c.table.all, id);
    SameStateInv(c, id, s);
  }

  /** A stream changes, but neither its state nor its outbound window. */
  lemma SameStateInv(c: Conn, id: nat, s: Stream)
    requires Inv(c) && id in c.table.all && s.state == c.table.all[id].state && Solvent(s)
    ensures Inv(Replaced(c, id, s))
    ensures s.flow == c.table.all[id].flow ==> Looked(false, c, Replaced(c, id, s))
  {
    var d := Replaced(c, id, s);
    assert Holds(c, InMap) && MappedAt(c.table.all, c.table.streams, id) && Holds(c, InWriter);
    assert Holds(c, InLedgers) && SolventAt(c.table.all, id) && Holds(c, InClosing);
    assert ClosedAt(c.table.all, c.closing, id);
    ReplaceInv(c, id, s);
    if s.flow == c.table.all[id].flow {
      SameFlowsOne(c.table.all, id, s);
      SameLeft(c, d);
    }
  }

  // ----- DATA -----

  function Ended(s: Stream): Stream {
    PipeClosed(s).(state := HalfClosedRemote)
  }

  /** The request on a stream is over; its stream is half-closed, even if a frame written meanwhile closed it. */
  method EndStream(sc: ServerConn, id: nat) returns (r: Run)
    requires Resting(sc.View()) && id in sc.table.all && (OnFlight(sc.View(), id) ==> id in sc.table.streams)
    modifies sc`table
    ensures Halted(r, sc.trace)
    ensures r.Fine? ==> Resting(sc.View()) && Looked(false, old(sc.View()), sc.View())
    ensures if old(sc.table.all[id].body).None? then r == Panicked(NilPipe) && unchanged(sc)
            else r.Fine? && sc.View() == Replaced(old(sc.View()), id, Ended(old(sc.table.all[id])))
  {
    ghost var c := sc.View();
    assert Holds(c, InTrace);
    var st := sc.table.all[id];
    if st.body.None? {
      return Panicked(NilPipe);
    }
    var st' := Ended(st);
    assert Holds(c, InMap) && MappedAt(c.table.all, c.table.streams, id) && Holds(c, InLedgers);
    assert SolventAt(c.table.all, id);
    ReplaceInv(c, id, st');
    SetExact(c.table.all, id, st');
    SameFlowsOne(c.table.all, id, st');
    sc.table := sc.table.(all := sc.table.all[id := st']);
    SameLeft(c, sc.View());
    r := Fine;
  }

  /**
   * The answer to DATA that is not wanted: nothing for a stream that is being reset, and no window of the connection is
   * lost.
   */
  predicate DataRefused(c: Conn, id: nat, length: int32, e: Err, d: Conn) {
    if c.windows.connInflow < length then e == StreamErr(id, FLOW_CONTROL_ERROR) && d == c
    else
      && (e == NoErr || e == StreamErr(id, STREAM_CLOSED)) && c.windows.connInflow <= d.windows.connInflow
      && (id !in c.table.streams ==> e != NoErr)
      && (id in c.table.streams && id in c.table.all && c.table.all[id].resetQueued ==> e == NoErr)
  }

  /** DATA that is not wanted: it only passes through the window of the connection. */
  method RefuseData(sc: ServerConn, id: nat, length: int32) returns (r: Run, e: Err)
    requires Resting(sc.View()) && 0 <= length < MAX_LENGTH && (id in sc.table.streams ==> id in sc.table.all)
    modifies sc`table, sc`queues, sc`windows, sc`flags, sc`inFlight, sc`closing, sc`trace
    ensures Stopped(r, sc.trace)
    ensures r.Fine? ==> Answered(sc.View(), e) && DataRefused(old(sc.View()), id, length, e, sc.View())
    ensures r.Fine? ==> Looked(0 < length <= old(sc.windows.connInflow), old(sc.View()), sc.View())
  {
    e := NoErr;
    ghost var c := sc.View();
    RestsBut(c, id);
    if sc.windows.connInflow < length {
      return Fine, StreamErr(id, FLOW_CONTROL_ERROR);
    }
    assert Holds(c, InWindows);
    var mapped := id in sc.table.streams;
    sc.windows := sc.windows.(connInflow := sc.windows.connInflow - length);
    ghost var d := sc.View();
    WindowsInv(c, d);
    :- sc.SendConnWindowUpdate(length);
    ProgressRests(d, sc.View(), 1, {});
    RestsBut(sc.View(), id);
    assert Kept(d, sc.View(), 1, {}, ToStreams) && LaterAt(d.table.all, sc.table.all, id);
    if mapped && sc.table.all[id].resetQueued {
      return Fine, NoErr;
    }
    return Fine, StreamErr(id, STREAM_CLOSED);
  }

  /** How DATA for an open request is answered. */
  function DataAnswer(s: Stream, connInflow: int32, id: nat, length: int32, dataLen: int32): Err {
    if s.declBodyBytes != -1 && s.bodyBytes + dataLen > s.declBodyBytes then StreamErr(id, STREAM_CLOSED)
    else if length > 0 && (s.inflow < length || connInflow < length) then StreamErr(id, FLOW_CONTROL_ERROR)
    else NoErr
  }

  /** The stream has an open request, whose trailers have not come yet. */
  predicate Awaits(t: Table, id: nat) {
    id in t.streams && id in t.all && Receiving(t.all[id]) && !t.all[id].gotTrailerHeader
  }

  /**
   * DATA is ignored in an error shutdown, an error on an idle stream, delivered whole to an open request, refused
   * otherwise.
   */
  predicate DataHandled(c: Conn, id: nat, length: int32, dataLen: int32, endStream: bool, r: Run, e: Err, d: Conn) {
    if !PopPermitted(c.flags) then r.Fine? && e == NoErr && d == c
    else if id == 0 || StateOf(c.table, id) == Idle then r.Fine? && e == ConnErr(PROTOCOL_ERROR) && d == c
    else if Awaits(c.table, id) then
      (length == dataLen ==> r.Fine?) &&
      (r.Fine? ==>
        && e == DataAnswer(c.table.all[id], c.windows.connInflow, id, length, dataLen)
        && (e == NoErr ==> Delivered(c.table.all[id], d.table, id, dataLen, endStream))
        && (e == NoErr && length == dataLen ==> DataArrived(c, id, dataLen, endStream, d)))
    else r.Fine? ==> DataRefused(c, id, length, e, d)
  }

  /** DATA for which window is returned at once: padding, or all of it if it is not wanted. */
  predicate DataLooks(c: Conn, id: nat, length: int32, dataLen: int32) {
    && PopPermitted(c.flags) && id != 0 && StateOf(c.table, id) != Idle
    && if Awaits(c.table, id)
       then dataLen < length && DataAnswer(c.table.all[id], c.windows.connInflow, id, length, dataLen) == NoErr
       else 0 < length <= c.windows.connInflow
  }

  method ProcessData(sc: ServerConn, id: nat, length: int32, dataLen: int32, endStream: bool) returns (r: Run, e: Err)
    requires Resting(sc.View()) && 0 <= dataLen <= length < MAX_LENGTH
    modifies sc`table, sc`queues, sc`windows, sc`flags, sc`inFlight, sc`closing, sc`trace
    ensures Stopped(r, sc.trace)
    ensures r.Fine? ==> Answered(sc.View(), e)
    ensures DataHandled(old(sc.View()), id, length, dataLen, endStream, r, e, sc.View())
    ensures r.Fine? ==> Looked(DataLooks(old(sc.View()), id, length, dataLen), old(sc.View()), sc.View())
  {
    ghost var c := sc.View();
    assert Holds(c, InMap) && MappedAt(c.table.all, c.table.streams, id);
    if !PopPermitted(sc.flags) {
      return Fine, NoErr;
    }
    var state := sc.State(id);
    if id == 0 || state == Idle {
      return Fine, ConnErr(PROTOCOL_ERROR);
    }
    if id !in sc.table.streams || state != Open || sc.table.all[id].gotTrailerHeader || sc.table.all[id].resetQueued {
      r, e := RefuseData(sc, id, length);
      return;
    }
    assert ExactAt(sc.table.all, id);
    r, e := AcceptData(sc, id, length, dataLen, endStream);
  }

  /** The bytes of a DATA frame are in the pipe, whole, and counted. */
  predicate Delivered(s: Stream, t: Table, id: nat, dataLen: int32, endStream: bool) {
    && id in t.all && Buffered(t.all[id]) == Buffered(s) + dataLen && t.all[id].bodyBytes == s.bodyBytes + dataLen
    && (endStream ==> t.all[id].state != Open)
  }

  /** Both inbound windows are debited by length, and dataLen bytes are in the pipe and counted. */
  function TakenIn(s: Stream, length: int32, dataLen: nat): Stream
    requires s.body.Some?
  {
    s.(inflow := s.inflow - length, body := Some(s.body.value.(buffered := s.body.value.buffered + dataLen)),
       bodyBytes := s.bodyBytes + dataLen)
  }

  function Arrived(c: Conn, id: nat, length: int32, dataLen: nat): Conn
    requires id in c.table.all && c.table.all[id].body.Some? && 0 <= length <= c.windows.connInflow
  {
    Replaced(c, id, TakenIn(c.table.all[id], length, dataLen)).(
      windows := c.windows.(connInflow := c.windows.connInflow - length))
  }

  /** The whole new state when there is no padding. */
  predicate DataArrived(c: Conn, id: nat, n: int32, endStream: bool, d: Conn) {
    && id in c.table.all && c.table.all[id].body.Some? && 0 <= n <= c.windows.connInflow
    && var a := Arrived(c, id, n, n); d == if endStream then Replaced(a, id, Ended(a.table.all[id])) else a
  }

  /** DATA for an open request: within the window it always fits in the pipe. */
  method AcceptData(sc: ServerConn, id: nat, length: int32, dataLen: int32, endStream: bool) returns (r: Run, e: Err)
    requires Resting(sc.View()) && 0 <= dataLen <= length < MAX_LENGTH
    requires id in sc.table.streams && id in sc.table.all && Receiving(sc.table.all[id]) && Exact(sc.table.all[id])
    modifies sc`table, sc`queues, sc`windows, sc`flags, sc`inFlight, sc`closing, sc`trace
    ensures Stopped(r, sc.trace) && (length == dataLen ==> r.Fine?)
    ensures r.Fine? ==> Answered(sc.View(), e)
    ensures r.Fine? ==> e == DataAnswer(old(sc.table.all[id]), old(sc.windows.connInflow), id, length, dataLen)
    ensures r.Fine? && e == NoErr ==> Delivered(old(sc.table.all[id]), sc.table, id, dataLen, endStream)
    ensures r.Fine? && e == NoErr && length == dataLen ==>
              DataArrived(old(sc.View()), id, dataLen, endStream, sc.View())
    ensures r.Fine? ==> Looked(e == NoErr && dataLen < length, old(sc.View()), sc.View())
  {
    e := NoErr;
    ghost var c := sc.View();
    RestsBut(c, id);
    var st := sc.table.all[id];
    if st.declBodyBytes != -1 && st.bodyBytes + dataLen > st.declBodyBytes {
      CloseBody(sc, id);
      return Fine, StreamErr(id, STREAM_CLOSED);
    }
    if length > 0 {
      var available := if sc.windows.connInflow < st.inflow then sc.windows.connInflow else st.inflow;
      if available < length {
        return Fine, StreamErr(id, FLOW_CONTROL_ERROR);
      }
    }
    :- Absorb(sc, id, length, dataLen);
    if endStream {
      :- EndStream(sc, id);
    }
    return Fine, NoErr;
  }

  /** The bytes of DATA that both windows have room for; padding is returned at once. */
  method Absorb(sc: ServerConn, id: nat, length: int32, dataLen: int32) returns (r: Run)
    requires Resting(sc.View()) && 0 <= dataLen <= length
    requires id in sc.table.streams && id in sc.table.all && Receiving(sc.table.all[id]) && Exact(sc.table.all[id])
    requires length > 0 ==> length <= sc.table.all[id].inflow && length <= sc.windows.connInflow
    modifies sc`table, sc`queues, sc`windows, sc`flags, sc`inFlight, sc`closing, sc`trace
    ensures Stopped(r, sc.trace) && (length == dataLen ==> r.Fine?)
    ensures r.Fine? ==> Resting(sc.View()) && id in sc.table.all && (OnFlight(sc.View(), id) ==> id in sc.table.streams)
    ensures r.Fine? ==>
              && sc.table.all[id].body.Some? && Buffered(sc.table.all[id]) == Buffered(old(sc.table.all[id])) + dataLen
              && sc.table.all[id].bodyBytes == old(sc.table.all[id]).bodyBytes + dataLen
    ensures r.Fine? && length == dataLen ==> DataArrived(old(sc.View()), id, dataLen, false, sc.View())
    ensures r.Fine? ==> Looked(dataLen < length, old(sc.View()), sc.View())
  {
    ghost var c := sc.View();
    assert Holds(c, InWindows) && Holds(c, InTrace);
    if length == 0 {
      var s := sc.table.all[id];
      assert TakenIn(s, 0, 0) == s && c.table.all[id := s] == c.table.all;
      return Fine;
    }
    Receive(sc, id, length, dataLen);
    if length > dataLen {
      :- ReturnPadding(sc, id, length - dataLen);
    }
    r := Fine;
  }

  /** The pipe takes no more bytes; the stream is about to be reset. */
  method CloseBody(sc: ServerConn, id: nat)
    requires Resting(sc.View()) && id in sc.table.all && sc.table.all[id].body.Some?
    modifies sc`table
    ensures RestingBut(sc.View(), id) && Looked(false, old(sc.View()), sc.View())
    ensures sc.table == old(sc.table).(all := old(sc.table.all)[id := PipeClosed(old(sc.table.all[id]))])
  {
    ghost var c := sc.View();
    RestsBut(c, id);
    var st := sc.table.all[id];
    var st' := PipeClosed(st);
    assert Holds(c, InLedgers) && SolventAt(c.table.all, id);
    SameStateInv(c, id, st');
    SetExactBut(c.table.all, id, st');
    sc.table := sc.table.(all := sc.table.all[id := st']);
  }

  /** Both inbound windows are debited and the bytes are buffered, whole: the buffer has room for them. */
  method Receive(sc: ServerConn, id: nat, length: int32, dataLen: int32)
    requires Resting(sc.View()) && 0 <= dataLen <= length && id in sc.table.all && Receiving(sc.table.all[id])
    requires Exact(sc.table.all[id])
    requires length <= sc.table.all[id].inflow && length <= sc.windows.connInflow
    modifies sc`table, sc`windows
    ensures RestingBut(sc.View(), id) && Looked(false, old(sc.View()), sc.View())
    ensures old(sc.table.all[id].body).Some? && sc.View() == Arrived(old(sc.View()), id, length, dataLen)
    ensures Exact(sc.table.all[id].(inflow := sc.table.all[id].inflow + length - dataLen))
    ensures length == dataLen ==> Resting(sc.View())
    ensures Buffered(old(sc.table.all[id])) + dataLen == Buffered(sc.table.all[id]) <= INITIAL_WINDOW
    ensures sc.table.all[id].bodyBytes == old(sc.table.all[id]).bodyBytes + dataLen
    ensures sc.table.all[id].inflow == old(sc.table.all[id]).inflow - length
    ensures sc.windows.connInflow == old(sc.windows.connInflow) - length
    ensures Receiving(sc.table.all[id]) && sc.table.all[id].body.Some?
  {
    ghost var c := sc.View();
    RestsBut(c, id);
    assert Holds(c, InLedgers) && SolventAt(c.table.all, id) && Holds(c, InWindows);
    var st' := TakenIn(sc.table.all[id], length, dataLen);
    SameStateInv(c, id, st');
    SetExactBut(c.table.all, id, st');
    sc.table := sc.table.(all := sc.table.all[id := st']);
    ghost var d := sc.View();
    sc.windows := sc.windows.(connInflow := sc.windows.connInflow - length);
    WindowsInv(d, sc.View());
    ExactButOne(sc.table.all, id);
  }

  method ReturnPadding(sc: ServerConn, id: nat, pad: int32) returns (r: Run)
    requires RestingBut(sc.View(), id) && pad > 0 && id in sc.table.streams && id in sc.table.all
    requires Receiving(sc.table.all[id]) && Exact(sc.table.all[id].(inflow := sc.table.all[id].inflow + pad))
    modifies sc`table, sc`queues, sc`windows, sc`flags, sc`inFlight, sc`closing, sc`trace
    ensures Stopped(r, sc.trace)
    ensures r.Fine? ==> Resting(sc.View()) && id in sc.table.all && (OnFlight(sc.View(), id) ==> id in sc.table.streams)
    ensures r.Fine? ==> sc.table.all[id].body.Some? == old(sc.table.all[id]).body.Some?
    ensures r.Fine? ==>
              && Buffered(sc.table.all[id]) == Buffered(old(sc.table.all[id]))
              && sc.table.all[id].bodyBytes == old(sc.table.all[id]).bodyBytes
              && sc.table.all[id].inflow == old(sc.table.all[id]).inflow + pad
              && sc.windows.connInflow >= old(sc.windows.connInflow) + pad
    ensures r.Fine? ==> NothingLeft(sc.View())
  {
    ghost var c := sc.View();
    :- sc.SendConnWindowUpdate(pad);
    ghost var d := sc.View();
    ProgressRestsBut(c, d, 1, {}, id);
    assert Kept(c, d, 1, {}, ToFlight);
    :- SendStreamWindowUpdate(sc, id, pad);
    assert LaterAt(d.table.all[id := d.table.all[id].(inflow := d.table.all[id].inflow + pad)], sc.table.all, id);
    PaddingReturned(d.table.all, sc.table.all, id, pad);
    r := Fine;
  }

  // ----- HEADERS -----

  /** A HEADERS frame, with what its fields come to: a stream that depends on itself, a malformed request or trailer. */
  datatype Headers = Headers(id: nat, endStream: bool, dependsOnItself: bool, malformed: bool, contentLength: int)

  /** A new largest client id, whether or not its stream is then opened. */
  method NoteClientID(sc: ServerConn, id: nat)
    requires Resting(sc.View()) && sc.table.maxClientStreamID < id < MAX_ID && id % 2 == 1 && !sc.flags.inGoAway
    modifies sc`table, sc`trace
    ensures Resting(sc.View()) && sc.table == old(sc.table).(maxClientStreamID := id) && id !in sc.table.all
    ensures Looked(false, old(sc.View()), sc.View())
  {
    SeeInv(sc.View(), id);
    sc.table := sc.table.(maxClientStreamID := id);
    sc.trace := sc.trace + [Saw(id)];
  }

  method OpenRequest(sc: ServerConn, id: nat, state: StreamState)
    requires Resting(sc.View()) && CanOpen(sc.View(), id, state)
    modifies sc`table, sc`trace
    ensures RestingBut(sc.View(), id) && id in sc.table.streams && sc.flags == old(sc.flags)
    ensures sc.table == OpenIn(old(sc.table), id, Fresh(state, sc.windows.initialWindowSize))
    ensures Looked(false, old(sc.View()), sc.View())
  {
    ghost var c := sc.View();
    RestsBut(c, id);
    sc.NewStream(id, state);
    SetExactBut(c.table.all, id, Fresh(state, sc.windows.initialWindowSize));
    OpenNotReady(c, id, state);
  }

  /** DATA is only queued for streams that exist, so opening one makes nothing ready. */
  lemma OpenNotReady(c: Conn, id: nat, state: StreamState)
    requires Inv(c) && c.closing == {} && id !in c.table.all
    ensures NoneReady(c.queues, Opening(c, id, state).table.all, c.windows.connFlow, c.windows.maxFrameSize)
       <==> NoneReady(c.queues, c.table.all, c.windows.connFlow, c.windows.maxFrameSize)
  {
    var all' := Opening(c, id, state).table.all;
    forall k: nat
      ensures Ready(k, c.queues, all', c.windows.connFlow, c.windows.maxFrameSize)
         <==> Ready(k, c.queues, c.table.all, c.windows.connFlow, c.windows.maxFrameSize) {
      assert Holds(c, InQueues) && QueuedAt(c.queues, c.table.streams, c.closing, k);
      if k in c.queues && c.queues[k] != [] && c.queues[k][0].DataWrite? {
        assert Pending(c.queues[k][0], c.table.streams, c.closing);
        assert Holds(c, InMap) && MappedAt(c.table.all, c.table.streams, c.queues[k][0].stream);
      }
    }
  }

  /** The second HEADERS of a request: they must end it, and there must have been none before. */
  predicate TrailersHandled(c: Conn, f: Headers, r: Run, e: Err, d: Conn)
    requires f.id in c.table.all
  {
    var s := c.table.all[f.id];
    var t := s.(gotTrailerHeader := true);
    if s.gotTrailerHeader then r.Fine? && e == ConnErr(PROTOCOL_ERROR) && d == c
    else if !f.endStream || f.malformed then
      r.Fine? && e == StreamErr(f.id, PROTOCOL_ERROR) && d == Replaced(c, f.id, t)
    else if s.body.None? then r == Panicked(NilPipe)
    else r.Fine? && e == NoErr && d == Replaced(c, f.id, Ended(t))
  }

  /** HEADERS with which nothing is begun, or trailers, or a request. */
  predicate HeadersHandled(c: Conn, unackedSettings: int, f: Headers, r: Run, e: Err, d: Conn) {
    if c.flags.inGoAway then r.Fine? && e == NoErr && d == c
    else if f.id % 2 != 1 then r.Fine? && e == ConnErr(PROTOCOL_ERROR) && d == c
    else if f.id in c.table.streams then
      f.id in c.table.all &&
      if c.table.all[f.id].resetQueued then r.Fine? && e == NoErr && d == c else TrailersHandled(c, f, r, e, d)
    else if f.id <= c.table.maxClientStreamID then r.Fine? && e == ConnErr(PROTOCOL_ERROR) && d == c
    else
      && r.Fine? && e == RequestAnswer(c.table, c.advMaxStreams, unackedSettings, f)
      && d == c.(table := d.table, trace := d.trace)
      && var t := c.table.(maxClientStreamID := f.id);
         d.table == if c.table.curClientStreams + 1 > c.advMaxStreams then t
                    else OpenIn(t, f.id, RequestStream(f, e, c.windows.initialWindowSize))
  }

  /** HEADERS that end a request for which no body was ever made. */
  predicate EndsBodiless(c: Conn, f: Headers) {
    && !c.flags.inGoAway && f.id % 2 == 1 && f.id in c.table.streams && f.id in c.table.all && f.endStream
    && !f.malformed
    && var s := c.table.all[f.id]; !s.resetQueued && !s.gotTrailerHeader && s.body.None?
  }

  /**
   * Ignored in shutdown; an error for ids that clients do not use or may not use again; otherwise a request or its
   * trailers.
   */
  method ProcessHeaders(sc: ServerConn, f: Headers) returns (r: Run, e: Err)
    requires Resting(sc.View()) && f.id < MAX_ID
    modifies sc`table, sc`trace
    ensures Halted(r, sc.trace) && HeadersHandled(old(sc.View()), sc.unackedSettings, f, r, e, sc.View())
    ensures r.Fine? ==> Answered(sc.View(), e)
    ensures r.Fine? ==> Looked(false, old(sc.View()), sc.View())
  {
    if sc.flags.inGoAway {
      return Fine, NoErr;
    }
    if f.id % 2 != 1 {
      return Fine, ConnErr(PROTOCOL_ERROR);
    }
    if f.id in sc.table.streams {
      assert Holds(sc.View(), InMap) && MappedAt(sc.table.all, sc.table.streams, f.id);
      if sc.table.all[f.id].resetQueued {
        return Fine, NoErr;
      }
      r, e := ProcessTrailerHeaders(sc, f);
      return;
    }
    if f.id <= sc.table.maxClientStreamID {
      return Fine, ConnErr(PROTOCOL_ERROR);
    }
    NoteClientID(sc, f.id);
    r := Fine;
    e := StartRequest(sc, f);
  }

  /** How the headers of a new request are answered. */
  function RequestAnswer(t: Table, advMaxStreams: nat, unackedSettings: int, f: Headers): Err {
    if t.curClientStreams + 1 > advMaxStreams then
      StreamErr(f.id, if unackedSettings == 0 then PROTOCOL_ERROR else REFUSED_STREAM)
    else if f.dependsOnItself || f.malformed then StreamErr(f.id, PROTOCOL_ERROR)
    else NoErr
  }

  /** The stream of a request: open, or half-closed if the headers are all there is; a body only if one is to come. */
  function RequestStream(f: Headers, e: Err, initialWindowSize: int32): Stream {
    var s := Fresh(if f.endStream then HalfClosedRemote else Open, initialWindowSize);
    if e != NoErr then s
    else if f.endStream then s
    else s.(body := Some(Body(0, false)), declBodyBytes := f.contentLength)
  }

  method StartRequest(sc: ServerConn, f: Headers) returns (e: Err)
    requires Resting(sc.View()) && f.id !in sc.table.all && f.id == sc.table.maxClientStreamID && f.id % 2 == 1
    requires !sc.flags.inGoAway
    modifies sc`table, sc`trace
    ensures Answered(sc.View(), e) && Looked(false, old(sc.View()), sc.View())
    ensures e == RequestAnswer(old(sc.table), sc.advMaxStreams, sc.unackedSettings, f)
    ensures sc.table == if old(sc.table.curClientStreams) + 1 > sc.advMaxStreams then old(sc.table)
                        else OpenIn(old(sc.table), f.id, RequestStream(f, e, sc.windows.initialWindowSize))
  {
    ghost var c := sc.View();
    RestsBut(c, f.id);
    CountersSmall(c);
    assert Holds(c, InIds);
    if (sc.table.curClientStreams + 1) % UINT32 > sc.advMaxStreams {
      return StreamErr(f.id, if sc.unackedSettings == 0 then PROTOCOL_ERROR else REFUSED_STREAM);
    }
    OpenRequest(sc, f.id, if f.endStream then HalfClosedRemote else Open);
    if f.dependsOnItself || f.malformed {
      return StreamErr(f.id, PROTOCOL_ERROR);
    }
    AttachBody(sc, f.id, !f.endStream, f.contentLength);
    e := NoErr;
  }

  /** A request body starts with an empty pipe; without one, nothing more is declared. */
  method AttachBody(sc: ServerConn, id: nat, bodyOpen: bool, contentLength: int)
    requires RestingBut(sc.View(), id) && id in sc.table.all && bodyOpen == (sc.table.all[id].state == Open)
    requires sc.table.all[id] == Fresh(sc.table.all[id].state, sc.windows.initialWindowSize)
    modifies sc`table
    ensures Resting(sc.View()) && Looked(false, old(sc.View()), sc.View())
    ensures sc.table == old(sc.table).(all := old(sc.table.all)[id := old(sc.table.all[id]).(
                          body := if bodyOpen then Some(Body(0, false)) else None,
                          declBodyBytes := if bodyOpen then contentLength else 0)])
  {
    ghost var c := sc.View();
    var st := sc.table.all[id].(body := if bodyOpen then Some(Body(0, false)) else None,
                                declBodyBytes := if bodyOpen then contentLength else 0);
    SameStateInv(c, id, st);
    SetExactBut(c.table.all, id, st);
    ExactButOne(c.table.all[id := st], id);
    sc.table := sc.table.(all := sc.table.all[id := st]);
  }

  method ProcessTrailerHeaders(sc: ServerConn, f: Headers) returns (r: Run, e: Err)
    requires Resting(sc.View()) && f.id in sc.table.streams && f.id in sc.table.all
    modifies sc`table
    ensures Halted(r, sc.trace) && TrailersHandled(old(sc.View()), f, r, e, sc.View())
    ensures r.Fine? ==> Answered(sc.View(), e)
    ensures r.Fine? ==> Looked(false, old(sc.View()), sc.View())
  {
    e := NoErr;
    ghost var c := sc.View();
    if sc.table.all[f.id].gotTrailerHeader {
      return Fine, ConnErr(PROTOCOL_ERROR);
    }
    var st := sc.table.all[f.id].(gotTrailerHeader := true);
    assert Holds(c, InLedgers) && SolventAt(c.table.all, f.id) && ExactAt(c.table.all, f.id);
    SameStateInv(c, f.id, st);
    SetExact(c.table.all, f.id, st);
    sc.table := sc.table.(all := sc.table.all[f.id := st]);
    RestsBut(sc.View(), f.id);
    if !f.endStream || f.malformed {
      return Fine, StreamErr(f.id, PROTOCOL_ERROR);
    }
    :- EndStream(sc, f.id);
    r := Fine;
  }

  // ----- SETTINGS -----

  /** Every mapped stream's window moves by the difference, in any order, until one would overflow. */
  method ProcessInitialWindowSize(sc: ServerConn, val: int32) returns (e: Err)
    requires Resting(sc.View()) && val >= 0
    modifies sc`table, sc`windows
    ensures Resting(sc.View()) && sc.View() == With(old(sc.View()), OutboundOf(sc.View()))
    ensures var o, s := old(OutboundOf(sc.View())), Setting(INITIAL_WINDOW_SIZE, val);
      && e == Refusal(o, sc.table.streams, s)
      && if e == NoErr then OutboundOf(sc.View()) == Applied(o, sc.table.streams, s)
         else PartlyApplied(o, sc.table.streams, s, OutboundOf(sc.View()))
  {
    ghost var c := sc.View();
    ghost var o, s := OutboundOf(c), Setting(INITIAL_WINDOW_SIZE, val);
    assert Holds(c, InWindows);
    var growth := Growth(sc.windows, val);
    sc.windows := sc.windows.(initialWindowSize := val);
    WindowsInv(c, sc.View());
    var left := sc.table.streams;
    ghost var done := {};
    while left != {}
      invariant Resting(sc.View()) && sc.windows == c.windows.(initialWindowSize := val)
      invariant sc.table == c.table.(all := sc.table.all) && done + left == sc.table.streams && done !! left
      invariant Regrown(o.all, sc.table.all, done, growth)
      decreases |left|
    {
      var id :| id in left;
      var ok := MoveNext(sc, id, growth, o.all, done);
      if !ok {
        assert OverflowsAt(o, s, id);
        return ConnErr(FLOW_CONTROL_ERROR);
      }
      left, done := left - {id}, done + {id};
    }
    assert done == sc.table.streams;
    RegrownFits(o, sc.table.all, sc.table.streams, s);
    e := NoErr;
  }

  /** One more window moves, after those of done. */
  method MoveNext(sc: ServerConn, id: nat, growth: int32, ghost all: Streams, ghost done: set<nat>) returns (ok: bool)
    requires Resting(sc.View()) && id in sc.table.streams && id !in done && Regrown(all, sc.table.all, done, growth)
    modifies sc`table
    ensures Resting(sc.View()) && sc.table == old(sc.table).(all := sc.table.all)
    ensures Regrown(all, sc.table.all, if ok then done + {id} else done, growth)
    ensures !ok ==> id in all && !AddAccepts(all[id].flow, growth)
  {
    ghost var was := sc.table.all;
    assert RegrownAt(all, was, done, growth, id);
    ok := MoveWindow(sc, id, growth);
    if ok {
      RegrowOne(all, was, done, growth, id);
    }
  }

  method MoveWindow(sc: ServerConn, id: nat, growth: int32) returns (ok: bool)
    requires Resting(sc.View()) && id in sc.table.streams
    modifies sc`table
    ensures Resting(sc.View()) && id in old(sc.table.all) && ok == AddAccepts(old(sc.table.all)[id].flow, growth)
    ensures var s := old(sc.table.all)[id];
            sc.table == if !ok then old(sc.table)
                        else old(sc.table).(all := old(sc.table.all)[id := s.(flow := Wrap32(s.flow + growth))])
  {
    ghost var c := sc.View();
    assert Holds(c, InMap) && MappedAt(c.table.all, c.table.streams, id) && Holds(c, InLedgers);
    assert SolventAt(c.table.all, id);
    var st := sc.table.all[id];
    ok := AddAccepts(st.flow, growth);
    if ok {
      var st' := st.(flow := Wrap32(st.flow + growth));
      assert ExactAt(c.table.all, id);
      SameStateInv(c, id, st');
      SetExact(c.table.all, id, st');
      sc.table := sc.table.(all := sc.table.all[id := st']);
    }
  }

  /** One entry: each changes its own field. */
  method ProcessSetting(sc: ServerConn, s: Setting) returns (e: Err)
    requires Resting(sc.View())
    modifies sc`table, sc`windows, sc`pushEnabled, sc`clientMaxStreams
    ensures Resting(sc.View()) && sc.View() == With(old(sc.View()), OutboundOf(sc.View()))
    ensures e == Refusal(old(OutboundOf(sc.View())), sc.table.streams, s)
    ensures SettingError(s) != NoErr ==> unchanged(sc)
    ensures e == NoErr ==> OutboundOf(sc.View()) == Applied(old(OutboundOf(sc.View())), sc.table.streams, s)
    ensures e != NoErr && SettingError(s) == NoErr ==>
              PartlyApplied(old(OutboundOf(sc.View())), sc.table.streams, s, OutboundOf(sc.View()))
    ensures sc.pushEnabled == (if e == NoErr && s.id == ENABLE_PUSH then s.val != 0 else old(sc.pushEnabled))
    ensures sc.clientMaxStreams
         == (if e == NoErr && s.id == MAX_CONCURRENT_STREAMS then s.val else old(sc.clientMaxStreams))
  {
    e := SettingError(s);
    if e.ConnErr? {
      return;
    }
    ghost var c := sc.View();
    assert Holds(c, InWindows);
    if s.id == ENABLE_PUSH {
      sc.pushEnabled := s.val != 0;
    } else if s.id == MAX_CONCURRENT_STREAMS {
      sc.clientMaxStreams := s.val;
    } else if s.id == INITIAL_WINDOW_SIZE {
      e := ProcessInitialWindowSize(sc, s.val);
    } else if s.id == MAX_FRAME_SIZE {
      sc.windows := sc.windows.(maxFrameSize := s.val);
      WindowsInv(c, sc.View());
    }
  }

  /** What the client's settings are besides windows. */
  datatype Peer = Peer(pushEnabled: bool, clientMaxStreams: nat)

  ghost function PeerOf(sc: ServerConn): Peer
    reads sc`pushEnabled, sc`clientMaxStreams
  {
    Peer(sc.pushEnabled, sc.clientMaxStreams)
  }

  /** The last values win. */
  function Told(p: Peer, settings: seq<Setting>): Peer {
    var push, most := LastValue(settings, ENABLE_PUSH), LastValue(settings, MAX_CONCURRENT_STREAMS);
    Peer(if push.Some? then push.value != 0 else p.pushEnabled, if most.Some? then most.value else p.clientMaxStreams)
  }

  /** The entries of settings, in order, up to the first that is refused. */
  method ApplySettings(sc: ServerConn, settings: seq<Setting>) returns (e: Err)
    requires Resting(sc.View())
    modifies sc`table, sc`windows, sc`pushEnabled, sc`clientMaxStreams
    ensures Resting(sc.View()) && SettingsApplied(old(sc.View()), old(PeerOf(sc)), settings, sc.View(), PeerOf(sc), e)
  {
    ghost var c, p := sc.View(), PeerOf(sc);
    ghost var o, streams := OutboundOf(c), sc.table.streams;
    for i := 0 to |settings|
      invariant Resting(sc.View()) && sc.View() == With(c, AppliedAll(o, streams, settings[..i]))
      invariant PeerOf(sc) == Told(p, settings[..i])
      invariant forall j :: 0 <= j < i ==> !RejectsAt(o, streams, settings, j)
    {
      OneMore(o, streams, settings, i);
      ghost var d := sc.View();
      e := ProcessSetting(sc, settings[i]);
      if e.ConnErr? {
        TakenIs(o, streams, settings, i);
        return;
      }
      assert !RejectsAt(o, streams, settings, i);
    }
    TakenIs(o, streams, settings, |settings|);
    assert settings[..|settings|] == settings;
    e := NoErr;
  }

  /** Every entry before the first refused one has taken effect; that one has none, or only on some windows. */
  ghost predicate SettingsApplied(c: Conn, p: Peer, settings: seq<Setting>, d: Conn, p': Peer, e: Err) {
    var o, streams := OutboundOf(c), c.table.streams;
    var k := Taken(o, streams, settings);
    var o' := AppliedAll(o, streams, settings[..k]);
    && p' == Told(p, settings[..k])
    && e == (if k == |settings| then NoErr else Refusal(o', streams, settings[k]))
    && d == With(c, OutboundOf(d))
    && if Overflowing(c, settings) then PartlyApplied(o', streams, settings[k], OutboundOf(d)) else OutboundOf(d) == o'
  }

  function AckDueIn(c: Conn): Conn {
    c.(flags := c.flags.(needToSendSettingsAck := true), trace := c.trace + [AckDue])
  }

  /**
   * SETTINGS and their answer: a frame taken whole is acknowledged, a refused one may have moved windows with nothing
   * sent for it.
   */
  ghost predicate SettingsHandled(c: Conn, p: Peer, settings: seq<Setting>, r: Run, e: Err, d: Conn, p': Peer) {
    var o, streams := OutboundOf(c), c.table.streams;
    if Taken(o, streams, settings) < |settings| then r.Fine? && SettingsApplied(c, p, settings, d, p', e)
    else
      var m := AckDueIn(With(c, AppliedAll(o, streams, settings)));
      && p' == Told(p, settings) && (r.Fine? ==> e == NoErr && m.trace <= d.trace && NothingLeft(d))
      && (c.flags.writingFrame ==> r.Fine? && d == m) && (Calm(m) ==> r.Fine? && Drains(m, d))
  }

  method ProcessSettings(sc: ServerConn, ack: bool, settings: seq<Setting>) returns (r: Run, e: Err)
    requires Resting(sc.View())
    modifies sc`table, sc`queues, sc`windows, sc`flags, sc`inFlight, sc`closing, sc`trace, sc`unackedSettings
    modifies sc`pushEnabled, sc`clientMaxStreams
    ensures Stopped(r, sc.trace)
    ensures r.Fine? ==> Resting(sc.View()) && !e.StreamErr? && !e.FlowErr?
    ensures ack ==> r.Fine? && e == (if sc.unackedSettings < 0 then ConnErr(PROTOCOL_ERROR) else NoErr)
                    && sc.unackedSettings == old(sc.unackedSettings) - 1 && sc.View() == old(sc.View())
                    && PeerOf(sc) == old(PeerOf(sc))
    ensures !ack ==> SettingsHandled(old(sc.View()), old(PeerOf(sc)), settings, r, e, sc.View(), PeerOf(sc))
                     && sc.unackedSettings == old(sc.unackedSettings)
  {
    if ack {
      sc.unackedSettings := sc.unackedSettings - 1;
      return Fine, if sc.unackedSettings < 0 then ConnErr(PROTOCOL_ERROR) else NoErr;
    }
    e := ApplySettings(sc, settings);
    if e.ConnErr? {
      return Fine, e;
    }
    AllTaken(settings);
    r := Acknowledge(sc);
  }

  method Acknowledge(sc: ServerConn) returns (r: Run)
    requires Resting(sc.View())
    modifies sc`table, sc`queues, sc`windows, sc`flags, sc`inFlight, sc`closing, sc`trace
    ensures Stopped(r, sc.trace)
    ensures r.Fine? ==> Resting(sc.View()) && NothingLeft(sc.View()) && AckDueIn(old(sc.View())).trace <= sc.trace
    ensures old(sc.flags.writingFrame) ==> r.Fine? && sc.View() == AckDueIn(old(sc.View()))
    ensures Calm(AckDueIn(old(sc.View()))) ==> r.Fine? && Drains(AckDueIn(old(sc.View())), sc.View())
  {
    AckOwed(sc.View());
    sc.flags := sc.flags.(needToSendSettingsAck := true);
    sc.trace := sc.trace + [AckDue];
    ghost var d := sc.View();
    r := sc.ScheduleFrameWrite();
    if r.Fine? {
      assert Kept(d, sc.View(), 0, {}, ToTrace);
      ProgressRests(d, sc.View(), 0, {});
    }
  }

  lemma AllTaken(settings: seq<Setting>)
    ensures settings[..|settings|] == settings
  {
  }

  lemma AckOwed(c: Conn)
    requires Resting(c)
    ensures Resting(AckDueIn(c))
  {
    assert Holds(c, InWriter) && Holds(c, InTrace);
    ReachStep(c.trace, Now(c), AckDue);
    FlagsInv(c, AckDueIn(c));
  }

  // ----- the other frames -----

  /** How a window update is answered. */
  function WindowAnswer(t: Table, connFlow: int32, id: nat, incr: int32): Err {
    if id == 0 then (if AddAccepts(connFlow, incr) then NoErr else FlowErr)
    else if StateOf(t, id) == Idle then ConnErr(PROTOCOL_ERROR)
    else if id in t.streams && id in t.all && !AddAccepts(t.all[id].flow, incr) then StreamErr(id, FLOW_CONTROL_ERROR)
    else NoErr
  }

  function Widened(c: Conn, id: nat, incr: int32): Conn {
    if id == 0 then c.(windows := c.windows.(connFlow := Wrap32(c.windows.connFlow + incr)))
    else if id in c.table.streams && id in c.table.all then
      Replaced(c, id, c.table.all[id].(flow := Wrap32(c.table.all[id].flow + incr)))
    else c
  }

  /** The window grows first; then whatever can be written is. */
  ghost predicate WindowHandled(c: Conn, id: nat, incr: int32, r: Run, e: Err, d: Conn) {
    && (r.Fine? ==> e == WindowAnswer(c.table, c.windows.connFlow, id, incr))
    && (WindowAnswer(c.table, c.windows.connFlow, id, incr) != NoErr ==> r.Fine? && d == c)
    && (r.Fine? && e == NoErr ==> Progress(Widened(c, id, incr), d, 0, {}))
    && (r.Fine? && e == NoErr && c.flags.writingFrame ==> d == Widened(c, id, incr))
  }

  /** A window that is still of use has grown. */
  predicate UpdateLooks(c: Conn, id: nat, incr: int32) {
    WindowAnswer(c.table, c.windows.connFlow, id, incr) == NoErr && (id == 0 || id in c.table.streams)
  }

  method ProcessWindowUpdate(sc: ServerConn, id: nat, incr: int32) returns (r: Run, e: Err)
    requires Resting(sc.View()) && incr > 0
    modifies sc`table, sc`queues, sc`windows, sc`flags, sc`inFlight, sc`closing, sc`trace
    ensures Stopped(r, sc.trace)
    ensures r.Fine? ==> Answered(sc.View(), e)
    ensures WindowHandled(old(sc.View()), id, incr, r, e, sc.View())
    ensures r.Fine? ==> Looked(UpdateLooks(old(sc.View()), id, incr), old(sc.View()), sc.View())
  {
    e := NoErr;
    ghost var c := sc.View();
    RestsBut(c, id);
    if id != 0 {
      if sc.State(id) == Idle {
        return Fine, ConnErr(PROTOCOL_ERROR);
      }
      if id !in sc.table.streams {
        SameProgress(c);
        return Fine, NoErr;
      }
      var ok := MoveWindow(sc, id, incr);
      if !ok {
        return Fine, StreamErr(id, FLOW_CONTROL_ERROR);
      }
    } else {
      if !AddAccepts(sc.windows.connFlow, incr) {
        return Fine, FlowErr;
      }
      assert Holds(c, InWindows);
      sc.windows := sc.windows.(connFlow := Wrap32(sc.windows.connFlow + incr));
      WindowsInv(c, sc.View());
    }
    ghost var d := sc.View();
    :- sc.ScheduleFrameWrite();
    ProgressRests(d, sc.View(), 0, {});
    r := Fine;
  }

  predicate ResetHandled(c: Conn, id: nat, r: Run, e: Err, d: Conn) {
    && (r.Fine? ==> e == if StateOf(c.table, id) == Idle then ConnErr(PROTOCOL_ERROR) else NoErr)
    && (r.Fine? && id in c.table.streams ==>
        id !in d.table.streams && id in d.table.all && d.table.all[id].state == Closed)
    && (id !in c.table.streams || StateOf(c.table, id) == Idle ==> r.Fine? && d == c)
    && (id in c.table.streams && id in c.table.all && c.flags.writingFrame ==>
          && Returned(c.windows.connInflow, Buffered(c.table.all[id]), r, d.windows.connInflow)
          && (r.Fine? ==> d.inFlight == c.inFlight))
    && (id in c.table.streams && id in c.table.all && c.flags.writingFrame && c.table.streams != {id} ==>
          ClosesWhole(c, id, r, d))
  }

  /** A stream with unread bytes is closed: they are returned to the window of the connection. */
  predicate ResetLooks(c: Conn, id: nat) {
    id in c.table.streams && id in c.table.all && Buffered(c.table.all[id]) > 0
  }

  method ProcessResetStream(sc: ServerConn, id: nat) returns (r: Run, e: Err)
    requires Resting(sc.View())
    modifies sc`table, sc`queues, sc`windows, sc`flags, sc`inFlight, sc`closing, sc`trace
    ensures Stopped(r, sc.trace)
    ensures r.Fine? ==> Answered(sc.View(), e)
    ensures ResetHandled(old(sc.View()), id, r, e, sc.View())
    ensures r.Fine? && (old(NothingLeft(sc.View())) || ResetLooks(old(sc.View()), id)) ==> NothingLeft(sc.View())
    ensures r.Fine? && id !in old(sc.table.streams) ==> Looked(false, old(sc.View()), sc.View())
  {
    e := NoErr;
    if sc.State(id) == Idle {
      return Fine, ConnErr(PROTOCOL_ERROR);
    }
    if id in sc.table.streams {
      ghost var c := sc.View();
      assert Holds(c, InWriter) && Holds(c, InMap) && MappedAt(c.table.all, c.table.streams, id);
      :- sc.CloseStream(id);
      assert Kept(c, sc.View(), -1, {id}, ToFlight);
      ProgressRests(c, sc.View(), -1, {id});
    }
    r := Fine;
  }

  predicate PingHandled(c: Conn, ack: bool, r: Run, d: Conn) {
    if ack || !PopPermitted(c.flags) then r.Fine? && d == c else r.Fine? ==> c.trace + [Enqueued(PingAck)] <= d.trace
  }

  method ProcessPing(sc: ServerConn, ack: bool) returns (r: Run)
    requires Resting(sc.View())
    modifies sc`table, sc`queues, sc`windows, sc`flags, sc`inFlight, sc`closing, sc`trace
    ensures Stopped(r, sc.trace)
    ensures r.Fine? ==> Resting(sc.View()) && Looked(!ack && PopPermitted(old(sc.flags)), old(sc.View()), sc.View())
    ensures PingHandled(old(sc.View()), ack, r, sc.View())
  {
    if ack || !PopPermitted(sc.flags) {
      return Fine;
    }
    ghost var c := sc.View();
    :- sc.WriteFrame(PingAck);
    ProgressRests(c, sc.View(), 1, {});
    r := Fine;
  }

  method Shut(sc: ServerConn, code: nat) returns (r: Run)
    requires Resting(sc.View())
    modifies sc`table, sc`queues, sc`windows, sc`flags, sc`inFlight, sc`closing, sc`trace
    ensures Stopped(r, sc.trace)
    ensures r.Fine? ==> Resting(sc.View()) && sc.flags.inGoAway
    ensures r.Fine? && !old(sc.flags.inGoAway) ==> sc.flags.goAwayCode == code
    ensures old(sc.flags.inGoAway) ==> r.Fine? && sc.View() == old(sc.View())
    ensures !old(sc.flags.inGoAway) && old(sc.flags.writingFrame) ==>
              r.Fine? && sc.View() == ShuttingDown(old(sc.View()), code)
    ensures !old(sc.flags.inGoAway) && Calm(ShuttingDown(old(sc.View()), code)) ==>
              r.Fine? && Drains(ShuttingDown(old(sc.View()), code), sc.View())
    ensures r.Fine? ==> Looked(!old(sc.flags.inGoAway), old(sc.View()), sc.View())
  {
    ghost var c := sc.View();
    :- sc.GoAwayIn(code);
    ProgressRests(c, sc.View(), 0, {});
    r := Fine;
  }

  method Reset(sc: ServerConn, id: nat) returns (r: Run)
    requires Answered(sc.View(), StreamErr(id, PROTOCOL_ERROR))
    modifies sc`table, sc`queues, sc`windows, sc`flags, sc`inFlight, sc`closing, sc`trace
    ensures Stopped(r, sc.trace)
    ensures r.Fine? ==>
              Resting(sc.View()) && NothingLeft(sc.View()) && old(sc.trace) + [Enqueued(StreamReset(id))] <= sc.trace
    ensures r.Fine? && id in sc.table.streams ==> id in sc.table.all && sc.table.all[id].resetQueued
  {
    ghost var c := sc.View();
    :- sc.ResetStream(id);
    ProgressRestsBut(c, sc.View(), 1, {}, id);
    r := Fine;
  }
}
