/** Runs of the serve loop that end in its panics, each from the start of a connection. */
module ServerPanics {
  import opened Basics
  import opened FlowControl
  import opened Protocol
  import opened ServerTypes
  import opened ServerLedger
  import opened ServerTrace
  import ServerWork
  import opened ServerInvariant
  import opened ServerSettings
  import opened Server
  import opened ServerEvents
  import opened ServerLoop
  import opened ServerRuns

  // ----- a connection at rest -----

  ghost predicate NoneQueued(c: Conn) {
    forall id {:trigger QueueOf(c.queues, id)} :: QueueOf(c.queues, id) == []
  }

  /** No write is under way or due, and nothing is queued. */
  ghost predicate AtRest(c: Conn) {
    Resting(c) && NothingLeft(c) && c.inFlight.None? && !c.flags.inGoAway && NoneQueued(c)
  }

  /** The client's first SETTINGS, which is empty. */
  method Greet(sc: ServerConn)
    requires Staged(sc.View()) && NoneHeld(sc.View()) && !sc.flags.inGoAway
    modifies sc
    ensures Staged(sc.View()) && NoneHeld(sc.View()) && !sc.flags.inGoAway
    ensures sc.table == old(sc.table) && sc.windows == old(sc.windows) && sc.sawFirstSettings
    ensures sc.pushEnabled == old(sc.pushEnabled)
  {
    ghost var c, p := sc.View(), ClientOf(sc);
    ghost var m := AckDueIn(c);
    NoSettings(c);
    CalmElsewhere(c, m);
    var f := SettingsFrame(false, []);
    var r, e, open := Turn(sc, Received(f));
    ghost var r0, d0, p0 :| FrameHandled(c, p, f, r0, e, d0, p0)
        && (e == NoErr ==> r == r0 && sc.View() == d0 && ClientOf(sc) == p0);
    StillHeld(m, sc.View());
  }

  lemma NoSettings(c: Conn)
    ensures Taken(OutboundOf(c), c.table.streams, []) == 0
    ensures With(c, AppliedAll(OutboundOf(c), c.table.streams, [])) == c
  {
    TakenIs(OutboundOf(c), c.table.streams, [], 0);
  }

  /** Writes come to their end, until none is under way and none is due. */
  method Settle(sc: ServerConn)
    requires Staged(sc.View()) && NoneHeld(sc.View()) && !sc.flags.inGoAway
    modifies sc
    ensures AtRest(sc.View())
    ensures sc.table == old(sc.table) && sc.windows == old(sc.windows) && ClientOf(sc) == old(ClientOf(sc))
  {
    while sc.inFlight.Some?
      invariant Staged(sc.View()) && NoneHeld(sc.View()) && !sc.flags.inGoAway
      invariant sc.table == old(sc.table) && sc.windows == old(sc.windows) && ClientOf(sc) == old(ClientOf(sc))
      decreases sc.inFlight.Some?, Due(sc.View())
    {
      ghost var d := sc.View();
      SameButFlush(d, Finishing(d));
      ServerWork.WorkPositive(d.queues, d.table.all);
      var r, e, open := Turn(sc, Wrote);
      StillHeld(Finishing(d), sc.View());
    }
    Emptied(sc.View());
  }

  lemma Emptied(c: Conn)
    requires Staged(c) && NoneHeld(c) && !c.flags.inGoAway && c.inFlight.None?
    ensures AtRest(c)
  {
    assert Holds(c, InWriter);
    forall id: nat ensures QueueOf(c.queues, id) == [] {
      assert HeldBack(QueueOf(c.queues, id)) == [];
      assert !Ready(id, c.queues, c.table.all, c.windows.connFlow, c.windows.maxFrameSize);
    }
  }

  method Connect(advMaxStreams: nat, habit: Habit) returns (sc: ServerConn)
    ensures fresh(sc) && sc.advMaxStreams == advMaxStreams && sc.habit == habit
    ensures AtRest(sc.View()) && sc.sawFirstSettings && sc.pushEnabled
    ensures sc.table == Table(map[], {}, 0, 0, 0, 0)
    ensures sc.windows == Windows(INITIAL_WINDOW, INITIAL_WINDOW, INITIAL_WINDOW, 16384)
  {
    var r;
    sc, r := Begin(advMaxStreams, habit);
    Greet(sc);
    Settle(sc);
  }

  /** The headers of a request. */
  method Request(sc: ServerConn, id: nat, endStream: bool)
    requires Resting(sc.View()) && !sc.flags.inGoAway && sc.sawFirstSettings
    requires sc.table.maxClientStreamID < id < MAX_ID && id % 2 == 1 && id !in sc.table.streams
    requires sc.table.curClientStreams + 1 <= sc.advMaxStreams
    modifies sc
    ensures Resting(sc.View()) && Looked(false, old(sc.View()), sc.View()) && ClientOf(sc) == old(ClientOf(sc))
    ensures sc.View() == old(sc.View()).(table := sc.table, trace := sc.trace)
    ensures sc.table == OpenIn(old(sc.table).(maxClientStreamID := id), id,
                               RequestStream(Headers(id, endStream, false, false, -1), NoErr,
                                             sc.windows.initialWindowSize))
  {
    ghost var c, p := sc.View(), ClientOf(sc);
    var f := HeadersFrame(Headers(id, endStream, false, false, -1));
    var r, e, open := Turn(sc, Received(f));
    ghost var r0, d0, p0 :| FrameHandled(c, p, f, r0, e, d0, p0)
        && (e == NoErr ==> r == r0 && sc.View() == d0 && ClientOf(sc) == p0);
  }

  /** Its body: n bytes without padding. */
  method Upload(sc: ServerConn, id: nat, n: nat, endStream: bool)
    requires Resting(sc.View()) && !sc.flags.inGoAway && sc.sawFirstSettings && Awaits(sc.table, id)
    requires n < MAX_LENGTH && n <= sc.table.all[id].inflow && n <= sc.windows.connInflow && id != 0
    requires sc.table.all[id].declBodyBytes == -1
    modifies sc
    ensures Resting(sc.View()) && Looked(false, old(sc.View()), sc.View()) && ClientOf(sc) == old(ClientOf(sc))
    ensures DataArrived(old(sc.View()), id, n, endStream, sc.View())
  {
    ghost var c, p := sc.View(), ClientOf(sc);
    var f := DataFrame(id, n, n, endStream);
    var r, e, open := Turn(sc, Received(f));
    ghost var r0, d0, p0 :| FrameHandled(c, p, f, r0, e, d0, p0)
        && (e == NoErr ==> r == r0 && sc.View() == d0 && ClientOf(sc) == p0);
  }

  /** Two requests whose bodies are to come. */
  method TwoRequests(advMaxStreams: nat, habit: Habit) returns (sc: ServerConn)
    requires advMaxStreams > 1
    ensures fresh(sc) && sc.advMaxStreams == advMaxStreams && sc.habit == habit
    ensures AtRest(sc.View()) && sc.sawFirstSettings && sc.pushEnabled
    ensures sc.table.streams == {1, 3} && Awaits(sc.table, 1) && sc.table.all[1].state == Open
    ensures sc.table.all[1].inflow == INITIAL_WINDOW && sc.table.all[1].declBodyBytes == -1
    ensures sc.windows == Windows(INITIAL_WINDOW, INITIAL_WINDOW, INITIAL_WINDOW, 16384)
  {
    sc := Connect(advMaxStreams, habit);
    Request(sc, 1, false);
    Request(sc, 3, false);
  }

  // ----- a write under way -----

  /** Frame w is with a writer goroutine; nothing is due or queued behind it. */
  ghost predicate Busy(c: Conn, w: Write) {
    && Resting(c) && c.inFlight == Some(w) && NoneQueued(c)
    && !c.flags.inGoAway && !c.flags.needToSendGoAway && !c.flags.needToSendSettingsAck
  }

  predicate Answerable(c: Conn, habit: Habit, w: Write) {
    && FromHandler(w) && !w.DataWrite? && !w.Continue100? && LeftToWriter(w, habit)
    && w.stream != 0 && w.stream in c.table.streams && w.stream in c.table.all
    && c.table.all[w.stream].state in {Open, HalfClosedRemote}
  }

  lemma FirstInLine(c: Conn, habit: Habit, w: Write)
    requires AtRest(c) && Answerable(c, habit, w)
    ensures NextFrom(Requested(c, w), habit, w.stream)
    ensures Requested(c, w).queues == c.queues[w.stream := [w]]
  {
    var x := Requested(c, w);
    assert QueueOf(c.queues, w.stream) == [] && [] + [w] == [w];
    assert Holds(c, InWriter);
    forall k: nat | ReadyIn(x, k) ensures k == w.stream {
      assert QueueOf(c.queues, k) == [];
    }
  }

  /** The handler's first frame goes to a writer goroutine. */
  method Respond(sc: ServerConn, w: Write)
    requires AtRest(sc.View()) && Answerable(sc.View(), sc.habit, w)
    modifies sc
    ensures Busy(sc.View(), w) && sc.table == HeadersNoted(old(sc.View()), w).table && sc.windows == old(sc.windows)
    ensures ClientOf(sc) == old(ClientOf(sc))
  {
    ghost var c := sc.View();
    FirstInLine(c, sc.habit, w);
    var r, e, open := Turn(sc, WantWrite(w));
    InFlightAlone(c, w, sc.View());
  }

  lemma InFlightAlone(c: Conn, w: Write, d: Conn)
    requires AtRest(c) && HasStream(w) && Requested(c, w).queues == c.queues[w.stream := [w]]
    requires MayPop(Requested(c, w), w.stream, 0) && !w.DataWrite? && d == Launched(Requested(c, w), w.stream)
    ensures NoneQueued(d) && d.inFlight == Some(w) && d.windows == c.windows
    ensures d.table == HeadersNoted(c, w).table
    ensures !d.flags.inGoAway && !d.flags.needToSendGoAway && !d.flags.needToSendSettingsAck
  {
    assert Holds(c, InWriter);
    assert d.queues == c.queues[w.stream := [w][1..]];
    forall id: nat ensures QueueOf(d.queues, id) == [] {
      assert QueueOf(c.queues, id) == [];
    }
  }

  // ----- two HEADERS that end a request -----

  /** The second finds no body to end. */
  method SecondHeadersPanic(advMaxStreams: nat, habit: Habit) returns (sc: ServerConn, r: Run)
    requires advMaxStreams > 0
    ensures r == Panicked(NilPipe)
  {
    sc := Connect(advMaxStreams, habit);
    Request(sc, 1, true);
    var e, open;
    r, e, open := Turn(sc, Received(HeadersFrame(Headers(1, true, false, false, 0))));
  }

  // ----- a stream that is closed twice -----

  /**
   * A handler's panic is being told to the client when the client resets the stream itself: the end of that write
   * closes the stream a second time.
   */
  method ResetTwicePanics(advMaxStreams: nat) returns (sc: ServerConn, r: Run)
    requires advMaxStreams > 0
    ensures r == Panicked(CloseOnClosed)
  {
    var w := HandlerPanicRST(1);
    sc := Connect(advMaxStreams, Habit({w}, {}));
    Request(sc, 1, true);
    Respond(sc, w);
    ClientResets(sc, w);
    var e, open;
    r, e, open := Turn(sc, Wrote);
  }

  method ClientResets(sc: ServerConn, w: Write)
    requires Busy(sc.View(), w) && sc.sawFirstSettings && 1 in sc.table.streams && 1 in sc.table.all
    requires Buffered(sc.table.all[1]) == 0
    modifies sc
    ensures Resting(sc.View()) && sc.inFlight == Some(w) && 1 in sc.table.all && sc.table.all[1].state == Closed
  {
    ghost var c, p := sc.View(), ClientOf(sc);
    assert Holds(c, InWriter);
    var f := ResetFrame(1);
    var r, e, open := Turn(sc, Received(f));
    ghost var r0, d0, p0 :| FrameHandled(c, p, f, r0, e, d0, p0)
        && (e == NoErr ==> r == r0 && sc.View() == d0 && ClientOf(sc) == p0);
  }

  // ----- a promise behind the end of its stream -----

  /** A promise is asked for while the last frame of the response is on its way. */
  method AskPush(sc: ServerConn, w: Write)
    requires Busy(sc.View(), w) && sc.pushEnabled && 1 in sc.table.streams && 1 in sc.table.all
    requires sc.table.all[1].state in {Open, HalfClosedRemote}
    modifies sc
    ensures Resting(sc.View()) && sc.View() == Requested(old(sc.View()), PushPromise(1))
    ensures sc.queues == old(sc.queues)[1 := [PushPromise(1)]]
  {
    ghost var c := sc.View();
    assert Holds(c, InWriter) && QueueOf(c.queues, 1) == [] && [] + [PushPromise(1)] == [PushPromise(1)];
    var r, e, open := Turn(sc, WantPush(1));
  }

  /** The response to an open request ends: what is still queued for its stream can not be started. */
  lemma PromiseOnHalfClosed(c: Conn, habit: Habit, w: Write)
    requires Busy(c, w) && w == ResHeaders(1, true) && 1 in c.table.streams && 1 in c.table.all
    requires c.table.all[1].state == Open
    ensures FatalEnd(Finishing(Requested(c, PushPromise(1))), habit, w, WriteOnHalfClosed)
  {
    var d := Finishing(Requested(c, PushPromise(1)));
    var x := Requested(EndedHere(d, 1), StreamReset(1));
    assert QueueOf(c.queues, 1) == [] && [] + [PushPromise(1)] == [PushPromise(1)];
    assert x.queues == c.queues[1 := [PushPromise(1)]][1 := [PushPromise(1)] + [StreamReset(1)]];
    assert x.queues[1][0] == PushPromise(1);
    forall k: nat | ReadyIn(x, k) ensures k == 1 {
      assert QueueOf(c.queues, k) == [];
    }
    assert DoomedAt(x, habit, WriteOnHalfClosed, 1);
  }

  method WriteOnHalfClosedPanic(advMaxStreams: nat, habit: Habit) returns (sc: ServerConn, r: Run)
    requires advMaxStreams > 0
    ensures r == Panicked(WriteOnHalfClosed)
  {
    var w := ResHeaders(1, true);
    sc := Connect(advMaxStreams, habit);
    Request(sc, 1, false);
    Respond(sc, w);
    PromiseOnHalfClosed(sc.View(), habit, w);
    AskPush(sc, w);
    var e, open;
    r, e, open := Turn(sc, Wrote);
  }

  /** The same for a request that is over, if it left bytes unread and another stream keeps the connection open. */
  lemma PromiseOnClosed(c: Conn, habit: Habit, w: Write)
    requires Busy(c, w) && w == ResHeaders(1, true) && 1 in c.table.streams && 1 in c.table.all
    requires c.table.all[1].state == HalfClosedRemote && Buffered(c.table.all[1]) > 0 && c.table.streams != {1}
    requires AtOnce(ConnWindowUpdate, habit)
    ensures FatalEnd(Finishing(Requested(c, PushPromise(1))), habit, w, WriteOnClosed)
  {
    var d := Finishing(Requested(c, PushPromise(1)));
    var x := Requested(Unmapped(d, 1), ConnWindowUpdate);
    assert QueueOf(c.queues, 1) == [] && [] + [PushPromise(1)] == [PushPromise(1)];
    assert QueueOf(c.queues, 0) == [] && [] + [ConnWindowUpdate] == [ConnWindowUpdate];
    assert x.queues == c.queues[1 := [PushPromise(1)]][0 := [ConnWindowUpdate]];
    forall k: nat | ReadyIn(x, k) && k != 1 ensures k == 0 {
      assert QueueOf(c.queues, k) == [];
    }
    assert DoomedAt(x, habit, WriteOnClosed, 1);
  }

  method WriteOnClosedPanic(advMaxStreams: nat) returns (sc: ServerConn, r: Run)
    requires advMaxStreams > 1
    ensures r == Panicked(WriteOnClosed)
  {
    var w := ResHeaders(1, true);
    var habit := Habit({}, {ConnWindowUpdate});
    sc := TwoRequests(advMaxStreams, habit);
    Upload(sc, 1, 10, true);
    Respond(sc, w);
    PromiseOnClosed(sc.View(), habit, w);
    AskPush(sc, w);
    var e, open;
    r, e, open := Turn(sc, Wrote);
  }

  // ----- a window that overflows -----

  /**
   * A write is under way, stream 1 is open, and i streams have been opened and reset since. Each has added a whole
   * window to that of the connection: its bytes were returned when it was closed, and again when they were read.
   */
  ghost predicate Credited(c: Conn, i: nat) {
    && Resting(c) && c.flags.writingFrame && !c.flags.inGoAway && c.table.streams == {1}
    && c.table.curClientStreams == 1 && c.table.maxClientStreamID == 2 * i + 1 && c.advMaxStreams > 1
    && c.windows.connInflow == INITIAL_WINDOW * (i + 1)
  }

  /** One more stream, which has sent a whole window of data. */
  ghost predicate Filled(c: Conn, i: nat, id: nat) {
    && Resting(c) && c.flags.writingFrame && !c.flags.inGoAway && c.table.streams == {1, id}
    && c.table.curClientStreams == 2 && c.table.maxClientStreamID == id == 2 * i + 3 && c.advMaxStreams > 1
    && c.windows.connInflow == INITIAL_WINDOW * i
    && id in c.table.all && c.table.all[id].state == Open && c.table.all[id].unreported == 0
    && c.table.all[id].body == Some(Body(INITIAL_WINDOW, false))
  }

  method Fill(sc: ServerConn, i: nat, id: nat)
    requires Credited(sc.View(), i) && sc.sawFirstSettings && id == 2 * i + 3 < MAX_ID
    modifies sc
    ensures Filled(sc.View(), i, id) && sc.sawFirstSettings
  {
    Request(sc, id, false);
    Upload(sc, id, INITIAL_WINDOW, false);
  }

  /** The stream is reset: its bytes are returned to the connection, and stay in its pipe. */
  ghost predicate Returning(c: Conn, i: nat, id: nat, buffered: nat, unreported: nat) {
    && Resting(c) && c.flags.writingFrame && !c.flags.inGoAway && c.table.streams == {1}
    && c.table.curClientStreams == 1 && c.table.maxClientStreamID == id == 2 * i + 3 && c.advMaxStreams > 1
    && c.windows.connInflow == INITIAL_WINDOW * (i + 1)
    && id in c.table.all && c.table.all[id].state == Closed && c.table.all[id].unreported == unreported
    && c.table.all[id].body.Some? && c.table.all[id].body.value.buffered == buffered
  }

  lemma CloseReturns(c: Conn, i: nat, id: nat, d: Conn)
    requires Filled(c, i, id) && INITIAL_WINDOW * (i + 1) <= MAX_INT32
    requires Resting(d) && d == Forgotten(BodyReturned(Unmapped(c, id), id), id)
    ensures Returning(d, i, id, INITIAL_WINDOW, 0)
  {
    assert c.table.streams - {id} == {1};
  }

  method ResetFull(sc: ServerConn, i: nat, id: nat)
    requires Filled(sc.View(), i, id) && sc.sawFirstSettings && INITIAL_WINDOW * (i + 1) <= MAX_INT32
    modifies sc
    ensures Returning(sc.View(), i, id, INITIAL_WINDOW, 0) && sc.sawFirstSettings
  {
    ghost var c, p := sc.View(), ClientOf(sc);
    assert 1 in c.table.streams && c.table.streams != {id};
    var f := ResetFrame(id);
    var r, e, open := Turn(sc, Received(f));
    ghost var r0, d0, p0 :| FrameHandled(c, p, f, r0, e, d0, p0)
        && (e == NoErr ==> r == r0 && sc.View() == d0 && ClientOf(sc) == p0);
    CloseReturns(c, i, id, sc.View());
  }

  /** Its handler reads what it can still read. */
  method ReadOn(sc: ServerConn, i: nat, id: nat)
    requires Returning(sc.View(), i, id, INITIAL_WINDOW, 0) && sc.sawFirstSettings
    modifies sc
    ensures Returning(sc.View(), i, id, 0, INITIAL_WINDOW) && sc.sawFirstSettings
  {
    var r, e, open := Turn(sc, HandlerReads(id, INITIAL_WINDOW));
  }

  /** The read is reported, and the bytes are returned to the connection once more. */
  method Report(sc: ServerConn, i: nat, id: nat) returns (r: Run)
    requires Returning(sc.View(), i, id, 0, INITIAL_WINDOW) && sc.sawFirstSettings
    modifies sc
    ensures if INITIAL_WINDOW * (i + 2) <= MAX_INT32 then r.Fine? && Credited(sc.View(), i + 1) && sc.sawFirstSettings
            else r == Panicked(ConnWindowOverflow)
  {
    var e, open;
    r, e, open := Turn(sc, BodyRead(id, INITIAL_WINDOW));
  }

  /** Every such stream stays within both windows; with the 32768th the window of the connection overflows. */
  method WindowOverflowPanic(advMaxStreams: nat, habit: Habit) returns (sc: ServerConn, r: Run)
    requires advMaxStreams > 1
    ensures r == Panicked(ConnWindowOverflow)
  {
    sc := FirstCredit(advMaxStreams, habit);
    var i := 0;
    r := Fine;
    while r.Fine?
      invariant r.Fine? ==> Credited(sc.View(), i) && sc.sawFirstSettings && INITIAL_WINDOW * (i + 1) <= MAX_INT32
      invariant r.Panicked? ==> r == Panicked(ConnWindowOverflow)
      decreases r.Fine?, MAX_INT32 - INITIAL_WINDOW * i
    {
      Fill(sc, i, 2 * i + 3);
      ResetFull(sc, i, 2 * i + 3);
      ReadOn(sc, i, 2 * i + 3);
      r := Report(sc, i, 2 * i + 3);
      i := i + 1;
    }
  }

  method FirstCredit(advMaxStreams: nat, habit: Habit) returns (sc: ServerConn)
    requires advMaxStreams > 1
    ensures fresh(sc) && Credited(sc.View(), 0) && sc.sawFirstSettings
  {
    sc := Connect(advMaxStreams, habit);
    Request(sc, 1, false);
    Respond(sc, ResHeaders(1, false));
    assert Holds(sc.View(), InWriter);
  }
}
