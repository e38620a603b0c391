/** The serve loop over any sequence of events, and what every run of it keeps. */
module ServerLoop {
  import opened Basics
  import opened FlowControl
  import opened Protocol
  import opened ServerTypes
  import opened ServerCounts
  import opened ServerLedger
  import opened ServerTrace
  import ServerWork
  import opened ServerInvariant
  import opened ServerSettings
  import opened Server
  import opened ServerEvents

  /** A frame as the framer hands it over: ids have 31 bits, lengths 24, increments are positive. */
  datatype Frame =
    | SettingsFrame(ack: bool, settings: seq<Setting>)
    | HeadersFrame(headers: Headers)
    | WindowUpdateFrame(id: nat, incr: nat)
    | PingFrame(ack: bool)
    | DataFrame(id: nat, length: nat, dataLen: nat, endStream: bool)
    | ResetFrame(id: nat)
    | PriorityFrame(id: nat, dependsOnItself: bool)
    | GoAwayFrame
    | PushPromiseFrame
    | OtherFrame

  predicate WellFormed(f: Frame) {
    match f
    case HeadersFrame(h) => h.id < MAX_ID
    case WindowUpdateFrame(_, incr) => 0 < incr <= MAX_INT32
    case DataFrame(_, length, dataLen, _) => dataLen <= length < MAX_LENGTH
    case _ => true
  }

  /** Reading a frame can fail: the client is gone, the frame is too large, or the parser answers with an error. */
  datatype Event =
    | Received(f: Frame)
    | TooLarge
    | Unparsed(e: Err)
    | ClientGone
    | Wrote
    | WantWrite(w: Write)
    | WantPush(parent: nat)
    | BodyRead(id: nat, n: nat)
    | HandlerReads(id: nat, n: nat)
    | ShutdownRequested
    | IdleTimeout

  /** The frames handlers ask for. */
  predicate FromHandler(w: Write) {
    w.DataWrite? || w.ResHeaders? || w.Continue100? || w.HandlerPanicRST?
  }

  /**
   * What the environment can bring about: results of writes under way, streams that exist, bytes that were there to
   * read.
   */
  predicate Enabled(c: Conn, ev: Event) {
    match ev
    case Received(f) => WellFormed(f)
    case Wrote => c.inFlight.Some?
    case WantWrite(w) => FromHandler(w) && w.stream in c.table.all
    case WantPush(parent) => parent in c.table.all
    case BodyRead(id, n) => id in c.table.all && 0 < n <= c.table.all[id].unreported
    case HandlerReads(id, n) => id in c.table.all && 0 < n <= Buffered(c.table.all[id])
    case _ => true
  }

  // ----- handlers -----

  function HandedOver(s: Stream, n: nat): Stream
    requires s.body.Some? && n <= s.body.value.buffered
  {
    s.(body := Some(s.body.value.(buffered := s.body.value.buffered - n)), unreported := s.unreported + n)
  }

  /** A handler takes bytes out of the pipe; they stay in the ledger until they are reported. */
  method HandlerRead(sc: ServerConn, id: nat, n: nat)
    requires Resting(sc.View()) && id in sc.table.all && 0 < n <= Buffered(sc.table.all[id])
    modifies sc`table
    ensures Resting(sc.View()) && Looked(false, old(sc.View()), sc.View())
    ensures old(sc.table.all[id].body).Some? && n <= old(sc.table.all[id].body).value.buffered
    ensures sc.View() == Replaced(old(sc.View()), id, HandedOver(old(sc.table.all[id]), n))
    ensures id in sc.table.all && Ledger(sc.table.all[id]) == Ledger(old(sc.table.all[id]))
    ensures Buffered(sc.table.all[id]) == Buffered(old(sc.table.all[id])) - n
    ensures sc.table.all[id].unreported == old(sc.table.all[id]).unreported + n
  {
    ghost var c := sc.View();
    assert Holds(c, InLedgers) && SolventAt(c.table.all, id) && ExactAt(c.table.all, id);
    var st' := HandedOver(sc.table.all[id], n);
    SameStateInv(c, id, st');
    SetExact(c.table.all, id, st');
    sc.table := sc.table.(all := sc.table.all[id := st']);
  }

  function Reported(s: Stream, n: nat): Stream
    requires n <= s.unreported
  {
    s.(unreported := s.unreported - n)
  }

  predicate TakesData(s: Stream) {
    s.state != HalfClosedRemote && s.state != Closed
  }

  /** The report of a read: the bytes go back to the windows, unless the stream takes no more data. */
  method NoteBodyRead(sc: ServerConn, id: nat, n: nat) returns (r: Run)
    requires Resting(sc.View()) && id in sc.table.all && 0 < n <= sc.table.all[id].unreported
    modifies sc`table, sc`queues, sc`windows, sc`flags, sc`inFlight, sc`closing, sc`trace
    ensures Stopped(r, sc.trace)
    ensures r.Fine? ==> Resting(sc.View()) && NothingLeft(sc.View())
    ensures r.Fine? ==> id in sc.table.all && sc.table.all[id].unreported == old(sc.table.all[id]).unreported - n
    ensures r.Fine? ==> sc.windows.connInflow >= old(sc.windows.connInflow) + n
    ensures old(sc.flags.writingFrame) ==> Returned(old(sc.windows.connInflow), n, r, sc.windows.connInflow)
    ensures old(sc.flags.writingFrame && !TakesData(sc.table.all[id])) ==>
              Repays(Replaced(old(sc.View()), id, Reported(old(sc.table.all[id]), n)), n, r, sc.View())
    ensures r.Fine? && (sc.table.all[id].state == Open || sc.table.all[id].state == HalfClosedLocal) ==>
              sc.table.all[id].inflow == old(sc.table.all[id]).inflow + n
  {
    NoteReported(sc, id, n);
    ghost var c := sc.View();
    assert Holds(c, InWriter);
    :- sc.SendConnWindowUpdate(n);
    ghost var d := sc.View();
    assert Holds(d, InWriter) && Kept(c, d, 1, {}, ToFlight);
    ProgressRestsBut(c, d, 1, {}, id);
    if TakesData(sc.table.all[id]) {
      :- ReturnReported(sc, id, n);
    }
    r := Fine;
  }

  /** Bytes that are reported are not unreported any more; until they are returned the ledger of the stream is short. */
  method NoteReported(sc: ServerConn, id: nat, n: nat)
    requires Resting(sc.View()) && id in sc.table.all && 0 < n <= sc.table.all[id].unreported
    modifies sc`table
    ensures RestingBut(sc.View(), id) && Looked(false, old(sc.View()), sc.View())
    ensures sc.View() == Replaced(old(sc.View()), id, Reported(old(sc.table.all[id]), n))
    ensures Exact(sc.table.all[id].(inflow := sc.table.all[id].inflow + n))
    ensures n <= Ledger(sc.table.all[id]) + n <= INITIAL_WINDOW
  {
    ghost var c := sc.View();
    assert Holds(c, InLedgers) && SolventAt(c.table.all, id) && ExactAt(c.table.all, id);
    RestsBut(c, id);
    var st := Reported(sc.table.all[id], n);
    SameStateInv(c, id, st);
    SetExactBut(c.table.all, id, st);
    sc.table := sc.table.(all := sc.table.all[id := st]);
  }

  method ReturnReported(sc: ServerConn, id: nat, n: nat) returns (r: Run)
    requires RestingBut(sc.View(), id) && id in sc.table.all && 0 < n <= Ledger(sc.table.all[id]) + n <= INITIAL_WINDOW
    requires Exact(sc.table.all[id].(inflow := sc.table.all[id].inflow + n))
    modifies sc`table, sc`queues, sc`windows, sc`flags, sc`inFlight, sc`closing, sc`trace
    ensures Stopped(r, sc.trace)
    ensures r.Fine? ==>
              Resting(sc.View()) && NothingLeft(sc.View()) && id in sc.table.all
    ensures r.Fine? ==>
              && sc.table.all[id].inflow == old(sc.table.all[id]).inflow + n
              && sc.table.all[id].unreported == old(sc.table.all[id]).unreported
    ensures r.Fine? ==> sc.windows.connInflow >= old(sc.windows.connInflow)
    ensures old(sc.flags.writingFrame) ==> r.Fine? && sc.windows == old(sc.windows)
  {
    ghost var d := sc.View();
    r := SendStreamWindowUpdate(sc, id, n);
    if r.Fine? {
      assert LaterAt(d.table.all[id := d.table.all[id].(inflow := d.table.all[id].inflow + n)], sc.table.all, id);
      PaddingReturned(d.table.all, sc.table.all, id, n);
    }
  }

  /** A stream on which a promise can be sent. */
  predicate MayPromise(t: Table, parent: nat) {
    parent in t.streams && parent in t.all && t.all[parent].state in {Open, HalfClosedRemote}
  }

  /** A promise is asked for. */
  predicate PushLooks(c: Conn, pushEnabled: bool, parent: nat) {
    pushEnabled && parent in c.table.all && c.table.all[parent].state in {Open, HalfClosedRemote}
  }

  method StartPush(sc: ServerConn, parent: nat) returns (r: Run)
    requires Resting(sc.View()) && parent in sc.table.all
    modifies sc`table, sc`queues, sc`windows, sc`flags, sc`inFlight, sc`closing, sc`trace
    ensures Stopped(r, sc.trace)
    ensures r.Fine? ==> Resting(sc.View())
    ensures r.Fine? ==> Looked(PushLooks(old(sc.View()), old(sc.pushEnabled), parent), old(sc.View()), sc.View())
    ensures !old(sc.pushEnabled) || old(sc.table.all[parent].state) in {HalfClosedLocal, Closed} ==>
              r.Fine? && unchanged(sc)
    ensures r.Fine? && old(sc.pushEnabled) && MayPromise(old(sc.table), parent) ==>
              old(sc.trace) + [Enqueued(PushPromise(parent))] <= sc.trace
    ensures old(sc.flags.writingFrame) && PushLooks(old(sc.View()), old(sc.pushEnabled), parent) ==>
              r.Fine? && sc.View() == Requested(old(sc.View()), PushPromise(parent))
  {
    var state := sc.table.all[parent].state;
    if (state != Open && state != HalfClosedRemote) || !sc.pushEnabled {
      return Fine;
    }
    ghost var c := sc.View();
    :- sc.WriteFrame(PushPromise(parent));
    ProgressRests(c, sc.View(), 4, {});
    r := Fine;
  }

  method WriteFromHandler(sc: ServerConn, w: Write) returns (r: Run)
    requires Resting(sc.View()) && FromHandler(w) && w.stream in sc.table.all
    modifies sc`table, sc`queues, sc`windows, sc`flags, sc`inFlight, sc`closing, sc`trace
    ensures Stopped(r, sc.trace)
    ensures r.Fine? ==> Resting(sc.View()) && NothingLeft(sc.View())
    ensures r.Fine? && !Ignored(old(sc.table), w) ==> old(sc.trace) + [Enqueued(w)] <= sc.trace
    ensures old(sc.flags.writingFrame) ==> r.Fine? && sc.View() == Requested(old(sc.View()), w)
    ensures Bound(Requested(old(sc.View()), w), sc.habit, r, sc.View())
    ensures Calm(Requested(old(sc.View()), w)) ==> r.Fine? && Drains(Requested(old(sc.View()), w), sc.View())
  {
    ghost var c := sc.View();
    :- sc.WriteFrame(w);
    ProgressRests(c, sc.View(), ServerWork.Weight(w), {});
    r := Fine;
  }

  /** The result of the write under way. */
  method WriteDone(sc: ServerConn) returns (r: Run)
    requires Resting(sc.View()) && sc.inFlight.Some?
    modifies sc`table, sc`queues, sc`windows, sc`flags, sc`inFlight, sc`closing, sc`trace
    ensures Halted(r, sc.trace) && r != Panicked(NilPipe)
    ensures r == Panicked(CloseOnClosed) <==> old(ClosesTwice(sc.table, sc.inFlight.value))
    ensures old(Inert(sc.inFlight.value)) && Calm(Finishing(old(sc.View()))) ==>
              && r.Fine? && Drains(Finishing(old(sc.View())), sc.View())
              && (sc.inFlight.Some? ==> Due(sc.View()) < Due(old(sc.View())))
    ensures forall why {:trigger FatalEnd(Finishing(old(sc.View())), sc.habit, old(sc.inFlight).value, why)} ::
              FatalEnd(Finishing(old(sc.View())), sc.habit, old(sc.inFlight).value, why) ==> r == Panicked(why)
    ensures r.Fine? ==>
              Resting(sc.View()) && NothingLeft(sc.View()) && Concluded(old(sc.table), old(sc.inFlight).value, sc.table)
    ensures r.Fine? ==> old(sc.trace) + [ServerTrace.Finished] <= sc.trace
  {
    ghost var c := sc.View();
    assert Holds(c, InWriter);
    FinishInv(c);
    :- sc.WroteFrame(sc.inFlight.value);
    assert Kept(Finishing(c), sc.View(), 0, {}, ToTrace) && Holds(sc.View(), InWriter);
    ProgressRests(Finishing(c), sc.View(), 0, {});
    r := Fine;
  }

  // ----- frames -----

  /** The answers to frames that change nothing by themselves. */
  function UnusualAnswer(f: Frame, inGoAway: bool): Err {
    if f.PushPromiseFrame? then ConnErr(PROTOCOL_ERROR)
    else if f.PriorityFrame? && f.dependsOnItself && !inGoAway then StreamErr(f.id, PROTOCOL_ERROR)
    else NoErr
  }

  /** The parts of a connection that only frames from the client change. */
  datatype Client = Client(sawFirstSettings: bool, unackedSettings: int, peer: Peer)

  ghost function ClientOf(sc: ServerConn): Client
    reads sc`sawFirstSettings, sc`unackedSettings, sc`pushEnabled, sc`clientMaxStreams
  {
    Client(sc.sawFirstSettings, sc.unackedSettings, PeerOf(sc))
  }

  /** What each frame does, and how it is answered. */
  ghost predicate FrameHandled(c: Conn, p: Client, f: Frame, r: Run, e: Err, d: Conn, p': Client)
    requires WellFormed(f)
  {
    if !p.sawFirstSettings && !f.SettingsFrame? then r.Fine? && e == ConnErr(PROTOCOL_ERROR) && d == c && p' == p
    else
      match f
      case SettingsFrame(true, _) =>
        && r.Fine? && e == (if p.unackedSettings < 1 then ConnErr(PROTOCOL_ERROR) else NoErr) && d == c
        && p' == Client(true, p.unackedSettings - 1, p.peer)
      case SettingsFrame(false, settings) =>
        SettingsHandled(c, p.peer, settings, r, e, d, p'.peer) && p' == Client(true, p.unackedSettings, p'.peer)
      case HeadersFrame(h) => HeadersHandled(c, p.unackedSettings, h, r, e, d) && p' == p
      case WindowUpdateFrame(id, incr) => WindowHandled(c, id, incr, r, e, d) && p' == p
      case PingFrame(ack) => PingHandled(c, ack, r, d) && e == NoErr && p' == p
      case DataFrame(id, length, dataLen, endStream) =>
        DataHandled(c, id, length, dataLen, endStream, r, e, d) && p' == p
      case ResetFrame(id) => ResetHandled(c, id, r, e, d) && p' == p
      case GoAwayFrame =>
        e == NoErr && (r.Fine? ==> d.flags.inGoAway) && p' == p.(peer := p.peer.(pushEnabled := false))
      case _ => r.Fine? && e == UnusualAnswer(f, c.flags.inGoAway) && d == c && p' == p
  }

  /** Handling the frame, its answer aside, ends in looking for something to write. */
  ghost predicate FrameLooks(c: Conn, p: Client, f: Frame)
    requires WellFormed(f)
  {
    (p.sawFirstSettings || f.SettingsFrame?) &&
    match f
    case SettingsFrame(ack, settings) => !ack && Taken(OutboundOf(c), c.table.streams, settings) == |settings|
    case WindowUpdateFrame(id, incr) => UpdateLooks(c, id, incr)
    case PingFrame(ack) => !ack && PopPermitted(c.flags)
    case DataFrame(id, length, dataLen, _) => DataLooks(c, id, length, dataLen)
    case ResetFrame(id) => ResetLooks(c, id)
    case GoAwayFrame => !c.flags.inGoAway
    case _ => false
  }

  /**
   * Frames that do not look for something to write, but may add to it or take from it: refused SETTINGS move windows,
   * and a stream that is reset takes its queue with it.
   */
  ghost predicate FrameShifts(c: Conn, p: Client, f: Frame) {
    match f
    case SettingsFrame(ack, settings) => !ack && Taken(OutboundOf(c), c.table.streams, settings) < |settings|
    case ResetFrame(id) => p.sawFirstSettings && id in c.table.streams && !ResetLooks(c, id)
    case _ => false
  }

  method ProcessFrame(sc: ServerConn, f: Frame) returns (r: Run, e: Err)
    requires Resting(sc.View()) && WellFormed(f)
    modifies sc`table, sc`queues, sc`windows, sc`flags, sc`inFlight, sc`closing, sc`trace
    modifies sc`sawFirstSettings, sc`unackedSettings, sc`pushEnabled, sc`clientMaxStreams
    ensures Halted(r, sc.trace) && r != Panicked(CloseOnClosed)
    ensures r == Panicked(NilPipe) <==>
              old(sc.sawFirstSettings) && f.HeadersFrame? && EndsBodiless(old(sc.View()), f.headers)
    ensures r.Fine? ==> Answered(sc.View(), e)
    ensures FrameHandled(old(sc.View()), old(ClientOf(sc)), f, r, e, sc.View(), ClientOf(sc))
    ensures r.Fine? && old(NothingLeft(sc.View())) && (f.SettingsFrame? && !f.ack ==> e == NoErr) ==>
              NothingLeft(sc.View())
    ensures r.Fine? && !FrameShifts(old(sc.View()), old(ClientOf(sc)), f) ==>
              Looked(FrameLooks(old(sc.View()), old(ClientOf(sc)), f), old(sc.View()), sc.View())
  {
    r, e := Fine, NoErr;
    if !sc.sawFirstSettings {
      if !f.SettingsFrame? {
        return Fine, ConnErr(PROTOCOL_ERROR);
      }
      sc.sawFirstSettings := true;
    }
    if f.SettingsFrame? {
      r, e := ProcessSettings(sc, f.ack, f.settings);
    } else {
      r, e := Dispatch(sc, f);
    }
  }

  method Dispatch(sc: ServerConn, f: Frame) returns (r: Run, e: Err)
    requires Resting(sc.View()) && WellFormed(f) && !f.SettingsFrame? && sc.sawFirstSettings
    modifies sc`table, sc`queues, sc`windows, sc`flags, sc`inFlight, sc`closing, sc`trace, sc`pushEnabled
    ensures Halted(r, sc.trace) && r != Panicked(CloseOnClosed)
    ensures r == Panicked(NilPipe) <==> f.HeadersFrame? && EndsBodiless(old(sc.View()), f.headers)
    ensures r.Fine? ==> Answered(sc.View(), e)
    ensures FrameHandled(old(sc.View()), old(ClientOf(sc)), f, r, e, sc.View(), ClientOf(sc))
    ensures r.Fine? && old(NothingLeft(sc.View())) ==> NothingLeft(sc.View())
    ensures r.Fine? && !FrameShifts(old(sc.View()), old(ClientOf(sc)), f) ==>
              Looked(FrameLooks(old(sc.View()), old(ClientOf(sc)), f), old(sc.View()), sc.View())
  {
    if f.HeadersFrame? {
      r, e := ProcessHeaders(sc, f.headers);
    } else if f.WindowUpdateFrame? {
      r, e := ProcessWindowUpdate(sc, f.id, f.incr);
    } else if f.DataFrame? {
      r, e := ProcessData(sc, f.id, f.length, f.dataLen, f.endStream);
    } else if f.ResetFrame? {
      r, e := ProcessResetStream(sc, f.id);
    } else {
      r, e := DispatchRest(sc, f);
    }
  }

  method ProcessGoAway(sc: ServerConn) returns (r: Run)
    requires Resting(sc.View())
    modifies sc`table, sc`queues, sc`windows, sc`flags, sc`inFlight, sc`closing, sc`trace, sc`pushEnabled
    ensures Stopped(r, sc.trace) && !sc.pushEnabled
    ensures r.Fine? ==> Resting(sc.View()) && sc.flags.inGoAway
    ensures r.Fine? ==> Looked(!old(sc.flags.inGoAway), old(sc.View()), sc.View())
  {
    r := Shut(sc, NO_ERROR);
    sc.pushEnabled := false;
  }

  predicate Minor(f: Frame) {
    f.PingFrame? || f.PriorityFrame? || f.GoAwayFrame? || f.PushPromiseFrame? || f.OtherFrame?
  }

  method DispatchRest(sc: ServerConn, f: Frame) returns (r: Run, e: Err)
    requires Resting(sc.View()) && Minor(f) && sc.sawFirstSettings
    modifies sc`table, sc`queues, sc`windows, sc`flags, sc`inFlight, sc`closing, sc`trace, sc`pushEnabled
    ensures Stopped(r, sc.trace)
    ensures r.Fine? ==> Answered(sc.View(), e)
    ensures FrameHandled(old(sc.View()), old(ClientOf(sc)), f, r, e, sc.View(), ClientOf(sc))
    ensures r.Fine? ==> Looked(FrameLooks(old(sc.View()), old(ClientOf(sc)), f), old(sc.View()), sc.View())
  {
    r, e := Fine, NoErr;
    assert Holds(sc.View(), InTrace);
    match f
    case PingFrame(ack) => r := ProcessPing(sc, ack);
    case PriorityFrame(id, dependsOnItself) =>
      if !sc.flags.inGoAway && dependsOnItself {
        RestsBut(sc.View(), id);
        e := StreamErr(id, PROTOCOL_ERROR);
      }
    case GoAwayFrame => r := ProcessGoAway(sc);
    case PushPromiseFrame => e := ConnErr(PROTOCOL_ERROR);
    case OtherFrame =>
  }

  /** A frame that is an error of the connection begins no shutdown by itself. */
  lemma ErrorKeepsFlags(c: Conn, p: Client, f: Frame, e: Err, d: Conn, p': Client)
    requires WellFormed(f) && FrameHandled(c, p, f, Fine, e, d, p') && (e.ConnErr? || e.FlowErr?)
    ensures d.flags == c.flags
  {
  }

  /** Acting on the answer ends in looking for something to write. */
  predicate AnswerLooks(c: Conn, e: Err) {
    e.StreamErr? || (e != NoErr && !c.flags.inGoAway)
  }

  /** An answer is turned into a reset or into shutdown. */
  method Answer(sc: ServerConn, e: Err) returns (r: Run)
    requires Answered(sc.View(), e)
    modifies sc`table, sc`queues, sc`windows, sc`flags, sc`inFlight, sc`closing, sc`trace
    ensures Stopped(r, sc.trace)
    ensures r.Fine? ==> Resting(sc.View()) && Looked(AnswerLooks(old(sc.View()), e), old(sc.View()), sc.View())
    ensures e == NoErr ==> r.Fine? && unchanged(sc)
    ensures r.Fine? && e.StreamErr? ==> old(sc.trace) + [Enqueued(StreamReset(e.id))] <= sc.trace
    ensures (e.ConnErr? || e.FlowErr?) && old(sc.flags.inGoAway) ==> r.Fine? && sc.View() == old(sc.View())
    ensures r.Fine? && (e.ConnErr? || e.FlowErr?) ==> sc.flags.inGoAway
    ensures r.Fine? && e.ConnErr? && !old(sc.flags.inGoAway) ==> sc.flags.goAwayCode == e.code
  {
    match e
    case NoErr => r := Fine;
    case StreamErr(id, _) => r := Reset(sc, id);
    case ConnErr(code) => r := Shut(sc, code);
    case FlowErr => r := Shut(sc, FLOW_CONTROL_ERROR);
  }

  // ----- turns -----

  /** A frame was handled, and its answer e acted on; with no error there is nothing to do. */
  ghost predicate FrameAnswered(c: Conn, p: Client, f: Frame, r: Run, e: Err, d: Conn, p': Client)
    requires WellFormed(f)
  {
    exists r0, d0, p0 {:trigger FrameHandled(c, p, f, r0, e, d0, p0)} ::
      FrameHandled(c, p, f, r0, e, d0, p0) && (e == NoErr ==> r == r0 && d == d0 && p' == p0)
  }

  ghost predicate StallsOn(c: Conn, ev: Event) {
    ev.Received? && ev.f.SettingsFrame? && !ev.f.ack && Stalls(c, ev.f.settings)
  }

  ghost predicate OverflowsOn(c: Conn, ev: Event) {
    ev.Received? && ev.f.SettingsFrame? && !ev.f.ack && Overflowing(c, ev.f.settings)
  }

  ghost predicate MayStallOn(c: Conn, ev: Event) {
    ev.Received? && ev.f.SettingsFrame? && !ev.f.ack && MayStall(c, ev.f.settings)
  }

  /**
   * After a SETTINGS frame that was refused in shutdown, something can be sent exactly if the frame stalls the
   * connection.
   */
  lemma RefusedSettings(c: Conn, p: Peer, settings: seq<Setting>, d: Conn, p': Peer, e: Err)
    requires Resting(c) && SettingsApplied(c, p, settings, d, p', e)
    requires Taken(OutboundOf(c), c.table.streams, settings) < |settings|
    ensures Stalls(c, settings) ==> !NothingLeft(d)
    ensures NothingLeft(c) && c.flags.inGoAway && !Overflowing(c, settings) && !Stalls(c, settings) ==> NothingLeft(d)
    ensures NothingLeft(c) && c.flags.inGoAway && Overflowing(c, settings) && !MayStall(c, settings) ==> NothingLeft(d)
  {
    assert Holds(c, InWriter);
    var o := OutboundOf(c);
    var k := Taken(o, c.table.streams, settings);
    var o' := AppliedAll(o, c.table.streams, settings[..k]);
    forall id
      ensures CanSendUnder(c, OutboundOf(d), id) <==>
              Ready(id, d.queues, d.table.all, d.windows.connFlow, d.windows.maxFrameSize) {
    }
    if Stalls(c, settings) {
      var id :| CanSendUnder(c, o', id);
      assert CanSendUnder(c, OutboundOf(d), id);
    }
    if Unattended(c) && !Stalls(c, settings) && !Overflowing(c, settings) {
      assert forall id :: !CanSendUnder(c, o', id);
    }
    if Unattended(c) && Overflowing(c, settings) && !MayStall(c, settings) {
      assert forall id :: !CanSendUnder(c, OutboundOf(d), id);
    }
  }

  /** Handling the event ends in looking for something to write; e is how a frame was answered. */
  ghost predicate Looks(c: Conn, p: Client, ev: Event, e: Err) {
    match ev
    case Received(f) => (WellFormed(f) && FrameLooks(c, p, f)) || AnswerLooks(c, e)
    case Unparsed(e') => AnswerLooks(c, e')
    case TooLarge => !c.flags.inGoAway
    case ShutdownRequested => !c.flags.inGoAway
    case IdleTimeout => !c.flags.inGoAway
    case WantPush(parent) => PushLooks(c, p.peer.pushEnabled, parent)
    case HandlerReads(_, _) => false
    case ClientGone => false
    case _ => true
  }

  ghost predicate Shifts(c: Conn, p: Client, ev: Event) {
    ev.Received? && FrameShifts(c, p, ev.f)
  }

  /**
   * What an event leaves to write. An event that looks for frames leaves none, and most that do not leave as much as
   * there was. Where a write was under way or nothing left, it is so again, unless the event stalls the connection.
   */
  ghost predicate Leaves(c: Conn, p: Client, ev: Event, r: Run, e: Err, d: Conn) {
    && (r.Fine? && (Shifts(c, p, ev) ==> Looks(c, p, ev, e)) ==> Looked(Looks(c, p, ev, e), c, d))
    && (StallsOn(c, ev) ==> r.Fine? && !NothingLeft(d))
    && (r.Fine? && NothingLeft(c) && !OverflowsOn(c, ev) ==> (NothingLeft(d) <==> !StallsOn(c, ev)))
    && (r.Fine? && NothingLeft(c) && !MayStallOn(c, ev) ==> NothingLeft(d) || StallsOn(c, ev))
  }

  /** d is left by a frame, a by its answer. */
  lemma FrameLeaves(c: Conn, p: Client, f: Frame, e: Err, d: Conn, p': Client, r: Run, a: Conn)
    requires Resting(c) && WellFormed(f) && FrameHandled(c, p, f, Fine, e, d, p')
    requires NothingLeft(c) && (f.SettingsFrame? && !f.ack ==> e == NoErr) ==> NothingLeft(d)
    requires !FrameShifts(c, p, f) ==> Looked(FrameLooks(c, p, f), c, d)
    requires (e == NoErr || (!e.StreamErr? && d.flags.inGoAway)) ==> r.Fine? && a == d
    requires r.Fine? ==> Looked(AnswerLooks(d, e), d, a)
    ensures Leaves(c, p, Received(f), r, e, a)
  {
    if f.SettingsFrame? && !f.ack && Taken(OutboundOf(c), c.table.streams, f.settings) < |f.settings| {
      RefusedSettings(c, p.peer, f.settings, d, p'.peer, e);
    }
    if e.ConnErr? || e.FlowErr? {
      ErrorKeepsFlags(c, p, f, e, d, p');
    }
  }

  /** A frame from the client, and the answer to it. */
  method HandleFrame(sc: ServerConn, f: Frame) returns (r: Run, e: Err)
    requires Resting(sc.View()) && WellFormed(f)
    modifies sc`table, sc`queues, sc`windows, sc`flags, sc`inFlight, sc`closing, sc`trace
    modifies sc`sawFirstSettings, sc`unackedSettings, sc`pushEnabled, sc`clientMaxStreams
    ensures Halted(r, sc.trace) && r != Panicked(CloseOnClosed)
    ensures r == Panicked(NilPipe) <==>
              old(sc.sawFirstSettings) && f.HeadersFrame? && EndsBodiless(old(sc.View()), f.headers)
    ensures r.Fine? ==> Resting(sc.View())
    ensures FrameAnswered(old(sc.View()), old(ClientOf(sc)), f, r, e, sc.View(), ClientOf(sc))
    ensures Leaves(old(sc.View()), old(ClientOf(sc)), Received(f), r, e, sc.View())
  {
    ghost var c, p := sc.View(), ClientOf(sc);
    r, e := ProcessFrame(sc, f);
    if r.Panicked? {
      return;
    }
    ghost var d, p' := sc.View(), ClientOf(sc);
    r := Answer(sc, e);
    FrameLeaves(c, p, f, e, d, p', r, sc.View());
  }

  /** What an event does, where that does not depend on how frames are buffered. */
  ghost predicate EventHandled(c: Conn, p: Client, habit: Habit, ev: Event, r: Run, e: Err, d: Conn, p': Client) {
    && (!ev.Received? ==> p' == p) &&
    match ev
    case Received(f) => WellFormed(f) && FrameAnswered(c, p, f, r, e, d, p')
    case WantWrite(w) =>
      && (c.flags.writingFrame ==> r.Fine? && d == Requested(c, w))
      && (Calm(Requested(c, w)) ==> r.Fine? && Drains(Requested(c, w), d))
      && Bound(Requested(c, w), habit, r, d)
    case Wrote =>
      c.inFlight.Some? ==>
        && (Inert(c.inFlight.value) && Calm(Finishing(c)) ==>
              r.Fine? && Drains(Finishing(c), d) && (d.inFlight.Some? ==> Due(d) < Due(c)))
        && forall why {:trigger FatalEnd(Finishing(c), habit, c.inFlight.value, why)} ::
             FatalEnd(Finishing(c), habit, c.inFlight.value, why) ==> r == Panicked(why)
    case WantPush(parent) =>
      c.flags.writingFrame && PushLooks(c, p.peer.pushEnabled, parent) ==>
        r.Fine? && d == Requested(c, PushPromise(parent))
    case BodyRead(id, n) =>
      id in c.table.all && n <= c.table.all[id].unreported && c.flags.writingFrame && !TakesData(c.table.all[id]) ==>
        Repays(Replaced(c, id, Reported(c.table.all[id], n)), n, r, d)
    case HandlerReads(id, n) =>
      id in c.table.all && c.table.all[id].body.Some? && n <= c.table.all[id].body.value.buffered ==>
        r.Fine? && d == Replaced(c, id, HandedOver(c.table.all[id], n))
    case ShutdownRequested =>
      !c.flags.inGoAway && Calm(ShuttingDown(c, NO_ERROR)) ==> r.Fine? && Drains(ShuttingDown(c, NO_ERROR), d)
    case _ => true
  }

  /**
   * One turn of the serve loop. It leaves a write under way or nothing to write, unless it stalls the connection. e
   * is how a frame was answered; open tells whether the connection is kept.
   */
  method Turn(sc: ServerConn, ev: Event) returns (r: Run, e: Err, open: bool)
    requires Resting(sc.View()) && Enabled(sc.View(), ev)
    modifies sc`table, sc`queues, sc`windows, sc`flags, sc`inFlight, sc`closing, sc`trace
    modifies sc`sawFirstSettings, sc`unackedSettings, sc`pushEnabled, sc`clientMaxStreams
    ensures Halted(r, sc.trace)
    ensures r == Panicked(NilPipe) <==>
              && ev.Received? && old(sc.sawFirstSettings) && ev.f.HeadersFrame?
              && EndsBodiless(old(sc.View()), ev.f.headers)
    ensures r == Panicked(CloseOnClosed) <==> ev.Wrote? && ClosesTwice(old(sc.table), old(sc.inFlight).value)
    ensures r.Fine? ==> Resting(sc.View())
    ensures r.Fine? ==> (open <==> !ev.ClientGone?)
    ensures r.Fine? && (ev.TooLarge? || ev.ShutdownRequested? || ev.IdleTimeout?) ==> sc.flags.inGoAway
    ensures EventHandled(old(sc.View()), old(ClientOf(sc)), sc.habit, ev, r, e, sc.View(), ClientOf(sc))
    ensures Leaves(old(sc.View()), old(ClientOf(sc)), ev, r, e, sc.View())
  {
    open := !ev.ClientGone?;
    if ev.Received? {
      r, e := HandleFrame(sc, ev.f);
    } else if ByHandler(ev) {
      e := NoErr;
      r := HandleHandler(sc, ev);
    } else {
      e := NoErr;
      r := HandleOther(sc, ev);
    }
  }

  /** The connection is stalled from an event that stalls it to the next one that looks for frames to write. */
  ghost predicate StalledAfter(stalled: bool, c: Conn, p: Client, ev: Event, e: Err) {
    (stalled && !Looks(c, p, ev, e)) || StallsOn(c, ev) || MayStallOn(c, ev)
  }

  /** A turn, after which the field stalled is up to date. */
  method NotedTurn(sc: ServerConn, ev: Event) returns (r: Run, e: Err, open: bool)
    requires Resting(sc.View()) && Enabled(sc.View(), ev)
    modifies sc
    ensures Halted(r, sc.trace)
    ensures r.Fine? ==> Resting(sc.View()) && (open <==> !ev.ClientGone?)
    ensures StallsOn(old(sc.View()), ev) ==> r.Fine? && !NothingLeft(sc.View())
    ensures sc.stalled <==> StalledAfter(old(sc.stalled), old(sc.View()), old(ClientOf(sc)), ev, e)
    ensures r.Fine? && old(sc.stalled || NothingLeft(sc.View())) ==> sc.stalled || NothingLeft(sc.View())
  {
    ghost var c, p := sc.View(), ClientOf(sc);
    r, e, open := Turn(sc, ev);
    sc.stalled := StalledAfter(sc.stalled, c, p, ev, e);
  }

  method HandleOther(sc: ServerConn, ev: Event) returns (r: Run)
    requires Resting(sc.View()) && Enabled(sc.View(), ev) && !ev.Received? && !ByHandler(ev)
    modifies sc`table, sc`queues, sc`windows, sc`flags, sc`inFlight, sc`closing, sc`trace
    ensures Halted(r, sc.trace) && r != Panicked(NilPipe)
    ensures r == Panicked(CloseOnClosed) <==> ev.Wrote? && ClosesTwice(old(sc.table), old(sc.inFlight).value)
    ensures r.Fine? ==> Resting(sc.View())
    ensures Leaves(old(sc.View()), old(ClientOf(sc)), ev, r, NoErr, sc.View())
    ensures r.Fine? && (ev.TooLarge? || ev.ShutdownRequested? || ev.IdleTimeout?) ==> sc.flags.inGoAway
    ensures EventHandled(old(sc.View()), old(ClientOf(sc)), sc.habit, ev, r, NoErr, sc.View(), ClientOf(sc))
  {
    r := Fine;
    match ev
    case TooLarge => r := Shut(sc, FRAME_SIZE_ERROR);
    case Unparsed(e) =>
      if e.StreamErr? {
        RestsBut(sc.View(), e.id);
      }
      r := Answer(sc, e);
    case ClientGone =>
    case Wrote => r := WriteDone(sc);
    case ShutdownRequested => r := Shut(sc, NO_ERROR);
    case IdleTimeout => r := Shut(sc, NO_ERROR);
  }

  predicate ByHandler(ev: Event) {
    ev.WantWrite? || ev.WantPush? || ev.BodyRead? || ev.HandlerReads?
  }

  /** What handlers ask for and do. */
  method HandleHandler(sc: ServerConn, ev: Event) returns (r: Run)
    requires Resting(sc.View()) && Enabled(sc.View(), ev) && ByHandler(ev)
    modifies sc`table, sc`queues, sc`windows, sc`flags, sc`inFlight, sc`closing, sc`trace
    ensures Stopped(r, sc.trace)
    ensures r.Fine? ==> Resting(sc.View())
    ensures Leaves(old(sc.View()), old(ClientOf(sc)), ev, r, NoErr, sc.View())
    ensures EventHandled(old(sc.View()), old(ClientOf(sc)), sc.habit, ev, r, NoErr, sc.View(), ClientOf(sc))
  {
    r := Fine;
    match ev
    case WantWrite(w) => r := WriteFromHandler(sc, w);
    case WantPush(parent) => r := StartPush(sc, parent);
    case BodyRead(id, n) => r := NoteBodyRead(sc, id, n);
    case HandlerReads(id, n) => HandlerRead(sc, id, n);
  }

  /** What a reader of the connection's fields can rely on between two events. */
  lemma RestingFacts(c: Conn, id: nat)
    requires Resting(c)
    ensures Safe(c.trace)
    ensures c.table.curClientStreams == |OfParity(c.table.streams, 1)| <= c.advMaxStreams
    ensures c.table.curPushedStreams == |OfParity(c.table.streams, 0)|
    ensures id in c.table.streams ==> id in c.table.all && Active(c.table.all[id])
    ensures c.flags.writingFrame <==> c.inFlight.Some?
    ensures Outstanding(c.trace) == if c.inFlight.Some? then 1 else 0
    ensures id in c.table.all && c.table.all[id].state in {Open, HalfClosedLocal} ==>
              Ledger(c.table.all[id]) == INITIAL_WINDOW
    ensures id in c.table.all && Receiving(c.table.all[id]) ==>
              c.table.all[id].body.Some? && !c.table.all[id].body.value.closed
    ensures id != 0 && NeverDiscarded(c.trace, id) ==>
              TotalIn(c.trace, id) == TotalOut(c.trace, id) + DataQueued(QueueOf(c.queues, id))
  {
    assert Holds(c, InTrace) && Holds(c, InCounters) && Holds(c, InWriter) && Holds(c, InMap);
    assert MappedAt(c.table.all, c.table.streams, id) && ExactAt(c.table.all, id);
    ReplayIsSafe(c.trace);
    if id != 0 && NeverDiscarded(c.trace, id) {
      BytesKept(c.trace, id);
    }
  }

  /** SETTINGS that cannot stall a connection: no initial window size is given. */
  predicate Harmless(ev: Event) {
    ev.Received? && ev.f.SettingsFrame? ==>
      forall i :: 0 <= i < |ev.f.settings| ==> ev.f.settings[i].id != INITIAL_WINDOW_SIZE
  }

  lemma HarmlessEvent(c: Conn, ev: Event)
    requires Resting(c) && NothingLeft(c) && Harmless(ev)
    ensures !StallsOn(c, ev) && !MayStallOn(c, ev) && !OverflowsOn(c, ev)
  {
    if ev.Received? && ev.f.SettingsFrame? {
      assert Holds(c, InWindows) && Holds(c, InWriter);
      HarmlessSettings(c, ev.f.settings);
    }
  }

  /** The connection sends its SETTINGS before anything else. */
  method Begin(advMaxStreams: nat, habit: Habit) returns (sc: ServerConn, r: Run)
    ensures fresh(sc) && sc.advMaxStreams == advMaxStreams && sc.habit == habit
    ensures r.Fine? && Resting(sc.View()) && NothingLeft(sc.View())
    ensures !sc.stalled
    ensures Calm(sc.View()) && sc.table == Table(map[], {}, 0, 0, 0, 0)
    ensures sc.windows == Windows(INITIAL_WINDOW, INITIAL_WINDOW, INITIAL_WINDOW, 16384) && !sc.flags.inGoAway
    ensures !sc.sawFirstSettings && sc.pushEnabled
    ensures (sc.inFlight.Some? ==> Inert(sc.inFlight.value)) && forall id :: HeldBack(QueueOf(sc.queues, id)) == []
  {
    sc := new ServerConn(advMaxStreams, habit);
    ghost var c := sc.View();
    CalmStart(c);
    r := sc.WriteFrame(SettingsWrite);
    ProgressRests(c, sc.View(), 1, {});
    forall id: nat ensures HeldBack(QueueOf(sc.queues, id)) == [] {
      assert HeldAt(Requested(c, SettingsWrite), sc.View(), id);
    }
    sc.unackedSettings := sc.unackedSettings + 1;
  }

  lemma CalmStart(c: Conn)
    requires c.queues == map[]
    ensures Calm(Requested(c, SettingsWrite))
    ensures forall id :: HeldBack(QueueOf(Requested(c, SettingsWrite).queues, id)) == []
  {
    var d := Requested(c, SettingsWrite);
    assert [] + [SettingsWrite] == [SettingsWrite] && [SettingsWrite][1..] == [];
    assert d.queues == c.queues[0 := [SettingsWrite]];
    forall id ensures CalmAt(d, id) {
    }
  }

  /**
   * A whole run: the first SETTINGS, then events in any order and number. Every run, whether it ends in a panic or
   * not, keeps the promises of its trace, and never panics over its one writer. Unless some turn has stalled the
   * connection, a write is under way at the end or nothing is left to write; it takes an initial window size to
   * stall.
   */
  method Serve(advMaxStreams: nat, habit: Habit, events: seq<Event>) returns (sc: ServerConn, r: Run)
    ensures Safe(sc.trace)
    ensures r != Panicked(AlreadyWriting) && r != Panicked(NotWriting)
    ensures r.Fine? ==> Resting(sc.View()) && sc.advMaxStreams == advMaxStreams
    ensures r.Fine? && !sc.stalled ==> NothingLeft(sc.View())
    ensures r.Fine? && (forall i :: 0 <= i < |events| ==> Harmless(events[i])) ==> !sc.stalled
  {
    sc, r := Begin(advMaxStreams, habit);
    r := Loop(sc, events);
    if r.Fine? {
      assert Holds(sc.View(), InTrace);
    }
    ReplayIsSafe(sc.trace);
  }

  method Loop(sc: ServerConn, events: seq<Event>) returns (r: Run)
    requires Resting(sc.View()) && (sc.stalled || NothingLeft(sc.View()))
    modifies sc
    ensures Halted(r, sc.trace)
    ensures r.Fine? ==> Resting(sc.View()) && (sc.stalled || NothingLeft(sc.View()))
    ensures r.Fine? && !old(sc.stalled) && (forall i :: 0 <= i < |events| ==> Harmless(events[i])) ==> !sc.stalled
  {
    for i := 0 to |events|
      invariant Resting(sc.View()) && (sc.stalled || NothingLeft(sc.View()))
      invariant !old(sc.stalled) && (forall k :: 0 <= k < i ==> Harmless(events[k])) ==> !sc.stalled
    {
      if Enabled(Conn(sc.advMaxStreams, sc.table, sc.queues, sc.windows, sc.flags, sc.inFlight, {}, []), events[i]) {
        if !sc.stalled && Harmless(events[i]) {
          HarmlessEvent(sc.View(), events[i]);
        }
        var _, open :- NotedTurn(sc, events[i]);
        if !open {
          return Fine;
        }
        if sc.flags.inGoAway && sc.table.curClientStreams + sc.table.curPushedStreams == 0
           && !sc.flags.needToSendGoAway && !sc.flags.writingFrame {
          return Fine;
        }
      }
    }
    r := Fine;
  }
}
