/** The serve loop of a connection: the single frame writer, shutdown, and the life of streams. */
module Server {
  import opened Basics
  import opened FlowControl
  import opened Protocol
  import opened ServerTypes
  import opened ServerCounts
  import opened ServerLedger
  import opened ServerWork
  import opened ServerTrace
  import opened ServerInvariant

  /** Why a run can end in a panic. */
  datatype Why =
    | AlreadyWriting
    | NotWriting
    | WriteOnHalfClosed
    | WriteOnClosed
    | CloseOnClosed
    | ConnWindowOverflow
    | NilPipe
    | BadPushURL

  datatype Run = Fine | Panicked(why: Why) {
    predicate IsFailure() {
      Panicked?
    }
    function PropagateFailure(): Run {
      this
    }
  }

  /**
   * If a run stops in a panic, its steps were allowed so far, and it is not one of the two panics about the one writer.
   */
  predicate Halted(r: Run, trace: seq<Step>) {
    r.Panicked? ==> r.why != AlreadyWriting && r.why != NotWriting && Replay(trace).Some?
  }

  /** The same where no request can end without a body, and no stream can be closed twice. */
  predicate Stopped(r: Run, trace: seq<Step>) {
    Halted(r, trace) && r != Panicked(NilPipe) && r != Panicked(CloseOnClosed)
  }

  /** n bytes are returned to the window of the connection, or that window would overflow. */
  predicate Returned(before: int, n: int, r: Run, after: int) {
    if before + n <= MAX_INT32 then r.Fine? && after == before + n else r == Panicked(ConnWindowOverflow)
  }

  /** The window of the connection has grown by n, and the update that says so is queued. */
  function Repaid(c: Conn, n: nat): Conn
    requires c.windows.connInflow + n <= MAX_INT32
  {
    if n == 0 then c
    else Requested(c, ConnWindowUpdate).(windows := c.windows.(connInflow := c.windows.connInflow + n))
  }

  predicate Repays(c: Conn, n: nat, r: Run, d: Conn) {
    if c.windows.connInflow + n <= MAX_INT32 then r.Fine? && d == Repaid(c, n) else r == Panicked(ConnWindowOverflow)
  }

  /** The unread bytes of a stream are returned to the connection, and its pipe is closed for writing. */
  function BodyReturned(c: Conn, id: nat): Conn
    requires id in c.table.all && c.windows.connInflow + Buffered(c.table.all[id]) <= MAX_INT32
  {
    var s := c.table.all[id];
    if s.body.None? then c else Replaced(Repaid(c, s.body.value.buffered), id, PipeClosed(s))
  }

  predicate ReturnsBody(c: Conn, id: nat, r: Run, d: Conn)
    requires id in c.table.all
  {
    if c.windows.connInflow + Buffered(c.table.all[id]) <= MAX_INT32 then r.Fine? && d == BodyReturned(c, id)
    else r == Panicked(ConnWindowOverflow)
  }

  /** A stream is closed while frames cannot be written: its bytes are returned, and its queue is dropped. */
  predicate ClosesWhole(c: Conn, id: nat, r: Run, d: Conn)
    requires id in c.table.all
  {
    if c.windows.connInflow + Buffered(c.table.all[id]) <= MAX_INT32
    then r.Fine? && d == Forgotten(BodyReturned(Unmapped(c, id), id), id)
    else r == Panicked(ConnWindowOverflow)
  }

  /**
   * The frames that are not to be started: those for a closed stream, and most of those for one that has ended here.
   */
  predicate ForClosed(t: Table, w: Write) {
    HasStream(w) && w.stream in t.all && t.all[w.stream].state == Closed
  }

  predicate ForHalfClosed(t: Table, w: Write) {
    && HasStream(w) && w.stream in t.all && t.all[w.stream].state == HalfClosedLocal && !w.HandlerPanicRST?
    && !w.StreamWindowUpdate?
  }

  /** The one write whose end can find its stream closed already: a handler's panic was to reset it. */
  predicate ClosesTwice(t: Table, w: Write) {
    w.HandlerPanicRST? && w.stream in t.all && t.all[w.stream].state == Closed
  }

  /**
   * How full the buffer is when a frame is to be written: always full for some frames, with room for others, and either
   * for the rest.
   */
  datatype Habit = Habit(full: set<Write>, room: set<Write>)

  /** The frame is always left to a writer goroutine. */
  predicate LeftToWriter(w: Write, habit: Habit) {
    !MayStayInBuffer(w) || w in habit.full
  }

  /** The frame is always written at once. */
  predicate AtOnce(w: Write, habit: Habit) {
    !LeftToWriter(w, habit) && w in habit.room
  }

  /** Where a frame that may be started goes, if that is fixed. */
  predicate Placed(c: Conn, habit: Habit, w: Write, r: Run, d: Conn) {
    && (LeftToWriter(w, habit) ==> r.Fine? && d == InBackground(Starting(c, w), w))
    && (AtOnce(w, habit) && Inert(w) ==> r.Fine? && d == Finishing(Starting(c, w)))
  }

  /** The same for any frame: some must not be started. */
  predicate StartedAs(c: Conn, habit: Habit, w: Write, r: Run, d: Conn) {
    && (r == Panicked(WriteOnClosed) <==> ForClosed(c.table, w))
    && (r == Panicked(WriteOnHalfClosed) <==> ForHalfClosed(c.table, w))
    && (!ForClosed(c.table, w) && !ForHalfClosed(c.table, w) && !w.PushPromise? ==> Placed(c, habit, w, r, d))
  }

  // ----- what the write loop is bound to do -----

  /** Nothing goes before the queues. */
  predicate Attends(f: Flags) {
    !f.writingFrame && !f.needToSendGoAway && !f.needToSendSettingsAck && PopPermitted(f)
  }

  /** The queue of id is the only one that is ready, and its first frame may be started. */
  ghost predicate NextFrom(c: Conn, habit: Habit, id: nat) {
    && Attends(c.flags) && MayPop(c, id, 0) && (forall k {:trigger ReadyIn(c, k)} :: ReadyIn(c, k) ==> k == id)
    && var w := c.queues[id][0];
       && LeftToWriter(w, habit) && !w.DataWrite? && !w.PushPromise? && !ForClosed(c.table, w)
       && !ForHalfClosed(c.table, w)
  }

  function Launched(c: Conn, id: nat): Conn
    requires MayPop(c, id, 0)
  {
    InBackground(Starting(Shifted(c, id, 0), c.queues[id][0]), c.queues[id][0])
  }

  predicate Fatal(t: Table, w: Write, why: Why) {
    (why == WriteOnClosed && ForClosed(t, w)) || (why == WriteOnHalfClosed && ForHalfClosed(t, w))
  }

  /**
   * The queue of id starts with a frame that must not be started, and all that can come before it are window updates
   * of the connection that are written at once.
   */
  ghost predicate DoomedAt(c: Conn, habit: Habit, why: Why, id: nat) {
    && Attends(c.flags) && MayPop(c, id, 0) && !c.queues[id][0].DataWrite? && Fatal(c.table, c.queues[id][0], why)
    && forall k {:trigger ReadyIn(c, k)} :: ReadyIn(c, k) && k != id ==>
         k == 0 && AtOnce(ConnWindowUpdate, habit) && forall w :: w in c.queues[0] ==> w == ConnWindowUpdate
  }

  ghost predicate Doomed(c: Conn, habit: Habit, why: Why) {
    exists id {:trigger DoomedAt(c, habit, why, id)} :: DoomedAt(c, habit, why, id)
  }

  /** What the write loop does where it has no choice. */
  ghost predicate Bound(c: Conn, habit: Habit, r: Run, d: Conn) {
    && (forall id {:trigger NextFrom(c, habit, id)} :: NextFrom(c, habit, id) ==> r.Fine? && d == Launched(c, id))
    && (Doomed(c, habit, WriteOnClosed) ==> r == Panicked(WriteOnClosed))
    && (Doomed(c, habit, WriteOnHalfClosed) ==> r == Panicked(WriteOnHalfClosed))
  }

  ghost predicate DoomedOn(c: Conn, habit: Habit, why: Why, d: Conn) {
    Doomed(c, habit, why) ==> !d.flags.writingFrameAsync && Doomed(d, habit, why)
  }

  /** The same of one turn of it, which does not end what it is bound to do. */
  ghost predicate StillBound(c: Conn, habit: Habit, d: Conn) {
    && (forall id {:trigger NextFrom(c, habit, id)} :: NextFrom(c, habit, id) ==> d == Launched(c, id))
    && DoomedOn(c, habit, WriteOnClosed, d) && DoomedOn(c, habit, WriteOnHalfClosed, d)
  }

  ghost predicate BoundOnce(c: Conn, habit: Habit, r: Run, more: bool, d: Conn) {
    if r.Fine? && more then StillBound(c, habit, d) else Bound(c, habit, r, d)
  }

  /** The response on an open stream is over. */
  function EndedHere(c: Conn, id: nat): Conn
    requires id in c.table.all
  {
    Replaced(c, id, c.table.all[id].(state := HalfClosedLocal))
  }

  /** The bytes a closed stream leaves unread are to be returned, and a frame that is still queued for it comes out. */
  ghost predicate FatalClose(c: Conn, habit: Habit, id: nat) {
    && id in c.table.streams && id in c.table.all && c.table.streams != {id} && Buffered(c.table.all[id]) > 0
    && Doomed(Requested(Unmapped(c, id), ConnWindowUpdate), habit, WriteOnClosed)
  }

  /** The end of a frame ends its stream while there are frames queued for it that can then not be started. */
  ghost predicate FatalEnd(c: Conn, habit: Habit, w: Write, why: Why) {
    && !c.flags.inFrameScheduleLoop && EndsStream(w) && w.stream in c.table.all
    && match why
       case WriteOnClosed => c.table.all[w.stream].state == HalfClosedRemote && FatalClose(c, habit, w.stream)
       case WriteOnHalfClosed =>
         && c.table.all[w.stream].state == Open
         && Doomed(Requested(EndedHere(c, w.stream), StreamReset(w.stream)), habit, WriteOnHalfClosed)
       case _ => false
  }

  /** A window update goes out, and the queue after it is doomed as before. */
  lemma StillDoomed(c: Conn, habit: Habit, why: Why, id: nat)
    requires DoomedAt(c, habit, why, id) && id != 0 && MayPop(c, 0, 0) && c.queues[0][0] == ConnWindowUpdate
    ensures Doomed(Finishing(Starting(Shifted(c, 0, 0), ConnWindowUpdate)), habit, why)
  {
    var d := Finishing(Starting(Shifted(c, 0, 0), ConnWindowUpdate));
    assert d.queues == c.queues[0 := c.queues[0][1..]];
    forall k: nat | ReadyIn(d, k) && k != id
      ensures k == 0 && AtOnce(ConnWindowUpdate, habit) && forall w :: w in d.queues[0] ==> w == ConnWindowUpdate {
      assert ReadyIn(c, 0) && (k != 0 ==> ReadyIn(c, k));
      assert forall w :: w in c.queues[0][1..] ==> w in c.queues[0];
    }
    assert DoomedAt(d, habit, why, id);
  }

  /** Where nothing can be popped the write loop is bound to nothing. */
  lemma NotBound(c: Conn, habit: Habit, r: Run, more: bool, d: Conn)
    requires Attends(c.flags) ==> NoneReady(c.queues, c.table.all, c.windows.connFlow, c.windows.maxFrameSize)
    ensures BoundOnce(c, habit, r, more, d)
  {
  }

  /** One more turn of the write loop, from d to e. */
  lemma BoundStep(c: Conn, habit: Habit, d: Conn, r: Run, more: bool, e: Conn)
    requires !d.flags.writingFrameAsync && (d == c || StillBound(c, habit, d)) && BoundOnce(d, habit, r, more, e)
    ensures if r.Fine? && more then StillBound(c, habit, e) else Bound(c, habit, r, e)
    ensures r.Fine? && more && e.flags.writingFrameAsync ==> Bound(c, habit, r, e)
  {
  }

  /** The write loop was entered in state c, and left in state d. */
  lemma BoundOutside(c: Conn, habit: Habit, r: Run, d: Conn)
    requires !c.flags.inFrameScheduleLoop && Bound(WithLoop(c, true), habit, r, d)
    ensures Bound(c, habit, r, if r.Fine? then WithLoop(d, false) else d)
  {
    var l := WithLoop(c, true);
    assert forall k {:trigger ReadyIn(c, k)} {:trigger ReadyIn(l, k)} :: ReadyIn(c, k) <==> ReadyIn(l, k);
    forall id: nat {:trigger NextFrom(c, habit, id)} | NextFrom(c, habit, id)
      ensures r.Fine? && WithLoop(d, false) == Launched(c, id) {
      assert NextFrom(l, habit, id);
    }
    forall why | Doomed(c, habit, why) ensures Doomed(l, habit, why) {
      var id :| DoomedAt(c, habit, why, id);
      assert DoomedAt(l, habit, why, id);
    }
  }

  /** The frame w was popped from the queue of id, which left m, and started. */
  lemma BoundByPop(c: Conn, habit: Habit, id: nat, n: int32, w: Write, m: Conn, r: Run, d: Conn)
    requires MayPop(c, id, n) && w == Gone(c.queues[id][0], n)
    requires m == Debited(Shifted(c, id, n), StreamID(c.queues[id][0]), n) && StartedAs(m, habit, w, r, d)
    ensures BoundOnce(c, habit, r, true, d)
  {
    assert ReadyIn(c, id);
    DoomedByPop(c, habit, id, n, w, m, r, d, WriteOnClosed);
    DoomedByPop(c, habit, id, n, w, m, r, d, WriteOnHalfClosed);
  }

  lemma DoomedByPop(c: Conn, habit: Habit, id: nat, n: int32, w: Write, m: Conn, r: Run, d: Conn, why: Why)
    requires MayPop(c, id, n) && w == Gone(c.queues[id][0], n)
    requires m == Debited(Shifted(c, id, n), StreamID(c.queues[id][0]), n) && StartedAs(m, habit, w, r, d)
    requires why == WriteOnClosed || why == WriteOnHalfClosed
    ensures Doomed(c, habit, why) ==>
              r == Panicked(why) || (r.Fine? && !d.flags.writingFrameAsync && Doomed(d, habit, why))
  {
    if Doomed(c, habit, why) {
      var k :| DoomedAt(c, habit, why, k);
      assert ReadyIn(c, id);
      if k != id {
        assert c.queues[0][0] in c.queues[0];
        StillDoomed(c, habit, why, k);
      }
    }
  }

  class ServerConn {
    const advMaxStreams: nat
    const habit: Habit

    var table: Table
    var queues: Queues
    var windows: Windows
    var flags: Flags
    var inFlight: Option<Write>

    var pushEnabled: bool
    var clientMaxStreams: nat
    var unackedSettings: int
    var sawFirstSettings: bool

    ghost var closing: set<nat>
    ghost var trace: seq<Step>
    ghost var stalled: bool

    ghost function View(): Conn
      reads this`table, this`queues, this`windows, this`flags, this`inFlight, this`closing, this`trace
    {
      Conn(advMaxStreams, table, queues, windows, flags, inFlight, closing, trace)
    }

    constructor (advMaxStreams: nat, habit: Habit)
      ensures Inv(View()) && NothingLeft(View()) && AllExact(table.all) && trace == []
      ensures this.advMaxStreams == advMaxStreams && this.habit == habit
      ensures !flags.inFrameScheduleLoop && closing == {} && !stalled
      ensures !sawFirstSettings
      ensures table == Table(map[], {}, 0, 0, 0, 0) && queues == map[] && inFlight == None && pushEnabled
      ensures unackedSettings == 0
      ensures windows == Windows(INITIAL_WINDOW, INITIAL_WINDOW, INITIAL_WINDOW, 16384)
      ensures flags == Flags(false, false, false, false, false, false, false, NO_ERROR)
    {
      this.advMaxStreams, this.habit := advMaxStreams, habit;
      table := Table(map[], {}, 0, 0, 0, 0);
      queues := map[];
      windows := Windows(INITIAL_WINDOW, INITIAL_WINDOW, INITIAL_WINDOW, 16384);
      flags := Flags(false, false, false, false, false, false, false, NO_ERROR);
      inFlight := None;
      pushEnabled, clientMaxStreams, unackedSettings, sawFirstSettings := true, 0xffff_ffff, 0, false;
      closing, trace, stalled := {}, [], false;
      new;
      StartInv(View());
    }

    /** A stream not in the map is idle exactly when its id is above the largest seen of its parity. */
    function State(id: nat): (r: StreamState)
      requires Inv(View())
      reads this
      ensures r == Idle <==> id > (if id % 2 == 1 then table.maxClientStreamID else table.maxPushPromiseID)
      ensures r != Idle && r != Closed <==> id in table.streams
      ensures id in table.streams ==> id in table.all && r == table.all[id].state
    {
      assert Holds(View(), InMap) && MappedAt(table.all, table.streams, id);
      assert Holds(View(), InIds) && Within(table.all.Keys, table.maxClientStreamID, table.maxPushPromiseID, id);
      StateOf(table, id)
    }

    // ----- the scheduler -----

    /**
     * Any scheduler that keeps a queue per stream. The two write schedulers choose among ready queues in their own
     * ways, and the priority scheduler may take less of a DATA frame than flow control allows.
     */
    method Pop() returns (w: Option<Write>, ghost id: nat, ghost n: int32)
      requires Inv(View()) && PopPermitted(flags)
      modifies this`queues, this`table, this`windows, this`trace
      ensures w.None? ==> View() == old(View()) && NoneReady(queues, table.all, windows.connFlow, windows.maxFrameSize)
      ensures w.Some? ==>
                Pending(w.value, table.streams, closing) && Replay(trace).Some? && Replay(trace).value.popped == w
      ensures w.Some? ==>
                Progress(old(View()), View(), if w.value.PushPromise? then -4 else -1, {}) && flags == old(flags)
      ensures w.Some? && Calm(old(View())) ==> PoppedCalmly(old(View()), w.value, View())
      ensures w.Some? ==>
                && MayPop(old(View()), id, n) && w.value == Gone(old(queues)[id][0], n)
                && View() == Debited(Shifted(old(View()), id, n), StreamID(old(queues)[id][0]), n)
    {
      ghost var c := View();
      id, n := 0, 0;
      if ready :| ready in queues && Ready(ready, queues, table.all, windows.connFlow, windows.maxFrameSize) {
        var most := Sent(queues[ready][0], table.all, windows);
        var some: int32 :| 0 <= some <= most && (most > 0 ==> some > 0);
        if Calm(c) { CalmPop(c, ready, some); }
        var taken := Take(ready, some);
        w, id, n := Some(taken), ready, some;
      } else {
        w := None;
      }
    }

    /** The first frame in the queue of id goes out, or n bytes of it; both windows are debited. */
    method Take(id: nat, n: int32) returns (w: Write)
      requires Inv(View()) && PopPermitted(flags) && MayPop(View(), id, n)
      modifies this`queues, this`table, this`windows, this`trace
      ensures w == Gone(old(queues[id][0]), n)
      ensures View() == Debited(Shifted(old(View()), id, n), StreamID(old(queues[id][0])), n)
      ensures Pending(w, table.streams, closing) && Replay(trace).Some? && Replay(trace).value.popped == Some(w)
      ensures Progress(old(View()), View(), if w.PushPromise? then -4 else -1, {}) && flags == old(flags)
    {
      TakeProgress(View(), id, n);
      var head := queues[id][0];
      var sid := StreamID(head);
      queues := queues[id := Left(queues[id], n)];
      trace := trace + [Dequeued(id, n)];
      if n > 0 {
        table := table.(all := table.all[sid := table.all[sid].(flow := table.all[sid].flow - n)]);
        windows := windows.(connFlow := windows.connFlow - n);
      }
      w := Gone(head, n);
    }

    // ----- the one writer -----

    /** Into the scheduler, unless it is to be ignored; then whatever can be written is written. */
    method WriteFrame(w: Write) returns (r: Run)
      requires Inv(View()) && Queueable(w) && (HasStream(w) ==> w.stream in table.all)
      modifies this`table, this`queues, this`windows, this`flags, this`inFlight, this`closing, this`trace
      decreases if flags.inFrameScheduleLoop then 0 else 1, 1
      ensures Stopped(r, trace)
      ensures r.Fine? ==> Progress(old(View()), View(), Weight(w), {}) && Extends(Requested(old(View()), w), View())
      ensures old(flags.writingFrame || flags.inFrameScheduleLoop) ==> r.Fine? && View() == Requested(old(View()), w)
      ensures r.Fine? && !flags.inFrameScheduleLoop ==> NothingLeft(View())
      ensures Calm(Requested(old(View()), w)) ==> r.Fine? && Drains(Requested(old(View()), w), View())
      ensures !old(flags.inFrameScheduleLoop) ==> Bound(Requested(old(View()), w), habit, r, View())
    {
      ghost var c := View();
      Request(w);
      ghost var d := View();
      r := ScheduleFrameWrite();
      if r.Fine? {
        assert Kept(d, View(), 0, {}, ToTrace);
        ProgressTrans(c, d, View(), Weight(w), 0, {});
      }
    }

    method Request(w: Write)
      requires Inv(View()) && Queueable(w) && (HasStream(w) ==> w.stream in table.all)
      modifies this`table, this`queues, this`trace
      ensures View() == Requested(old(View()), w) && Progress(old(View()), View(), Weight(w), {})
    {
      RequestProgress(View(), w);
      var ignoreWrite := StreamID(w) != 0 && !w.StreamReset? && State(StreamID(w)) == Closed;
      if w.ResHeaders? {
        table := table.(all := table.all[w.stream := table.all[w.stream].(wroteHeaders := true)]);
      } else if w.Continue100? && table.all[w.stream].wroteHeaders {
        ignoreWrite := true;
      }
      if !ignoreWrite {
        queues := queues[StreamID(w) := QueueOf(queues, StreamID(w)) + [w]];
        trace := trace + [Enqueued(w)];
      }
    }

    method ScheduleFrameWrite() returns (r: Run)
      requires Inv(View())
      modifies this`table, this`queues, this`windows, this`flags, this`inFlight, this`closing, this`trace
      decreases if flags.inFrameScheduleLoop then 0 else 1, 0
      ensures Stopped(r, trace)
      ensures r.Fine? ==> Progress(old(View()), View(), 0, {})
      ensures old(flags.writingFrame || flags.inFrameScheduleLoop) ==> r.Fine? && View() == old(View())
      ensures r.Fine? && !flags.inFrameScheduleLoop ==> NothingLeft(View())
      ensures Calm(old(View())) ==> r.Fine? && Drains(old(View()), View())
      ensures Calm(old(View())) && !old(flags.writingFrame) && flags.writingFrame ==> Due(View()) < Due(old(View()))
      ensures !old(flags.inFrameScheduleLoop) ==> Bound(old(View()), habit, r, View())
    {
      ghost var c := View();
      assert Holds(c, InWriter) && Holds(c, InTrace);
      SameProgress(c);
      if flags.writingFrame || flags.inFrameScheduleLoop {
        return Fine;
      }
      flags := flags.(inFrameScheduleLoop := true);
      EnterLoop(c);
      if Calm(c) {
        SameDrains(c, c);
        DrainsWithLoop(c, c, true);
      }
      ghost var l := View();
      r := WriteAll();
      BoundOutside(c, habit, r, View());
      if r.Panicked? {
        return;
      }
      LoopedTrans(c, l, View());
      LeaveLoop(c, View());
      if Calm(c) {
        DrainsTrans(c, l, View());
        assert Holds(View(), InWriter);
        DrainsWithLoop(c, View(), false);
      }
      flags := flags.(inFrameScheduleLoop := false);
      r := Fine;
    }

    /** Frames are written until one is left to a writer goroutine, or there is none to write. */
    method WriteAll() returns (r: Run)
      requires Inv(View()) && flags.inFrameScheduleLoop && !flags.writingFrame
      modifies this`table, this`queues, this`windows, this`flags, this`inFlight, this`closing, this`trace
      decreases if flags.inFrameScheduleLoop then 0 else 1, 13
      ensures Stopped(r, trace)
      ensures r.Fine? ==> Looped(old(View()), View()) && NothingLeft(View())
      ensures Calm(old(View())) ==>
                r.Fine? && Drains(old(View()), View()) && (flags.writingFrameAsync ==> Due(View()) < Due(old(View())))
      ensures Bound(old(View()), habit, r, View())
    {
      ghost var c := View();
      assert Holds(c, InWriter) && Holds(c, InTrace);
      SameProgress(c);
      ProgressLooped(c, c, 0, {});
      while !flags.writingFrameAsync
        invariant Looped(c, View())
        invariant Calm(c) ==> Drains(c, View()) && (flags.writingFrameAsync ==> Due(View()) < Due(c))
        invariant View() == c || StillBound(c, habit, View())
        invariant flags.writingFrameAsync ==> Bound(c, habit, Fine, View())
        decreases !flags.writingFrameAsync, Work(View())
      {
        ghost var d := View();
        WorkPositive(queues, table.all);
        var more;
        r, more := ScheduleOne();
        BoundStep(c, habit, d, r, more, View());
        if r.Panicked? {
          return;
        }
        LoopedTrans(c, d, View());
        if Calm(c) { DrainsTrans(c, d, View()); }
        if !more {
          break;
        }
      }
      r := Fine;
    }

    /** One turn of the write loop: the most urgent frame is started, or there is none. */
    method ScheduleOne() returns (r: Run, more: bool)
      requires Inv(View()) && flags.inFrameScheduleLoop && !flags.writingFrameAsync
      modifies this`table, this`queues, this`windows, this`flags, this`inFlight, this`closing, this`trace
      decreases if flags.inFrameScheduleLoop then 0 else 1, 12
      ensures Stopped(r, trace)
      ensures r.Fine? ==> Looped(old(View()), View())
      ensures r.Fine? && more ==> flags.writingFrameAsync || Work(View()) < Work(old(View()))
      ensures r.Fine? && !more ==> NothingLeft(View()) && View() == old(View())
      ensures Calm(old(View())) ==> r.Fine? && Drains(old(View()), View()) && (more ==> Due(View()) < Due(old(View())))
      ensures BoundOnce(old(View()), habit, r, more, View())
    {
      ghost var c := View();
      assert Holds(c, InWriter) && Holds(c, InTrace);
      more := true;
      if flags.needToSendGoAway || flags.needToSendSettingsAck {
        r := StartOwed();
        NotBound(c, habit, r, true, View());
        return;
      }
      SameProgress(c);
      ProgressLooped(c, c, 0, {});
      if PopPermitted(flags) {
        var some;
        r, some := WriteNext();
        if some {
          return;
        }
      }
      if flags.needsFrameFlush {
        r := StartFlush();
        NotBound(c, habit, r, true, View());
        return;
      }
      NotBound(c, habit, Fine, false, c);
      return Fine, false;
    }

    /** What the scheduler has to give is started. */
    method WriteNext() returns (r: Run, some: bool)
      requires Inv(View()) && flags.inFrameScheduleLoop && !flags.writingFrame && PopPermitted(flags)
      modifies this`table, this`queues, this`windows, this`flags, this`inFlight, this`closing, this`trace
      decreases if flags.inFrameScheduleLoop then 0 else 1, 11, 1
      ensures !some ==> r.Fine? && View() == old(View())
      ensures !some ==> NoneReady(queues, table.all, windows.connFlow, windows.maxFrameSize)
      ensures some ==> Stopped(r, trace) && BoundOnce(old(View()), habit, r, true, View())
      ensures some && r.Fine? ==>
                Looped(old(View()), View()) && (flags.writingFrameAsync || Work(View()) < Work(old(View())))
      ensures some && Calm(old(View())) ==> r.Fine? && Drains(old(View()), View()) && Due(View()) < Due(old(View()))
    {
      ghost var c := View();
      var w, id, n := Pop();
      if w.None? {
        return Fine, false;
      }
      ghost var d := View();
      r := WritePopped(w.value, c);
      BoundByPop(c, habit, id, n, w.value, d, r, View());
      some := true;
    }

    /** A GOAWAY that is due, or else a SETTINGS ack. */
    method StartOwed() returns (r: Run)
      requires Inv(View()) && flags.inFrameScheduleLoop && !flags.writingFrame
      requires (flags.needToSendGoAway || flags.needToSendSettingsAck)
      modifies this`table, this`queues, this`windows, this`flags, this`inFlight, this`closing, this`trace
      decreases if flags.inFrameScheduleLoop then 0 else 1, 11
      ensures Stopped(r, trace)
      ensures r.Fine? ==> Looped(old(View()), View()) && (flags.writingFrameAsync || Work(View()) < Work(old(View())))
      ensures Calm(old(View())) ==> r.Fine? && Drains(old(View()), View()) && Due(View()) < Due(old(View()))
    {
      ghost var c := View();
      assert Holds(c, InTrace) && Holds(c, InWriter);
      if flags.needToSendGoAway {
        var w := GoAway(table.maxClientStreamID, flags.goAwayCode);
        flags := flags.(needToSendGoAway := false);
        r := StartFrameWrite(w, c);
        if Calm(c) { StartDrains(c, w, View()); }
      } else {
        flags := flags.(needToSendSettingsAck := false);
        r := StartFrameWrite(SettingsAck, c);
        if Calm(c) { StartDrains(c, SettingsAck, View()); }
      }
    }

    method StartFlush() returns (r: Run)
      requires Inv(View()) && flags.inFrameScheduleLoop && !flags.writingFrame && flags.needsFrameFlush
      modifies this`table, this`queues, this`windows, this`flags, this`inFlight, this`closing, this`trace
      decreases if flags.inFrameScheduleLoop then 0 else 1, 11
      ensures Stopped(r, trace)
      ensures r.Fine? ==> Looped(old(View()), View()) && flags.writingFrameAsync
      ensures Calm(old(View())) ==> r.Fine? && Drains(old(View()), View()) && Due(View()) < Due(old(View()))
    {
      ghost var c := View();
      assert Holds(c, InTrace) && Holds(c, InWriter);
      r := StartFrameWrite(Flush, c);
      if r.Fine? {
        ghost var d := View();
        flags := flags.(needsFrameFlush := false);
        FlushLooped(d);
        LoopedTrans(c, d, Flushed(d));
        if Calm(c) { FlushDrains(c, d); }
      }
    }

    method WritePopped(w: Write, ghost c: Conn) returns (r: Run)
      requires Inv(c) && c.flags.inFrameScheduleLoop && !c.flags.writingFrame
      requires Progress(c, View(), if w.PushPromise? then -4 else -1, {}) && Pending(w, table.streams, closing)
      requires Replay(trace).Some? && Replay(trace).value.popped == Some(w)
      modifies this`table, this`queues, this`windows, this`flags, this`inFlight, this`closing, this`trace
      decreases if flags.inFrameScheduleLoop then 0 else 1, 11, 0
      ensures Stopped(r, trace)
      ensures r.Fine? ==> Looped(c, View()) && (flags.writingFrameAsync || Work(View()) < Work(c))
      ensures Calm(c) && PoppedCalmly(c, w, old(View())) ==> r.Fine? && Drains(c, View()) && Due(View()) < Due(c)
      ensures StartedAs(old(View()), habit, w, r, View())
    {
      ghost var d := View();
      ProgressLooped(c, d, if w.PushPromise? then -4 else -1, {});
      r := StartFrameWrite(w, d);
      if r.Fine? {
        LoopedTrans(c, d, View());
      }
      if Calm(c) && PoppedCalmly(c, w, d) {
        PoppedDrains(c, w, d, View());
      }
    }

    /** b is the state with the flag of a GOAWAY or SETTINGS ack still up. */
    method StartFrameWrite(w: Write, ghost b: Conn) returns (r: Run)
      requires Inv(b) && b.flags.inFrameScheduleLoop && View() == Lowered(b, w)
      requires HasStream(w) ==> w.stream in table.streams || w.stream in closing
      requires w.GoAway? ==> b.flags.inGoAway && b.flags.needToSendGoAway && w.maxStreamID == table.maxClientStreamID
      requires w.SettingsAck? ==> b.flags.needToSendSettingsAck
      requires Replay(trace).Some? && (Queueable(w) ==> Replay(trace).value.popped == Some(w))
      modifies this`table, this`queues, this`windows, this`flags, this`inFlight, this`closing, this`trace
      decreases if flags.inFrameScheduleLoop then 0 else 1, 10
      ensures r == Panicked(AlreadyWriting) <==> old(flags.writingFrame)
      ensures r != Panicked(AlreadyWriting) ==> Stopped(r, trace)
      ensures r == Panicked(WriteOnClosed) <==> !old(flags.writingFrame) && ForClosed(b.table, w)
      ensures r == Panicked(WriteOnHalfClosed) <==> !old(flags.writingFrame) && ForHalfClosed(b.table, w)
      ensures r.Fine? ==> Looped(b, View()) && (flags.writingFrameAsync || Work(View()) <= Work(b) + Extra(w))
      ensures r.Fine? && !MayStayInBuffer(w) && !w.PushPromise? ==> flags.writingFrameAsync
      ensures r.Fine? && !w.PushPromise? ==> b.trace + [Started(w)] <= trace
      ensures Startable(b.table, w) && !old(flags.writingFrame) ==> r.Fine? && Begun(b, w, View())
      ensures !old(flags.writingFrame) && !ForClosed(b.table, w) && !ForHalfClosed(b.table, w) && !w.PushPromise? ==>
                Placed(b, habit, w, r, View())
    {
      assert Holds(b, InTrace) && Holds(b, InWriter);
      if flags.writingFrame {
        return Panicked(AlreadyWriting);
      }
      if HasStream(w) {
        StartsOnMapped(b, w);
        var st := table.all[w.stream].state;
        if st == HalfClosedLocal && !w.HandlerPanicRST? && !w.StreamWindowUpdate? {
          return Panicked(WriteOnHalfClosed);
        } else if st == Closed {
          return Panicked(WriteOnClosed);
        }
      }
      r := Launch(w, b);
    }

    /** A frame that may be started is; a promise draws its id first, and is dropped if there is none to be had. */
    method Launch(w: Write, ghost b: Conn) returns (r: Run)
      requires Inv(b) && b.flags.inFrameScheduleLoop && !b.flags.writingFrame && View() == Lowered(b, w)
      requires CanStart(b, w)
      modifies this`table, this`queues, this`windows, this`flags, this`inFlight, this`closing, this`trace
      decreases if flags.inFrameScheduleLoop then 0 else 1, 9, 1
      ensures Stopped(r, trace)
      ensures r.Fine? || r == Panicked(ConnWindowOverflow) || r == Panicked(BadPushURL)
      ensures r.Fine? ==> Looped(b, View()) && (flags.writingFrameAsync || Work(View()) <= Work(b) + Extra(w))
      ensures r.Fine? && !MayStayInBuffer(w) && !w.PushPromise? ==> flags.writingFrameAsync
      ensures r.Fine? && !w.PushPromise? ==> b.trace + [Started(w)] <= trace
      ensures Inert(w) && !w.PushPromise? ==> r.Fine? && Begun(b, w, View())
      ensures !w.PushPromise? ==> Placed(b, habit, w, r, View())
    {
      ghost var d := b;
      SameProgress(b);
      ProgressLooped(b, b, 0, {});
      if w.PushPromise? {
        var ok;
        r, ok := AllocatePromisedID();
        if r.Panicked? || !ok {
          return;
        }
        d := View();
      }
      r := BeginWrite(w, d);
      if r.Fine? {
        LoopedTrans(b, d, View());
      }
    }

    method BeginWrite(w: Write, ghost d: Conn) returns (r: Run)
      requires Inv(d) && d.flags.inFrameScheduleLoop && CanStart(d, w)
      requires View() == Lowered(d, w)
      modifies this`table, this`queues, this`windows, this`flags, this`inFlight, this`closing, this`trace
      decreases if flags.inFrameScheduleLoop then 0 else 1, 9, 0
      ensures Stopped(r, trace)
      ensures r.Fine? || r == Panicked(ConnWindowOverflow)
      ensures r.Fine? ==>
                && Looped(d, View())
                && (flags.writingFrameAsync || Work(View()) <= Work(d) - if w.SettingsAck? then 1 else 0)
      ensures r.Fine? && !MayStayInBuffer(w) ==> flags.writingFrameAsync
      ensures r.Fine? ==> d.trace + [Started(w)] <= trace
      ensures Inert(w) ==> r.Fine? && Begun(d, w, View())
      ensures Placed(d, habit, w, r, View())
    {
      MarkStarted(w, d);
      var fits: bool :| (LeftToWriter(w, habit) ==> !fits) && (AtOnce(w, habit) ==> fits);
      if fits {
        r := WriteNow(w, d);
      } else {
        LeaveToWriter(w, d);
        r := Fine;
      }
    }

    method MarkStarted(w: Write, ghost d: Conn)
      requires View() == Lowered(d, w)
      modifies this`flags, this`trace
      ensures View() == Starting(d, w)
    {
      flags := flags.(writingFrame := true, needsFrameFlush := true);
      trace := trace + [Started(w)];
    }

    /** A writer goroutine takes the frame. */
    method LeaveToWriter(w: Write, ghost d: Conn)
      requires Inv(d) && d.flags.inFrameScheduleLoop && CanStart(d, w) && View() == Starting(d, w)
      modifies this`flags, this`inFlight
      ensures View() == InBackground(Starting(d, w), w) && Looped(d, View())
    {
      StartAsync(d, w);
      flags := flags.(writingFrameAsync := true);
      inFlight := Some(w);
    }

    /** A frame that stays within the buffer is written on the serve goroutine itself. */
    method WriteNow(w: Write, ghost d: Conn) returns (r: Run)
      requires Inv(d) && d.flags.inFrameScheduleLoop && CanStart(d, w) && View() == Starting(d, w)
      modifies this`table, this`queues, this`windows, this`flags, this`inFlight, this`closing, this`trace
      decreases if flags.inFrameScheduleLoop then 0 else 1, 8
      ensures Stopped(r, trace)
      ensures r.Fine? || r == Panicked(ConnWindowOverflow)
      ensures r.Fine? ==>
                && Looped(d, View()) && Work(View()) <= Work(d) - (if w.SettingsAck? then 1 else 0)
                && d.trace + [Started(w)] <= trace
      ensures Inert(w) ==> r.Fine? && View() == Finishing(Starting(d, w))
    {
      StartSync(d, w);
      if w.HandlerPanicRST? {
        assert Holds(d, InMap) && MappedAt(table.all, table.streams, w.stream);
      }
      flags := flags.(writingFrameAsync := false);
      assert Holds(d, InWriter);
      r := WroteFrame(w);
      if r.Fine? {
        assert Kept(Finishing(Starting(d, w)), View(), 0, {}, ToTrace);
        SyncLooped(d, w, View());
      }
    }

    method WroteFrame(w: Write) returns (r: Run)
      requires flags.writingFrame ==> Inv(Finishing(View()))
      requires HasStream(w) ==> Held(table, w.stream)
      modifies this`table, this`queues, this`windows, this`flags, this`inFlight, this`closing, this`trace
      decreases if flags.inFrameScheduleLoop then 0 else 1, 7
      ensures r == Panicked(NotWriting) <==> !old(flags.writingFrame)
      ensures r != Panicked(NotWriting) ==> Halted(r, trace) && r != Panicked(NilPipe)
      ensures old(flags.writingFrame && flags.inFrameScheduleLoop) && r.Panicked? ==>
                r.why == ConnWindowOverflow || r.why == CloseOnClosed
      ensures r == Panicked(CloseOnClosed) <==> old(flags.writingFrame && ClosesTwice(table, w))
      ensures r.Fine? ==>
                && old(flags.writingFrame) && Progress(Finishing(old(View())), View(), 0, {})
                && Concluded(old(table), w, table)
      ensures r.Fine? && !flags.inFrameScheduleLoop ==> NothingLeft(View())
      ensures old(flags.writingFrame && flags.inFrameScheduleLoop) && Inert(w) ==>
                r.Fine? && View() == Finishing(old(View()))
      ensures old(flags.writingFrame) && Inert(w) && Calm(Finishing(old(View()))) ==>
                && r.Fine? && Drains(Finishing(old(View())), View())
                && (!flags.inFrameScheduleLoop && flags.writingFrame ==> Due(View()) < Due(Finishing(old(View()))))
      ensures forall why {:trigger FatalEnd(Finishing(old(View())), habit, w, why)} ::
                old(flags.writingFrame) && FatalEnd(Finishing(old(View())), habit, w, why) ==> r == Panicked(why)
    {
      if !flags.writingFrame {
        return Panicked(NotWriting);
      }
      flags := flags.(writingFrame := false, writingFrameAsync := false);
      inFlight := None;
      trace := trace + [Finished];
      ghost var c := View();
      SameProgress(c);
      :- AfterWrite(w);
      ghost var d := View();
      r := ScheduleFrameWrite();
      if r.Fine? {
        StillConcluded(c, d, View(), w);
        ProgressTrans(c, d, View(), 0, 0, {});
      }
    }

    /** What a written frame means for its stream. */
    method AfterWrite(w: Write) returns (r: Run)
      requires Inv(View()) && !flags.writingFrame && (HasStream(w) ==> Held(table, w.stream))
      modifies this`table, this`queues, this`windows, this`flags, this`inFlight, this`closing, this`trace
      decreases if flags.inFrameScheduleLoop then 0 else 1, 6
      ensures Halted(r, trace) && r != Panicked(NilPipe)
      ensures old(flags.inFrameScheduleLoop) && r.Panicked? ==> r.why == ConnWindowOverflow || r.why == CloseOnClosed
      ensures r == Panicked(CloseOnClosed) <==> old(ClosesTwice(table, w))
      ensures Inert(w) ==> r.Fine? && View() == old(View())
      ensures r.Fine? ==> Progress(old(View()), View(), 0, {}) && Concluded(old(table), w, table)
      ensures forall why {:trigger FatalEnd(old(View()), habit, w, why)} ::
                FatalEnd(old(View()), habit, w, why) ==> r == Panicked(why)
    {
      ghost var c := View();
      SameProgress(c);
      assert Holds(c, InTrace) && Holds(c, InWriter);
      if EndsStream(w) {
        assert Holds(c, InMap) && MappedAt(table.all, table.streams, w.stream);
        if table.all[w.stream].state == Open {
          :- EndLocally(w.stream);
        } else if table.all[w.stream].state == HalfClosedRemote {
          :- CloseStream(w.stream);
          NoneGone(c, View(), -1, w.stream);
        }
      } else if w.StreamReset? {
        if w.id in table.streams {
          assert Holds(c, InMap) && MappedAt(table.all, table.streams, w.id);
          :- CloseStream(w.id);
          NoneGone(c, View(), -1, w.id);
        }
      } else if w.HandlerPanicRST? {
        assert Holds(c, InMap) && MappedAt(table.all, table.streams, w.stream);
        :- CloseStream(w.stream);
        NoneGone(c, View(), -1, w.stream);
      }
      r := Fine;
    }

    /** The response is over before the request: the stream is half-closed, and reset. */
    method EndLocally(id: nat) returns (r: Run)
      requires Inv(View()) && id in table.streams && id in table.all && table.all[id].state == Open
      modifies this`table, this`queues, this`windows, this`flags, this`inFlight, this`closing, this`trace
      decreases if flags.inFrameScheduleLoop then 0 else 1, 3
      ensures Stopped(r, trace)
      ensures old(flags.inFrameScheduleLoop) ==> r.Fine?
      ensures r.Fine? ==> Progress(old(View()), View(), 0, {}) && id in table.all
      ensures r.Fine? ==>
                table.all[id].state == Closed || (table.all[id].state == HalfClosedLocal && table.all[id].resetQueued)
      ensures !old(flags.inFrameScheduleLoop)
              && Doomed(Requested(EndedHere(old(View()), id), StreamReset(id)), habit, WriteOnHalfClosed) ==>
                r == Panicked(WriteOnHalfClosed)
    {
      ghost var c := View();
      var st := table.all[id].(state := HalfClosedLocal);
      ghost var d := Replaced(c, id, st);
      ReplaceProgress(c, id, st);
      table := table.(all := table.all[id := st]);
      :- ResetStream(id);
      assert Kept(d, View(), 1, {}, ToStreams) && LaterAt(d.table.all, table.all, id);
      assert Holds(View(), InMap) && MappedAt(table.all, table.streams, id);
      ProgressTrans(c, d, View(), -2, 1, {});
      MoreExtra(c, View(), -1, 0, {});
      r := Fine;
    }

    // ----- shutdown and resets -----

    method GoAwayIn(code: nat) returns (r: Run)
      requires Inv(View())
      modifies this`table, this`queues, this`windows, this`flags, this`inFlight, this`closing, this`trace
      decreases if flags.inFrameScheduleLoop then 0 else 1, 1
      ensures Stopped(r, trace)
      ensures r.Fine? ==> Progress(old(View()), View(), 0, {})
      ensures r.Fine? && old(flags.inGoAway) ==> View() == old(View())
      ensures r.Fine? && !old(flags.inGoAway) ==>
                flags.inGoAway && flags.goAwayCode == code && old(trace) + [Shutdown(code)] <= trace
      ensures r.Fine? && flags.inFrameScheduleLoop ==> table == old(table)
      ensures old(flags.inGoAway) ==> r.Fine?
      ensures !old(flags.inGoAway) && old(flags.writingFrame || flags.inFrameScheduleLoop) ==>
                r.Fine? && View() == ShuttingDown(old(View()), code)
      ensures !old(flags.inGoAway) && Calm(ShuttingDown(old(View()), code)) ==>
                r.Fine? && Drains(ShuttingDown(old(View()), code), View())
      ensures r.Fine? && !old(flags.inGoAway) && !flags.inFrameScheduleLoop ==> NothingLeft(View())
    {
      ghost var c := View();
      assert Holds(c, InTrace);
      SameProgress(c);
      if flags.inGoAway {
        return Fine;
      }
      ShutdownProgress(c, code);
      flags := flags.(inGoAway := true, needToSendGoAway := true, goAwayCode := code);
      trace := trace + [Shutdown(code)];
      r := ScheduleFrameWrite();
      if r.Fine? {
        assert Kept(ShuttingDown(c, code), View(), 0, {}, ToTrace);
        ProgressTrans(c, ShuttingDown(c, code), View(), 0, 0, {});
        ShutdownRemembered(View(), |c.trace|);
      }
    }

    method ResetStream(id: nat) returns (r: Run)
      requires Inv(View())
      modifies this`table, this`queues, this`windows, this`flags, this`inFlight, this`closing, this`trace
      decreases if flags.inFrameScheduleLoop then 0 else 1, 2
      ensures Stopped(r, trace)
      ensures old(flags.writingFrame || flags.inFrameScheduleLoop) ==> r.Fine?
      ensures r.Fine? ==> Progress(old(View()), View(), 1, {})
      ensures r.Fine? ==> old(trace) + [Enqueued(StreamReset(id))] <= trace
      ensures r.Fine? && id in table.streams ==> id in table.all && table.all[id].resetQueued
      ensures r.Fine? && id in table.all ==> !Receiving(table.all[id])
      ensures r.Fine? && !flags.inFrameScheduleLoop ==> NothingLeft(View())
      ensures !old(flags.inFrameScheduleLoop)
              && Doomed(Requested(old(View()), StreamReset(id)), habit, WriteOnHalfClosed) ==>
                r == Panicked(WriteOnHalfClosed)
    {
      ghost var c := View();
      :- WriteFrame(StreamReset(id));
      ghost var d := View();
      MarkReset(id);
      ProgressTrans(c, d, View(), 1, 0, {});
      r := Fine;
    }

    method MarkReset(id: nat)
      requires Inv(View())
      modifies this`table
      ensures Progress(old(View()), View(), 0, {}) && Replay(trace).Some?
      ensures id in table.streams ==> id in table.all && table.all[id].resetQueued
      ensures id in table.all ==> !Receiving(table.all[id])
      ensures old(NothingLeft(View())) ==> NothingLeft(View())
    {
      ghost var c := View();
      assert Holds(c, InMap) && MappedAt(table.all, table.streams, id) && Holds(c, InTrace);
      EqualProgress(c, c);
      if id in table.streams {
        ReplaceProgress(c, id, table.all[id].(resetQueued := true));
        table := table.(all := table.all[id := table.all[id].(resetQueued := true)]);
      }
    }

    // ----- windows -----

    /** No caller has 2^31 - 1 bytes to return at once, so there is one update. */
    method SendConnWindowUpdate(n: int32) returns (r: Run)
      requires Inv(View()) && 0 <= n
      modifies this`table, this`queues, this`windows, this`flags, this`inFlight, this`closing, this`trace
      decreases if flags.inFrameScheduleLoop then 0 else 1, 2, 1
      ensures Stopped(r, trace)
      ensures r.Fine? ==> Progress(old(View()), View(), 1, {}) && windows.connInflow >= old(windows.connInflow) + n
      ensures old(flags.writingFrame || flags.inFrameScheduleLoop) ==> Repays(old(View()), n, r, View())
      ensures r.Fine? && n > 0 ==> old(trace) + [Enqueued(ConnWindowUpdate)] <= trace
      ensures n == 0 ==> r.Fine? && View() == old(View())
      ensures r.Fine? && !flags.inFrameScheduleLoop ==> Looked(n > 0, old(View()), View())
      ensures n > 0 && !old(flags.inFrameScheduleLoop) ==>
                Doomed(Requested(old(View()), ConnWindowUpdate), habit, WriteOnClosed) ==> r == Panicked(WriteOnClosed)
    {
      ghost var c := View();
      if n == 0 {
        assert Holds(c, InTrace);
        SameProgress(c);
        MoreExtra(c, c, 0, 1, {});
        return Fine;
      }
      r := RepayConn(n);
    }

    method RepayConn(n: int32) returns (r: Run)
      requires Inv(View()) && 0 < n
      modifies this`table, this`queues, this`windows, this`flags, this`inFlight, this`closing, this`trace
      decreases if flags.inFrameScheduleLoop then 0 else 1, 2, 0, 1
      ensures Stopped(r, trace)
      ensures r.Fine? ==> Progress(old(View()), View(), 1, {}) && windows.connInflow >= old(windows.connInflow) + n
      ensures old(flags.writingFrame || flags.inFrameScheduleLoop) ==> Repays(old(View()), n, r, View())
      ensures r.Fine? ==> old(trace) + [Enqueued(ConnWindowUpdate)] <= trace
      ensures r.Fine? && !flags.inFrameScheduleLoop ==> NothingLeft(View())
      ensures !old(flags.inFrameScheduleLoop) ==>
                Doomed(Requested(old(View()), ConnWindowUpdate), habit, WriteOnClosed) ==> r == Panicked(WriteOnClosed)
    {
      ghost var c := View();
      assert Holds(c, InWindows);
      :- WriteConnWindowUpdate();
      ghost var d := View();
      assert Holds(d, InTrace);
      :- CreditConn(n);
      ProgressTrans(c, d, View(), 1, 0, {});
      r := Fine;
    }

    method WriteConnWindowUpdate() returns (r: Run)
      requires Inv(View())
      modifies this`table, this`queues, this`windows, this`flags, this`inFlight, this`closing, this`trace
      decreases if flags.inFrameScheduleLoop then 0 else 1, 2, 0, 0
      ensures Stopped(r, trace)
      ensures r.Fine? ==> Progress(old(View()), View(), 1, {}) && windows.connInflow >= old(windows.connInflow)
      ensures r.Fine? ==> old(trace) + [Enqueued(ConnWindowUpdate)] <= trace
      ensures old(flags.writingFrame || flags.inFrameScheduleLoop) ==>
                r.Fine? && View() == Requested(old(View()), ConnWindowUpdate)
      ensures r.Fine? && !flags.inFrameScheduleLoop ==> NothingLeft(View())
      ensures !old(flags.inFrameScheduleLoop) ==>
                Doomed(Requested(old(View()), ConnWindowUpdate), habit, WriteOnClosed) ==> r == Panicked(WriteOnClosed)
    {
      r := WriteFrame(ConnWindowUpdate);
    }

    method CreditConn(n: int32) returns (r: Run)
      requires Inv(View()) && 0 <= n
      modifies this`windows
      ensures if old(windows.connInflow) + n <= MAX_INT32
              then r.Fine? && windows == old(windows).(connInflow := old(windows.connInflow) + n)
              else r == Panicked(ConnWindowOverflow) && unchanged(this)
      ensures Progress(old(View()), View(), 0, {}) && (old(NothingLeft(View())) <==> NothingLeft(View()))
    {
      ghost var c := View();
      assert Holds(c, InWindows);
      if !AddAccepts(windows.connInflow, n) {
        EqualProgress(c, View());
        return Panicked(ConnWindowOverflow);
      }
      windows := windows.(connInflow := windows.connInflow + n);
      CreditProgress(c, View());
      r := Fine;
    }

    // ----- closing and opening streams -----

    /** Out of the map and the counters, then out of the scheduler; unread bytes go back to the connection's window. */
    method CloseStream(id: nat) returns (r: Run)
      requires Inv(View()) && Held(table, id) && id in table.all
      modifies this`table, this`queues, this`windows, this`flags, this`inFlight, this`closing, this`trace
      decreases if flags.inFrameScheduleLoop then 0 else 1, 5
      ensures if old(table.all[id].state) != Closed then Stopped(r, trace)
              else r == Panicked(CloseOnClosed) && unchanged(this) && Halted(r, trace)
      ensures r.Fine? ==> Progress(old(View()), View(), -1, {id})
      ensures r.Fine? ==> id !in table.streams && id !in queues && id in table.all && table.all[id].state == Closed
      ensures r.Fine? ==> windows.connInflow >= old(windows.connInflow) + Buffered(old(table.all[id]))
      ensures old(table.all[id].state) != Closed && old(flags.writingFrame || flags.inFrameScheduleLoop) ==>
                Returned(old(windows.connInflow), Buffered(old(table.all[id])), r, windows.connInflow)
      ensures old(table.all[id].state != Closed && (flags.writingFrame || flags.inFrameScheduleLoop)) ==>
                old(table.streams) != {id} ==> ClosesWhole(old(View()), id, r, View())
      ensures r.Fine? && !flags.inFrameScheduleLoop && (old(NothingLeft(View())) || Buffered(old(table.all[id])) > 0)
              ==> NothingLeft(View())
      ensures !old(flags.inFrameScheduleLoop) && FatalClose(old(View()), habit, id) ==> r == Panicked(WriteOnClosed)
    {
      ghost var c := View();
      assert Holds(c, InTrace) && Holds(c, InMap) && MappedAt(table.all, table.streams, id);
      if table.all[id].state == Closed {
        return Panicked(CloseOnClosed);
      }
      Unmap(id);
      ghost var u := View();
      :- AfterUnmap(id, u);
      StaysClosed(u, View(), 1, id);
      Forget(id, c);
      r := Fine;
    }

    /** Out of the map and the counters; the scheduler still has the queue. */
    method Unmap(id: nat)
      requires Inv(View()) && id in table.streams && id in table.all
      modifies this`table, this`closing
      ensures Inv(View()) && View() == Unmapped(old(View()), id)
      ensures old(NothingLeft(View())) ==> NothingLeft(View())
    {
      UnmapInv(View(), id);
      table := CloseIn(table, id);
      closing := closing + {id};
    }

    /** The scheduler drops the queue of a stream that has left the map. */
    method Forget(id: nat, ghost c: Conn)
      requires Inv(c) && id in c.table.streams && id in c.table.all && Progress(Unmapped(c, id), View(), 1, {})
      modifies this`queues, this`closing, this`trace
      ensures Progress(c, View(), -1, {id}) && View() == Forgotten(old(View()), id)
      ensures old(NothingLeft(View())) ==> NothingLeft(View())
    {
      CloseProgress(c, id, View());
      queues := queues - {id};
      closing := closing - {id};
      trace := trace + [Discarded(id)];
    }

    /** With the last stream gone and keep-alives disabled, shutdown begins. */
    method AfterUnmap(id: nat, ghost u: Conn) returns (r: Run)
      requires Inv(u) && View() == u && id in u.table.all && u.table.all[id].state == Closed
      modifies this`table, this`queues, this`windows, this`flags, this`inFlight, this`closing, this`trace
      decreases if flags.inFrameScheduleLoop then 0 else 1, 4
      ensures Stopped(r, trace)
      ensures r.Fine? ==>
                Progress(u, View(), 1, {}) && windows.connInflow >= u.windows.connInflow + Buffered(u.table.all[id])
      ensures u.flags.writingFrame || u.flags.inFrameScheduleLoop ==>
                Returned(u.windows.connInflow, Buffered(u.table.all[id]), r, windows.connInflow)
      ensures (u.flags.writingFrame || u.flags.inFrameScheduleLoop) && u.table.streams != {} ==>
                ReturnsBody(u, id, r, View())
      ensures r.Fine? && (NothingLeft(u) || Buffered(u.table.all[id]) > 0) && !flags.inFrameScheduleLoop ==>
                NothingLeft(View())
      ensures u.table.streams != {} && Buffered(u.table.all[id]) > 0 && !u.flags.inFrameScheduleLoop
               && Doomed(Requested(u, ConnWindowUpdate), habit, WriteOnClosed) ==>
                r == Panicked(WriteOnClosed)
    {
      SameProgress(u);
      if table.streams == {} {
        var keepAlivesDisabled: bool :| true;
        if keepAlivesDisabled {
          :- GoAwayIn(NO_ERROR);
        }
      }
      r := ReturnBody(id, u);
    }

    /** The unread bytes of a closed stream's body go back to the connection's window. */
    method ReturnBody(id: nat, ghost u: Conn) returns (r: Run)
      requires Inv(u) && Progress(u, View(), 0, {}) && id in u.table.all && u.table.all[id].state == Closed
      modifies this`table, this`queues, this`windows, this`flags, this`inFlight, this`closing, this`trace
      decreases if flags.inFrameScheduleLoop then 0 else 1, 3
      ensures Stopped(r, trace)
      ensures r.Fine? ==>
                Progress(u, View(), 1, {}) && windows.connInflow >= u.windows.connInflow + Buffered(u.table.all[id])
      ensures old(flags.writingFrame || flags.inFrameScheduleLoop) ==>
                id in old(table.all) && ReturnsBody(old(View()), id, r, View())
      ensures r.Fine? && (old(NothingLeft(View())) || Buffered(u.table.all[id]) > 0) && !flags.inFrameScheduleLoop ==>
                NothingLeft(View())
      ensures Buffered(u.table.all[id]) > 0 && !old(flags.inFrameScheduleLoop) ==>
                Doomed(Requested(old(View()), ConnWindowUpdate), habit, WriteOnClosed) ==> r == Panicked(WriteOnClosed)
    {
      ghost var c := View();
      assert Kept(u, c, 0, {}, ToTrace) && Holds(c, InTrace) && Holds(c, InLedgers) && SolventAt(table.all, id);
      assert Kept(u, c, 0, {}, ToStreams) && LaterAt(u.table.all, table.all, id);
      if table.all[id].body.None? {
        MoreExtra(u, c, 0, 1, {});
        return Fine;
      }
      :- SendConnWindowUpdate(table.all[id].body.value.buffered);
      ProgressTrans(u, c, View(), 0, 1, {});
      ClosePipe(id, u);
      r := Fine;
    }

    method ClosePipe(id: nat, ghost u: Conn)
      requires Inv(u) && Progress(u, View(), 1, {}) && id in u.table.all && u.table.all[id].state == Closed
      modifies this`table
      ensures id in old(table.all) && View() == Replaced(old(View()), id, PipeClosed(old(table.all[id])))
      ensures Progress(u, View(), 1, {}) && Replay(trace).Some? && (old(NothingLeft(View())) ==> NothingLeft(View()))
    {
      ghost var d := View();
      assert Holds(d, InTrace);
      assert Kept(u, d, 1, {}, ToStreams) && LaterAt(u.table.all, table.all, id);
      var st := PipeClosed(table.all[id]);
      ReplaceProgress(d, id, st);
      ProgressTrans(u, d, Replaced(d, id, st), 1, 0, {});
      table := table.(all := table.all[id := st]);
    }

    /** allocatePromisedID: the id of a promised stream is drawn just before the promise is written. */
    method AllocatePromisedID() returns (r: Run, ok: bool)
      requires Inv(View()) && flags.inFrameScheduleLoop && !flags.writingFrame
      modifies this`table, this`queues, this`windows, this`flags, this`inFlight, this`closing, this`trace
      decreases if flags.inFrameScheduleLoop then 0 else 1, 6
      ensures Stopped(r, trace)
      ensures r.Fine? || r == Panicked(BadPushURL)
      ensures r.Fine? ==> Looped(old(View()), View()) && !flags.writingFrame && inFlight == None
      ensures r.Fine? ==> table.streams >= old(table.streams) && Work(View()) <= Work(old(View())) + if ok then 2 else 0
      ensures r.Fine? && ok ==> SamePopped(old(View()), View()) && flags == old(flags)
      ensures r.Fine? ==> (ok <==> && old(pushEnabled) && old(table.curPushedStreams) + 1 <= clientMaxStreams
                                   && old(table.maxPushPromiseID) + 2 < MAX_ID)
      ensures r.Fine? && ok ==> && table.maxPushPromiseID == old(table.maxPushPromiseID) + 2
                                && table.all == old(table.all)[table.maxPushPromiseID :=
                                    Fresh(HalfClosedRemote, windows.initialWindowSize)]
      ensures r.Fine? && !ok ==> table == old(table)
    {
      ghost var c := View();
      SameProgress(c);
      ProgressLooped(c, c, 0, {});
      CountersSmall(c);
      if !pushEnabled || (table.curPushedStreams + 1) % UINT32 > clientMaxStreams {
        return Fine, false;
      }
      if table.maxPushPromiseID + 2 >= MAX_ID {
        r := GoAwayIn(NO_ERROR);
        if r.Fine? {
          ProgressLooped(c, View(), 0, {});
        }
        return r, false;
      }
      assert Holds(c, InIds);
      r := OpenPromised();
      return r, r.Fine?;
    }

    /** The promised stream, and the request made for it; a URL that does not parse is a panic. */
    method OpenPromised() returns (r: Run)
      requires Inv(View()) && flags.inFrameScheduleLoop && !flags.writingFrame && table.maxPushPromiseID + 2 < MAX_ID
      modifies this`table, this`trace
      ensures Stopped(r, trace)
      ensures r.Fine? || r == Panicked(BadPushURL)
      ensures View() == Promising(old(View())) && Looped(old(View()), View()) && SamePopped(old(View()), View())
      ensures Work(View()) == Work(old(View())) + 2 && inFlight == None
    {
      ghost var c := View();
      PromiseLooped(c);
      assert Holds(c, InIds) && Holds(c, InWriter);
      var id := table.maxPushPromiseID + 2;
      table := OpenIn(table.(maxPushPromiseID := id), id, Fresh(HalfClosedRemote, windows.initialWindowSize));
      trace := trace + [Saw(id)] + [Opened(id)];
      assert View() == Promising(c);
      var badURL: bool :| true;
      r := if badURL then Panicked(BadPushURL) else Fine;
    }

    /** A stream with a new id: the counter of its parity goes up by one. */
    method NewStream(id: nat, state: StreamState)
      requires Inv(View()) && CanOpen(View(), id, state)
      modifies this`table, this`trace
      ensures Inv(View()) && View() == Opening(old(View()), id, state) && SamePopped(old(View()), View())
      ensures Work(View()) == old(Work(View())) + StreamWeight(Fresh(state, windows.initialWindowSize))
    {
      OpenInv(View(), id, state);
      table := OpenIn(table, id, Fresh(state, windows.initialWindowSize));
      trace := trace + [Opened(id)];
    }
  }

  lemma StartInv(c: Conn)
    requires c.table == Table(map[], {}, 0, 0, 0, 0) && c.queues == map[] && c.closing == {} && c.trace == []
    requires c.inFlight == None
    requires c.flags == Flags(false, false, false, false, false, false, false, NO_ERROR)
    requires c.windows == Windows(INITIAL_WINDOW, INITIAL_WINDOW, INITIAL_WINDOW, 16384)
    ensures Inv(c) && NothingLeft(c) && AllExact(c.table.all)
  {
    assert OfParity(c.table.streams, 1) == {} && OfParity(c.table.streams, 0) == {};
    assert c.table.all.Keys == {};
    forall a ensures Holds(c, a) {
    }
  }
}
