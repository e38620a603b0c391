/** A run of the serve loop that ends in a connection that stalls. */
module ServerRuns {
  import opened Protocol
  import opened ServerTypes
  import opened ServerTrace
  import ServerWork
  import opened ServerInvariant
  import opened ServerSettings
  import opened Server
  import opened ServerEvents
  import opened ServerLoop

  // ----- queues that stay quiet -----

  /** Frames before any DATA can be written as long as their streams are in the same state. */
  lemma {:induction false} QuietElsewhere(q: seq<Write>, t: Table, w: Windows, t': Table, w': Windows)
    requires Quiet(q, t, w) && HeldBack(q) == []
    requires forall id :: id in t.streams && id in t.all ==>
              id in t'.streams && id in t'.all && t'.all[id].state == t.all[id].state
    ensures Quiet(q, t', w')
  {
    if q != [] {
      QuietElsewhere(q[1..], t, w, t', w');
    }
  }

  lemma {:induction false} QuietAppend(q: seq<Write>, t: Table, w: Windows, x: Write)
    requires Quiet(q, t, w) && HeldBack(q) == [] && Quiet([x], t, w)
    ensures Quiet(q + [x], t, w) && HeldBack(q + [x]) == HeldBack([x])
  {
    if q == [] {
      assert q + [x] == [x];
    } else {
      assert (q + [x])[1..] == q[1..] + [x];
      QuietAppend(q[1..], t, w, x);
    }
  }

  /** No DATA with bytes in it is queued. */
  ghost predicate NoneHeld(c: Conn) {
    forall id {:trigger QueueOf(c.queues, id)} :: HeldBack(QueueOf(c.queues, id)) == []
  }

  lemma CalmElsewhere(c: Conn, d: Conn)
    requires Calm(c) && NoneHeld(c) && d.queues == c.queues
    requires forall id :: id in c.table.streams && id in c.table.all ==>
               id in d.table.streams && id in d.table.all && d.table.all[id].state == c.table.all[id].state
    ensures Calm(d) && NoneHeld(d)
  {
    forall id ensures CalmAt(d, id) {
      assert CalmAt(c, id);
      QuietElsewhere(QueueOf(c.queues, id), c.table, c.windows, d.table, d.windows);
    }
  }

  lemma CalmPushed(c: Conn, w: Write)
    requires Calm(c) && NoneHeld(c) && Quiet([w], c.table, c.windows)
    ensures Calm(Pushed(c, w))
    ensures forall id {:trigger QueueOf(Pushed(c, w).queues, id)} ::
              HeldBack(QueueOf(Pushed(c, w).queues, id)) == if id == StreamID(w) then HeldBack([w]) else []
  {
    var d := Pushed(c, w);
    assert CalmAt(c, StreamID(w));
    QuietAppend(QueueOf(c.queues, StreamID(w)), c.table, c.windows, w);
    forall id ensures CalmAt(d, id) {
      assert CalmAt(c, id);
    }
    forall id: nat ensures HeldBack(QueueOf(d.queues, id)) == if id == StreamID(w) then HeldBack([w]) else [] {
      assert QueueOf(d.queues, id) == if id == StreamID(w) then QueueOf(c.queues, id) + [w] else QueueOf(c.queues, id);
    }
  }

  // ----- a connection that stalls -----

  /** Between two events, with only inert frames under way. */
  ghost predicate Staged(c: Conn) {
    Resting(c) && NothingLeft(c) && Calm(c) && (c.inFlight.Some? ==> Inert(c.inFlight.value))
  }

  lemma StillHeld(c: Conn, d: Conn)
    requires Drains(c, d)
    ensures NoneHeld(c) ==> NoneHeld(d)
    ensures forall id {:trigger QueueOf(d.queues, id)} ::
        HeldBack(QueueOf(d.queues, id)) == HeldBack(QueueOf(c.queues, id))
  {
    forall id: nat ensures HeldBack(QueueOf(d.queues, id)) == HeldBack(QueueOf(c.queues, id)) {
      assert HeldAt(c, d, id);
    }
  }

  /** The settings of the first frame: new streams get no window. */
  const SHUT: seq<Setting> := [Setting(INITIAL_WINDOW_SIZE, 0)]

  lemma ShutTaken(c: Conn)
    requires c.table.streams == {}
    ensures Taken(OutboundOf(c), {}, SHUT) == 1
    ensures AppliedAll(OutboundOf(c), {}, SHUT) == Outbound(c.windows.(initialWindowSize := 0), c.table.all)
  {
    var o := OutboundOf(c);
    assert SHUT[..0] == [] && !RejectsAt(o, {}, SHUT, 0);
    TakenIs(o, {}, SHUT, 1);
    assert Grown(o.all, {}, Growth(o.windows, 0)) == o.all;
  }

  method ShutWindows(sc: ServerConn)
    requires Staged(sc.View()) && NoneHeld(sc.View()) && sc.table == Table(map[], {}, 0, 0, 0, 0) && !sc.flags.inGoAway
    modifies sc
    ensures Staged(sc.View()) && NoneHeld(sc.View()) && sc.table == old(sc.table) && !sc.flags.inGoAway
    ensures sc.sawFirstSettings
    ensures sc.windows == old(sc.windows).(initialWindowSize := 0)
  {
    ghost var c, p := sc.View(), ClientOf(sc);
    ShutTaken(c);
    ghost var m := AckDueIn(With(c, AppliedAll(OutboundOf(c), {}, SHUT)));
    CalmElsewhere(c, m);
    var f := SettingsFrame(false, SHUT);
    var r, e, open := Turn(sc, Received(f));
    ghost var r0, d0, p0 :| FrameHandled(c, p, f, r0, e, d0, p0)
        && (e == NoErr ==> r == r0 && sc.View() == d0 && ClientOf(sc) == p0);
    StillHeld(m, sc.View());
  }

  /** Stream 1 as its request leaves it: the request is whole, and nothing may be sent on it yet. */
  ghost predicate Waiting(c: Conn) {
    && c.table.streams == {1} == c.table.all.Keys && c.table.all[1].state == HalfClosedRemote
    && c.table.all[1].flow == 0
    && c.windows.initialWindowSize == 0 && c.windows.connFlow == INITIAL_WINDOW && c.windows.maxFrameSize == 16384
  }

  method OpenStream(sc: ServerConn)
    requires Staged(sc.View()) && NoneHeld(sc.View()) && sc.table == Table(map[], {}, 0, 0, 0, 0) && !sc.flags.inGoAway
    requires sc.sawFirstSettings && sc.advMaxStreams > 0
    requires sc.windows == Windows(INITIAL_WINDOW, sc.windows.connInflow, 0, 16384)
    modifies sc
    ensures Staged(sc.View()) && NoneHeld(sc.View()) && Waiting(sc.View()) && !sc.flags.inGoAway
    ensures sc.table.all[1].body.None?
    ensures sc.sawFirstSettings && !sc.table.all[1].resetQueued && !sc.table.all[1].gotTrailerHeader
  {
    ghost var c, p := sc.View(), ClientOf(sc);
    var f := HeadersFrame(Headers(1, true, false, false, 0));
    var r, e, open := Turn(sc, Received(f));
    ghost var r0, d0, p0 :| FrameHandled(c, p, f, r0, e, d0, p0)
        && (e == NoErr ==> r == r0 && sc.View() == d0 && ClientOf(sc) == p0);
    CalmElsewhere(c, sc.View());
  }

  /** Response headers keep the queues as they should be for the rest. */
  lemma HeadersQueued(c: Conn, w: Write)
    requires Calm(c) && NoneHeld(c) && w == ResHeaders(1, false) && Quiet([w], c.table, c.windows)
    requires 1 in c.table.streams && 1 in c.table.all && !Ignored(c.table, w)
    ensures Calm(Requested(c, w)) && NoneHeld(Requested(c, w))
  {
    var n := HeadersNoted(c, w);
    CalmElsewhere(c, n);
    assert HeldBack([w][1..]) == [] && HeldBack([w]) == [];
    CalmPushed(n, w);
    forall id {:trigger QueueOf(Requested(c, w).queues, id)}
      ensures HeldBack(QueueOf(Requested(c, w).queues, id)) == [] {
    }
  }

  /** The handler sends its response headers. */
  method SendHeaders(sc: ServerConn)
    requires Staged(sc.View()) && NoneHeld(sc.View()) && Waiting(sc.View()) && !sc.flags.inGoAway
    modifies sc
    ensures Staged(sc.View()) && NoneHeld(sc.View()) && Waiting(sc.View()) && !sc.flags.inGoAway
  {
    ghost var c := sc.View();
    var w := ResHeaders(1, false);
    HeadersQueued(c, w);
    var r, e, open := Turn(sc, WantWrite(w));
    StillHeld(Requested(c, w), sc.View());
  }

  /** The handler sends ten bytes, which have to wait. */
  method SendData(sc: ServerConn)
    requires Staged(sc.View()) && NoneHeld(sc.View()) && Waiting(sc.View()) && !sc.flags.inGoAway
    modifies sc
    ensures Staged(sc.View()) && Waiting(sc.View()) && !sc.flags.inGoAway
    ensures HeldBack(QueueOf(sc.queues, 1)) == [DataWrite(1, 10, false)]
  {
    ghost var c := sc.View();
    var w := DataWrite(1, 10, false);
    CalmPushed(c, w);
    var r, e, open := Turn(sc, WantWrite(w));
    StillHeld(Requested(c, w), sc.View());
  }

  /** A graceful shutdown begins. */
  method ShutDown(sc: ServerConn)
    requires Staged(sc.View()) && Waiting(sc.View()) && !sc.flags.inGoAway
    requires HeldBack(QueueOf(sc.queues, 1)) == [DataWrite(1, 10, false)]
    modifies sc
    ensures Staged(sc.View()) && Waiting(sc.View()) && sc.flags.inGoAway && sc.flags.goAwayCode == NO_ERROR
    ensures HeldBack(QueueOf(sc.queues, 1)) == [DataWrite(1, 10, false)]
  {
    ghost var c := sc.View();
    ghost var s := ShuttingDown(c, NO_ERROR);
    SameButFlush(c, s);
    var r, e, open := Turn(sc, ShutdownRequested);
    StillHeld(s, sc.View());
  }

  /** Writes come to their end, until none is under way. */
  method Drain(sc: ServerConn)
    requires Staged(sc.View()) && Waiting(sc.View()) && sc.flags.inGoAway && sc.flags.goAwayCode == NO_ERROR
    requires HeldBack(QueueOf(sc.queues, 1)) == [DataWrite(1, 10, false)]
    modifies sc
    ensures Staged(sc.View()) && Waiting(sc.View()) && Unattended(sc.View())
    ensures HeldBack(QueueOf(sc.queues, 1)) == [DataWrite(1, 10, false)]
  {
    while sc.inFlight.Some?
      invariant Staged(sc.View()) && Waiting(sc.View()) && sc.flags.inGoAway && sc.flags.goAwayCode == NO_ERROR
      invariant HeldBack(QueueOf(sc.queues, 1)) == [DataWrite(1, 10, false)]
      decreases sc.inFlight.Some?, Due(sc.View())
    {
      ghost var d := sc.View();
      SameButFlush(d, Finishing(d));
      ServerWork.WorkPositive(d.queues, d.table.all);
      var r, e, open := Turn(sc, Wrote);
      StillHeld(Finishing(d), sc.View());
    }
    assert Holds(sc.View(), InWriter);
  }

  /** A window for stream 1, and then a value that is refused. */
  const OPEN: seq<Setting> := [Setting(INITIAL_WINDOW_SIZE, 100), Setting(ENABLE_PUSH, 2)]

  lemma OpenStalls(c: Conn)
    requires Calm(c) && Waiting(c) && Unattended(c) && HeldBack(QueueOf(c.queues, 1)) == [DataWrite(1, 10, false)]
    ensures Stalls(c, OPEN)
  {
    var o := OutboundOf(c);
    assert OPEN[..0] == [] && OPEN[..1] == [OPEN[0]] && OPEN[..1][..0] == [];
    assert !RejectsAt(o, {1}, OPEN, 0) && RejectsAt(o, {1}, OPEN, 1);
    TakenIs(o, {1}, OPEN, 1);
    var o' := AppliedAll(o, {1}, OPEN[..1]);
    assert o'.all[1].flow == 100;
    assert CalmAt(c, 1);
    assert CanSendUnder(c, o', 1);
  }

  /**
   * A run that stalls, whatever frames stay within the buffer. At its end no write is under way, and a frame could be
   * sent.
   */
  method StallingRun(advMaxStreams: nat, habit: Habit) returns (sc: ServerConn)
    requires advMaxStreams > 0
    ensures Resting(sc.View()) && sc.inFlight.None? && !NothingLeft(sc.View()) && sc.stalled
  {
    var r;
    sc, r := Begin(advMaxStreams, habit);
    ShutWindows(sc);
    OpenStream(sc);
    SendHeaders(sc);
    SendData(sc);
    ShutDown(sc);
    Drain(sc);
    OpenStalls(sc.View());
    var e, open;
    r, e, open := NotedTurn(sc, Received(SettingsFrame(false, OPEN)));
    assert Holds(sc.View(), InWriter);
  }
}
