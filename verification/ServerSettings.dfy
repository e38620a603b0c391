/** What the client's SETTINGS do to a connection: entries are applied in order, up to the first that is refused. */
module ServerSettings {
  import opened Basics
  import opened FlowControl
  import opened Protocol
  import opened ServerTypes
  import opened ServerTrace
  import opened ServerInvariant

  datatype Setting = Setting(id: nat, val: nat)

  /** Values that are refused whatever the state of the connection. */
  function SettingError(s: Setting): Err {
    if s.id == ENABLE_PUSH && s.val > 1 then ConnErr(PROTOCOL_ERROR)
    else if s.id == INITIAL_WINDOW_SIZE && s.val > MAX_INT32 then ConnErr(FLOW_CONTROL_ERROR)
    else if s.id == MAX_FRAME_SIZE && (s.val < 16384 || s.val > 0xff_ffff) then ConnErr(PROTOCOL_ERROR)
    else NoErr
  }

  // ----- windows that grow -----

  /** The difference of two initial window sizes, in 32 bits. */
  function Growth(w: Windows, val: nat): int32 {
    Wrap32(val - w.initialWindowSize)
  }

  /** The outbound windows of the streams in done have moved by growth, as 32-bit numbers; nothing else has changed. */
  predicate RegrownAt(a: Streams, b: Streams, done: set<nat>, growth: int32, id: nat) {
    && (id in a <==> id in b)
    && (id in a ==> b[id] == if id in done then a[id].(flow := Wrap32(a[id].flow + growth)) else a[id])
    && (id in a && id in done ==> AddAccepts(a[id].flow, growth))
  }

  ghost predicate Regrown(a: Streams, b: Streams, done: set<nat>, growth: int32) {
    forall id {:trigger RegrownAt(a, b, done, growth, id)} :: RegrownAt(a, b, done, growth, id)
  }

  lemma RegrowOne(a: Streams, b: Streams, done: set<nat>, growth: int32, id: nat)
    requires Regrown(a, b, done, growth) && id in b && id !in done && AddAccepts(b[id].flow, growth)
    ensures Regrown(a, b[id := b[id].(flow := Wrap32(b[id].flow + growth))], done + {id}, growth)
  {
    var b', done' := b[id := b[id].(flow := Wrap32(b[id].flow + growth))], done + {id};
    forall k ensures RegrownAt(a, b', done', growth, k) {
      assert RegrownAt(a, b, done, growth, k) && RegrownAt(a, b, done, growth, id);
    }
  }

  ghost function Grown(all: Streams, streams: set<nat>, growth: int32): Streams {
    Tabulated(all.Keys, id requires id in all =>
      if id in streams then all[id].(flow := Wrap32(all[id].flow + growth)) else all[id])
  }

  lemma RegrownIsGrown(a: Streams, b: Streams, streams: set<nat>, growth: int32)
    requires Regrown(a, b, streams, growth)
    ensures b == Grown(a, streams, growth)
  {
    forall id: nat ensures id in a <==> id in b {
      assert RegrownAt(a, b, streams, growth, id);
    }
    forall id | id in a ensures b[id] == Grown(a, streams, growth)[id] {
      assert RegrownAt(a, b, streams, growth, id);
    }
  }

  // ----- one entry -----

  /** The part of a connection that settings change and that decides what can be sent. */
  datatype Outbound = Outbound(windows: Windows, all: Streams)

  function OutboundOf(c: Conn): Outbound {
    Outbound(c.windows, c.table.all)
  }

  function With(c: Conn, o: Outbound): Conn {
    c.(windows := o.windows, table := c.table.(all := o.all))
  }

  predicate OverflowsAt(o: Outbound, s: Setting, id: nat) {
    id in o.all && !AddAccepts(o.all[id].flow, Growth(o.windows, s.val))
  }

  /** The window of some stream cannot move by the difference. */
  ghost predicate Overflows(o: Outbound, streams: set<nat>, s: Setting) {
    s.id == INITIAL_WINDOW_SIZE && exists id {:trigger OverflowsAt(o, s, id)} :: id in streams && OverflowsAt(o, s, id)
  }

  ghost predicate Rejects(o: Outbound, streams: set<nat>, s: Setting) {
    SettingError(s) != NoErr || Overflows(o, streams, s)
  }

  ghost function Refusal(o: Outbound, streams: set<nat>, s: Setting): Err {
    if SettingError(s) != NoErr then SettingError(s)
    else if Overflows(o, streams, s) then ConnErr(FLOW_CONTROL_ERROR)
    else NoErr
  }

  /** The effect of an entry that is not refused. */
  ghost function Applied(o: Outbound, streams: set<nat>, s: Setting): Outbound {
    if s.id == INITIAL_WINDOW_SIZE && s.val <= MAX_INT32 then
      Outbound(o.windows.(initialWindowSize := s.val), Grown(o.all, streams, Growth(o.windows, s.val)))
    else if s.id == MAX_FRAME_SIZE && 16384 <= s.val <= 0xff_ffff then o.(windows := o.windows.(maxFrameSize := s.val))
    else o
  }

  /** Windows that have all moved were all able to. */
  lemma RegrownFits(o: Outbound, all': Streams, streams: set<nat>, s: Setting)
    requires s.id == INITIAL_WINDOW_SIZE && s.val <= MAX_INT32
    requires Regrown(o.all, all', streams, Growth(o.windows, s.val))
    ensures !Rejects(o, streams, s) && Outbound(o.windows.(initialWindowSize := s.val), all') == Applied(o, streams, s)
  {
    RegrownIsGrown(o.all, all', streams, Growth(o.windows, s.val));
    forall id | id in streams ensures !OverflowsAt(o, s, id) {
      assert RegrownAt(o.all, all', streams, Growth(o.windows, s.val), id);
    }
  }

  /** The effect of an entry that some window cannot take: the windows visited before that one have moved. */
  ghost predicate PartlyApplied(o: Outbound, streams: set<nat>, s: Setting, o': Outbound) {
    && s.val <= MAX_INT32 && o'.windows == o.windows.(initialWindowSize := s.val)
    && exists done :: done <= streams && Regrown(o.all, o'.all, done, Growth(o.windows, s.val))
  }

  // ----- a list of entries -----

  ghost function AppliedAll(o: Outbound, streams: set<nat>, settings: seq<Setting>): Outbound {
    if settings == [] then o
    else
      var n := |settings| - 1;
      Applied(AppliedAll(o, streams, settings[..n]), streams, settings[n])
  }

  ghost predicate RejectsAt(o: Outbound, streams: set<nat>, settings: seq<Setting>, i: nat) {
    i < |settings| && Rejects(AppliedAll(o, streams, settings[..i]), streams, settings[i])
  }

  /** How many entries are applied before one is refused, if those before the i-th are applied. */
  ghost function TakenFrom(o: Outbound, streams: set<nat>, settings: seq<Setting>, i: nat): (k: nat)
    requires i <= |settings|
    ensures i <= k <= |settings| && (k < |settings| ==> RejectsAt(o, streams, settings, k))
    ensures forall j :: i <= j < k ==> !RejectsAt(o, streams, settings, j)
    decreases |settings| - i
  {
    if i == |settings| || RejectsAt(o, streams, settings, i) then i else TakenFrom(o, streams, settings, i + 1)
  }

  ghost function Taken(o: Outbound, streams: set<nat>, settings: seq<Setting>): nat {
    TakenFrom(o, streams, settings, 0)
  }

  lemma TakenIs(o: Outbound, streams: set<nat>, settings: seq<Setting>, k: nat)
    requires k <= |settings| && (k < |settings| ==> RejectsAt(o, streams, settings, k))
    requires forall i :: 0 <= i < k ==> !RejectsAt(o, streams, settings, i)
    ensures Taken(o, streams, settings) == k
  {
  }

  /** The last value given for a setting, if any. */
  function LastValue(settings: seq<Setting>, id: nat): Option<nat> {
    if settings == [] then None
    else
      var s := settings[|settings| - 1];
      if s.id == id then Some(s.val) else LastValue(settings[..|settings| - 1], id)
  }

  lemma OneMore(o: Outbound, streams: set<nat>, settings: seq<Setting>, i: nat)
    requires i < |settings|
    ensures AppliedAll(o, streams, settings[..i + 1])
        == Applied(AppliedAll(o, streams, settings[..i]), streams, settings[i])
    ensures forall id :: LastValue(settings[..i + 1], id) ==
              if settings[i].id == id then Some(settings[i].val) else LastValue(settings[..i], id)
  {
    var before, after := settings[..i], settings[..i + 1];
    assert after[..i] == before && after[i] == settings[i];
    forall id: nat
      ensures LastValue(after, id) == if settings[i].id == id then Some(settings[i].val) else LastValue(before, id)
    {
      assert LastValue(after, id) == if after[i].id == id then Some(after[i].val) else LastValue(after[..i], id);
    }
  }

  // ----- what a refused frame leaves behind -----

  /**
   * The shutdown is graceful and no write is outstanding: nobody looks for frames to send until the next event that
   * does.
   */
  predicate Unattended(c: Conn) {
    !c.flags.writingFrame && c.flags.inGoAway && c.flags.goAwayCode == NO_ERROR
  }

  predicate CanSendUnder(c: Conn, o: Outbound, id: nat) {
    Ready(id, c.queues, o.all, o.windows.connFlow, o.windows.maxFrameSize)
  }

  /**
   * SETTINGS whose first bad entry is bad by its value, refused in a graceful shutdown with no write outstanding, after
   * the entries before it have let some frame go out.
   */
  ghost predicate Stalls(c: Conn, settings: seq<Setting>) {
    var o := OutboundOf(c);
    var k := Taken(o, c.table.streams, settings);
    && Unattended(c) && k < |settings| && SettingError(settings[k]) != NoErr
    && exists id {:trigger CanSendUnder(c, AppliedAll(o, c.table.streams, settings[..k]), id)} ::
         CanSendUnder(c, AppliedAll(o, c.table.streams, settings[..k]), id)
  }

  /** The first bad entry makes the window of a stream overflow. */
  ghost predicate Overflowing(c: Conn, settings: seq<Setting>) {
    var o := OutboundOf(c);
    var k := Taken(o, c.table.streams, settings);
    k < |settings| && SettingError(settings[k]) == NoErr
  }

  /** The same stall after an overflow: it depends on the order in which the streams were visited. */
  ghost predicate MayStall(c: Conn, settings: seq<Setting>) {
    var o := OutboundOf(c);
    var k := Taken(o, c.table.streams, settings);
    && Unattended(c) && Overflowing(c, settings)
    && exists o', id :: PartlyApplied(AppliedAll(o, c.table.streams, settings[..k]), c.table.streams, settings[k], o')
        && CanSendUnder(c, o', id)
  }

  /**
   * Without a new initial window size no window moves, and the size of frames does not decide whether one can go out.
   */
  lemma {:induction false} WindowsStay(o: Outbound, streams: set<nat>, settings: seq<Setting>)
    requires forall i :: 0 <= i < |settings| ==> settings[i].id != INITIAL_WINDOW_SIZE
    ensures var o' := AppliedAll(o, streams, settings);
      && o'.all == o.all && o'.windows.connFlow == o.windows.connFlow
      && (o.windows.maxFrameSize > 0 ==> o'.windows.maxFrameSize > 0)
  {
    if settings != [] {
      WindowsStay(o, streams, settings[..|settings| - 1]);
    }
  }

  lemma HarmlessSettings(c: Conn, settings: seq<Setting>)
    requires forall i :: 0 <= i < |settings| ==> settings[i].id != INITIAL_WINDOW_SIZE
    requires c.windows.maxFrameSize > 0 && NothingLeft(c) && (c.flags.writingFrameAsync ==> c.flags.writingFrame)
    ensures !Stalls(c, settings) && !Overflowing(c, settings) && !MayStall(c, settings)
  {
    var o := OutboundOf(c);
    var k := Taken(o, c.table.streams, settings);
    WindowsStay(o, c.table.streams, settings[..k]);
    var o' := AppliedAll(o, c.table.streams, settings[..k]);
    if Unattended(c) {
      forall id ensures !CanSendUnder(c, o', id) {
        assert !Ready(id, c.queues, c.table.all, c.windows.connFlow, c.windows.maxFrameSize);
      }
    }
  }
}
