/** What a server connection does, step by step, and what must hold of every run. */
module ServerTrace {
  import opened Basics
  import opened Protocol
  import opened ServerTypes

  /**
   * The steps of a run: ids seen and streams opened, the start of shutdown, SETTINGS to be acknowledged, what goes
   * into the scheduler, comes out of it (with the bytes that flow control took) or is dropped there, and frame writes.
   */
  datatype Step =
    | Saw(id: nat)
    | Opened(id: nat)
    | Shutdown(code: nat)
    | AckDue
    | Enqueued(w: Write)
    | Dequeued(id: nat, n: nat)
    | Discarded(id: nat)
    | Started(w: Write)
    | Finished

  // ----- what is promised -----

  predicate IsGoAway(s: Step) {
    s.Started? && s.w.GoAway?
  }

  predicate IsClientOpen(s: Step) {
    s.Opened? && s.id % 2 == 1
  }

  /** At most one GOAWAY is written. */
  predicate OneGoAway(t: seq<Step>) {
    forall i, j :: 0 <= i < j < |t| ==> !(IsGoAway(t[i]) && IsGoAway(t[j]))
  }

  /** A GOAWAY names a stream at least as large as every client stream opened, before it or after it. */
  predicate GoAwayCovers(t: seq<Step>) {
    forall i, j :: 0 <= i < |t| && 0 <= j < |t| && IsGoAway(t[i]) && IsClientOpen(t[j]) ==>
        t[j].id <= t[i].w.maxStreamID
  }

  /** No client stream opens once shutdown has begun. */
  predicate NoOpenAfterShutdown(t: seq<Step>) {
    forall i, j :: 0 <= i < j < |t| ==> !(t[i].Shutdown? && IsClientOpen(t[j]))
  }

  /** Once shutdown has begun for an error, the scheduler is not asked for frames any more. */
  predicate NoPopAfterError(t: seq<Step>) {
    forall i, j :: 0 <= i < j < |t| ==> !(t[i].Shutdown? && t[i].code != NO_ERROR && t[j].Dequeued?)
  }

  predicate NeverReopened(t: seq<Step>) {
    forall i, j :: 0 <= i < j < |t| ==> !(t[i].Opened? && t[j].Opened? && t[i].id == t[j].id)
  }

  function Outstanding(t: seq<Step>): int {
    if t == [] then 0
    else Outstanding(t[..|t| - 1]) + (var s := t[|t| - 1]; if s.Started? then 1 else if s.Finished? then -1 else 0)
  }

  /** At every moment of the run at most one frame write is outstanding. */
  predicate OneWriter(t: seq<Step>) {
    forall k :: 0 <= k <= |t| ==> 0 <= Outstanding(t[..k]) <= 1
  }

  predicate Safe(t: seq<Step>) {
    OneGoAway(t) && GoAwayCovers(t) && NoOpenAfterShutdown(t) && NoPopAfterError(t) && NeverReopened(t) && OneWriter(t)
  }

  // ----- how the connection's fields follow the run -----

  /** The fields that decide which step may come next; popped is the frame that has just left the scheduler. */
  datatype Context = Context(
    ids: set<nat>,
    maxClientStreamID: nat,
    maxPushPromiseID: nat,
    inGoAway: bool,
    goAwayCode: nat,
    needToSendGoAway: bool,
    ackDue: bool,
    queues: Queues,
    writing: bool,
    popped: Option<Write>)

  const START := Context({}, 0, 0, false, NO_ERROR, false, false, map[], false, None)

  function QueueOf(queues: Queues, id: nat): seq<Write> {
    if id in queues then queues[id] else []
  }

  predicate MayFollow(c: Context, s: Step) {
    match s
    case Saw(id) => id > (if id % 2 == 1 then c.maxClientStreamID else c.maxPushPromiseID)
        && (id % 2 == 1 ==> !c.inGoAway)
    case Opened(id) => id !in c.ids && (id % 2 == 1 ==> !c.inGoAway && id <= c.maxClientStreamID)
    case Shutdown(_) => !c.inGoAway
    case AckDue => true
    case Enqueued(w) => Queueable(w)
    case Dequeued(id, n) => (!c.inGoAway || c.goAwayCode == NO_ERROR) && QueueOf(c.queues, id) != []
        && MayTake(c.queues[id][0], n)
    case Discarded(_) => true
    case Started(w) =>
      && !c.writing
      && (w.GoAway? ==> c.inGoAway && c.needToSendGoAway && w.maxStreamID == c.maxClientStreamID)
      && (w.SettingsAck? ==> c.ackDue)
      && (Queueable(w) ==> c.popped == Some(w))
    case Finished => c.writing
  }

  /** DATA goes out in pieces of at least one byte, unless it is empty; other frames go out whole. */
  predicate MayTake(w: Write, n: nat) {
    if w.DataWrite? then n <= w.len && (w.len > 0 ==> n > 0) else n == 0
  }

  function After(c: Context, s: Step): Context {
    match s
    case Saw(id) => if id % 2 == 1 then c.(maxClientStreamID := id) else c.(maxPushPromiseID := id)
    case Opened(id) => c.(ids := c.ids + {id})
    case Shutdown(code) => c.(inGoAway := true, goAwayCode := code, needToSendGoAway := true)
    case AckDue => c.(ackDue := true)
    case Enqueued(w) => c.(queues := c.queues[StreamID(w) := QueueOf(c.queues, StreamID(w)) + [w]])
    case Dequeued(id, n) =>
      var q := QueueOf(c.queues, id);
      if q == [] then c else c.(queues := c.queues[id := Left(q, n)], popped := Some(Gone(q[0], n)))
    case Discarded(id) => c.(queues := c.queues - {id})
    case Started(w) => c.(writing := true, needToSendGoAway := c.needToSendGoAway && !w.GoAway?,
                          ackDue := c.ackDue && !w.SettingsAck?, popped := None)
    case Finished => c.(writing := false)
  }

  /** The context a run leads to, if each of its steps was allowed. */
  function Replay(t: seq<Step>): Option<Context> {
    if t == [] then Some(START)
    else
      var c := Replay(t[..|t| - 1]);
      var s := t[|t| - 1];
      if c.Some? && MayFollow(c.value, s) then Some(After(c.value, s)) else None
  }

  lemma ReplayStep(t: seq<Step>, s: Step)
    requires Replay(t).Some? && MayFollow(Replay(t).value, s)
    ensures Replay(t + [s]) == Some(After(Replay(t).value, s))
  {
    assert (t + [s])[..|t|] == t;
  }

  /** The run leads to c, whatever frame was popped last. */
  ghost predicate Reaches(t: seq<Step>, c: Context) {
    Replay(t).Some? && c == Replay(t).value.(popped := None)
  }

  /** One more step, other than the start of a frame from the scheduler. */
  lemma ReachStep(t: seq<Step>, c: Context, s: Step)
    requires Reaches(t, c) && MayFollow(c, s)
    ensures Reaches(t + [s], After(c, s).(popped := None)) && Replay(t + [s]).Some?
    ensures s.Dequeued? ==> Replay(t + [s]).value.popped == After(c, s).popped
    ensures !s.Dequeued? && !s.Started? ==> Replay(t + [s]).value.popped == Replay(t).value.popped
  {
    ReplayStep(t, s);
  }

  /** The start of the frame that was popped. */
  lemma ReachStart(t: seq<Step>, c: Context, w: Write)
    requires Reaches(t, c) && MayFollow(Replay(t).value, Started(w))
    ensures Reaches(t + [Started(w)], After(c, Started(w)))
  {
    ReplayStep(t, Started(w));
  }

  /** What the context remembers of the run. */
  predicate Remembers(t: seq<Step>, c: Context) {
    && (forall i :: 0 <= i < |t| && t[i].Shutdown? ==> c.inGoAway && t[i].code == c.goAwayCode)
    && (forall i :: 0 <= i < |t| && IsGoAway(t[i]) ==>
        c.inGoAway && !c.needToSendGoAway && t[i].w.maxStreamID == c.maxClientStreamID)
    && (forall i :: 0 <= i < |t| && t[i].Opened? ==>
        t[i].id in c.ids && (t[i].id % 2 == 1 ==> t[i].id <= c.maxClientStreamID))
    && Outstanding(t) == if c.writing then 1 else 0
  }

  lemma OneWriterStep(t: seq<Step>, s: Step)
    requires OneWriter(t) && 0 <= Outstanding(t + [s]) <= 1
    ensures OneWriter(t + [s])
  {
    forall k | 0 <= k <= |t| + 1 ensures 0 <= Outstanding((t + [s])[..k]) <= 1 {
      if k <= |t| {
        assert (t + [s])[..k] == t[..k];
      } else {
        assert (t + [s])[..k] == t + [s];
      }
    }
  }

  lemma RemembersStep(t: seq<Step>, c: Context, s: Step)
    requires Remembers(t, c) && MayFollow(c, s)
    ensures Remembers(t + [s], After(c, s))
  {
    assert (t + [s])[..|t|] == t;
  }

  lemma SafeStep(t: seq<Step>, c: Context, s: Step)
    requires Safe(t) && Remembers(t, c) && MayFollow(c, s)
    ensures Safe(t + [s]) && Remembers(t + [s], After(c, s))
  {
    RemembersStep(t, c, s);
    OneWriterStep(t, s);
    GoAwayStep(t, c, s);
    OpenStep(t, c, s);
    PopStep(t, c, s);
  }

  lemma GoAwayStep(t: seq<Step>, c: Context, s: Step)
    requires OneGoAway(t) && GoAwayCovers(t) && Remembers(t, c) && MayFollow(c, s)
    ensures OneGoAway(t + [s]) && GoAwayCovers(t + [s])
  {
  }

  lemma OpenStep(t: seq<Step>, c: Context, s: Step)
    requires NoOpenAfterShutdown(t) && NeverReopened(t) && Remembers(t, c) && MayFollow(c, s)
    ensures NoOpenAfterShutdown(t + [s]) && NeverReopened(t + [s])
  {
  }

  lemma PopStep(t: seq<Step>, c: Context, s: Step)
    requires NoPopAfterError(t) && Remembers(t, c) && MayFollow(c, s)
    ensures NoPopAfterError(t + [s])
  {
  }

  /** Every run whose steps were all allowed keeps every promise. */
  lemma {:induction false} ReplayIsSafe(t: seq<Step>)
    requires Replay(t).Some?
    ensures Safe(t) && Remembers(t, Replay(t).value)
  {
    if t != [] {
      var t', s := t[..|t| - 1], t[|t| - 1];
      ReplayIsSafe(t');
      assert t == t' + [s];
      SafeStep(t', Replay(t').value, s);
    }
  }

  // ----- nothing is lost on the way through the scheduler -----

  function DataIn(s: Step, id: nat): nat {
    if s.Enqueued? && s.w.DataWrite? && s.w.stream == id then s.w.len else 0
  }

  function DataOut(s: Step, id: nat): nat {
    if s.Dequeued? && s.id == id then s.n else 0
  }

  function TotalIn(t: seq<Step>, id: nat): nat {
    if t == [] then 0 else TotalIn(t[..|t| - 1], id) + DataIn(t[|t| - 1], id)
  }

  function TotalOut(t: seq<Step>, id: nat): nat {
    if t == [] then 0 else TotalOut(t[..|t| - 1], id) + DataOut(t[|t| - 1], id)
  }

  function DataQueued(q: seq<Write>): nat {
    if q == [] then 0 else (if q[0].DataWrite? then q[0].len else 0) + DataQueued(q[1..])
  }

  predicate NeverDiscarded(t: seq<Step>, id: nat) {
    forall i :: 0 <= i < |t| ==> t[i] != Discarded(id)
  }

  lemma {:induction false} DataQueuedAppend(q: seq<Write>, w: Write)
    ensures DataQueued(q + [w]) == DataQueued(q) + if w.DataWrite? then w.len else 0
  {
    if q == [] {
      assert q + [w] == [w] && [w][1..] == [];
    } else {
      assert (q + [w])[1..] == q[1..] + [w];
      DataQueuedAppend(q[1..], w);
    }
  }

  lemma DataQueuedLeft(q: seq<Write>, n: nat)
    requires q != [] && MayTake(q[0], n)
    ensures DataQueued(q) == n + DataQueued(Left(q, n))
  {
    if q[0].DataWrite? && n < q[0].len {
      assert Left(q, n)[1..] == q[1..];
    }
  }

  /** Queues hold what belongs to them, and the bytes that went in and did not come out. */
  lemma {:induction false} BytesKept(t: seq<Step>, id: nat)
    requires Replay(t).Some? && id != 0 && NeverDiscarded(t, id)
    ensures TotalIn(t, id) == TotalOut(t, id) + DataQueued(QueueOf(Replay(t).value.queues, id))
  {
    if t != [] {
      var t', s := t[..|t| - 1], t[|t| - 1];
      assert forall i :: 0 <= i < |t'| ==> t'[i] == t[i];
      BytesKept(t', id);
      var c := Replay(t').value;
      match s
      case Enqueued(w) => DataQueuedAppend(QueueOf(c.queues, StreamID(w)), w);
      case Dequeued(k, n) => DataQueuedLeft(QueueOf(c.queues, k), n);
      case _ =>
    }
  }
}
