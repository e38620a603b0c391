/** The scheduler that ignores priorities: control frames first, then any stream that can send. */
module RandomScheduler {
  import opened Basics
  import opened FlowControl
  import opened WriteQueues

  /** What has been put in and taken out of a stream's queue since the stream was last closed. */
  datatype History = History(pushed: seq<Item>, popped: seq<Item>)

  ghost function HistoryOf(h: map<nat, History>, id: nat): History {
    if id in h then h[id] else History([], [])
  }

  /** Contents of the queues by stream id, 0 for the frames of the connection. */
  ghost function QueueOf(q: map<nat, seq<FrameWriteRequest>>, id: nat): seq<FrameWriteRequest> {
    if id in q then q[id] else []
  }

  /** What left a queue, followed by what is still in it, is what went in; only frames of the stream are in it. */
  ghost predicate Accounted(q: map<nat, seq<FrameWriteRequest>>, h: map<nat, History>, W: set<Flow>, id: nat) {
    var s := QueueOf(q, id);
    && AllValid(s) && Covers(W, s)
    && (forall k :: 0 <= k < |s| ==> s[k].StreamID() == id)
    && HistoryOf(h, id).popped + QueueItems(s) == HistoryOf(h, id).pushed
  }

  /** One frame, or a piece of one, has left the queue of stream id; the history records it. */
  ghost predicate IsPopped(q: map<nat, seq<FrameWriteRequest>>, h: map<nat, History>, id: nat, wr: FrameWriteRequest,
                           last: bool,
                           q': map<nat, seq<FrameWriteRequest>>, h': map<nat, History>) {
    && id in q && wr.StreamID() == id
    && q' == q[id := QueueOf(q', id)] && HeadTaken(q[id], QueueOf(q', id), wr, last)
    && h' == h[id := HistoryOf(h, id).(popped := HistoryOf(h, id).popped + ItemsOf(wr, last))]
  }

  ghost predicate AllAccounted(q: map<nat, seq<FrameWriteRequest>>, h: map<nat, History>, W: set<Flow>) {
    forall i: nat {:trigger Accounted(q, h, W, i)} :: Accounted(q, h, W, i)
  }

  /** Queues and history once wr has been pushed. */
  ghost predicate IsPushed(q: map<nat, seq<FrameWriteRequest>>, h: map<nat, History>, wr: FrameWriteRequest,
                           q': map<nat, seq<FrameWriteRequest>>, h': map<nat, History>) {
    var id := wr.StreamID();
    && q' == q[id := QueueOf(q, id) + [wr]]
    && h' == h[id := HistoryOf(h, id).(pushed := HistoryOf(h, id).pushed + ItemsOf(wr, true))]
  }

  lemma ProvidedPushed(q: map<nat, seq<FrameWriteRequest>>, h: map<nat, History>, wr: FrameWriteRequest,
                       q': map<nat, seq<FrameWriteRequest>>, h': map<nat, History>)
    requires IsPushed(q[wr.StreamID() := QueueOf(q, wr.StreamID())], h, wr, q', h')
    ensures IsPushed(q, h, wr, q', h')
  {
  }

  lemma PushAllAccounted(q: map<nat, seq<FrameWriteRequest>>, h: map<nat, History>, W: set<Flow>, wr: FrameWriteRequest,
                         q': map<nat, seq<FrameWriteRequest>>, h': map<nat, History>)
    requires AllAccounted(q, h, W) && wr.Valid() && IsPushed(q, h, wr, q', h')
    ensures AllAccounted(q', h', W + wr.Windows())
  {
    forall i: nat ensures Accounted(q', h', W + wr.Windows(), i) {
      assert Accounted(q, h, W, i) && Accounted(q, h, W, wr.StreamID());
      PushAccounted(q, h, W, W + wr.Windows(), wr, i);
    }
  }

  lemma PopAllAccounted(q: map<nat, seq<FrameWriteRequest>>, h: map<nat, History>, W: set<Flow>, id: nat,
                        wr: FrameWriteRequest, last: bool,
                        q': map<nat, seq<FrameWriteRequest>>, h': map<nat, History>)
    requires AllAccounted(q, h, W) && IsPopped(q, h, id, wr, last, q', h')
    requires AllValid(QueueOf(q', id)) && Covers(W, QueueOf(q', id))
    ensures AllAccounted(q', h', W)
  {
    forall i: nat ensures Accounted(q', h', W, i) {
      assert Accounted(q, h, W, i) && Accounted(q, h, W, id);
      PopAccounted(q, h, W, id, wr, last, q', h', i);
    }
  }

  lemma CloseAllAccounted(q: map<nat, seq<FrameWriteRequest>>, h: map<nat, History>, W: set<Flow>, id: nat)
    requires AllAccounted(q, h, W)
    ensures AllAccounted(q - {id}, h - {id}, W)
  {
    forall i: nat ensures Accounted(q - {id}, h - {id}, W, i) {
      assert Accounted(q, h, W, i);
    }
  }

  lemma PushAccounted(q: map<nat, seq<FrameWriteRequest>>, h: map<nat, History>, W: set<Flow>, W': set<Flow>,
                      wr: FrameWriteRequest, i: nat)
    requires Accounted(q, h, W, i) && Accounted(q, h, W, wr.StreamID()) && wr.Valid() && W + wr.Windows() == W'
    ensures var id := wr.StreamID();
            Accounted(q[id := QueueOf(q, id) + [wr]],
                      h[id := HistoryOf(h, id).(pushed := HistoryOf(h, id).pushed + ItemsOf(wr, true))], W', i)
  {
    var id := wr.StreamID();
    if i == id {
      var s := QueueOf(q, id);
      QueueItemsAppend(s, [wr]);
      QueueItemsOne(wr);
      Reassociate(HistoryOf(h, id).popped, QueueItems(s), ItemsOf(wr, true));
    }
  }

  lemma PopAccounted(q: map<nat, seq<FrameWriteRequest>>, h: map<nat, History>, W: set<Flow>, id: nat,
                     wr: FrameWriteRequest, last: bool,
                     q': map<nat, seq<FrameWriteRequest>>, h': map<nat, History>, i: nat)
    requires Accounted(q, h, W, i) && Accounted(q, h, W, id) && IsPopped(q, h, id, wr, last, q', h')
    requires AllValid(QueueOf(q', id)) && Covers(W, QueueOf(q', id))
    ensures Accounted(q', h', W, i)
  {
    if i == id {
      var s, s' := q[id], QueueOf(q', id);
      HeadTakenKeepsItems(s, s', wr, last);
      Reassociate(HistoryOf(h, id).popped, ItemsOf(wr, last), QueueItems(s'));
      forall k | 0 <= k < |s'| ensures s'[k].StreamID() == id {
        if last { assert s'[k] == s[k + 1]; } else if k > 0 { assert s'[k] == s'[1..][k - 1] == s[1..][k - 1] == s[k]; }
      }
    }
  }

  /** The bytes written for an unclosed stream, then the bytes still queued for it, are the bytes its handler wrote. */
  lemma PayloadConserved(q: map<nat, seq<FrameWriteRequest>>, h: map<nat, History>, W: set<Flow>, id: nat)
    requires AllAccounted(q, h, W)
    ensures Payload(HistoryOf(h, id).popped) + Payload(QueueItems(QueueOf(q, id))) == Payload(HistoryOf(h, id).pushed)
  {
    assert Accounted(q, h, W, id);
    PayloadAppend(HistoryOf(h, id).popped, QueueItems(QueueOf(q, id)));
  }

  /** A frame leaves with its END_STREAM flag and its reply channel only in one piece or in its last piece. */
  lemma FlagsLeaveLast(q: map<nat, seq<FrameWriteRequest>>, h: map<nat, History>, id: nat, wr: FrameWriteRequest,
                       last: bool,
                       q': map<nat, seq<FrameWriteRequest>>, h': map<nat, History>)
    requires IsPopped(q, h, id, wr, last, q', h')
    ensures (wr.write.Data? && wr.write.endStream) || wr.done.Some? ==> last
    ensures Payload(HistoryOf(h', id).popped)
         == Payload(HistoryOf(h, id).popped) + if wr.write.Data? then wr.write.p else []
  {
    PayloadAppend(HistoryOf(h, id).popped, ItemsOf(wr, last));
    if wr.write.Data? {
      var mark := [FrameEnd(Data([], wr.write.endStream), wr.done)];
      PayloadOfBytes(wr.write.p);
      PayloadAppend(Bytes(wr.write.p), mark);
      PayloadAppend(Bytes(wr.write.p), []);
      assert Bytes(wr.write.p) + [] == Bytes(wr.write.p);
      assert Payload(mark) == [];
    } else {
      assert Payload(ItemsOf(wr, last)) == [];
    }
  }

  class Scheduler {
    const zero: WriteQueue
    var sq: map<nat, WriteQueue>
    var queuePool: seq<WriteQueue>
    ghost var queues: map<nat, seq<FrameWriteRequest>>  // what is queued, by stream
    ghost var windows: set<Flow>  // the windows queued frames draw on
    ghost var history: map<nat, History>

    constructor ()
      ensures Valid() && queues == map[0 := []] && history == map[] && windows == {} && fresh(Objects())
    {
      zero := new WriteQueue();
      sq, queuePool, queues, windows, history := map[], [], map[0 := []], {}, map[];
    }

    ghost function Objects(): set<WriteQueue>
      reads this`sq, this`queuePool
    {
      {zero} + (set i | i in sq :: sq[i]) + (set q | q in queuePool)
    }

    /** No queue serves two streams, and queues waiting for reuse are empty and serve none. */
    ghost predicate Separate()
      reads this`sq, this`queuePool, Objects()
    {
      && 0 !in sq
      && (forall i :: i in sq ==> sq[i] != zero && sq[i] !in queuePool)
      && (forall i, j :: i in sq && j in sq && i != j ==> sq[i] != sq[j])
      && zero !in queuePool
      && (forall i, j :: 0 <= i < j < |queuePool| ==> queuePool[i] != queuePool[j])
      && (forall q :: q in queuePool ==> q.s == [])
    }

    ghost predicate Valid()
      reads this, Objects()
    {
      && Separate()
      && queues.Keys == sq.Keys + {0} && queues[0] == zero.s && (forall i :: i in sq ==> queues[i] == sq[i].s)
      && AllAccounted(queues, history, windows)
    }

    /** queuePool.get: a queue that is empty and serves no stream. */
    method GetQueue() returns (q: WriteQueue)
      requires Separate()
      modifies this`queuePool
      ensures Separate() && q.s == [] && q != zero && q !in queuePool && (forall i :: i in sq ==> sq[i] != q)
      ensures q in old(queuePool) || fresh(q)
      ensures forall x :: x in queuePool ==> x in old(queuePool)
    {
      var ln := |queuePool|;
      if ln == 0 {
        q := new WriteQueue();
      } else {
        q := queuePool[ln - 1];
        queuePool := queuePool[..ln - 1];
      }
    }

    /** queuePool.put: clears a queue that no longer serves a stream and keeps it. */
    method PutQueue(q: WriteQueue)
      requires Separate() && q != zero && q !in queuePool && (forall i :: i in sq ==> sq[i] != q)
      modifies this`queuePool, q
      ensures Separate() && queuePool == old(queuePool) + [q]
    {
      q.s := [];
      queuePool := queuePool + [q];
    }

    /** A queue for the stream, if it has none. */
    method Provide(id: nat)
      requires Valid() && id != 0
      modifies this`sq, this`queuePool, this`queues
      ensures Valid() && id in sq && queues == old(queues)[id := QueueOf(old(queues), id)] && history == old(history)
      ensures sq[id] in old(Objects()) || fresh(sq[id])
      ensures fresh(Objects() - old(Objects()))
    {
      if id !in sq {
        var q := GetQueue();
        sq := sq[id := q];
        queues := queues[id := []];
        assert QueueOf(old(queues), id) == [];
        forall i: nat ensures Accounted(queues, history, windows, i) {
          assert Accounted(old(queues), history, windows, i);
        }
      }
    }

    method Push(wr: FrameWriteRequest)
      requires Valid() && wr.Valid()
      modifies this, Objects()
      ensures Valid() && windows == old(windows) + wr.Windows()
      ensures IsPushed(old(queues), old(history), wr, queues, history)
      ensures fresh(Objects() - old(Objects()))
    {
      var id := wr.StreamID();
      if id == 0 {
        Append(zero, 0, wr);
      } else {
        ghost var q0, h0 := queues, history;
        Provide(id);
        Append(sq[id], id, wr);
        ProvidedPushed(q0, h0, wr, queues, history);
      }
    }

    /** Puts wr at the end of the queue q of its stream. */
    method Append(q: WriteQueue, id: nat, wr: FrameWriteRequest)
      requires Valid() && wr.Valid() && id == wr.StreamID() && id in queues && q == if id == 0 then zero else sq[id]
      modifies this`queues, this`windows, this`history, q
      ensures Valid() && windows == old(windows) + wr.Windows()
      ensures IsPushed(old(queues), old(history), wr, queues, history)
    {
      ghost var q' := queues[id := queues[id] + [wr]];
      ghost var was := HistoryOf(history, id);
      ghost var h' := history[id := was.(pushed := was.pushed + ItemsOf(wr, true))];
      PushAllAccounted(queues, history, windows, wr, q', h');
      q.Push(wr);
      Enter(q', h', windows + wr.Windows());
    }

    ghost method Enter(q': map<nat, seq<FrameWriteRequest>>, h': map<nat, History>, W: set<Flow>)
      requires Separate() && q'.Keys == sq.Keys + {0} && q'[0] == zero.s && (forall i :: i in sq ==> q'[i] == sq[i].s)
      requires AllAccounted(q', h', W)
      modifies this`queues, this`history, this`windows
      ensures Valid() && queues == q' && history == h' && windows == W
    {
      queues, history, windows := q', h', W;
    }

    /**
     * The next frame, or the piece of one that flow control allows. Nothing is returned only if every queue is empty or
     * starts with a DATA frame that has a used-up window, and then nothing changes.
     */
    method Pop() returns (wr: FrameWriteRequest, ok: bool, ghost last: bool, ghost id: nat)
      requires Valid()
      modifies this`queues, this`history, Objects(), windows
      ensures Valid() && Objects() == old(Objects())
      ensures !ok <==> forall i :: i in old(queues) ==> Exhausted(old(queues)[i], old(WindowsOf(windows)))
      ensures !ok ==> queues == old(queues) && history == old(history) && WindowsOf(windows) == old(WindowsOf(windows))
      ensures ok ==> IsPopped(old(queues), old(history), id, wr, last, queues, history)
      ensures ok ==> WindowsOf(windows) == Debited(old(WindowsOf(windows)), HeadWindows(old(queues)[id]), wr.DataSize())
      ensures ok && wr.DataSize() > 0 ==> wr.DataSize() <= wr.stream.sc.maxFrameSize
    {
      last, id := true, 0;
      if zero.s != [] {
        wr := PopZero();
        ok := true;
      } else {
        wr, ok, last, id := PopStreams();
      }
    }

    /** The streams' turns, in the order of the map's iteration. */
    method PopStreams() returns (wr: FrameWriteRequest, ok: bool, ghost last: bool, ghost id: nat)
      requires Valid() && zero.s == []
      modifies this`queues, this`history, Objects(), windows
      ensures Valid() && Objects() == old(Objects())
      ensures !ok <==> forall i :: i in old(queues) ==> Exhausted(old(queues)[i], old(WindowsOf(windows)))
      ensures !ok ==> queues == old(queues) && history == old(history) && WindowsOf(windows) == old(WindowsOf(windows))
      ensures ok ==> IsPopped(old(queues), old(history), id, wr, last, queues, history)
      ensures ok ==> WindowsOf(windows) == Debited(old(WindowsOf(windows)), HeadWindows(old(queues)[id]), wr.DataSize())
      ensures ok && wr.DataSize() > 0 ==> wr.DataSize() <= wr.stream.sc.maxFrameSize
    {
      ghost var F := WindowsOf(windows);
      last, id := false, 0;
      var left := sq.Keys;
      while left != {}
        invariant left <= sq.Keys && zero.s == []
        invariant Valid() && queues == old(queues) && history == old(history) && WindowsOf(windows) == F
        invariant forall i :: i in queues && i !in left ==> Exhausted(queues[i], F)
        decreases left
      {
        var i :| i in left;
        wr, ok, last := TryPop(i);
        if ok {
          id := i;
          return;
        }
        left := left - {i};
      }
      return FrameWriteRequest(Other(0), null, None), false, last, id;
    }

    ghost method Record(q': map<nat, seq<FrameWriteRequest>>, h': map<nat, History>)
      requires Separate() && q'.Keys == sq.Keys + {0} && q'[0] == zero.s && (forall i :: i in sq ==> q'[i] == sq[i].s)
      requires AllAccounted(q', h', windows)
      modifies this`queues, this`history
      ensures Valid() && queues == q' && history == h' && WindowsOf(windows) == old(WindowsOf(windows))
    {
      queues, history := q', h';
    }

    /** A frame of the connection. */
    method PopZero() returns (wr: FrameWriteRequest)
      requires Valid() && zero.s != []
      modifies this`queues, this`history, zero
      ensures Valid() && IsPopped(old(queues), old(history), 0, wr, true, queues, history)
      ensures wr.DataSize() == 0 && !Stuck(old(zero.s)[0], WindowsOf(windows))
      ensures WindowsOf(windows) == old(WindowsOf(windows)) && HeadWindows(old(zero.s)) == {}
    {
      assert Accounted(queues, history, windows, 0);
      wr := zero.s[0];
      assert wr.StreamID() == 0 && wr.Valid() && wr.DataSize() == 0;
      ghost var q' := queues[0 := zero.s[1..]];
      ghost var h' := history[0 := HistoryOf(history, 0).(popped := HistoryOf(history, 0).popped + ItemsOf(wr, true))];
      PopAllAccounted(queues, history, windows, 0, wr, true, q', h');
      var _ := zero.Shift();
      Record(q', h');
    }

    /** One stream's turn. */
    method TryPop(i: nat) returns (wr: FrameWriteRequest, ok: bool, ghost last: bool)
      requires Valid() && i in sq
      modifies this`queues, this`history, sq[i], windows
      ensures Valid()
      ensures ok <==> !Exhausted(old(queues)[i], old(WindowsOf(windows)))
      ensures !ok ==> queues == old(queues) && history == old(history) && WindowsOf(windows) == old(WindowsOf(windows))
      ensures ok ==> IsPopped(old(queues), old(history), i, wr, last, queues, history)
      ensures ok ==> WindowsOf(windows) == Debited(old(WindowsOf(windows)), HeadWindows(old(queues)[i]), wr.DataSize())
      ensures ok && wr.DataSize() > 0 ==> wr.DataSize() <= wr.stream.sc.maxFrameSize
    {
      assert Accounted(queues, history, windows, i);
      wr, ok, last := sq[i].Consume(MAX_INT32, windows);
      assert Separate() && queues[0] == zero.s && forall j :: j in sq && j != i ==> queues[j] == sq[j].s;
      if ok {
        ghost var q' := queues[i := sq[i].s];
        ghost var was := HistoryOf(history, i);
        ghost var h' := history[i := was.(popped := was.popped + ItemsOf(wr, last))];
        PopAllAccounted(queues, history, windows, i, wr, last, q', h');
        Record(q', h');
      }
    }

    /** Frames still queued for the stream are dropped; its queue is cleared and kept for another stream. */
    method CloseStream(streamID: nat)
      requires Valid()
      modifies this, Objects()
      ensures Valid() && streamID !in sq && windows == old(windows) && Objects() <= old(Objects())
      ensures streamID in old(sq) ==> queues == old(queues) - {streamID} && history == old(history) - {streamID}
      ensures streamID !in old(sq) ==> queues == old(queues) && history == old(history)
    {
      if streamID !in sq {
        return;
      }
      CloseAllAccounted(queues, history, windows, streamID);
      var q := sq[streamID];
      sq := sq - {streamID};
      PutQueue(q);
      Record(queues - {streamID}, history - {streamID});
    }
  }

  // ----- runs -----

  /** Credit: a window moves, by WINDOW_UPDATE or by SETTINGS. */
  datatype Op = Push(wr: FrameWriteRequest) | Pop | Close(id: nat) | Credit(flow: Flow, k: int32)

  function Pushed(ops: seq<Op>): seq<FrameWriteRequest> {
    if ops == [] then [] else Pushed(ops[..|ops| - 1]) + (var op := ops[|ops| - 1]; if op.Push? then [op.wr] else [])
  }

  predicate NeverClosed(ops: seq<Op>, id: nat) {
    forall i :: 0 <= i < |ops| ==> ops[i] != Close(id)
  }

  /** The windows an operation draws on or moves. */
  function WindowsAt(op: Op): set<Flow> {
    match op
    case Push(wr) => wr.Windows()
    case Credit(flow, _) => {flow}
    case _ => {}
  }

  ghost function WindowsIn(ops: seq<Op>): set<Flow> {
    set i, f | 0 <= i < |ops| && f in WindowsAt(ops[i]) :: f
  }

  lemma PushedStep(ops: seq<Op>, i: nat)
    requires i < |ops|
    ensures Pushed(ops[..i + 1]) == if ops[i].Push? then Pushed(ops[..i]) + [ops[i].wr] else Pushed(ops[..i])
  {
    assert ops[..i + 1][..i] == ops[..i];
  }

  /** What has been recorded for a stream is what went in and came out. */
  ghost predicate Recorded(h: map<nat, History>, ops: seq<Op>, outs: seq<FrameWriteRequest>, lasts: seq<bool>, id: nat)
    requires |outs| == |lasts|
  {
    HistoryOf(h, id) == History(ItemsFor(Pushed(ops), AllLast(Pushed(ops)), id), ItemsFor(outs, lasts, id))
  }

  lemma RecordPush(h: map<nat, History>, q: map<nat, seq<FrameWriteRequest>>, ops: seq<Op>, i: nat,
                   outs: seq<FrameWriteRequest>, lasts: seq<bool>,
                   id: nat, q': map<nat, seq<FrameWriteRequest>>, h': map<nat, History>)
    requires |outs| == |lasts| && i < |ops| && ops[i].Push? && Recorded(h, ops[..i], outs, lasts, id)
    requires IsPushed(q, h, ops[i].wr, q', h')
    ensures Recorded(h', ops[..i + 1], outs, lasts, id)
  {
    PushedStep(ops, i);
    AllLastAppend(Pushed(ops[..i]), ops[i].wr);
    ItemsForAppend(Pushed(ops[..i]), AllLast(Pushed(ops[..i])), ops[i].wr, true, id);
  }

  lemma RecordPop(h: map<nat, History>, q: map<nat, seq<FrameWriteRequest>>, ops: seq<Op>, outs: seq<FrameWriteRequest>,
                  lasts: seq<bool>,
                  id: nat, k: nat, wr: FrameWriteRequest, last: bool,
                  q': map<nat, seq<FrameWriteRequest>>, h': map<nat, History>)
    requires |outs| == |lasts| && Recorded(h, ops, outs, lasts, id) && Unmarked(outs, lasts)
    requires IsPopped(q, h, k, wr, last, q', h')
    ensures Recorded(h', ops, outs + [wr], lasts + [last], id) && Unmarked(outs + [wr], lasts + [last])
  {
    ItemsForAppend(outs, lasts, wr, last, id);
  }

  /**
   * Any run of pushes, pops, closes and window updates, and any stream that is not closed in it. What was popped for
   * the stream followed by what is queued for it is what was pushed for it: byte by byte, frame end by frame end, in
   * order. END_STREAM and the reply channel leave with the last piece of a frame only.
   */
  method Exercise(ops: seq<Op>, ghost id: nat)
    returns (s: Scheduler, outs: seq<FrameWriteRequest>, ghost lasts: seq<bool>)
    requires forall i :: 0 <= i < |ops| && ops[i].Push? ==> ops[i].wr.Valid()
    requires NeverClosed(ops, id)
    modifies WindowsIn(ops)
    ensures s.Valid() && |outs| == |lasts| && Unmarked(outs, lasts)
    ensures ItemsFor(outs, lasts, id) + QueueItems(QueueOf(s.queues, id))
        == ItemsFor(Pushed(ops), AllLast(Pushed(ops)), id)
    ensures PayloadFor(outs, id) + Payload(QueueItems(QueueOf(s.queues, id))) == PayloadFor(Pushed(ops), id)
  {
    s := new Scheduler();
    outs, lasts := Run(s, ops, 0, [], [], id);
    Settled(s.queues, s.history, s.windows, ops, outs, lasts, id);
  }

  /** The operations from the i-th on. */
  method Run(s: Scheduler, ops: seq<Op>, i: nat, outs: seq<FrameWriteRequest>, ghost lasts: seq<bool>, ghost id: nat)
    returns (outs': seq<FrameWriteRequest>, ghost lasts': seq<bool>)
    requires forall k :: 0 <= k < |ops| && ops[k].Push? ==> ops[k].wr.Valid()
    requires s.Valid() && i <= |ops| && NeverClosed(ops, id) && s.windows <= WindowsIn(ops)
    requires |outs| == |lasts| && Recorded(s.history, ops[..i], outs, lasts, id) && Unmarked(outs, lasts)
    modifies s, s.Objects(), WindowsIn(ops)
    ensures s.Valid() && |outs'| == |lasts'| && Recorded(s.history, ops, outs', lasts', id) && Unmarked(outs', lasts')
    decreases |ops| - i
  {
    outs', lasts' := outs, lasts;
    if i < |ops| {
      outs', lasts' := Step(s, ops, i, outs, lasts, id);
      outs', lasts' := Run(s, ops, i + 1, outs', lasts', id);
    } else {
      assert ops[..i] == ops;
    }
  }

  lemma Settled(q: map<nat, seq<FrameWriteRequest>>, h: map<nat, History>, W: set<Flow>, ops: seq<Op>,
                outs: seq<FrameWriteRequest>, lasts: seq<bool>, id: nat)
    requires AllAccounted(q, h, W) && |outs| == |lasts| && Recorded(h, ops, outs, lasts, id)
    ensures ItemsFor(outs, lasts, id) + QueueItems(QueueOf(q, id)) == ItemsFor(Pushed(ops), AllLast(Pushed(ops)), id)
    ensures PayloadFor(outs, id) + Payload(QueueItems(QueueOf(q, id))) == PayloadFor(Pushed(ops), id)
  {
    assert Accounted(q, h, W, id);
    PayloadConserved(q, h, W, id);
    PayloadOfItems(outs, lasts, id);
    PayloadOfItems(Pushed(ops), AllLast(Pushed(ops)), id);
  }

  method Step(s: Scheduler, ops: seq<Op>, i: nat, outs: seq<FrameWriteRequest>, ghost lasts: seq<bool>, ghost id: nat)
    returns (outs': seq<FrameWriteRequest>, ghost lasts': seq<bool>)
    requires s.Valid() && i < |ops| && ops[i] != Close(id) && (ops[i].Push? ==> ops[i].wr.Valid())
    requires |outs| == |lasts| && Recorded(s.history, ops[..i], outs, lasts, id) && Unmarked(outs, lasts)
    modifies s, s.Objects(), s.windows, WindowsAt(ops[i])
    ensures s.Valid() && fresh(s.Objects() - old(s.Objects())) && s.windows <= old(s.windows) + WindowsAt(ops[i])
    ensures |outs'| == |lasts'| && Recorded(s.history, ops[..i + 1], outs', lasts', id) && Unmarked(outs', lasts')
  {
    outs', lasts' := outs, lasts;
    match ops[i]
    case Push(_) => StepPush(s, ops, i, outs, lasts, id);
    case Pop => outs', lasts' := StepPop(s, ops, i, outs, lasts, id);
    case Close(_) => StepClose(s, ops, i, outs, lasts, id);
    case Credit(flow, k) =>
      PushedStep(ops, i);
      var _ := flow.Add(k);
  }

  method StepPush(s: Scheduler, ops: seq<Op>, i: nat, ghost outs: seq<FrameWriteRequest>, ghost lasts: seq<bool>,
                  ghost id: nat)
    requires s.Valid() && i < |ops| && ops[i].Push? && ops[i].wr.Valid()
    requires |outs| == |lasts| && Recorded(s.history, ops[..i], outs, lasts, id)
    modifies s, s.Objects()
    ensures s.Valid() && fresh(s.Objects() - old(s.Objects())) && s.windows == old(s.windows) + ops[i].wr.Windows()
    ensures Recorded(s.history, ops[..i + 1], outs, lasts, id)
  {
    ghost var q, h := s.queues, s.history;
    s.Push(ops[i].wr);
    RecordPush(h, q, ops, i, outs, lasts, id, s.queues, s.history);
  }

  method StepPop(s: Scheduler, ops: seq<Op>, i: nat, outs: seq<FrameWriteRequest>, ghost lasts: seq<bool>,
                 ghost id: nat)
    returns (outs': seq<FrameWriteRequest>, ghost lasts': seq<bool>)
    requires s.Valid() && i < |ops| && ops[i].Pop?
    requires |outs| == |lasts| && Recorded(s.history, ops[..i], outs, lasts, id) && Unmarked(outs, lasts)
    modifies s, s.Objects(), s.windows
    ensures s.Valid() && s.Objects() == old(s.Objects()) && s.windows == old(s.windows)
    ensures |outs'| == |lasts'| && Recorded(s.history, ops[..i + 1], outs', lasts', id) && Unmarked(outs', lasts')
  {
    ghost var q, h := s.queues, s.history;
    PushedStep(ops, i);
    var wr, ok, last, k := s.Pop();
    outs', lasts' := outs, lasts;
    if ok {
      RecordPop(h, q, ops[..i + 1], outs, lasts, id, k, wr, last, s.queues, s.history);
      outs', lasts' := outs + [wr], lasts + [last];
    }
  }

  method StepClose(s: Scheduler, ops: seq<Op>, i: nat, ghost outs: seq<FrameWriteRequest>, ghost lasts: seq<bool>,
                   ghost id: nat)
    requires s.Valid() && i < |ops| && ops[i].Close? && ops[i].id != id
    requires |outs| == |lasts| && Recorded(s.history, ops[..i], outs, lasts, id)
    modifies s, s.Objects()
    ensures s.Valid() && s.Objects() <= old(s.Objects()) && s.windows == old(s.windows)
    ensures Recorded(s.history, ops[..i + 1], outs, lasts, id)
  {
    ghost var h := s.history;
    PushedStep(ops, i);
    s.CloseStream(ops[i].id);
    assert HistoryOf(s.history, id) == HistoryOf(h, id);
  }
}
