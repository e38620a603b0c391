/** Whole runs of the priority write scheduler. */
module PriorityRuns {
  import opened Basics
  import opened FlowControl
  import opened WriteQueues
  import opened PriorityNodes
  import opened PriorityTree
  import opened PriorityWalk
  import opened PriorityUpdates
  import opened PriorityScheduler
  import opened StreamTree

  /** Credit: a window moves, by WINDOW_UPDATE or by SETTINGS. */
  datatype Op =
    | Open(id: nat, pusher: nat)
    | Close(id: nat)
    | Adjust(id: nat, dep: nat, exclusive: bool, weight: nat)
    | Push(wr: FrameWriteRequest)
    | Pop
    | Credit(flow: Flow, k: int32)

  function Pushed(ops: seq<Op>): seq<FrameWriteRequest> {
    if ops == [] then [] else Pushed(ops[..|ops| - 1]) + (var op := ops[|ops| - 1]; if op.Push? then [op.wr] else [])
  }

  /** The windows an operation draws on or moves. */
  function WindowsAt(op: Op): set<Flow> {
    match op
    case Push(wr) => wr.Windows()
    case Credit(flow, _) => {flow}
    case _ => {}
  }

  ghost function WindowsIn(ops: seq<Op>): set<Flow> {
    set i, f | 0 <= i < |ops| && f in WindowsAt(ops[i]) :: f
  }

  predicate Opened(ops: seq<Op>, id: nat) {
    exists i :: 0 <= i < |ops| && ops[i].Open? && ops[i].id == id
  }

  /** No priority is heard about the stream before it is open. */
  predicate NotEarly(ops: seq<Op>, id: nat) {
    forall i :: 0 <= i < |ops| && ops[i].Adjust? && ops[i].id == id ==> Opened(ops[..i], id)
  }

  /** How many times priorities are heard. */
  function Adjusts(ops: seq<Op>): nat {
    if ops == [] then 0 else Adjusts(ops[..|ops| - 1]) + if ops[|ops| - 1].Adjust? then 1 else 0
  }

  /**
   * A stream that is not closed and whose node is not discarded to make room: no priority is heard about it before it
   * is open, or the list of idle nodes is unbounded, or too long to be filled by the priorities heard in the run.
   */
  predicate Steady(ops: seq<Op>, id: nat, maxIdle: int) {
    && (forall i :: 0 <= i < |ops| ==> ops[i] != Close(id))
    && (NotEarly(ops, id) || maxIdle <= 0 || Adjusts(ops) <= maxIdle)
  }

  // ----- where the frames of a stream are -----

  ghost function RootQueue(w: World): seq<FrameWriteRequest> {
    if 0 in w.nodes && w.nodes[0] in w.d then w.d[w.nodes[0]].q else []
  }

  ghost function OwnQueue(w: World, id: nat): seq<FrameWriteRequest> {
    if id != 0 && id in w.nodes && w.nodes[id] in w.d then w.d[w.nodes[id]].q else []
  }

  /** What is queued for a stream: frames from before it had a node wait at the root. */
  ghost function Queued(w: World, id: nat): seq<Item> {
    QueueItemsFor(RootQueue(w), id) + QueueItemsFor(OwnQueue(w, id), id)
  }

  ghost predicate NotFor(w: World, id: nat, x: Node) {
    x in w.d && x.id != id && x.id != 0 ==> QueueItemsFor(w.d[x].q, id) == []
  }

  /** Only the root and its own node hold frames of a stream. */
  ghost predicate Sorted(w: World, id: nat) {
    forall x {:trigger NotFor(w, id, x)} :: x in w.d ==> NotFor(w, id, x)
  }

  ghost predicate NoBytes(s: seq<FrameWriteRequest>) {
    forall i :: 0 <= i < |s| ==> s[i].DataSize() == 0
  }

  /** What came out for a stream, then what is queued for it, is what went in; marks leave with last pieces only. */
  ghost predicate BalancedAt(w: World, id: nat, pushed: seq<FrameWriteRequest>, popped: seq<FrameWriteRequest>,
                             lasts: seq<bool>, f: Fold) {
    && Sorted(w, id) && NoBytes(RootQueue(w))
    && |popped| == |lasts| && Unmarked(popped, lasts)
    && ItemsFor(popped, lasts, id) + Queued(w, id) == ItemsFor(pushed, AllLast(pushed), id)
  }

  ghost predicate Balanced(w: World, id: nat, pushed: seq<FrameWriteRequest>, popped: seq<FrameWriteRequest>,
                           lasts: seq<bool>) {
    forall f {:trigger BalancedAt(w, id, pushed, popped, lasts, f)} :: BalancedAt(w, id, pushed, popped, lasts, f)
  }

  /** A node's queue is as it was, or empty. */
  ghost predicate SameOrEmpty(w: World, w': World, x: Node) {
    x in w'.d ==> w'.d[x].q == [] || (x in w.d && w'.d[x].q == w.d[x].q)
  }

  /** Queues are as they were, or new, or dropped; those of the root and of stream id are as they were, or new. */
  ghost predicate KeepsQueues(w: World, w': World, id: nat) {
    && (forall x {:trigger SameOrEmpty(w, w', x)} :: x in w'.d ==> SameOrEmpty(w, w', x))
    && RootQueue(w') == RootQueue(w) && OwnQueue(w', id) == OwnQueue(w, id)
  }

  lemma KeptBalanced(w: World, w': World, id: nat, pushed: seq<FrameWriteRequest>, popped: seq<FrameWriteRequest>,
                     lasts: seq<bool>)
    requires Balanced(w, id, pushed, popped, lasts) && KeepsQueues(w, w', id)
    ensures Balanced(w', id, pushed, popped, lasts)
  {
    assert BalancedAt(w, id, pushed, popped, lasts, Folded);
    forall x | x in w'.d ensures NotFor(w', id, x) {
      assert SameOrEmpty(w, w', x);
      if x in w.d {
        assert NotFor(w, id, x);
      }
    }
  }

  lemma KeepsTrans(w: World, w1: World, w2: World, id: nat)
    requires KeepsQueues(w, w1, id) && KeepsQueues(w1, w2, id)
    ensures KeepsQueues(w, w2, id)
  {
    forall x | x in w2.d ensures SameOrEmpty(w, w2, x) {
      assert SameOrEmpty(w1, w2, x);
      if x in w1.d {
        assert SameOrEmpty(w, w1, x);
      }
    }
  }

  /** The two nodes whose queues matter to a stream. */
  lemma OwnNodes(w: World, id: nat)
    requires Sound(w)
    ensures 0 in w.nodes && w.nodes[0] in w.d && w.nodes[0].id == 0
    ensures id in w.nodes ==> w.nodes[id] in w.d && w.nodes[id].id == id
  {
    assert SoundAt(w, Folded);
    InTree(w, 0);
    if id in w.nodes {
      InTree(w, id);
    }
  }

  /** Where a frame is put: with its own stream, or at the root if it has no node, and then it has no bytes. */
  ghost predicate PutAt(w: World, n: Node, wr: FrameWriteRequest) {
    && wr.Valid() && n in w.m
    && if wr.StreamID() in w.nodes then n == w.nodes[wr.StreamID()] else wr.DataSize() == 0 && n.id == 0
  }

  lemma PushedSorted(w: World, n: Node, wr: FrameWriteRequest, w': World, id: nat)
    requires Sound(w) && IsPushed(w, n, wr, w') && PutAt(w, n, wr) && Sorted(w, id)
    ensures Sorted(w', id)
  {
    NodeInTree(w, n);
    OwnNodes(w, wr.StreamID());
    QueueItemsForAppend(w.d[n].q, wr, id);
    forall x | x in w'.d ensures NotFor(w', id, x) {
      assert NotFor(w, id, x);
    }
  }

  /** The frame went to the root, to the node of stream id, or to another node. */
  lemma PushQueued(w: World, n: Node, wr: FrameWriteRequest, w': World, id: nat)
    requires IsPushed(w, n, wr, w') && NoBytes(RootQueue(w))
    requires 0 in w.nodes && w.nodes[0] in w.d && (n.id == 0 <==> n == w.nodes[0])
    requires id in w.nodes ==> w.nodes[id] in w.d
    requires n.id == id <==> id in w.nodes && n == w.nodes[id]
    requires n.id == 0 ==> wr.DataSize() == 0 && (wr.StreamID() == id ==> id == 0 || id !in w.nodes)
    requires n.id != 0 ==> n.id == wr.StreamID()
    ensures NoBytes(RootQueue(w'))
    ensures Queued(w', id) == Queued(w, id) + if wr.StreamID() == id then ItemsOf(wr, true) else []
  {
    var more := if wr.StreamID() == id then ItemsOf(wr, true) else [];
    QueueItemsForAppend(w.d[n].q, wr, id);
    if n.id == 0 {
      assert wr.StreamID() == id ==> OwnQueue(w, id) == [];
    } else {
      assert RootQueue(w') == RootQueue(w);
      Reassociate(QueueItemsFor(RootQueue(w), id), QueueItemsFor(OwnQueue(w, id), id), more);
    }
  }

  lemma PushMoves(w: World, n: Node, wr: FrameWriteRequest, w': World, id: nat)
    requires Sound(w) && IsPushed(w, n, wr, w') && PutAt(w, n, wr) && NoBytes(RootQueue(w)) && Sorted(w, id)
    ensures NoBytes(RootQueue(w')) && Sorted(w', id)
    ensures Queued(w', id) == Queued(w, id) + if wr.StreamID() == id then ItemsOf(wr, true) else []
  {
    NodeInTree(w, n);
    OwnNodes(w, id);
    OwnNodes(w, wr.StreamID());
    PushQueued(w, n, wr, w', id);
    PushedSorted(w, n, wr, w', id);
  }

  lemma PushBalanced(w: World, n: Node, wr: FrameWriteRequest, w': World, id: nat, pushed: seq<FrameWriteRequest>,
                     popped: seq<FrameWriteRequest>, lasts: seq<bool>)
    requires Sound(w) && IsPushed(w, n, wr, w') && PutAt(w, n, wr) && Balanced(w, id, pushed, popped, lasts)
    ensures Balanced(w', id, pushed + [wr], popped, lasts)
  {
    assert BalancedAt(w, id, pushed, popped, lasts, Folded);
    PushMoves(w, n, wr, w', id);
    AllLastAppend(pushed, wr);
    ItemsForAppend(pushed, AllLast(pushed), wr, true, id);
    Reassociate(ItemsFor(popped, lasts, id), Queued(w, id), if wr.StreamID() == id then ItemsOf(wr, true) else []);
  }

  /** One queue gave up wr; the others are as they were. The root comes first: it has nothing left to give. */
  ghost predicate OneTaken(w: World, at: Node, wr: FrameWriteRequest, last: bool, w': World) {
    && w'.nodes == w.nodes && w'.d.Keys == w.d.Keys && at in w.d && HeadTaken(w.d[at].q, w'.d[at].q, wr, last)
    && (forall x :: x in w.d && x != at ==> w'.d[x].q == w.d[x].q)
    && (at.id != 0 ==> Exhausted(RootQueue(w), w.F))
  }

  lemma FoundOneTaken(w: World, root: Node, at: Node, wr: FrameWriteRequest, last: bool, w': World)
    requires Sound(w) && 0 in w.nodes && w.nodes[0] == root
    requires Found(w, root, at, wr, last, w') && ParentsFirst(w, root, at)
    ensures OneTaken(w, at, wr, last, w')
  {
    InTree(w, 0);
    assert PassedUp(w, root, at, root);
    AncestorSelf(Par(w), 0);
  }

  /** Taking a frame from a queue without frames of stream id brings none into it. */
  lemma TakenSorted(w: World, at: Node, wr: FrameWriteRequest, last: bool, w': World, id: nat)
    requires OneTaken(w, at, wr, last, w') && Sorted(w, id)
    ensures Sorted(w', id)
  {
    HeadTakenKeepsFor(w.d[at].q, w'.d[at].q, wr, last, id);
    forall x | x in w'.d ensures NotFor(w', id, x) {
      assert NotFor(w, id, x);
    }
  }

  /** A frame without bytes leaves whole. */
  lemma TakenNoBytes(s: seq<FrameWriteRequest>, s': seq<FrameWriteRequest>, wr: FrameWriteRequest, last: bool)
    requires HeadTaken(s, s', wr, last) && NoBytes(s)
    ensures NoBytes(s')
  {
    assert s[0].DataSize() == 0;
  }

  lemma PopQueued(w: World, at: Node, wr: FrameWriteRequest, last: bool, w': World, id: nat)
    requires OneTaken(w, at, wr, last, w') && NoBytes(RootQueue(w)) && NotFor(w, id, at)
    requires 0 in w.nodes && w.nodes[0] in w.d && (at.id == 0 <==> at == w.nodes[0])
    requires id in w.nodes ==> w.nodes[id] in w.d
    requires at.id == id <==> id in w.nodes && at == w.nodes[id]
    ensures NoBytes(RootQueue(w'))
    ensures (if wr.StreamID() == id then ItemsOf(wr, last) else []) + Queued(w', id) == Queued(w, id)
  {
    var out := if wr.StreamID() == id then ItemsOf(wr, last) else [];
    HeadTakenKeepsFor(w.d[at].q, w'.d[at].q, wr, last, id);
    if at.id == 0 {
      TakenNoBytes(w.d[at].q, w'.d[at].q, wr, last);
      Reassociate(out, QueueItemsFor(RootQueue(w'), id), QueueItemsFor(OwnQueue(w', id), id));
    } else {
      assert RootQueue(w') == RootQueue(w) == [];
      if at.id != id {
        NoFramesFor(w.d[at].q, id, 0);
      }
    }
  }

  lemma PopMoves(w: World, at: Node, wr: FrameWriteRequest, last: bool, w': World, id: nat)
    requires Sound(w) && OneTaken(w, at, wr, last, w') && at in w.m && NoBytes(RootQueue(w)) && Sorted(w, id)
    ensures NoBytes(RootQueue(w')) && Sorted(w', id)
    ensures (if wr.StreamID() == id then ItemsOf(wr, last) else []) + Queued(w', id) == Queued(w, id)
  {
    NodeInTree(w, at);
    OwnNodes(w, id);
    assert NotFor(w, id, at);
    PopQueued(w, at, wr, last, w', id);
    TakenSorted(w, at, wr, last, w', id);
  }

  /** One more frame came out: what came out, then what is left, is what it was. */
  lemma OneMoreOut(popped: seq<FrameWriteRequest>, lasts: seq<bool>, wr: FrameWriteRequest, last: bool, id: nat,
                   rest: seq<Item>, before: seq<Item>)
    requires |popped| == |lasts| && Unmarked(popped, lasts)
    requires last || (wr.write.Data? && !wr.write.endStream && wr.done == None)
    requires (if wr.StreamID() == id then ItemsOf(wr, last) else []) + rest == before
    ensures Unmarked(popped + [wr], lasts + [last])
    ensures ItemsFor(popped + [wr], lasts + [last], id) + rest == ItemsFor(popped, lasts, id) + before
  {
    ItemsForAppend(popped, lasts, wr, last, id);
    Reassociate(ItemsFor(popped, lasts, id), if wr.StreamID() == id then ItemsOf(wr, last) else [], rest);
  }

  lemma PopBalanced(w: World, at: Node, wr: FrameWriteRequest, last: bool, w': World, id: nat,
                    pushed: seq<FrameWriteRequest>, popped: seq<FrameWriteRequest>, lasts: seq<bool>)
    requires Sound(w) && OneTaken(w, at, wr, last, w') && at in w.m && Balanced(w, id, pushed, popped, lasts)
    ensures Balanced(w', id, pushed, popped + [wr], lasts + [last])
  {
    assert BalancedAt(w, id, pushed, popped, lasts, Folded);
    PopMoves(w, at, wr, last, w', id);
    OneMoreOut(popped, lasts, wr, last, id, Queued(w', id), Queued(w, id));
  }

  lemma {:induction false} NoBytesNoPayload(s: seq<FrameWriteRequest>, id: nat)
    requires NoBytes(s)
    ensures PayloadFor(s, id) == []
  {
    if s != [] {
      assert s[0].DataSize() == 0;
      NoBytesNoPayload(s[1..], id);
    }
  }

  lemma PayloadAround(a: seq<Item>, b: seq<Item>, c: seq<Item>)
    requires Payload(b) == []
    ensures Payload(a + (b + c)) == Payload(a) + Payload(c)
  {
    PayloadAppend(a, b + c);
    PayloadAppend(b, c);
  }

  /** The same of the payload alone: none of it waits at the root. */
  lemma ItemsToPayload(top: seq<FrameWriteRequest>, own: seq<FrameWriteRequest>, id: nat,
                       pushed: seq<FrameWriteRequest>, popped: seq<FrameWriteRequest>, lasts: seq<bool>)
    requires NoBytes(top) && |popped| == |lasts|
    requires ItemsFor(popped, lasts, id) + (QueueItemsFor(top, id) + QueueItemsFor(own, id))
          == ItemsFor(pushed, AllLast(pushed), id)
    ensures PayloadFor(popped, id) + PayloadFor(own, id) == PayloadFor(pushed, id)
  {
    PayloadOfItems(popped, lasts, id);
    PayloadOfItems(pushed, AllLast(pushed), id);
    PayloadOfQueue(top, id);
    PayloadOfQueue(own, id);
    NoBytesNoPayload(top, id);
    PayloadAround(ItemsFor(popped, lasts, id), QueueItemsFor(top, id), QueueItemsFor(own, id));
  }

  lemma Settled(w: World, id: nat, pushed: seq<FrameWriteRequest>, popped: seq<FrameWriteRequest>, lasts: seq<bool>)
    requires Balanced(w, id, pushed, popped, lasts)
    ensures |popped| == |lasts| && Unmarked(popped, lasts)
    ensures ItemsFor(popped, lasts, id) + Queued(w, id) == ItemsFor(pushed, AllLast(pushed), id)
    ensures PayloadFor(popped, id) + PayloadFor(OwnQueue(w, id), id) == PayloadFor(pushed, id)
  {
    assert BalancedAt(w, id, pushed, popped, lasts, Folded);
    ItemsToPayload(RootQueue(w), OwnQueue(w, id), id, pushed, popped, lasts);
  }

  lemma ReopenKeeps(w: World, w': World, id: nat, n: Node)
    requires w'.nodes == w.nodes && n in w.d && w'.d == w.d[n := w.d[n].(state := NodeState.Open)]
    ensures KeepsQueues(w, w', id)
  {
  }

  lemma OpenKeeps(w: World, w': World, id: nat, sid: nat)
    requires Sound(w) && Sound(w') && sid !in w.nodes && sid in w'.nodes && w'.nodes == w.nodes[sid := w'.nodes[sid]]
    requires w'.d == w.d[w'.nodes[sid] := NodeData([], DEFAULT_WEIGHT, NodeState.Open, 0, 0)]
    ensures KeepsQueues(w, w', id)
  {
    InTree(w', sid);
    OwnNodes(w, id);
  }

  lemma AdjustKeeps(w: World, w': World, id: nat, sid: nat, dep: nat, exclusive: bool, weight: nat)
    requires IsAdjusted(w, sid, dep, exclusive, weight, w')
    ensures KeepsQueues(w, w', id)
  {
  }

  // ----- when an operation can be carried out -----

  lemma OneKidIff(w: World, v: Node)
    requires Sound(w) && v in w.m
    ensures Mirrored(w.m, v)
    ensures AtMostOneKid(w.m, v) <==> w.m[v].kids == null || (w.m[v].kids in w.m && w.m[w.m[v].kids].next == null)
  {
    Unfold(w);
    assert Mirrored(w.m, v);
    var k := w.m[v].kids;
    forall x | x in w.m && w.m[x].parent == v ensures k != null && (w.m[k].next == null ==> x == k) {
      assert Started(w.m, x) && Mirrored(w.m, k);
      assert InOrder(w.m, k, x);
    }
    if k != null && w.m[k].next != null {
      assert Mirrored(w.m, k);
    }
  }

  method CanDiscard(s: Scheduler, victim: Option<Node>) returns (ok: bool)
    requires s.Valid()
    ensures ok <==> Discardable(s.view, victim)
  {
    if victim == None {
      return true;
    }
    var v := victim.value;
    if v.id == 0 || v.id !in s.nodes || s.nodes[v.id] != v {
      if v in s.view.m {
        NodeInTree(s.view, v);
      }
      return false;
    }
    InTree(s.view, v.id);
    OneKidIff(s.view, v);
    assert v.kids == LinksOf(s.view.m.Keys)[v].kids;
    if v.kids == null {
      return true;
    }
    assert v.kids.next == LinksOf(s.view.m.Keys)[v.kids].next;
    ok := v.kids.next == null;
  }

  ghost predicate InState(s: Scheduler, id: nat, state: NodeState)
    reads s
  {
    id in s.nodes && s.nodes[id] in s.view.d && s.view.d[s.nodes[id]].state == state
  }

  lemma StateAt(s: Scheduler, id: nat)
    requires s.Valid() && id in s.nodes
    ensures s.nodes[id] in s.view.d && s.nodes[id].id == id && s.nodes[id].state == s.view.d[s.nodes[id]].state
  {
    InTree(s.view, id);
    assert s.nodes[id].state == DataOf(s.view.m.Keys)[s.nodes[id]].state;
  }

  /** The operations that neither panic nor take out a node that is gone already or has two kids or more. */
  ghost predicate Runnable(s: Scheduler, op: Op)
    reads s
  {
    match op
    case Open(id, _) => id in s.nodes ==> InState(s, id, Idle)
    case Close(id) => id != 0 && InState(s, id, NodeState.Open)
                      && Discardable(s.view, ClosingVictim(s.closedNodes, s.maxClosedNodesInTree, s.nodes[id]))
    case Adjust(id, _, _, _) =>
      id != 0 && (id in s.nodes || id <= s.maxID || Discardable(s.view, Victim(s.idleNodes, s.maxIdleNodesInTree)))
    case Push(wr) => wr.StreamID() != 0 && wr.StreamID() !in s.nodes ==> wr.DataSize() == 0
    case _ => true
  }

  method CanRun(s: Scheduler, op: Op) returns (ok: bool)
    requires s.Valid()
    ensures ok <==> Runnable(s, op)
  {
    match op
    case Open(id, _) =>
      if id in s.nodes {
        StateAt(s, id);
      }
      ok := id in s.nodes ==> s.nodes[id].state == Idle;
    case Close(id) =>
      if id == 0 || id !in s.nodes {
        return false;
      }
      StateAt(s, id);
      ok := CanDiscard(s, ClosingVictim(s.closedNodes, s.maxClosedNodesInTree, s.nodes[id]));
      ok := ok && s.nodes[id].state == NodeState.Open;
    case Adjust(id, _, _, _) =>
      ok := CanDiscard(s, Victim(s.idleNodes, s.maxIdleNodesInTree));
      ok := id != 0 && (id in s.nodes || id <= s.maxID || ok);
    case Push(wr) => ok := wr.StreamID() != 0 && wr.StreamID() !in s.nodes ==> wr.DataSize() == 0;
    case _ => ok := true;
  }

  // ----- runs -----

  ghost predicate Unlisted(list: seq<Node>, id: nat) {
    forall x :: x in list ==> x.id != id
  }

  /** The frames of stream id are accounted for, and its node is not in the list of closed nodes. */
  ghost predicate Tracked(s: Scheduler, id: nat, pushed: seq<FrameWriteRequest>, popped: seq<FrameWriteRequest>,
                          lasts: seq<bool>)
    reads s, s.view.m.Keys, s.view.F.Keys
  {
    s.Valid() && Balanced(s.view, id, pushed, popped, lasts) && Unlisted(s.closedNodes, id)
  }

  method RunOpen(s: Scheduler, sid: nat, pusher: nat, ghost id: nat, ghost pushed: seq<FrameWriteRequest>,
                 ghost popped: seq<FrameWriteRequest>, ghost lasts: seq<bool>)
    requires Tracked(s, id, pushed, popped, lasts) && Runnable(s, Op.Open(sid, pusher))
    modifies s`nodes, s`maxID, s`view, s.view.m.Keys
    ensures Tracked(s, id, pushed, popped, lasts) && sid in s.nodes && old(s.nodes).Keys <= s.nodes.Keys
    ensures fresh(s.view.m.Keys - old(s.view.m.Keys)) && s.view.F == old(s.view).F
  {
    ghost var w := s.view;
    if sid in s.nodes {
      StateAt(s, sid);
    }
    s.OpenStream(sid, pusher);
    if sid in w.nodes {
      ReopenKeeps(w, s.view, id, w.nodes[sid]);
    } else {
      OpenKeeps(w, s.view, id, sid);
    }
    KeptBalanced(w, s.view, id, pushed, popped, lasts);
  }

  method RunClose(s: Scheduler, sid: nat, ghost id: nat, ghost pushed: seq<FrameWriteRequest>,
                  ghost popped: seq<FrameWriteRequest>, ghost lasts: seq<bool>)
    requires Tracked(s, id, pushed, popped, lasts) && Runnable(s, Close(sid)) && sid != id
    modifies s`nodes, s`maxID, s`view, s`closedNodes, s.view.m.Keys
    ensures Tracked(s, id, pushed, popped, lasts) && (id in old(s.nodes) ==> id in s.nodes)
    ensures s.view.m.Keys <= old(s.view.m.Keys) && s.view.F == old(s.view).F
  {
    ghost var w := s.view;
    StateAt(s, sid);
    ghost var victim := ClosingVictim(s.closedNodes, s.maxClosedNodesInTree, s.nodes[sid]);
    assert victim.Some? ==> victim.value.id != id;
    ghost var w1 := s.CloseStream(sid);
    CloseKeeps(w, w.nodes[sid], w1, victim, s.view, id);
    KeptBalanced(w, s.view, id, pushed, popped, lasts);
  }

  lemma CloseKeeps(w: World, n: Node, w1: World, victim: Option<Node>, w': World, id: nat)
    requires Sound(w) && Sound(w') && IsShut(w, n, w1) && n.id != id && n.id != 0 && IsDiscarded(w1, victim, w')
    requires (victim.Some? ==> victim.value.id != id)
    ensures KeepsQueues(w, w', id) && (id in w.nodes ==> id in w'.nodes)
  {
    OwnNodes(w, id);
    OwnNodes(w', id);
  }

  method RunAdjust(s: Scheduler, sid: nat, dep: nat, exclusive: bool, weight: nat, ghost id: nat,
                   ghost pushed: seq<FrameWriteRequest>, ghost popped: seq<FrameWriteRequest>, ghost lasts: seq<bool>)
    requires Tracked(s, id, pushed, popped, lasts) && Runnable(s, Adjust(sid, dep, exclusive, weight))
    requires Spared(s.idleNodes, s.maxIdleNodesInTree, id)
    modifies s`nodes, s`maxID, s`view, s`idleNodes, s.view.m.Keys
    ensures Tracked(s, id, pushed, popped, lasts) && (id in old(s.nodes) ==> id in s.nodes)
    ensures fresh(s.view.m.Keys - old(s.view.m.Keys)) && s.view.F == old(s.view).F
    ensures |s.idleNodes| <= |old(s.idleNodes)| + 1
    ensures Unlisted(old(s.idleNodes), id) && (sid == id ==> id in old(s.nodes)) ==> Unlisted(s.idleNodes, id)
  {
    ghost var w := s.view;
    ghost var victim := Victim(s.idleNodes, s.maxIdleNodesInTree);
    ghost var known, drop := sid in s.nodes, sid !in s.nodes && (sid <= s.maxID || s.maxIdleNodesInTree == 0);
    ghost var w0, w1 := s.AdjustStream(sid, dep, exclusive, weight);
    if known {
      AdjustKeeps(w1, s.view, id, sid, dep, exclusive, weight);
      KeptBalanced(w, s.view, id, pushed, popped, lasts);
    } else if !drop {
      NewKeeps(w, sid, w0, victim, w1, dep, exclusive, weight, s.view, id);
      KeptBalanced(w, s.view, id, pushed, popped, lasts);
    }
  }

  /** No node of stream id has to go if one more node is listed. */
  ghost predicate Spared(list: seq<Node>, max: int, id: nat) {
    var victim := Victim(list, max);
    victim.Some? ==> victim.value.id != id
  }

  lemma NewKeeps(w: World, sid: nat, w0: World, victim: Option<Node>, w1: World, dep: nat, exclusive: bool, weight: nat,
                 w': World, id: nat)
    requires Sound(w) && Sound(w') && sid !in w.nodes && sid != 0 && IsAdded(w, sid, w0)
    requires IsDiscarded(w0, victim, w1) && (victim.Some? ==> victim.value.id != id)
    requires IsAdjusted(w1, sid, dep, exclusive, weight, w')
    ensures KeepsQueues(w, w', id) && (id in w.nodes ==> id in w'.nodes)
  {
    AddedKeeps(w, sid, w0, victim, w1, w', id);
    AdjustKeeps(w1, w', id, sid, dep, exclusive, weight);
    KeepsTrans(w, w1, w', id);
  }

  lemma AddedKeeps(w: World, sid: nat, w0: World, victim: Option<Node>, w1: World, w': World, id: nat)
    requires Sound(w) && sid !in w.nodes && sid != 0 && IsAdded(w, sid, w0) && IsDiscarded(w0, victim, w1)
    requires victim.Some? ==> victim.value.id != id
    requires Sound(w') && w'.nodes == w1.nodes
    ensures KeepsQueues(w, w1, id) && (id in w.nodes ==> id in w1.nodes)
  {
    OwnNodes(w, id);
    OwnNodes(w', id);
  }

  method RunPush(s: Scheduler, wr: FrameWriteRequest, ghost id: nat, ghost pushed: seq<FrameWriteRequest>,
                 ghost popped: seq<FrameWriteRequest>, ghost lasts: seq<bool>)
    requires Tracked(s, id, pushed, popped, lasts) && Runnable(s, Push(wr)) && wr.Valid()
    modifies s`nodes, s`maxID, s`view, s.view.m.Keys
    ensures Tracked(s, id, pushed + [wr], popped, lasts) && s.nodes == old(s.nodes)
    ensures s.view.m.Keys == old(s.view.m.Keys) && s.view.F.Keys == old(s.view.F.Keys) + wr.Windows()
  {
    ghost var w := s.view;
    InTree(w, 0);
    if wr.StreamID() in s.nodes {
      InTree(w, wr.StreamID());
    }
    s.Push(wr);
    var n := if wr.StreamID() in s.nodes then s.nodes[wr.StreamID()] else s.root;
    PushBalanced(w, n, wr, s.view, id, pushed, popped, lasts);
  }

  method RunPop(s: Scheduler, outs: seq<FrameWriteRequest>, ghost lasts: seq<bool>, ghost id: nat,
                ghost pushed: seq<FrameWriteRequest>)
    returns (outs': seq<FrameWriteRequest>, ghost lasts': seq<bool>)
    requires Tracked(s, id, pushed, outs, lasts)
    modifies s`nodes, s`maxID, s`view, s`writeThrottleLimit, s`visits, s.tmp, s.view.m.Keys, s.view.F.Keys
    ensures Tracked(s, id, pushed, outs', lasts') && s.nodes == old(s.nodes)
    ensures s.view.m.Keys == old(s.view.m.Keys) && s.view.F.Keys == old(s.view.F.Keys)
  {
    ghost var w := s.view;
    var wr, ok, last, at, visited := s.Pop();
    PopTracked(w, s.root, ok, at, wr, last, visited, s.view, id, pushed, outs, lasts);
    outs', lasts' := if ok then outs + [wr] else outs, if ok then lasts + [last] else lasts;
  }

  lemma PopTracked(w: World, root: Node, ok: bool, at: Node, wr: FrameWriteRequest, last: bool, visited: seq<Node>,
                   w': World, id: nat, pushed: seq<FrameWriteRequest>, outs: seq<FrameWriteRequest>, lasts: seq<bool>)
    requires Sound(w) && 0 in w.nodes && w.nodes[0] == root
    requires IsPop(w, root, ok, at, wr, last, visited, w') && Balanced(w, id, pushed, outs, lasts)
    ensures Balanced(w', id, pushed, if ok then outs + [wr] else outs, if ok then lasts + [last] else lasts)
  {
    assert PopPart(w, root, ok, at, wr, last, visited, w', Taking);
    if ok {
      assert PopPart(w, root, ok, at, wr, last, visited, w', Asking);
      FoundOneTaken(w, root, at, wr, last, w');
      Unfold(w);
      PopBalanced(w, at, wr, last, w', id, pushed, outs, lasts);
    } else {
      KeptBalanced(w, w', id, pushed, outs, lasts);
    }
  }

  lemma CreditKeeps(w: World, F: map<Flow, int>, id: nat)
    requires Sound(w) && F.Keys == w.F.Keys
    ensures Sound(w.(F := F)) && KeepsQueues(w, w.(F := F), id)
  {
    Unfold(w);
    assert SoundAt(w, Folded);
    Refold(w.(F := F));
    forall x | x in w.d ensures SameOrEmpty(w, w.(F := F), x) {
    }
  }

  method RunCredit(s: Scheduler, flow: Flow, k: int32, ghost id: nat, ghost pushed: seq<FrameWriteRequest>,
                   ghost popped: seq<FrameWriteRequest>, ghost lasts: seq<bool>)
    requires Tracked(s, id, pushed, popped, lasts)
    modifies s`nodes, s`maxID, s`view, flow
    ensures Tracked(s, id, pushed, popped, lasts) && s.nodes == old(s.nodes)
    ensures s.view.m.Keys == old(s.view.m.Keys) && s.view.F.Keys == old(s.view.F.Keys)
  {
    ghost var w := s.view;
    ghost var F := Move(flow, k, w);
    CreditKeeps(w, F, id);
    KeptBalanced(w, w.(F := F), id, pushed, popped, lasts);
    s.Install(s.nodes, s.maxID, w.(F := F));
  }

  method Move(flow: Flow, k: int32, ghost w: World) returns (ghost F: map<Flow, int>)
    requires Holds(w, w.F.Keys)
    modifies flow
    ensures F.Keys == w.F.Keys && Holds(w.(F := F), F.Keys)
  {
    var _ := flow.Add(k);
    F := WindowsOf(w.F.Keys);
  }

  lemma PushedStep(ops: seq<Op>, i: nat)
    requires i < |ops|
    ensures Pushed(ops[..i + 1]) == if ops[i].Push? then Pushed(ops[..i]) + [ops[i].wr] else Pushed(ops[..i])
  {
    assert ops[..i + 1][..i] == ops[..i];
  }

  lemma OpenedStep(ops: seq<Op>, i: nat, id: nat)
    requires i < |ops|
    ensures Opened(ops[..i + 1], id) <==> Opened(ops[..i], id) || (ops[i].Open? && ops[i].id == id)
  {
    if Opened(ops[..i], id) {
      var j :| 0 <= j < i && ops[..i][j].Open? && ops[..i][j].id == id;
      assert ops[..i + 1][j] == ops[..i][j];
    }
    if Opened(ops[..i + 1], id) && !(ops[i].Open? && ops[i].id == id) {
      var j :| 0 <= j < i + 1 && ops[..i + 1][j].Open? && ops[..i + 1][j].id == id;
      assert ops[..i][j] == ops[j];
    }
    assert ops[..i + 1][i] == ops[i];
  }

  lemma {:induction false} AdjustsUpTo(ops: seq<Op>, i: nat)
    requires i < |ops|
    ensures Adjusts(ops[..i + 1]) == Adjusts(ops[..i]) + (if ops[i].Adjust? then 1 else 0) <= Adjusts(ops)
    decreases |ops|
  {
    assert ops[..i + 1][..i] == ops[..i];
    if i + 1 == |ops| {
      assert ops[..i + 1] == ops;
    } else {
      var front := ops[..|ops| - 1];
      AdjustsUpTo(front, i);
      assert front[..i + 1] == ops[..i + 1];
    }
  }

  /** After some of the operations: the stream has its node once open, and the list of idle nodes is not yet full. */
  ghost predicate OnCourse(nodes: map<nat, Node>, idle: seq<Node>, ops: seq<Op>, i: nat, id: nat)
    requires i <= |ops|
  {
    && (Opened(ops[..i], id) ==> id in nodes)
    && |idle| <= Adjusts(ops[..i])
    && (NotEarly(ops, id) ==> Unlisted(idle, id))
  }

  lemma CourseKept(nodes: map<nat, Node>, idle: seq<Node>, ops: seq<Op>, i: nat, id: nat, nodes': map<nat, Node>,
                   idle': seq<Node>)
    requires i < |ops| && OnCourse(nodes, idle, ops, i, id) && (id in nodes ==> id in nodes')
    requires ops[i].Open? && ops[i].id == id ==> id in nodes'
    requires if ops[i].Adjust? then |idle'| <= |idle| + 1 else idle' == idle
    requires ops[i].Adjust? && Unlisted(idle, id) && (ops[i].id == id ==> id in nodes) ==> Unlisted(idle', id)
    ensures OnCourse(nodes', idle', ops, i + 1, id)
  {
    OpenedStep(ops, i, id);
    AdjustsUpTo(ops, i);
  }

  lemma SteadySpares(list: seq<Node>, maxIdle: int, ops: seq<Op>, i: nat, id: nat)
    requires i < |ops| && ops[i].Adjust? && Steady(ops, id, maxIdle) && |list| <= Adjusts(ops[..i])
    requires NotEarly(ops, id) ==> Unlisted(list, id)
    ensures Spared(list, maxIdle, id)
  {
    AdjustsUpTo(ops, i);
  }

  /** Carries out one operation. */
  method Step(s: Scheduler, ops: seq<Op>, i: nat, outs: seq<FrameWriteRequest>, ghost lasts: seq<bool>, ghost id: nat)
    returns (outs': seq<FrameWriteRequest>, ghost lasts': seq<bool>)
    requires i < |ops| && (ops[i].Push? ==> ops[i].wr.Valid()) && Runnable(s, ops[i])
    requires Steady(ops, id, s.maxIdleNodesInTree) && OnCourse(s.nodes, s.idleNodes, ops, i, id)
    requires Tracked(s, id, Pushed(ops[..i]), outs, lasts)
    modifies s, s.tmp, s.view.m.Keys, s.view.F.Keys, WindowsAt(ops[i])
    ensures Tracked(s, id, Pushed(ops[..i + 1]), outs', lasts') && OnCourse(s.nodes, s.idleNodes, ops, i + 1, id)
    ensures fresh(s.view.m.Keys - old(s.view.m.Keys)) && s.view.F.Keys <= old(s.view.F.Keys) + WindowsAt(ops[i])
  {
    outs', lasts' := outs, lasts;
    PushedStep(ops, i);
    if ops[i].Push? || ops[i].Pop? || ops[i].Credit? {
      CourseKept(s.nodes, s.idleNodes, ops, i, id, s.nodes, s.idleNodes);
      outs', lasts' := RunTraffic(s, ops[i], outs, lasts, id, Pushed(ops[..i]));
    } else {
      StepChange(s, ops, i, id, Pushed(ops[..i]), outs, lasts);
    }
  }

  /** Frames go in or out, or a window moves. */
  method RunTraffic(s: Scheduler, op: Op, outs: seq<FrameWriteRequest>, ghost lasts: seq<bool>, ghost id: nat,
                    ghost pushed: seq<FrameWriteRequest>)
    returns (outs': seq<FrameWriteRequest>, ghost lasts': seq<bool>)
    requires op.Push? || op.Pop? || op.Credit?
    requires Tracked(s, id, pushed, outs, lasts) && (op.Push? ==> op.wr.Valid()) && Runnable(s, op)
    modifies s`nodes, s`maxID, s`view, s`writeThrottleLimit, s`visits, s.tmp, s.view.m.Keys, s.view.F.Keys
    modifies WindowsAt(op)
    ensures Tracked(s, id, if op.Push? then pushed + [op.wr] else pushed, outs', lasts') && s.nodes == old(s.nodes)
    ensures s.view.m.Keys == old(s.view.m.Keys) && s.view.F.Keys <= old(s.view.F.Keys) + WindowsAt(op)
  {
    outs', lasts' := outs, lasts;
    match op
    case Push(wr) => RunPush(s, wr, id, pushed, outs, lasts);
    case Pop => outs', lasts' := RunPop(s, outs, lasts, id, pushed);
    case Credit(flow, k) => RunCredit(s, flow, k, id, pushed, outs, lasts);
  }

  method StepChange(s: Scheduler, ops: seq<Op>, i: nat, ghost id: nat, ghost pushed: seq<FrameWriteRequest>,
                    ghost outs: seq<FrameWriteRequest>, ghost lasts: seq<bool>)
    requires i < |ops| && (ops[i].Open? || ops[i].Close? || ops[i].Adjust?) && Runnable(s, ops[i])
    requires Steady(ops, id, s.maxIdleNodesInTree) && OnCourse(s.nodes, s.idleNodes, ops, i, id)
    requires Tracked(s, id, pushed, outs, lasts)
    modifies s`nodes, s`maxID, s`view, s`idleNodes, s`closedNodes, s.view.m.Keys
    ensures Tracked(s, id, pushed, outs, lasts) && OnCourse(s.nodes, s.idleNodes, ops, i + 1, id)
    ensures fresh(s.view.m.Keys - old(s.view.m.Keys)) && s.view.F == old(s.view).F
  {
    ghost var nodes, idle := s.nodes, s.idleNodes;
    if ops[i].Adjust? {
      SteadySpares(idle, s.maxIdleNodesInTree, ops, i, id);
    }
    RunChange(s, ops[i], id, pushed, outs, lasts);
    CourseKept(nodes, idle, ops, i, id, s.nodes, s.idleNodes);
  }

  /** An operation on the tree. */
  method RunChange(s: Scheduler, op: Op, ghost id: nat, ghost pushed: seq<FrameWriteRequest>,
                   ghost popped: seq<FrameWriteRequest>, ghost lasts: seq<bool>)
    requires op.Open? || op.Close? || op.Adjust?
    requires Tracked(s, id, pushed, popped, lasts) && Runnable(s, op) && op != Close(id)
    requires op.Adjust? ==> Spared(s.idleNodes, s.maxIdleNodesInTree, id)
    modifies s`nodes, s`maxID, s`view, s`idleNodes, s`closedNodes, s.view.m.Keys
    ensures Tracked(s, id, pushed, popped, lasts) && (id in old(s.nodes) ==> id in s.nodes)
    ensures fresh(s.view.m.Keys - old(s.view.m.Keys)) && s.view.F == old(s.view).F
    ensures op.Open? ==> op.id in s.nodes
    ensures if op.Adjust? then |s.idleNodes| <= |old(s.idleNodes)| + 1 else s.idleNodes == old(s.idleNodes)
    ensures op.Adjust? && Unlisted(old(s.idleNodes), id) && (op.id == id ==> id in old(s.nodes)) ==>
              Unlisted(s.idleNodes, id)
  {
    match op
    case Open(sid, pusher) => RunOpen(s, sid, pusher, id, pushed, popped, lasts);
    case Close(sid) => RunClose(s, sid, id, pushed, popped, lasts);
    case Adjust(sid, dep, exclusive, weight) => RunAdjust(s, sid, dep, exclusive, weight, id, pushed, popped, lasts);
  }

  /**
   * Any run of the scheduler, up to the first operation that panics or takes out a node that is gone already or has
   * two kids or more. The tree is well formed throughout. For any stream that is not closed in the run and whose node
   * is not discarded while it is idle, and for the connection itself: what was popped for it, followed by what is
   * queued for it, is what was pushed for it: every byte and every frame end, in order. END_STREAM and the reply
   * channel leave with the last piece of a frame only.
   */
  method Exercise(maxClosed: int, maxIdle: int, throttle: bool, ops: seq<Op>, ghost id: nat)
    returns (s: Scheduler, outs: seq<FrameWriteRequest>, done: nat, ghost lasts: seq<bool>)
    requires forall i :: 0 <= i < |ops| && ops[i].Push? ==> ops[i].wr.Valid()
    requires Steady(ops, id, maxIdle)
    modifies WindowsIn(ops)
    ensures s.Valid() && done <= |ops| && (done < |ops| ==> !Runnable(s, ops[done]))
    ensures |outs| == |lasts| && Unmarked(outs, lasts)
    ensures var pushed := Pushed(ops[..done]);
            ItemsFor(outs, lasts, id) + Queued(s.view, id) == ItemsFor(pushed, AllLast(pushed), id)
    ensures PayloadFor(outs, id) + PayloadFor(OwnQueue(s.view, id), id) == PayloadFor(Pushed(ops[..done]), id)
  {
    s := Start(maxClosed, maxIdle, throttle, id);
    outs, lasts, done := Run(s, ops, 0, [], [], id);
    Settled(s.view, id, Pushed(ops[..done]), outs, lasts);
  }

  method Start(maxClosed: int, maxIdle: int, throttle: bool, ghost id: nat) returns (s: Scheduler)
    ensures fresh(s) && fresh(s.tmp) && fresh(s.view.m.Keys) && s.view.F.Keys == {} && Tracked(s, id, [], [], [])
    ensures s.idleNodes == [] && s.maxIdleNodesInTree == maxIdle
  {
    s := new Scheduler(maxClosed, maxIdle, throttle);
    StartBalanced(s.view, id);
  }

  lemma StartBalanced(w: World, id: nat)
    requires Sound(w) && w.nodes.Keys == {0} && w.nodes[0] in w.d && w.d[w.nodes[0]].q == []
    ensures Balanced(w, id, [], [], [])
  {
    Unfold(w);
    forall x | x in w.d ensures NotFor(w, id, x) {
      NodeInTree(w, x);
    }
  }

  /** The operations from the i-th on. */
  method Run(s: Scheduler, ops: seq<Op>, i: nat, outs: seq<FrameWriteRequest>, ghost lasts: seq<bool>, ghost id: nat)
    returns (outs': seq<FrameWriteRequest>, ghost lasts': seq<bool>, done: nat)
    requires forall k :: 0 <= k < |ops| && ops[k].Push? ==> ops[k].wr.Valid()
    requires i <= |ops| && Steady(ops, id, s.maxIdleNodesInTree) && s.view.F.Keys <= WindowsIn(ops)
    requires Tracked(s, id, Pushed(ops[..i]), outs, lasts) && OnCourse(s.nodes, s.idleNodes, ops, i, id)
    modifies s, s.tmp, s.view.m.Keys, WindowsIn(ops)
    ensures done <= |ops| && (done < |ops| ==> !Runnable(s, ops[done]))
    ensures Tracked(s, id, Pushed(ops[..done]), outs', lasts')
    decreases |ops| - i
  {
    outs', lasts', done := outs, lasts, i;
    if i < |ops| {
      var ok := CanRun(s, ops[i]);
      if ok {
        outs', lasts' := Step(s, ops, i, outs, lasts, id);
        outs', lasts', done := Run(s, ops, i + 1, outs', lasts', id);
      }
    }
  }

  /**
   * Why early priorities are left out: the node of a stream that is reprioritized before it is open stays in the list
   * of idle nodes once it is open. The next such stream makes room for itself there by discarding it, frames and all.
   */
  method Forgotten(maxClosed: int, throttle: bool, id: nat, next: nat, wr: FrameWriteRequest) returns (s: Scheduler)
    requires 0 < id < next && wr.Valid() && wr.StreamID() == id
    ensures var ops := [Adjust(id, 0, false, 15), Op.Open(id, 0), Push(wr), Adjust(next, 0, false, 15)];
            !Steady(ops, id, 1) && ItemsFor(Pushed(ops), AllLast(Pushed(ops)), id) != []
    ensures s.Valid() && id !in s.nodes && Queued(s.view, id) == []
  {
    s := Early(maxClosed, throttle, id);
    OpenEarly(s, id);
    PushEarly(s, id, wr);
    Forget(s, id, next);
    ForgottenOps(id, next, wr);
  }

  lemma ForgottenOps(id: nat, next: nat, wr: FrameWriteRequest)
    requires wr.StreamID() == id
    ensures var ops := [Adjust(id, 0, false, 15), Op.Open(id, 0), Push(wr), Adjust(next, 0, false, 15)];
            !Steady(ops, id, 1) && ItemsFor(Pushed(ops), AllLast(Pushed(ops)), id) != []
  {
    var ops := [Adjust(id, 0, false, 15), Op.Open(id, 0), Push(wr), Adjust(next, 0, false, 15)];
    assert ops[0].Adjust? && !Opened(ops[..0], id);
    forall i | 0 <= i < 4 ensures Adjusts(ops[..i + 1]) == Adjusts(ops[..i]) + if ops[i].Adjust? then 1 else 0 {
      AdjustsUpTo(ops, i);
    }
    PushedStep(ops, 0);
    PushedStep(ops, 1);
    PushedStep(ops, 2);
    PushedStep(ops, 3);
    assert ops[..0] == [] && ops[..4] == ops && Pushed([]) == [];
    assert Pushed(ops) == [wr];
    ItemsForAppend([], [], wr, true, id);
    assert [] + [wr] == [wr] && [] + [true] == [true] == AllLast([wr]);
  }

  /** Stream id is the only one with a node, which is in the list of idle nodes, and that is full. */
  ghost predicate OneListed(s: Scheduler, id: nat)
    reads s, s.view.m.Keys, s.view.F.Keys
  {
    && s.Valid() && s.nodes.Keys == {0, id} && s.idleNodes == [s.nodes[id]] && s.maxID == id
    && s.maxIdleNodesInTree == 1 && RootQueue(s.view) == []
  }

  method Early(maxClosed: int, throttle: bool, id: nat) returns (s: Scheduler)
    requires 0 < id
    ensures fresh(s) && fresh(s.view.m.Keys) && OneListed(s, id) && InState(s, id, Idle)
  {
    s := Empty(maxClosed, throttle);
    List(s, id);
  }

  method Empty(maxClosed: int, throttle: bool) returns (s: Scheduler)
    ensures fresh(s) && fresh(s.view.m.Keys) && s.Valid() && s.nodes.Keys == {0} && s.maxID == 0
    ensures s.idleNodes == [] && s.maxIdleNodesInTree == 1 && RootQueue(s.view) == []
  {
    s := new Scheduler(maxClosed, 1, throttle);
  }

  method List(s: Scheduler, id: nat)
    requires 0 < id && s.Valid() && s.nodes.Keys == {0} && s.maxID == 0
    requires s.idleNodes == [] && s.maxIdleNodesInTree == 1 && RootQueue(s.view) == []
    modifies s, s.view.m.Keys
    ensures OneListed(s, id) && InState(s, id, Idle) && fresh(s.view.m.Keys - old(s.view.m.Keys))
  {
    ghost var w := s.view;
    InTree(w, 0);
    ghost var w0, w1 := s.AdjustStream(id, 0, false, 15);
    NowListed(w, id, w0, s.view);
  }

  lemma NowListed(w: World, id: nat, w0: World, w': World)
    requires Sound(w) && w.nodes.Keys == {0} && id != 0 && RootQueue(w) == []
    requires Sound(w') && IsAdded(w, id, w0) && IsAdjusted(w0, id, 0, false, 15, w')
    ensures w'.nodes.Keys == {0, id} && w'.nodes[id] == w0.nodes[id] && RootQueue(w') == []
    ensures w'.nodes[id] in w'.d && w'.d[w'.nodes[id]].state == Idle
  {
    InTree(w, 0);
    InTree(w', 0);
    InTree(w', id);
  }

  method OpenEarly(s: Scheduler, id: nat)
    requires 0 < id && OneListed(s, id) && InState(s, id, Idle)
    modifies s, s.view.m.Keys
    ensures OneListed(s, id) && InState(s, id, NodeState.Open) && fresh(s.view.m.Keys - old(s.view.m.Keys))
  {
    InTree(s.view, 0);
    StateAt(s, id);
    s.OpenStream(id, 0);
  }

  method PushEarly(s: Scheduler, id: nat, wr: FrameWriteRequest)
    requires 0 < id && OneListed(s, id) && wr.Valid() && wr.StreamID() == id
    modifies s, s.view.m.Keys
    ensures OneListed(s, id) && s.view.m.Keys == old(s.view.m.Keys)
    ensures OwnQueue(s.view, id) == OwnQueue(old(s.view), id) + [wr]
  {
    InTree(s.view, 0);
    InTree(s.view, id);
    s.Push(wr);
  }

  method Forget(s: Scheduler, id: nat, next: nat)
    requires 0 < id < next && OneListed(s, id)
    modifies s, s.view.m.Keys
    ensures s.Valid() && id !in s.nodes && Queued(s.view, id) == []
  {
    ghost var w := s.view;
    Childless(w, id);
    ghost var w0, w1 := s.AdjustStream(next, 0, false, 15);
    NowForgotten(w, id, next, w0, w1, s.view);
  }

  lemma NowForgotten(w: World, id: nat, next: nat, w0: World, w1: World, w': World)
    requires Sound(w) && w.nodes.Keys == {0, id} && 0 < id < next && RootQueue(w) == []
    requires IsAdded(w, next, w0) && IsDiscarded(w0, Some(w.nodes[id]), w1)
    requires IsAdjusted(w1, next, 0, false, 15, w') && Sound(w')
    ensures id !in w'.nodes && Queued(w', id) == []
  {
    InTree(w, 0);
    InTree(w, id);
    InTree(w', 0);
    assert RootQueue(w') == [];
  }

  lemma Childless(w: World, id: nat)
    requires Sound(w) && w.nodes.Keys == {0, id} && id != 0
    ensures Discardable(w, Some(w.nodes[id]))
  {
    InTree(w, id);
    Unfold(w);
    forall x | x in w.m ensures w.m[x].parent != w.nodes[id] {
      ParentAt(w.nodes, w.m, x);
    }
  }

  /** Two streams pushed by a third give it two kids: the case in which its removal would leave no tree. */
  method TwoKids(maxClosed: int, maxIdle: int) returns (s: Scheduler, n: Node)
    ensures s.Valid() && n in s.view.m && n.id == 1 && !AtMostOneKid(s.view.m, n) && !Discardable(s.view, Some(n))
  {
    s := OneKid(maxClosed, maxIdle);
    OpenNew(s, 5, 1);
    n := s.nodes[1];
    TwoKidsOf(s.view, 1, 3, 5);
  }

  method OneKid(maxClosed: int, maxIdle: int) returns (s: Scheduler)
    ensures fresh(s) && fresh(s.view.m.Keys) && s.Valid()
    ensures 1 in s.nodes && 3 in s.nodes && 5 !in s.nodes && 3 in Par(s.view) && Par(s.view)[3] == 1
  {
    s := NoKid(maxClosed, maxIdle);
    OpenNew(s, 3, 1);
  }

  method NoKid(maxClosed: int, maxIdle: int) returns (s: Scheduler)
    ensures fresh(s) && fresh(s.view.m.Keys) && s.Valid() && 1 in s.nodes && 3 !in s.nodes && 5 !in s.nodes
  {
    s := RootOnly(maxClosed, maxIdle);
    OpenNew(s, 1, 0);
  }

  method RootOnly(maxClosed: int, maxIdle: int) returns (s: Scheduler)
    ensures fresh(s) && fresh(s.view.m.Keys) && s.Valid() && forall i :: i in s.nodes <==> i == 0
  {
    s := new Scheduler(maxClosed, maxIdle, false);
  }

  method OpenNew(s: Scheduler, sid: nat, pusher: nat)
    requires s.Valid() && sid !in s.nodes && pusher in s.nodes
    modifies s, s.view.m.Keys
    ensures s.Valid() && fresh(s.view.m.Keys - old(s.view.m.Keys))
    ensures forall i :: i in s.nodes <==> i in old(s.nodes) || i == sid
    ensures Par(s.view) == Par(old(s.view))[sid := pusher]
  {
    s.OpenStream(sid, pusher);
  }

  lemma TwoKidsOf(w: World, p: nat, a: nat, b: nat)
    requires Sound(w) && p in w.nodes && a in w.nodes && b in w.nodes && a != b && a != 0 && b != 0
    requires a in Par(w) && b in Par(w) && Par(w)[a] == p == Par(w)[b]
    ensures w.nodes[p] in w.m && w.nodes[p].id == p && !AtMostOneKid(w.m, w.nodes[p])
  {
    Unfold(w);
    forall x | x in {a, b} ensures w.nodes[x] in w.m && w.m[w.nodes[x]].parent == w.nodes[p] {
      ParentAt(w.nodes, w.m, w.nodes[x]);
      ParentAt(w.nodes, w.m, w.m[w.nodes[x]].parent);
    }
    ParentAt(w.nodes, w.m, w.nodes[p]);
    assert w.nodes[a] != w.nodes[b] by {
      InTree(w, a);
      InTree(w, b);
    }
  }
}
