/** Sequences of frames: what the order check accepts, and reading back everything that was written. */
module FrameStreams {
  import opened Basics
  import opened Frames

  // ----- the order of frames -----

  predicate OpensBlock(h: FrameHeader) {
    h.typ == HEADERS || h.typ == CONTINUATION
  }

  /** Frames of a header block have passed the parsers, which refuse stream 0. */
  predicate BlockIds(hs: seq<FrameHeader>) {
    forall i :: 0 <= i < |hs| ==> OpensBlock(hs[i]) ==> hs[i].id != 0
  }

  /** checkFrameOrder over a whole sequence of frames. */
  function Order(last: nat, hs: seq<FrameHeader>): Result<nat>
    decreases |hs|
  {
    if hs == [] then Ok(last)
    else
      match CheckFrameOrder(last, hs[0], false)
      case Err(e) => Err(e)
      case Ok(last') => Order(last', hs[1..])
  }

  /** The rest of a header block on a stream: CONTINUATION frames, END_HEADERS on the last and only there. */
  predicate Tail(id: nat, u: seq<FrameHeader>) {
    && u != []
    && (forall i :: 0 <= i < |u| ==> u[i].typ == CONTINUATION && u[i].id == id)
    && (forall i :: 0 <= i < |u| ==> (Has(u[i].flags, END_HEADERS) <==> i == |u| - 1))
  }

  /** One unit of the frame grammar: a frame that carries no header block, or a header block whole. */
  predicate Unit(u: seq<FrameHeader>) {
    && u != []
    && (|u| == 1 ==> !OpensBlock(u[0]) || (u[0].typ == HEADERS && Has(u[0].flags, END_HEADERS)))
    && (|u| > 1 ==> u[0].typ == HEADERS && !Has(u[0].flags, END_HEADERS) && Tail(u[0].id, u[1..]))
  }

  ghost predicate InUnits(us: seq<seq<FrameHeader>>) {
    forall i :: 0 <= i < |us| ==> Unit(us[i])
  }

  /** A sequence of frames that is made of whole units. */
  ghost predicate WellOrdered(hs: seq<FrameHeader>) {
    exists us :: InUnits(us) && Concat(us) == hs
  }

  lemma {:induction false} OrderAppend(last: nat, s: seq<FrameHeader>, t: seq<FrameHeader>)
    decreases |s|
    ensures Order(last, s + t) == if Order(last, s).Ok? then Order(Order(last, s).value, t) else Order(last, s)
  {
    if s == [] {
      assert s + t == t;
    } else {
      assert (s + t)[1..] == s[1..] + t;
      var o := CheckFrameOrder(last, s[0], false);
      if o.Ok? {
        OrderAppend(o.value, s[1..], t);
      }
    }
  }

  lemma {:induction false} TailOrder(id: nat, u: seq<FrameHeader>)
    requires id != 0 && Tail(id, u)
    ensures Order(id, u) == Ok(0)
  {
    if |u| > 1 {
      assert u[0].typ == CONTINUATION && !Has(u[0].flags, END_HEADERS);
      forall i | 0 <= i < |u[1..]|
        ensures u[1..][i].typ == CONTINUATION && u[1..][i].id == id
        ensures (Has(u[1..][i].flags, END_HEADERS) <==> i == |u[1..]| - 1)
      {
        assert u[1..][i] == u[i + 1];
      }
      TailOrder(id, u[1..]);
    }
  }

  lemma UnitOrder(u: seq<FrameHeader>)
    requires Unit(u) && BlockIds(u)
    ensures Order(0, u) == Ok(0)
  {
    if |u| > 1 {
      TailOrder(u[0].id, u[1..]);
    }
  }

  lemma {:induction false} UnitsOrder(us: seq<seq<FrameHeader>>)
    requires InUnits(us) && BlockIds(Concat(us))
    ensures Order(0, Concat(us)) == Ok(0)
  {
    if us != [] {
      var s, t := us[0], Concat(us[1..]);
      assert BlockIds(s) by {
        assert forall i :: 0 <= i < |s| ==> s[i] == (s + t)[i];
      }
      assert BlockIds(t) by {
        assert forall i :: 0 <= i < |t| ==> t[i] == (s + t)[|s| + i];
      }
      UnitOrder(s);
      UnitsOrder(us[1..]);
      OrderAppend(0, s, t);
    }
  }

  /** An open header block that the order check sees closed again has its tail first. */
  lemma {:induction false} OpenTail(id: nat, hs: seq<FrameHeader>) returns (n: nat)
    requires id != 0 && Order(id, hs) == Ok(0)
    ensures n <= |hs| && Tail(id, hs[..n]) && Order(0, hs[n..]) == Ok(0)
  {
    if Has(hs[0].flags, END_HEADERS) {
      n := 1;
      assert hs[..1] == [hs[0]];
    } else {
      var m := OpenTail(id, hs[1..]);
      n := m + 1;
      forall i | 0 <= i < n
        ensures hs[..n][i].typ == CONTINUATION && hs[..n][i].id == id
        ensures (Has(hs[..n][i].flags, END_HEADERS) <==> i == n - 1)
      {
        assert i > 0 ==> hs[i] == hs[1..][..m][i - 1];
      }
      assert hs[n..] == hs[1..][m..];
    }
  }

  /** What the order check lets through starts with a whole unit. */
  lemma FirstUnit(hs: seq<FrameHeader>) returns (n: nat)
    requires hs != [] && BlockIds(hs) && Order(0, hs) == Ok(0)
    ensures 0 < n <= |hs| && Unit(hs[..n]) && Order(0, hs[n..]) == Ok(0) && BlockIds(hs[n..])
  {
    n := 1;
    if OpensBlock(hs[0]) && !Has(hs[0].flags, END_HEADERS) {
      var m := OpenTail(hs[0].id, hs[1..]);
      n := m + 1;
      assert hs[..n][1..] == hs[1..][..m] && hs[n..] == hs[1..][m..];
    }
  }

  lemma {:induction false} OrderUnits(hs: seq<FrameHeader>) returns (us: seq<seq<FrameHeader>>)
    requires BlockIds(hs) && Order(0, hs) == Ok(0)
    ensures InUnits(us) && Concat(us) == hs
    decreases |hs|
  {
    if hs == [] {
      us := [];
    } else {
      var n := FirstUnit(hs);
      var vs := OrderUnits(hs[n..]);
      us := [hs[..n]] + vs;
      assert us[1..] == vs;
    }
  }

  /**
   * The order check lets a sequence of frames through, with no header block left open, exactly when header blocks are
   * contiguous: HEADERS, then CONTINUATION on the same stream up to END_HEADERS.
   */
  lemma OrderIffUnits(hs: seq<FrameHeader>)
    requires BlockIds(hs)
    ensures Order(0, hs) == Ok(0) <==> WellOrdered(hs)
  {
    if Order(0, hs) == Ok(0) {
      var us := OrderUnits(hs);
    }
    if WellOrdered(hs) {
      var us :| InUnits(us) && Concat(us) == hs;
      UnitsOrder(us);
    }
  }

  // ----- writing and reading many frames -----

  predicate Accepted(qs: seq<Request>) {
    forall i :: 0 <= i < |qs| ==> Encode(qs[i], false).Ok?
  }

  /** The bytes on the wire after writing all the requests. */
  function Wire(qs: seq<Request>): seq<byte>
    requires Accepted(qs)
  {
    if qs == [] then [] else Encode(qs[0], false).value + Wire(qs[1..])
  }

  function HeadersOf(qs: seq<Request>): (r: seq<FrameHeader>)
    ensures |r| == |qs|
  {
    if qs == [] then [] else [HeaderOf(qs[0])] + HeadersOf(qs[1..])
  }

  function FramesOf(qs: seq<Request>): (r: seq<Frame>)
    ensures |r| == |qs|
  {
    if qs == [] then [] else [FrameOf(qs[0])] + FramesOf(qs[1..])
  }

  datatype ReadRun = ReadRun(frames: seq<Frame>, error: Option<FrameError>, rest: seq<byte>, last: nat)

  /** ReadFrame n times, or until it fails. */
  function ReadMany(r: seq<byte>, n: nat, last: nat, maxRead: nat): ReadRun {
    if n == 0 then ReadRun([], None, r, last)
    else
      var one := ReadFrame(r, last, maxRead, false);
      if one.frame.Err? then ReadRun([], Some(one.frame.error), one.rest, one.lastHeaderStream)
      else
        var more := ReadMany(one.rest, n - 1, one.lastHeaderStream, maxRead);
        more.(frames := [one.frame.value] + more.frames)
  }

  predicate AllReadable(qs: seq<Request>, maxRead: nat) {
    forall i :: 0 <= i < |qs| ==> Readable(qs[i]) && HeaderOf(qs[i]).length <= maxRead
  }

  /**
   * Whatever follows on the wire, reading returns the frames that were written exactly when each is readable, within
   * the read limit and in order; the bytes after them are then left unread.
   */
  lemma {:induction false} ReadsAllBackIff(qs: seq<Request>, rest: seq<byte>, last: nat, maxRead: nat)
    requires Accepted(qs)
    ensures ReadMany(Wire(qs) + rest, |qs|, last, maxRead).frames == FramesOf(qs)
       <==> AllReadable(qs, maxRead) && Order(last, HeadersOf(qs)).Ok?
    ensures AllReadable(qs, maxRead) && Order(last, HeadersOf(qs)).Ok? ==>
              ReadMany(Wire(qs) + rest, |qs|, last, maxRead)
                  == ReadRun(FramesOf(qs), None, rest, Order(last, HeadersOf(qs)).value)
  {
    if qs == [] {
      assert Wire(qs) + rest == rest;
    } else {
      var q, qs' := qs[0], qs[1..];
      var first, more := Encode(q, false).value, Wire(qs') + rest;
      Reassociate(first, Wire(qs'), rest);
      ReadsBackIff(q, more, last, maxRead);
      ReadableParts(qs, maxRead);
      if Readable(q) && InTurn(HeaderOf(q), last, maxRead) {
        ReadsAllBackIff(qs', rest, CheckFrameOrder(last, HeaderOf(q), false).value, maxRead);
      }
      ReadManyStep(first + more, last, maxRead, HeaderOf(q), FrameOf(q), Readable(q), more,
                   HeadersOf(qs'), FramesOf(qs'), AllReadable(qs', maxRead), rest);
    }
  }

  lemma ReadableParts(qs: seq<Request>, maxRead: nat)
    requires qs != []
    ensures AllReadable(qs, maxRead) <==>
              Readable(qs[0]) && HeaderOf(qs[0]).length <= maxRead && AllReadable(qs[1..], maxRead)
  {
    if AllReadable(qs[1..], maxRead) && Readable(qs[0]) && HeaderOf(qs[0]).length <= maxRead {
      forall i | 0 <= i < |qs| ensures Readable(qs[i]) && HeaderOf(qs[i]).length <= maxRead {
        assert i > 0 ==> qs[i] == qs[1..][i - 1];
      }
    }
  }

  /** One frame, and what is known of the frames after it: the step of ReadsAllBackIff. */
  lemma ReadManyStep(r: seq<byte>, last: nat, maxRead: nat, fh: FrameHeader, f: Frame, ok: bool, more: seq<byte>,
                     hs: seq<FrameHeader>, fs: seq<Frame>, oks: bool, rest: seq<byte>)
    requires ReadFrame(r, last, maxRead, false).frame == Ok(f) <==> ok && InTurn(fh, last, maxRead)
    requires ok && InTurn(fh, last, maxRead) ==>
               var last' := CheckFrameOrder(last, fh, false).value;
               && ReadFrame(r, last, maxRead, false) == ReadResult(Ok(f), more, last')
               && (ReadMany(more, |hs|, last', maxRead).frames == fs <==> oks && Order(last', hs).Ok?)
               && (oks && Order(last', hs).Ok? ==>
                   ReadMany(more, |hs|, last', maxRead) == ReadRun(fs, None, rest, Order(last', hs).value))
    ensures ReadMany(r, |hs| + 1, last, maxRead).frames == [f] + fs
       <==> ok && fh.length <= maxRead && oks && Order(last, [fh] + hs).Ok?
    ensures ok && fh.length <= maxRead && oks && Order(last, [fh] + hs).Ok? ==>
              ReadMany(r, |hs| + 1, last, maxRead) == ReadRun([f] + fs, None, rest, Order(last, [fh] + hs).value)
  {
    var one := ReadFrame(r, last, maxRead, false);
    var all := ReadMany(r, |hs| + 1, last, maxRead).frames;
    assert ([fh] + hs)[1..] == hs;
    if one.frame.Ok? {
      assert all[1..] == ReadMany(one.rest, |hs|, one.lastHeaderStream, maxRead).frames && ([f] + fs)[1..] == fs;
    }
  }
}
