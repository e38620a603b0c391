/** Idle HTTP/1 connections: a list per host and one list over all hosts, least recently put first. */
module IdlePool {
  import opened Basics

  class PersistConn {
    const cacheKey: nat

    constructor (key: nat)
      ensures cacheKey == key
    {
      cacheKey := key;
    }
  }

  type Conns = seq<PersistConn>
  type Hosts = map<nat, Conns>

  // ----- lists of connections -----

  /** The connections of one host, in order. */
  function OfKey(s: Conns, k: nat): Conns {
    if s == [] then [] else (if s[0].cacheKey == k then [s[0]] else []) + OfKey(s[1..], k)
  }

  /** The list without (the first occurrence of) x. */
  function Without(s: Conns, x: PersistConn): Conns {
    if s == [] then [] else if s[0] == x then s[1..] else [s[0]] + Without(s[1..], x)
  }

  ghost predicate NoDup(s: Conns) {
    forall i, j :: 0 <= i < j < |s| ==> s[i] != s[j]
  }

  lemma {:induction false} OfKeyMembers(s: Conns, k: nat, x: PersistConn)
    ensures x in OfKey(s, k) <==> x in s && x.cacheKey == k
  {
    if s != [] {
      OfKeyMembers(s[1..], k, x);
    }
  }

  lemma {:induction false} OfKeyAppend(s: Conns, x: PersistConn, k: nat)
    ensures OfKey(s + [x], k) == OfKey(s, k) + if x.cacheKey == k then [x] else []
  {
    if s == [] {
      assert s + [x] == [x] && [x][1..] == [];
    } else {
      assert (s + [x])[1..] == s[1..] + [x];
      OfKeyAppend(s[1..], x, k);
      Reassociate(if s[0].cacheKey == k then [s[0]] else [], OfKey(s[1..], k), if x.cacheKey == k then [x] else []);
    }
  }

  lemma {:induction false} OfKeyNoDup(s: Conns, k: nat)
    requires NoDup(s)
    ensures NoDup(OfKey(s, k))
  {
    if s != [] {
      OfKeyNoDup(s[1..], k);
      OfKeyMembers(s[1..], k, s[0]);
      var t := OfKey(s[1..], k);
      assert s[0] !in s[1..];
      if s[0].cacheKey == k {
        assert OfKey(s, k) == [s[0]] + t;
      } else {
        assert OfKey(s, k) == t;
      }
    }
  }

  lemma {:induction false} WithoutMembers(s: Conns, x: PersistConn, y: PersistConn)
    requires NoDup(s)
    ensures y in Without(s, x) <==> y in s && y != x
  {
    if s != [] {
      WithoutMembers(s[1..], x, y);
    }
  }

  lemma {:induction false} WithoutNoDup(s: Conns, x: PersistConn)
    requires NoDup(s)
    ensures NoDup(Without(s, x)) && |Without(s, x)| == |s| - if x in s then 1 else 0
  {
    if s != [] {
      WithoutNoDup(s[1..], x);
      WithoutMembers(s[1..], x, s[0]);
      assert s == [s[0]] + s[1..];
    }
  }

  lemma {:induction false} WithoutAbsent(s: Conns, x: PersistConn)
    requires x !in s
    ensures Without(s, x) == s
  {
    if s != [] {
      WithoutAbsent(s[1..], x);
    }
  }

  lemma {:induction false} WithoutAt(s: Conns, i: nat)
    requires NoDup(s) && i < |s|
    ensures Without(s, s[i]) == s[..i] + s[i + 1..]
  {
    if i > 0 {
      WithoutAt(s[1..], i - 1);
      assert s[..i] + s[i + 1..] == [s[0]] + (s[1..][..i - 1] + s[1..][i..]);
    }
  }

  /** Taking a connection out of the order takes it out of its host's list, and leaves the others alone. */
  lemma {:induction false} OfKeyWithout(s: Conns, x: PersistConn, k: nat)
    ensures OfKey(Without(s, x), k) == if x.cacheKey == k then Without(OfKey(s, k), x) else OfKey(s, k)
  {
    if s != [] && s[0] != x {
      OfKeyWithout(s[1..], x, k);
      var w := Without(s, x);
      assert w[0] == s[0] && w[1..] == Without(s[1..], x);
      if s[0].cacheKey == k {
        assert OfKey(s, k)[1..] == OfKey(s[1..], k);
      } else {
        assert OfKey(s, k) == OfKey(s[1..], k) && OfKey(w, k) == OfKey(w[1..], k);
      }
    } else if s != [] {
      assert x.cacheKey == k ==> OfKey(s, k)[1..] == OfKey(s[1..], k);
    }
  }

  // ----- the two views agree -----

  ghost predicate AgreesAt(idle: Hosts, order: Conns, k: nat) {
    && (k in idle <==> OfKey(order, k) != [])
    && (k in idle ==> idle[k] == OfKey(order, k))
  }

  /** A host's list is the global order filtered by its key; there are no empty lists. */
  ghost predicate Agrees(idle: Hosts, order: Conns) {
    forall k {:trigger AgreesAt(idle, order, k)} :: AgreesAt(idle, order, k)
  }

  lemma AgreesAppend(idle: Hosts, order: Conns, x: PersistConn)
    requires Agrees(idle, order)
    ensures Agrees(idle[x.cacheKey := (if x.cacheKey in idle then idle[x.cacheKey] else []) + [x]], order + [x])
  {
    var idle' := idle[x.cacheKey := (if x.cacheKey in idle then idle[x.cacheKey] else []) + [x]];
    var order' := order + [x];
    forall k ensures AgreesAt(idle', order', k) {
      assert AgreesAt(idle, order, k);
      OfKeyAppend(order, x, k);
    }
  }

  /** The hosts after x has left its host's list. */
  function Dropped(idle: Hosts, x: PersistConn): Hosts {
    var k := x.cacheKey;
    if k !in idle then idle
    else if Without(idle[k], x) == [] then idle - {k}
    else idle[k := Without(idle[k], x)]
  }

  lemma AgreesWithout(idle: Hosts, order: Conns, x: PersistConn)
    requires Agrees(idle, order)
    ensures Agrees(Dropped(idle, x), Without(order, x))
  {
    var idle', order' := Dropped(idle, x), Without(order, x);
    forall k ensures AgreesAt(idle', order', k) {
      assert AgreesAt(idle, order, k);
      OfKeyWithout(order, x, k);
    }
  }

  predicate SameAt(a: Conns, b: Conns, key: nat, k: nat) {
    k != key ==> OfKey(a, k) == OfKey(b, k)
  }

  /** The lists of the other hosts are what they were. */
  ghost predicate SameElsewhere(a: Conns, b: Conns, key: nat) {
    forall k {:trigger SameAt(a, b, key, k)} :: SameAt(a, b, key, k)
  }

  lemma ElsewhereTrans(a: Conns, b: Conns, c: Conns, key: nat)
    requires SameElsewhere(a, b, key) && SameElsewhere(b, c, key)
    ensures SameElsewhere(a, c, key)
  {
    forall k ensures SameAt(a, c, key, k) {
      assert SameAt(a, b, key, k) && SameAt(b, c, key, k);
    }
  }

  lemma ElsewhereWithout(s: Conns, x: PersistConn)
    ensures SameElsewhere(s, Without(s, x), x.cacheKey)
  {
    var t := Without(s, x);
    forall k ensures SameAt(s, t, x.cacheKey, k) {
      OfKeyWithout(s, x, k);
    }
  }

  // ----- when connections were put -----

  type Stamps = map<PersistConn, nat>

  ghost predicate Stamped(order: Conns, stamp: Stamps, clock: nat) {
    && (forall i :: 0 <= i < |order| ==> order[i] in stamp && stamp[order[i]] < clock)
    && (forall i, j :: 0 <= i < j < |order| ==>
        order[i] in stamp && order[j] in stamp && stamp[order[i]] < stamp[order[j]])
  }

  lemma StampedNoDup(order: Conns, stamp: Stamps, clock: nat)
    requires Stamped(order, stamp, clock)
    ensures NoDup(order)
  {
  }

  lemma StampedAppend(order: Conns, stamp: Stamps, clock: nat, x: PersistConn)
    requires Stamped(order, stamp, clock) && x !in order
    ensures Stamped(order + [x], stamp[x := clock], clock + 1)
  {
  }

  lemma StampedWithout(order: Conns, stamp: Stamps, clock: nat, x: PersistConn)
    requires Stamped(order, stamp, clock)
    ensures Stamped(Without(order, x), stamp, clock)
  {
    StampedNoDup(order, stamp, clock);
    if x in order {
      var i :| 0 <= i < |order| && order[i] == x;
      WithoutAt(order, i);
      StampedCut(order, stamp, clock, i);
    } else {
      WithoutAbsent(order, x);
    }
  }

  lemma StampedCut(order: Conns, stamp: Stamps, clock: nat, i: nat)
    requires Stamped(order, stamp, clock) && i < |order|
    ensures Stamped(order[..i] + order[i + 1..], stamp, clock)
  {
    var t := order[..i] + order[i + 1..];
    forall a | 0 <= a < |t| ensures t[a] in stamp && stamp[t[a]] < clock {
      assert t[a] == order[if a < i then a else a + 1];
    }
    forall a, b | 0 <= a < b < |t| ensures t[a] in stamp && t[b] in stamp && stamp[t[a]] < stamp[t[b]] {
      assert t[a] == order[if a < i then a else a + 1] && t[b] == order[if b < i then b else b + 1];
    }
  }

  /** A host's list is in the order of the stamps too. */
  lemma {:induction false} OfKeyStamped(order: Conns, stamp: Stamps, clock: nat, k: nat)
    requires Stamped(order, stamp, clock)
    ensures Stamped(OfKey(order, k), stamp, clock)
  {
    if order != [] {
      OfKeyStamped(order[1..], stamp, clock, k);
      var t := OfKey(order[1..], k);
      forall y | y in t ensures y in stamp && stamp[order[0]] < stamp[y] {
        OfKeyMembers(order[1..], k, y);
      }
    }
  }

  // ----- the transport -----

  datatype PutResult =
    | Stored
    | HandedOver
    | KeepAlivesDisabled
    | ConnBroken
    | NotCachingH2
    | WantIdle
    | TooManyIdleHost
    | DuplicateIdle

  const DEFAULT_MAX_IDLE_PER_HOST: int := 2

  /** The last connection of a list that can be used, and how many are in front of it; all are dropped if none can. */
  function LastUsable(s: Conns, usable: set<PersistConn>): (n: nat)
    ensures n <= |s| && (n > 0 ==> s[n - 1] in usable)
    ensures forall i :: n <= i < |s| ==> s[i] !in usable
  {
    if s == [] then 0 else if s[|s| - 1] in usable then |s| else LastUsable(s[..|s| - 1], usable)
  }

  class Transport {
    const disableKeepAlives: bool
    const maxIdleConns: int
    const maxIdleConnsPerHost: int

    var idleConn: Hosts
    /** The LRU list, back first; its map of elements is the set of its members. */
    var idleLRU: Conns
    var wantIdle: bool

    /** When each connection was last put. */
    ghost var stamp: Stamps
    ghost var clock: nat

    function PerHost(): int {
      if maxIdleConnsPerHost != 0 then maxIdleConnsPerHost else DEFAULT_MAX_IDLE_PER_HOST
    }

    ghost predicate Linked()
      reads this
    {
      Agrees(idleConn, idleLRU) && Stamped(idleLRU, stamp, clock)
    }

    ghost predicate HostLimit(k: nat)
      reads this`idleConn
    {
      k in idleConn ==> |idleConn[k]| <= PerHost()
    }

    ghost predicate Valid()
      reads this
    {
      && Linked()
      && (forall k {:trigger HostLimit(k)} :: HostLimit(k))
      && (maxIdleConns > 0 ==> |idleLRU| <= maxIdleConns)
      && (maxIdleConns < 0 ==> idleLRU == [])
    }

    constructor (disableKeepAlives: bool, maxIdleConns: int, maxIdleConnsPerHost: int)
      ensures Valid() && idleLRU == [] && !wantIdle
    {
      this.disableKeepAlives := disableKeepAlives;
      this.maxIdleConns, this.maxIdleConnsPerHost := maxIdleConns, maxIdleConnsPerHost;
      idleConn, idleLRU, wantIdle := map[], [], false;
      stamp, clock := map[], 0;
    }

    /** removeIdleConnLocked: the connection leaves both lists, if it is there. */
    method RemoveIdleConn(pconn: PersistConn)
      requires Linked()
      modifies this`idleConn, this`idleLRU
      ensures Linked() && idleLRU == Without(old(idleLRU), pconn) && idleConn == Dropped(old(idleConn), pconn)
    {
      AgreesWithout(idleConn, idleLRU, pconn);
      StampedWithout(idleLRU, stamp, clock, pconn);
      StampedNoDup(idleLRU, stamp, clock);
      assert AgreesAt(idleConn, idleLRU, pconn.cacheKey);
      OfKeyNoDup(idleLRU, pconn.cacheKey);
      idleLRU := Without(idleLRU, pconn);
      DropFromHost(pconn);
    }

    method DropFromHost(pconn: PersistConn)
      requires pconn.cacheKey in idleConn ==> NoDup(idleConn[pconn.cacheKey]) && idleConn[pconn.cacheKey] != []
      modifies this`idleConn
      ensures idleConn == Dropped(old(idleConn), pconn)
    {
      var key := pconn.cacheKey;
      var pconns := if key in idleConn then idleConn[key] else [];
      if |pconns| == 1 {
        if pconns[0] == pconn {
          assert Without(pconns, pconn) == pconns[1..] == [];
          idleConn := idleConn - {key};
        } else {
          WithoutAbsent(pconns, pconn);
          assert idleConn[key := pconns] == idleConn;
        }
      } else if |pconns| > 1 {
        var i := 0;
        while i < |pconns| && pconns[i] != pconn
          invariant i <= |pconns| && pconn !in pconns[..i]
        {
          i := i + 1;
        }
        if i < |pconns| {
          WithoutAt(pconns, i);
          idleConn := idleConn[key := pconns[..i] + pconns[i + 1..]];
        } else {
          assert pconns[..i] == pconns && idleConn[key := pconns] == idleConn;
          WithoutAbsent(pconns, pconn);
        }
      }
    }

    /**
     * tryPutIdleConn. A stored connection goes to the end of both lists; over the global limit the connection put
     * longest ago is closed. broken, alt and waiting are what the connection and a waiting dialer say.
     */
    method TryPutIdleConn(pconn: PersistConn, broken: bool, alt: bool, waiting: bool)
      returns (r: PutResult, evicted: Option<PersistConn>)
      requires Valid()
      modifies this
      ensures Valid() && wantIdle == old(wantIdle)
      ensures r != Stored ==> idleLRU == old(idleLRU) && idleConn == old(idleConn) && evicted == None
      ensures r == Stored <==>
                && !disableKeepAlives && maxIdleConnsPerHost >= 0 && !broken && !alt && !waiting && !wantIdle
                && |OfKey(old(idleLRU), pconn.cacheKey)| < PerHost() && pconn !in old(idleLRU)
      ensures r == DuplicateIdle ==> pconn in old(idleLRU)
      ensures r == Stored && evicted == None ==> idleLRU == old(idleLRU) + [pconn]
      ensures r == Stored && evicted.Some? ==> idleLRU == (old(idleLRU) + [pconn])[1..]
      ensures r == Stored ==> (evicted.Some? <==> maxIdleConns != 0 && |old(idleLRU)| + 1 > maxIdleConns)
      ensures r == Stored ==>
                evicted.Some? ==>
                  evicted.value in stamp && forall c :: c in idleLRU ==> c in stamp && stamp[evicted.value] < stamp[c]
    {
      evicted := None;
      if disableKeepAlives || maxIdleConnsPerHost < 0 {
        return KeepAlivesDisabled, None;
      }
      if broken {
        return ConnBroken, None;
      }
      if alt {
        return NotCachingH2, None;
      }
      if waiting {
        return HandedOver, None;
      }
      if wantIdle {
        return WantIdle, None;
      }
      var key := pconn.cacheKey;
      var idles := if key in idleConn then idleConn[key] else [];
      assert AgreesAt(idleConn, idleLRU, key) && HostLimit(key);
      if |idles| >= PerHost() {
        return TooManyIdleHost, None;
      }
      OfKeyMembers(idleLRU, key, pconn);
      if pconn in idles {
        return DuplicateIdle, None;
      }
      Append(pconn, idles);
      if maxIdleConns != 0 && |idleLRU| > maxIdleConns {
        evicted := EvictOldest();
      }
      r := Stored;
    }

    /** The panic of the LRU on a connection it already holds is out of reach. */
    method Append(pconn: PersistConn, idles: Conns)
      requires Valid() && pconn !in idleLRU
      requires idles == (if pconn.cacheKey in idleConn then idleConn[pconn.cacheKey] else [])
      requires |idles| < PerHost()
      modifies this`idleConn, this`idleLRU, this`stamp, this`clock
      ensures Linked() && idleLRU == old(idleLRU) + [pconn] && forall k :: HostLimit(k)
    {
      assert forall k :: HostLimit(k);
      AgreesAppend(idleConn, idleLRU, pconn);
      StampedAppend(idleLRU, stamp, clock, pconn);
      idleConn := idleConn[pconn.cacheKey := idles + [pconn]];
      idleLRU := idleLRU + [pconn];
      stamp, clock := stamp[pconn := clock], clock + 1;
      forall k ensures HostLimit(k) {
        assert old(HostLimit(k));
      }
    }

    method EvictOldest() returns (oldest: Option<PersistConn>)
      requires Linked() && idleLRU != [] && forall k :: HostLimit(k)
      modifies this`idleConn, this`idleLRU
      ensures Linked() && oldest == Some(old(idleLRU)[0]) && idleLRU == old(idleLRU)[1..] && forall k :: HostLimit(k)
    {
      oldest := Some(idleLRU[0]);
      ghost var was := idleConn;
      StampedNoDup(idleLRU, stamp, clock);
      assert AgreesAt(idleConn, idleLRU, idleLRU[0].cacheKey);
      OfKeyNoDup(idleLRU, idleLRU[0].cacheKey);
      ghost var oldLimit := PerHost();
      ghost var x := idleLRU[0];
      RemoveIdleConn(idleLRU[0]);
      forall k ensures HostLimit(k) {
        assert old(HostLimit(k));
        if k == x.cacheKey && k in was {
          WithoutNoDup(was[k], x);
        }
      }
    }

    /**
     * getIdleConn: the connection of the host that was put last among those that can still be used. The ones put
     * after it are dropped on the way; usable holds those that pass the two checks when they are looked at.
     */
    method GetIdleConn(key: nat, usable: set<PersistConn>) returns (pconn: Option<PersistConn>)
      requires Valid()
      modifies this`idleConn, this`idleLRU
      ensures Valid()
      ensures var was := OfKey(old(idleLRU), key);
        var n := LastUsable(was, usable);
        && pconn == (if n > 0 then Some(was[n - 1]) else None)
        && OfKey(idleLRU, key) == (if n > 0 then was[..n - 1] else [])
      ensures SameElsewhere(old(idleLRU), idleLRU, key)
      ensures pconn.Some? ==> pconn.value in stamp && pconn.value !in idleLRU
      ensures forall c: PersistConn :: c in old(idleLRU) && c.cacheKey == key && c in usable ==>
                pconn.Some? && c in stamp && stamp[c] <= stamp[pconn.value]
    {
      GetFacts(idleLRU, stamp, clock, key, usable);
      pconn := PopUsable(key, usable);
    }

    /** The loop of getIdleConn. */
    method PopUsable(key: nat, usable: set<PersistConn>) returns (pconn: Option<PersistConn>)
      requires Valid()
      modifies this`idleConn, this`idleLRU
      ensures Valid()
      ensures var was := OfKey(old(idleLRU), key);
        var n := LastUsable(was, usable);
        && pconn == (if n > 0 then Some(was[n - 1]) else None)
        && OfKey(idleLRU, key) == (if n > 0 then was[..n - 1] else [])
      ensures SameElsewhere(old(idleLRU), idleLRU, key) && (pconn.Some? ==> pconn.value !in idleLRU)
    {
      ghost var was := OfKey(idleLRU, key);
      ghost var order := idleLRU;
      ghost var n := |was|;
      assert was[..n] == was;
      while true
        invariant Valid() && 0 <= n <= |was| && OfKey(idleLRU, key) == was[..n]
        invariant LastUsable(was[..n], usable) == LastUsable(was, usable)
        invariant SameElsewhere(order, idleLRU, key)
        decreases n
      {
        assert AgreesAt(idleConn, idleLRU, key);
        if key !in idleConn {
          return None;
        }
        var c := idleConn[key][|idleConn[key]| - 1];
        assert was[..n][..n - 1] == was[..n - 1];
        ghost var before := idleLRU;
        TakeLast(key);
        ElsewhereTrans(order, before, idleLRU, key);
        n := n - 1;
        if c in usable {
          assert was[n] == c;
          return Some(c);
        }
      }
    }

    /** The last connection of a host's list leaves both lists. */
    method TakeLast(key: nat)
      requires Valid() && key in idleConn
      modifies this`idleConn, this`idleLRU
      ensures Valid() && old(OfKey(idleLRU, key)) != []
      ensures OfKey(idleLRU, key) == old(OfKey(idleLRU, key)[..|OfKey(idleLRU, key)| - 1])
      ensures SameElsewhere(old(idleLRU), idleLRU, key)
      ensures old(OfKey(idleLRU, key))[|old(OfKey(idleLRU, key))| - 1] !in idleLRU
    {
      assert AgreesAt(idleConn, idleLRU, key);
      var pconns := idleConn[key];
      var pconn := pconns[|pconns| - 1];
      ghost var hosts, order := idleConn, idleLRU;
      OfKeyMembers(order, key, pconn);
      StampedNoDup(order, stamp, clock);
      OfKeyNoDup(order, key);
      WithoutAt(pconns, |pconns| - 1);
      assert Without(pconns, pconn) == pconns[..|pconns| - 1];
      WithoutNoDup(order, pconn);
      WithoutMembers(order, pconn, pconn);
      AgreesWithout(hosts, order, pconn);
      StampedWithout(order, stamp, clock, pconn);
      if |pconns| == 1 {
        idleConn := idleConn - {key};
      } else {
        idleConn := idleConn[key := pconns[..|pconns| - 1]];
      }
      assert idleConn == Dropped(hosts, pconn);
      idleLRU := Without(idleLRU, pconn);
      ElsewhereWithout(order, pconn);
      OfKeyWithout(order, pconn, key);
      forall k ensures HostLimit(k) {
        assert old(HostLimit(k));
      }
    }

    /** removeIdleConn, when a connection dies. */
    method Remove(pconn: PersistConn)
      requires Valid()
      modifies this`idleConn, this`idleLRU
      ensures Valid() && idleLRU == Without(old(idleLRU), pconn)
    {
      ghost var was := idleConn;
      StampedNoDup(idleLRU, stamp, clock);
      assert AgreesAt(idleConn, idleLRU, pconn.cacheKey);
      OfKeyNoDup(idleLRU, pconn.cacheKey);
      WithoutNoDup(idleLRU, pconn);
      RemoveIdleConn(pconn);
      forall k ensures HostLimit(k) {
        assert old(HostLimit(k));
        if k == pconn.cacheKey && k in was {
          WithoutNoDup(was[k], pconn);
        }
      }
    }

    /** CloseIdleConnections: every idle connection is closed, and new ones are not wanted until one is asked for. */
    method CloseIdleConnections() returns (closed: set<PersistConn>)
      requires Valid()
      modifies this`idleConn, this`idleLRU, this`wantIdle
      ensures Valid() && idleLRU == [] && wantIdle
      ensures forall c :: c in closed <==> c in old(idleLRU)
    {
      ghost var order := idleLRU;
      var m := idleConn;
      forall c: PersistConn ensures c in order <==> c.cacheKey in m && c in m[c.cacheKey] {
        assert AgreesAt(m, order, c.cacheKey);
        OfKeyMembers(order, c.cacheKey, c);
      }
      forall k, c: PersistConn | k in m && c in m[k] ensures c.cacheKey == k {
        assert AgreesAt(m, order, k);
        OfKeyMembers(order, k, c);
      }
      idleConn, idleLRU, wantIdle := map[], [], true;
      closed := {};
      var keys := m.Keys;
      while keys != {}
        invariant keys <= m.Keys && Valid() && idleLRU == [] && wantIdle
        invariant forall c: PersistConn :: c in closed <==> c in order && c.cacheKey !in keys
        decreases |keys|
      {
        var k :| k in keys;
        closed := closed + set c | c in m[k];
        keys := keys - {k};
      }
    }

    /** getIdleConnCh: a dialer waits, so idle connections are wanted again. */
    method WantConn()
      requires Valid()
      modifies this`wantIdle
      ensures Valid() && wantIdle == (old(wantIdle) && disableKeepAlives)
    {
      if !disableKeepAlives {
        wantIdle := false;
      }
    }
  }

  /** What the last usable connection of a host is, in terms of when connections were put. */
  lemma GetFacts(order: Conns, stamp: Stamps, clock: nat, key: nat, usable: set<PersistConn>)
    requires Stamped(order, stamp, clock)
    ensures var was := OfKey(order, key);
      var n := LastUsable(was, usable);
      && (n > 0 ==> was[n - 1] in stamp)
      && forall c: PersistConn :: c in order && c.cacheKey == key && c in usable ==>
          n > 0 && c in stamp && stamp[c] <= stamp[was[n - 1]]
  {
    var was := OfKey(order, key);
    var n := LastUsable(was, usable);
    OfKeyStamped(order, stamp, clock, key);
    forall c: PersistConn | c in order && c.cacheKey == key && c in usable
      ensures n > 0 && c in stamp && stamp[c] <= stamp[was[n - 1]] {
      OfKeyMembers(order, key, c);
      var i :| 0 <= i < |was| && was[i] == c;
    }
  }

  datatype Op =
    | Put(c: PersistConn, broken: bool, alt: bool, waiting: bool)
    | Get(key: nat, usable: set<PersistConn>)
    | Die(c: PersistConn)
    | CloseAll
    | Want

  /** Every run keeps the two views in agreement and both limits. */
  method Exercise(t: Transport, ops: seq<Op>)
    requires t.Valid()
    modifies t
    ensures t.Valid()
  {
    for i := 0 to |ops|
      invariant t.Valid()
    {
      match ops[i]
      case Put(c, broken, alt, waiting) => var _, _ := t.TryPutIdleConn(c, broken, alt, waiting);
      case Get(key, usable) => var _ := t.GetIdleConn(key, usable);
      case Die(c) => t.Remove(c);
      case CloseAll => var _ := t.CloseIdleConnections();
      case Want => t.WantConn();
    }
  }
}
