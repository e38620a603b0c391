/** Expanding a network block into its addresses with a cursor that is incremented in place. */
module Cidr {
  import opened Basics
  import opened Bytes

  function Pow2(k: nat): (r: nat)
    ensures r > 0
  {
    if k == 0 then 1 else 2 * Pow2(k - 1)
  }

  /** An address as a number, most significant byte first. */
  function Value(s: bytes): nat {
    if s == [] then 0 else 256 * Value(s[..|s| - 1]) + s[|s| - 1]
  }

  /** How many addresses of n bytes there are. */
  function Space(n: nat): nat {
    Pow2(8 * n)
  }

  lemma SpaceStep(n: nat)
    requires n > 0
    ensures Space(n) == 256 * Space(n - 1)
  {
    var k := 8 * (n - 1);
    assert Pow2(k + 8) == 2 * Pow2(k + 7) == 4 * Pow2(k + 6) == 8 * Pow2(k + 5) == 16 * Pow2(k + 4);
    assert Pow2(k + 4) == 2 * Pow2(k + 3) == 4 * Pow2(k + 2) == 8 * Pow2(k + 1) == 16 * Pow2(k);
  }

  lemma {:induction false} ValueBound(s: bytes)
    ensures Value(s) < Space(|s|)
  {
    if s != [] {
      ValueBound(s[..|s| - 1]);
      SpaceStep(|s|);
    }
  }

  /** Addition of one with carry from the last byte. */
  function Incremented(s: bytes): (r: bytes)
    ensures |r| == |s|
  {
    if s == [] then []
    else if s[|s| - 1] == 255 then Incremented(s[..|s| - 1]) + [0]
    else s[..|s| - 1] + [s[|s| - 1] + 1]
  }

  /** It is addition of one, wrapping round at the end of the address space. */
  lemma {:induction false} IncrementedValue(s: bytes)
    ensures Value(Incremented(s)) == if Value(s) + 1 < Space(|s|) then Value(s) + 1 else 0
  {
    if s != [] {
      var n := |s| - 1;
      ValueBound(s[..n]);
      SpaceStep(|s|);
      var r := Incremented(s);
      if s[n] == 255 {
        IncrementedValue(s[..n]);
        assert r[..n] == Incremented(s[..n]);
      } else {
        assert r[..n] == s[..n];
      }
    }
  }

  /** incrementIP: bytes wrap round from the last one, until one does not. */
  method IncrementIP(ip: array<byte>)
    modifies ip
    ensures ip[..] == Incremented(old(ip[..]))
  {
    ghost var was := ip[..];
    var j := ip.Length - 1;
    assert was[..j + 1] == was && Zeros(0) == [];
    while j >= 0
      invariant -1 <= j < ip.Length
      invariant ip[..] == was[..j + 1] + Zeros(ip.Length - j - 1)
      invariant Incremented(was) == Incremented(was[..j + 1]) + Zeros(ip.Length - j - 1)
    {
      ghost var head := was[..j + 1];
      assert ip[j] == was[j];
      assert head[..j] == was[..j];
      ip[j] := (ip[j] as int + 1) % 256;
      if ip[j] > 0 {
        assert Incremented(head) == was[..j] + [was[j] + 1];
        break;
      }
      assert Incremented(head) == Incremented(was[..j]) + [0];
      CarryOn(Incremented(was), Incremented(head), Incremented(was[..j]), ip.Length - j - 1);
      assert ip[..] == was[..j] + Zeros(ip.Length - j);
      j := j - 1;
    }
  }

  lemma CarryOn(all: bytes, head: bytes, rest: bytes, n: nat)
    requires all == head + Zeros(n) && head == rest + [0]
    ensures all == rest + Zeros(n + 1)
  {
    assert Zeros(n + 1) == [0] + Zeros(n);
    Reassociate(rest, [0], Zeros(n));
  }

  // ----- networks -----

  /** Rounding down to a multiple. */
  function Floor(v: nat, size: nat): (r: nat)
    requires size > 0
    ensures r <= v < r + size
  {
    if v < size then 0 else size + Floor(v - size, size)
  }

  /** The first k bits of a byte. */
  function MaskByte(b: byte, k: nat): byte
    requires k <= 8
  {
    Floor(b, Pow2(8 - k))
  }

  /** The first p bits of an address. */
  function Masked(s: bytes, p: nat): (r: bytes)
    ensures |r| == |s|
  {
    if s == [] then []
    else
      var n := |s| - 1;
      if p <= 8 * n then Masked(s[..n], p) + [0]
      else Masked(s[..n], 8 * n) + [MaskByte(s[n], if p - 8 * n < 8 then p - 8 * n else 8)]
  }

  /** Addresses whose first p bits agree. */
  predicate SameBits(net: bytes, p: nat, ip: bytes) {
    |ip| == |net| && Masked(ip, p) == Masked(net, p)
  }

  /** How many addresses share their first p bits. */
  function BlockSize(n: nat, p: nat): nat
    requires p <= 8 * n
  {
    Pow2(8 * n - p)
  }

  lemma {:induction false} MaskedWhole(s: bytes)
    ensures Masked(s, 8 * |s|) == s
  {
    if s != [] {
      var n := |s| - 1;
      MaskedWhole(s[..n]);
      assert Pow2(0) == 1;
      assert s == s[..n] + [s[n]];
    }
  }

  lemma {:induction false} Pow2Splits(a: nat, b: nat)
    ensures Pow2(a + b) == Pow2(a) * Pow2(b)
  {
    if b > 0 {
      Pow2Splits(a, b - 1);
      assert Pow2(a) * (2 * Pow2(b - 1)) == 2 * (Pow2(a) * Pow2(b - 1));
    }
  }

  lemma {:induction false} SameFloor(a: nat, b: nat, size: nat)
    requires size > 0
    ensures Floor(a, size) == Floor(b, size) <==> Floor(a, size) <= b < Floor(a, size) + size
  {
    if a >= size && b >= size {
      SameFloor(a - size, b - size, size);
    }
  }

  /** Adding a multiple. */
  lemma {:induction false} FloorShift(v: nat, size: nat, m: nat)
    requires size > 0
    ensures Floor(v + m * size, size) == m * size + Floor(v, size)
  {
    if m > 0 {
      assert m * size == (m - 1) * size + size;
      FloorShift(v, size, m - 1);
      assert v + m * size >= size && v + m * size - size == v + (m - 1) * size;
    }
  }

  lemma {:induction false} FloorFits(v: nat, size: nat, m: nat)
    requires size > 0 && v < m * size
    ensures Floor(v, size) + size <= m * size
  {
    assert m * size == (m - 1) * size + size;
    if v >= size {
      FloorFits(v - size, size, m - 1);
    }
  }

  /** The last byte is cut: what is in front of it stays. */
  lemma CutInByte(a: nat, b: byte, k: nat)
    requires k <= 8
    ensures 256 * a + MaskByte(b, k) == Floor(256 * a + b, Pow2(8 - k))
  {
    Pow2Splits(k, 8 - k);
    assert Pow2(8) == 256;
    CutAt(a, b, Pow2(8 - k), Pow2(k));
  }

  lemma CutAt(a: nat, b: nat, size: nat, m: nat)
    requires size > 0 && m * size == 256
    ensures 256 * a + Floor(b, size) == Floor(256 * a + b, size)
  {
    assert (a * m) * size == a * (m * size) == 256 * a;
    FloorShift(b, size, a * m);
  }

  /** The last byte is dropped: the rest is cut. */
  lemma {:induction false} CutBefore(a: nat, b: byte, size: nat)
    requires size > 0
    ensures 256 * Floor(a, size) == Floor(256 * a + b, 256 * size)
  {
    if a >= size {
      CutBefore(a - size, b, size);
    }
  }

  lemma SizeStep(n: nat, p: nat)
    requires p <= 8 * n
    ensures BlockSize(n + 1, p) == 256 * BlockSize(n, p)
  {
    Pow2Splits(8, 8 * n - p);
    assert Pow2(8) == 256;
  }

  lemma {:induction false} MaskedValue(s: bytes, p: nat)
    requires p <= 8 * |s|
    ensures Value(Masked(s, p)) == Floor(Value(s), BlockSize(|s|, p))
  {
    if s == [] {
      assert Pow2(0) == 1;
    } else {
      var n := |s| - 1;
      var m := Masked(s, p);
      if p <= 8 * n {
        MaskedValue(s[..n], p);
        assert m[..n] == Masked(s[..n], p) && m[n] == 0;
        SizeStep(n, p);
        CutBefore(Value(s[..n]), s[n], BlockSize(n, p));
      } else {
        MaskedWhole(s[..n]);
        assert m[..n] == s[..n] && m[n] == MaskByte(s[n], p - 8 * n);
        assert BlockSize(|s|, p) == Pow2(8 - (p - 8 * n));
        CutInByte(Value(s[..n]), s[n], p - 8 * n);
      }
    }
  }

  lemma SameDigits(a: nat, x: byte, b: nat, y: byte)
    requires 256 * a + x == 256 * b + y
    ensures a == b && x == y
  {
  }

  lemma {:induction false} ValueInjective(s: bytes, t: bytes)
    requires |s| == |t| && Value(s) == Value(t)
    ensures s == t
  {
    if s != [] {
      var n := |s| - 1;
      SameDigits(Value(s[..n]), s[n], Value(t[..n]), t[n]);
      ValueInjective(s[..n], t[..n]);
      assert s == s[..n] + [s[n]] && t == t[..n] + [t[n]];
    }
  }

  /** In numbers: the first p bits agree exactly for the BlockSize addresses from the masked one on. */
  lemma SameBitsIff(net: bytes, p: nat, ip: bytes)
    requires |ip| == |net| && p <= 8 * |net|
    ensures var size := BlockSize(|net|, p);
      SameBits(net, p, ip) <==> Floor(Value(net), size) <= Value(ip) < Floor(Value(net), size) + size
  {
    var size := BlockSize(|net|, p);
    MaskedValue(net, p);
    MaskedValue(ip, p);
    if Value(Masked(net, p)) == Value(Masked(ip, p)) {
      ValueInjective(Masked(net, p), Masked(ip, p));
    }
    SameFloor(Value(net), Value(ip), size);
  }

  // ----- IPv4 addresses in 16 bytes -----

  predicate IsAddress(s: bytes) {
    |s| == 4 || |s| == 16
  }

  const V4_PREFIX: bytes := Zeros(10) + [255, 255]
  const V4_FIRST: nat := 0xffff_0000_0000
  const V4_SIZE: nat := 0x1_0000_0000

  /** ::ffff:0:0/96. */
  predicate Mapped(s: bytes) {
    |s| == 16 && s[..12] == V4_PREFIX
  }

  /** The four-byte form of an address that has one. */
  function Short(s: bytes): bytes {
    if Mapped(s) then s[12..] else s
  }

  /**
   * IPNet.Contains: the network and the address are both brought into their four-byte form, if they have one, and
   * addresses of another length than the network do not belong to it.
   */
  predicate Contains(net: bytes, p: nat, ip: bytes) {
    var bits := if !Mapped(net) then p else if p > 96 then p - 96 else 0;
    SameBits(Short(net), bits, Short(ip))
  }

  lemma {:induction false} ValueSplit(s: bytes, k: nat)
    requires k <= |s|
    ensures Value(s) == Value(s[..k]) * Space(|s| - k) + Value(s[k..])
  {
    if k == |s| {
      assert s[..k] == s && Pow2(0) == 1;
    } else {
      var n := |s| - 1;
      ValueSplit(s[..n], k);
      assert s[..n][..k] == s[..k] && s[..n][k..] == s[k..][..n - k];
      SpaceStep(|s| - k);
      Rescale(Value(s[..k]), Space(n - k));
    }
  }

  lemma Rescale(a: nat, b: nat)
    ensures 256 * (a * b) == a * (256 * b)
  {
  }

  lemma Space4()
    ensures Space(4) == V4_SIZE
  {
    assert Pow2(8) == 256;
    Pow2Splits(8, 8);
    Pow2Splits(16, 16);
  }

  /** Powers of two from 2^48 on reach past the mapped addresses. */
  lemma PastMapped(k: nat)
    ensures Pow2(48 + k) >= V4_FIRST + V4_SIZE
  {
    assert Pow2(8) == 256;
    Pow2Splits(8, 8);
    Space4();
    Pow2Splits(16, 32);
    Pow2Splits(48, k);
    AtLeast(Pow2(k), Pow2(48));
  }

  lemma ValuePrefix()
    ensures Value(V4_PREFIX) == 0xffff
  {
    var z := Zeros(10);
    ZerosValue(10);
    assert V4_PREFIX[..11] == z + [255] && (z + [255])[..10] == z;
  }

  lemma {:induction false} ZerosValue(n: nat)
    ensures Value(Zeros(n)) == 0
  {
    if n > 0 {
      assert Zeros(n)[..n - 1] == Zeros(n - 1);
      ZerosValue(n - 1);
    }
  }

  /** In numbers: the last 2^32 addresses below 2^48. */
  lemma MappedIff(s: bytes)
    requires |s| == 16
    ensures Mapped(s) <==> V4_FIRST <= Value(s) < V4_FIRST + V4_SIZE
  {
    ValueSplit(s, 12);
    Space4();
    ValueBound(s[12..]);
    ValuePrefix();
    HighPart(Value(s[..12]), Value(s[12..]));
    if Value(s[..12]) == 0xffff {
      ValueInjective(s[..12], V4_PREFIX);
    }
  }

  lemma HighPart(high: nat, low: nat)
    requires low < V4_SIZE
    ensures high == 0xffff <==> V4_FIRST <= high * V4_SIZE + low < V4_FIRST + V4_SIZE
  {
  }

  lemma {:induction false} MaskedSplit(s: bytes, k: nat, p: nat)
    requires k <= |s| && 8 * k <= p <= 8 * |s|
    ensures Masked(s, p) == s[..k] + Masked(s[k..], p - 8 * k)
  {
    if k == |s| {
      MaskedWhole(s);
      assert s[..k] == s && s[k..] == [];
    } else {
      var n := |s| - 1;
      assert s[..n][..k] == s[..k] && s[..n][k..] == s[k..][..n - k] && s[k..][n - k] == s[n];
      if p <= 8 * n {
        MaskedSplit(s[..n], k, p);
      } else {
        MaskedSplit(s[..n], k, 8 * n);
      }
    }
  }

  lemma {:induction false} FloorMultiple(v: nat, size: nat) returns (k: nat)
    requires size > 0
    ensures Floor(v, size) == k * size
  {
    if v < size {
      k := 0;
    } else {
      var j := FloorMultiple(v - size, size);
      k := j + 1;
      assert (j + 1) * size == j * size + size;
    }
  }

  /** A block of more than 2^32 addresses starts at an even multiple of 2^32, which 0xffff is not. */
  lemma BigBlockStart(addr: bytes, p: nat)
    requires |addr| == 16 && p < 96
    ensures var first := Floor(Value(addr), BlockSize(16, p)); first < V4_FIRST || first >= V4_FIRST + V4_SIZE
  {
    var k := FloorMultiple(Value(addr), BlockSize(16, p));
    Pow2Splits(95 - p, 33);
    TwoSpaces();
    EvenMultiple(k, Pow2(95 - p), BlockSize(16, p));
  }

  lemma TwoSpaces()
    ensures Pow2(33) == 2 * V4_SIZE
  {
    Space4();
  }

  lemma EvenMultiple(k: nat, m: nat, size: nat)
    requires size == m * (2 * V4_SIZE)
    ensures k * size < V4_FIRST || k * size >= V4_FIRST + V4_SIZE
  {
    var q := k * m;
    assert k * (m * (2 * V4_SIZE)) == q * (2 * V4_SIZE);
  }

  lemma NetIsMapped(addr: bytes, p: nat)
    requires |addr| == 16 && p <= 128
    ensures Mapped(Masked(addr, p)) ==> p >= 96
    ensures p >= 96 ==> (Mapped(Masked(addr, p)) <==> Mapped(addr))
  {
    MaskedValue(addr, p);
    MappedIff(Masked(addr, p));
    if p < 96 {
      BigBlockStart(addr, p);
    } else {
      MaskedSplit(addr, 12, p);
      assert Masked(addr, p)[..12] == addr[..12];
    }
  }

  /** In numbers: the block, less the IPv4-mapped addresses if the network itself is not one of them. */
  lemma ContainsIff(addr: bytes, p: nat, ip: bytes)
    requires IsAddress(addr) && |ip| == |addr| && p <= 8 * |addr|
    ensures var net, size := Masked(addr, p), BlockSize(|addr|, p);
      Contains(net, p, ip) <==>
        Floor(Value(addr), size) <= Value(ip) < Floor(Value(addr), size) + size && (Mapped(ip) ==> Mapped(net))
  {
    var net := Masked(addr, p);
    MaskedTwice(addr, p);
    SameBitsIff(addr, p, ip);
    assert SameBits(net, p, ip) <==> SameBits(addr, p, ip);
    if Mapped(net) {
      NetIsMapped(addr, p);
      MaskedSplit(net, 12, p);
      MaskedSplit(ip, 12, p);
      SplitEqual(net[..12], Masked(net[12..], p - 96), ip[..12], Masked(ip[12..], p - 96));
    }
  }

  lemma SplitEqual(a: bytes, b: bytes, c: bytes, d: bytes)
    requires |a| == |c|
    ensures a + b == c + d <==> a == c && b == d
  {
    if a + b == c + d {
      assert a == (a + b)[..|a|] && b == (a + b)[|a|..];
      assert c == (c + d)[..|a|] && d == (c + d)[|a|..];
    }
  }

  // ----- the expansion -----

  /** duplicateIP. */
  method DuplicateIP(ip: array<byte>) returns (dup: array<byte>)
    ensures fresh(dup) && dup[..] == ip[..]
  {
    dup := new byte[ip.Length](_ => 0);
    CopyIn(dup, 0, ip[..]);
    assert dup[..] == [] + ip[..] + [];
  }

  /** A block fits into the address space, and is not all of it. */
  lemma BlockFits(v: nat, n: nat, p: nat)
    requires 0 < p <= 8 * n && v < Space(n)
    ensures Floor(v, BlockSize(n, p)) + BlockSize(n, p) <= Space(n) && BlockSize(n, p) < Space(n)
  {
    var size := BlockSize(n, p);
    Pow2Splits(p, 8 * n - p);
    FloorFits(v, size, Pow2(p));
    Pow2Splits(p - 1, 8 * n - p);
    assert Space(n) == 2 * Pow2(8 * n - 1);
    assert 8 * n - 1 == (p - 1) + (8 * n - p);
    AtLeast(Pow2(p - 1), size);
  }

  lemma AtLeast(k: nat, size: nat)
    requires k > 0
    ensures k * size >= size
  {
  }

  /** The first address of a block, and how many the loop hands out: all of them, or those before ::ffff:0:0. */
  ghost function First(addr: bytes, p: nat): nat
    requires p <= 8 * |addr|
  {
    Floor(Value(addr), BlockSize(|addr|, p))
  }

  ghost predicate CutShort(addr: bytes, p: nat)
    requires p <= 8 * |addr|
  {
    |addr| == 16 && p < 96 && First(addr, p) <= V4_FIRST < First(addr, p) + BlockSize(16, p)
  }

  ghost function Count(addr: bytes, p: nat): nat
    requires p <= 8 * |addr|
  {
    if CutShort(addr, p) then V4_FIRST - First(addr, p) else BlockSize(|addr|, p)
  }

  /** A 16-byte block is handed out whole exactly when it has a prefix of 96 bits or more, or misses ::ffff:0:0/96. */
  lemma WholeIff(addr: bytes, p: nat)
    requires IsAddress(addr) && p <= 8 * |addr|
    ensures var first, size := First(addr, p), BlockSize(|addr|, p);
      Count(addr, p) == size <==> |addr| == 4 || p >= 96 || first + size <= V4_FIRST || V4_FIRST + V4_SIZE <= first
  {
    if |addr| == 16 && p < 96 {
      BigBlockStart(addr, p);
    }
  }

  /** The only block that is never left is that of all four-byte addresses. */
  predicate Endless(addr: bytes, p: nat) {
    |addr| == 4 && p == 0
  }

  /** An address of the block that is within the count belongs to the network; the one after the last does not. */
  lemma WithinCount(addr: bytes, p: nat, ip: bytes, k: nat)
    requires IsAddress(addr) && |ip| == |addr| && p <= 8 * |addr| && Value(ip) == First(addr, p) + k
    requires k <= Count(addr, p)
    ensures Contains(Masked(addr, p), p, ip) <==> k < Count(addr, p)
  {
    ContainsIff(addr, p, ip);
    if |addr| == 16 {
      MappedIff(ip);
      MaskedValue(addr, p);
      MappedIff(Masked(addr, p));
      if p < 96 {
        BigBlockStart(addr, p);
      } else {
        MappedBlock(addr, p);
      }
    }
  }

  /** A block of at most 2^32 addresses lies inside the mapped ones or outside them, as its first address does. */
  lemma MappedBlock(addr: bytes, p: nat)
    requires |addr| == 16 && 96 <= p <= 128
    ensures var first, size := First(addr, p), BlockSize(16, p);
      if V4_FIRST <= first < V4_FIRST + V4_SIZE then first + size <= V4_FIRST + V4_SIZE
      else first + size <= V4_FIRST || V4_FIRST + V4_SIZE <= first
  {
    var size, m := BlockSize(16, p), Pow2(p - 96);
    Pow2Splits(p - 96, 128 - p);
    Space4();
    var k := FloorMultiple(Value(addr), size);
    Aligned(k, size, m);
  }

  lemma Aligned(k: nat, size: nat, m: nat)
    requires m * size == V4_SIZE
    ensures k * size < V4_FIRST ==> k * size + size <= V4_FIRST
    ensures k * size < V4_FIRST + V4_SIZE ==> k * size + size <= V4_FIRST + V4_SIZE
  {
    assert V4_FIRST == (0xffff * m) * size;
    assert V4_FIRST + V4_SIZE == (0x1_0000 * m) * size;
    NextMultiple(k, 0xffff * m, size);
    NextMultiple(k, 0x1_0000 * m, size);
  }

  lemma NextMultiple(k: nat, j: nat, size: nat)
    ensures k * size < j * size ==> k * size + size <= j * size
  {
    if k >= j {
      assert k * size == j * size + (k - j) * size;
    } else {
      assert j * size == k * size + size + (j - k - 1) * size;
    }
  }

  /** From an address of the block the cursor goes to the next one; after the last it is outside, also when it wraps. */
  lemma LeavesBlock(addr: bytes, p: nat, ip: bytes, k: nat)
    requires IsAddress(addr) && |ip| == |addr| && p <= 8 * |addr| && !Endless(addr, p)
    requires Value(ip) == First(addr, p) + k && k < Count(addr, p)
    ensures Contains(Masked(addr, p), p, Incremented(ip)) <==> k + 1 < Count(addr, p)
    ensures k + 1 < Count(addr, p) ==> Value(Incremented(ip)) == First(addr, p) + k + 1
  {
    CountFits(addr, p);
    IncrementedValue(ip);
    if Value(ip) + 1 < Space(|addr|) {
      WithinCount(addr, p, Incremented(ip), k + 1);
    } else {
      ContainsIff(addr, p, Incremented(ip));
    }
  }

  lemma CountFits(addr: bytes, p: nat)
    requires IsAddress(addr) && p <= 8 * |addr| && !Endless(addr, p)
    ensures First(addr, p) + Count(addr, p) <= Space(|addr|) && Count(addr, p) < Space(|addr|)
  {
    ValueBound(addr);
    if p > 0 {
      BlockFits(Value(addr), |addr|, p);
    } else {
      FloorSmall(Value(addr), Space(16));
      PastMapped(80);
    }
  }

  lemma FloorSmall(v: nat, size: nat)
    requires v < size
    ensures Floor(v, size) == 0
  {
  }

  method FirstAddress(addr: bytes, p: nat) returns (ip: array<byte>)
    ensures fresh(ip) && ip[..] == Masked(addr, p)
  {
    ip := new byte[|addr|](_ => 0);
    CopyIn(ip, 0, Masked(addr, p));
    assert ip[..] == [] + Masked(addr, p) + [];
  }

  /**
   * One target per address of a block: the first Count of them, in increasing order. The cursor is changed in
   * place; the addresses handed out are not.
   */
  method Expand(addr: bytes, p: nat) returns (out: seq<array<byte>>)
    requires IsAddress(addr) && p <= 8 * |addr| && !Endless(addr, p)
    ensures |out| == Count(addr, p)
    ensures forall i :: 0 <= i < |out| ==> out[i].Length == |addr| && Value(out[i][..]) == First(addr, p) + i
  {
    var net := Masked(addr, p);
    var ip := FirstAddress(addr, p);
    out := [];
    ghost var vals := [];
    EmittedNone(addr, p);
    while Contains(net, p, ip[..])
      invariant fresh(ip) && ip.Length == |addr| && Emitted(addr, p, vals, ip[..])
      invariant |out| == |vals| && forall i :: 0 <= i < |out| ==> out[i] != ip && fresh(out[i]) && out[i][..] == vals[i]
      decreases Count(addr, p) - |vals|
    {
      var dup := DuplicateIP(ip);
      EmitOne(addr, p, vals, ip[..]);
      out, vals := out + [dup], vals + [ip[..]];
      IncrementIP(ip);
    }
  }

  /** What was handed out so far, and where the cursor is. */
  ghost predicate Emitted(addr: bytes, p: nat, vals: seq<bytes>, cursor: bytes)
    requires p <= 8 * |addr|
  {
    && |cursor| == |addr| && |vals| <= Count(addr, p)
    && (Contains(Masked(addr, p), p, cursor) <==> |vals| < Count(addr, p))
    && (|vals| < Count(addr, p) ==> Value(cursor) == First(addr, p) + |vals|)
    && forall i :: 0 <= i < |vals| ==> |vals[i]| == |addr| && Value(vals[i]) == First(addr, p) + i
  }

  lemma EmittedNone(addr: bytes, p: nat)
    requires IsAddress(addr) && p <= 8 * |addr|
    ensures Emitted(addr, p, [], Masked(addr, p))
  {
    MaskedValue(addr, p);
    WithinCount(addr, p, Masked(addr, p), 0);
  }

  lemma EmitOne(addr: bytes, p: nat, vals: seq<bytes>, cursor: bytes)
    requires IsAddress(addr) && p <= 8 * |addr| && !Endless(addr, p)
    requires Emitted(addr, p, vals, cursor) && Contains(Masked(addr, p), p, cursor)
    ensures Emitted(addr, p, vals + [cursor], Incremented(cursor)) && |vals| < Count(addr, p)
  {
    LeavesBlock(addr, p, cursor, |vals|);
  }

  lemma {:induction false} MaskedTwice(s: bytes, p: nat)
    requires p <= 8 * |s|
    ensures Masked(Masked(s, p), p) == Masked(s, p)
  {
    MaskedValue(s, p);
    MaskedValue(Masked(s, p), p);
    SameFloor(Value(s), Floor(Value(s), BlockSize(|s|, p)), BlockSize(|s|, p));
    ValueInjective(Masked(Masked(s, p), p), Masked(s, p));
  }

  /** The cursor after k turns of the loop. */
  function Cursor(addr: bytes, p: nat, k: nat): (r: bytes)
    ensures |r| == |addr|
  {
    if k == 0 then Masked(addr, p) else Incremented(Cursor(addr, p, k - 1))
  }

  lemma {:induction false} CursorAt(addr: bytes, p: nat, k: nat)
    requires IsAddress(addr) && p <= 8 * |addr| && !Endless(addr, p) && k <= Count(addr, p)
    ensures Contains(Masked(addr, p), p, Cursor(addr, p, k)) <==> k < Count(addr, p)
    ensures k < Count(addr, p) ==> Value(Cursor(addr, p, k)) == First(addr, p) + k
  {
    if k == 0 {
      EmittedNone(addr, p);
    } else {
      CursorAt(addr, p, k - 1);
      LeavesBlock(addr, p, Cursor(addr, p, k - 1), k - 1);
    }
  }

  /**
   * The cursor leaves its network at some turn of the loop, exactly unless the block is that of all four-byte
   * addresses.
   */
  lemma LoopEndsIff(addr: bytes, p: nat)
    requires IsAddress(addr) && p <= 8 * |addr|
    ensures (exists k: nat :: !Contains(Masked(addr, p), p, Cursor(addr, p, k))) <==> !Endless(addr, p)
  {
    if Endless(addr, p) {
      forall k: nat ensures Contains(Masked(addr, p), p, Cursor(addr, p, k)) {
        ContainsIff(addr, 0, Cursor(addr, p, k));
        ValueBound(addr);
        ValueBound(Cursor(addr, p, k));
        FloorSmall(Value(addr), Space(4));
      }
    } else {
      CursorAt(addr, p, Count(addr, p));
    }
  }

  /** ::/0 and ::/80 are left at ::ffff:0:0. */
  lemma CutShortBlocks(addr: bytes, p: nat)
    requires |addr| == 16 && p <= 80 && Value(addr) < V4_FIRST + V4_SIZE
    ensures First(addr, p) == 0 && CutShort(addr, p) && Count(addr, p) == V4_FIRST
  {
    PastMapped(80 - p);
    FloorSmall(Value(addr), BlockSize(16, p));
  }
}
