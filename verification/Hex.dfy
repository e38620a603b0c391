/** Chunk lengths in hexadecimal: the printer and the parser. */
module Hex {
  import opened Basics

  datatype Parsed = Ok(value: nat) | InvalidByte | TooLarge

  const ZERO: byte := '0' as int
  const NINE: byte := '9' as int
  const LOWER_A: byte := 'a' as int
  const LOWER_F: byte := 'f' as int
  const UPPER_A: byte := 'A' as int
  const UPPER_F: byte := 'F' as int

  predicate IsDigit(b: byte) {
    ZERO <= b <= NINE || LOWER_A <= b <= LOWER_F || UPPER_A <= b <= UPPER_F
  }

  function Digit(b: byte): (d: nat)
    requires IsDigit(b)
    ensures d < 16
  {
    if ZERO <= b <= NINE then b - ZERO else if LOWER_A <= b <= LOWER_F then b - LOWER_A + 10 else b - UPPER_A + 10
  }

  function Print1(d: nat): (b: byte)
    requires d < 16
    ensures IsDigit(b) && Digit(b) == d
  {
    if d < 10 then ZERO + d else LOWER_A + d - 10
  }

  /** The %x verb: lower case, no leading zeros. */
  function Print(n: nat): (s: seq<byte>)
    ensures |s| > 0 && AllDigits(s)
    decreases n
  {
    (if n < 16 then [] else Print(n / 16)) + [Print1(n % 16)]
  }

  predicate AllDigits(s: seq<byte>) {
    forall i :: 0 <= i < |s| ==> IsDigit(s[i])
  }

  /** Positional value, most significant digit first. */
  function Value(s: seq<byte>): nat
    requires AllDigits(s)
  {
    if s == [] then 0 else Value(s[..|s| - 1]) * 16 + Digit(s[|s| - 1])
  }

  function Pow16(k: nat): nat {
    if k == 0 then 1 else 16 * Pow16(k - 1)
  }

  lemma Pow16At16()
    ensures Pow16(16) == 0x1_0000_0000_0000_0000
  {
    assert Pow16(4) == 0x1_0000;
    assert Pow16(8) == 0x1_0000_0000;
    assert Pow16(12) == 0x1_0000_0000_0000;
  }

  lemma {:induction false} ValuePrint(n: nat)
    ensures Value(Print(n)) == n
    decreases n
  {
    var s := Print(n);
    if n >= 16 {
      ValuePrint(n / 16);
      assert s[..|s| - 1] == Print(n / 16);
    } else {
      assert s[..|s| - 1] == [];
    }
  }

  lemma {:induction false} PrintLength(n: nat, k: nat)
    requires 0 < k && n < Pow16(k)
    ensures |Print(n)| <= k
  {
    if n >= 16 {
      assert k > 1 by {
        assert Pow16(1) == 16;
      }
      PrintLength(n / 16, k - 1);
    }
  }

  lemma {:induction false} ValueBound(s: seq<byte>)
    requires AllDigits(s)
    ensures Value(s) < Pow16(|s|)
  {
    if s != [] {
      ValueBound(s[..|s| - 1]);
    }
  }

  /** The first byte that is not a digit, or the length. */
  function DigitsUpTo(s: seq<byte>): (n: nat)
    ensures n <= |s| && AllDigits(s[..n]) && (n < |s| ==> !IsDigit(s[n]))
  {
    if s == [] then 0
    else if !IsDigit(s[0]) then 0
    else
      var n := DigitsUpTo(s[1..]);
      assert s[..n + 1] == [s[0]] + s[1..][..n];
      n + 1
  }

  /** Sixteen digits are the most that 64 bits hold; a bad byte among the first seventeen is reported first. */
  function Parse(s: seq<byte>): Parsed {
    var n := DigitsUpTo(s);
    if n < |s| && n <= 16 then InvalidByte
    else if |s| > 16 then TooLarge
    else
      assert s[..n] == s;
      Ok(Value(s))
  }

  /** The parser's loop, in 64-bit arithmetic that never overflows. */
  method ParseHexUint(v: seq<byte>) returns (r: Parsed)
    ensures r == Parse(v)
    ensures r.Ok? ==> r.value < 0x1_0000_0000_0000_0000
  {
    var n: nat := 0;
    for i := 0 to |v|
      invariant i <= 16 && AllDigits(v[..i]) && n == Value(v[..i])
    {
      DigitsPrefix(v, i);
      if !IsDigit(v[i]) {
        return InvalidByte;
      }
      if i == 16 {
        SeventeenDigits(v);
        return TooLarge;
      }
      OneMoreDigit(v, i);
      n := n * 16 + Digit(v[i]);
    }
    AtMostSixteen(v);
    r := Ok(n);
  }

  /** Another digit, and the number still fits in 64 bits. */
  lemma OneMoreDigit(v: seq<byte>, i: nat)
    requires i < |v| && i < 16 && AllDigits(v[..i]) && IsDigit(v[i])
    ensures AllDigits(v[..i + 1]) && Value(v[..i + 1]) == Value(v[..i]) * 16 + Digit(v[i]) < 0x1_0000_0000_0000_0000
  {
    assert v[..i + 1][..i] == v[..i];
    ValueBound(v[..i + 1]);
    PowMonotone(i + 1, 16);
    Pow16At16();
  }

  lemma SeventeenDigits(v: seq<byte>)
    requires |v| > 16 && AllDigits(v[..16]) && IsDigit(v[16])
    ensures Parse(v) == TooLarge
  {
    assert v[..17] == v[..16] + [v[16]];
    DigitsPrefix(v, 17);
  }

  lemma AtMostSixteen(v: seq<byte>)
    requires |v| <= 16 && AllDigits(v[..|v|])
    ensures AllDigits(v) && Parse(v) == Ok(Value(v)) && v[..|v|] == v && Value(v) < 0x1_0000_0000_0000_0000
  {
    assert v[..|v|] == v;
    DigitsPrefix(v, |v|);
    ValueBound(v);
    PowMonotone(|v|, 16);
    Pow16At16();
  }

  lemma {:induction false} DigitsPrefix(s: seq<byte>, n: nat)
    requires n <= |s| && AllDigits(s[..n])
    ensures DigitsUpTo(s) >= n && (n < |s| && !IsDigit(s[n]) ==> DigitsUpTo(s) == n)
  {
    if n > 0 {
      assert s[..n][0] == s[0];
      var t := s[1..][..n - 1];
      forall i | 0 <= i < |t| ensures IsDigit(t[i]) {
        assert t[i] == s[..n][i + 1];
      }
      DigitsPrefix(s[1..], n - 1);
    }
  }

  lemma {:induction false} PowMonotone(a: nat, b: nat)
    requires a <= b
    ensures Pow16(a) <= Pow16(b)
    decreases b
  {
    if a < b {
      PowMonotone(a, b - 1);
    }
  }

  /** Every 64-bit length is parsed back from what was printed. */
  lemma ParsePrint(n: nat)
    requires n < 0x1_0000_0000_0000_0000
    ensures Parse(Print(n)) == Ok(n)
  {
    Pow16At16();
    PrintLength(n, 16);
    ValuePrint(n);
    assert Print(n)[..|Print(n)|] == Print(n);
    DigitsPrefix(Print(n), |Print(n)|);
  }
}
