/** Options, bytes and lists of lists. */
module Basics {

  datatype Option<+T> = None | Some(value: T)

  type byte = x: int | 0 <= x < 256
  type bytes = seq<byte>

  function Min(a: nat, b: nat): nat {
    if a < b then a else b
  }

  function Zeros(n: nat): (r: bytes)
    ensures |r| == n
  {
    seq(n, _ => 0)
  }

  ghost predicate IsTable<K, V>(m: map<K, V>, ks: set<K>, f: K --> V)
    requires forall k :: k in ks ==> f.requires(k)
  {
    m.Keys == ks && forall k {:trigger m[k]} :: k in ks ==> m[k] == f(k)
  }

  /** The map that sends every key in ks to its image under f. */
  ghost function Tabulated<K, V>(ks: set<K>, f: K --> V): (m: map<K, V>)
    requires forall k :: k in ks ==> f.requires(k)
    ensures m.Keys == ks && IsTable(m, ks, f)
  {
    assert IsTable(map k | k in ks :: f(k), ks, f);
    var m :| IsTable(m, ks, f);
    m
  }

  lemma Reassociate<T>(a: seq<T>, b: seq<T>, c: seq<T>)
    ensures a + b + c == a + (b + c)
  {
  }

  function Concat<T>(ss: seq<seq<T>>): seq<T> {
    if ss == [] then [] else ss[0] + Concat(ss[1..])
  }

  lemma {:induction false} ConcatAppend<T>(ss: seq<seq<T>>, s: seq<T>)
    ensures Concat(ss + [s]) == Concat(ss) + s
  {
    if ss == [] {
      assert ss + [s] == [s] && [s][1..] == [];
    } else {
      assert (ss + [s])[1..] == ss[1..] + [s];
      ConcatAppend(ss[1..], s);
      Reassociate(ss[0], Concat(ss[1..]), s);
    }
  }
}
