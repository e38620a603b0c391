/** Sums over finite sets. */
module Sums {

  ghost function SumOver<T>(f: map<T, int>, s: set<T>): int
    requires s <= f.Keys
  {
    if s == {} then 0 else
      var x :| x in s;
      f[x] + SumOver(f, s - {x})
  }

  /** Any element may be split off. */
  lemma {:induction false} SumSplit<T>(f: map<T, int>, s: set<T>, x: T)
    requires s <= f.Keys && x in s
    ensures SumOver(f, s) == f[x] + SumOver(f, s - {x})
    decreases s
  {
    var y :| y in s && SumOver(f, s) == f[y] + SumOver(f, s - {y});
    if y != x {
      SumSplit(f, s - {y}, x);
      SumSplit(f, s - {x}, y);
      assert s - {y} - {x} == s - {x} - {y};
    }
  }

  lemma {:induction false} SumSame<T>(f: map<T, int>, g: map<T, int>, s: set<T>)
    requires s <= f.Keys && s <= g.Keys && forall x :: x in s ==> f[x] == g[x]
    ensures SumOver(f, s) == SumOver(g, s)
    decreases s
  {
    if s != {} {
      var y :| y in s && SumOver(f, s) == f[y] + SumOver(f, s - {y});
      SumSame(f, g, s - {y});
      SumSplit(g, s, y);
    }
  }

  /** Changing one value changes the sum by the difference, if the sum includes it. */
  lemma SumUpdate<T>(f: map<T, int>, s: set<T>, x: T, v: int)
    requires s <= f.Keys && x in f
    ensures SumOver(f[x := v], s) == SumOver(f, s) + if x in s then v - f[x] else 0
  {
    var g := f[x := v];
    if x in s {
      SumSplit(f, s, x);
      SumSplit(g, s, x);
      SumSame(f, g, s - {x});
    } else {
      SumSame(f, g, s);
    }
  }
}
