/**
 * The dependency tree of RFC 7540, section 5.3, as a parent relation on stream ids. Stream 0 is the root and has no
 * entry.
 */
module StreamTree {
  import opened Basics

  type Parents = map<nat, nat>

  function RankOf(rank: map<nat, nat>, x: nat): nat {
    if x != 0 && x in rank then rank[x] else 0
  }

  /** The parent of x is a node, of lower rank. */
  ghost predicate Falls(par: Parents, rank: map<nat, nat>, x: nat) {
    x in par && (par[x] == 0 || par[x] in par) && RankOf(rank, x) > RankOf(rank, par[x])
  }

  /** Ranks fall strictly on the way up: there is no cycle. */
  ghost predicate Ranked(par: Parents, rank: map<nat, nat>) {
    0 !in par && forall x {:trigger Falls(par, rank, x)} :: x in par ==> Falls(par, rank, x)
  }

  /** The k-th ancestor of x; the root is its own ancestor. */
  ghost function Up(par: Parents, x: nat, k: nat): nat
    decreases k
  {
    if k == 0 then x else if x in par then Up(par, par[x], k - 1) else x
  }

  /** a lies on the way from x to the root (x itself included). */
  ghost predicate Ancestor(par: Parents, a: nat, x: nat) {
    exists k: nat :: Up(par, x, k) == a
  }

  /** From every node the root is reached in at most rank-many steps. */
  lemma {:induction false} ReachesRoot(par: Parents, rank: map<nat, nat>, x: nat, k: nat)
    requires Ranked(par, rank) && (x == 0 || x in par) && k >= RankOf(rank, x)
    ensures Up(par, x, k) == 0
    decreases k
  {
    if x != 0 {
      assert Falls(par, rank, x);
      ReachesRoot(par, rank, par[x], k - 1);
    }
  }

  lemma AncestorSelf(par: Parents, x: nat)
    ensures Ancestor(par, x, x)
  {
    assert Up(par, x, 0) == x;
  }

  /** Being below a is inherited from the parent, in both directions. */
  lemma AncestorStep(par: Parents, a: nat, x: nat)
    requires x in par && x != a
    ensures Ancestor(par, a, x) <==> Ancestor(par, a, par[x])
  {
    if Ancestor(par, a, x) {
      var k: nat :| Up(par, x, k) == a;
      assert Up(par, par[x], k - 1) == a;
    }
    if Ancestor(par, a, par[x]) {
      var k: nat :| Up(par, par[x], k) == a;
      assert Up(par, x, k + 1) == a;
    }
  }

  lemma AncestorAtTop(par: Parents, a: nat, x: nat)
    requires x !in par
    ensures Ancestor(par, a, x) <==> a == x
  {
    if Ancestor(par, a, x) {
      var k: nat :| Up(par, x, k) == a;
    } else {
      assert Up(par, x, 0) == x;
    }
  }

  lemma {:induction false} AncestorUp(par: Parents, a: nat, x: nat)
    requires a in par && Ancestor(par, a, x)
    ensures Ancestor(par, par[a], x)
  {
    var k: nat :| Up(par, x, k) == a;
    UpOneMore(par, x, k);
  }

  lemma {:induction false} UpOneMore(par: Parents, x: nat, k: nat)
    requires Up(par, x, k) in par
    ensures Up(par, x, k + 1) == par[Up(par, x, k)]
    decreases k
  {
    if k > 0 {
      UpOneMore(par, par[x], k - 1);
    }
  }

  /** Climbing from n, with c the next node to visit (or past the root): x has been visited. */
  ghost predicate Climbed(par: Parents, n: nat, c: nat, past: bool, x: nat) {
    Ancestor(par, x, n) && (past || !Ancestor(par, x, c))
  }

  /** One more step of the climb visits c and nothing else. */
  lemma ClimbStep(par: Parents, rank: map<nat, nat>, n: nat, c: nat, x: nat)
    requires Ranked(par, rank) && Ancestor(par, c, n) && (c == 0 || c in par)
    ensures Climbed(par, n, if c == 0 then 0 else par[c], c == 0, x) <==> Climbed(par, n, c, false, x) || x == c
  {
    AncestorSelf(par, c);
    if c == 0 {
      AncestorAtTop(par, x, 0);
    } else {
      assert Falls(par, rank, c);
      if x != c {
        AncestorStep(par, x, c);
      } else if Ancestor(par, c, par[c]) {
        AncestorRank(par, rank, c, par[c]);
      }
    }
  }

  /** Ranks rise strictly on the way down. */
  lemma {:induction false} AncestorRank(par: Parents, rank: map<nat, nat>, a: nat, x: nat)
    requires Ranked(par, rank) && (x == 0 || x in par) && Ancestor(par, a, x)
    ensures a == x || RankOf(rank, a) < RankOf(rank, x)
    ensures a == 0 || a in par
    decreases RankOf(rank, x)
  {
    if a != x {
      if x == 0 {
        AncestorAtTop(par, a, x);
      } else {
        assert Falls(par, rank, x);
        AncestorStep(par, a, x);
        AncestorRank(par, rank, a, par[x]);
      }
    }
  }

  /** Of two nodes that are both above x, one is above the other. */
  lemma {:induction false} AncestorsComparable(par: Parents, rank: map<nat, nat>, a: nat, b: nat, x: nat)
    requires Ranked(par, rank) && (x == 0 || x in par) && Ancestor(par, a, x) && Ancestor(par, b, x)
    ensures Ancestor(par, a, b) || Ancestor(par, b, a)
    decreases RankOf(rank, x)
  {
    if a != x && b != x {
      if x == 0 {
        AncestorAtTop(par, a, x);
      } else {
        assert Falls(par, rank, x);
        AncestorStep(par, a, x);
        AncestorStep(par, b, x);
        AncestorsComparable(par, rank, a, b, par[x]);
      }
    }
  }

  /** The subtrees of two different kids of one node have no stream in common. */
  lemma KidsDisjoint(par: Parents, rank: map<nat, nat>, a: nat, b: nat, x: nat)
    requires Ranked(par, rank) && (x == 0 || x in par)
    requires a in par && b in par && a != b && par[a] == par[b]
    ensures !(Ancestor(par, a, x) && Ancestor(par, b, x))
  {
    if Ancestor(par, a, x) && Ancestor(par, b, x) {
      AncestorsComparable(par, rank, a, b, x);
      var hi, lo := if Ancestor(par, a, b) then a else b, if Ancestor(par, a, b) then b else a;
      assert Falls(par, rank, hi) && Falls(par, rank, lo);
      AncestorStep(par, hi, lo);
      AncestorRank(par, rank, hi, par[lo]);
    }
  }

  /** Whatever lies strictly below n lies below one of its kids. */
  lemma {:induction false} KidAbove(par: Parents, rank: map<nat, nat>, n: nat, x: nat) returns (k: nat)
    requires Ranked(par, rank) && x in par && x != n && Ancestor(par, n, x)
    ensures k in par && par[k] == n && Ancestor(par, k, x)
    decreases RankOf(rank, x)
  {
    assert Falls(par, rank, x);
    AncestorStep(par, n, x);
    AncestorAtTop(par, n, 0);
    if par[x] == n {
      k := x;
      AncestorSelf(par, x);
    } else {
      k := KidAbove(par, rank, n, par[x]);
      if k != x { AncestorStep(par, k, x); } else { AncestorSelf(par, x); }
    }
  }

  /** A kid is not above its parent. */
  lemma KidNotAbove(par: Parents, rank: map<nat, nat>, k: nat)
    requires Ranked(par, rank) && k in par
    ensures !Ancestor(par, k, par[k])
  {
    assert Falls(par, rank, k);
    if Ancestor(par, k, par[k]) { AncestorRank(par, rank, k, par[k]); }
  }

  /** A new stream under a known one. */
  lemma InsertKeepsTree(par: Parents, rank: map<nat, nat>, n: nat, p: nat)
    requires Ranked(par, rank) && n != 0 && n !in par && (p == 0 || p in par)
    ensures Ranked(par[n := p], rank[n := RankOf(rank, p) + 1])
  {
    var par' := par[n := p];
    var rank' := rank[n := RankOf(rank, p) + 1];
    forall x | x in par' ensures Falls(par', rank', x) {
      if x != n {
        assert Falls(par, rank, x);
      }
    }
  }

  // ----- reparenting -----

  /** Ranks after moving the subtree of n under p. */
  ghost function LiftedRank(par: Parents, rank: map<nat, nat>, n: nat, p: nat): map<nat, nat> {
    Tabulated(par.Keys, x =>
      if Ancestor(par, n, x) then RankOf(rank, x) + RankOf(rank, p) + 1 else RankOf(rank, x))
  }

  /** Moving n (with everything below it) under p keeps the tree, if p is not below n. */
  lemma ReparentKeepsTree(par: Parents, rank: map<nat, nat>, n: nat, p: nat)
    requires Ranked(par, rank) && n in par && (p == 0 || p in par) && !Ancestor(par, n, p)
    ensures Ranked(par[n := p], LiftedRank(par, rank, n, p))
  {
    AncestorSelf(par, n);
    AncestorAtTop(par, n, 0);
    forall x | x in par ensures Falls(par[n := p], LiftedRank(par, rank, n, p), x) {
      assert Falls(par, rank, x);
      if x != n { AncestorStep(par, n, x); }
    }
  }

  /** Step one of RFC 7540, section 5.3.3: a new parent that lies below the stream first takes the stream's place. */
  function Lifted(par: Parents, n: nat, p: nat, below: bool): Parents
    requires n in par
  {
    if below then par[p := par[n]] else par
  }

  /** Step two, section 5.3.1: an exclusive stream adopts all other kids of its new parent. */
  ghost function Adopted(par: Parents, n: nat, p: nat, exclusive: bool): Parents {
    if exclusive then Tabulated(par.Keys, x requires x in par => if par[x] == p && x != n then n else par[x])
    else par
  }

  /** The dependency tree after stream n is made to depend on p. */
  ghost function Reprioritized(par: Parents, n: nat, p: nat, exclusive: bool): Parents
    requires n in par
  {
    Adopted(Lifted(par, n, p, Ancestor(par, n, p)), n, p, exclusive)[n := p]
  }

  lemma LiftKeepsTree(par: Parents, rank: map<nat, nat>, n: nat, p: nat)
    requires Ranked(par, rank) && n in par && p in par && n != p && Ancestor(par, n, p)
    ensures Ranked(par[p := par[n]], rank)
    ensures !Ancestor(par[p := par[n]], n, p)
  {
    AncestorRank(par, rank, n, p);
    assert Falls(par, rank, n);
    var par' := par[p := par[n]];
    forall x | x in par' ensures Falls(par', rank, x) {
      assert Falls(par, rank, x);
    }
    if Ancestor(par', n, p) {
      AncestorStep(par', n, p);
      AncestorRank(par', rank, n, par[n]);
    }
  }

  /** Ranks for the tree after adoption: the stream goes above p, the adopted subtrees above the stream. */
  ghost function AdoptionRank(par: Parents, rank: map<nat, nat>, n: nat, p: nat): map<nat, nat> {
    var lift := RankOf(rank, p) + 1;
    Tabulated(par.Keys, x =>
      if Ancestor(par, n, x) then RankOf(rank, x) + lift
      else if Ancestor(par, p, x) && x != p then RankOf(rank, x) + RankOf(rank, n) + lift + 1
      else RankOf(rank, x))
  }

  lemma AdoptionRankFalls(par: Parents, rank: map<nat, nat>, n: nat, p: nat, x: nat)
    requires Ranked(par, rank) && n in par && (p == 0 || p in par) && n != p
    requires !Ancestor(par, n, p) && x in par
    ensures Falls(Adopted(par, n, p, true)[n := p], AdoptionRank(par, rank, n, p), x)
  {
    assert Falls(par, rank, x);
    AncestorSelf(par, n);
    AncestorSelf(par, p);
    AncestorAtTop(par, n, 0);
    AncestorAtTop(par, p, 0);
    if x != n {
      AncestorStep(par, n, x);
      if x != p {
        AncestorStep(par, p, x);
      } else if Ancestor(par, p, par[p]) {
        AncestorRank(par, rank, p, par[p]);
      }
    }
  }

  /** Adopting the kids of p and then moving under p: a tree again, although in between n may sit on a cycle. */
  lemma AdoptKeepsTree(par: Parents, rank: map<nat, nat>, n: nat, p: nat)
    requires Ranked(par, rank) && n in par && (p == 0 || p in par) && n != p
    requires !Ancestor(par, n, p)
    ensures Ranked(Adopted(par, n, p, true)[n := p], AdoptionRank(par, rank, n, p))
  {
    var par' := Adopted(par, n, p, true)[n := p];
    forall x | x in par' ensures Falls(par', AdoptionRank(par, rank, n, p), x) {
      AdoptionRankFalls(par, rank, n, p, x);
    }
  }

  /** RFC 7540, sections 5.3.1 and 5.3.3: reprioritizing always yields a tree on the same streams. */
  lemma ReprioritizedIsTree(par: Parents, rank: map<nat, nat>, n: nat, p: nat, exclusive: bool)
    returns (rank': map<nat, nat>)
    requires Ranked(par, rank) && n in par && (p == 0 || p in par) && n != p
    ensures Ranked(Reprioritized(par, n, p, exclusive), rank')
    ensures Reprioritized(par, n, p, exclusive).Keys == par.Keys
  {
    var below := Ancestor(par, n, p);
    var par1 := Lifted(par, n, p, below);
    if below {
      if p == 0 { AncestorAtTop(par, n, p); }
      LiftKeepsTree(par, rank, n, p);
    }
    if exclusive {
      AdoptKeepsTree(par1, rank, n, p);
      rank' := AdoptionRank(par1, rank, n, p);
    } else {
      ReparentKeepsTree(par1, rank, n, p);
      rank' := LiftedRank(par1, rank, n, p);
    }
  }

  /**
   * After an exclusive change the stream is the only kid of its parent and has adopted the former ones; no other stream
   * moves.
   */
  lemma ExclusiveIsOnlyKid(par: Parents, rank: map<nat, nat>, n: nat, p: nat, x: nat)
    requires Ranked(par, rank) && n in par && (p == 0 || p in par) && n != p && x in par
    ensures var par' := Reprioritized(par, n, p, true);
            && (par'[x] == p <==> x == n)
            && (par[x] == p && x != n ==> par'[x] == n)
            && (par[x] != p && x != n && x != p ==> par'[x] == par[x])
            && (x == p ==> par'[p] == if Ancestor(par, n, p) then par[n] else par[p])
  {
    assert Falls(par, rank, x) && Falls(par, rank, n);
    if Ancestor(par, n, p) { AncestorRank(par, rank, n, p); }
  }

  /** A non-exclusive change moves the stream, and the new parent when that was below it; nothing else. */
  lemma NonExclusiveMovesOne(par: Parents, n: nat, p: nat, x: nat)
    requires n in par && (p == 0 || p in par) && n != p && x in par
    ensures var par' := Reprioritized(par, n, p, false);
            par'[x] == if x == n then p else if x == p && Ancestor(par, n, p) then par[n] else par[x]
  {
  }

  /** Whatever depended on the stream still does, except what hung on a new parent that had to be lifted out first. */
  lemma {:induction false} DescendantsFollow(par: Parents, rank: map<nat, nat>, n: nat, p: nat, exclusive: bool, x: nat)
    requires Ranked(par, rank) && n in par && (p == 0 || p in par) && n != p && x in par
    requires Ancestor(par, n, x) && !(Ancestor(par, n, p) && Ancestor(par, p, x))
    ensures Ancestor(Reprioritized(par, n, p, exclusive), n, x)
    decreases RankOf(rank, x)
  {
    var par' := Reprioritized(par, n, p, exclusive);
    AncestorSelf(par', n);
    AncestorSelf(par, p);
    if x != n {
      assert Falls(par, rank, x);
      AncestorStep(par, n, x);
      AncestorAtTop(par, n, 0);
      if x != p { AncestorStep(par, p, x); }
      DescendantsFollow(par, rank, n, p, exclusive, par[x]);
      AncestorStep(par', n, x);
    }
  }
}
