/** The adoration proxy graph: who lends voting weight to whom, and how much Qi lies
    a given number of hops below an account. Nothing here assumes a bound on the number
    of accounts; acyclicity is stated where it is used. */
module ProxyGraph {
  import opened Entities
  import opened Wrappers
  import opened MapSums

  /** Every account, mapped to the account it proxies to. */
  type Graph = map<Name, Option<Name>>

  /** The account k proxy hops above x, if the chain is that long. */
  ghost function Anc(g: Graph, x: Name, k: nat): Option<Name>
    decreases k
  {
    if x !in g then None
    else if k == 0 then Some(x)
    else if g[x].None? then None
    else Anc(g, g[x].value, k - 1)
  }

  ghost predicate Closed(g: Graph) {
    forall x :: x in g && g[x].Some? ==> g[x].value in g
  }

  ghost predicate Acyclic(g: Graph) {
    forall x, k: nat :: k > 0 && x in g ==> Anc(g, x, k) != Some(x)
  }

  ghost function Val(q: map<Name, int>, x: Name): int {
    if x in q then q[x] else 0
  }

  /** What each account contributes to x at k hops. */
  ghost function HopTerms(g: Graph, q: map<Name, int>, x: Name, k: nat): map<Name, int> {
    map a | a in g :: if Anc(g, a, k) == Some(x) then Val(q, a) else 0
  }

  /** The total Qi of the accounts exactly k hops below x. */
  ghost function HopSum(g: Graph, q: map<Name, int>, x: Name, k: nat): int {
    Sum(HopTerms(g, q, x, k))
  }

  /** The self-proxied account at most n hops above x, if there is one. */
  ghost function RootWithin(g: Graph, x: Name, n: nat): Option<Name>
    decreases n
  {
    if x !in g then None
    else if g[x].None? then Some(x)
    else if n == 0 then None
    else RootWithin(g, g[x].value, n - 1)
  }

  lemma {:induction false} AncPlus(g: Graph, x: Name, i: nat, j: nat)
    requires Anc(g, x, i).Some?
    ensures Anc(g, x, i + j) == Anc(g, Anc(g, x, i).value, j)
    decreases i
  {
    if i > 0 {
      AncPlus(g, g[x].value, i - 1, j);
    }
  }

  lemma {:induction false} AncPrefix(g: Graph, x: Name, i: nat, k: nat)
    requires i <= k && Anc(g, x, k).Some?
    ensures Anc(g, x, i).Some?
    decreases i
  {
    if i > 0 {
      AncPrefix(g, g[x].value, i - 1, k - 1);
    }
  }

  lemma {:induction false} RevisitIsCycle(g: Graph, x: Name, i: nat, j: nat)
    requires i < j && Anc(g, x, i).Some? && Anc(g, x, i) == Anc(g, x, j)
    ensures !Acyclic(g)
  {
    var y := Anc(g, x, i).value;
    AncPlus(g, x, i, j - i);
    AncPlus(g, x, i, 0);
    assert Anc(g, y, j - i) == Some(y);
  }

  /** In an acyclic graph an account lies at one distance only above another. */
  lemma {:induction false} AncInjective(g: Graph, x: Name, i: nat, j: nat)
    requires Acyclic(g) && Anc(g, x, i).Some? && Anc(g, x, i) == Anc(g, x, j)
    ensures i == j
  {
    if i < j {
      RevisitIsCycle(g, x, i, j);
    } else if j < i {
      RevisitIsCycle(g, x, j, i);
    }
  }

  ghost predicate Reaches(g: Graph, x: Name, a: Name) {
    exists k: nat :: Anc(g, x, k) == Some(a)
  }

  /** Does the chain above b reach a in fewer than k hops? */
  ghost predicate Meets(g: Graph, b: Name, a: Name, k: nat) {
    exists i: nat :: i < k && Anc(g, b, i) == Some(a)
  }

  /** Cutting the edge out of a loses exactly the chains that use it. */
  lemma {:induction false} AncCut(g: Graph, a: Name, b: Name, k: nat)
    requires a in g
    ensures Anc(g[a := None], b, k) == if Meets(g, b, a, k) then None else Anc(g, b, k)
    decreases k
  {
    var h := g[a := None];
    if b !in g {
      assert !Meets(g, b, a, k);
    } else if k == 0 {
      assert !Meets(g, b, a, k);
    } else if b == a {
      assert Anc(g, b, 0) == Some(a);
      assert Meets(g, b, a, k);
    } else if g[b].None? {
      assert forall i: nat :: i < k && i > 0 ==> Anc(g, b, i) == None;
      assert !Meets(g, b, a, k);
    } else {
      var p := g[b].value;
      AncCut(g, a, p, k - 1);
      if Meets(g, p, a, k - 1) {
        var i: nat :| i < k - 1 && Anc(g, p, i) == Some(a);
        assert Anc(g, b, i + 1) == Some(a);
      }
      if Meets(g, b, a, k) {
        var i: nat :| i < k && Anc(g, b, i) == Some(a);
        assert i > 0;
        assert Anc(g, p, i - 1) == Some(a);
      }
    }
  }

  /** The chains that end in a do not use the edge out of a. */
  lemma {:induction false} CutKeepsArrivals(g: Graph, q: map<Name, int>, a: Name, k: nat)
    requires a in g && Acyclic(g)
    ensures HopSum(g[a := None], q, a, k) == HopSum(g, q, a, k)
  {
    var h := g[a := None];
    forall b | b in g
      ensures HopTerms(h, q, a, k)[b] == HopTerms(g, q, a, k)[b]
    {
      AncCut(g, a, b, k);
      if Meets(g, b, a, k) {
        var i: nat :| i < k && Anc(g, b, i) == Some(a);
        if Anc(g, b, k) == Some(a) {
          AncInjective(g, b, i, k);
        }
      }
    }
    assert HopTerms(h, q, a, k) == HopTerms(g, q, a, k);
    assert h.Keys == g.Keys;
  }

  /** A chain from b arrives at x either without a's edge or through a, not both. */
  lemma {:induction false} CutSplits(g: Graph, a: Name, b: Name, x: Name, m: nat, k: nat)
    requires a in g && Acyclic(g)
    requires 1 <= m <= k && Anc(g, a, m) == Some(x)
    ensures Anc(g, b, k - m) == Some(a) ==> Anc(g, b, k) == Some(x) && Anc(g[a := None], b, k) == None
    ensures Anc(g, b, k - m) != Some(a) ==>
              (Anc(g[a := None], b, k) == Some(x) <==> Anc(g, b, k) == Some(x))
  {
    AncCut(g, a, b, k);
    if Anc(g, b, k - m) == Some(a) {
      AncPlus(g, b, k - m, m);
    } else if Meets(g, b, a, k) && Anc(g, b, k) == Some(x) {
      var i: nat :| i < k && Anc(g, b, i) == Some(a);
      AncPlus(g, b, i, k - i);
      AncInjective(g, a, k - i, m);
    }
  }

  /** Cutting the edge out of a takes from each ancestor of a, at every hop count, the Qi that
      arrived there through a. */
  lemma {:induction false} CutHopSum(g: Graph, q: map<Name, int>, a: Name, x: Name, m: nat, k: nat)
    requires a in g && Acyclic(g)
    requires 1 <= m <= k && Anc(g, a, m) == Some(x)
    ensures HopSum(g[a := None], q, x, k) == HopSum(g, q, x, k) - HopSum(g, q, a, k - m)
  {
    var h := g[a := None];
    forall b | b in g
      ensures HopTerms(g, q, x, k)[b] == HopTerms(h, q, x, k)[b] + HopTerms(g, q, a, k - m)[b]
    {
      CutSplits(g, a, b, x, m, k);
    }
    SumPlus(HopTerms(h, q, x, k), HopTerms(g, q, a, k - m), HopTerms(g, q, x, k));
    assert h.Keys == g.Keys;
  }

  lemma {:induction false} CutMisses(g: Graph, a: Name, b: Name, x: Name, k: nat)
    requires a in g
    requires forall m: nat :: 1 <= m <= k ==> Anc(g, a, m) != Some(x)
    ensures Anc(g[a := None], b, k) == Some(x) <==> Anc(g, b, k) == Some(x)
  {
    AncCut(g, a, b, k);
    if Meets(g, b, a, k) {
      var i: nat :| i < k && Anc(g, b, i) == Some(a);
      AncPlus(g, b, i, k - i);
    }
  }

  /** Accounts that are not above a within k hops see no change. */
  lemma {:induction false} CutElsewhere(g: Graph, q: map<Name, int>, a: Name, x: Name, k: nat)
    requires a in g
    requires forall m: nat :: 1 <= m <= k ==> Anc(g, a, m) != Some(x)
    ensures HopSum(g[a := None], q, x, k) == HopSum(g, q, x, k)
  {
    var h := g[a := None];
    forall b | b in g
      ensures HopTerms(h, q, x, k)[b] == HopTerms(g, q, x, k)[b]
    {
      CutMisses(g, a, b, x, k);
    }
    assert HopTerms(h, q, x, k) == HopTerms(g, q, x, k);
    assert h.Keys == g.Keys;
  }

  /** A change of Qi is felt at hop count k by the account k hops up, and by nobody else. */
  lemma {:induction false} QiHopSum(g: Graph, q: map<Name, int>, a: Name, delta: int, x: Name, k: nat)
    requires a in g && a in q
    ensures HopSum(g, q[a := q[a] + delta], x, k)
         == HopSum(g, q, x, k) + (if Anc(g, a, k) == Some(x) then delta else 0)
  {
    SumPoint(HopTerms(g, q, x, k), HopTerms(g, q[a := q[a] + delta], x, k), a);
  }

  lemma {:induction false} HopSumZero(g: Graph, q: map<Name, int>, x: Name)
    requires x in g
    ensures HopSum(g, q, x, 0) == Val(q, x)
  {
    SumSingle(HopTerms(g, q, x, 0), x);
  }

  lemma {:induction false} HopSumNonNegative(g: Graph, q: map<Name, int>, x: Name, k: nat)
    requires forall a :: a in q ==> q[a] >= 0
    ensures HopSum(g, q, x, k) >= 0
  {
    SumNonNegative(HopTerms(g, q, x, k));
  }

  /** The root lies at the end of the chain. */
  lemma {:induction false} RootAnc(g: Graph, x: Name, n: nat)
    requires Closed(g) && x in g
    ensures RootWithin(g, x, n).None? ==> Anc(g, x, n).Some? && Anc(g, x, n).value in g && g[Anc(g, x, n).value].Some?
    ensures forall r, k: nat :: k <= n && Anc(g, x, k) == Some(r) && r in g && g[r].None?
                           ==> RootWithin(g, x, n) == Some(r)
    ensures RootWithin(g, x, n).Some? ==>
              var r := RootWithin(g, x, n).value;
              r in g && g[r].None? && exists k: nat :: k <= n && Anc(g, x, k) == Some(r)
    decreases n
  {
    if g[x].None? {
      assert Anc(g, x, 0) == Some(x);
    } else if n == 0 {
      assert Anc(g, x, 0) == Some(x);
    } else {
      var p := g[x].value;
      RootAnc(g, p, n - 1);
      forall r, k: nat | k <= n && Anc(g, x, k) == Some(r) && r in g && g[r].None?
        ensures RootWithin(g, x, n) == Some(r)
      {
        assert k > 0;
        assert Anc(g, p, k - 1) == Some(r);
      }
      if RootWithin(g, x, n).Some? {
        var r := RootWithin(g, x, n).value;
        var k: nat :| k <= n - 1 && Anc(g, p, k) == Some(r);
        assert Anc(g, x, k + 1) == Some(r);
      }
    }
  }

  /** Linking a root a below p closes no loop when p does not reach a. */
  lemma {:induction false} LinkKeepsAcyclic(g: Graph, a: Name, p: Name)
    requires a in g && g[a].None? && Acyclic(g) && Closed(g)
    requires !Reaches(g, p, a)
    ensures Acyclic(g[a := Some(p)])
  {
    var h := g[a := Some(p)];
    assert h[a := None] == g;
    forall x, k: nat | k > 0 && x in h
      ensures Anc(h, x, k) != Some(x)
    {
      AncCut(h, a, x, k);
      if Anc(h, x, k) == Some(x) && Meets(h, x, a, k) {
        var i: nat :| i < k && Anc(h, x, i) == Some(a);
        AncPlus(h, x, i, k - i);
        AncPlus(h, x, k, i);
        assert Anc(h, x, k + i) == Some(a);
        AncPlus(h, x, i, k);
        assert Anc(h, a, k) == Some(a);
        FirstReturn(h, a, p, k - 1);
      }
    }
  }

  /** If p reaches a in h, it reaches a without using the edge out of a. */
  lemma {:induction false} FirstReturn(h: Graph, a: Name, p: Name, n: nat)
    requires a in h && Anc(h, p, n) == Some(a)
    ensures Reaches(h[a := None], p, a)
    decreases n
  {
    AncCut(h, a, p, n);
    if Meets(h, p, a, n) {
      var i: nat :| i < n && Anc(h, p, i) == Some(a);
      FirstReturn(h, a, p, i);
    }
  }
}
