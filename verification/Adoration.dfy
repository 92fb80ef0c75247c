/** Proxied adoration: the per-depth caches that accounts keep of the Qi lent to them, the adoration
    totals of the simings, and the operations that adjust both step by step.

    The account table is kept by columns: `proxy` (the graph), `qi` and `slots`, where slots[x][i]
    caches the Qi lent to x from i + 1 proxy hops below. */
module Adoration {
  import opened Entities
  import opened Wrappers
  import opened MapSums
  import opened ProxyGraph
  import opened Sets

  const MAX_PROXY_RECURSION_DEPTH := 4
  const MAX_ACCOUNT_SIMING_ADORES := 30

  type Slots = v: seq<int> | |v| == 4 witness [0, 0, 0, 0]
  type Deltas = v: seq<int> | |v| == 5 witness [0, 0, 0, 0, 0]
  type SlotTable = map<Name, Slots>

  /** The (account, siming) adore records. */
  type Records = set<(Name, Name)>

  function Total(v: Slots): int {
    v[0] + v[1] + v[2] + v[3]
  }

  /** The weight of an account that adores directly. */
  ghost function Weight(q: map<Name, int>, t: SlotTable, x: Name): int {
    Val(q, x) + if x in t then Total(t[x]) else 0
  }

  /** What each account contributes to the adoration of s. */
  ghost function AdoreTerms(g: Graph, q: map<Name, int>, t: SlotTable, R: Records, s: Name): map<Name, int> {
    map x | x in g :: if g[x].None? && (x, s) in R then Weight(q, t, x) else 0
  }

  ghost predicate SlotsFor(g: Graph, q: map<Name, int>, v: Slots, x: Name) {
    && v[0] == HopSum(g, q, x, 1) && v[1] == HopSum(g, q, x, 2)
    && v[2] == HopSum(g, q, x, 3) && v[3] == HopSum(g, q, x, 4)
  }

  /** Each cache slot holds the Qi that lies exactly that many hops below. */
  ghost predicate CacheOk(g: Graph, q: map<Name, int>, t: SlotTable) {
    forall x :: x in t ==> SlotsFor(g, q, t[x], x)
  }

  /** Each siming's adoration is the summed weight of the self-proxied accounts that adore it. */
  ghost predicate AdoresOk(g: Graph, q: map<Name, int>, t: SlotTable, R: Records, adores: map<Name, int>) {
    forall s :: s in adores ==> adores[s] == Sum(AdoreTerms(g, q, t, R, s))
  }

  ghost predicate RecordsOk(g: Graph, R: Records, adores: map<Name, int>) {
    forall r :: r in R ==> r.0 in g && g[r.0].None? && r.1 in adores
  }

  ghost predicate Consistent(g: Graph, q: map<Name, int>, t: SlotTable, R: Records, adores: map<Name, int>) {
    && q.Keys == g.Keys && t.Keys == g.Keys
    && Closed(g) && Acyclic(g)
    && CacheOk(g, q, t) && AdoresOk(g, q, t, R, adores) && RecordsOk(g, R, adores)
  }

  lemma {:induction false} ConsistentShape(g: Graph, q: map<Name, int>, t: SlotTable, R: Records, adores: map<Name,
                                           int>)
    requires Consistent(g, q, t, R, adores)
    ensures q.Keys == g.Keys && t.Keys == g.Keys && Closed(g) && Acyclic(g)
    ensures CacheOk(g, q, t) && RecordsOk(g, R, adores)
  {
  }

  // ----- A single change of Qi -----

  ghost function Bump(g: Graph, a: Name, delta: int, depth: nat, x: Name, i: nat): int {
    if depth <= i && Anc(g, a, i + 1 - depth) == Some(x) then delta else 0
  }

  /** The slots of x after a change of Qi at a, when the first `depth` hops are already done. */
  ghost function BumpSlots(g: Graph, v: Slots, a: Name, delta: int, depth: nat, x: Name): Slots {
    [v[0] + Bump(g, a, delta, depth, x, 0), v[1] + Bump(g, a, delta, depth, x, 1),
     v[2] + Bump(g, a, delta, depth, x, 2), v[3] + Bump(g, a, delta, depth, x, 3)]
  }

  ghost function Bumped(g: Graph, t: SlotTable, a: Name, delta: int, depth: nat): SlotTable {
    map x | x in t :: BumpSlots(g, t[x], a, delta, depth, x)
  }

  lemma {:induction false} BumpedKeys(g: Graph, t: SlotTable, a: Name, delta: int, depth: nat)
    ensures Bumped(g, t, a, delta, depth).Keys == t.Keys
  {
  }

  ghost function Credit(R: Records, root: Option<Name>, s: Name, delta: int): int {
    if root.Some? && (root.value, s) in R then delta else 0
  }

  ghost function Credited(R: Records, adores: map<Name, int>, root: Option<Name>, delta: int): map<Name, int> {
    map s | s in adores :: adores[s] + Credit(R, root, s, delta)
  }

  /** A root stands at one distance only above an account. */
  lemma {:induction false} RootOnce(g: Graph, a: Name, x: Name, i: nat, j: nat)
    requires x in g && g[x].None? && i < j && Anc(g, a, i) == Some(x)
    ensures Anc(g, a, j) == None
  {
    AncPlus(g, a, i, j - i);
  }

  /** A root at most four hops above an account stands at exactly one of the five distances. */
  lemma {:induction false} RootHits(g: Graph, a: Name, x: Name, delta: int)
    requires Closed(g) && a in g && x in g && g[x].None?
    ensures (if a == x then delta else 0)
            + Bump(g, a, delta, 0, x, 0) + Bump(g, a, delta, 0, x, 1)
            + Bump(g, a, delta, 0, x, 2) + Bump(g, a, delta, 0, x, 3)
            == if RootWithin(g, a, 4) == Some(x) then delta else 0
  {
    RootAnc(g, a, 4);
    assert Anc(g, a, 0) == Some(a);
    if k: nat :| k <= 4 && Anc(g, a, k) == Some(x) {
      forall j: nat | j <= 4 && j != k
        ensures Anc(g, a, j) != Some(x)
      {
        if j < k && Anc(g, a, j) == Some(x) {
          RootOnce(g, a, x, j, k);
        } else if k < j {
          RootOnce(g, a, x, k, j);
        }
      }
    }
  }

  lemma {:induction false} QiChangeSlots(g: Graph, q: map<Name, int>, v: Slots, a: Name, delta: int, x: Name)
    requires a in g && a in q && SlotsFor(g, q, v, x)
    ensures SlotsFor(g, q[a := q[a] + delta], BumpSlots(g, v, a, delta, 0, x), x)
  {
    forall k: nat
      ensures HopSum(g, q[a := q[a] + delta], x, k)
           == HopSum(g, q, x, k) + if Anc(g, a, k) == Some(x) then delta else 0
    {
      QiHopSum(g, q, a, delta, x, k);
    }
  }

  lemma {:induction false} QiChangeCache(g: Graph, q: map<Name, int>, t: SlotTable, a: Name, delta: int)
    requires a in g && a in q && CacheOk(g, q, t)
    ensures CacheOk(g, q[a := q[a] + delta], Bumped(g, t, a, delta, 0))
  {
    forall x | x in t
      ensures SlotsFor(g, q[a := q[a] + delta], BumpSlots(g, t[x], a, delta, 0, x), x)
    {
      QiChangeSlots(g, q, t[x], a, delta, x);
    }
  }

  /** Raising an account's Qi raises the weight of the root within four hops, and of no other root. */
  lemma {:induction false} QiChangeWeight(g: Graph, q: map<Name, int>, t: SlotTable, a: Name, delta: int, x: Name)
    requires q.Keys == g.Keys && t.Keys == g.Keys && Closed(g) && a in g && x in g && g[x].None?
    ensures Weight(q[a := q[a] + delta], Bumped(g, t, a, delta, 0), x)
         == Weight(q, t, x) + if RootWithin(g, a, 4) == Some(x) then delta else 0
  {
    RootHits(g, a, x, delta);
  }

  lemma {:induction false} QiChangeAdores(g: Graph, q: map<Name, int>, t: SlotTable, R: Records, a: Name, delta: int,
                                          s: Name)
    requires q.Keys == g.Keys && t.Keys == g.Keys && Closed(g) && a in g
    ensures Sum(AdoreTerms(g, q[a := q[a] + delta], Bumped(g, t, a, delta, 0), R, s))
         == Sum(AdoreTerms(g, q, t, R, s)) + Credit(R, RootWithin(g, a, 4), s, delta)
  {
    var q', t' := q[a := q[a] + delta], Bumped(g, t, a, delta, 0);
    var root := RootWithin(g, a, 4);
    RootAnc(g, a, 4);
    forall x | x in g && g[x].None?
      ensures Weight(q', t', x) == Weight(q, t, x) + if root == Some(x) then delta else 0
    {
      QiChangeWeight(g, q, t, a, delta, x);
    }
    if root.Some? {
      SumPoint(AdoreTerms(g, q, t, R, s), AdoreTerms(g, q', t', R, s), root.value);
    } else {
      assert AdoreTerms(g, q, t, R, s) == AdoreTerms(g, q', t', R, s);
    }
  }

  lemma {:induction false} QiChangeAdoresOk(g: Graph, q: map<Name, int>, t: SlotTable, R: Records,
                         adores: map<Name, int>, a: Name, delta: int)
    requires q.Keys == g.Keys && t.Keys == g.Keys && Closed(g) && a in g && AdoresOk(g, q, t, R, adores)
    ensures AdoresOk(g, q[a := q[a] + delta], Bumped(g, t, a, delta, 0), R,
                     Credited(R, adores, RootWithin(g, a, 4), delta))
  {
    var q', t' := q[a := q[a] + delta], Bumped(g, t, a, delta, 0);
    var adores' := Credited(R, adores, RootWithin(g, a, 4), delta);
    forall s | s in adores
      ensures adores'[s] == Sum(AdoreTerms(g, q', t', R, s))
    {
      QiChangeAdores(g, q, t, R, a, delta, s);
    }
  }

  /** Any change of an account's Qi, propagated, keeps caches and adoration totals exact. */
  lemma {:induction false} QiChangeKeepsConsistent(g: Graph, q: map<Name, int>, t: SlotTable, R: Records,
                                adores: map<Name, int>, a: Name, delta: int)
    requires Consistent(g, q, t, R, adores) && a in g
    ensures Consistent(g, q[a := q[a] + delta], Bumped(g, t, a, delta, 0), R,
                       Credited(R, adores, RootWithin(g, a, 4), delta))
  {
    hide HopSum, Sum, AdoreTerms, Bumped;
    QiChangeCache(g, q, t, a, delta);
    QiChangeAdoresOk(g, q, t, R, adores, a, delta);
    assert Bumped(g, t, a, delta, 0).Keys == t.Keys by {
      BumpedKeys(g, t, a, delta, 0);
    }
  }

  // ----- Moving a whole subtree: the array form -----

  function Prefix(d: Deltas, n: int): int
    requires -1 <= n <= 4
    decreases n + 1
  {
    if n < 0 then 0 else Prefix(d, n - 1) + d[n]
  }

  function Negated(d: Deltas): Deltas {
    [-d[0], -d[1], -d[2], -d[3], -d[4]]
  }

  /** The deltas that carry an account's own Qi and everything lent to it. */
  function Whole(qi: int, v: Slots): Deltas {
    [qi, v[0], v[1], v[2], v[3]]
  }

  /** What slot j of x gains when the deltas climb from a, `depth` hops being already done. */
  ghost function Hits(g: Graph, a: Name, x: Name, d: Deltas, depth: nat, j: nat): int
    requires j < 4
    decreases 4 - depth
  {
    if depth > j || a !in g || g[a].None? then 0
    else (if g[a].value == x then d[j - depth] else 0) + Hits(g, g[a].value, x, d, depth + 1, j)
  }

  ghost function HitSlots(g: Graph, v: Slots, a: Name, d: Deltas, depth: nat, x: Name): Slots {
    [v[0] + Hits(g, a, x, d, depth, 0), v[1] + Hits(g, a, x, d, depth, 1),
     v[2] + Hits(g, a, x, d, depth, 2), v[3] + Hits(g, a, x, d, depth, 3)]
  }

  ghost function Hit(g: Graph, t: SlotTable, a: Name, d: Deltas, depth: nat): SlotTable {
    map x | x in t :: HitSlots(g, t[x], a, d, depth, x)
  }

  /** What the root at the end of the chain passes on to its simings. */
  ghost function Share(g: Graph, a: Name, d: Deltas, depth: nat): int
    requires depth <= 4
    decreases 4 - depth
  {
    if a !in g then 0
    else if g[a].None? then Prefix(d, 4 - depth)
    else if depth == 4 then 0
    else Share(g, g[a].value, d, depth + 1)
  }

  lemma {:induction false} HitsNone(g: Graph, a: Name, x: Name, d: Deltas, depth: nat, j: nat)
    requires j < 4 && Closed(g)
    requires forall m: nat :: 1 <= m <= j + 1 - depth ==> Anc(g, a, m) != Some(x)
    ensures Hits(g, a, x, d, depth, j) == 0
    decreases 4 - depth
  {
    if depth <= j && a in g && g[a].Some? {
      var p := g[a].value;
      assert Anc(g, a, 1) == Some(p);
      forall m: nat | 1 <= m <= j - depth
        ensures Anc(g, p, m) != Some(x)
      {
        assert Anc(g, a, m + 1) == Anc(g, p, m);
      }
      HitsNone(g, p, x, d, depth + 1, j);
    }
  }

  /** In an acyclic graph an ancestor m hops up gains exactly the entry m hops further down. */
  lemma {:induction false} HitsAt(g: Graph, a: Name, x: Name, d: Deltas, depth: nat, j: nat, m: nat)
    requires j < 4 && Acyclic(g) && Closed(g)
    requires 1 <= m <= j + 1 - depth && Anc(g, a, m) == Some(x)
    ensures Hits(g, a, x, d, depth, j) == d[j + 1 - depth - m]
    decreases m
  {
    var p := g[a].value;
    if m == 1 {
      assert p == x;
      HitsNone(g, p, x, d, depth + 1, j);
    } else {
      if p == x {
        assert false;
      }
      HitsAt(g, p, x, d, depth + 1, j, m - 1);
    }
  }

  lemma {:induction false} HitsNegated(g: Graph, a: Name, x: Name, d: Deltas, depth: nat, j: nat)
    requires j < 4
    ensures Hits(g, a, x, Negated(d), depth, j) == -Hits(g, a, x, d, depth, j)
    decreases 4 - depth
  {
    if depth <= j && a in g && g[a].Some? {
      HitsNegated(g, g[a].value, x, d, depth + 1, j);
    }
  }

  /** The gains of a root's slots add up to what it passes on, and other roots gain nothing. */
  lemma {:induction false} HitsShare(g: Graph, a: Name, x: Name, d: Deltas, depth: nat)
    requires depth <= 4 && a in g && g[a].Some? && x in g && g[x].None? && Closed(g)
    ensures Hits(g, a, x, d, depth, 0) + Hits(g, a, x, d, depth, 1)
            + Hits(g, a, x, d, depth, 2) + Hits(g, a, x, d, depth, 3)
            == if RootWithin(g, a, 4 - depth) == Some(x) then Share(g, a, d, depth) else 0
    decreases 4 - depth
  {
    if depth < 4 {
      var p := g[a].value;
      if g[p].Some? {
        HitsShare(g, p, x, d, depth + 1);
      } else if p == x {
        assert Share(g, a, d, depth) == Prefix(d, 3 - depth);
        PrefixUnfold(d);
      }
    }
  }

  lemma {:induction false} PrefixUnfold(d: Deltas)
    ensures Prefix(d, 0) == d[0]
    ensures Prefix(d, 1) == d[0] + d[1]
    ensures Prefix(d, 2) == d[0] + d[1] + d[2]
    ensures Prefix(d, 3) == d[0] + d[1] + d[2] + d[3]
    ensures Prefix(d, 4) == d[0] + d[1] + d[2] + d[3] + d[4]
  {
  }

  /** d lists the Qi at a and 1, 2, 3 and 4 hops below it. */
  ghost predicate Carries(g: Graph, q: map<Name, int>, a: Name, d: Deltas) {
    && d[0] == HopSum(g, q, a, 0) && d[1] == HopSum(g, q, a, 1) && d[2] == HopSum(g, q, a, 2)
    && d[3] == HopSum(g, q, a, 3) && d[4] == HopSum(g, q, a, 4)
  }

  lemma {:induction false} WholeCarries(g: Graph, q: map<Name, int>, v: Slots, a: Name)
    requires a in g && a in q && SlotsFor(g, q, v, a)
    ensures Carries(g, q, a, Whole(q[a], v))
  {
    HopSumZero(g, q, a);
  }

  lemma {:induction false} CarriesAt(g: Graph, q: map<Name, int>, a: Name, d: Deltas, i: nat)
    requires Carries(g, q, a, d) && i <= 4
    ensures d[i] == HopSum(g, q, a, i)
  {
    assert i == 0 || i == 1 || i == 2 || i == 3 || i == 4;
  }

  lemma {:induction false} EdgeWorthAt(g: Graph, q: map<Name, int>, a: Name, d: Deltas, x: Name, m: nat, j: nat)
    requires a in g && Acyclic(g) && Closed(g) && j < 4 && Carries(g, q, a, d)
    requires 1 <= m <= j + 1 && Anc(g, a, m) == Some(x)
    ensures HopSum(g, q, x, j + 1) == HopSum(g[a := None], q, x, j + 1) + Hits(g, a, x, d, 0, j)
  {
    hide HopSum, Hits, Anc, Acyclic, Closed;
    HitsAt(g, a, x, d, 0, j, m);
    CarriesAt(g, q, a, d, j + 1 - m);
    CutHopSum(g, q, a, x, m, j + 1);
  }

  /** The edge out of a is worth, at slot j of x, exactly what the deltas of a deliver there. */
  lemma {:induction false} EdgeWorth(g: Graph, q: map<Name, int>, a: Name, d: Deltas, x: Name, j: nat)
    requires a in g && Acyclic(g) && Closed(g) && j < 4 && Carries(g, q, a, d)
    ensures HopSum(g, q, x, j + 1) == HopSum(g[a := None], q, x, j + 1) + Hits(g, a, x, d, 0, j)
  {
    if m: nat :| 1 <= m <= j + 1 && Anc(g, a, m) == Some(x) {
      EdgeWorthAt(g, q, a, d, x, m, j);
    } else {
      HitsNone(g, a, x, d, 0, j);
      CutElsewhere(g, q, a, x, j + 1);
    }
  }

  lemma {:induction false} DetachSlots(g: Graph, q: map<Name, int>, v: Slots, a: Name, d: Deltas, x: Name)
    requires a in g && Acyclic(g) && Closed(g) && Carries(g, q, a, d) && SlotsFor(g, q, v, x)
    ensures SlotsFor(g[a := None], q, HitSlots(g, v, a, Negated(d), 0, x), x)
  {
    hide HopSum, Hits, Anc, Acyclic, Closed, Carries;
    forall j: nat | j < 4
      ensures HopSum(g[a := None], q, x, j + 1) == HopSum(g, q, x, j + 1) + Hits(g, a, x, Negated(d), 0, j)
    {
      EdgeWorth(g, q, a, d, x, j);
      HitsNegated(g, a, x, d, 0, j);
    }
  }

  lemma {:induction false} AttachSlots(h: Graph, q: map<Name, int>, v: Slots, a: Name, d: Deltas, x: Name)
    requires a in h && Acyclic(h) && Closed(h)
    requires Carries(h[a := None], q, a, d) && SlotsFor(h[a := None], q, v, x)
    ensures SlotsFor(h, q, HitSlots(h, v, a, d, 0, x), x)
  {
    hide HopSum, Hits, Anc, Acyclic, Closed;
    forall k: nat
      ensures HopSum(h[a := None], q, a, k) == HopSum(h, q, a, k)
    {
      CutKeepsArrivals(h, q, a, k);
    }
    forall j: nat | j < 4
      ensures HopSum(h, q, x, j + 1) == HopSum(h[a := None], q, x, j + 1) + Hits(h, a, x, d, 0, j)
    {
      EdgeWorth(h, q, a, d, x, j);
    }
  }

  /** What a subtree move changes in the weight of a root other than the moved account. */
  lemma {:induction false} HitWeight(g: Graph, q: map<Name, int>, t: SlotTable, a: Name, d: Deltas, x: Name)
    requires t.Keys == g.Keys && Closed(g) && a in g && g[a].Some? && x in g && g[x].None?
    ensures Weight(q, Hit(g, t, a, d, 0), x)
         == Weight(q, t, x) + if RootWithin(g, a, 4) == Some(x) then Share(g, a, d, 0) else 0
  {
    HitsShare(g, a, x, d, 0);
  }

  lemma {:induction false} SumShift(m: map<Name, int>, m': map<Name, int>, at: Option<Name>, c: int)
    requires m'.Keys == m.Keys && (at.Some? ==> at.value in m)
    requires forall x :: x in m && at != Some(x) ==> m'[x] == m[x]
    requires at.Some? ==> m'[at.value] == m[at.value] + c
    ensures Sum(m') == Sum(m) + if at.Some? then c else 0
  {
    if at.Some? {
      forall x | x in m && x != at.value
        ensures m'[x] == m[x]
      {
        assert at != Some(x);
      }
      SumPoint(m, m', at.value);
    } else {
      forall x | x in m
        ensures m'[x] == m[x]
      {
        assert at != Some(x);
      }
      assert m == m';
    }
  }

  lemma {:induction false} HitTerm(g: Graph, cut: Graph, q: map<Name, int>, t: SlotTable, R: Records,
                                   a: Name, d: Deltas, s: Name, x: Name)
    requires t.Keys == g.Keys && Closed(g) && a in g && g[a].Some? && x in g
    requires cut == g[a := None] && (a, s) !in R
    ensures AdoreTerms(cut, q, Hit(g, t, a, d, 0), R, s)[x]
         == AdoreTerms(g, q, t, R, s)[x]
            + if RootWithin(g, a, 4) == Some(x) then Credit(R, Some(x), s, Share(g, a, d, 0)) else 0
  {
    RootAnc(g, a, 4);
    if g[x].None? {
      HitWeight(g, q, t, a, d, x);
    }
  }

  /** Moving the subtree of a proxied account changes each siming's total by the root's share. */
  lemma {:induction false} HitAdores(g: Graph, cut: Graph, q: map<Name, int>, t: SlotTable, R: Records,
                                     a: Name, d: Deltas, s: Name)
    requires t.Keys == g.Keys && Closed(g) && a in g && g[a].Some?
    requires cut == g[a := None] && (a, s) !in R
    ensures Sum(AdoreTerms(cut, q, Hit(g, t, a, d, 0), R, s))
         == Sum(AdoreTerms(g, q, t, R, s)) + Credit(R, RootWithin(g, a, 4), s, Share(g, a, d, 0))
  {
    var m, m', at := AdoreTerms(g, q, t, R, s), AdoreTerms(cut, q, Hit(g, t, a, d, 0), R, s), RootWithin(g, a, 4);
    RootAnc(g, a, 4);
    forall x | x in m
      ensures m'[x] == m[x] + if at.Some? && at.value == x then Credit(R, Some(x), s, Share(g, a, d, 0)) else 0
    {
      HitTerm(g, cut, q, t, R, a, d, s, x);
    }
    SumShift(m, m', at, Credit(R, at, s, Share(g, a, d, 0)));
  }

  ghost function RecordsOf(R: Records, a: Name): Records {
    set r | r in R && r.0 == a
  }

  lemma {:induction false} CutKeepsAcyclic(g: Graph, a: Name, cut: Graph)
    requires a in g && Acyclic(g) && cut == g[a := None]
    ensures Acyclic(cut)
  {
    forall x, k: nat | k > 0 && x in cut
      ensures Anc(cut, x, k) != Some(x)
    {
      AncCut(g, a, x, k);
    }
  }

  lemma {:induction false} DetachCache(g: Graph, q: map<Name, int>, t: SlotTable, a: Name)
    requires Acyclic(g) && Closed(g) && CacheOk(g, q, t) && a in g && a in q && a in t
    ensures CacheOk(g[a := None], q, Hit(g, t, a, Negated(Whole(q[a], t[a])), 0))
  {
    var d := Whole(q[a], t[a]);
    WholeCarries(g, q, t[a], a);
    forall x | x in t
      ensures SlotsFor(g[a := None], q, HitSlots(g, t[x], a, Negated(d), 0, x), x)
    {
      DetachSlots(g, q, t[x], a, d, x);
    }
  }

  lemma {:induction false} DetachAdores(g: Graph, q: map<Name, int>, t: SlotTable, R: Records,
                                        adores: map<Name, int>, a: Name, d: Deltas)
    requires t.Keys == g.Keys && Closed(g) && a in g && g[a].Some?
    requires AdoresOk(g, q, t, R, adores) && RecordsOk(g, R, adores)
    ensures AdoresOk(g[a := None], q, Hit(g, t, a, d, 0), R,
                     Credited(R, adores, RootWithin(g, a, 4), Share(g, a, d, 0)))
  {
    forall s | s in adores
      ensures Sum(AdoreTerms(g[a := None], q, Hit(g, t, a, d, 0), R, s))
           == adores[s] + Credit(R, RootWithin(g, a, 4), s, Share(g, a, d, 0))
    {
      HitAdores(g, g[a := None], q, t, R, a, d, s);
    }
  }

  /** Withdrawing a proxied account's subtree and cutting its edge keeps everything exact. */
  lemma {:induction false} DetachProxied(g: Graph, q: map<Name, int>, t: SlotTable, R: Records,
                                         adores: map<Name, int>, a: Name, d: Deltas)
    requires Consistent(g, q, t, R, adores) && a in g && g[a].Some?
    requires d == Negated(Whole(q[a], t[a]))
    ensures Consistent(g[a := None], q, Hit(g, t, a, d, 0), R,
                       Credited(R, adores, RootWithin(g, a, 4), Share(g, a, d, 0)))
  {
    hide HopSum, AdoreTerms, Hits;
    CutKeepsAcyclic(g, a, g[a := None]);
    DetachCache(g, q, t, a);
    DetachAdores(g, q, t, R, adores, a, d);
  }

  lemma {:induction false} RootHitsNothing(g: Graph, t: SlotTable, a: Name, d: Deltas)
    requires a in g && g[a].None?
    ensures Hit(g, t, a, d, 0) == t
    ensures RootWithin(g, a, 4) == Some(a) && Share(g, a, d, 0) == Prefix(d, 4)
  {
    assert forall x :: x in t ==> HitSlots(g, t[x], a, d, 0, x) == t[x];
  }

  /** A root that drops its own records takes exactly its weight from the simings it adored. */
  lemma {:induction false} DropRecords(g: Graph, q: map<Name, int>, t: SlotTable, R: Records, a: Name, s: Name)
    requires a in g && g[a].None? && q.Keys == g.Keys && t.Keys == g.Keys
    ensures Sum(AdoreTerms(g, q, t, R - RecordsOf(R, a), s))
         == Sum(AdoreTerms(g, q, t, R, s))
            + Credit(R, Some(a), s, Prefix(Negated(Whole(q[a], t[a])), 4))
  {
    PrefixUnfold(Negated(Whole(q[a], t[a])));
    SumPoint(AdoreTerms(g, q, t, R, s), AdoreTerms(g, q, t, R - RecordsOf(R, a), s), a);
  }

  /** The same withdrawal for an account that adores for itself: its records go, its slots stay. */
  lemma {:induction false} DetachRoot(g: Graph, q: map<Name, int>, t: SlotTable, R: Records,
                                      adores: map<Name, int>, a: Name, d: Deltas)
    requires Consistent(g, q, t, R, adores) && a in g && g[a].None?
    requires d == Negated(Whole(q[a], t[a]))
    ensures Consistent(g[a := None], q, Hit(g, t, a, d, 0), R - RecordsOf(R, a),
                       Credited(R, adores, RootWithin(g, a, 4), Share(g, a, d, 0)))
  {
    hide HopSum, Hits;
    hide Sum, AdoreTerms, Share, Hit;
    RootHitsNothing(g, t, a, d);
    assert g[a := None] == g;
    forall s | s in adores
      ensures adores[s] + Credit(R, Some(a), s, Prefix(d, 4))
           == Sum(AdoreTerms(g, q, t, R - RecordsOf(R, a), s))
    {
      DropRecords(g, q, t, R, a, s);
    }
  }

  lemma {:induction false} ConsistentRecords(g: Graph, q: map<Name, int>, t: SlotTable, R: Records, adores: map<Name,
                                             int>)
    requires Consistent(g, q, t, R, adores)
    ensures q.Keys == g.Keys && t.Keys == g.Keys && RecordsOk(g, R, adores)
  {
  }

  lemma {:induction false} NoRecords(g: Graph, R: Records, adores: map<Name, int>, a: Name)
    requires RecordsOk(g, R, adores) && a in g && g[a].Some?
    ensures RecordsOf(R, a) == {} && R - RecordsOf(R, a) == R
  {
  }

  /** Declining adoration or leaving a proxy: withdraw the subtree, drop the records, cut the edge. */
  lemma {:induction false} DetachKeepsConsistent(g: Graph, q: map<Name, int>, t: SlotTable, R: Records,
                                                 adores: map<Name, int>, a: Name, d: Deltas)
    requires Consistent(g, q, t, R, adores) && a in g
    requires d == Negated(Whole(q[a], t[a]))
    ensures Consistent(g[a := None], q, Hit(g, t, a, d, 0), R - RecordsOf(R, a),
                       Credited(R, adores, RootWithin(g, a, 4), Share(g, a, d, 0)))
  {
    hide Consistent, Hit, Share, Credited, RootWithin;
    assert RecordsOk(g, R, adores) by {
      ConsistentRecords(g, q, t, R, adores);
    }
    if g[a].None? {
      DetachRoot(g, q, t, R, adores, a, d);
    } else {
      NoRecords(g, R, adores, a);
      DetachProxied(g, q, t, R, adores, a, d);
    }
  }

  /** The account that moves keeps its own slots. */
  lemma {:induction false} OwnSlotsKept(g: Graph, t: SlotTable, a: Name, d: Deltas)
    requires a in g && a in t && Acyclic(g) && Closed(g)
    ensures Hit(g, t, a, d, 0)[a] == t[a]
  {
    HitsNone(g, a, a, d, 0, 0);
    HitsNone(g, a, a, d, 0, 1);
    HitsNone(g, a, a, d, 0, 2);
    HitsNone(g, a, a, d, 0, 3);
  }

  lemma {:induction false} AttachCache(h: Graph, q: map<Name, int>, t: SlotTable, a: Name)
    requires Acyclic(h) && Closed(h) && a in h && a in q && a in t
    requires CacheOk(h[a := None], q, t)
    ensures CacheOk(h, q, Hit(h, t, a, Whole(q[a], t[a]), 0))
  {
    var d := Whole(q[a], t[a]);
    WholeCarries(h[a := None], q, t[a], a);
    forall x | x in t
      ensures SlotsFor(h, q, HitSlots(h, t[x], a, d, 0, x), x)
    {
      AttachSlots(h, q, t[x], a, d, x);
    }
  }

  /** Putting a recordless root below a new proxy and delivering its subtree keeps everything exact. */
  lemma {:induction false} AttachKeepsConsistent(g: Graph, q: map<Name, int>, t: SlotTable, R: Records,
                                                 adores: map<Name, int>, a: Name, p: Name, h: Graph, d: Deltas)
    requires Consistent(g, q, t, R, adores) && a in g && g[a].None? && RecordsOf(R, a) == {}
    requires p in g && !Reaches(g, p, a) && h == g[a := Some(p)] && d == Whole(q[a], t[a])
    ensures Consistent(h, q, Hit(h, t, a, d, 0), R,
                       Credited(R, adores, RootWithin(h, a, 4), Share(h, a, d, 0)))
  {
    hide HopSum, Hits, Share, AdoreTerms;
    LinkKeepsAcyclic(g, a, p);
    assert h[a := None] == g;
    assert RecordsOk(h, R, Credited(R, adores, RootWithin(h, a, 4), Share(h, a, d, 0))) by {
      forall r | r in R
        ensures r.0 != a
      {
        assert r.0 == a ==> r in RecordsOf(R, a);
      }
    }
    AttachCache(h, q, t, a);
    AttachAdores(h, g, q, t, R, adores, a, d);
  }

  lemma {:induction false} NoRecordNoTerm(h: Graph, cut: Graph, q: map<Name, int>, t: SlotTable, R: Records, a: Name,
                                          s: Name)
    requires a in h && cut == h[a := None] && (a, s) !in R
    ensures AdoreTerms(cut, q, t, R, s) == AdoreTerms(h, q, t, R, s)
  {
    hide Weight;
  }

  lemma {:induction false} AttachAdores(h: Graph, cut: Graph, q: map<Name, int>, t: SlotTable, R: Records,
                                        adores: map<Name, int>, a: Name, d: Deltas)
    requires t.Keys == h.Keys && Closed(h) && a in h && h[a].Some? && cut == h[a := None]
    requires AdoresOk(cut, q, t, R, adores) && RecordsOf(R, a) == {}
    ensures AdoresOk(h, q, Hit(h, t, a, d, 0), R,
                     Credited(R, adores, RootWithin(h, a, 4), Share(h, a, d, 0)))
  {
    hide Sum, Hit, Weight, Share;
    hide AdoreTerms;
    forall s | s in adores
      ensures Sum(AdoreTerms(h, q, Hit(h, t, a, d, 0), R, s))
           == Sum(AdoreTerms(cut, q, t, R, s)) + Credit(R, RootWithin(h, a, 4), s, Share(h, a, d, 0))
    {
      assert (a, s) in R ==> (a, s) in RecordsOf(R, a);
      HitAdores(h, cut, q, t, R, a, d, s);
      NoRecordNoTerm(h, cut, q, t, R, a, s);
      NoRecordNoTerm(h, cut, q, Hit(h, t, a, d, 0), R, a, s);
    }
  }

  /** Adding or removing one adore record moves exactly the adorer's weight to or from one siming. */
  lemma {:induction false} RecordKeepsConsistent(g: Graph, q: map<Name, int>, t: SlotTable, R: Records,
                                                 adores: map<Name, int>, a: Name, s: Name)
    requires Consistent(g, q, t, R, adores) && a in g && g[a].None? && s in adores
    ensures (a, s) !in R ==>
              Consistent(g, q, t, R + {(a, s)}, adores[s := adores[s] + Weight(q, t, a)])
    ensures (a, s) in R ==>
              Consistent(g, q, t, R - {(a, s)}, adores[s := adores[s] - Weight(q, t, a)])
  {
    hide HopSum, Sum, CacheOk, Acyclic, Closed;
    var R' := if (a, s) in R then R - {(a, s)} else R + {(a, s)};
    SumPoint(AdoreTerms(g, q, t, R, s), AdoreTerms(g, q, t, R', s), a);
    forall z | z in adores && z != s
      ensures Sum(AdoreTerms(g, q, t, R', z)) == adores[z]
    {
      assert AdoreTerms(g, q, t, R', z) == AdoreTerms(g, q, t, R, z);
    }
  }

  // ----- The supply check -----

  /** What the supply check counts for x: the weight of a root, the last cache slot of anyone else. */
  ghost function Checked(g: Graph, q: map<Name, int>, t: SlotTable): map<Name, int> {
    map x | x in g :: if g[x].None? then Weight(q, t, x) else if x in t then t[x][3] else 0
  }

  /** What account b contributes to the figure counted for x. */
  ghost function Counted(g: Graph, q: map<Name, int>, x: Name, b: Name): int {
    if x !in g then 0
    else if g[x].None? then if RootWithin(g, b, 4) == Some(x) then Val(q, b) else 0
    else if Anc(g, b, 4) == Some(x) then Val(q, b) else 0
  }

  ghost function CountTable(g: Graph, q: map<Name, int>): map<(Name, Name), int> {
    map x, b | x in g && b in g :: (x, b) := Counted(g, q, x, b)
  }

  lemma {:induction false} SumThree(m0: map<Name, int>, m1: map<Name, int>, m2: map<Name, int>, m: map<Name, int>)
    requires m0.Keys == m.Keys && m1.Keys == m.Keys && m2.Keys == m.Keys
    requires forall x :: x in m ==> m[x] == m0[x] + m1[x] + m2[x]
    ensures Sum(m) == Sum(m0) + Sum(m1) + Sum(m2)
  {
    var s := map x | x in m :: m0[x] + m1[x];
    SumPlus(m0, m1, s);
    forall x | x in m
      ensures m[x] == s[x] + m2[x]
    {
    }
    SumPlus(s, m2, m);
  }

  lemma {:induction false} SumFive(m0: map<Name, int>, m1: map<Name, int>, m2: map<Name, int>,
                                   m3: map<Name, int>, m4: map<Name, int>, m: map<Name, int>)
    requires m0.Keys == m.Keys && m1.Keys == m.Keys && m2.Keys == m.Keys && m3.Keys == m.Keys && m4.Keys == m.Keys
    requires forall x :: x in m ==> m[x] == m0[x] + m1[x] + m2[x] + m3[x] + m4[x]
    ensures Sum(m) == Sum(m0) + Sum(m1) + Sum(m2) + Sum(m3) + Sum(m4)
  {
    hide Sum;
    var s := map x | x in m :: m0[x] + m1[x] + m2[x];
    SumThree(m0, m1, m2, s);
    SumThree(s, m3, m4, m);
  }

  lemma {:induction false} ReachTerm(g: Graph, q: map<Name, int>, x: Name, b: Name)
    requires Closed(g) && x in g && g[x].None? && b in g
    ensures Counted(g, q, x, b)
         == HopTerms(g, q, x, 0)[b] + HopTerms(g, q, x, 1)[b] + HopTerms(g, q, x, 2)[b]
            + HopTerms(g, q, x, 3)[b] + HopTerms(g, q, x, 4)[b]
  {
    RootHits(g, b, x, Val(q, b));
  }

  lemma {:induction false} RowOfCounted(g: Graph, q: map<Name, int>, x: Name)
    requires x in g
    ensures Row(CountTable(g, q), x, g.Keys) == map b | b in g :: Counted(g, q, x, b)
  {
    hide Counted;
  }

  lemma {:induction false} ColumnOfCounted(g: Graph, q: map<Name, int>, b: Name)
    requires b in g
    ensures Column(CountTable(g, q), g.Keys, b) == map x | x in g :: Counted(g, q, x, b)
  {
    hide Counted;
  }

  /** A root's weight is the Qi of every account within four hops below it. */
  lemma {:induction false} WeightIsReach(g: Graph, q: map<Name, int>, v: Slots, x: Name)
    requires Closed(g) && SlotsFor(g, q, v, x) && x in g && g[x].None?
    ensures Val(q, x) + Total(v) == Sum(map b | b in g :: Counted(g, q, x, b))
  {
    hide Sum, Anc, RootWithin;
    HopSumZero(g, q, x);
    var terms := map b | b in g :: Counted(g, q, x, b);
    forall b | b in g
      ensures terms[b]
           == HopTerms(g, q, x, 0)[b] + HopTerms(g, q, x, 1)[b] + HopTerms(g, q, x, 2)[b]
              + HopTerms(g, q, x, 3)[b] + HopTerms(g, q, x, 4)[b]
    {
      ReachTerm(g, q, x, b);
    }
    SumFive(HopTerms(g, q, x, 0), HopTerms(g, q, x, 1), HopTerms(g, q, x, 2), HopTerms(g, q, x, 3),
            HopTerms(g, q, x, 4), terms);
  }

  lemma {:induction false} LongChainHasNoRoot(g: Graph, b: Name, y: Name)
    requires Closed(g) && b in g && RootWithin(g, b, 4).Some? && Anc(g, b, 4) == Some(y)
    ensures y in g && g[y].None?
  {
    RootAnc(g, b, 4);
    var x := RootWithin(g, b, 4).value;
    var k: nat :| k <= 4 && Anc(g, b, k) == Some(x);
    if k < 4 {
      RootOnce(g, b, x, k, 4);
    }
  }

  /** Every account is counted exactly once: at its root, or four hops up a longer chain. */
  lemma {:induction false} CountedOnce(g: Graph, q: map<Name, int>, b: Name)
    requires Closed(g) && b in g
    ensures Sum(map x | x in g :: Counted(g, q, x, b)) == Val(q, b)
  {
    hide Sum;
    RootAnc(g, b, 4);
    var root := RootWithin(g, b, 4);
    var x := if root.Some? then root.value else Anc(g, b, 4).value;
    var terms := map y | y in g :: Counted(g, q, y, b);
    forall y | y in g && y != x
      ensures terms[y] == 0
    {
      if root.Some? && Anc(g, b, 4) == Some(y) {
        LongChainHasNoRoot(g, b, y);
      }
    }
    SumSingle(terms, x);
  }

  lemma {:induction false} CheckedRow(g: Graph, q: map<Name, int>, t: SlotTable, x: Name)
    requires t.Keys == g.Keys && Closed(g) && x in g && SlotsFor(g, q, t[x], x)
    ensures Checked(g, q, t)[x] == Sum(map b | b in g :: Counted(g, q, x, b))
  {
    if g[x].None? {
      hide Sum, HopSum, Counted;
      WeightIsReach(g, q, t[x], x);
    } else {
      hide Sum, Anc;
      assert (map b | b in g :: Counted(g, q, x, b)) == HopTerms(g, q, x, 4);
    }
  }

  lemma {:induction false} CheckedSum(g: Graph, q: map<Name, int>, t: SlotTable, x: Name)
    requires q.Keys == g.Keys && t.Keys == g.Keys && Closed(g) && CacheOk(g, q, t) && x in g
    ensures x in Checked(g, q, t) && Checked(g, q, t)[x] == Sum(Row(CountTable(g, q), x, g.Keys))
  {
    hide Sum, Weight, Counted, CountTable, Row;
    CheckedRow(g, q, t, x);
    RowOfCounted(g, q, x);
  }

  /** The depth-capped weights the supply check adds up total the Qi of all accounts. */
  lemma {:induction false} CheckedTotal(g: Graph, q: map<Name, int>, t: SlotTable)
    requires q.Keys == g.Keys && t.Keys == g.Keys && Closed(g) && CacheOk(g, q, t)
    ensures Sum(Checked(g, q, t)) == Sum(q)
  {
    hide Sum, Weight, Counted, CountTable, Row, Column, Checked, CacheOk, Closed;
    var f := CountTable(g, q);
    CheckedKeys(g, q, t);
    forall x | x in g
      ensures Checked(g, q, t)[x] == Sum(Row(f, x, g.Keys))
    {
      CheckedSum(g, q, t, x);
    }
    assert Checked(g, q, t) == RowSums(f, g.Keys, g.Keys);
    SumSwap(f, g.Keys, g.Keys);
    forall b | b in g
      ensures Sum(Column(f, g.Keys, b)) == q[b]
    {
      CountedOnce(g, q, b);
      ColumnOfCounted(g, q, b);
    }
    assert ColumnSums(f, g.Keys, g.Keys) == q;
  }

  lemma {:induction false} SlotsNonNegative(g: Graph, q: map<Name, int>, v: Slots, x: Name)
    requires SlotsFor(g, q, v, x)
    requires forall a :: a in q ==> q[a] >= 0
    ensures v[0] >= 0 && v[1] >= 0 && v[2] >= 0 && v[3] >= 0
  {
    HopSumNonNegative(g, q, x, 1);
    HopSumNonNegative(g, q, x, 2);
    HopSumNonNegative(g, q, x, 3);
    HopSumNonNegative(g, q, x, 4);
  }

  /** No siming can be adored with more than the total Qi of all accounts. */
  lemma {:induction false} AdorationBounded(g: Graph, q: map<Name, int>, t: SlotTable, R: Records,
                                            adores: map<Name, int>, s: Name)
    requires Consistent(g, q, t, R, adores) && s in adores
    requires forall a :: a in q ==> q[a] >= 0
    ensures 0 <= adores[s] <= Sum(q)
  {
    hide Sum, HopSum;
    forall x | x in g
      ensures 0 <= AdoreTerms(g, q, t, R, s)[x] <= Checked(g, q, t)[x]
    {
      SlotsNonNegative(g, q, t[x], x);
    }
    SumNonNegative(AdoreTerms(g, q, t, R, s));
    SumMonotone(AdoreTerms(g, q, t, R, s), Checked(g, q, t));
    CheckedTotal(g, q, t);
  }

  // ----- Claimed rewards -----

  lemma {:induction false} BumpSlotsTwice(g: Graph, v: Slots, a: Name, d1: int, d2: int, x: Name)
    ensures BumpSlots(g, BumpSlots(g, v, a, d1, 0, x), a, d2, 0, x) == BumpSlots(g, v, a, d1 + d2, 0, x)
  {
    hide Anc;
  }

  lemma {:induction false} BumpedTwice(g: Graph, t: SlotTable, a: Name, d1: int, d2: int)
    ensures Bumped(g, Bumped(g, t, a, d1, 0), a, d2, 0) == Bumped(g, t, a, d1 + d2, 0)
  {
    hide BumpSlots;
    forall x | x in t
      ensures BumpSlots(g, BumpSlots(g, t[x], a, d1, 0, x), a, d2, 0, x) == BumpSlots(g, t[x], a, d1 + d2, 0, x)
    {
      BumpSlotsTwice(g, t[x], a, d1, d2, x);
    }
  }

  lemma {:induction false} CreditedTwice(R: Records, adores: map<Name, int>, root: Option<Name>, d1: int, d2: int)
    ensures Credited(R, Credited(R, adores, root, d1), root, d2) == Credited(R, adores, root, d1 + d2)
  {
  }

  /** A claim tells the chain about more Qi than it creates: the books stay exact if and only if no
      Feigang is claimed, or nobody stands above the account and it adores nobody. */
  lemma {:induction false} ClaimConsistent(g: Graph, q: map<Name, int>, t: SlotTable, R: Records,
                                           adores: map<Name, int>, a: Name, qiPart: nat, feigang: nat)
    requires Consistent(g, q, t, R, adores) && a in g
    ensures var root := RootWithin(g, a, 4);
            Consistent(g, q[a := q[a] + qiPart + feigang],
                       Bumped(g, Bumped(g, t, a, feigang, 0), a, qiPart + feigang, 0), R,
                       Credited(R, Credited(R, adores, root, feigang), root, qiPart + feigang))
            <==> feigang == 0 || (g[a].None? && RecordsOf(R, a) == {})
  {
    hide Consistent, Bumped, Credited, RecordsOf, RootWithin, Anc, HopSum, Sum, CacheOk, AdoresOk, RecordsOk, Closed;
    var root, due := RootWithin(g, a, 4), qiPart + feigang;
    ConsistentShape(g, q, t, R, adores);
    var q1, t1, adores1 := q[a := q[a] + due], Bumped(g, t, a, due, 0), Credited(R, adores, root, due);
    QiChangeKeepsConsistent(g, q, t, R, adores, a, due);
    BumpedTwice(g, t, a, feigang, due);
    BumpedTwice(g, t, a, due, feigang);
    CreditedTwice(R, adores, root, feigang, due);
    CreditedTwice(R, adores, root, due, feigang);
    assert q1 == q[a := q[a] + qiPart + feigang];
    ExcessConsistent(g, q1, t1, R, adores1, a, feigang);
  }

  /** Exact books stay exact under a delta that no Qi backs if and only if it reaches nobody. */
  lemma {:induction false} ExcessConsistent(g: Graph, q: map<Name, int>, t: SlotTable, R: Records,
                                            adores: map<Name, int>, a: Name, excess: nat)
    requires Consistent(g, q, t, R, adores) && a in g
    ensures Consistent(g, q, Bumped(g, t, a, excess, 0), R, Credited(R, adores, RootWithin(g, a, 4), excess))
            <==> excess == 0 || (g[a].None? && RecordsOf(R, a) == {})
  {
    var t', adores' := Bumped(g, t, a, excess, 0), Credited(R, adores, RootWithin(g, a, 4), excess);
    hide HopSum, Sum, AdoreTerms;
    if excess == 0 {
      ExcessNothing(g, t, R, adores, a);
    } else if g[a].Some? {
      ExcessInCache(g, q, t, a, excess);
    } else {
      RootBumpsNothing(g, t, a, excess);
      ExcessInAdores(g, q, t, R, adores, a, excess);
    }
  }

  lemma {:induction false} ExcessNothing(g: Graph, t: SlotTable, R: Records, adores: map<Name, int>, a: Name)
    ensures Bumped(g, t, a, 0, 0) == t
    ensures Credited(R, adores, RootWithin(g, a, 4), 0) == adores
  {
    assert forall x :: x in t ==> BumpSlots(g, t[x], a, 0, 0, x) == t[x];
  }

  lemma {:induction false} RootBumpsNothing(g: Graph, t: SlotTable, a: Name, delta: int)
    requires a in g && g[a].None?
    ensures Bumped(g, t, a, delta, 0) == t && RootWithin(g, a, 4) == Some(a)
  {
    assert forall x :: x in t ==> BumpSlots(g, t[x], a, delta, 0, x) == t[x];
  }

  lemma {:induction false} ExcessInCache(g: Graph, q: map<Name, int>, t: SlotTable, a: Name, excess: int)
    requires Closed(g) && t.Keys == g.Keys && CacheOk(g, q, t) && a in g && g[a].Some? && excess != 0
    ensures !CacheOk(g, q, Bumped(g, t, a, excess, 0))
  {
    hide HopSum;
    var p := g[a].value;
    assert Anc(g, a, 1) == Some(p);
    assert Bumped(g, t, a, excess, 0)[p][0] == t[p][0] + excess;
    assert SlotsFor(g, q, t[p], p);
    assert !SlotsFor(g, q, Bumped(g, t, a, excess, 0)[p], p);
  }

  lemma {:induction false} ExcessInAdores(g: Graph, q: map<Name, int>, t: SlotTable, R: Records,
                                          adores: map<Name, int>, a: Name, excess: int)
    requires Consistent(g, q, t, R, adores)
    ensures Consistent(g, q, t, R, Credited(R, adores, Some(a), excess)) <==> excess == 0 || RecordsOf(R, a) == {}
  {
    hide Sum, AdoreTerms, HopSum;
    var adores' := Credited(R, adores, Some(a), excess);
    if excess == 0 || RecordsOf(R, a) == {} {
      forall s | s in adores
        ensures adores'[s] == adores[s]
      {
        assert (a, s) in R ==> (a, s) in RecordsOf(R, a);
      }
      assert adores' == adores;
    } else {
      var r := Member(RecordsOf(R, a));
      assert r.1 in adores && (a, r.1) == r;
      assert adores'[r.1] == adores[r.1] + excess;
      assert !AdoresOk(g, q, t, R, adores');
    }
  }

  /** The supply check counts an unbacked delta once, wherever the chain ends or is cut off, unless the
      account stands at its own root. */
  lemma {:induction false} ExcessChecked(g: Graph, q: map<Name, int>, t: SlotTable, a: Name, excess: int)
    requires q.Keys == g.Keys && t.Keys == g.Keys && Closed(g) && a in g
    ensures Sum(Checked(g, q, Bumped(g, t, a, excess, 0)))
         == Sum(Checked(g, q, t)) + if g[a].Some? then excess else 0
  {
    hide Sum, Checked, Bumped, Anc;
    if g[a].None? {
      RootBumpsNothing(g, t, a, excess);
    } else {
      var y := EndOfChain(g, a);
      forall x | x in g
        ensures x in Checked(g, q, t) && x in Checked(g, q, Bumped(g, t, a, excess, 0))
        ensures Checked(g, q, Bumped(g, t, a, excess, 0))[x] == Checked(g, q, t)[x] + if x == y then excess else 0
      {
        ExcessAt(g, q, t, a, excess, x, y);
      }
      BumpedKeys(g, t, a, excess, 0);
      CheckedKeys(g, q, t);
      CheckedKeys(g, q, Bumped(g, t, a, excess, 0));
      SumPoint(Checked(g, q, t), Checked(g, q, Bumped(g, t, a, excess, 0)), y);
    }
  }

  /** Where the walk from an account stops: at its root, or at the depth cap. */
  lemma {:induction false} EndOfChain(g: Graph, a: Name) returns (y: Name)
    requires Closed(g) && a in g && g[a].Some?
    ensures y in g
    ensures var root := RootWithin(g, a, 4); if root.Some? then y == root.value else Anc(g, a, 4) == Some(y)
  {
    RootAnc(g, a, 4);
    var root := RootWithin(g, a, 4);
    y := if root.Some? then root.value else Anc(g, a, 4).value;
  }

  lemma {:induction false} CheckedKeys(g: Graph, q: map<Name, int>, t: SlotTable)
    requires q.Keys == g.Keys && t.Keys == g.Keys
    ensures Checked(g, q, t).Keys == g.Keys
  {
  }

  lemma {:induction false} ExcessAt(g: Graph, q: map<Name, int>, t: SlotTable, a: Name, excess: int, x: Name, y: Name)
    requires q.Keys == g.Keys && t.Keys == g.Keys && Closed(g) && a in g && g[a].Some? && x in g
    requires var root := RootWithin(g, a, 4); if root.Some? then y == root.value else Anc(g, a, 4) == Some(y)
    ensures x in Checked(g, q, t) && x in Checked(g, q, Bumped(g, t, a, excess, 0))
    ensures Checked(g, q, Bumped(g, t, a, excess, 0))[x] == Checked(g, q, t)[x] + if x == y then excess else 0
  {
    RootAnc(g, a, 4);
    if g[x].None? {
      RootHits(g, a, x, excess);
    } else if RootWithin(g, a, 4).Some? && Anc(g, a, 4) == Some(x) {
      LongChainHasNoRoot(g, a, x);
    }
  }

  /** After a claim the node's check that the weights add up to the accounts' Qi passes if and only if
      no Feigang was claimed by an account with a proxy. */
  lemma {:induction false} ClaimSupplyCheck(g: Graph, q: map<Name, int>, t: SlotTable, R: Records,
                                            adores: map<Name, int>, a: Name, qiPart: nat, feigang: nat)
    requires Consistent(g, q, t, R, adores) && a in g
    ensures var q' := q[a := q[a] + qiPart + feigang];
            var t' := Bumped(g, Bumped(g, t, a, feigang, 0), a, qiPart + feigang, 0);
            Sum(Checked(g, q', t')) == Sum(q') <==> feigang == 0 || g[a].None?
  {
    hide Sum, Checked, CacheOk, AdoresOk, HopSum, Consistent, Bumped, Credited;
    ConsistentShape(g, q, t, R, adores);
    BumpedKeys(g, t, a, qiPart + feigang, 0);
    var due := qiPart + feigang;
    var q1, t1 := q[a := q[a] + due], Bumped(g, t, a, due, 0);
    QiChangeKeepsConsistent(g, q, t, R, adores, a, due);
    ConsistentShape(g, q1, t1, R, Credited(R, adores, RootWithin(g, a, 4), due));
    BumpedTwice(g, t, a, feigang, due);
    BumpedTwice(g, t, a, due, feigang);
    assert q1 == q[a := q[a] + qiPart + feigang];
    CheckedTotal(g, q1, t1);
    ExcessChecked(g, q1, t1, a, feigang);
  }
}
