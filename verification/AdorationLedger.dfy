/** The node's adoration bookkeeping as it runs: recursive propagation along the proxy chain and the
    operations that start it. */
module AdorationLedger {
  import opened Entities
  import opened Wrappers
  import opened MapSums
  import opened ProxyGraph
  import opened Adoration
  import opened Sets

  /** The rest of an account: may it adore, how many simings it adores, and its unclaimed rewards. */
  datatype Standing = Standing(canAdore: bool, adoredFor: int, rewardQi: int, rewardFeigang: int)

  function Claimed(s: Standing, claimQi: nat, claimFeigang: nat): Standing {
    s.(rewardQi := s.rewardQi - claimQi, rewardFeigang := s.rewardFeigang - claimFeigang)
  }

  /** Each account's counter is the number of its adore records. */
  ghost predicate CountsOk(R: Records, standing: map<Name, Standing>) {
    forall x :: x in standing ==> standing[x].adoredFor == |RecordsOf(R, x)|
  }

  /** The columns of the account table. */
  ghost predicate Columns(g: Graph, qi: map<Name, int>, slots: SlotTable, standing: map<Name, Standing>) {
    qi.Keys == g.Keys && slots.Keys == g.Keys && standing.Keys == g.Keys
  }

  ghost function Named(requests: seq<(int, Name)>): set<Name> {
    set r | r in requests :: r.1
  }

  /** An account adores at most 30 simings. One that may not adore has no proxy and adores none. */
  ghost predicate RightOk(g: Graph, R: Records, s: Standing, a: Name) {
    && |RecordsOf(R, a)| <= MAX_ACCOUNT_SIMING_ADORES
    && (!s.canAdore ==> a in g && g[a].None? && RecordsOf(R, a) == {})
  }

  ghost predicate RightsOk(g: Graph, R: Records, standing: map<Name, Standing>) {
    forall a :: a in standing ==> RightOk(g, R, standing[a], a)
  }

  ghost function CutAll(g: Graph, gone: set<Name>): Graph {
    map x | x in g :: if x in gone then None else g[x]
  }

  ghost function Without(R: Records, gone: set<Name>): Records {
    set r | r in R && r.0 !in gone
  }

  ghost function DeclineAll(standing: map<Name, Standing>, gone: set<Name>): map<Name, Standing> {
    map x | x in standing ::
      if x in gone then standing[x].(canAdore := false, adoredFor := 0) else standing[x]
  }

  /** Nobody has less than no Qi, and the node's total covers all accounts. */
  ghost predicate Backed(qi: map<Name, int>, totalQi: int) {
    (forall a :: a in qi ==> qi[a] >= 0) && Sum(qi) <= totalQi
  }

  /** Every siming that the root adores can gain the delta without having more adores than there is Qi. */
  ghost predicate Room(R: Records, adores: map<Name, int>, root: Option<Name>, delta: int, totalQi: int) {
    root.Some? ==> forall s :: s in adores && (root.value, s) in R ==> adores[s] + delta <= totalQi
  }

  /** The books are exact. */
  ghost predicate Books(g: Graph, qi: map<Name, int>, slots: SlotTable, R: Records, adores: map<Name, int>,
                        standing: map<Name, Standing>, requests: seq<(int, Name)>) {
    && Columns(g, qi, slots, standing) && Closed(g) && CountsOk(R, standing) && Named(requests) <= g.Keys
    && Consistent(g, qi, slots, R, adores)
  }

  class Ledger {
    var proxy: Graph
    var qi: map<Name, int>
    var slots: SlotTable
    var records: Records
    var adores: map<Name, int>
    var standing: map<Name, Standing>
    var declineRequests: seq<(int, Name)>   // by effective date
    var nfaQi: nat                          // what all NFAs have
    var totalQi: int                        // of accounts and NFAs

    ghost predicate Shaped()
      reads this
    {
      && Columns(proxy, qi, slots, standing)
      && Closed(proxy) && CountsOk(records, standing)
      && Named(declineRequests) <= proxy.Keys
    }

    ghost predicate Exact()
      reads this
    {
      Books(proxy, qi, slots, records, adores, standing, declineRequests)
    }

    lemma {:induction false} ExactShape()
      requires Exact()
      ensures Shaped() && Consistent(proxy, qi, slots, records, adores)
      ensures qi.Keys == slots.Keys == standing.Keys == proxy.Keys
      ensures RecordsOk(proxy, records, adores) && forall r :: r in records ==> r.1 in adores
    {
      hide Consistent;
      ConsistentShape(proxy, qi, slots, records, adores);
      RecordsKnown(proxy, records, adores);
    }

    ghost predicate Valid()
      reads this
    {
      Exact() && Backed(qi, totalQi) && Backed(qi, totalQi - nfaQi) && RightsOk(proxy, records, standing)
    }

    /** A node without accounts. */
    constructor ()
      ensures Valid() && proxy == map[] && adores == map[] && nfaQi == 0 && totalQi == 0
    {
      Nothing();
      proxy, qi, slots, records, adores, standing := map[], map[], map[], {}, map[], map[];
      declineRequests, nfaQi, totalQi := [], 0, 0;
    }

    /** A new account has no Qi, no proxy, and nobody's trust. */
    method CreateAccount(a: Name)
      requires Valid() && a !in proxy
      modifies `proxy, `qi, `slots, `standing
      ensures Valid()
      ensures proxy == old(proxy)[a := None] && qi == old(qi)[a := 0]
      ensures standing == old(standing)[a := Standing(true, 0, 0, 0)]
    {
      hide Consistent, Columns, Closed, Named, CountsOk, Backed, RightsOk;
      NewColumns(proxy, qi, slots, standing, records, declineRequests, totalQi, a);
      NewColumns(proxy, qi, slots, standing, records, declineRequests, totalQi - nfaQi, a);
      NewAccount(proxy, qi, slots, records, adores, a);
      NewStanding(proxy, qi, slots, records, adores, standing, a);
      NewRight(proxy, qi, slots, records, adores, standing, a);
      proxy, qi, slots := proxy[a := None], qi[a := 0], slots[a := [0, 0, 0, 0]];
      standing := standing[a := Standing(true, 0, 0, 0)];
    }

    /** A new siming is adored by nobody. */
    method CreateSiming(s: Name)
      requires Valid() && s !in adores
      modifies `adores
      ensures Valid()
      ensures adores == old(adores)[s := 0]
    {
      hide Consistent, Closed, Named, Backed, CountsOk, RightsOk;
      NewSiming(proxy, qi, slots, records, adores, s);
      adores := adores[s := 0];
    }

    /** Credits every siming the account adores, unless that would give one more adores than there is Qi. */
    method AdjustSimingAdores(a: Name, delta: int) returns (ok: bool)
      requires forall r :: r in records ==> r.1 in adores
      modifies `adores
      ensures ok <==> Room(records, old(adores), Some(a), delta, totalQi)
      ensures ok ==> adores == Credited(records, old(adores), Some(a), delta)
      ensures ok <==> forall s :: s in old(adores) && (a, s) in records ==> old(adores)[s] + delta <= totalQi
      ensures ok ==> adores.Keys == old(adores).Keys
                     && forall s :: s in adores ==> adores[s] == old(adores)[s] + if (a, s) in records then delta else 0
    {
      var todo: set<Name> := set s | s in adores && (a, s) in records;
      ghost var all := todo;
      while todo != {}
        invariant todo <= all && adores.Keys == old(adores).Keys
        invariant forall z :: z in old(adores) ==>
                    adores[z] == old(adores)[z] + if z in all - todo then delta else 0
        invariant forall z :: z in all - todo ==> old(adores)[z] + delta <= totalQi
      {
        ghost var w := Member(todo);
        var s :| s in todo;
        adores := adores[s := adores[s] + delta];
        if adores[s] > totalQi {
          assert s in all && old(adores)[s] + delta > totalQi;
          return false;
        }
        todo := todo - {s};
      }
      return true;
    }

    /** A single delta climbs the chain, one slot per hop, to the root's simings. */
    method AdjustProxiedSimingAdores(a: Name, delta: int, depth: nat) returns (ok: bool)
      requires Shaped() && a in proxy && depth <= MAX_PROXY_RECURSION_DEPTH
      requires forall r :: r in records ==> r.1 in adores
      modifies `slots, `adores
      ensures ok <==> Room(records, old(adores), RootWithin(proxy, a, 4 - depth), delta, totalQi)
      ensures ok ==> slots == Bumped(proxy, old(slots), a, delta, depth)
      ensures ok ==> adores == Credited(records, old(adores), RootWithin(proxy, a, 4 - depth), delta)
      decreases MAX_PROXY_RECURSION_DEPTH - depth
    {
      hide Bumped, Credited, Room;
      match proxy[a]
      case Some(p) =>
        if depth >= MAX_PROXY_RECURSION_DEPTH {
          BumpDone(proxy, slots, a, delta, depth);
          CreditNobody(records, adores, delta, totalQi);
          return true;
        }
        var before := slots;
        slots := slots[p := slots[p][depth := slots[p][depth] + delta]];
        BumpStep(proxy, before, slots, a, p, delta, depth);
        ok := AdjustProxiedSimingAdores(p, delta, depth + 1);
      case None =>
        BumpDone(proxy, slots, a, delta, depth);
        ok := AdjustSimingAdores(a, delta);
    }

    /** The array form: entry i of the deltas lands i slots deeper at every hop. */
    method AdjustProxiedSimingAdoresBy(a: Name, d: Deltas, depth: nat) returns (ok: bool)
      requires Shaped() && a in proxy && depth <= MAX_PROXY_RECURSION_DEPTH
      requires forall r :: r in records ==> r.1 in adores
      modifies `slots, `adores
      ensures ok <==> Room(records, old(adores), RootWithin(proxy, a, 4 - depth), Share(proxy, a, d, depth), totalQi)
      ensures ok ==> slots == Hit(proxy, old(slots), a, d, depth)
      ensures ok ==>
        adores == Credited(records, old(adores), RootWithin(proxy, a, 4 - depth), Share(proxy, a, d, depth))
      decreases MAX_PROXY_RECURSION_DEPTH - depth
    {
      hide Hit, Credited, Room;
      match proxy[a]
      case Some(p) =>
        if depth >= MAX_PROXY_RECURSION_DEPTH {
          HitDone(proxy, slots, a, d, depth);
          CreditNobody(records, adores, 0, totalQi);
          return true;
        }
        var before := slots;
        var v: Slots := slots[p];
        var i := MAX_PROXY_RECURSION_DEPTH - depth;
        while i > 0
          invariant 0 <= i <= 4 - depth
          invariant forall j :: 0 <= j < 4 ==>
                      v[j] == slots[p][j] + if j >= i + depth then d[j - depth] else 0
        {
          i := i - 1;
          v := v[i + depth := v[i + depth] + d[i]];
        }
        slots := slots[p := v];
        HitStep(proxy, before, slots, a, p, d, depth);
        ok := AdjustProxiedSimingAdoresBy(p, d, depth + 1);
      case None =>
        HitDone(proxy, slots, a, d, depth);
        var total := 0;
        var i := MAX_PROXY_RECURSION_DEPTH - depth + 1;
        while i > 0
          invariant 0 <= i <= 5 - depth
          invariant total == Prefix(d, 4 - depth) - Prefix(d, i - 1)
        {
          i := i - 1;
          total := total + d[i];
        }
        ok := AdjustSimingAdores(a, total);
    }

    /** Qi comes in or goes out, and the adoration that rests on it follows. */
    method ChangeQi(a: Name, delta: int) returns (ok: bool)
      requires Exact() && a in proxy
      modifies `qi, `slots, `adores
      ensures ok <==> Room(records, old(adores), RootWithin(proxy, a, 4), delta, totalQi)
      ensures ok ==> Exact() && adores == Credited(records, old(adores), RootWithin(proxy, a, 4), delta)
      ensures qi == old(qi)[a := old(qi)[a] + delta]
    {
      hide CacheOk, Consistent, Bumped, Credited, Acyclic, Closed, RootWithin, RecordsOf, Room;
      QiChangeKeepsConsistent(proxy, qi, slots, records, adores, a, delta);
      ConsistentShape(proxy, qi, slots, records, adores);
      qi := qi[a := qi[a] + delta];
      ok := AdjustProxiedSimingAdores(a, delta, 0);
      if ok {
        ConsistentShape(proxy, qi, slots, records, adores);
      }
    }

    /** New Qi comes into the world at an account; the total grows first. */
    method CreateQi(a: Name, amount: nat)
      requires Valid() && a in proxy
      modifies `qi, `slots, `adores, `totalQi
      ensures Valid()
      ensures qi == old(qi)[a := old(qi)[a] + amount] && totalQi == old(totalQi) + amount
    {
      hide CacheOk, Consistent, Bumped, Credited, Acyclic, Closed, RootWithin, RecordsOf, Room, CountsOk, Named,
        Backed, RightsOk;
      QiChangeKeepsConsistent(proxy, qi, slots, records, adores, a, amount);
      BackedMore(qi, totalQi, a, amount);
      BackedMore(qi, totalQi - nfaQi, a, amount);
      assert totalQi - nfaQi + amount == totalQi + amount - nfaQi;
      totalQi := totalQi + amount;
      RoomWithin(proxy, qi[a := qi[a] + amount], Bumped(proxy, slots, a, amount, 0), records, records, adores,
                 RootWithin(proxy, a, 4), amount, totalQi);
      var ok := ChangeQi(a, amount);
    }

    /** A contract pays an account from an NFA. The total stays, and covers the account as it has covered the NFA, so
        the assertion is met. */
    method ReceiveFromNfa(a: Name, amount: nat)
      requires Valid() && a in proxy && amount <= nfaQi
      modifies `qi, `slots, `adores, `nfaQi
      ensures Valid()
      ensures qi == old(qi)[a := old(qi)[a] + amount] && nfaQi == old(nfaQi) - amount
    {
      hide CacheOk, Consistent, Bumped, Credited, Acyclic, Closed, RootWithin, RecordsOf, Room, CountsOk, Named,
        Backed, RightsOk;
      QiChangeKeepsConsistent(proxy, qi, slots, records, adores, a, amount);
      BackedMoved(qi, totalQi, nfaQi, a, amount);
      RoomWithin(proxy, qi[a := qi[a] + amount], Bumped(proxy, slots, a, amount, 0), records, records, adores,
                 RootWithin(proxy, a, 4), amount, totalQi);
      nfaQi := nfaQi - amount;
      var ok := ChangeQi(a, amount);
    }

    /** An account pays an NFA through a contract. */
    method PayToNfa(a: Name, amount: nat)
      requires Valid() && a in proxy && amount <= qi[a]
      modifies `qi, `slots, `adores, `nfaQi
      ensures Valid()
      ensures qi == old(qi)[a := old(qi)[a] - amount] && nfaQi == old(nfaQi) + amount
    {
      hide CacheOk, Consistent, Bumped, Credited, Acyclic, Closed, RootWithin, RecordsOf, Room, CountsOk, Named,
        Backed, RightsOk;
      QiChangeKeepsConsistent(proxy, qi, slots, records, adores, a, 0 - amount);
      BackedMoved(qi, totalQi, nfaQi, a, 0 - amount);
      RoomWithin(proxy, qi[a := qi[a] + (0 - amount)], Bumped(proxy, slots, a, 0 - amount, 0), records, records,
                 adores,
                 RootWithin(proxy, a, 4), 0 - amount, totalQi);
      var ok := ChangeQi(a, 0 - amount);
      nfaQi := nfaQi + amount;
    }

    /** An account rewards another with Feigang: its Qi goes, the adores follow, and then the total. */
    method RewardFeigang(a: Name, amount: nat)
      requires Valid() && a in proxy && amount <= qi[a]
      modifies `qi, `slots, `adores, `totalQi
      ensures Valid()
      ensures qi == old(qi)[a := old(qi)[a] - amount] && totalQi == old(totalQi) - amount
    {
      hide CacheOk, Consistent, Bumped, Credited, Acyclic, Closed, RootWithin, RecordsOf, Room, CountsOk, Named,
        Backed, RightsOk;
      QiChangeKeepsConsistent(proxy, qi, slots, records, adores, a, 0 - amount);
      BackedSpent(qi, totalQi, nfaQi, a, amount);
      RoomWithin(proxy, qi[a := qi[a] + (0 - amount)], Bumped(proxy, slots, a, 0 - amount, 0), records, records,
                 adores,
                 RootWithin(proxy, a, 4), 0 - amount, totalQi);
      var ok := ChangeQi(a, 0 - amount);
      totalQi := totalQi - amount;
    }

    /** The Qi of NFAs goes into or comes out of stakes, resources and Feigang; nobody's adores depend on it. */
    method ChangeNfaQi(delta: int)
      requires Valid() && 0 <= nfaQi + delta
      modifies `nfaQi, `totalQi
      ensures Valid()
      ensures nfaQi == old(nfaQi) + delta && totalQi == old(totalQi) + delta
    {
      hide Consistent, CountsOk, Named, Closed, RightsOk;
      nfaQi, totalQi := nfaQi + delta, totalQi + delta;
    }

    /** Deletes the account's adore records, without touching the simings. */
    method ClearSimingAdores(a: Name)
      requires a in standing
      modifies `records, `standing
      ensures records == old(records) - RecordsOf(old(records), a)
      ensures standing == old(standing)[a := old(standing)[a].(adoredFor := 0)]
    {
      records := set r | r in records && r.0 != a;
      standing := standing[a := standing[a].(adoredFor := 0)];
    }

    /** Withdraws everything a lends, drops its records and cuts its proxy. */
    method Withdraw(a: Name)
      requires Valid() && a in proxy
      modifies `slots, `adores, `records, `standing, `proxy
      ensures Valid()
      ensures proxy == old(proxy)[a := None] && slots[a] == old(slots)[a]
      ensures records == old(records) - RecordsOf(old(records), a)
      ensures standing == old(standing)[a := old(standing)[a].(adoredFor := 0)]
    {
      hide Books, Shaped, RightsOk, Backed, RecordsOf, Room, Whole, Negated, Hit, Credited, Share, RootWithin, Consistent;
      ExactShape();
      var d := Negated(Whole(qi[a], slots[a]));
      BooksWithout(proxy, qi, slots, records, adores, standing, declineRequests, totalQi, a, d);
      RightWithdrawn(proxy, records, standing, a);
      var ok := AdjustProxiedSimingAdoresBy(a, d, 0);
      ClearSimingAdores(a);
      proxy := proxy[a := None];
    }

    /** Carries out one request. */
    method DeclineAdoring(a: Name)
      requires Valid() && a in proxy
      modifies `slots, `adores, `records, `standing, `proxy
      ensures Valid()
      ensures proxy == old(proxy)[a := None]
      ensures records == Without(old(records), {a})
      ensures standing == old(standing)[a := old(standing)[a].(canAdore := false, adoredFor := 0)]
    {
      hide CacheOk, Consistent, Closed, Named, RightsOk;
      Withdraw(a);
      WithoutOne(old(records), a);
      RecordsGoneOne(old(records), a);
      RightDeclined(proxy, records, standing, a);
      standing := standing[a := standing[a].(canAdore := false)];
    }

    /** Carries out every due request to give up adoration, earliest first. */
    method ProcessDeclineAdoringRights(now: int)
      requires Valid()
      modifies `slots, `adores, `records, `standing, `proxy, `declineRequests
      ensures Valid()
      ensures |declineRequests| <= |old(declineRequests)|
      ensures declineRequests == old(declineRequests)[|old(declineRequests)| - |declineRequests|..]
      ensures forall i :: 0 <= i < |old(declineRequests)| - |declineRequests| ==> old(declineRequests)[i].0 <= now
      ensures declineRequests != [] ==> declineRequests[0].0 > now
      ensures var gone := Named(old(declineRequests)[..|old(declineRequests)| - |declineRequests|]);
              && proxy == CutAll(old(proxy), gone)
              && records == Without(old(records), gone)
              && standing == DeclineAll(old(standing), gone)
      ensures forall i :: 0 <= i < |old(declineRequests)| - |declineRequests| ==>
                var a := old(declineRequests)[i].1;
                && a in proxy && proxy[a].None? && a in old(standing)
                && standing[a] == old(standing)[a].(canAdore := false, adoredFor := 0)
                && forall s :: (a, s) !in records
      ensures forall a | a in old(standing) ::
                (forall i :: 0 <= i < |old(declineRequests)| - |declineRequests| ==> old(declineRequests)[i].1 != a) ==> (
                  && a in proxy && proxy[a] == old(proxy)[a] && standing[a] == old(standing)[a]
                  && forall s :: (a, s) in records <==> (a, s) in old(records))
    {
      hide CacheOk, Consistent, CountsOk, Closed, CutAll, Without, DeclineAll, Named, RecordsOf, RightsOk, Backed;
      ghost var k := 0;
      ghost var due := declineRequests;
      NoneGone(proxy, records, standing, due);
      while declineRequests != [] && declineRequests[0].0 <= now
        invariant Valid()
        invariant k <= |due| && declineRequests == due[k..]
        invariant proxy.Keys == old(proxy).Keys && standing.Keys == old(standing).Keys
        invariant forall i :: 0 <= i < k ==> due[i].0 <= now
        invariant proxy == CutAll(old(proxy), Named(due[..k]))
        invariant records == Without(old(records), Named(due[..k]))
        invariant standing == DeclineAll(old(standing), Named(due[..k]))
        decreases |declineRequests|
      {
        var a := declineRequests[0].1;
        NamedRest(due[k..]);
        OneMoreGone(old(proxy), old(records), old(standing), due, k);
        DeclineAdoring(a);
        declineRequests := declineRequests[1..];
        k := k + 1;
      }
      GoneDeclined(old(proxy), old(records), old(standing), due, k);
    }

    /** Walks the chain above a proposed proxy, refusing loops and chains that are too long. */
    method ProxyChainIsClear(a: Name, p: Name) returns (ok: bool)
      requires Closed(proxy) && Acyclic(proxy) && a in proxy && p in proxy && p != a
      ensures ok <==> RootWithin(proxy, p, 2).Some? && !Reaches(proxy, p, a)
    {
      hide RootWithin, Reaches, Acyclic, Anc, Visited, Closed;
      VisitedFirst(proxy, p);
      var chain, c := {a, p}, p;
      ghost var k: nat := 0;
      while proxy[c].Some?
        invariant c in proxy && k <= 2 && Anc(proxy, p, k) == Some(c)
        invariant chain == {a} + Visited(proxy, p, k) && |chain| == k + 2
        invariant forall i: nat :: i <= k ==> Anc(proxy, p, i) != Some(a)
        decreases 3 - k
      {
        var next := proxy[c].value;
        AncNext(proxy, p, k, c);
        if next in chain {
          OnlyLoopIsThroughA(proxy, a, p, k, next);
          return false;
        }
        chain := chain + {next};
        c := next;
        k := k + 1;
        VisitedStep(proxy, p, k);
        if |chain| > MAX_PROXY_RECURSION_DEPTH {
          LongChainHasNoNearRoot(proxy, p, k);
          return false;
        }
      }
      ChainEnds(proxy, a, p, k, c);
      return true;
    }

    /** Changes or clears an account's proxy; a refused change leaves the ledger as it was. */
    method SetProxy(a: Name, p: Option<Name>) returns (ok: bool)
      requires Valid() && a in proxy && p != Some(a)
      modifies `slots, `adores, `records, `standing, `proxy
      ensures Valid()
      ensures ok <==> (
        && old(proxy)[a] != p && old(standing)[a].canAdore
        && (p.Some? ==> (
              && p.value in old(proxy) && RootWithin(old(proxy), p.value, 2).Some?
              && !Reaches(old(proxy), p.value, a))))
      ensures ok ==> proxy == old(proxy)[a := p]
      ensures ok ==> records == Without(old(records), {a})
      ensures ok ==> standing == old(standing)[a := old(standing)[a].(adoredFor := 0)]
      ensures !ok ==> proxy == old(proxy) && records == old(records) && standing == old(standing)
      ensures !ok ==> slots == old(slots) && adores == old(adores)
    {
      hide CacheOk, Consistent, CountsOk, Named, RecordsOf, Hit, Share, Credited, RecordsOk, RightsOk, Backed;
      ConsistentShape(proxy, qi, slots, records, adores);
      if proxy[a] == p || !standing[a].canAdore {
        return false;
      }
      if p.Some? {
        if p.value !in proxy {
          return false;
        }
        var clear := ProxyChainIsClear(a, p.value);
        if !clear {
          return false;
        }
        CutReachesNoMore(proxy, a, p.value, proxy[a := None]);
      }
      ghost var g := proxy;
      WithoutOne(records, a);
      RecordsGoneOne(records, a);
      Withdraw(a);
      if p.Some? {
        Attach(a, p.value);
      }
      assert proxy == g[a := p];
      return true;
    }

    /** Puts a recordless root below p and delivers what it holds. */
    method Attach(a: Name, p: Name)
      requires Valid() && a in proxy && proxy[a].None? && p in proxy
      requires a in standing && standing[a].canAdore && RecordsOf(records, a) == {} && !Reaches(proxy, p, a)
      modifies `slots, `adores, `proxy
      ensures Valid()
      ensures proxy == old(proxy)[a := Some(p)]
    {
      hide CacheOk, Consistent, Hit, Hits, Credited, Share, RootWithin, Acyclic, CountsOk, RecordsOk, Whole;
      hide RecordsOf, Named, Room, Backed, RightsOk;
      RightAttached(proxy, records, standing, a, p);
      ConsistentShape(proxy, qi, slots, records, adores);
      var d := Whole(qi[a], slots[a]);
      var h := proxy[a := Some(p)];
      AttachKeepsConsistent(proxy, qi, slots, records, adores, a, p, h, d);
      RecordsKnown(proxy, records, adores);
      ConsistentShape(h, qi, Hit(h, slots, a, d, 0), records,
                      Credited(records, adores, RootWithin(h, a, 4), Share(h, a, d, 0)));
      RoomWithin(h, qi, Hit(h, slots, a, d, 0), records, records, adores, RootWithin(h, a, 4), Share(h, a, d, 0),
                 totalQi);
      proxy := h;
      var ok := AdjustProxiedSimingAdoresBy(a, d, 0);
    }

    method AddRecord(a: Name, s: Name, weight: int)
      requires a in standing && s in adores && adores[s] + weight <= totalQi
      modifies `adores, `records, `standing
      ensures records == old(records) + {(a, s)} && adores == old(adores)[s := old(adores)[s] + weight]
      ensures standing == old(standing)[a := old(standing)[a].(adoredFor := old(standing)[a].adoredFor + 1)]
    {
      records := records + {(a, s)};
      adores := adores[s := adores[s] + weight];
      standing := standing[a := standing[a].(adoredFor := standing[a].adoredFor + 1)];
    }

    method DropRecord(a: Name, s: Name, weight: int)
      requires a in standing && s in adores && adores[s] - weight <= totalQi
      modifies `adores, `records, `standing
      ensures records == old(records) - {(a, s)} && adores == old(adores)[s := old(adores)[s] - weight]
      ensures standing == old(standing)[a := old(standing)[a].(adoredFor := old(standing)[a].adoredFor - 1)]
    {
      adores := adores[s := adores[s] - weight];
      standing := standing[a := standing[a].(adoredFor := standing[a].adoredFor - 1)];
      records := records - {(a, s)};
    }

    /** Starts or stops adoring one siming. */
    method AdoreSiming(a: Name, s: Name, approve: bool) returns (ok: bool)
      requires Valid() && a in proxy && s in adores
      modifies `adores, `records, `standing
      ensures Valid()
      ensures ok <==> (
        && proxy[a].None? && (approve <==> (a, s) !in old(records))
        && (approve ==> old(standing)[a].canAdore && |RecordsOf(old(records), a)| < MAX_ACCOUNT_SIMING_ADORES))
      ensures ok ==> records == if approve then old(records) + {(a, s)} else old(records) - {(a, s)}
      ensures ok ==> standing == old(standing)[a := old(standing)[a].(adoredFor := |RecordsOf(records, a)|)]
      ensures !ok ==> records == old(records) && adores == old(adores) && standing == old(standing)
    {
      hide Books, Shaped, Consistent, RecordsOf, Backed, RightsOk, RecordsOk;
      ExactShape();
      if proxy[a].Some? || (approve && !standing[a].canAdore) {
        return false;
      }
      var weight := qi[a] + Total(slots[a]);
      BooksRecorded(proxy, qi, slots, records, adores, standing, declineRequests, totalQi, a, s, weight);
      if (a, s) !in records {
        if !approve || standing[a].adoredFor >= MAX_ACCOUNT_SIMING_ADORES {
          return false;
        }
        RightAdded(proxy, records, standing, a, s);
        AddRecord(a, s, weight);
      } else {
        if approve {
          return false;
        }
        RightRemoved(proxy, records, standing, a, s);
        DropRecord(a, s, weight);
      }
      return true;
    }

    /** Turns unclaimed rewards into Qi. The Feigang part is passed up the proxy chain twice, so the
        ledger stays valid if and only if that excess reaches nobody; and once before the total grows, so the
        claim is refused if a siming that the chain's root adores has too many adores for it. */
    method ClaimRewardBalance(a: Name, claimQi: nat, claimFeigang: nat) returns (ok: bool)
      requires Valid() && a in proxy
      modifies `qi, `slots, `adores, `standing, `totalQi
      ensures ok <==>
        && claimQi <= old(standing)[a].rewardQi && claimFeigang <= old(standing)[a].rewardFeigang
        && Room(records, old(adores), RootWithin(proxy, a, 4), claimFeigang, old(totalQi))
      ensures !ok ==> qi == old(qi) && slots == old(slots) && adores == old(adores) && standing == old(standing)
      ensures !ok ==> totalQi == old(totalQi)
      ensures ok ==> qi == old(qi)[a := old(qi)[a] + claimQi + claimFeigang]
      ensures ok ==> totalQi == old(totalQi) + claimQi + claimFeigang
      ensures ok ==> slots == Bumped(proxy, Bumped(proxy, old(slots), a, claimFeigang, 0), a, claimQi + claimFeigang, 0)
      ensures ok ==>
        var had := old(standing)[a];
        standing == old(standing)[a := had.(rewardQi := had.rewardQi - claimQi,
                                            rewardFeigang := had.rewardFeigang - claimFeigang)]
      ensures ok ==> (Valid() <==> claimFeigang == 0 || (proxy[a].None? && RecordsOf(records, a) == {}))
    {
      hide Books, Shaped, RightsOk, Backed, RecordsOf, Room, Bumped, Credited, RootWithin, Claimed, RecordsOk,
        Consistent;
      ExactShape();
      if claimQi > standing[a].rewardQi || claimFeigang > standing[a].rewardFeigang {
        return false;
      }
      BooksClaimed(proxy, qi, slots, records, adores, standing, declineRequests, a, claimQi, claimFeigang);
      RightsIgnoreRewards(proxy, records, standing, a, claimQi, claimFeigang);
      BackedMore(qi, totalQi, a, claimQi + claimFeigang);
      BackedMore(qi, totalQi - nfaQi, a, claimQi + claimFeigang);
      assert totalQi - nfaQi + (claimQi + claimFeigang) == totalQi + claimQi + claimFeigang - nfaQi;
      assert qi[a] + claimQi + claimFeigang == qi[a] + (claimQi + claimFeigang);
      var q, t, w, st := qi, slots, adores, standing;
      PayOut(a, claimQi, claimFeigang);
      ok := PassOnClaim(a, claimQi, claimFeigang);
      if !ok {
        qi, slots, adores, standing := q, t, w, st;   // the operation's changes are undone
      }
    }

    method PayOut(a: Name, claimQi: nat, claimFeigang: nat)
      requires Shaped() && a in proxy
      modifies `qi, `standing
      ensures Shaped()
      ensures qi == old(qi)[a := old(qi)[a] + claimQi + claimFeigang]
      ensures standing == old(standing)[a := Claimed(old(standing)[a], claimQi, claimFeigang)]
    {
      hide CountsOk, Closed, Named;
      CountsIgnoreRewards(records, standing, a, Claimed(standing[a], claimQi, claimFeigang));
      standing := standing[a := Claimed(standing[a], claimQi, claimFeigang)];
      qi := qi[a := qi[a] + claimQi];
      qi := qi[a := qi[a] + claimFeigang];
    }

    /** The two propagations of a claim, and the total in between. */
    method PassOnClaim(a: Name, claimQi: nat, claimFeigang: nat) returns (ok: bool)
      requires Shaped() && a in proxy && RecordsOk(proxy, records, adores)
      modifies `slots, `adores, `totalQi
      ensures ok <==> Room(records, old(adores), RootWithin(proxy, a, 4), claimFeigang, old(totalQi))
      ensures ok ==> slots == Bumped(proxy, Bumped(proxy, old(slots), a, claimFeigang, 0), a, claimQi + claimFeigang, 0)
      ensures ok ==> adores == Credited(records, Credited(records, old(adores), RootWithin(proxy, a, 4), claimFeigang),
                                        RootWithin(proxy, a, 4), claimQi + claimFeigang)
      ensures ok ==> slots.Keys == old(slots).Keys
      ensures totalQi == if ok then old(totalQi) + claimQi + claimFeigang else old(totalQi)
    {
      hide CountsOk, Named, Bumped, Credited, RootWithin, Room;
      ghost var root := RootWithin(proxy, a, 4);
      RecordsKnown(proxy, records, adores);
      BumpedKeys(proxy, slots, a, claimFeigang, 0);
      BumpedKeys(proxy, Bumped(proxy, slots, a, claimFeigang, 0), a, claimQi + claimFeigang, 0);
      CreditedKeys(records, adores, root, claimFeigang);
      RoomAgain(records, adores, root, claimFeigang, claimQi, totalQi);
      ok := AdjustProxiedSimingAdores(a, claimFeigang, 0);
      if !ok {
        return;
      }
      totalQi := totalQi + claimQi + claimFeigang;
      ok := AdjustProxiedSimingAdores(a, claimQi + claimFeigang, 0);
    }

    /** The Qi that a withdrawal's routes pay to other accounts. The receivers are credited before the
        sender is charged, so a siming can run into the total on the way. */
    method VestRoutes(deposits: seq<(Name, nat)>) returns (ok: bool)
      requires Exact() && ToAccounts(deposits, proxy.Keys) && forall s :: s in adores ==> adores[s] <= totalQi
      modifies `qi, `slots, `adores
      ensures ok <==> AllArrive(proxy, records, old(adores), deposits, totalQi)
      ensures ok ==> Exact() && qi == Deposited(old(qi), deposits)
    {
      hide CacheOk, Consistent, RootWithin, Named, RecordsOf, Closed, CountsOk, Room, Credited, Arrived, AllArrive,
        Acyclic,
        Deposited, ToAccounts;
      ghost var first, q := adores, qi;
      var i := 0;
      ArrivedNone(proxy, records, first, deposits, totalQi);
      DepositedNone(q, deposits);
      while i < |deposits|
        invariant 0 <= i <= |deposits| && Exact() && qi == Deposited(q, deposits[..i])
        invariant Arrived(proxy, records, first, adores, deposits[..i], totalQi)
      {
        var (to, amount) := deposits[i];
        ArrivedStep(proxy, records, first, adores, deposits, i, totalQi);
        DepositedStep(q, deposits, i);
        if amount > 0 {
          var room := ChangeQi(to, amount);
          if !room {
            return false;
          }
        }
        i := i + 1;
      }
      assert deposits[..i] == deposits;
      ArrivedAll(proxy, records, first, adores, deposits, totalQi);
      return true;
    }

    /** A withdrawal's effect on Qi and adores: the routes that pay in Qi, then the sender. It goes through
        exactly if no siming runs into the total while receivers are credited. */
    method WithdrawQi(from: Name, amount: nat, deposits: seq<(Name, nat)>) returns (ok: bool)
      requires Valid() && from in proxy && amount <= qi[from]
      requires ToAccounts(deposits, proxy.Keys) && DepositSum(deposits) <= amount
      modifies `qi, `slots, `adores, `totalQi
      ensures ok <==> AllArrive(proxy, records, old(adores), deposits, old(totalQi))
      ensures Valid()
      ensures ok ==> qi == Deposited(old(qi), deposits)[from := Deposited(old(qi), deposits)[from] - amount]
      ensures ok ==> totalQi == old(totalQi) - (amount - DepositSum(deposits))
      ensures !ok ==> qi == old(qi) && slots == old(slots) && adores == old(adores) && totalQi == old(totalQi)
    {
      hide Books, Shaped, RightsOk, Backed, RecordsOf, Room, Credited, RootWithin, Consistent, AllArrive, Deposited,
        DepositSum, ToAccounts;
      ExactShape();
      AllFit(proxy, qi, slots, records, adores, totalQi);
      DepositsBacked(qi, totalQi, deposits, from, amount);
      DepositsBacked(qi, totalQi - nfaQi, deposits, from, amount);
      assert totalQi - nfaQi - (amount - DepositSum(deposits)) == totalQi - (amount - DepositSum(deposits)) - nfaQi;
      var q, t, w := qi, slots, adores;
      ok := VestRoutes(deposits);
      if !ok {
        qi, slots, adores := q, t, w;   // the block's changes are undone
        return;
      }
      totalQi := totalQi - (amount - DepositSum(deposits));
      ExactShape();
      RoomToCharge(proxy, qi, slots, records, adores, from, amount, totalQi);
      if amount > 0 {
        ok := ChangeQi(from, 0 - amount);
      } else {
        assert qi == qi[from := qi[from] - amount];
      }
    }
  }

  /** The books without what an account lends. */
  lemma {:induction false} BooksWithout(g: Graph, qi: map<Name, int>, slots: SlotTable, R: Records,
                                        adores: map<Name, int>, standing: map<Name, Standing>,
                                        requests: seq<(int, Name)>, totalQi: int, a: Name, d: Deltas)
    requires Books(g, qi, slots, R, adores, standing, requests) && Backed(qi, totalQi) && a in g
    requires d == Negated(Whole(qi[a], slots[a]))
    ensures a in standing && a in Hit(g, slots, a, d, 0) && Hit(g, slots, a, d, 0)[a] == slots[a]
    ensures Room(R, adores, RootWithin(g, a, 4), Share(g, a, d, 0), totalQi)
    ensures Books(g[a := None], qi, Hit(g, slots, a, d, 0), R - RecordsOf(R, a),
                  Credited(R, adores, RootWithin(g, a, 4), Share(g, a, d, 0)),
                  standing[a := standing[a].(adoredFor := 0)], requests)
  {
    hide CacheOk, Consistent, Hit, Hits, Credited, Share, RootWithin, Acyclic, CountsOk, RecordsOk, Whole, Negated;
    hide RecordsOf, Named, Closed, Room, Backed;
    ConsistentShape(g, qi, slots, R, adores);
    DetachKeepsConsistent(g, qi, slots, R, adores, a, d);
    OwnSlotsKept(g, slots, a, d);
    RecordsGone(R, a, standing);
    RoomWithin(g[a := None], qi, Hit(g, slots, a, d, 0), R, R - RecordsOf(R, a), adores, RootWithin(g, a, 4),
               Share(g, a, d, 0), totalQi);
    ConsistentShape(g[a := None], qi, Hit(g, slots, a, d, 0), R - RecordsOf(R, a),
                    Credited(R, adores, RootWithin(g, a, 4), Share(g, a, d, 0)));
  }

  /** The books after a claim are exact if and only if its excess reaches nobody. */
  lemma {:induction false} BooksClaimed(g: Graph, qi: map<Name, int>, slots: SlotTable, R: Records,
                                        adores: map<Name, int>, standing: map<Name, Standing>,
                                        requests: seq<(int, Name)>, a: Name, claimQi: nat, claimFeigang: nat)
    requires Books(g, qi, slots, R, adores, standing, requests) && a in g
    ensures a in standing && a in qi
    ensures var root, due := RootWithin(g, a, 4), claimQi + claimFeigang;
            Books(g, qi[a := qi[a] + claimQi + claimFeigang],
                  Bumped(g, Bumped(g, slots, a, claimFeigang, 0), a, due, 0), R,
                  Credited(R, Credited(R, adores, root, claimFeigang), root, due),
                  standing[a := Claimed(standing[a], claimQi, claimFeigang)], requests)
            <==> claimFeigang == 0 || (g[a].None? && RecordsOf(R, a) == {})
  {
    hide CacheOk, Consistent, CountsOk, Closed, Acyclic, Named, RecordsOf, Bumped, Credited, RootWithin, RecordsOk;
    ConsistentShape(g, qi, slots, R, adores);
    ClaimConsistent(g, qi, slots, R, adores, a, claimQi, claimFeigang);
    CountsIgnoreRewards(R, standing, a, Claimed(standing[a], claimQi, claimFeigang));
    BumpedKeys(g, slots, a, claimFeigang, 0);
    BumpedKeys(g, Bumped(g, slots, a, claimFeigang, 0), a, claimQi + claimFeigang, 0);
  }

  /** The books with one record more or fewer. */
  lemma {:induction false} BooksRecorded(g: Graph, qi: map<Name, int>, slots: SlotTable, R: Records,
                                         adores: map<Name, int>, standing: map<Name, Standing>,
                                         requests: seq<(int, Name)>, totalQi: int, a: Name, s: Name, weight: int)
    requires Books(g, qi, slots, R, adores, standing, requests) && Backed(qi, totalQi)
    requires a in g && g[a].None? && s in adores && a in qi && a in slots && weight == qi[a] + Total(slots[a])
    ensures a in standing && standing[a].adoredFor == |RecordsOf(R, a)|
    ensures (a, s) !in R ==>
      var now := standing[a].(adoredFor := standing[a].adoredFor + 1);
      && adores[s] + weight <= totalQi && |RecordsOf(R + {(a, s)}, a)| == now.adoredFor
      && Books(g, qi, slots, R + {(a, s)}, adores[s := adores[s] + weight], standing[a := now], requests)
    ensures (a, s) in R ==>
      var now := standing[a].(adoredFor := standing[a].adoredFor - 1);
      && adores[s] - weight <= totalQi && |RecordsOf(R - {(a, s)}, a)| == now.adoredFor
      && Books(g, qi, slots, R - {(a, s)}, adores[s := adores[s] - weight], standing[a := now], requests)
  {
    hide CacheOk, Consistent, CountsOk, Closed, Acyclic, Named, RecordsOf, Backed;
    RecordKeepsConsistent(g, qi, slots, R, adores, a, s);
    CountAt(R, standing, a);
    if (a, s) !in R {
      var now := standing[a].(adoredFor := standing[a].adoredFor + 1);
      RecordAdded(R, a, s, standing);
      CountAt(R + {(a, s)}, standing[a := now], a);
      Fits(g, qi, slots, R + {(a, s)}, adores[s := adores[s] + weight], totalQi, s);
    } else {
      var now := standing[a].(adoredFor := standing[a].adoredFor - 1);
      RecordRemoved(R, a, s, standing);
      CountAt(R - {(a, s)}, standing[a := now], a);
      Fits(g, qi, slots, R - {(a, s)}, adores[s := adores[s] - weight], totalQi, s);
    }
  }

  lemma {:induction false} RoomToCharge(g: Graph, qi: map<Name, int>, slots: SlotTable, R: Records,
                                        adores: map<Name, int>, from: Name, amount: nat, totalQi: int)
    requires Consistent(g, qi, slots, R, adores) && from in g && from in qi
    requires Backed(qi[from := qi[from] - amount], totalQi)
    ensures Room(R, adores, RootWithin(g, from, 4), 0 - amount, totalQi)
  {
    hide Consistent, Bumped, Credited, RootWithin, Room, Backed;
    QiChangeKeepsConsistent(g, qi, slots, R, adores, from, 0 - amount);
    assert qi[from] + (0 - amount) == qi[from] - amount;
    RoomWithin(g, qi[from := qi[from] - amount], Bumped(g, slots, from, 0 - amount, 0), R, R, adores,
               RootWithin(g, from, 4), 0 - amount, totalQi);
  }

  // ----- Room below the total -----

  /** What the deposits bring to a siming. */
  ghost function Arriving(g: Graph, R: Records, deposits: seq<(Name, nat)>, s: Name): nat {
    if deposits == [] then 0 else
      var last := deposits[|deposits| - 1];
      Arriving(g, R, deposits[..|deposits| - 1], s) + Credit(R, RootWithin(g, last.0, 4), s, last.1)
  }

  function Deposited(qi: map<Name, int>, deposits: seq<(Name, nat)>): (after: map<Name, int>)
    ensures after.Keys == qi.Keys
  {
    if deposits == [] then qi else
      var last := deposits[|deposits| - 1];
      var before := Deposited(qi, deposits[..|deposits| - 1]);
      if last.0 in before then before[last.0 := before[last.0] + last.1] else before
  }

  ghost predicate ToAccounts(deposits: seq<(Name, nat)>, accounts: set<Name>) {
    forall i :: 0 <= i < |deposits| ==> deposits[i].0 in accounts
  }

  function DepositSum(deposits: seq<(Name, nat)>): nat {
    if deposits == [] then 0 else DepositSum(deposits[..|deposits| - 1]) + deposits[|deposits| - 1].1
  }

  lemma {:induction false} Fits(g: Graph, q: map<Name, int>, t: SlotTable, R: Records, adores: map<Name, int>,
                                totalQi: int,
                                s: Name)
    requires Consistent(g, q, t, R, adores) && Backed(q, totalQi) && s in adores
    ensures adores[s] <= totalQi
  {
    hide Consistent, Sum;
    AdorationBounded(g, q, t, R, adores, s);
  }

  lemma {:induction false} AllFit(g: Graph, q: map<Name, int>, t: SlotTable, R: Records, adores: map<Name, int>,
                                  totalQi: int)
    requires Consistent(g, q, t, R, adores) && Backed(q, totalQi)
    ensures forall s :: s in adores ==> adores[s] <= totalQi
  {
    hide Consistent, Sum, Backed;
    forall s | s in adores
      ensures adores[s] <= totalQi
    {
      Fits(g, q, t, R, adores, totalQi, s);
    }
  }

  /** A propagation that leads to exact books below the total has room. */
  lemma {:induction false} RoomWithin(g: Graph, q: map<Name, int>, t: SlotTable, R: Records, R': Records,
                                      adores: map<Name, int>, root: Option<Name>, delta: int, totalQi: int)
    requires Consistent(g, q, t, R', Credited(R, adores, root, delta)) && Backed(q, totalQi)
    ensures Room(R, adores, root, delta, totalQi)
  {
    hide Consistent, Backed;
    AllFit(g, q, t, R', Credited(R, adores, root, delta), totalQi);
    if root.Some? {
      forall s | s in adores && (root.value, s) in R
        ensures adores[s] + delta <= totalQi
      {
        assert Credited(R, adores, root, delta)[s] == adores[s] + delta;
      }
    }
  }

  /** The second propagation of a claim has room exactly if the first had. */
  lemma {:induction false} RoomAgain(R: Records, adores: map<Name, int>, root: Option<Name>, feigang: nat,
                                     qiPart: nat,
                                     totalQi: int)
    ensures Room(R, Credited(R, adores, root, feigang), root, qiPart + feigang, totalQi + qiPart + feigang)
      <==> Room(R, adores, root, feigang, totalQi)
  {
    var credited := Credited(R, adores, root, feigang);
    if root.Some? {
      assert forall s :: s in adores && (root.value, s) in R ==> credited[s] == adores[s] + feigang;
    }
  }

  /** No siming ends with more adores than there is Qi. */
  ghost predicate AllArrive(g: Graph, R: Records, adores: map<Name, int>, deposits: seq<(Name, nat)>, totalQi: int) {
    forall s :: s in adores ==> adores[s] + Arriving(g, R, deposits, s) <= totalQi
  }

  /** The deposits have been credited. */
  ghost predicate Arrived(g: Graph, R: Records, first: map<Name, int>, now: map<Name, int>, deposits: seq<(Name, nat)>,
                          totalQi: int) {
    now.Keys == first.Keys
    && forall s :: s in now ==> now[s] == first[s] + Arriving(g, R, deposits, s) && now[s] <= totalQi
  }

  lemma {:induction false} ArrivedNone(g: Graph, R: Records, first: map<Name, int>, deposits: seq<(Name, nat)>,
                                       totalQi: int)
    requires forall s :: s in first ==> first[s] <= totalQi
    ensures deposits[..0] == [] && Arrived(g, R, first, first, deposits[..0], totalQi)
  {
  }

  lemma {:induction false} DepositedNone(qi: map<Name, int>, deposits: seq<(Name, nat)>)
    ensures deposits[..0] == [] && Deposited(qi, deposits[..0]) == qi
  {
  }

  lemma {:induction false} DepositedStep(qi: map<Name, int>, deposits: seq<(Name, nat)>, i: nat)
    requires i < |deposits| && ToAccounts(deposits, qi.Keys)
    ensures deposits[i].0 in qi
    ensures var before := Deposited(qi, deposits[..i]); var (to, amount) := deposits[i];
            Deposited(qi, deposits[..i + 1]) == before[to := before[to] + amount]
    ensures deposits[i].1 == 0 ==> Deposited(qi, deposits[..i + 1]) == Deposited(qi, deposits[..i])
  {
    assert deposits[..i + 1][..i] == deposits[..i];
    assert deposits[..i + 1][i] == deposits[i];
  }

  lemma {:induction false} ArrivedAll(g: Graph, R: Records, first: map<Name, int>, now: map<Name, int>,
                                      deposits: seq<(Name, nat)>, totalQi: int)
    requires Arrived(g, R, first, now, deposits, totalQi)
    ensures AllArrive(g, R, first, deposits, totalQi)
  {
  }

  /** One more deposit is credited if there is room; if there is none, it is too much for some siming. */
  lemma {:induction false} ArrivedStep(g: Graph, R: Records, first: map<Name, int>, now: map<Name, int>,
                                       deposits: seq<(Name, nat)>, i: nat, totalQi: int)
    requires i < |deposits| && Arrived(g, R, first, now, deposits[..i], totalQi)
    ensures deposits[..i + 1][..i] == deposits[..i]
    ensures var (to, amount) := deposits[i]; var root := RootWithin(g, to, 4);
            && (amount == 0 ==> Arrived(g, R, first, now, deposits[..i + 1], totalQi))
            && (Room(R, now, root, amount, totalQi) ==>
                  Arrived(g, R, first, Credited(R, now, root, amount), deposits[..i + 1], totalQi))
            && (!Room(R, now, root, amount, totalQi) ==> !AllArrive(g, R, first, deposits, totalQi))
  {
    hide RootWithin;
    var root := RootWithin(g, deposits[i].0, 4);
    assert deposits[..i + 1][..i] == deposits[..i];
    if !Room(R, now, root, deposits[i].1, totalQi) {
      var s :| s in now && (root.value, s) in R && now[s] + deposits[i].1 > totalQi;
      ArrivingMore(g, R, deposits, i + 1, s);
    }
  }

  lemma {:induction false} ArrivingMore(g: Graph, R: Records, deposits: seq<(Name, nat)>, i: nat, s: Name)
    requires i <= |deposits|
    ensures Arriving(g, R, deposits[..i], s) <= Arriving(g, R, deposits, s)
    decreases |deposits|
  {
    hide RootWithin;
    if i < |deposits| {
      var rest := deposits[..|deposits| - 1];
      assert rest[..i] == deposits[..i];
      ArrivingMore(g, R, rest, i, s);
    } else {
      assert deposits[..i] == deposits;
    }
  }

  lemma {:induction false} BackedMore(qi: map<Name, int>, totalQi: int, a: Name, amount: nat)
    requires Backed(qi, totalQi) && a in qi
    ensures Backed(qi[a := qi[a] + amount], totalQi + amount)
  {
    hide Sum;
    SumPoint(qi, qi[a := qi[a] + amount], a);
  }

  /** Qi that moves between an account and the NFAs stays covered. */
  lemma {:induction false} BackedMoved(qi: map<Name, int>, totalQi: int, nfaQi: nat, a: Name, delta: int)
    requires Backed(qi, totalQi - nfaQi) && a in qi && delta <= nfaQi && (delta >= 0 || 0 <= qi[a] + delta)
    ensures var q := qi[a := qi[a] + delta]; Backed(q, totalQi) && Backed(q, totalQi - (nfaQi - delta))
  {
    hide Sum;
    SumPoint(qi, qi[a := qi[a] + delta], a);
  }

  lemma {:induction false} BackedSpent(qi: map<Name, int>, totalQi: int, nfaQi: nat, a: Name, amount: nat)
    requires Backed(qi, totalQi - nfaQi) && a in qi && amount <= qi[a]
    ensures var q := qi[a := qi[a] + (0 - amount)];
            Backed(q, totalQi) && Backed(q, totalQi - amount) && Backed(q, totalQi - amount - nfaQi)
  {
    hide Sum;
    SumPoint(qi, qi[a := qi[a] + (0 - amount)], a);
  }

  lemma {:induction false} DepositsSum(qi: map<Name, int>, deposits: seq<(Name, nat)>)
    requires ToAccounts(deposits, qi.Keys)
    ensures Sum(Deposited(qi, deposits)) == Sum(qi) + DepositSum(deposits)
    ensures forall x :: x in qi ==> Deposited(qi, deposits)[x] >= qi[x]
  {
    hide Sum;
    if deposits != [] {
      var n := |deposits| - 1;
      DepositsSum(qi, deposits[..n]);
      assert deposits[n].0 in qi;
      SumPoint(Deposited(qi, deposits[..n]), Deposited(qi, deposits), deposits[n].0);
    }
  }

  /** After the sender is charged, the total still covers the accounts. */
  lemma {:induction false} DepositsBacked(qi: map<Name, int>, totalQi: int, deposits: seq<(Name, nat)>, from: Name,
                                          amount: nat)
    requires Backed(qi, totalQi) && from in qi && amount <= qi[from] && ToAccounts(deposits, qi.Keys)
    ensures var q := Deposited(qi, deposits);
            Backed(q[from := q[from] - amount], totalQi - (amount - DepositSum(deposits)))
  {
    hide Sum, ToAccounts;
    var q := Deposited(qi, deposits);
    DepositsSum(qi, deposits);
    SumPoint(q, q[from := q[from] - amount], from);
  }

  // ----- New accounts and simings -----

  lemma {:induction false} Nothing()
    ensures Consistent(map[], map[], map[], {}, map[]) && Backed(map[], 0)
    ensures CountsOk({}, map[]) && Closed(map[]) && Named([]) == {} && RightsOk(map[], {}, map[])
  {
  }

  lemma {:induction false} SumNew(qi: map<Name, int>, a: Name)
    requires a !in qi
    ensures Sum(qi[a := 0]) == Sum(qi)
  {
    SumRemove(qi[a := 0], a);
    assert qi[a := 0] - {a} == qi;
  }

  lemma {:induction false} NewColumns(g: Graph, qi: map<Name, int>, slots: SlotTable, standing: map<Name, Standing>,
                                      R: Records,
                                      requests: seq<(int, Name)>, totalQi: int, a: Name)
    requires Columns(g, qi, slots, standing) && Closed(g) && Backed(qi, totalQi) && a !in g && Named(requests) <= g.Keys
    ensures Columns(g[a := None], qi[a := 0], slots[a := [0, 0, 0, 0]], standing[a := Standing(true, 0, 0, 0)])
    ensures Closed(g[a := None]) && Backed(qi[a := 0], totalQi) && Named(requests) <= g[a := None].Keys
  {
    hide Sum, Named;
    SumNew(qi, a);
  }

  lemma {:induction false} NewStanding(g: Graph, q: map<Name, int>, t: SlotTable, R: Records, adores: map<Name, int>,
                                       standing: map<Name, Standing>, a: Name)
    requires CountsOk(R, standing) && Consistent(g, q, t, R, adores) && a !in g
    ensures CountsOk(R, standing[a := Standing(true, 0, 0, 0)])
  {
    hide CacheOk, AdoresOk, Acyclic, Closed;
    assert RecordsOf(R, a) == {};
  }

  lemma {:induction false} NewRight(g: Graph, q: map<Name, int>, t: SlotTable, R: Records, adores: map<Name, int>,
                                    standing: map<Name, Standing>, a: Name)
    requires RightsOk(g, R, standing) && Consistent(g, q, t, R, adores) && a !in g
    ensures RightsOk(g[a := None], R, standing[a := Standing(true, 0, 0, 0)])
  {
    hide CacheOk, AdoresOk, Acyclic, Closed;
    assert RecordsOf(R, a) == {};
    assert forall x :: x in standing ==> RightOk(g, R, standing[x], x);
  }

  lemma {:induction false} NewSiming(g: Graph, q: map<Name, int>, t: SlotTable, R: Records, adores: map<Name, int>,
                                     s: Name)
    requires Consistent(g, q, t, R, adores) && s !in adores
    ensures Consistent(g, q, t, R, adores[s := 0])
  {
    hide HopSum, Sum;
    SumZero(AdoreTerms(g, q, t, R, s));
  }

  /** The chains of the other accounts do not see a new account. */
  lemma {:induction false} NewAnc(g: Graph, a: Name, x: Name, k: nat)
    requires Closed(g) && a !in g
    ensures x != a ==> Anc(g[a := None], x, k) == Anc(g, x, k)
    ensures Anc(g[a := None], a, k) == if k == 0 then Some(a) else None
    ensures Anc(g, x, k) != Some(a)
    decreases k
  {
    if k > 0 && x in g && g[x].Some? {
      NewAnc(g, a, g[x].value, k - 1);
    }
  }

  lemma {:induction false} NewHopSum(g: Graph, q: map<Name, int>, a: Name, x: Name, k: nat)
    requires Closed(g) && a !in g && q.Keys == g.Keys
    ensures HopSum(g[a := None], q[a := 0], x, k) == HopSum(g, q, x, k)
    ensures HopSum(g, q, a, k) == 0
  {
    hide Sum, Anc;
    var h, r := g[a := None], q[a := 0];
    forall b | b in g
      ensures Anc(h, b, k) == Anc(g, b, k) && Anc(g, b, k) != Some(a)
    {
      NewAnc(g, a, b, k);
    }
    assert HopTerms(h, r, x, k) == HopTerms(g, q, x, k)[a := 0];
    SumNew(HopTerms(g, q, x, k), a);
    SumZero(HopTerms(g, q, a, k));
  }

  lemma {:induction false} NewCache(g: Graph, q: map<Name, int>, t: SlotTable, a: Name)
    requires Closed(g) && a !in g && q.Keys == g.Keys && t.Keys == g.Keys && CacheOk(g, q, t)
    ensures CacheOk(g[a := None], q[a := 0], t[a := [0, 0, 0, 0]])
  {
    hide HopSum;
    var t' := t[a := [0, 0, 0, 0]];
    forall x | x in t'
      ensures SlotsFor(g[a := None], q[a := 0], t'[x], x)
    {
      NewHopSum(g, q, a, x, 1);
      NewHopSum(g, q, a, x, 2);
      NewHopSum(g, q, a, x, 3);
      NewHopSum(g, q, a, x, 4);
      assert x != a ==> SlotsFor(g, q, t[x], x);
    }
  }

  lemma {:induction false} NewAdores(g: Graph, q: map<Name, int>, t: SlotTable, R: Records, adores: map<Name, int>,
                                     a: Name, s: Name)
    requires a !in g && q.Keys == g.Keys && t.Keys == g.Keys && RecordsOk(g, R, adores)
    ensures Sum(AdoreTerms(g[a := None], q[a := 0], t[a := [0, 0, 0, 0]], R, s)) == Sum(AdoreTerms(g, q, t, R, s))
  {
    hide Sum;
    assert AdoreTerms(g[a := None], q[a := 0], t[a := [0, 0, 0, 0]], R, s) == AdoreTerms(g, q, t, R, s)[a := 0];
    SumNew(AdoreTerms(g, q, t, R, s), a);
  }

  lemma {:induction false} NewAccount(g: Graph, q: map<Name, int>, t: SlotTable, R: Records, adores: map<Name, int>,
                                      a: Name)
    requires Consistent(g, q, t, R, adores) && a !in g
    ensures Consistent(g[a := None], q[a := 0], t[a := [0, 0, 0, 0]], R, adores)
  {
    hide HopSum, Sum, AdoreTerms, CacheOk, Anc;
    var h := g[a := None];
    NewCache(g, q, t, a);
    forall s | s in adores
      ensures adores[s] == Sum(AdoreTerms(h, q[a := 0], t[a := [0, 0, 0, 0]], R, s))
    {
      NewAdores(g, q, t, R, adores, a, s);
    }
    forall x, k: nat | k > 0 && x in h
      ensures Anc(h, x, k) != Some(x)
    {
      NewAnc(g, a, x, k);
    }
  }

  lemma {:induction false} CountAt(R: Records, standing: map<Name, Standing>, a: Name)
    requires CountsOk(R, standing) && a in standing
    ensures standing[a].adoredFor == |RecordsOf(R, a)|
  {
  }

  lemma {:induction false} CountsIgnoreRewards(R: Records, standing: map<Name, Standing>, a: Name, s: Standing)
    requires CountsOk(R, standing) && a in standing && s.adoredFor == standing[a].adoredFor
    ensures CountsOk(R, standing[a := s])
  {
  }

  lemma {:induction false} CreditedKeys(R: Records, adores: map<Name, int>, root: Option<Name>, delta: int)
    ensures Credited(R, adores, root, delta).Keys == adores.Keys
  {
  }

  lemma {:induction false} CreditNobody(R: Records, adores: map<Name, int>, delta: int, totalQi: int)
    ensures Credited(R, adores, None, delta) == adores && Room(R, adores, None, delta, totalQi)
  {
  }

  lemma {:induction false} BumpDone(g: Graph, t: SlotTable, a: Name, delta: int, depth: nat)
    requires a in g && (g[a].None? || depth >= 4)
    ensures Bumped(g, t, a, delta, depth) == t
  {
    forall x, i: nat | x in t && i < 4
      ensures Bump(g, a, delta, depth, x, i) == 0
    {
    }
    assert forall x :: x in t ==> BumpSlots(g, t[x], a, delta, depth, x) == t[x];
  }

  lemma {:induction false} BumpAt(g: Graph, a: Name, p: Name, delta: int, depth: nat, x: Name, i: nat)
    requires a in g && g[a] == Some(p) && p in g
    ensures Bump(g, a, delta, depth, x, i)
         == Bump(g, p, delta, depth + 1, x, i) + if i == depth && x == p then delta else 0
  {
    if depth <= i {
      assert Anc(g, a, i + 1 - depth) == Anc(g, p, i - depth);
    }
  }

  lemma {:induction false} BumpStep(g: Graph, t: SlotTable, t': SlotTable, a: Name, p: Name, delta: int, depth: nat)
    requires a in g && g[a] == Some(p) && depth < 4 && p in t && p in g
    requires t' == t[p := t[p][depth := t[p][depth] + delta]]
    ensures Bumped(g, t', p, delta, depth + 1) == Bumped(g, t, a, delta, depth)
  {
    hide Bump;
    forall x | x in t
      ensures BumpSlots(g, t'[x], p, delta, depth + 1, x) == BumpSlots(g, t[x], a, delta, depth, x)
    {
      BumpAt(g, a, p, delta, depth, x, 0);
      BumpAt(g, a, p, delta, depth, x, 1);
      BumpAt(g, a, p, delta, depth, x, 2);
      BumpAt(g, a, p, delta, depth, x, 3);
    }
  }

  lemma {:induction false} HitDone(g: Graph, t: SlotTable, a: Name, d: Deltas, depth: nat)
    requires a in g && (g[a].None? || depth >= 4)
    ensures Hit(g, t, a, d, depth) == t
  {
    assert forall x :: x in t ==> HitSlots(g, t[x], a, d, depth, x) == t[x];
  }

  lemma {:induction false} HitsAtOnce(g: Graph, a: Name, p: Name, d: Deltas, depth: nat, x: Name, j: nat)
    requires a in g && g[a] == Some(p) && j < 4
    ensures Hits(g, a, x, d, depth, j)
         == Hits(g, p, x, d, depth + 1, j) + if j >= depth && x == p then d[j - depth] else 0
  {
  }

  lemma {:induction false} HitSlotsStep(g: Graph, v: Slots, v': Slots, a: Name, p: Name, d: Deltas, depth: nat,
                                        x: Name)
    requires a in g && g[a] == Some(p) && depth < 4
    requires forall j :: 0 <= j < 4 ==> v'[j] == v[j] + if j >= depth && x == p then d[j - depth] else 0
    ensures HitSlots(g, v', p, d, depth + 1, x) == HitSlots(g, v, a, d, depth, x)
  {
    hide Hits;
    HitsAtOnce(g, a, p, d, depth, x, 0);
    HitsAtOnce(g, a, p, d, depth, x, 1);
    HitsAtOnce(g, a, p, d, depth, x, 2);
    HitsAtOnce(g, a, p, d, depth, x, 3);
  }

  lemma {:induction false} HitStep(g: Graph, t: SlotTable, t': SlotTable, a: Name, p: Name, d: Deltas, depth: nat)
    requires a in g && g[a] == Some(p) && depth < 4 && p in t && p in g
    requires t'.Keys == t.Keys && forall x :: x in t && x != p ==> t'[x] == t[x]
    requires forall j :: 0 <= j < 4 ==> t'[p][j] == t[p][j] + if j >= depth then d[j - depth] else 0
    ensures Hit(g, t', p, d, depth + 1) == Hit(g, t, a, d, depth)
  {
    hide HitSlots;
    forall x | x in t
      ensures HitSlots(g, t'[x], p, d, depth + 1, x) == HitSlots(g, t[x], a, d, depth, x)
    {
      HitSlotsStep(g, t[x], t'[x], a, p, d, depth, x);
    }
  }

  /** A chain that misses a also misses it once a's edge is cut. */
  lemma {:induction false} CutReachesNoMore(g: Graph, a: Name, p: Name, cut: Graph)
    requires a in g && cut == g[a := None] && !Reaches(g, p, a)
    ensures !Reaches(cut, p, a)
  {
    forall k: nat
      ensures Anc(cut, p, k) != Some(a)
    {
      AncCut(g, a, p, k);
    }
  }

  lemma {:induction false} WithoutOne(R: Records, a: Name)
    ensures R - RecordsOf(R, a) == Without(R, {a})
  {
  }

  lemma {:induction false} RecordsGoneOne(R: Records, a: Name)
    ensures RecordsOf(R - RecordsOf(R, a), a) == {}
  {
  }

  lemma {:induction false} NoneGone(g: Graph, R: Records, standing: map<Name, Standing>, due: seq<(int, Name)>)
    ensures Named(due[..0]) == {}
    ensures CutAll(g, {}) == g && Without(R, {}) == R && DeclineAll(standing, {}) == standing
    ensures due == due[0..]
  {
  }

  lemma {:induction false} NamedRest(due: seq<(int, Name)>)
    requires due != []
    ensures due[0].1 in Named(due) && Named(due[1..]) <= Named(due)
  {
    assert due[0] in due;
  }

  lemma {:induction false} OneMoreGone(g: Graph, R: Records, standing: map<Name, Standing>,
                                       due: seq<(int, Name)>, k: nat)
    requires k < |due| && due[k].1 in g && due[k].1 in standing
    ensures var (a, gone, gone') := (due[k].1, Named(due[..k]), Named(due[..k + 1]));
            && CutAll(g, gone') == CutAll(g, gone)[a := None]
            && Without(R, gone') == Without(Without(R, gone), {a})
            && DeclineAll(standing, gone')
               == DeclineAll(standing, gone)[a := DeclineAll(standing, gone)[a].(canAdore := false, adoredFor := 0)]
    ensures due[k..][1..] == due[k + 1..] && due[k..][0] == due[k]
  {
    assert due[..k + 1] == due[..k] + [due[k]];
    assert Named(due[..k + 1]) == Named(due[..k]) + {due[k].1};
  }

  /** Who has declined has no proxy, no right and no record; the others are left alone. */
  lemma {:induction false} GoneDeclined(g: Graph, R: Records, standing: map<Name, Standing>, due: seq<(int, Name)>,
                                        k: nat)
    requires k <= |due| && Named(due) <= g.Keys == standing.Keys
    ensures var gone := Named(due[..k]);
            forall i :: 0 <= i < k ==>
              var a := due[i].1;
              && a in g && CutAll(g, gone)[a].None?
              && DeclineAll(standing, gone)[a] == standing[a].(canAdore := false, adoredFor := 0)
              && forall s :: (a, s) !in Without(R, gone)
    ensures var gone := Named(due[..k]);
            forall a | a in standing ::
              (forall i :: 0 <= i < k ==> due[i].1 != a) ==> (
                && CutAll(g, gone)[a] == g[a] && DeclineAll(standing, gone)[a] == standing[a]
                && forall s :: (a, s) in Without(R, gone) <==> (a, s) in R)
  {
    forall i | 0 <= i < k
      ensures due[i].1 in Named(due[..k]) && due[i].1 in g
    {
      assert due[i] in due[..k] && due[i] in due;
    }
  }

  /** The accounts at most k hops above p. */
  ghost function Visited(g: Graph, p: Name, k: nat): set<Name> {
    set i: nat | i <= k && Anc(g, p, i).Some? :: Anc(g, p, i).value
  }

  lemma {:induction false} VisitedFirst(g: Graph, p: Name)
    requires p in g
    ensures Anc(g, p, 0) == Some(p) && Visited(g, p, 0) == {p}
  {
  }

  lemma {:induction false} AncNext(g: Graph, p: Name, k: nat, c: Name)
    requires Closed(g) && c in g && g[c].Some? && Anc(g, p, k) == Some(c)
    ensures g[c].value in g && Anc(g, p, k + 1) == Some(g[c].value)
  {
    AncPlus(g, p, k, 1);
    assert Anc(g, g[c].value, 0) == Some(g[c].value);
    assert Anc(g, c, 1) == Some(g[c].value);
  }

  lemma {:induction false} VisitedStep(g: Graph, p: Name, k: nat)
    requires k > 0 && Anc(g, p, k).Some?
    ensures Visited(g, p, k) == Visited(g, p, k - 1) + {Anc(g, p, k).value}
  {
  }

  /** In an acyclic graph the walk can only come back to a. */
  lemma {:induction false} OnlyLoopIsThroughA(g: Graph, a: Name, p: Name, k: nat, next: Name)
    requires Acyclic(g) && Anc(g, p, k + 1) == Some(next) && next in {a} + Visited(g, p, k)
    ensures next == a && Reaches(g, p, a)
  {
    if next in Visited(g, p, k) {
      var i: nat :| i <= k && Anc(g, p, i) == Some(next);
      RevisitIsCycle(g, p, i, k + 1);
    }
  }

  lemma {:induction false} LongChainHasNoNearRoot(g: Graph, p: Name, k: nat)
    requires Closed(g) && k >= 3 && Anc(g, p, k).Some?
    ensures RootWithin(g, p, 2).None?
  {
    AncPrefix(g, p, 3, k);
  }

  lemma {:induction false} ChainEnds(g: Graph, a: Name, p: Name, k: nat, c: Name)
    requires Closed(g) && c in g && g[c].None? && k <= 2 && Anc(g, p, k) == Some(c) && p in g
    requires forall i: nat :: i <= k ==> Anc(g, p, i) != Some(a)
    ensures RootWithin(g, p, 2) == Some(c) && !Reaches(g, p, a)
  {
    RootAnc(g, p, 2);
    forall i: nat
      ensures Anc(g, p, i) != Some(a)
    {
      if i > k {
        RootOnce(g, p, c, k, i);
      }
    }
  }

  lemma {:induction false} RecordsKnown(g: Graph, R: Records, adores: map<Name, int>)
    requires RecordsOk(g, R, adores)
    ensures forall r :: r in R ==> r.1 in adores
  {
  }

  lemma {:induction false} RecordsGone(R: Records, a: Name, standing: map<Name, Standing>)
    requires CountsOk(R, standing) && a in standing
    ensures CountsOk(R - RecordsOf(R, a), standing[a := standing[a].(adoredFor := 0)])
  {
    assert RecordsOf(R - RecordsOf(R, a), a) == {};
    assert forall x :: x != a ==> RecordsOf(R - RecordsOf(R, a), x) == RecordsOf(R, x);
  }

  lemma {:induction false} RecordAdded(R: Records, a: Name, s: Name, standing: map<Name, Standing>)
    requires (a, s) !in R && CountsOk(R, standing) && a in standing
    ensures CountsOk(R + {(a, s)}, standing[a := standing[a].(adoredFor := standing[a].adoredFor + 1)])
  {
    assert RecordsOf(R + {(a, s)}, a) == RecordsOf(R, a) + {(a, s)};
    assert forall x :: x != a ==> RecordsOf(R + {(a, s)}, x) == RecordsOf(R, x);
  }

  lemma {:induction false} RecordRemoved(R: Records, a: Name, s: Name, standing: map<Name, Standing>)
    requires (a, s) in R && CountsOk(R, standing) && a in standing
    ensures CountsOk(R - {(a, s)}, standing[a := standing[a].(adoredFor := standing[a].adoredFor - 1)])
  {
    assert (a, s) in RecordsOf(R, a);
    assert RecordsOf(R - {(a, s)}, a) == RecordsOf(R, a) - {(a, s)};
    assert forall x :: x != a ==> RecordsOf(R - {(a, s)}, x) == RecordsOf(R, x);
  }

  // ----- The right to adore -----

  lemma {:induction false} RightWithdrawn(g: Graph, R: Records, standing: map<Name, Standing>, a: Name)
    requires RightsOk(g, R, standing) && a in standing && a in g
    ensures RightsOk(g[a := None], R - RecordsOf(R, a), standing[a := standing[a].(adoredFor := 0)])
  {
    assert RecordsOf(R - RecordsOf(R, a), a) == {};
    assert forall x :: x != a ==> RecordsOf(R - RecordsOf(R, a), x) == RecordsOf(R, x);
    assert forall x :: x in standing ==> RightOk(g, R, standing[x], x);
  }

  lemma {:induction false} RightDeclined(g: Graph, R: Records, standing: map<Name, Standing>, a: Name)
    requires RightsOk(g, R, standing) && a in standing && a in g && g[a].None? && RecordsOf(R, a) == {}
    ensures RightsOk(g, R, standing[a := standing[a].(canAdore := false)])
  {
    assert forall x :: x in standing ==> RightOk(g, R, standing[x], x);
  }

  lemma {:induction false} RightAttached(g: Graph, R: Records, standing: map<Name, Standing>, a: Name, p: Name)
    requires RightsOk(g, R, standing) && a in standing && standing[a].canAdore
    ensures RightsOk(g[a := Some(p)], R, standing)
  {
    assert forall x :: x in standing ==> RightOk(g, R, standing[x], x);
  }

  lemma {:induction false} RightAdded(g: Graph, R: Records, standing: map<Name, Standing>, a: Name, s: Name)
    requires RightsOk(g, R, standing) && a in standing && standing[a].canAdore
    requires |RecordsOf(R, a)| < MAX_ACCOUNT_SIMING_ADORES
    ensures RightsOk(g, R + {(a, s)}, standing[a := standing[a].(adoredFor := standing[a].adoredFor + 1)])
  {
    assert RecordsOf(R + {(a, s)}, a) == RecordsOf(R, a) + {(a, s)};
    assert forall x :: x != a ==> RecordsOf(R + {(a, s)}, x) == RecordsOf(R, x);
    assert forall x :: x in standing ==> RightOk(g, R, standing[x], x);
  }

  lemma {:induction false} RightRemoved(g: Graph, R: Records, standing: map<Name, Standing>, a: Name, s: Name)
    requires RightsOk(g, R, standing) && a in standing && (a, s) in R
    ensures RightsOk(g, R - {(a, s)}, standing[a := standing[a].(adoredFor := standing[a].adoredFor - 1)])
  {
    assert (a, s) in RecordsOf(R, a);
    assert RecordsOf(R - {(a, s)}, a) == RecordsOf(R, a) - {(a, s)};
    assert forall x :: x != a ==> RecordsOf(R - {(a, s)}, x) == RecordsOf(R, x);
    assert forall x :: x in standing ==> RightOk(g, R, standing[x], x);
  }

  lemma {:induction false} RightsIgnoreRewards(g: Graph, R: Records, standing: map<Name, Standing>, a: Name,
                                               claimQi: nat, claimFeigang: nat)
    requires RightsOk(g, R, standing) && a in standing
    ensures RightsOk(g, R, standing[a := Claimed(standing[a], claimQi, claimFeigang)])
    ensures Claimed(standing[a], claimQi, claimFeigang)
         == standing[a].(rewardQi := standing[a].rewardQi - claimQi,
                         rewardFeigang := standing[a].rewardFeigang - claimFeigang)
  {
    assert forall x :: x in standing ==> RightOk(g, R, standing[x], x);
  }

  /** Who may not adore has no proxy and adores nobody. */
  lemma {:induction false} DeclinedForGood(ledger: Ledger, a: Name, s: Name)
    requires ledger.Valid() && a in ledger.standing && !ledger.standing[a].canAdore
    ensures a in ledger.proxy && ledger.proxy[a].None? && (a, s) !in ledger.records
  {
    hide Consistent;
    assert RightOk(ledger.proxy, ledger.records, ledger.standing[a], a);
    assert (a, s) !in RecordsOf(ledger.records, a);
  }
}
