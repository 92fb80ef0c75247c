/** The Qi ledger: who holds free Qi, Feigang, unclaimed rewards, stakes and resources, and the global
    totals that every operation has to keep in step with the holders. */
module QiLedger {
  import opened Entities
  import opened MapSums
  import opened Percent
  import opened Sets

  type Balances = map<int, int>

  datatype Resource = Gold | Food | Wood | Fabric | Herb

  /** The price of one unit of a resource in Qi. */
  function Price(r: Resource): int {
    match r
    case Gold => 5
    case Food => 3
    case Wood => 2
    case Fabric => 3
    case Herb => 4
  }

  const QI_PER_YANG := 1000

  /** The global totals: free Qi, unclaimed rewards with the reward fund, Feigang, and stakes. */
  datatype Totals = Totals(qi: int, rewarded: int, feigang: int, cultivation: int)

  /** b with `delta` more at k. */
  function Plus(b: Balances, k: int, delta: int): Balances
    requires k in b
  {
    b[k := b[k] + delta]
  }

  ghost predicate NonNegative(b: Balances) {
    forall x :: x in b ==> b[x] >= 0
  }

  lemma {:induction false} PlusAt(b: Balances, k: int, delta: int)
    requires k in b
    ensures Sum(Plus(b, k, delta)) == Sum(b) + delta
    ensures Plus(b, k, delta).Keys == b.Keys
    ensures forall x :: x in b ==> Plus(b, k, delta)[x] == b[x] + if x == k then delta else 0
    ensures NonNegative(b) && (delta >= 0 || b[k] + delta >= 0) ==> NonNegative(Plus(b, k, delta))
  {
    SumPoint(b, Plus(b, k, delta), k);
  }

  type ResourceTable = map<Resource, Balances>
  type ResourceTotals = map<Resource, int>

  /** Every resource is held by NFAs, in non-negative amounts that add up to its total. */
  ghost predicate ResourcesOk(resources: ResourceTable, totals: ResourceTotals, nfas: set<NfaId>) {
    forall r: Resource :: r in resources && r in totals && resources[r].Keys == nfas
      && NonNegative(resources[r]) && totals[r] == Sum(resources[r])
  }

  lemma {:induction false} ResourceRow(resources: ResourceTable, totals: ResourceTotals, nfas: set<NfaId>,
                                       r: Resource)
    requires ResourcesOk(resources, totals, nfas)
    ensures r in resources && r in totals && resources[r].Keys == nfas && NonNegative(resources[r])
    ensures forall x :: x in nfas ==> resources[r][x] >= 0
  {
  }

  /** All resources counted at their price. */
  function ResourceWorth(totals: ResourceTotals): int
    requires forall r: Resource :: r in totals
  {
    Price(Gold) * totals[Gold] + Price(Food) * totals[Food] + Price(Wood) * totals[Wood]
    + Price(Fabric) * totals[Fabric] + Price(Herb) * totals[Herb]
  }

  lemma {:induction false} ResourcesAfter(resources: ResourceTable, totals: ResourceTotals, nfas: set<NfaId>,
                                          r: Resource, nfa: NfaId, units: int)
    requires ResourcesOk(resources, totals, nfas) && nfa in nfas
    requires resources[r][nfa] + units >= 0
    ensures ResourcesOk(resources[r := Plus(resources[r], nfa, units)], totals[r := totals[r] + units], nfas)
    ensures ResourceWorth(totals[r := totals[r] + units]) == ResourceWorth(totals) + Price(r) * units
  {
    hide Sum, Plus, NonNegative;
    ResourceRow(resources, totals, nfas, r);
    PlusAt(resources[r], nfa, units);
    match r
    case Gold =>
    case Food =>
    case Wood =>
    case Fabric =>
    case Herb =>
  }

  function Zeros(holders: set<int>): Balances {
    map x | x in holders :: 0
  }

  lemma {:induction false} ZerosOk(holders: set<int>)
    ensures Zeros(holders).Keys == holders && NonNegative(Zeros(holders)) && Sum(Zeros(holders)) == 0
  {
    SumZero(Zeros(holders));
  }

  lemma {:induction false} NoResources(resources: ResourceTable, totals: ResourceTotals, nfas: set<NfaId>)
    requires resources == map[Gold := Zeros(nfas), Food := Zeros(nfas), Wood := Zeros(nfas), Fabric := Zeros(nfas),
                              Herb := Zeros(nfas)]
    requires totals == map[Gold := 0, Food := 0, Wood := 0, Fabric := 0, Herb := 0]
    ensures ResourcesOk(resources, totals, nfas) && ResourceWorth(totals) == 0
  {
    hide Sum, Zeros;
    ZerosOk(nfas);
    forall r: Resource
      ensures r in resources && resources[r] == Zeros(nfas) && r in totals && totals[r] == 0
    {
      match r
      case Gold =>
      case Food =>
      case Wood =>
      case Fabric =>
      case Herb =>
    }
  }

  class Ledger {
    var accountQi: Balances
    var rewardQi: Balances
    var feigang: Balances
    var nfaQi: Balances
    var stake: Balances            // Qi an NFA has put into a cultivation
    var resources: map<Resource, Balances>
    var fund: int                  // Qi of the cultivation reward fund
    var totals: Totals
    var resourceTotals: map<Resource, int>

    ghost predicate Shaped()
      reads this
    {
      && rewardQi.Keys == accountQi.Keys && feigang.Keys == accountQi.Keys && stake.Keys == nfaQi.Keys
      && ResourcesOk(resources, resourceTotals, nfaQi.Keys)
    }

    /** The sums that the node's invariant check compares. */
    ghost predicate Balanced()
      reads this
    {
      && totals.qi == Sum(accountQi) + Sum(nfaQi)
      && totals.rewarded == Sum(rewardQi) + fund
      && totals.feigang == Sum(feigang)
      && totals.cultivation == Sum(stake)
    }

    ghost predicate Solvent()
      reads this
    {
      && NonNegative(accountQi) && NonNegative(rewardQi) && NonNegative(feigang)
      && NonNegative(nfaQi) && NonNegative(stake) && fund >= 0
    }

    ghost predicate Valid()
      reads this
    {
      Shaped() && Balanced() && Solvent()
    }

    /** All Qi there is, resources counted at their price. */
    ghost function Worth(): int
      requires Shaped()
      reads this
    {
      totals.qi + totals.rewarded + totals.feigang + totals.cultivation + ResourceWorth(resourceTotals)
    }

    /** A ledger before any Qi has been created. */
    constructor (accounts: set<AccountId>, nfas: set<NfaId>)
      ensures Valid() && Worth() == 0 && accountQi.Keys == accounts && nfaQi.Keys == nfas
    {
      hide Sum, Zeros, NonNegative, ResourcesOk, ResourceWorth;
      ZerosOk(accounts);
      ZerosOk(nfas);
      accountQi, rewardQi, feigang := Zeros(accounts), Zeros(accounts), Zeros(accounts);
      nfaQi, stake := Zeros(nfas), Zeros(nfas);
      var table: ResourceTable :=
        map[Gold := Zeros(nfas), Food := Zeros(nfas), Wood := Zeros(nfas), Fabric := Zeros(nfas), Herb := Zeros(nfas)];
      var none: ResourceTotals := map[Gold := 0, Food := 0, Wood := 0, Fabric := 0, Herb := 0];
      NoResources(table, none, nfas);
      resources, resourceTotals := table, none;
      fund, totals := 0, Totals(0, 0, 0, 0);
    }

    /** An account pays another in Feigang, which the receiver can claim later. */
    method RewardFeigangFromAccount(to: AccountId, from: AccountId, amount: int) returns (ok: bool)
      requires Valid() && to in accountQi && from in accountQi
      modifies `accountQi, `feigang, `totals
      ensures Valid() && Worth() == old(Worth())
      ensures ok <==> 0 < amount <= old(accountQi)[from]
      ensures ok ==> accountQi == Plus(old(accountQi), from, -amount) && feigang == Plus(old(feigang), to, amount)
      ensures !ok ==> accountQi == old(accountQi) && feigang == old(feigang) && totals == old(totals)
    {
      hide Sum, Plus, NonNegative, ResourcesOk, ResourceWorth;
      if amount <= 0 || accountQi[from] < amount {
        return false;
      }
      PlusAt(accountQi, from, -amount);
      PlusAt(feigang, to, amount);
      accountQi := Plus(accountQi, from, -amount);
      feigang := Plus(feigang, to, amount);
      totals := totals.(feigang := totals.feigang + amount, qi := totals.qi - amount);
      return true;
    }

    /** An NFA pays an account in Feigang. */
    method RewardFeigangFromNfa(to: AccountId, from: NfaId, amount: int) returns (ok: bool)
      requires Valid() && to in accountQi && from in nfaQi
      modifies `nfaQi, `feigang, `totals
      ensures Valid() && Worth() == old(Worth())
      ensures nfaQi.Keys == old(nfaQi).Keys
      ensures ok <==> 0 < amount <= old(nfaQi)[from]
      ensures ok ==> nfaQi == Plus(old(nfaQi), from, -amount) && feigang == Plus(old(feigang), to, amount)
      ensures !ok ==> nfaQi == old(nfaQi) && feigang == old(feigang) && totals == old(totals)
    {
      hide Sum, Plus, NonNegative, ResourcesOk, ResourceWorth;
      if amount <= 0 || nfaQi[from] < amount {
        return false;
      }
      PlusAt(nfaQi, from, -amount);
      PlusAt(feigang, to, amount);
      nfaQi := Plus(nfaQi, from, -amount);
      feigang := Plus(feigang, to, amount);
      totals := totals.(feigang := totals.feigang + amount, qi := totals.qi - amount);
      return true;
    }

    method DepositByContract(from: AccountId, to: NfaId, amount: int) returns (ok: bool)
      requires Valid() && from in accountQi && to in nfaQi
      modifies `accountQi, `nfaQi
      ensures Valid() && Worth() == old(Worth())
      ensures ok <==> 0 <= amount <= old(accountQi)[from]
      ensures ok ==> accountQi == Plus(old(accountQi), from, -amount) && nfaQi == Plus(old(nfaQi), to, amount)
      ensures !ok ==> accountQi == old(accountQi) && nfaQi == old(nfaQi)
    {
      hide Sum, Plus, NonNegative, ResourcesOk, ResourceWorth;
      if accountQi[from] < amount || amount < 0 {
        return false;
      }
      PlusAt(accountQi, from, -amount);
      PlusAt(nfaQi, to, amount);
      accountQi := Plus(accountQi, from, -amount);
      nfaQi := Plus(nfaQi, to, amount);
      return true;
    }

    method WithdrawByContract(from: NfaId, to: AccountId, amount: int) returns (ok: bool)
      requires Valid() && to in accountQi && from in nfaQi
      modifies `accountQi, `nfaQi
      ensures Valid() && Worth() == old(Worth())
      ensures ok <==> 0 <= amount <= old(nfaQi)[from]
      ensures ok ==> nfaQi == Plus(old(nfaQi), from, -amount) && accountQi == Plus(old(accountQi), to, amount)
      ensures !ok ==> accountQi == old(accountQi) && nfaQi == old(nfaQi)
    {
      hide Sum, Plus, NonNegative, ResourcesOk, ResourceWorth;
      if nfaQi[from] < amount || amount < 0 {
        return false;
      }
      PlusAt(nfaQi, from, -amount);
      PlusAt(accountQi, to, amount);
      nfaQi := Plus(nfaQi, from, -amount);
      accountQi := Plus(accountQi, to, amount);
      return true;
    }

    /** Adjusts an NFA's Qi and one of its resources, and the totals with them. */
    method Exchange(nfa: NfaId, qi: int, r: Resource, units: int)
      requires nfa in nfaQi && r in resources && r in resourceTotals && nfa in resources[r]
      modifies `nfaQi, `resources, `totals, `resourceTotals
      ensures nfaQi == Plus(old(nfaQi), nfa, qi)
      ensures resources == old(resources)[r := Plus(old(resources)[r], nfa, units)]
      ensures totals == old(totals).(qi := old(totals).qi + qi)
      ensures resourceTotals == old(resourceTotals)[r := old(resourceTotals)[r] + units]
    {
      nfaQi := Plus(nfaQi, nfa, qi);
      resources := resources[r := Plus(resources[r], nfa, units)];
      totals := totals.(qi := totals.qi + qi);
      resourceTotals := resourceTotals[r := resourceTotals[r] + units];
    }

    /** Qi becomes as many whole units of a resource as it buys; the rest stays Qi. */
    method ConvertQiToResource(nfa: NfaId, amount: int, r: Resource) returns (ok: bool)
      requires Valid() && nfa in nfaQi
      modifies `nfaQi, `resources, `totals, `resourceTotals
      ensures Valid() && Worth() == old(Worth())
      ensures ok <==> 0 < amount <= old(nfaQi)[nfa]
      ensures ok ==> var units := resources[r][nfa] - old(resources)[r][nfa];
                     && Price(r) * units <= amount < Price(r) * (units + 1)
                     && nfaQi == Plus(old(nfaQi), nfa, -(Price(r) * units))
                     && resources == old(resources)[r := Plus(old(resources)[r], nfa, units)]
      ensures !ok ==> nfaQi == old(nfaQi) && resources == old(resources) && totals == old(totals)
                      && resourceTotals == old(resourceTotals)
    {
      hide Sum, Plus, NonNegative, ResourcesOk, ResourceWorth;
      if amount <= 0 || nfaQi[nfa] < amount {
        return false;
      }
      ResourceRow(resources, resourceTotals, nfaQi.Keys, r);
      var units := amount * 1000000 / (Price(r) * 1000000);
      UnitsBought(amount, Price(r));
      var spent := units * (Price(r) * 1000000) / 1000000;
      PlusAt(nfaQi, nfa, -spent);
      PlusAt(resources[r], nfa, units);
      ResourcesAfter(resources, resourceTotals, nfaQi.Keys, r, nfa, units);
      Exchange(nfa, -spent, r, units);
      return true;
    }

    method ConvertResourceToQi(nfa: NfaId, units: int, r: Resource) returns (ok: bool)
      requires Valid() && nfa in nfaQi
      modifies `nfaQi, `resources, `totals, `resourceTotals
      ensures Valid() && Worth() == old(Worth())
      ensures ok <==> 0 < units <= old(resources)[r][nfa]
      ensures ok ==> nfaQi == Plus(old(nfaQi), nfa, Price(r) * units)
                     && resources == old(resources)[r := Plus(old(resources)[r], nfa, -units)]
      ensures !ok ==> nfaQi == old(nfaQi) && resources == old(resources) && totals == old(totals)
                      && resourceTotals == old(resourceTotals)
    {
      hide Sum, Plus, NonNegative, ResourcesOk, ResourceWorth;
      ResourceRow(resources, resourceTotals, nfaQi.Keys, r);
      if units <= 0 || resources[r][nfa] < units {
        return false;
      }
      var gained := units * (Price(r) * 1000000) / 1000000;
      assert gained == Price(r) * units;
      PlusAt(nfaQi, nfa, gained);
      ResourcesAfter(resources, resourceTotals, nfaQi.Keys, r, nfa, -units);
      Exchange(nfa, gained, r, -units);
      return true;
    }

    /** Liquid YANG becomes Qi, free or as an unclaimed reward. */
    method CreateQi(to: AccountId, liquid: nat, toReward: bool) returns (created: int)
      requires Valid() && to in accountQi
      modifies `accountQi, `rewardQi, `totals
      ensures Valid() && Worth() == old(Worth()) + created
      ensures created == liquid * QI_PER_YANG
      ensures toReward ==> rewardQi == Plus(old(rewardQi), to, created) && accountQi == old(accountQi)
      ensures !toReward ==> accountQi == Plus(old(accountQi), to, created) && rewardQi == old(rewardQi)
    {
      hide Sum, Plus, NonNegative, ResourcesOk, ResourceWorth;
      created := liquid * 1000000 / 1000;
      assert created == liquid * QI_PER_YANG;
      if toReward {
        PlusAt(rewardQi, to, created);
        rewardQi := Plus(rewardQi, to, created);
        totals := totals.(rewarded := totals.rewarded + created);
      } else {
        PlusAt(accountQi, to, created);
        accountQi := Plus(accountQi, to, created);
        totals := totals.(qi := totals.qi + created);
      }
    }

    /** An NFA that has nothing staked stakes some of its Qi. */
    method Stake(nfa: NfaId, value: nat) returns (ok: bool)
      requires Valid() && nfa in nfaQi
      modifies `nfaQi, `stake, `totals
      ensures Valid() && Worth() == old(Worth())
      ensures nfaQi.Keys == old(nfaQi).Keys
      ensures ok <==> old(stake)[nfa] == 0 && 0 < value <= old(nfaQi)[nfa]
      ensures ok ==> nfaQi == Plus(old(nfaQi), nfa, 0 - value) && stake == Plus(old(stake), nfa, value)
      ensures !ok ==> nfaQi == old(nfaQi) && stake == old(stake) && totals == old(totals)
    {
      hide Sum, Plus, NonNegative, ResourcesOk, ResourceWorth;
      if stake[nfa] != 0 || value == 0 || nfaQi[nfa] < value {
        return false;
      }
      PlusAt(nfaQi, nfa, 0 - value);
      PlusAt(stake, nfa, value);
      nfaQi := Plus(nfaQi, nfa, 0 - value);
      stake := Plus(stake, nfa, value);
      totals := totals.(qi := totals.qi - value, cultivation := totals.cultivation + value);
      return true;
    }

    /** Gives the stakes of some NFAs back. */
    method Unstake(nfas: set<NfaId>)
      requires Valid() && nfas <= nfaQi.Keys
      modifies `nfaQi, `stake, `totals
      ensures Valid() && Worth() == old(Worth())
      ensures nfaQi.Keys == old(nfaQi).Keys
      ensures nfaQi == Refunded(old(nfaQi), old(stake), nfas) && stake == Cleared(old(stake), nfas)
      ensures stake.Keys == old(stake).Keys == nfaQi.Keys
      ensures forall n :: n in nfaQi ==> nfaQi[n] == old(nfaQi)[n] + if n in nfas then old(stake)[n] else 0
      ensures forall n :: n in stake ==> stake[n] == if n in nfas then 0 else old(stake)[n]
    {
      hide Sum, Plus, ResourcesOk, ResourceWorth, NonNegative;
      ghost var q0, s0 := nfaQi, stake;
      var todo, returned := nfas, 0;
      UnstakeStart(q0, s0);
      while todo != {}
        invariant todo <= nfas && nfaQi == Refunded(q0, s0, nfas - todo) && stake == Cleared(s0, nfas - todo)
        invariant returned >= 0 && totals == old(totals)
        invariant Sum(nfaQi) == Sum(q0) + returned && Sum(stake) == Sum(s0) - returned
        invariant NonNegative(nfaQi) && NonNegative(stake) && nfaQi.Keys == q0.Keys == stake.Keys
        decreases todo
      {
        ghost var w := Member(todo);
        var n :| n in todo;
        UnstakeNext(q0, s0, nfas, todo, n);
        PlusAt(nfaQi, n, stake[n]);
        PlusAt(stake, n, 0 - stake[n]);
        returned := returned + stake[n];
        nfaQi := Plus(nfaQi, n, stake[n]);
        stake := Plus(stake, n, 0 - stake[n]);
        todo := todo - {n};
      }
      assert nfas - todo == nfas;
      if returned > 0 {
        totals := totals.(qi := totals.qi + returned, cultivation := totals.cultivation - returned);
      }
    }

    /** Pays rv out of the reward fund: each beneficiary its share rounded down, the last one the rest too. */
    method PayBeneficiaries(bs: seq<Beneficiary>, rv: int)
      requires Valid() && Payable(bs, nfaQi.Keys) && 0 < rv <= fund
      modifies `nfaQi, `totals, `fund
      ensures Valid() && Worth() == old(Worth())
      ensures fund == old(fund) - rv && totals.qi == old(totals).qi + rv
      ensures nfaQi.Keys == old(nfaQi).Keys
      ensures PaidTo(old(nfaQi), Plus(nfaQi, bs[|bs| - 1].0, PaidOut(bs, |bs|, rv) - rv), bs, |bs|, rv)
    {
      hide Sum, Plus, ResourcesOk, ResourceWorth, NonNegative, PaidTo;
      ghost var q0 := nfaQi;
      PaidOutExactly(bs, nfaQi.Keys, rv);
      PaidNothing(q0, bs, rv);
      var left := rv;
      var i := 0;
      while i < |bs|
        invariant 0 <= i <= |bs| && left == rv - PaidOut(bs, i, rv)
        invariant totals == old(totals) && fund == old(fund)
        invariant PaidTo(q0, nfaQi, bs, i, rv) && nfaQi.Keys == q0.Keys
        invariant Sum(nfaQi) == Sum(q0) + rv - left && NonNegative(nfaQi)
      {
        var amount := rv * bs[i].1 / HUNDRED_PERCENT;
        PaidNext(q0, nfaQi, bs, i, rv);
        PlusAt(nfaQi, bs[i].0, amount);
        nfaQi := Plus(nfaQi, bs[i].0, amount);
        left := left - amount;
        i := i + 1;
      }
      var last := bs[|bs| - 1].0;
      PlusAt(nfaQi, last, left);
      PlusBack(nfaQi, last, left);
      assert 0 - left == PaidOut(bs, |bs|, rv) - rv;
      nfaQi := Plus(nfaQi, last, left);
      fund := fund - rv;
      totals := totals.(rewarded := totals.rewarded - rv, qi := totals.qi + rv);
    }

    /** Unclaimed rewards and Feigang become free Qi. */
    method ClaimRewardBalance(a: AccountId, claimQi: nat, claimFeigang: nat) returns (ok: bool)
      requires Valid() && a in accountQi
      modifies `accountQi, `rewardQi, `feigang, `totals
      ensures Valid() && Worth() == old(Worth())
      ensures ok <==> claimQi <= old(rewardQi)[a] && claimFeigang <= old(feigang)[a]
      ensures ok ==> accountQi == Plus(old(accountQi), a, claimQi + claimFeigang)
                     && rewardQi == Plus(old(rewardQi), a, 0 - claimQi) && feigang == Plus(old(feigang), a, 0 - claimFeigang)
      ensures !ok ==> accountQi == old(accountQi) && rewardQi == old(rewardQi) && feigang == old(feigang)
                      && totals == old(totals)
    {
      hide Sum, Plus, NonNegative, ResourcesOk, ResourceWorth;
      if claimQi > rewardQi[a] || claimFeigang > feigang[a] {
        return false;
      }
      PlusAt(rewardQi, a, 0 - claimQi);
      PlusAt(feigang, a, 0 - claimFeigang);
      PlusAt(accountQi, a, claimQi + claimFeigang);
      rewardQi := Plus(rewardQi, a, 0 - claimQi);
      feigang := Plus(feigang, a, 0 - claimFeigang);
      accountQi := Plus(accountQi, a, claimQi + claimFeigang);
      totals := totals.(qi := totals.qi + claimQi + claimFeigang, rewarded := totals.rewarded - claimQi,
                        feigang := totals.feigang - claimFeigang);
      return true;
    }
  }

  /** In every state that the operations reach, the totals are what the holders have, and nobody has less than nothing. */
  lemma {:induction false} TotalsAreHeld(ledger: Ledger)
    requires ledger.Valid()
    ensures ledger.totals.qi == Sum(ledger.accountQi) + Sum(ledger.nfaQi)
    ensures ledger.totals.rewarded == Sum(ledger.rewardQi) + ledger.fund
    ensures ledger.totals.feigang == Sum(ledger.feigang) && ledger.totals.cultivation == Sum(ledger.stake)
    ensures forall r: Resource :: r in ledger.resources && r in ledger.resourceTotals
                                  && ledger.resourceTotals[r] == Sum(ledger.resources[r])
    ensures forall x :: x in ledger.accountQi ==>
      && x in ledger.rewardQi && x in ledger.feigang
      && ledger.accountQi[x] >= 0 && ledger.rewardQi[x] >= 0 && ledger.feigang[x] >= 0
    ensures forall n :: n in ledger.nfaQi ==> n in ledger.stake && ledger.nfaQi[n] >= 0 && ledger.stake[n] >= 0
  {
  }

  /** Stakes after those of some NFAs have been returned, and the Qi they hold then. */
  ghost function Cleared(stake: Balances, gone: set<NfaId>): Balances {
    map n | n in stake :: if n in gone then 0 else stake[n]
  }

  ghost function Refunded(qi: Balances, stake: Balances, gone: set<NfaId>): Balances
    requires stake.Keys == qi.Keys
  {
    map n | n in qi :: if n in gone then qi[n] + stake[n] else qi[n]
  }

  /** A beneficiary and its share of HUNDRED_PERCENT. */
  type Beneficiary = (NfaId, int)

  ghost function TotalShare(bs: seq<Beneficiary>): int {
    if bs == [] then 0 else TotalShare(bs[..|bs| - 1]) + bs[|bs| - 1].1
  }

  ghost predicate Payable(bs: seq<Beneficiary>, nfas: set<NfaId>) {
    && (forall i :: 0 <= i < |bs| ==> bs[i].0 in nfas && bs[i].1 > 0)
    && (forall i, j :: 0 <= i < j < |bs| ==> bs[i].0 != bs[j].0)
    && TotalShare(bs) == HUNDRED_PERCENT
  }

  /** What the first k beneficiaries are paid of rv, each its share rounded down. */
  ghost function PaidOut(bs: seq<Beneficiary>, k: nat, rv: int): int
    requires k <= |bs|
  {
    if k == 0 then 0 else PaidOut(bs, k - 1, rv) + rv * bs[k - 1].1 / HUNDRED_PERCENT
  }

  /** Rounding loses less than one unit per beneficiary. */
  lemma {:induction false} PaidOutBounds(bs: seq<Beneficiary>, k: nat, rv: int)
    requires k <= |bs| && rv >= 0
    ensures HUNDRED_PERCENT * PaidOut(bs, k, rv) <= rv * TotalShare(bs[..k])
    ensures HUNDRED_PERCENT * PaidOut(bs, k, rv) + (HUNDRED_PERCENT - 1) * k >= rv * TotalShare(bs[..k])
  {
    if k > 0 {
      PaidOutBounds(bs, k - 1, rv);
      assert bs[..k][..k - 1] == bs[..k - 1];
      var w := bs[k - 1].1;
      assert rv * (TotalShare(bs[..k - 1]) + w) == rv * TotalShare(bs[..k - 1]) + rv * w;
    }
  }

  /** Together the beneficiaries get rv once the last one gets what rounding left, which is little. */
  lemma {:induction false} PaidOutExactly(bs: seq<Beneficiary>, nfas: set<NfaId>, rv: int)
    requires Payable(bs, nfas) && rv >= 0
    ensures 0 <= rv - PaidOut(bs, |bs|, rv) < |bs|
  {
    PaidOutBounds(bs, |bs|, rv);
    assert bs[..|bs|] == bs;
    assert |bs| > 0;
  }

  /** The Qi after the first k beneficiaries are paid. */
  ghost predicate PaidTo(qi: Balances, qi': Balances, bs: seq<Beneficiary>, k: nat, rv: int)
    requires k <= |bs|
  {
    && qi'.Keys == qi.Keys
    && (forall i :: 0 <= i < k && bs[i].0 in qi ==> qi'[bs[i].0] == qi[bs[i].0] + rv * bs[i].1 / HUNDRED_PERCENT)
    && forall n :: n in qi && (forall i :: 0 <= i < k ==> bs[i].0 != n) ==> qi'[n] == qi[n]
  }

  lemma {:induction false} UnstakeStart(q0: Balances, s0: Balances)
    requires s0.Keys == q0.Keys
    ensures q0 == Refunded(q0, s0, {}) && s0 == Cleared(s0, {})
  {
  }

  /** One more NFA gets its stake back. */
  lemma {:induction false} UnstakeNext(q0: Balances, s0: Balances, nfas: set<NfaId>, todo: set<NfaId>, n: NfaId)
    requires s0.Keys == q0.Keys && n in todo && todo <= nfas <= q0.Keys && NonNegative(s0)
    ensures var q, s := Refunded(q0, s0, nfas - todo), Cleared(s0, nfas - todo);
            && n in q && n in s && s[n] == s0[n] >= 0
            && Refunded(q0, s0, nfas - (todo - {n})) == Plus(q, n, s[n])
            && Cleared(s0, nfas - (todo - {n})) == Plus(s, n, 0 - s[n])
  {
  }

  lemma {:induction false} PaidNothing(qi: Balances, bs: seq<Beneficiary>, rv: int)
    ensures PaidTo(qi, qi, bs, 0, rv)
  {
  }

  lemma {:induction false} PaidNext(q0: Balances, q: Balances, bs: seq<Beneficiary>, i: nat, rv: int)
    requires Payable(bs, q0.Keys) && i < |bs| && PaidTo(q0, q, bs, i, rv) && rv >= 0
    ensures bs[i].0 in q && rv * bs[i].1 / HUNDRED_PERCENT >= 0
    ensures PaidTo(q0, Plus(q, bs[i].0, rv * bs[i].1 / HUNDRED_PERCENT), bs, i + 1, rv)
  {
    ShareNonNegative(rv, bs[i].1);
  }

  /** Each beneficiary but the last has its share, rounded down, the last has what the others leave, and nobody else
      has anything. */
  lemma {:induction false} PaidEach(before: Balances, after: Balances, bs: seq<Beneficiary>, rv: int)
    requires Payable(bs, before.Keys) && bs != [] && bs[|bs| - 1].0 in after
    requires PaidTo(before, Plus(after, bs[|bs| - 1].0, PaidOut(bs, |bs|, rv) - rv), bs, |bs|, rv)
    ensures forall i :: 0 <= i < |bs| - 1 ==> bs[i].0 in after && bs[i].0 in before
                                              && after[bs[i].0] == before[bs[i].0] + rv * bs[i].1 / HUNDRED_PERCENT
    ensures bs[|bs| - 1].0 in before && after[bs[|bs| - 1].0] == before[bs[|bs| - 1].0] + rv - PaidOut(bs, |bs| - 1, rv)
    ensures forall n :: n in before && (forall i :: 0 <= i < |bs| ==> bs[i].0 != n) ==> n in after && after[n] == before[n]
  {
  }

  lemma {:induction false} ShareNonNegative(rv: int, w: int)
    requires rv >= 0 && w >= 0
    ensures rv * w / HUNDRED_PERCENT >= 0
  {
  }

  lemma {:induction false} PlusBack(b: Balances, k: int, delta: int)
    requires k in b
    ensures Plus(Plus(b, k, delta), k, 0 - delta) == b
  {
  }

  lemma {:induction false} UnitsBought(amount: int, price: int)
    requires amount >= 0 && price > 0
    ensures var units := amount * 1000000 / (price * 1000000);
            && units >= 0 && price * units <= amount < price * (units + 1)
            && units * (price * 1000000) / 1000000 == price * units
  {
    var d := price * 1000000;
    var units := amount * 1000000 / d;
    assert d * units <= amount * 1000000 < d * (units + 1);
    assert d * units == 1000000 * (price * units);
    assert d * (units + 1) == 1000000 * (price * (units + 1));
  }
}
