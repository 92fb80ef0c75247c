/** Qi withdrawals: week by week an account's Qi becomes YANG, or is routed to others. */
module Withdrawal {
  import opened Entities
  import opened Arithmetic
  import opened MapSums
  import opened Percent
  import opened QiLedger
  import A = AdorationLedger

  const INTERVALS := 4
  const INTERVAL_SECONDS := 604800

  /** A running withdrawal: so much each time, of so much in all. */
  datatype Plan = Plan(rate: int, toWithdraw: int, withdrawn: int, next: int)

  /** A share of each withdrawal goes to another account, as Qi or as YANG. */
  datatype Route = Route(to: AccountId, percent: int, vest: bool)

  function Least(a: int, b: int): int {
    if a < b then a else b
  }

  /** What one withdrawal takes from an account with so much Qi. */
  function Amount(p: Plan, qi: int): int
    requires p.rate > 0
  {
    if p.toWithdraw - p.withdrawn < p.rate then Least(qi, p.toWithdraw % p.rate) else Least(qi, p.rate)
  }

  /** The rate that ends a withdrawal within the intervals. */
  function RateFor(qi: int): int
    requires qi > 0
  {
    var rate := if qi / INTERVALS == 0 then 1 else qi / INTERVALS;
    if rate * INTERVALS < qi then rate + 1 else rate
  }

  function Share(amount: int, percent: int): int {
    amount * percent / HUNDRED_PERCENT
  }

  /** Qi at the price of YANG, rounded down. */
  function Yang(qi: int): int {
    qi / QI_PER_YANG
  }

  ghost function Percents(routes: seq<Route>, k: nat): int
    requires k <= |routes|
  {
    if k == 0 then 0 else Percents(routes, k - 1) + routes[k - 1].percent
  }

  /** What the first k routes take as Qi. */
  ghost function Vested(routes: seq<Route>, k: nat, amount: int): int
    requires k <= |routes|
  {
    if k == 0 then 0 else
      Vested(routes, k - 1, amount) + if routes[k - 1].vest then Share(amount, routes[k - 1].percent) else 0
  }

  /** What the first k routes take to become YANG. */
  ghost function Cashed(routes: seq<Route>, k: nat, amount: int): int
    requires k <= |routes|
  {
    if k == 0 then 0 else
      Cashed(routes, k - 1, amount) + if routes[k - 1].vest then 0 else Share(amount, routes[k - 1].percent)
  }

  /** The YANG that the first k routes pay. */
  ghost function CashedYang(routes: seq<Route>, k: nat, amount: int): int
    requires k <= |routes|
  {
    if k == 0 then 0 else
      CashedYang(routes, k - 1, amount) + if routes[k - 1].vest then 0 else Yang(Share(amount, routes[k - 1].percent))
  }

  /** Qi that payouts of YANG lose to rounding, the account's own payout included. */
  ghost function Dust(routes: seq<Route>, amount: int): int {
    var n := |routes|;
    var own := amount - Vested(routes, n, amount) - Cashed(routes, n, amount);
    (Cashed(routes, n, amount) + own) - QI_PER_YANG * (CashedYang(routes, n, amount) + Yang(own))
  }

  /** How many payouts of YANG there are. */
  ghost function Payouts(routes: seq<Route>, k: nat): nat
    requires k <= |routes|
  {
    if k == 0 then 0 else Payouts(routes, k - 1) + if routes[k - 1].vest then 0 else 1
  }

  ghost predicate RoutesOk(routes: seq<Route>, accounts: set<AccountId>) {
    && (forall i :: 0 <= i < |routes| ==> routes[i].to in accounts && 0 <= routes[i].percent <= HUNDRED_PERCENT)
    && Percents(routes, |routes|) <= HUNDRED_PERCENT
  }

  /** The rate is the least with which so many withdrawals take it all. */
  lemma {:induction false} RateIs(qi: int)
    requires qi > 0
    ensures RateFor(qi) >= 1 && INTERVALS * (RateFor(qi) - 1) < qi <= INTERVALS * RateFor(qi)
  {
  }

  /** With shares of at most 100% in all, the routes never take more than is withdrawn. */
  lemma {:induction false} RoutesWithin(routes: seq<Route>, accounts: set<AccountId>, k: nat, amount: int)
    requires k <= |routes| && RoutesOk(routes, accounts) && amount >= 0
    ensures 0 <= Vested(routes, k, amount) && 0 <= Cashed(routes, k, amount)
    ensures HUNDRED_PERCENT * (Vested(routes, k, amount) + Cashed(routes, k, amount)) <= amount * Percents(routes, k)
  {
    if k > 0 {
      RoutesWithin(routes, accounts, k - 1, amount);
      var p := routes[k - 1].percent;
      ShareBounds(amount, p);
      assert amount * Percents(routes, k) == amount * Percents(routes, k - 1) + amount * p;
    }
  }

  lemma {:induction false} ShareBounds(amount: int, p: int)
    requires amount >= 0 && p >= 0
    ensures 0 <= Share(amount, p) && HUNDRED_PERCENT * Share(amount, p) <= amount * p
  {
    assert amount * p >= 0;
  }

  /** The rest that is converted for the account itself is never negative. */
  lemma {:induction false} NeverOverdrawn(routes: seq<Route>, accounts: set<AccountId>, amount: int)
    requires RoutesOk(routes, accounts) && amount >= 0
    ensures Vested(routes, |routes|, amount) + Cashed(routes, |routes|, amount) <= amount
  {
    hide Vested, Cashed, Percents;
    RoutesWithin(routes, accounts, |routes|, amount);
    PartOf(amount, Percents(routes, |routes|));
  }

  lemma {:induction false} PartOf(amount: int, p: int)
    requires amount >= 0 && p <= HUNDRED_PERCENT
    ensures amount * p <= amount * HUNDRED_PERCENT
  {
    assert amount * (HUNDRED_PERCENT - p) >= 0;
  }

  /** Each payout loses less than one YANG to rounding. */
  lemma {:induction false} DustBounds(routes: seq<Route>, accounts: set<AccountId>, amount: int)
    requires RoutesOk(routes, accounts) && amount >= 0
    ensures 0 <= Dust(routes, amount) <= (QI_PER_YANG - 1) * (Payouts(routes, |routes|) + 1)
  {
    NeverOverdrawn(routes, accounts, amount);
    RouteDust(routes, |routes|, amount);
  }

  lemma {:induction false} DustIs(routes: seq<Route>, amount: int)
    ensures amount - Vested(routes, |routes|, amount) == QI_PER_YANG * PaidYang(routes, amount) + Dust(routes, amount)
  {
    hide Vested, Cashed, CashedYang;
  }

  lemma {:induction false} AmountBounds(p: Plan, qi: int)
    requires p.rate > 0 && qi >= 0
    ensures 0 <= Amount(p, qi) <= qi
  {
  }

  lemma {:induction false} RouteDust(routes: seq<Route>, k: nat, amount: int)
    requires k <= |routes|
    ensures 0 <= Cashed(routes, k, amount) - QI_PER_YANG * CashedYang(routes, k, amount)
              <= (QI_PER_YANG - 1) * Payouts(routes, k)
  {
    hide Share;
    if k > 0 {
      RouteDust(routes, k - 1, amount);
    }
  }

  /** The accounts' Qi after the first k routes that pay in Qi. */
  ghost function AfterVesting(qi: Balances, routes: seq<Route>, k: nat, amount: int): (q: Balances)
    requires k <= |routes| && forall i :: 0 <= i < |routes| ==> routes[i].to in qi
    ensures q.Keys == qi.Keys
  {
    if k == 0 then qi else
      var before := AfterVesting(qi, routes, k - 1, amount);
      if routes[k - 1].vest then Plus(before, routes[k - 1].to, Share(amount, routes[k - 1].percent)) else before
  }

  /** The accounts' YANG after the first k routes that pay in YANG. */
  ghost function AfterCashing(yang: Balances, routes: seq<Route>, k: nat, amount: int): (y: Balances)
    requires k <= |routes| && forall i :: 0 <= i < |routes| ==> routes[i].to in yang
    ensures y.Keys == yang.Keys
  {
    if k == 0 then yang else
      var before := AfterCashing(yang, routes, k - 1, amount);
      if routes[k - 1].vest then before else Plus(before, routes[k - 1].to, Yang(Share(amount, routes[k - 1].percent)))
  }

  lemma {:induction false} VestingSum(qi: Balances, routes: seq<Route>, k: nat, amount: int)
    requires k <= |routes| && RoutesOk(routes, qi.Keys) && amount >= 0 && NonNegative(qi)
    ensures Sum(AfterVesting(qi, routes, k, amount)) == Sum(qi) + Vested(routes, k, amount)
    ensures NonNegative(AfterVesting(qi, routes, k, amount))
    ensures forall x :: x in qi ==> AfterVesting(qi, routes, k, amount)[x] >= qi[x]
  {
    hide Share, Sum;
    if k > 0 {
      VestingSum(qi, routes, k - 1, amount);
      ShareBounds(amount, routes[k - 1].percent);
      PlusAt(AfterVesting(qi, routes, k - 1, amount), routes[k - 1].to, Share(amount, routes[k - 1].percent));
    }
  }

  lemma {:induction false} CashingSum(yang: Balances, routes: seq<Route>, k: nat, amount: int)
    requires k <= |routes| && RoutesOk(routes, yang.Keys)
    ensures Sum(AfterCashing(yang, routes, k, amount)) == Sum(yang) + CashedYang(routes, k, amount)
  {
    hide Share, Sum, Yang;
    if k > 0 {
      CashingSum(yang, routes, k - 1, amount);
      PlusAt(AfterCashing(yang, routes, k - 1, amount), routes[k - 1].to, Yang(Share(amount, routes[k - 1].percent)));
    }
  }

  /** The Qi that the first k routes bring to account x: its shares of the amount, each rounded down. */
  ghost function QiTo(routes: seq<Route>, k: nat, amount: int, x: AccountId): int
    requires k <= |routes|
  {
    if k == 0 then 0 else
      var r := routes[k - 1];
      QiTo(routes, k - 1, amount, x) + if r.vest && r.to == x then amount * r.percent / HUNDRED_PERCENT else 0
  }

  /** The YANG that the first k routes bring to account x: its shares, each rounded down, at the price of YANG, each
      rounded down again. */
  ghost function YangTo(routes: seq<Route>, k: nat, amount: int, x: AccountId): int
    requires k <= |routes|
  {
    if k == 0 then 0 else
      var r := routes[k - 1];
      YangTo(routes, k - 1, amount, x)
      + if !r.vest && r.to == x then amount * r.percent / HUNDRED_PERCENT / QI_PER_YANG else 0
  }

  /** What the first k routes take in all. */
  ghost function Routed(routes: seq<Route>, k: nat, amount: int): int
    requires k <= |routes|
  {
    if k == 0 then 0 else Routed(routes, k - 1, amount) + amount * routes[k - 1].percent / HUNDRED_PERCENT
  }

  lemma {:induction false} VestedTo(qi: Balances, routes: seq<Route>, k: nat, amount: int, x: AccountId)
    requires k <= |routes| && x in qi && forall i :: 0 <= i < |routes| ==> routes[i].to in qi
    ensures AfterVesting(qi, routes, k, amount)[x] == qi[x] + QiTo(routes, k, amount, x)
  {
    if k > 0 {
      VestedTo(qi, routes, k - 1, amount, x);
    }
  }

  lemma {:induction false} CashedTo(yang: Balances, routes: seq<Route>, k: nat, amount: int, x: AccountId)
    requires k <= |routes| && x in yang && forall i :: 0 <= i < |routes| ==> routes[i].to in yang
    ensures AfterCashing(yang, routes, k, amount)[x] == yang[x] + YangTo(routes, k, amount, x)
  {
    if k > 0 {
      CashedTo(yang, routes, k - 1, amount, x);
    }
  }

  lemma {:induction false} RoutedIs(routes: seq<Route>, k: nat, amount: int)
    requires k <= |routes|
    ensures Routed(routes, k, amount) == Vested(routes, k, amount) + Cashed(routes, k, amount)
  {
    if k > 0 {
      RoutedIs(routes, k - 1, amount);
    }
  }

  /** Everybody's Qi and YANG after a withdrawal. */
  lemma {:induction false} WhoGets(qi: Balances, yang: Balances, routes: seq<Route>, from: AccountId, amount: int)
    requires RoutesOk(routes, qi.Keys) && yang.Keys == qi.Keys && from in qi
    ensures var n := |routes|; var own := amount - Cashed(routes, n, amount) - Vested(routes, n, amount);
            var q, y := Plus(AfterVesting(qi, routes, n, amount), from, 0 - amount),
                        Plus(AfterCashing(yang, routes, n, amount), from, Yang(own));
            && q.Keys == y.Keys == qi.Keys
            && (forall x :: x in qi ==> q[x] == qi[x] + QiTo(routes, n, amount, x) - if x == from then amount else 0)
            && forall x :: x in yang ==>
                 y[x] == yang[x] + YangTo(routes, n, amount, x)
                         + if x == from then (amount - Routed(routes, n, amount)) / QI_PER_YANG else 0
  {
    hide AfterVesting, AfterCashing, QiTo, YangTo, Vested, Cashed, Routed, Percents;
    var n := |routes|;
    RoutedIs(routes, n, amount);
    forall x | x in qi
      ensures AfterVesting(qi, routes, n, amount)[x] == qi[x] + QiTo(routes, n, amount, x)
      ensures AfterCashing(yang, routes, n, amount)[x] == yang[x] + YangTo(routes, n, amount, x)
    {
      VestedTo(qi, routes, n, amount, x);
      CashedTo(yang, routes, n, amount, x);
    }
  }

  lemma {:induction false} PlusNothing(b: Balances, k: int)
    requires k in b
    ensures Plus(b, k, 0) == b
  {
  }

  class Withdrawals {
    const ledger: Ledger
    var yang: Balances
    var plans: map<AccountId, Plan>
    var routes: map<AccountId, seq<Route>>

    ghost predicate Valid()
      reads this, ledger
    {
      && ledger.Valid() && yang.Keys == ledger.accountQi.Keys
      && forall a :: a in routes ==> RoutesOk(routes[a], ledger.accountQi.Keys)
    }

    /** All YANG, with all Qi counted at its price. */
    ghost function Supply(): int
      requires ledger.Shaped()
      reads this, ledger
    {
      Sum(yang) + Yang(ledger.Worth())
    }

    constructor (ledger: Ledger, yang: Balances)
      requires ledger.Valid() && yang.Keys == ledger.accountQi.Keys
      ensures Valid() && this.ledger == ledger && this.yang == yang
    {
      this.ledger, this.yang, plans, routes := ledger, yang, map[], map[];
    }

    /** Routes that pay in Qi, before those that pay in YANG. */
    method PayQi(from: AccountId, amount: nat) returns (deposited: int)
      requires Valid() && from in routes
      modifies ledger`accountQi
      ensures ledger.accountQi == AfterVesting(old(ledger.accountQi), routes[from], |routes[from]|, amount)
      ensures deposited == Vested(routes[from], |routes[from]|, amount)
    {
      hide Sum, NonNegative, ResourcesOk, ResourceWorth, Share, Ledger.Balanced, Ledger.Solvent;
      var rs := routes[from];
      deposited := 0;
      var i := 0;
      while i < |rs|
        invariant 0 <= i <= |rs| && deposited == Vested(rs, i, amount)
        invariant ledger.accountQi == AfterVesting(old(ledger.accountQi), rs, i, amount)
      {
        if rs[i].vest {
          var deposit := Share(amount, rs[i].percent);
          ShareBounds(amount, rs[i].percent);
          deposited := deposited + deposit;
          if deposit > 0 {
            ledger.accountQi := Plus(ledger.accountQi, rs[i].to, deposit);
          } else {
            PlusNothing(ledger.accountQi, rs[i].to);
          }
        }
        i := i + 1;
      }
    }

    method PayYang(from: AccountId, amount: nat) returns (deposited: int)
      requires from in routes && RoutesOk(routes[from], yang.Keys)
      modifies `yang, ledger`totals
      ensures yang == AfterCashing(old(yang), routes[from], |routes[from]|, amount)
      ensures deposited == Cashed(routes[from], |routes[from]|, amount)
      ensures ledger.totals == old(ledger.totals).(qi := old(ledger.totals).qi - deposited)
    {
      hide Share;
      var rs := routes[from];
      deposited := 0;
      var i := 0;
      while i < |rs|
        invariant 0 <= i <= |rs| && deposited == Cashed(rs, i, amount)
        invariant yang == AfterCashing(old(yang), rs, i, amount)
        invariant ledger.totals == old(ledger.totals).(qi := old(ledger.totals).qi - deposited)
      {
        if !rs[i].vest {
          var deposit := Share(amount, rs[i].percent);
          ShareBounds(amount, rs[i].percent);
          deposited := deposited + deposit;
          if deposit > 0 {
            yang := Plus(yang, rs[i].to, Yang(deposit));
            ledger.totals := ledger.totals.(qi := ledger.totals.qi - deposit);
          } else {
            PlusNothing(yang, rs[i].to);
          }
        }
        i := i + 1;
      }
    }

    /** The account is charged, gets the rest as YANG, and its plan moves on. */
    method PayRest(from: AccountId, amount: int, toConvert: int)
      requires from in ledger.accountQi && from in yang && from in plans
      modifies `yang, `plans, ledger`accountQi, ledger`totals
      ensures ledger.accountQi == Plus(old(ledger.accountQi), from, 0 - amount)
      ensures yang == Plus(old(yang), from, Yang(toConvert))
      ensures plans == old(plans)[from := Advanced(old(plans)[from], amount, ledger.accountQi[from])]
      ensures ledger.totals == old(ledger.totals).(qi := old(ledger.totals).qi - toConvert)
    {
      ledger.accountQi := Plus(ledger.accountQi, from, 0 - amount);
      yang := Plus(yang, from, Yang(toConvert));
      plans := plans[from := Advanced(plans[from], amount, ledger.accountQi[from])];
      ledger.totals := ledger.totals.(qi := ledger.totals.qi - toConvert);
    }

    /** Takes the amount of one withdrawal out, along the routes first. */
    method TakeOut(from: AccountId) returns (amount: int)
      requires Valid() && from in ledger.accountQi && from in plans && from in routes && plans[from].rate > 0
      requires plans[from].toWithdraw >= 0
      modifies `yang, `plans, ledger`accountQi, ledger`totals
      ensures Valid()
      ensures amount == Amount(old(plans)[from], old(ledger.accountQi)[from]) >= 0
      ensures ledger.accountQi
        == Plus(AfterVesting(old(ledger.accountQi), routes[from], |routes[from]|, amount), from, 0 - amount)
      ensures ledger.accountQi.Keys == old(ledger.accountQi).Keys == yang.Keys == old(yang).Keys
      ensures forall x :: x in ledger.accountQi ==>
                ledger.accountQi[x] == old(ledger.accountQi)[x] + QiTo(routes[from], |routes[from]|, amount, x)
                                       - if x == from then amount else 0
      ensures forall x :: x in yang ==>
                yang[x] == old(yang)[x] + YangTo(routes[from], |routes[from]|, amount, x)
                           + if x == from then (amount - Routed(routes[from], |routes[from]|, amount)) / QI_PER_YANG else 0
      ensures ledger.Worth() == old(ledger.Worth()) - amount + Vested(routes[from], |routes[from]|, amount)
      ensures Sum(yang) == Sum(old(yang)) + PaidYang(routes[from], amount)
      ensures plans == old(plans)[from := Advanced(old(plans)[from], amount, ledger.accountQi[from])]
    {
      hide Sum, NonNegative, ResourcesOk, ResourceWorth, Share, Plus, AfterVesting, AfterCashing, Vested, Cashed,
        CashedYang,
        RoutesOk, Amount, Yang, Advanced, PaidYang, QiTo, YangTo, Routed;
      var p := plans[from];
      var n := |routes[from]|;
      Qi(ledger, from);
      amount := Amount(p, ledger.accountQi[from]);
      AmountBounds(p, ledger.accountQi[from]);
      TakenOut(ledger.accountQi, yang, routes[from], from, amount);
      WhoGets(ledger.accountQi, yang, routes[from], from, amount);
      var asQi := PayQi(from, amount);
      var asYang := PayYang(from, amount);
      PayRest(from, amount, amount - asYang - asQi);
    }

    /** One account's withdrawal. What the YANG payouts lose to rounding is all that can change the supply,
        and it does so unless the Qi pool's own remainder covers it. */
    method Withdraw(from: AccountId) returns (amount: int)
      requires Valid() && from in ledger.accountQi && from in plans && from in routes && plans[from].rate > 0
      requires plans[from].toWithdraw >= 0
      modifies `yang, `plans, ledger`accountQi, ledger`totals
      ensures Valid()
      ensures amount == Amount(old(plans)[from], old(ledger.accountQi)[from]) >= 0
      ensures var p := old(plans)[from];
              var due := if p.toWithdraw - p.withdrawn < p.rate then p.toWithdraw % p.rate else p.rate;
              amount == if due <= old(ledger.accountQi)[from] then due else old(ledger.accountQi)[from]
      ensures ledger.accountQi
        == Plus(AfterVesting(old(ledger.accountQi), routes[from], |routes[from]|, amount), from, 0 - amount)
      ensures ledger.accountQi.Keys == old(ledger.accountQi).Keys == yang.Keys == old(yang).Keys
      ensures forall x :: x in ledger.accountQi ==>
                ledger.accountQi[x] == old(ledger.accountQi)[x] + QiTo(routes[from], |routes[from]|, amount, x)
                                       - if x == from then amount else 0
      ensures forall x :: x in yang ==>
                yang[x] == old(yang)[x] + YangTo(routes[from], |routes[from]|, amount, x)
                           + if x == from then (amount - Routed(routes[from], |routes[from]|, amount)) / QI_PER_YANG else 0
      ensures ledger.Worth() == old(ledger.Worth()) - amount + Vested(routes[from], |routes[from]|, amount)
      ensures Supply() <= old(Supply())
      ensures old(Supply()) - Supply() <= Payouts(routes[from], |routes[from]|) + 1
      ensures Supply() == old(Supply()) <==> Dust(routes[from], amount) <= old(ledger.Worth()) % QI_PER_YANG
      ensures plans == old(plans)[from := Advanced(old(plans)[from], amount, ledger.accountQi[from])]
      ensures var p := old(plans)[from];
              var done := p.withdrawn + amount;
              plans == old(plans)[from :=
                if done >= p.toWithdraw || ledger.accountQi[from] == 0 then Plan(0, p.toWithdraw, done, NEVER)
                else Plan(p.rate, p.toWithdraw, done, p.next + INTERVAL_SECONDS)]
    {
      hide Sum, NonNegative, ResourcesOk, Plus, AfterVesting, Vested, RoutesOk, Payouts, Yang, Dust,
        PaidYang, Ledger.Balanced, Ledger.Solvent, Ledger.Worth, QiTo, YangTo, Routed;
      ghost var worth, rs := ledger.Worth(), routes[from];
      amount := TakeOut(from);
      DustIs(rs, amount);
      DustBounds(rs, ledger.accountQi.Keys, amount);
      SupplyChange(worth, PaidYang(rs, amount), Dust(rs, amount), Payouts(rs, |rs|) + 1);
    }

    /** One withdrawal after the other until the plan ends, with nothing else happening to the account. */
    method RunPlan(from: AccountId, qi: int) returns (ghost weeks: seq<(int, int)>)
      requires Valid() && from in ledger.accountQi && from in plans && from in routes
      requires qi > 0 && plans[from] == Started(qi, plans[from].next)
      requires forall i :: 0 <= i < |routes[from]| ==> routes[from][i].to != from
      modifies `yang, `plans, ledger`accountQi, ledger`totals
      ensures Valid() && from in plans && from in ledger.accountQi && |weeks| <= INTERVALS
      ensures plans[from] == PlanAfter(old(plans)[from], weeks) && plans[from].rate == 0
      ensures ledger.accountQi[from] == old(ledger.accountQi)[from] - plans[from].withdrawn
      ensures 0 <= plans[from].withdrawn <= qi && (plans[from].withdrawn == qi || ledger.accountQi[from] == 0)
    {
      hide Sum, NonNegative, ResourcesOk, AfterVesting, RoutesOk, Amount, Advanced, PlanAfter, NothingReturns,
        Ledger.Balanced, Ledger.Solvent;
      weeks := [];
      ghost var start := plans[from];
      NoWeeks(start);
      while plans[from].rate > 0
        invariant Valid() && from in ledger.accountQi && from in plans && |weeks| <= INTERVALS
        invariant NothingReturns(start, weeks) && plans[from] == PlanAfter(start, weeks)
        invariant plans[from].toWithdraw == qi
        invariant ledger.accountQi[from] == old(ledger.accountQi)[from] - plans[from].withdrawn
        invariant plans[from].rate <= 0 ==> plans[from].withdrawn >= qi || ledger.accountQi[from] == 0
        decreases INTERVALS - |weeks|
      {
        PlanCompletes(qi, start.next, weeks);
        ghost var plan, before := plans[from], ledger.accountQi[from];
        Qi(ledger, from);
        VestedElsewhere(ledger.accountQi, routes[from], |routes[from]|, Amount(plan, before), from);
        var amount := Withdraw(from);
        OneMoreWeek(start, weeks, before, ledger.accountQi[from]);
        AdvancedShape(plan, amount, ledger.accountQi[from]);
        weeks := weeks + [(before, ledger.accountQi[from])];
      }
      PlanCompletes(qi, start.next, weeks);
    }
  }

  /** What a withdrawal does to the sums of Qi and YANG. */
  lemma {:induction false} TakenOut(qi: Balances, yang: Balances, routes: seq<Route>, from: AccountId, amount: int)
    requires RoutesOk(routes, qi.Keys) && yang.Keys == qi.Keys && from in qi && NonNegative(qi) && 0 <= amount <= qi[from]
    ensures var n := |routes|;
            var q, y := AfterVesting(qi, routes, n, amount), AfterCashing(yang, routes, n, amount);
            var own := amount - Cashed(routes, n, amount) - Vested(routes, n, amount);
            && 0 <= own && NonNegative(Plus(q, from, 0 - amount)) && Plus(q, from, 0 - amount).Keys == qi.Keys
            && Sum(Plus(q, from, 0 - amount)) == Sum(qi) + Vested(routes, n, amount) - amount
            && Plus(y, from, Yang(own)).Keys == qi.Keys && Sum(Plus(y, from, Yang(own))) == Sum(yang) + PaidYang(routes, amount)
  {
    hide Sum, Plus, AfterVesting, AfterCashing, Vested, Cashed, CashedYang, Percents, Yang;
    var n := |routes|;
    var own := amount - Cashed(routes, n, amount) - Vested(routes, n, amount);
    RoutesWithin(routes, qi.Keys, n, amount);
    NeverOverdrawn(routes, qi.Keys, amount);
    VestingSum(qi, routes, n, amount);
    CashingSum(yang, routes, n, amount);
    PlusAt(AfterVesting(qi, routes, n, amount), from, 0 - amount);
    PlusAt(AfterCashing(yang, routes, n, amount), from, Yang(own));
  }

  /** All the YANG that one withdrawal pays. */
  ghost function PaidYang(routes: seq<Route>, amount: int): int {
    var n := |routes|;
    CashedYang(routes, n, amount) + Yang(amount - Cashed(routes, n, amount) - Vested(routes, n, amount))
  }

  /** A plan after one withdrawal: it ends when it is done or the account has nothing left. */
  function Advanced(p: Plan, amount: int, qiLeft: int): Plan {
    var withdrawn := p.withdrawn + amount;
    if withdrawn >= p.toWithdraw || qiLeft == 0
    then p.(withdrawn := withdrawn, rate := 0, next := NEVER)
    else p.(withdrawn := withdrawn, next := p.next + INTERVAL_SECONDS)
  }

  lemma {:induction false} Qi(ledger: Ledger, a: AccountId)
    requires ledger.Valid() && a in ledger.accountQi
    ensures ledger.accountQi[a] >= 0 && NonNegative(ledger.accountQi)
  {
    hide Sum, ResourcesOk;
  }

  /** Taking y YANG and r more Qi out of a pool of Qi that is counted in YANG. */
  lemma {:induction false} SupplyChange(worth: int, y: int, r: int, payouts: nat)
    requires 0 <= r <= (QI_PER_YANG - 1) * payouts
    ensures y + Yang(worth - QI_PER_YANG * y - r) <= Yang(worth)
    ensures Yang(worth) - (y + Yang(worth - QI_PER_YANG * y - r)) <= payouts
    ensures y + Yang(worth - QI_PER_YANG * y - r) == Yang(worth) <==> r <= worth % QI_PER_YANG
  {
  }

  /** An account with 1000 Qi, all there is, withdraws it all and routes half to another account as YANG. Each
      half is worth half a YANG, which is rounded down: one YANG of supply is gone. */
  lemma {:induction false} DustExample()
    ensures var routes := [Route(2, 5000, false)];
            && RoutesOk(routes, {1, 2}) && Dust(routes, 1000) == 1000 > 1000 % QI_PER_YANG
            && PaidYang(routes, 1000) == 0 && PaidYang(routes, 1000) + Yang(1000 - 1000) == Yang(1000) - 1
  {
    assert Share(1000, 5000) == 500;
  }

  // ----- The adores that rest on the Qi -----

  /** The deposits of the first k routes that pay in Qi. */
  function Deposits(routes: seq<Route>, k: nat, amount: nat): (d: seq<(AccountId, nat)>)
    requires k <= |routes| && forall i :: 0 <= i < |routes| ==> routes[i].percent >= 0
  {
    if k == 0 then [] else
      var before := Deposits(routes, k - 1, amount);
      ShareBounds(amount, routes[k - 1].percent);
      if routes[k - 1].vest then before + [(routes[k - 1].to, Share(amount, routes[k - 1].percent))] else before
  }

  lemma {:induction false} RoutesAreDeposits(qi: Balances, routes: seq<Route>, k: nat, amount: nat)
    requires k <= |routes| && RoutesOk(routes, qi.Keys)
    ensures var d := Deposits(routes, k, amount);
            && A.ToAccounts(d, qi.Keys) && A.DepositSum(d) == Vested(routes, k, amount)
            && A.Deposited(qi, d) == AfterVesting(qi, routes, k, amount)
  {
    hide Share;
    if k > 0 {
      RoutesAreDeposits(qi, routes, k - 1, amount);
      var d := Deposits(routes, k, amount);
      if routes[k - 1].vest {
        assert d[..|d| - 1] == Deposits(routes, k - 1, amount);
      }
    }
  }

  /** What a withdrawal's routes do to the accounts' Qi is what the adoration ledger credits, so the withdrawal
      goes through exactly if these deposits have room. */
  lemma {:induction false} WithdrawalIsDeposits(qi: Balances, routes: seq<Route>, from: AccountId, amount: nat)
    requires RoutesOk(routes, qi.Keys) && from in qi && amount <= qi[from]
    ensures var d := Deposits(routes, |routes|, amount);
            && A.ToAccounts(d, qi.Keys) && A.DepositSum(d) <= amount
            && Plus(AfterVesting(qi, routes, |routes|, amount), from, 0 - amount)
               == A.Deposited(qi, d)[from := A.Deposited(qi, d)[from] - amount]
  {
    hide AfterVesting, Vested, Cashed, Share;
    RoutesAreDeposits(qi, routes, |routes|, amount);
    NeverOverdrawn(routes, qi.Keys, amount);
    RoutesWithin(routes, qi.Keys, |routes|, amount);
  }

  // ----- Running a plan -----

  /** A plan as it is set up for so much Qi. */
  function Started(qi: int, next: int): Plan
    requires qi > 0
  {
    Plan(RateFor(qi), qi, 0, next)
  }

  /** A plan after some withdrawals, given the account's Qi before and after each. An ended plan stays. */
  ghost function PlanAfter(p: Plan, weeks: seq<(int, int)>): Plan {
    if weeks == [] then p else
      var n := |weeks| - 1;
      var before := PlanAfter(p, weeks[..n]);
      if before.rate <= 0 then before else Advanced(before, Amount(before, weeks[n].0), weeks[n].1)
  }

  /** While the plan runs, each withdrawal leaves the account with what it did not take. */
  ghost predicate NothingReturns(p: Plan, weeks: seq<(int, int)>) {
    forall k :: 0 <= k < |weeks| ==> Leaves(PlanAfter(p, weeks[..k]), weeks[k].0, weeks[k].1)
  }

  predicate Leaves(p: Plan, before: int, after: int) {
    before >= 0 && (p.rate > 0 ==> after == before - Amount(p, before))
  }

  /** Whatever happens to the account's Qi between withdrawals, a plan that does not pay back to the account takes
      the full rate each week while it runs, ends within the intervals, and never takes more than was asked
      for. It takes less only if it has emptied the account. */
  lemma {:induction false} PlanCompletes(qi: int, next: int, weeks: seq<(int, int)>)
    requires qi > 0 && NothingReturns(Started(qi, next), weeks)
    ensures var p := PlanAfter(Started(qi, next), weeks);
            && p.toWithdraw == qi && 0 <= p.withdrawn <= qi && |weeks| * RateFor(qi) >= 0
            && (p.rate > 0 ==> p.rate == RateFor(qi) && p.withdrawn == |weeks| * RateFor(qi) < qi)
            && (p.rate <= 0 ==> p.rate == 0 && (p.withdrawn == qi || exists k :: 0 <= k < |weeks| && weeks[k].1 == 0))
            && (|weeks| >= INTERVALS ==> p.rate == 0)
  {
    hide NothingReturns;
    var rate := RateFor(qi);
    assert |weeks| * rate >= 0;
    if weeks != [] {
      var n := |weeks| - 1;
      var before := PlanAfter(Started(qi, next), weeks[..n]);
      Shorter(Started(qi, next), weeks);
      PlanCompletes(qi, next, weeks[..n]);
      if before.rate > 0 {
        NextWeek(qi, before, n, weeks[n].0, weeks[n].1);
      }
      if n + 1 >= INTERVALS {
        EnoughWeeks(qi, n + 1);
      }
    }
  }

  lemma {:induction false} EnoughWeeks(qi: int, n: nat)
    requires qi > 0 && n >= INTERVALS
    ensures n * RateFor(qi) >= qi
  {
    assert (n - INTERVALS) * RateFor(qi) >= 0;
    assert n * RateFor(qi) == INTERVALS * RateFor(qi) + (n - INTERVALS) * RateFor(qi);
  }

  lemma {:induction false} NoWeeks(p: Plan)
    ensures PlanAfter(p, []) == p && NothingReturns(p, [])
  {
  }

  lemma {:induction false} OneMoreWeek(p: Plan, weeks: seq<(int, int)>, before: int, after: int)
    requires NothingReturns(p, weeks) && Leaves(PlanAfter(p, weeks), before, after)
    ensures NothingReturns(p, weeks + [(before, after)])
    ensures var last := PlanAfter(p, weeks);
            last.rate > 0 ==> PlanAfter(p, weeks + [(before, after)]) == Advanced(last, Amount(last, before), after)
  {
    hide Leaves;
    var more := weeks + [(before, after)];
    assert more[..|weeks|] == weeks;
    forall k | 0 <= k < |more|
      ensures Leaves(PlanAfter(p, more[..k]), more[k].0, more[k].1)
    {
      if k < |weeks| {
        assert more[..k] == weeks[..k] && more[k] == weeks[k];
      }
    }
  }

  lemma {:induction false} AdvancedShape(p: Plan, amount: int, left: int)
    ensures var p' := Advanced(p, amount, left);
            && p'.toWithdraw == p.toWithdraw && p'.withdrawn == p.withdrawn + amount
            && (p.rate > 0 && p'.rate <= 0 ==> p'.withdrawn >= p.toWithdraw || left == 0)
  {
  }

  /** Routes to others leave the account's own Qi as it is. */
  lemma {:induction false} VestedElsewhere(qi: Balances, routes: seq<Route>, k: nat, amount: int, from: AccountId)
    requires k <= |routes| && from in qi && RoutesOk(routes, qi.Keys) && forall i :: 0 <= i < |routes| ==> routes[i].to != from
    ensures AfterVesting(qi, routes, k, amount)[from] == qi[from]
  {
    hide Share;
    if k > 0 {
      VestedElsewhere(qi, routes, k - 1, amount, from);
    }
  }

  lemma {:induction false} Shorter(p: Plan, weeks: seq<(int, int)>)
    requires weeks != [] && NothingReturns(p, weeks)
    ensures NothingReturns(p, weeks[..|weeks| - 1])
    ensures Leaves(PlanAfter(p, weeks[..|weeks| - 1]), weeks[|weeks| - 1].0, weeks[|weeks| - 1].1)
  {
    hide PlanAfter, Leaves;
    var rest := weeks[..|weeks| - 1];
    forall k | 0 <= k < |rest|
      ensures Leaves(PlanAfter(p, rest[..k]), rest[k].0, rest[k].1)
    {
      assert rest[..k] == weeks[..k] && rest[k] == weeks[k];
    }
  }

  /** One more withdrawal of a plan that has taken the full rate n times. */
  lemma {:induction false} NextWeek(qi: int, p: Plan, n: nat, before: int, after: int)
    requires qi > 0 && p.toWithdraw == qi && p.rate == RateFor(qi) && p.withdrawn == n * RateFor(qi) < qi
    requires Leaves(p, before, after)
    ensures var p' := Advanced(p, Amount(p, before), after);
            && p'.toWithdraw == qi && 0 <= p'.withdrawn <= qi
            && (p'.rate > 0 ==> p'.rate == RateFor(qi) && p'.withdrawn == (n + 1) * RateFor(qi) < qi)
            && (p'.rate <= 0 ==> p'.rate == 0 && (p'.withdrawn == qi || after == 0))
  {
    var rate := RateFor(qi);
    assert (n + 1) * rate == n * rate + rate;
    if qi - p.withdrawn < rate {
      Remainder(qi, rate, n);
    }
  }

  /** A single route that pays everything back to the account as Qi leaves it with what it had. */
  lemma {:induction false} PaidBack(qi: Balances, from: AccountId, amount: nat)
    requires from in qi
    ensures var routes := [Route(from, HUNDRED_PERCENT, true)];
            RoutesOk(routes, qi.Keys) && Plus(AfterVesting(qi, routes, 1, amount), from, 0 - amount) == qi
  {
    var routes := [Route(from, HUNDRED_PERCENT, true)];
    assert Share(amount, HUNDRED_PERCENT) == amount;
    assert AfterVesting(qi, routes, 0, amount) == qi;
  }

  /** A route back to the account breaks this: 11 Qi at 3 a week, the account holds only 1 Qi the first week
      but keeps it, and in the end 12 have been taken. */
  lemma {:induction false} OverdrawnExample()
    ensures PlanAfter(Started(11, 0), [(1, 1), (9, 9), (9, 9), (9, 9), (9, 9)]).withdrawn == 12
  {
    var weeks: seq<(int, int)> := [(1, 1), (9, 9), (9, 9), (9, 9), (9, 9)];
    assert weeks[..4][..3] == weeks[..3] && weeks[..3][..2] == weeks[..2] && weeks[..2][..1] == weeks[..1];
    assert weeks[..1][..0] == [];
    assert PlanAfter(Started(11, 0), weeks[..1]).withdrawn == 1;
    assert PlanAfter(Started(11, 0), weeks[..2]).withdrawn == 4;
    assert PlanAfter(Started(11, 0), weeks[..3]).withdrawn == 7;
    assert PlanAfter(Started(11, 0), weeks[..4]).withdrawn == 10;
  }

  /** A withdrawal takes more than is left of its plan exactly if the remainder of the whole by the rate does, and
      the account has it; that cannot be while full rates have been taken. */
  lemma {:induction false} OverdrawnIf(p: Plan, qi: int)
    requires p.rate > 0 && qi >= 0 && 0 <= p.withdrawn < p.toWithdraw
    ensures var left := p.toWithdraw - p.withdrawn;
            Amount(p, qi) > left <==> left < p.toWithdraw % p.rate && left < qi
    ensures p.withdrawn % p.rate == 0 ==> p.toWithdraw - p.withdrawn >= p.toWithdraw % p.rate
  {
    var left := p.toWithdraw - p.withdrawn;
    if p.withdrawn % p.rate == 0 && left < p.rate {
      assert p.withdrawn == (p.withdrawn / p.rate) * p.rate;
      Remainder(p.toWithdraw, p.rate, p.withdrawn / p.rate);
    }
  }

  /** A running plan takes nothing from an account that has Qi. */
  predicate Stuck(p: Plan) {
    p.rate > 0 && 0 < p.toWithdraw - p.withdrawn < p.rate && p.toWithdraw % p.rate == 0
  }

  /** With Qi in the account a withdrawal takes nothing exactly from a stuck plan, and no plan is stuck that has
      taken full rates only. */
  lemma {:induction false} StuckIf(p: Plan, qi: int)
    requires p.rate > 0 && qi > 0 && 0 <= p.withdrawn < p.toWithdraw
    ensures Amount(p, qi) == 0 <==> Stuck(p)
    ensures p.withdrawn % p.rate == 0 ==> !Stuck(p)
  {
    if p.withdrawn % p.rate == 0 && p.toWithdraw - p.withdrawn < p.rate {
      assert p.withdrawn == (p.withdrawn / p.rate) * p.rate;
      Remainder(p.toWithdraw, p.rate, p.withdrawn / p.rate);
    }
  }

  /** A stuck plan stays so, without ending, for as long as the account does not run empty. */
  lemma {:induction false} StuckForever(p: Plan, weeks: seq<(int, int)>)
    requires Stuck(p) && forall k :: 0 <= k < |weeks| ==> weeks[k].0 >= 0 && weeks[k].1 != 0
    ensures PlanAfter(p, weeks) == p.(next := p.next + |weeks| * INTERVAL_SECONDS)
  {
    if weeks != [] {
      StuckForever(p, weeks[..|weeks| - 1]);
    }
  }

  /** With everything paid back, 12 Qi at 3 a week and 1 Qi the first week: 10 are taken, and the other 2 never. */
  lemma {:induction false} StuckExample()
    ensures var p := PlanAfter(Started(12, 0), [(1, 1), (9, 9), (9, 9), (9, 9)]); p.withdrawn == 10 && Stuck(p)
  {
    var weeks: seq<(int, int)> := [(1, 1), (9, 9), (9, 9), (9, 9)];
    assert weeks[..3][..2] == weeks[..2] && weeks[..2][..1] == weeks[..1] && weeks[..1][..0] == [];
    assert PlanAfter(Started(12, 0), weeks[..1]).withdrawn == 1;
    assert PlanAfter(Started(12, 0), weeks[..2]).withdrawn == 4;
    assert PlanAfter(Started(12, 0), weeks[..3]).withdrawn == 7;
  }
}
