/** Heartbeats of NFAs: which are visited in a block, what a visit costs, and how long one can wait. */
module NfaTick {
  import opened Entities
  import opened MapSums
  import opened Percent
  import opened QiLedger
  import opened Sets

  const PERIOD := 100
  const DISABLED := 0xFFFF_FFFF
  const BASE_COST := 50
  const TREASURY_PERCENT := 2000

  /** When each NFA is due. */
  type Ticks = map<NfaId, int>

  /** The order of the tick index. */
  predicate Sooner(next: Ticks, x: NfaId, y: NfaId)
    requires x in next && y in next
  {
    next[x] < next[y] || (next[x] == next[y] && x < y)
  }

  /** How many NFAs one block visits at most. */
  function RunNum(n: nat): nat {
    n / PERIOD + 1
  }

  /** In one period there is a visit for every NFA, and no more than one round too many. */
  lemma {:induction false} RunNumIs(n: nat)
    ensures PERIOD * (RunNum(n) - 1) <= n < PERIOD * RunNum(n)
  {
  }

  /** The first NFAs in tick order that are due, up to the number for one block. */
  ghost predicate FirstDue(next: Ticks, visited: set<NfaId>, now: int) {
    && visited <= next.Keys && |visited| <= RunNum(|next|)
    && (forall x :: x in visited ==> next[x] <= now)
    && (forall x, y :: x in visited && y in next && y !in visited ==> Sooner(next, x, y))
    && (|visited| < RunNum(|next|) ==> forall x :: x in next && next[x] <= now ==> x in visited)
  }

  /** Only NFAs that are due are visited, at most one in a hundred and one more; one that is due and not visited finds
      that number reached by NFAs due before it, or at the same time with a lower id. */
  lemma {:induction false} OnlyDue(next: Ticks, visited: set<NfaId>, now: int)
    requires FirstDue(next, visited, now)
    ensures |visited| <= |next| / 100 + 1 && forall x :: x in visited ==> x in next && next[x] <= now
    ensures forall y :: y in next && y !in visited && next[y] <= now ==>
      && |visited| == |next| / 100 + 1
      && forall x :: x in visited ==> next[x] < next[y] || (next[x] == next[y] && x < y)
  {
  }

  /** One block: the first due are visited, and are due again a period later or switched off; NFAs may be
      created, which start switched off, or be switched off by contracts. Nothing is switched on. */
  ghost predicate TickStep(next: Ticks, visited: set<NfaId>, next': Ticks, now: int) {
    && FirstDue(next, visited, now) && next.Keys <= next'.Keys
    && (forall x :: x in visited ==> next'[x] == now + PERIOD || next'[x] == DISABLED)
    && (forall x :: x in next && x !in visited ==> next'[x] == next[x] || next'[x] == DISABLED)
    && forall x :: x in next' && x !in next ==> next'[x] == DISABLED
  }

  /** The NFAs that come before x. */
  ghost function Ahead(next: Ticks, x: NfaId): set<NfaId>
    requires x in next
  {
    set y | y in next && Sooner(next, y, x)
  }

  /** While a due NFA waits, each block takes a full round out of those ahead of it. */
  lemma {:induction false} QueueShrinks(next: Ticks, visited: set<NfaId>, next': Ticks, now: int, x: NfaId)
    requires TickStep(next, visited, next', now) && x in next && next[x] <= now < DISABLED - PERIOD
    requires x !in visited && next'[x] == next[x]
    ensures |Ahead(next', x)| + RunNum(|next|) <= |Ahead(next, x)|
  {
    var before, after := Ahead(next, x), Ahead(next', x);
    assert |visited| == RunNum(|next|);
    assert visited <= before;
    forall y | y in after
      ensures y in before && y !in visited
    {
    }
    assert after <= before - visited;
    SubsetCount(after, before - visited);
    SubsetCount(visited, before);
    assert |before - visited| == |before| - |visited| by {
      assert before == (before - visited) + visited;
    }
  }

  /** Consecutive blocks from `start` on. */
  ghost predicate Run(states: seq<Ticks>, visits: seq<set<NfaId>>, start: int) {
    && |states| == |visits| + 1
    && forall m :: 0 <= m < |visits| ==> TickStep(states[m], visits[m], states[m + 1], start + m)
  }

  /** x is neither visited in block i of a run nor switched off. */
  ghost predicate WaitsAt(states: seq<Ticks>, visits: seq<set<NfaId>>, x: NfaId, i: nat)
    requires |states| == |visits| + 1 && i < |visits|
  {
    x in states[i + 1] && x !in visits[i] && states[i + 1][x] != DISABLED
  }

  /** x waits through the first m blocks of a run. */
  ghost predicate Waits(states: seq<Ticks>, visits: seq<set<NfaId>>, x: NfaId, m: nat)
    requires |states| == |visits| + 1
  {
    forall i :: 0 <= i < m && i < |visits| ==> WaitsAt(states, visits, x, i)
  }

  /** After m blocks of waiting at most so many are still ahead. */
  lemma {:induction false} AheadAfter(states: seq<Ticks>, visits: seq<set<NfaId>>, start: int, x: NfaId, m: nat)
    requires Run(states, visits, start) && m <= |visits| && Waits(states, visits, x, m)
    requires x in states[0] && states[0][x] <= start && start + |visits| < DISABLED - PERIOD
    ensures x in states[m] && states[m][x] == states[0][x] && |states[0]| <= |states[m]|
    ensures |Ahead(states[m], x)| + m * RunNum(|states[0]|) <= |Ahead(states[0], x)|
  {
    if m > 0 {
      AheadAfter(states, visits, start, x, m - 1);
      assert WaitsAt(states, visits, x, m - 1);
      assert TickStep(states[m - 1], visits[m - 1], states[m - 1 + 1], start + (m - 1));
      QueueShrinks(states[m - 1], visits[m - 1], states[m], start + m - 1, x);
      SubsetCount(states[m - 1].Keys, states[m].Keys);
      SizeOfKeys(states[m - 1]);
      SizeOfKeys(states[m]);
      assert RunNum(|states[m - 1]|) >= RunNum(|states[0]|);
      assert m * RunNum(|states[0]|) == (m - 1) * RunNum(|states[0]|) + RunNum(|states[0]|);
    }
  }

  lemma {:induction false} SizeOfKeys(next: Ticks)
    ensures |next| == |next.Keys|
  {
  }

  /** Bounded wait: within one period an NFA that is due is visited or switched off, however many there
      are and however many are created meanwhile. */
  lemma {:induction false} DueWithinPeriod(states: seq<Ticks>, visits: seq<set<NfaId>>, start: int, x: NfaId)
    requires Run(states, visits, start) && |visits| == PERIOD
    requires x in states[0] && states[0][x] <= start && start + PERIOD < DISABLED - PERIOD
    ensures !Waits(states, visits, x, PERIOD)
  {
    SizeOfKeys(states[0]);
    assert Ahead(states[0], x) <= states[0].Keys - {x};
    SubsetCount(Ahead(states[0], x), states[0].Keys - {x});
    assert PERIOD * RunNum(|states[0]|) > |states[0]|;
    if Waits(states, visits, x, PERIOD) {
      AheadAfter(states, visits, start, x, PERIOD);
      assert false;
    }
  }

  /** An NFA with a full round ahead of it has to wait. */
  lemma {:induction false} WaitsWhileOthersAhead(next: Ticks, visited: set<NfaId>, now: int, x: NfaId)
    requires FirstDue(next, visited, now) && x in next && |Ahead(next, x)| >= RunNum(|next|)
    ensures x !in visited
  {
    var all := Ahead(next, x) + {x};
    assert x !in Ahead(next, x);
    assert |all| > RunNum(|next|);
    if x in visited {
      assert forall y :: y in all ==> y in visited;
      SubsetCount(all, visited);
      assert false;
    }
  }

  /** What an NFA's main contract does when its heart beats: nothing, or it uses some of the virtual
      machine and some of the node's services, and may fail. */
  datatype Heartbeat = NoEntry | Beat(used: nat, services: nat, fails: bool)

  /** What a beat costs: the contract owner and the treasury share the use, the treasury has the rest. */
  function Cost(beat: Heartbeat): nat
    requires beat.Beat?
  {
    beat.used + BASE_COST + beat.services
  }

  /** Every NFA has a debt, which may be zero, and someone to owe it to. */
  ghost predicate DebtsOk(debt: map<NfaId, int>, creditor: map<NfaId, AccountId>, nfas: set<NfaId>,
                          accounts: set<AccountId>) {
    && debt.Keys == nfas && creditor.Keys == nfas && (forall n :: n in debt ==> debt[n] >= 0)
    && forall n :: n in creditor ==> creditor[n] in accounts
  }

  lemma {:induction false} DebtOf(debt: map<NfaId, int>, creditor: map<NfaId, AccountId>, nfas: set<NfaId>,
                                  accounts: set<AccountId>, n: NfaId)
    requires DebtsOk(debt, creditor, nfas, accounts) && n in nfas
    ensures n in debt && n in creditor && debt[n] >= 0 && creditor[n] in accounts
    ensures DebtsOk(debt[n := 0], creditor, nfas, accounts) && (debt[n] == 0 ==> debt[n := 0] == debt)
  {
  }

  lemma {:induction false} Indebted(debt: map<NfaId, int>, creditor: map<NfaId, AccountId>, nfas: set<NfaId>,
                                    accounts: set<AccountId>, n: NfaId, owed: nat, to: AccountId)
    requires DebtsOk(debt, creditor, nfas, accounts) && n in nfas && to in accounts
    ensures DebtsOk(debt[n := owed], creditor[n := to], nfas, accounts)
  {
  }

  class Ticker {
    const ledger: Ledger
    const treasury: AccountId
    var next: Ticks
    var debt: map<NfaId, int>
    var creditor: map<NfaId, AccountId>

    ghost predicate Valid()
      reads this, ledger
    {
      && ledger.Valid() && treasury in ledger.accountQi && next.Keys == ledger.nfaQi.Keys
      && DebtsOk(debt, creditor, ledger.nfaQi.Keys, ledger.accountQi.Keys)
    }

    constructor (ledger: Ledger, treasury: AccountId)
      requires ledger.Valid() && treasury in ledger.accountQi
      ensures Valid() && this.ledger == ledger && this.treasury == treasury
    {
      this.ledger, this.treasury := ledger, treasury;
      next := map n | n in ledger.nfaQi :: DISABLED;
      debt := map n | n in ledger.nfaQi :: 0;
      creditor := map n | n in ledger.nfaQi :: treasury;
    }

    /** Charges a beat: what the NFA cannot pay becomes debt. Of a cost that it can pay, the contract owner
        has the use less a fifth; of one that it cannot, four fifths of all it has. */
    method Bill(nfa: NfaId, owner: AccountId, beat: Heartbeat) returns (owed: nat)
      requires Valid() && nfa in ledger.nfaQi && owner in ledger.accountQi && beat.Beat?
      modifies ledger`nfaQi, ledger`feigang, ledger`totals
      ensures Valid() && ledger.Worth() == old(ledger.Worth())
      ensures ledger.nfaQi.Keys == old(ledger.nfaQi).Keys
      ensures old(ledger.nfaQi)[nfa] - ledger.nfaQi[nfa] + owed == Cost(beat)
      ensures owed > 0 <==> Cost(beat) > old(ledger.nfaQi)[nfa]
      ensures owed > 0 ==> ledger.nfaQi[nfa] == 0
      ensures ledger.nfaQi == old(ledger.nfaQi)[nfa := ledger.nfaQi[nfa]]
      ensures
        var charged := if owed > 0 then old(ledger.nfaQi)[nfa] else beat.used;
        var fee := charged * TREASURY_PERCENT / HUNDRED_PERCENT;
        var rest := if owed > 0 then 0 else BASE_COST + beat.services;
        && ledger.feigang == Credit(Credit(old(ledger.feigang), owner, charged - fee), treasury, rest + fee)
        && ledger.feigang.Keys == old(ledger.feigang).Keys
        && forall x :: x in ledger.feigang ==>
             ledger.feigang[x] == old(ledger.feigang)[x] + (if x == owner then charged - fee else 0)
                                  + if x == treasury then rest + fee else 0
    {
      hide Sum, NonNegative, ResourcesOk, ResourceWorth, Ledger.Shaped, Ledger.Balanced, Ledger.Solvent,
        Ledger.Worth, DebtsOk;
      NfaHas(ledger, nfa);
      var usedQi: int := beat.used;
      var exeQi: int := BASE_COST + beat.services;
      owed := 0;
      if usedQi + exeQi > ledger.nfaQi[nfa] {
        owed := usedQi + exeQi - ledger.nfaQi[nfa];
        usedQi := ledger.nfaQi[nfa];
        exeQi := 0;
      }
      var fee := usedQi * TREASURY_PERCENT / HUNDRED_PERCENT;
      usedQi := usedQi - fee;
      if usedQi > 0 {
        var paid := ledger.RewardFeigangFromNfa(owner, nfa, usedQi);
      }
      if exeQi + fee > 0 {
        var paid := ledger.RewardFeigangFromNfa(treasury, nfa, exeQi + fee);
      }
    }

    /** Pays what an NFA owes for an earlier beat, if it can. */
    method SettleDebt(nfa: NfaId) returns (able: bool)
      requires Valid() && nfa in next
      modifies `debt, ledger`nfaQi, ledger`feigang, ledger`totals
      ensures Valid() && ledger.Worth() == old(ledger.Worth()) && ledger.nfaQi.Keys == old(ledger.nfaQi).Keys
      ensures nfa in old(debt) && nfa in creditor
      ensures able <==> old(debt)[nfa] <= old(ledger.nfaQi)[nfa]
      ensures !able ==> debt == old(debt) && ledger.nfaQi == old(ledger.nfaQi) && ledger.feigang == old(ledger.feigang)
      ensures able ==> debt == old(debt)[nfa := 0]
      ensures able ==> ledger.nfaQi == old(ledger.nfaQi)[nfa := old(ledger.nfaQi)[nfa] - old(debt)[nfa]]
      ensures able ==> ledger.feigang == Credit(old(ledger.feigang), creditor[nfa], old(debt)[nfa])
      ensures ledger.feigang.Keys == old(ledger.feigang).Keys
      ensures able ==> forall x :: x in ledger.feigang ==>
        ledger.feigang[x] == old(ledger.feigang)[x] + if x == creditor[nfa] then old(debt)[nfa] else 0
    {
      hide Sum, NonNegative, ResourcesOk, ResourceWorth, Ledger.Shaped, Ledger.Balanced, Ledger.Solvent,
        Ledger.Worth, DebtsOk;
      NfaHas(ledger, nfa);
      DebtOf(debt, creditor, ledger.nfaQi.Keys, ledger.accountQi.Keys, nfa);
      CreditAt(ledger.feigang, creditor[nfa], debt[nfa]);
      if debt[nfa] > 0 {
        if debt[nfa] > ledger.nfaQi[nfa] {
          return false;
        }
        var paid := ledger.RewardFeigangFromNfa(creditor[nfa], nfa, debt[nfa]);
        debt := debt[nfa := 0];
      }
      return true;
    }

    /** Bills a beat, and keeps as debt to the contract's owner what the NFA cannot pay. */
    method Charge(nfa: NfaId, owner: AccountId, beat: Heartbeat) returns (short: bool)
      requires Valid() && nfa in ledger.nfaQi && owner in ledger.accountQi && beat.Beat?
      requires nfa in debt && debt[nfa] == 0
      modifies `debt, `creditor, ledger`nfaQi, ledger`feigang, ledger`totals
      ensures Valid() && ledger.Worth() == old(ledger.Worth())
      ensures short <==> Cost(beat) > old(ledger.nfaQi)[nfa]
      ensures
        var cost, left := Cost(beat), old(ledger.nfaQi)[nfa];
        && debt == old(debt)[nfa := if short then cost - left else 0]
        && creditor == (if short then old(creditor)[nfa := owner] else old(creditor))
        && ledger.nfaQi == old(ledger.nfaQi)[nfa := if short then 0 else left - cost]
        && ledger.feigang.Keys == old(ledger.feigang).Keys
        && forall x :: x in ledger.feigang ==>
             ledger.feigang[x] == old(ledger.feigang)[x] + (if x == owner then OwnerPart(left, beat) else 0)
               + if x == treasury then TreasuryPart(left, beat) else 0
    {
      hide Sum, NonNegative, ResourcesOk, ResourceWorth, Ledger.Shaped, Ledger.Balanced, Ledger.Solvent,
        Ledger.Worth, DebtsOk, Credit, Cost;
      var owed := Bill(nfa, owner, beat);
      if owed > 0 {
        Indebted(debt, creditor, ledger.nfaQi.Keys, ledger.accountQi.Keys, nfa, owed, owner);
        debt := debt[nfa := owed];
        creditor := creditor[nfa := owner];
      }
      return owed > 0;
    }

    /** One NFA's turn: old debt first, or its ticking ends; then its heart beats. The old debt goes to its creditor.
        If the NFA can pay the beat, the contract's owner gets the use less a fifth, and the treasury the rest; if
        not, they share all it has, and the owner is owed what is missing. */
    method Visit(nfa: NfaId, owner: AccountId, beat: Heartbeat, now: int)
      requires Valid() && nfa in next && owner in ledger.accountQi
      modifies `next, `debt, `creditor, ledger`nfaQi, ledger`feigang, ledger`totals
      ensures Valid() && ledger.Worth() == old(ledger.Worth()) && ledger.nfaQi.Keys == old(ledger.nfaQi).Keys
      ensures nfa in old(debt) && nfa in old(creditor) && debt.Keys == old(debt).Keys
      ensures ledger.feigang.Keys == old(ledger.feigang).Keys
      ensures
        var q, d := old(ledger.nfaQi)[nfa], old(debt)[nfa];
        var cost := if beat.Beat? then beat.used + BASE_COST + beat.services else 0;
        && next == old(next)[nfa :=
             if d > q || beat.NoEntry? || beat.fails || cost > q - d then DISABLED else now + PERIOD]
        && debt == old(debt)[nfa := if d > q then d else if cost > q - d then cost - (q - d) else 0]
        && creditor == old(creditor)[nfa := if d <= q && cost > q - d then owner else old(creditor)[nfa]]
        && ledger.nfaQi
           == old(ledger.nfaQi)[nfa := if d > q then q else if cost > q - d then 0 else q - d - cost]
      ensures forall x :: x in ledger.feigang ==>
        ledger.feigang[x] == old(ledger.feigang)[x]
          + Earned(old(ledger.nfaQi)[nfa], old(debt)[nfa], old(creditor)[nfa], owner, treasury, beat, x)
    {
      hide Sum, NonNegative, ResourcesOk, ResourceWorth, Ledger.Shaped, Ledger.Balanced, Ledger.Solvent,
        Ledger.Worth, DebtsOk, Credit, OwnerPart, TreasuryPart;
      var able := SettleDebt(nfa);
      if !able {
        next := next[nfa := DISABLED];
        return;
      }
      ghost var left := ledger.nfaQi;
      HeartBeat(nfa, owner, beat, now);
      UpdatedTwice(old(debt), nfa, 0, debt[nfa]);
      UpdatedTwice(old(ledger.nfaQi), nfa, left[nfa], ledger.nfaQi[nfa]);
    }

    /** The beat of an NFA without debt, if its main contract has one. */
    method HeartBeat(nfa: NfaId, owner: AccountId, beat: Heartbeat, now: int)
      requires Valid() && nfa in next && owner in ledger.accountQi
      requires nfa in ledger.nfaQi && nfa in debt && debt[nfa] == 0 && nfa in creditor
      modifies `next, `debt, `creditor, ledger`nfaQi, ledger`feigang, ledger`totals
      ensures Valid() && ledger.Worth() == old(ledger.Worth()) && ledger.feigang.Keys == old(ledger.feigang).Keys
      ensures
        var q := old(ledger.nfaQi)[nfa];
        var cost := if beat.Beat? then beat.used + BASE_COST + beat.services else 0;
        && next == old(next)[nfa := if beat.NoEntry? || beat.fails || cost > q then DISABLED else now + PERIOD]
        && debt == old(debt)[nfa := if cost > q then cost - q else 0]
        && creditor == old(creditor)[nfa := if cost > q then owner else old(creditor)[nfa]]
        && ledger.nfaQi == old(ledger.nfaQi)[nfa := if cost > q then 0 else q - cost]
      ensures forall x :: x in ledger.feigang ==>
        ledger.feigang[x] == old(ledger.feigang)[x]
          + (if x == owner then OwnerPart(old(ledger.nfaQi)[nfa], beat) else 0)
          + if x == treasury then TreasuryPart(old(ledger.nfaQi)[nfa], beat) else 0
    {
      hide Sum, NonNegative, ResourcesOk, ResourceWorth, Ledger.Shaped, Ledger.Balanced, Ledger.Solvent,
        Ledger.Worth, DebtsOk, Credit, OwnerPart, TreasuryPart;
      NfaHas(ledger, nfa);
      if beat.NoEntry? {
        PartsMean(ledger.nfaQi[nfa], beat);
        next := next[nfa := DISABLED];
        return;
      }
      next := next[nfa := now + PERIOD];
      var short := Charge(nfa, owner, beat);
      if beat.fails || short {
        UpdatedTwice(old(next), nfa, now + PERIOD, DISABLED);
        next := next[nfa := DISABLED];
      }
    }

    /** The due NFAs that this block visits, in order. */
    method ListDue(now: int) returns (due: seq<NfaId>)
      ensures FirstDue(next, Elements(due), now) && (forall i, j :: 0 <= i < j < |due| ==> due[i] != due[j])
    {
      due := [];
      var runNum := |next| / PERIOD + 1;
      var rest := next.Keys;
      assert next.Keys - rest == {};
      while rest != {} && runNum > 0
        invariant rest <= next.Keys && runNum >= 0 && |due| + runNum == RunNum(|next|)
        invariant Elements(due) == next.Keys - rest && |Elements(due)| == |due|
        invariant forall i, j :: 0 <= i < j < |due| ==> due[i] != due[j]
        invariant forall x :: x in Elements(due) ==> next[x] <= now
        invariant forall x, y :: x in Elements(due) && y in rest ==> Sooner(next, x, y)
        decreases rest
      {
        var first := Soonest(rest);
        if next[first] > now {
          break;
        }
        assert Elements(due + [first]) == Elements(due) + {first};
        assert first !in due;
        due := due + [first];
        runNum := runNum - 1;
        rest := rest - {first};
      }
    }

    method Soonest(rest: set<NfaId>) returns (first: NfaId)
      requires rest != {} && rest <= next.Keys
      ensures first in rest && forall y :: y in rest && y != first ==> Sooner(next, first, y)
    {
      ghost var w := Member(rest);
      first :| first in rest;
      var todo := rest - {first};
      while todo != {}
        invariant todo <= rest && first in rest && first !in todo
        invariant forall y :: y in rest && y !in todo && y != first ==> Sooner(next, first, y)
        decreases todo
      {
        ghost var v := Member(todo);
        var x :| x in todo;
        if Sooner(next, x, first) {
          first := x;
        }
        todo := todo - {x};
      }
    }

    /** One block. Each visited NFA's contract has an owner and beats in some way, and what becomes of the NFA
        depends on these alone. An account has earned what the visits bring it. */
    method ProcessNfaTick(now: int, owners: map<NfaId, AccountId>, beats: map<NfaId, Heartbeat>)
        returns (ghost visited: set<NfaId>)
      requires Valid()
      requires forall n :: n in next ==> n in owners && n in beats && owners[n] in ledger.accountQi
      modifies `next, `debt, `creditor, ledger`nfaQi, ledger`feigang, ledger`totals
      ensures Valid() && ledger.Worth() == old(ledger.Worth())
      ensures TickStep(old(next), visited, next, now) && next.Keys == old(next).Keys
      ensures ledger.feigang.Keys == old(ledger.feigang).Keys && ledger.nfaQi.Keys == old(ledger.nfaQi).Keys
      ensures visited <= next.Keys == ledger.nfaQi.Keys && debt.Keys == old(debt).Keys == next.Keys
      ensures creditor.Keys == old(creditor).Keys == next.Keys
      ensures forall n :: n in visited ==>
        var q, d, beat := old(ledger.nfaQi)[n], old(debt)[n], beats[n];
        var cost := if beat.Beat? then beat.used + BASE_COST + beat.services else 0;
        && next[n] == (if d > q || beat.NoEntry? || beat.fails || cost > q - d then DISABLED else now + PERIOD)
        && debt[n] == (if d > q then d else if cost > q - d then cost - (q - d) else 0)
        && creditor[n] == (if d <= q && cost > q - d then owners[n] else old(creditor)[n])
        && ledger.nfaQi[n] == (if d > q then q else if cost > q - d then 0 else q - d - cost)
      ensures forall n :: n in next && n !in visited ==>
        && next[n] == old(next)[n] && debt[n] == old(debt)[n] && creditor[n] == old(creditor)[n]
        && ledger.nfaQi[n] == old(ledger.nfaQi)[n]
      ensures forall x :: x in ledger.feigang ==>
        ledger.feigang[x] == old(ledger.feigang)[x]
                             + AllEarned(visited, old(ledger.nfaQi), old(debt), old(creditor), owners, treasury, beats, x)
    {
      hide Sum, NonNegative, ResourcesOk, ResourceWorth, Ledger.Shaped, Ledger.Balanced, Ledger.Solvent,
        Ledger.Worth, DebtsOk, AllEarned, Turned, FirstDue, Elements, TickStep;
      TickKeys(this);
      var due := ListDue(now);
      DueKnown(next, due, now, owners, beats, ledger.accountQi.Keys);
      ghost var before, q, d, c := next, ledger.nfaQi, debt, creditor;
      VisitAll(due, owners, beats, now);
      TickKeys(this);
      visited := Elements(due);
      TurnsMean(due, q, d, c, owners, beats, now, next, ledger.nfaQi, debt, creditor);
      IsStep(before, visited, next, now);
    }

    /** Visits one more NFA of those that are due. */
    method VisitNext(due: seq<NfaId>, i: nat, owners: map<NfaId, AccountId>, beats: map<NfaId, Heartbeat>, now: int,
                     ghost before: Table, ghost f: Balances)
      requires Valid() && i < |due| && forall j, k :: 0 <= j < k < |due| ==> due[j] != due[k]
      requires due[i] in next && due[i] in owners && due[i] in beats && owners[due[i]] in ledger.accountQi
      requires VisitsDone(due[..i], before, Table(next, ledger.nfaQi, debt, creditor), f, ledger.feigang, owners,
                          treasury, beats, now)
      modifies `next, `debt, `creditor, ledger`nfaQi, ledger`feigang, ledger`totals
      ensures Valid() && ledger.Worth() == old(ledger.Worth())
      ensures next.Keys == old(next).Keys && ledger.feigang.Keys == old(ledger.feigang).Keys
      ensures VisitsDone(due[..i + 1], before, Table(next, ledger.nfaQi, debt, creditor), f, ledger.feigang, owners,
                         treasury, beats, now)
    {
      hide Sum, NonNegative, ResourcesOk, ResourceWorth, Ledger.Shaped, Ledger.Balanced, Ledger.Solvent,
        Ledger.Worth, DebtsOk, AllEarned, Elements, VisitsDone, Turned, Earned, Valid, Cost;
      TickKeys(this);
      ghost var was, had := Table(next, ledger.nfaQi, debt, creditor), ledger.feigang;
      VisitsKeys(due[..i], before, was, f, had, owners, treasury, beats, now);
      Visit(due[i], owners[due[i]], beats[due[i]], now);
      VisitDone(due, i, before, was, Table(next, ledger.nfaQi, debt, creditor), f, had, ledger.feigang, owners, treasury,
                beats, now);
    }

    /** Visits the NFAs in turn. */
    method VisitAll(due: seq<NfaId>, owners: map<NfaId, AccountId>, beats: map<NfaId, Heartbeat>, now: int)
      requires Valid() && forall j, k :: 0 <= j < k < |due| ==> due[j] != due[k]
      requires forall j :: 0 <= j < |due| ==>
        due[j] in next && due[j] in owners && due[j] in beats && owners[due[j]] in ledger.accountQi
      modifies `next, `debt, `creditor, ledger`nfaQi, ledger`feigang, ledger`totals
      ensures Valid() && ledger.Worth() == old(ledger.Worth())
      ensures next.Keys == old(next).Keys && ledger.feigang.Keys == old(ledger.feigang).Keys
      ensures old(debt).Keys == old(creditor).Keys == old(ledger.nfaQi).Keys == old(next).Keys
      ensures debt.Keys == creditor.Keys == ledger.nfaQi.Keys == old(next).Keys
      ensures forall j :: 0 <= j < |due| ==>
        var n := due[j];
        Turned(old(ledger.nfaQi)[n], old(debt)[n], old(creditor)[n], owners[n], beats[n], now, next[n], ledger.nfaQi[n],
               debt[n], creditor[n])
      ensures forall n :: n in next && n !in due ==>
        && next[n] == old(next)[n] && debt[n] == old(debt)[n] && creditor[n] == old(creditor)[n]
        && ledger.nfaQi[n] == old(ledger.nfaQi)[n]
      ensures forall x :: x in ledger.feigang ==>
        ledger.feigang[x] == old(ledger.feigang)[x]
          + AllEarned(Elements(due), old(ledger.nfaQi), old(debt), old(creditor), owners, treasury, beats, x)
    {
      hide Sum, NonNegative, ResourcesOk, ResourceWorth, Ledger.Shaped, Ledger.Balanced, Ledger.Solvent,
        Ledger.Worth, DebtsOk, AllEarned, Elements, VisitsDone, Turned;
      TickKeys(this);
      ghost var before, f := Table(next, ledger.nfaQi, debt, creditor), ledger.feigang;
      NothingDone(due, before, f, owners, treasury, beats, now);
      var i := 0;
      while i < |due|
        invariant 0 <= i <= |due| && Valid() && ledger.Worth() == old(ledger.Worth())
        invariant next.Keys == old(next).Keys && ledger.feigang.Keys == f.Keys
        invariant VisitsDone(due[..i], before, Table(next, ledger.nfaQi, debt, creditor), f, ledger.feigang, owners,
                             treasury, beats, now)
      {
        VisitNext(due, i, owners, beats, now, before, f);
        i := i + 1;
      }
      assert due[..i] == due;
      TickKeys(this);
      AllDone(due, before, Table(next, ledger.nfaQi, debt, creditor), f, ledger.feigang, owners, treasury, beats, now);
    }
  }

  /** What becomes of an NFA with q Qi that owes d to c, when it is visited: when it is due next, its Qi, its debt and
      its creditor. */
  ghost predicate Turned(q: int, d: int, c: AccountId, owner: AccountId, beat: Heartbeat, now: int, t': int, q': int,
                         d': int, c': AccountId) {
    var cost := if beat.Beat? then beat.used + BASE_COST + beat.services else 0;
    && t' == (if d > q || beat.NoEntry? || beat.fails || cost > q - d then DISABLED else now + PERIOD)
    && d' == (if d > q then d else if cost > q - d then cost - (q - d) else 0)
    && c' == (if d <= q && cost > q - d then owner else c)
    && q' == (if d > q then q else if cost > q - d then 0 else q - d - cost)
  }

  /** What an account earns from all visits of a block. */
  ghost function AllEarned(visited: set<NfaId>, q: Balances, d: map<NfaId, int>, c: map<NfaId, AccountId>,
                           owners: map<NfaId, AccountId>, treasury: AccountId, beats: map<NfaId, Heartbeat>,
                           x: AccountId): int {
    Sum(map n | n in visited && n in q && n in d && n in c && n in owners && n in beats ::
          Earned(q[n], d[n], c[n], owners[n], treasury, beats[n], x))
  }

  /** What is kept of each NFA. */
  datatype Table = Table(next: Ticks, qi: Balances, debt: map<NfaId, int>, creditor: map<NfaId, AccountId>)

  ghost predicate SameNfas(s: Table, t: Table) {
    && s.qi.Keys == s.debt.Keys == s.creditor.Keys == s.next.Keys
    && t.qi.Keys == t.debt.Keys == t.creditor.Keys == t.next.Keys == s.next.Keys
  }

  ghost predicate TurnedAt(s: Table, t: Table, n: NfaId, owner: AccountId, beat: Heartbeat, now: int)
    requires SameNfas(s, t) && n in s.next
  {
    Turned(s.qi[n], s.debt[n], s.creditor[n], owner, beat, now, t.next[n], t.qi[n], t.debt[n], t.creditor[n])
  }

  ghost predicate SameAt(s: Table, t: Table, n: NfaId)
    requires SameNfas(s, t) && n in s.next
  {
    t.next[n] == s.next[n] && t.qi[n] == s.qi[n] && t.debt[n] == s.debt[n] && t.creditor[n] == s.creditor[n]
  }

  /** These NFAs have been visited, and no others. */
  ghost predicate VisitsDone(done: seq<NfaId>, s: Table, t: Table, f: Balances, f': Balances,
                             owners: map<NfaId, AccountId>, treasury: AccountId, beats: map<NfaId, Heartbeat>, now: int) {
    && SameNfas(s, t) && f'.Keys == f.Keys
    && (forall n :: n in done && n in s.next && n in owners && n in beats ==> TurnedAt(s, t, n, owners[n], beats[n], now))
    && (forall n :: n in s.next && n !in done ==> SameAt(s, t, n))
    && forall x :: x in f ==>
         f'[x] == f[x] + AllEarned(Elements(done), s.qi, s.debt, s.creditor, owners, treasury, beats, x)
  }

  lemma {:induction false} NothingDone(due: seq<NfaId>, s: Table, f: Balances, owners: map<NfaId, AccountId>,
                                       treasury: AccountId, beats: map<NfaId, Heartbeat>, now: int)
    requires SameNfas(s, s)
    ensures VisitsDone(due[..0], s, s, f, f, owners, treasury, beats, now)
  {
    hide AllEarned, Elements;
    NothingEarned(due, s.qi, s.debt, s.creditor, owners, treasury, beats);
  }

  /** A visit changes what is kept of one NFA. */
  ghost predicate VisitOf(t: Table, t': Table, n: NfaId, owner: AccountId, beat: Heartbeat, now: int)
    requires n in t.qi && n in t.debt && n in t.creditor
  {
    var q, d := t.qi[n], t.debt[n];
    var cost := if beat.Beat? then beat.used + BASE_COST + beat.services else 0;
    && t'.next == t.next[n := if d > q || beat.NoEntry? || beat.fails || cost > q - d then DISABLED else now + PERIOD]
    && t'.debt == t.debt[n := if d > q then d else if cost > q - d then cost - (q - d) else 0]
    && t'.creditor == t.creditor[n := if d <= q && cost > q - d then owner else t.creditor[n]]
    && t'.qi == t.qi[n := if d > q then q else if cost > q - d then 0 else q - d - cost]
  }

  lemma {:induction false} VisitTurns(t: Table, t': Table, n: NfaId, owner: AccountId, beat: Heartbeat, now: int)
    requires SameNfas(t, t) && n in t.next && VisitOf(t, t', n, owner, beat, now)
    ensures SameNfas(t, t') && TurnedAt(t, t', n, owner, beat, now)
    ensures forall m :: m in t.next && m != n ==> SameAt(t, t', m)
  {
  }

  /** One more visit. */
  lemma {:induction false} VisitDone(due: seq<NfaId>, i: nat, s: Table, t: Table, t': Table, f: Balances, had: Balances,
                                     f': Balances, owners: map<NfaId, AccountId>, treasury: AccountId,
                                     beats: map<NfaId, Heartbeat>, now: int)
    requires i < |due| && (forall j, k :: 0 <= j < k < |due| ==> due[j] != due[k])
    requires due[i] in s.next && due[i] in owners && due[i] in beats
    requires VisitsDone(due[..i], s, t, f, had, owners, treasury, beats, now) && f'.Keys == had.Keys
    requires VisitOf(t, t', due[i], owners[due[i]], beats[due[i]], now)
    requires forall x :: x in had ==>
      f'[x] == had[x] + Earned(t.qi[due[i]], t.debt[due[i]], t.creditor[due[i]], owners[due[i]], treasury, beats[due[i]], x)
    ensures VisitsDone(due[..i + 1], s, t', f, f', owners, treasury, beats, now)
  {
    hide AllEarned, Elements, Earned, Turned, VisitOf;
    NextDue(due, i, s.qi, s.debt, s.creditor, owners, treasury, beats);
    assert SameAt(s, t, due[i]);
    VisitTurns(t, t', due[i], owners[due[i]], beats[due[i]], now);
    forall n | n in s.next && n != due[i]
      ensures SameAt(t, t', n)
    {
    }
  }

  lemma {:induction false} VisitsKeys(done: seq<NfaId>, s: Table, t: Table, f: Balances, f': Balances,
                                      owners: map<NfaId, AccountId>, treasury: AccountId, beats: map<NfaId, Heartbeat>,
                                      now: int)
    requires VisitsDone(done, s, t, f, f', owners, treasury, beats, now)
    ensures SameNfas(s, t) && f'.Keys == f.Keys
  {
  }

  lemma {:induction false} AllDone(due: seq<NfaId>, s: Table, t: Table, f: Balances, f': Balances,
                                   owners: map<NfaId, AccountId>, treasury: AccountId, beats: map<NfaId, Heartbeat>,
                                   now: int)
    requires VisitsDone(due, s, t, f, f', owners, treasury, beats, now)
    requires forall j :: 0 <= j < |due| ==> due[j] in s.next && due[j] in owners && due[j] in beats
    ensures forall j :: 0 <= j < |due| ==>
      var n := due[j];
      Turned(s.qi[n], s.debt[n], s.creditor[n], owners[n], beats[n], now, t.next[n], t.qi[n], t.debt[n], t.creditor[n])
    ensures forall n :: n in s.next && n !in due ==>
      t.next[n] == s.next[n] && t.qi[n] == s.qi[n] && t.debt[n] == s.debt[n] && t.creditor[n] == s.creditor[n]
    ensures forall x :: x in f' ==>
      f'[x] == f[x] + AllEarned(Elements(due), s.qi, s.debt, s.creditor, owners, treasury, beats, x)
  {
    hide AllEarned, Elements, Turned;
    forall j | 0 <= j < |due|
      ensures TurnedAt(s, t, due[j], owners[due[j]], beats[due[j]], now)
    {
    }
    forall n | n in s.next && n !in due
      ensures SameAt(s, t, n)
    {
    }
  }

  lemma {:induction false} NothingEarned(due: seq<NfaId>, q: Balances, d: map<NfaId, int>, c: map<NfaId, AccountId>,
                                         owners: map<NfaId, AccountId>, treasury: AccountId, beats: map<NfaId, Heartbeat>)
    ensures forall x :: AllEarned(Elements(due[..0]), q, d, c, owners, treasury, beats, x) == 0
  {
    hide Earned;
    assert Elements(due[..0]) == {};
  }

  lemma {:induction false} OneMoreEarned(visited: set<NfaId>, n: NfaId, q: Balances, d: map<NfaId, int>,
                                         c: map<NfaId, AccountId>, owners: map<NfaId, AccountId>, treasury: AccountId,
                                         beats: map<NfaId, Heartbeat>, x: AccountId)
    requires n in q && n in d && n in c && n in owners && n in beats && n !in visited
    ensures AllEarned(visited + {n}, q, d, c, owners, treasury, beats, x)
         == AllEarned(visited, q, d, c, owners, treasury, beats, x)
            + Earned(q[n], d[n], c[n], owners[n], treasury, beats[n], x)
  {
    hide Earned, Sum;
    var all := map m | m in visited + {n} && m in q && m in d && m in c && m in owners && m in beats ::
      Earned(q[m], d[m], c[m], owners[m], treasury, beats[m], x);
    SumRemove(all, n);
    assert all - {n} == map m | m in visited && m in q && m in d && m in c && m in owners && m in beats ::
      Earned(q[m], d[m], c[m], owners[m], treasury, beats[m], x);
  }

  lemma {:induction false} NextDue(due: seq<NfaId>, i: nat, q: Balances, d: map<NfaId, int>, c: map<NfaId, AccountId>,
                                   owners: map<NfaId, AccountId>, treasury: AccountId, beats: map<NfaId, Heartbeat>)
    requires i < |due| && (forall j, k :: 0 <= j < k < |due| ==> due[j] != due[k])
    requires due[i] in q && due[i] in d && due[i] in c && due[i] in owners && due[i] in beats
    ensures due[i] !in due[..i] && due[..i + 1] == due[..i] + [due[i]]
    ensures forall x :: AllEarned(Elements(due[..i + 1]), q, d, c, owners, treasury, beats, x)
                     == AllEarned(Elements(due[..i]), q, d, c, owners, treasury, beats, x)
                        + Earned(q[due[i]], d[due[i]], c[due[i]], owners[due[i]], treasury, beats[due[i]], x)
  {
    hide Earned, AllEarned;
    assert due[..i + 1] == due[..i] + [due[i]];
    assert Elements(due[..i + 1]) == Elements(due[..i]) + {due[i]};
    forall x
      ensures AllEarned(Elements(due[..i + 1]), q, d, c, owners, treasury, beats, x)
           == AllEarned(Elements(due[..i]), q, d, c, owners, treasury, beats, x)
              + Earned(q[due[i]], d[due[i]], c[due[i]], owners[due[i]], treasury, beats[due[i]], x)
    {
      OneMoreEarned(Elements(due[..i]), due[i], q, d, c, owners, treasury, beats, x);
    }
  }

  lemma {:induction false} DueKnown(next: Ticks, due: seq<NfaId>, now: int, owners: map<NfaId, AccountId>,
                                    beats: map<NfaId, Heartbeat>, accounts: set<AccountId>)
    requires FirstDue(next, Elements(due), now)
    requires forall n :: n in next ==> n in owners && n in beats && owners[n] in accounts
    ensures Elements(due) <= next.Keys && forall n :: n in Elements(due) <==> n in due
    ensures forall j :: 0 <= j < |due| ==>
      due[j] in next && due[j] in owners && due[j] in beats && owners[due[j]] in accounts
  {
    forall j | 0 <= j < |due|
      ensures due[j] in next && due[j] in owners && due[j] in beats && owners[due[j]] in accounts
    {
      var n := due[j];
      assert n in Elements(due);
      assert n in next;
    }
  }

  lemma {:induction false} IsStep(next: Ticks, visited: set<NfaId>, next': Ticks, now: int)
    requires FirstDue(next, visited, now) && next'.Keys == next.Keys
    requires forall n :: n in visited && n in next' ==> next'[n] == DISABLED || next'[n] == now + PERIOD
    requires forall n :: n in next' && n !in visited ==> next'[n] == next[n]
    ensures TickStep(next, visited, next', now)
  {
  }

  lemma {:induction false} TickKeys(ticker: Ticker)
    requires ticker.Valid()
    ensures ticker.next.Keys == ticker.debt.Keys == ticker.creditor.Keys == ticker.ledger.nfaQi.Keys
    ensures ticker.ledger.feigang.Keys == ticker.ledger.accountQi.Keys
  {
    hide Sum, NonNegative, ResourcesOk, Ledger.Balanced, Ledger.Solvent;
  }

  lemma {:induction false} TurnsMean(due: seq<NfaId>, q: Balances, d: map<NfaId, int>, c: map<NfaId, AccountId>,
                                     owners: map<NfaId, AccountId>, beats: map<NfaId, Heartbeat>, now: int, next': Ticks,
                                     q': Balances, d': map<NfaId, int>, c': map<NfaId, AccountId>)
    requires forall j :: 0 <= j < |due| ==>
      due[j] in q && due[j] in d && due[j] in c && due[j] in owners && due[j] in beats
    requires forall j :: 0 <= j < |due| ==> due[j] in next' && due[j] in q' && due[j] in d' && due[j] in c'
    requires forall j :: 0 <= j < |due| ==>
      var n := due[j];
      Turned(q[n], d[n], c[n], owners[n], beats[n], now, next'[n], q'[n], d'[n], c'[n])
    ensures forall n :: n in Elements(due) ==>
      n in due && n in q && n in d && n in c && n in owners && n in beats
    ensures forall n :: n in Elements(due) ==>
      var cost := if beats[n].Beat? then beats[n].used + BASE_COST + beats[n].services else 0;
      && n in next' && n in q' && n in d' && n in c'
      && next'[n] == (if d[n] > q[n] || beats[n].NoEntry? || beats[n].fails || cost > q[n] - d[n] then DISABLED
                      else now + PERIOD)
      && d'[n] == (if d[n] > q[n] then d[n] else if cost > q[n] - d[n] then cost - (q[n] - d[n]) else 0)
      && c'[n] == (if d[n] <= q[n] && cost > q[n] - d[n] then owners[n] else c[n])
      && q'[n] == (if d[n] > q[n] then q[n] else if cost > q[n] - d[n] then 0 else q[n] - d[n] - cost)
  {
  }

  /** A payment, if there is anything to pay. */
  ghost function Credit(b: Balances, k: int, amount: int): Balances {
    if amount > 0 && k in b then Plus(b, k, amount) else b
  }

  lemma {:induction false} UpdatedTwice(m: map<int, int>, k: int, v: int, w: int)
    requires k in m
    ensures m[k := v][k := w] == m[k := w]
  {
  }

  lemma {:induction false} CreditAt(b: Balances, k: int, amount: int)
    requires k in b && amount >= 0
    ensures Credit(b, k, amount).Keys == b.Keys
    ensures forall x :: x in b ==> Credit(b, k, amount)[x] == b[x] + if x == k then amount else 0
  {
  }

  /** What the contract's owner gets of what an NFA with so much left pays for a beat. */
  function OwnerPart(left: int, beat: Heartbeat): int {
    if beat.NoEntry? then 0 else
      var charged := if Cost(beat) > left then left else beat.used;
      charged - charged * TREASURY_PERCENT / HUNDRED_PERCENT
  }

  function TreasuryPart(left: int, beat: Heartbeat): int {
    if beat.NoEntry? then 0 else
      var short := Cost(beat) > left;
      var charged := if short then left else beat.used;
      charged * TREASURY_PERCENT / HUNDRED_PERCENT + if short then 0 else BASE_COST + beat.services
  }

  /** Together the owner and the treasury get what the beat costs, or all that is left; the owner gets four fifths of
      the use, or of what is left, rounded up. */
  lemma {:induction false} PartsMean(left: int, beat: Heartbeat)
    ensures beat.NoEntry? ==> OwnerPart(left, beat) == 0 == TreasuryPart(left, beat)
    ensures beat.Beat? && left >= 0 ==>
      var cost := beat.used + BASE_COST + beat.services;
      var charged := if cost > left then left else beat.used;
      && OwnerPart(left, beat) + TreasuryPart(left, beat) == (if cost > left then left else cost)
      && 4 * charged <= 5 * OwnerPart(left, beat) < 4 * charged + 5
  {
  }

  /** What an account earns from a visit to an NFA with q Qi that owes d to c. */
  ghost function Earned(q: int, d: int, c: AccountId, owner: AccountId, treasury: AccountId, beat: Heartbeat,
                        x: AccountId): int {
    if d > q then 0 else
      (if x == c then d else 0) + (if x == owner then OwnerPart(q - d, beat) else 0)
      + (if x == treasury then TreasuryPart(q - d, beat) else 0)
  }

  /** If old debt can be settled, its creditor gets it, and the contract's owner and the treasury their parts of what the
      beat costs or of what is left; otherwise nobody gets anything. */
  lemma {:induction false} EarnedIs(q: int, d: int, c: AccountId, owner: AccountId, treasury: AccountId, beat: Heartbeat,
                                    x: AccountId)
    ensures d > q ==> Earned(q, d, c, owner, treasury, beat, x) == 0
    ensures d <= q ==>
      Earned(q, d, c, owner, treasury, beat, x)
        == (if x == c then d else 0) + (if x == owner then OwnerPart(q - d, beat) else 0)
           + (if x == treasury then TreasuryPart(q - d, beat) else 0)
  {
  }

  lemma {:induction false} NfaHas(ledger: Ledger, nfa: NfaId)
    requires ledger.Valid() && nfa in ledger.nfaQi
    ensures ledger.nfaQi[nfa] >= 0 && ledger.feigang.Keys == ledger.accountQi.Keys
  {
    hide Sum, ResourcesOk;
  }
}
