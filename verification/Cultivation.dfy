/** Cultivations: NFAs stake Qi together for a while, and beneficiaries share what the time has earned. */
module Cultivation {
  import opened Entities
  import opened Wrappers
  import opened MapSums
  import opened Percent
  import opened FivePhase
  import opened QiLedger
  import opened Sets

  type CultId = int

  const PREPARE_MIN_BLOCKS := 20

  datatype Cult = Cult(manager: NfaId, beneficiaries: seq<Beneficiary>, participants: set<NfaId>,
                       created: int, deadline: int, start: int, lastUpdate: int, accumulated: int)

  ghost predicate CultOk(c: Cult, nfas: set<NfaId>, now: int) {
    && Payable(c.beneficiaries, nfas) && c.accumulated >= 0
    && c.start <= NEVER && (c.start != NEVER ==> c.start <= c.lastUpdate <= now && c.participants != {})
  }

  predicate TakesPart(cults: map<CultId, Cult>, i: CultId, n: NfaId) {
    i in cults && n in cults[i].participants
  }

  /** `home` tells each staked NFA's cultivation; it makes the cultivations' participants disjoint, and
      the NFAs that have a home are those with something at stake. */
  ghost predicate Housed(cults: map<CultId, Cult>, home: map<NfaId, CultId>, stake: Balances) {
    && (forall i, n :: TakesPart(cults, i, n) ==> n in home && home[n] == i)
    && (forall n :: n in home ==> TakesPart(cults, home[n], n) && n in stake)
    && forall n :: n in stake ==> (stake[n] > 0 <==> n in home)
  }

  ghost predicate AllOk(cults: map<CultId, Cult>, nfas: set<NfaId>, now: int) {
    forall i :: i in cults ==> CultOk(cults[i], nfas, now)
  }

  /** No NFA takes part in two cultivations, and exactly those with something at stake take part in one. */
  lemma {:induction false} ParticipantsArePartition(cults: map<CultId, Cult>, home: map<NfaId, CultId>,
                                                    stake: Balances)
    requires Housed(cults, home, stake)
    ensures forall i, j :: i in cults && j in cults && i != j ==> cults[i].participants !! cults[j].participants
    ensures forall n :: n in stake ==> (stake[n] > 0 <==> exists i :: TakesPart(cults, i, n))
  {
    forall i, j | i in cults && j in cults && i != j
      ensures cults[i].participants !! cults[j].participants
    {
      forall n | n in cults[i].participants
        ensures n !in cults[j].participants
      {
        assert TakesPart(cults, i, n) && !TakesPart(cults, j, n);
      }
    }
    assert forall n :: n in home ==> TakesPart(cults, home[n], n);
  }

  lemma {:induction false} JoinKeeps(cults: map<CultId, Cult>, home: map<NfaId, CultId>, stake: Balances, i: CultId,
                                     nfa: NfaId, value: int)
    requires Housed(cults, home, stake) && i in cults && nfa in stake && stake[nfa] == 0 && value > 0
    ensures Housed(cults[i := cults[i].(participants := cults[i].participants + {nfa})], home[nfa := i],
                   Plus(stake, nfa, value))
  {
    var cults' := cults[i := cults[i].(participants := cults[i].participants + {nfa})];
    assert forall j, n :: TakesPart(cults', j, n) <==> TakesPart(cults, j, n) || (j == i && n == nfa);
  }

  function Emptied(c: Cult): Cult {
    c.(participants := {}, start := NEVER, lastUpdate := NEVER, accumulated := 0)
  }

  lemma {:induction false} DissolveKeeps(cults: map<CultId, Cult>, home: map<NfaId, CultId>, stake: Balances,
                                         i: CultId)
    requires Housed(cults, home, stake) && i in cults
    ensures Housed(cults[i := Emptied(cults[i])], home - cults[i].participants, Cleared(stake, cults[i].participants))
  {
    var cults' := cults[i := Emptied(cults[i])];
    assert forall j, n :: TakesPart(cults', j, n) <==> TakesPart(cults, j, n) && j != i;
    assert forall n :: n in cults[i].participants <==> TakesPart(cults, i, n);
  }

  lemma {:induction false} RemoveKeeps(cults: map<CultId, Cult>, home: map<NfaId, CultId>, stake: Balances,
                                       gone: set<CultId>)
    requires Housed(cults, home, stake) && forall i :: i in gone && i in cults ==> cults[i].participants == {}
    ensures Housed(cults - gone, home, stake)
  {
    assert forall j, n :: TakesPart(cults - gone, j, n) <==> TakesPart(cults, j, n);
  }

  /** Same participants, same homes. */
  lemma {:induction false} ReplaceKeeps(cults: map<CultId, Cult>, home: map<NfaId, CultId>, stake: Balances,
                                        i: CultId, c: Cult)
    requires Housed(cults, home, stake) && i in cults && c.participants == cults[i].participants
    ensures Housed(cults[i := c], home, stake)
  {
    var cults' := cults[i := c];
    assert forall j, n :: TakesPart(cults', j, n) <==> TakesPart(cults, j, n);
  }

  lemma {:induction false} CreateKeeps(cults: map<CultId, Cult>, home: map<NfaId, CultId>, stake: Balances,
                                       i: CultId, c: Cult)
    requires Housed(cults, home, stake) && i !in cults && c.participants == {}
    ensures Housed(cults[i := c], home, stake)
  {
    var cults' := cults[i := c];
    assert forall j, n :: TakesPart(cults', j, n) <==> TakesPart(cults, j, n);
  }

  lemma {:induction false} OneOk(cults: map<CultId, Cult>, nfas: set<NfaId>, now: int, i: CultId, c: Cult)
    requires AllOk(cults, nfas, now) && CultOk(c, nfas, now)
    ensures AllOk(cults[i := c], nfas, now)
  {
  }

  /** The Qi and the materials that some NFAs bring together. */
  ghost function Staked(stake: Balances, nfas: set<NfaId>): int
    requires nfas <= stake.Keys
  {
    Sum(map n | n in nfas :: stake[n])
  }

  datatype Phase = Wood | Fire | Earth | Metal | Water

  function Amount(m: Phases, k: Phase): int {
    match k
    case Wood => m.wood
    case Fire => m.fire
    case Earth => m.earth
    case Metal => m.metal
    case Water => m.water
  }

  ghost function AmountTogether(materials: map<NfaId, Phases>, nfas: set<NfaId>, k: Phase): int
    requires nfas <= materials.Keys
  {
    Sum(map n | n in nfas :: Amount(materials[n], k))
  }

  ghost function Together(materials: map<NfaId, Phases>, nfas: set<NfaId>): Phases
    requires nfas <= materials.Keys
  {
    Phases(AmountTogether(materials, nfas, Phase.Wood), AmountTogether(materials, nfas, Fire),
           AmountTogether(materials, nfas, Earth), AmountTogether(materials, nfas, Metal),
           AmountTogether(materials, nfas, Water))
  }

  lemma {:induction false} StakedStep(stake: Balances, nfas: set<NfaId>, n: NfaId)
    requires nfas <= stake.Keys && n in nfas
    ensures Staked(stake, nfas) == Staked(stake, nfas - {n}) + stake[n]
  {
    var m := map x | x in nfas :: stake[x];
    SumRemove(m, n);
    assert m - {n} == map x | x in nfas - {n} :: stake[x];
  }

  lemma {:induction false} AmountStep(materials: map<NfaId, Phases>, nfas: set<NfaId>, n: NfaId, k: Phase)
    requires nfas <= materials.Keys && n in nfas
    ensures AmountTogether(materials, nfas, k) == AmountTogether(materials, nfas - {n}, k) + Amount(materials[n], k)
  {
    hide Amount;
    var m := map x | x in nfas :: Amount(materials[x], k);
    SumRemove(m, n);
    assert m - {n} == map x | x in nfas - {n} :: Amount(materials[x], k);
  }

  lemma {:induction false} TogetherStep(materials: map<NfaId, Phases>, nfas: set<NfaId>, n: NfaId)
    requires nfas <= materials.Keys && n in nfas
    ensures Together(materials, nfas) == Together(materials, nfas - {n}).Plus(materials[n])
  {
    hide AmountTogether;
    AmountStep(materials, nfas, n, Phase.Wood);
    AmountStep(materials, nfas, n, Fire);
    AmountStep(materials, nfas, n, Earth);
    AmountStep(materials, nfas, n, Metal);
    AmountStep(materials, nfas, n, Water);
  }

  lemma {:induction false} NothingTogether(stake: Balances, materials: map<NfaId, Phases>)
    ensures Staked(stake, {}) == 0 && Together(materials, {}) == NOTHING
  {
  }

  ghost predicate MaterialsOk(materials: map<NfaId, Phases>, nfas: set<NfaId>) {
    nfas <= materials.Keys && forall n :: n in materials ==> materials[n].NonNegative()
  }

  /** What an update adds to a cultivation: nothing twice in one block, and time beyond the maximum does
      not count. */
  ghost function Growth(c: Cult, stake: Balances, materials: map<NfaId, Phases>, zone: Phases, p: int, now: int): int
    requires c.participants <= stake.Keys && c.participants <= materials.Keys
    requires zone.NonNegative() && Together(materials, c.participants).NonNegative()
  {
    if c.lastUpdate >= now then 0
    else Reward(ZoneEnergy(zone), Staked(stake, c.participants), p, Elapsed(c, now),
                Efficiency(Together(materials, c.participants), zone))
  }

  function Elapsed(c: Cult, now: int): int {
    if now - c.lastUpdate < MAX_CULTIVATION_BLOCKS then now - c.lastUpdate else MAX_CULTIVATION_BLOCKS
  }

  lemma {:induction false} TogetherNonNegative(materials: map<NfaId, Phases>, nfas: set<NfaId>)
    requires MaterialsOk(materials, nfas)
    ensures Together(materials, nfas).NonNegative()
  {
    forall k: Phase
      ensures AmountTogether(materials, nfas, k) >= 0
    {
      var m := map n | n in nfas :: Amount(materials[n], k);
      forall n | n in m
        ensures m[n] >= 0
      {
        assert n in nfas && materials[n].NonNegative();
      }
      SumNonNegative(m);
    }
  }

  lemma {:induction false} StakedNonNegative(stake: Balances, nfas: set<NfaId>)
    requires nfas <= stake.Keys && NonNegative(stake)
    ensures Staked(stake, nfas) >= 0
  {
    var m := map n | n in nfas :: stake[n];
    forall n | n in m
      ensures m[n] >= 0
    {
      assert n in nfas && n in stake;
    }
    SumNonNegative(m);
  }

  /** A cultivation's participants are NFAs that have something at stake. */
  lemma {:induction false} ParticipantsKnown(cults: map<CultId, Cult>, home: map<NfaId, CultId>, stake: Balances,
                                             i: CultId)
    requires Housed(cults, home, stake) && i in cults
    ensures cults[i].participants <= stake.Keys
  {
    forall n | n in cults[i].participants
      ensures n in stake
    {
      assert TakesPart(cults, i, n);
    }
  }

  /** An update adds at most the whole energy and stake at full efficiency, and never takes away. */
  lemma {:induction false} GrowthBounds(c: Cult, stake: Balances, materials: map<NfaId, Phases>, zone: Phases,
                                        p: int, now: int)
    requires c.participants <= stake.Keys && MaterialsOk(materials, c.participants) && NonNegative(stake)
    requires zone.NonNegative() && 0 <= p < HUNDRED_PERCENT
    requires Together(materials, c.participants).NonNegative()
    ensures 0 <= Growth(c, stake, materials, zone, p, now)
    ensures Growth(c, stake, materials, zone, p, now) <=
      (ZoneEnergy(zone) + Staked(stake, c.participants)) * Efficiency(Together(materials, c.participants), zone) / HUNDRED_PERCENT
  {
    hide Reward, Efficiency, ZoneEnergy, Together, Staked;
    var N, Q := ZoneEnergy(zone), Staked(stake, c.participants);
    var E := Efficiency(Together(materials, c.participants), zone);
    StakedNonNegative(stake, c.participants);
    EfficiencyBounds(Together(materials, c.participants), zone);
    EnergyNonNegative(zone);
    RewardBounds(N, Q, p, 0, E);
    if c.lastUpdate < now {
      RewardBounds(N, Q, p, Elapsed(c, now), E);
    }
  }

  /** Time that has been counted is not counted again: a second update in the same block adds nothing. */
  lemma {:induction false} CountedOnce(c: Cult, stake: Balances, materials: map<NfaId, Phases>, zone: Phases, p: int,
                                       now: int)
    requires c.participants <= stake.Keys && MaterialsOk(materials, c.participants) && NonNegative(stake)
    requires zone.NonNegative() && 0 <= p < HUNDRED_PERCENT
    requires Together(materials, c.participants).NonNegative()
    ensures var gain := Growth(c, stake, materials, zone, p, now);
            var c' := if gain > 0 then c.(accumulated := c.accumulated + gain, lastUpdate := now) else c;
            gain >= 0 && Growth(c', stake, materials, zone, p, now) == 0
  {
    hide Reward, Efficiency, ZoneEnergy, Together, Staked;
    GrowthBounds(c, stake, materials, zone, p, now);
  }

  lemma {:induction false} EnergyNonNegative(zone: Phases)
    requires zone.NonNegative()
    ensures ZoneEnergy(zone) >= 0
  {
    ZoneEnergyBounds(zone);
  }

  class Cultivations {
    const ledger: Ledger
    var cults: map<CultId, Cult>
    ghost var home: map<NfaId, CultId>
    var materials: map<NfaId, Phases>
    var nextId: CultId
    var head: int

    ghost predicate Valid()
      reads this, ledger
    {
      && ledger.Valid() && Housed(cults, home, ledger.stake) && AllOk(cults, ledger.nfaQi.Keys, head)
      && MaterialsOk(materials, ledger.nfaQi.Keys) && 0 <= head < NEVER
      && forall i :: i in cults ==> i < nextId
    }

    constructor (ledger: Ledger, materials: map<NfaId, Phases>)
      requires ledger.Valid() && (forall n :: n in ledger.stake ==> ledger.stake[n] == 0)
      requires MaterialsOk(materials, ledger.nfaQi.Keys)
      ensures Valid() && this.ledger == ledger && cults == map[]
    {
      this.ledger, this.materials := ledger, materials;
      cults, home, nextId, head := map[], map[], 0, 0;
    }

    /** The next block. */
    method Advance()
      requires Valid() && head + 1 < NEVER
      modifies `head
      ensures Valid() && head == old(head) + 1
    {
      hide Housed, NonNegative, ResourcesOk, Sum;
      head := head + 1;
    }

    /** A new cultivation, if there is time enough to prepare and the shares make a whole. */
    method Create(manager: NfaId, beneficiaries: seq<Beneficiary>, prepare: nat) returns (r: Option<CultId>)
      requires Valid() && manager in ledger.nfaQi
      requires forall i, j :: 0 <= i < j < |beneficiaries| ==> beneficiaries[i].0 != beneficiaries[j].0
      modifies `cults, `nextId
      ensures Valid()
      ensures r.Some? <==> prepare >= PREPARE_MIN_BLOCKS && Payable(beneficiaries, ledger.nfaQi.Keys)
      ensures r.None? ==> cults == old(cults)
      ensures r.Some? ==> r.value !in old(cults) && cults == old(cults)[r.value :=
                Cult(manager, beneficiaries, {}, head, head + prepare, NEVER, NEVER, 0)]
    {
      hide Housed, NonNegative, ResourcesOk, Sum;
      if prepare < PREPARE_MIN_BLOCKS {
        return None;
      }
      var shares := CheckShares(beneficiaries);
      if shares != Some(HUNDRED_PERCENT) {
        return None;
      }
      var c := Cult(manager, beneficiaries, {}, head, head + prepare, NEVER, NEVER, 0);
      CreateKeeps(cults, home, ledger.stake, nextId, c);
      OneOk(cults, ledger.nfaQi.Keys, head, nextId, c);
      cults := cults[nextId := c];
      r := Some(nextId);
      nextId := nextId + 1;
    }

    /** The sum of the shares, unless a beneficiary is unknown or has no share. */
    method CheckShares(bs: seq<Beneficiary>) returns (total: Option<int>)
      ensures total.Some? <==> forall i :: 0 <= i < |bs| ==> bs[i].0 in ledger.nfaQi && bs[i].1 > 0
      ensures total.Some? ==> total.value == TotalShare(bs)
    {
      var sum, i := 0, 0;
      while i < |bs|
        invariant 0 <= i <= |bs| && sum == TotalShare(bs[..i])
        invariant forall j :: 0 <= j < i ==> bs[j].0 in ledger.nfaQi && bs[j].1 > 0
      {
        if bs[i].0 !in ledger.nfaQi || bs[i].1 <= 0 {
          return None;
        }
        assert bs[..i + 1][..i] == bs[..i];
        sum := sum + bs[i].1;
        i := i + 1;
      }
      assert bs[..i] == bs;
      return Some(sum);
    }

    /** An NFA joins a cultivation that has not started, with a stake of its own Qi. */
    method Participate(id: CultId, nfa: NfaId, value: nat) returns (ok: bool)
      requires Valid() && id in cults && nfa in ledger.nfaQi
      modifies `cults, `home, ledger`nfaQi, ledger`stake, ledger`totals
      ensures Valid() && ledger.Worth() == old(ledger.Worth())
      ensures ok <==> old(cults)[id].start == NEVER && old(ledger.stake)[nfa] == 0 && 0 < value <= old(ledger.nfaQi)[nfa]
      ensures ok ==> cults == old(cults)[id := old(cults)[id].(participants := old(cults)[id].participants + {nfa})]
      ensures ok ==> ledger.stake == Plus(old(ledger.stake), nfa, value)
      ensures ok ==> ledger.nfaQi == Plus(old(ledger.nfaQi), nfa, 0 - value)
      ensures !ok ==> cults == old(cults) && ledger.stake == old(ledger.stake) && ledger.nfaQi == old(ledger.nfaQi)
    {
      hide Housed, AllOk, MaterialsOk, NonNegative, ResourcesOk, Sum, ResourceWorth;
      if cults[id].start != NEVER {
        return false;
      }
      ghost var stake, nfas := ledger.stake, ledger.nfaQi.Keys;
      ok := ledger.Stake(nfa, value);
      if ok {
        var c := cults[id].(participants := cults[id].participants + {nfa});
        JoinKeeps(cults, home, stake, id, nfa, value);
        JoinOk(cults, nfas, head, id, c);
        cults := cults[id := c];
        home := home[nfa := id];
      }
    }

    method Start(id: CultId) returns (ok: bool)
      requires Valid() && id in cults
      modifies `cults
      ensures Valid()
      ensures ok <==> old(cults)[id].start == NEVER && old(cults)[id].participants != {}
      ensures cults == if !ok then old(cults) else
        old(cults)[id := old(cults)[id].(start := head, lastUpdate := head, accumulated := 0)]
    {
      hide Housed, NonNegative, ResourcesOk, Sum;
      if cults[id].start != NEVER || cults[id].participants == {} {
        return false;
      }
      var c := cults[id].(start := head, lastUpdate := head, accumulated := 0);
      ReplaceKeeps(cults, home, ledger.stake, id, c);
      OneOk(cults, ledger.nfaQi.Keys, head, id, c);
      cults := cults[id := c];
      return true;
    }

    /** The Qi and the materials of some NFAs. */
    method Tally(nfas: set<NfaId>) returns (qi: int, m: Phases)
      requires nfas <= ledger.stake.Keys && nfas <= materials.Keys
      ensures qi == Staked(ledger.stake, nfas) && m == Together(materials, nfas)
    {
      hide Staked, Together;
      qi, m := 0, NOTHING;
      var todo := nfas;
      NothingTogether(ledger.stake, materials);
      assert nfas - todo == {};
      while todo != {}
        invariant todo <= nfas && qi == Staked(ledger.stake, nfas - todo) && m == Together(materials, nfas - todo)
        decreases todo
      {
        ghost var w := Member(todo);
        var n :| n in todo;
        StakedStep(ledger.stake, nfas - (todo - {n}), n);
        TogetherStep(materials, nfas - (todo - {n}), n);
        assert nfas - (todo - {n}) - {n} == nfas - todo;
        qi := qi + ledger.stake[n];
        m := m.Plus(materials[n]);
        todo := todo - {n};
      }
      assert nfas - todo == nfas;
    }

    /** Adds what the time since the last update has earned; a gain that rounds to zero leaves the time. */
    method Update(id: CultId, zone: Phases, p: int) returns (ghost gain: int)
      requires Valid() && id in cults && cults[id].start != NEVER
      requires zone.NonNegative() && 0 <= p < HUNDRED_PERCENT
      modifies `cults
      ensures Valid()
      ensures old(cults)[id].participants <= materials.Keys && old(cults)[id].participants <= ledger.stake.Keys
      ensures Together(materials, old(cults)[id].participants).NonNegative()
      ensures gain == Growth(old(cults)[id], ledger.stake, materials, zone, p, head) >= 0
      ensures old(cults)[id].lastUpdate >= head ==> gain == 0
      ensures old(cults)[id].lastUpdate < head ==>
        var c := old(cults)[id];
        var dt := if head - c.lastUpdate < MAX_CULTIVATION_BLOCKS then head - c.lastUpdate else MAX_CULTIVATION_BLOCKS;
        gain == Reward(ZoneEnergy(zone), Staked(ledger.stake, c.participants), p, dt,
                       Efficiency(Together(materials, c.participants), zone))
      ensures gain == 0 ==> cults == old(cults)
      ensures gain > 0 ==> cults == old(cults)[id := old(cults)[id].(accumulated := old(cults)[id].accumulated + gain,
                                                                     lastUpdate := head)]
    {
      hide Housed, NonNegative, ResourcesOk, Sum, Together, Staked, Reward, Efficiency, ZoneEnergy;
      var c := cults[id];
      ParticipantsKnown(cults, home, ledger.stake, id);
      TogetherNonNegative(materials, c.participants);
      GrowthBounds(c, ledger.stake, materials, zone, p, head);
      gain := Growth(c, ledger.stake, materials, zone, p, head);
      if c.lastUpdate >= head {
        assert cults[id := c] == cults;
        return;
      }
      var qi, m := Tally(c.participants);
      var rv := Reward(ZoneEnergy(zone), qi, p, Elapsed(c, head), Efficiency(m, zone));
      if rv > 0 {
        ghost var grown := c.(accumulated := c.accumulated + rv, lastUpdate := head);
        ReplaceKeeps(cults, home, ledger.stake, id, grown);
        OneOk(cults, ledger.nfaQi.Keys, head, id, grown);
        cults := cults[id := c.(accumulated := c.accumulated + rv, lastUpdate := head)];
      } else {
        assert cults[id := c] == cults;
      }
    }

    /** Every participant gets its stake back. */
    method Dissolve(id: CultId)
      requires Valid() && id in cults
      modifies `cults, `home, ledger`nfaQi, ledger`stake, ledger`totals
      ensures Valid() && ledger.Worth() == old(ledger.Worth())
      ensures cults == old(cults)[id := Emptied(old(cults)[id])]
      ensures cults == old(cults)[id := old(cults)[id].(participants := {}, start := NEVER, lastUpdate := NEVER, accumulated := 0)]
      ensures ledger.nfaQi.Keys == old(ledger.nfaQi).Keys
      ensures ledger.stake == Cleared(old(ledger.stake), old(cults)[id].participants)
      ensures ledger.nfaQi == Refunded(old(ledger.nfaQi), old(ledger.stake), old(cults)[id].participants)
    {
      hide Housed, AllOk, MaterialsOk, NonNegative, ResourcesOk, Sum, ResourceWorth;
      ghost var stake, nfas, c := ledger.stake, ledger.nfaQi.Keys, cults[id];
      ParticipantsKnown(cults, home, stake, id);
      DissolveKeeps(cults, home, stake, id);
      EmptiedOk(cults, nfas, head, id);
      ledger.Unstake(cults[id].participants);
      home := home - cults[id].participants;
      cults := cults[id := Emptied(cults[id])];
    }

    /** The first cultivation by start after a place in that order. */
    method NextByStart(place: Option<(int, CultId)>) returns (r: Option<CultId>)
      ensures r.Some? ==> FirstAfter(cults, place, r.value)
      ensures r.None? ==> forall i :: i in cults ==> !Past(place, cults[i].start, i)
    {
      r := None;
      var todo := cults.Keys;
      while todo != {}
        invariant todo <= cults.Keys
        invariant r.Some? ==> r.value in cults && Past(place, cults[r.value].start, r.value)
        invariant forall j :: j in cults && j !in todo && Past(place, cults[j].start, j) ==>
                    r.Some? && (j == r.value || Before(cults[r.value].start, r.value, cults[j].start, j))
        decreases todo
      {
        ghost var w := Member(todo);
        var i :| i in todo;
        if Past(place, cults[i].start, i) {
          if r.None? || Before(cults[i].start, i, cults[r.value].start, r.value) {
            r := Some(i);
          }
        }
        todo := todo - {i};
      }
    }

    /** Dissolves every cultivation that has not started in time. */
    method CleanLapsed() returns (lapsed: set<CultId>)
      requires Valid()
      modifies `cults, `home, ledger`nfaQi, ledger`stake, ledger`totals
      ensures Valid() && ledger.Worth() == old(ledger.Worth()) && ledger.nfaQi.Keys == old(ledger.nfaQi).Keys
      ensures lapsed == set i | i in old(cults) && Lapsed(old(cults)[i], head)
      ensures forall i :: i in lapsed <==>
        i in old(cults) && old(cults)[i].deadline <= head && old(cults)[i].start == NEVER
      ensures cults == EmptiedAll(old(cults), lapsed)
    {
      hide Housed, AllOk, MaterialsOk, NonNegative, ResourcesOk, Sum, ResourceWorth, EmptiedAll;
      ghost var before := cults;
      lapsed := set i | i in cults && Lapsed(cults[i], head);
      var todo := lapsed;
      EmptiedNone(before);
      assert lapsed - todo == {};
      while todo != {}
        invariant todo <= lapsed && Valid() && ledger.Worth() == old(ledger.Worth())
        invariant ledger.nfaQi.Keys == old(ledger.nfaQi).Keys
        invariant cults == EmptiedAll(before, lapsed - todo)
        decreases todo
      {
        ghost var w := Member(todo);
        var i :| i in todo;
        EmptiedAt(before, lapsed - todo, i);
        EmptiedMore(before, lapsed - todo, i);
        assert lapsed - todo + {i} == lapsed - (todo - {i});
        Dissolve(i);
        todo := todo - {i};
      }
      assert lapsed - todo == lapsed;
    }

    /** Stops what has run for the whole time. Stopping moves a cultivation to the end of the order that the
        loop walks, so one call stops at most one: the first. */
    method CleanExpired(zones: map<CultId, Phases>, shares: map<CultId, int>) returns (stopped: Option<CultId>)
      requires Valid()
      requires forall i :: i in cults ==>
                 i in zones && i in shares && zones[i].NonNegative() && 0 <= shares[i] < HUNDRED_PERCENT
      modifies `cults, `home, ledger`nfaQi, ledger`stake, ledger`totals, ledger`fund
      ensures Valid() && ledger.Worth() == old(ledger.Worth())
      ensures stopped.Some? <==> exists i :: i in old(cults) && Expired(old(cults)[i], head)
      ensures stopped.Some? ==> stopped.value in old(cults) && Expired(old(cults)[stopped.value], head)
      ensures stopped.Some? ==>
        var first := old(cults)[stopped.value];
        && first.start != NEVER && first.start + MAX_CULTIVATION_BLOCKS <= head
        && forall i :: i in old(cults) ==>
             first.start < old(cults)[i].start || (first.start == old(cults)[i].start && stopped.value <= i)
      ensures stopped.None? ==>
        forall i :: i in old(cults) ==> old(cults)[i].start == NEVER || old(cults)[i].start + MAX_CULTIVATION_BLOCKS > head
      ensures stopped.Some? ==> FirstAfter(old(cults), None, stopped.value)
      ensures cults == if stopped.Some? then old(cults)[stopped.value := Emptied(old(cults)[stopped.value])] else old(cults)
    {
      hide Housed, AllOk, MaterialsOk, NonNegative, ResourcesOk, Sum, ResourceWorth, FirstAfter, Growth, Together,
        Refunded,
        Cleared;
      ghost var before := cults;
      stopped := None;
      var next := NextByStart(None);
      StartsBounded(cults, ledger.nfaQi.Keys, head);
      FirstTells(before, head, next);
      while next.Some? && Expired(cults[next.value], head)
        invariant Valid() && ledger.Worth() == old(ledger.Worth()) && (next.Some? ==> next.value in cults)
        invariant stopped.None? ==> cults == before && (next.Some? ==> FirstAfter(before, None, next.value))
        invariant stopped.Some? ==> (next.Some? ==> cults[next.value].start == NEVER)
        invariant stopped.Some? ==> stopped.value in before && Expired(before[stopped.value], head)
        invariant stopped.Some? ==> FirstAfter(before, None, stopped.value)
        invariant stopped.Some? ==> cults == before[stopped.value := Emptied(before[stopped.value])]
        invariant stopped.None? ==> ((exists i :: i in before && Expired(before[i], head)) ==
                                     (next.Some? && Expired(cults[next.value], head)))
        decreases if stopped.None? then 1 else 0
      {
        var i := next.value;
        ghost var rv, paid := Stop(i, zones[i], shares[i]);
        stopped := Some(i);
        next := NextByStart(Some((cults[i].start, i)));
        StartsBounded(cults, ledger.nfaQi.Keys, head);
        StartedLast(cults, i, next);
      }
      if stopped.Some? {
        FirstMeans(before, stopped.value);
      }
    }

    /** Dissolves what has not started in time, and stops the first that has run for the whole time. */
    method Clean(zones: map<CultId, Phases>, shares: map<CultId, int>)
        returns (removed: set<CultId>, stopped: Option<CultId>)
      requires Valid()
      requires forall i :: i in cults ==>
                 i in zones && i in shares && zones[i].NonNegative() && 0 <= shares[i] < HUNDRED_PERCENT
      modifies `cults, `home, ledger`nfaQi, ledger`stake, ledger`totals, ledger`fund
      ensures Valid() && ledger.Worth() == old(ledger.Worth())
      ensures stopped.Some? <==> exists i :: i in old(cults) && Expired(old(cults)[i], head)
      ensures stopped.Some? ==> FirstAfter(old(cults), None, stopped.value) && Expired(old(cults)[stopped.value], head)
      ensures removed == (set i | i in old(cults) && Lapsed(old(cults)[i], head))
                         + if stopped.Some? then {stopped.value} else {}
      ensures stopped.Some? ==>
        var first := old(cults)[stopped.value];
        && first.start != NEVER && first.start + MAX_CULTIVATION_BLOCKS <= head
        && forall i :: i in old(cults) ==>
             first.start < old(cults)[i].start || (first.start == old(cults)[i].start && stopped.value <= i)
      ensures stopped.None? ==>
        forall i :: i in old(cults) ==> old(cults)[i].start == NEVER || old(cults)[i].start + MAX_CULTIVATION_BLOCKS > head
      ensures forall i :: i in removed <==>
        && i in old(cults)
        && (stopped == Some(i) || (old(cults)[i].deadline <= head && old(cults)[i].start == NEVER))
      ensures cults == old(cults) - removed
      ensures (forall i :: i in cults ==> !Expired(cults[i], head)) <==> OneExpired(old(cults), head)
    {
      hide Housed, AllOk, MaterialsOk, NonNegative, ResourcesOk, Sum, ResourceWorth, FirstAfter, EmptiedAll,
        Expired, OneExpired;
      ghost var before := cults;
      var lapsed := CleanLapsed();
      LapsedOrder(before, lapsed, head);
      stopped := CleanExpired(zones, shares);
      removed := lapsed + if stopped.Some? then {stopped.value} else {};
      AllEmptied(before, lapsed, stopped, cults);
      RemoveKeeps(cults, home, ledger.stake, removed);
      KeysKept(cults, removed, ledger.nfaQi.Keys, head);
      ExpiredLeft(before, lapsed, stopped, removed, head);
      if stopped.Some? {
        FirstMeans(before, stopped.value);
      }
      NotYet(before, stopped, head);
      cults := cults - removed;
    }

    /** Pays the beneficiaries what has accumulated, as far as the fund goes, and dissolves. */
    method Stop(id: CultId, zone: Phases, p: int) returns (ghost rv: int, ghost paid: Balances)
      requires Valid() && id in cults && cults[id].start != NEVER
      requires zone.NonNegative() && 0 <= p < HUNDRED_PERCENT
      modifies `cults, `home, ledger`nfaQi, ledger`stake, ledger`totals, ledger`fund
      ensures Valid() && ledger.Worth() == old(ledger.Worth())
      ensures cults == old(cults)[id := Emptied(old(cults)[id])]
      ensures old(cults)[id].participants <= materials.Keys && old(cults)[id].participants <= old(ledger.stake).Keys
      ensures Together(materials, old(cults)[id].participants).NonNegative()
      ensures var due := old(cults)[id].accumulated + Growth(old(cults)[id], old(ledger.stake), materials, zone, p, head);
              rv == (if old(ledger.fund) < due then old(ledger.fund) else due) >= 0
      ensures ledger.fund == old(ledger.fund) - rv
      ensures ledger.stake == Cleared(old(ledger.stake), old(cults)[id].participants)
      ensures paid.Keys == old(ledger.nfaQi).Keys == ledger.nfaQi.Keys
      ensures ledger.nfaQi == Refunded(paid, old(ledger.stake), old(cults)[id].participants)
      ensures rv == 0 ==> paid == old(ledger.nfaQi)
      ensures rv > 0 ==>
        var bs := old(cults)[id].beneficiaries;
        && bs != [] && bs[|bs| - 1].0 in paid
        && PaidTo(old(ledger.nfaQi), Plus(paid, bs[|bs| - 1].0, PaidOut(bs, |bs|, rv) - rv), bs, |bs|, rv)
    {
      hide Housed, AllOk, MaterialsOk, NonNegative, ResourcesOk, Sum, ResourceWorth, Growth, Together, PaidTo,
        Payable,
        Refunded, Cleared, PaidOut, Ledger.Balanced, Ledger.Worth, Reward, ZoneEnergy, Efficiency, Staked, Emptied;
      BeneficiariesKnown(cults, ledger.nfaQi.Keys, head, id);
      ghost var q0, before := ledger.nfaQi, cults;
      ghost var gain := Update(id, zone, p);
      BeneficiariesKnown(cults, ledger.nfaQi.Keys, head, id);
      var toPay := cults[id].accumulated;
      if ledger.fund < toPay {
        toPay := ledger.fund;
      }
      if toPay > 0 {
        ledger.PayBeneficiaries(cults[id].beneficiaries, toPay);
      }
      rv, paid := toPay, ledger.nfaQi;
      EmptiedAlike(before, cults, id);
      Dissolve(id);
    }
  }

  /** Cultivations after some of them have been dissolved. */
  ghost function EmptiedAll(cults: map<CultId, Cult>, gone: set<CultId>): map<CultId, Cult> {
    map i | i in cults :: if i in gone then Emptied(cults[i]) else cults[i]
  }

  lemma {:induction false} EmptiedAlike(cults: map<CultId, Cult>, cults': map<CultId, Cult>, i: CultId)
    requires i in cults && i in cults' && cults' == cults[i := cults'[i]]
    requires cults'[i] == cults[i].(accumulated := cults'[i].accumulated, lastUpdate := cults'[i].lastUpdate)
    ensures cults'[i := Emptied(cults'[i])] == cults[i := Emptied(cults[i])]
  {
  }

  lemma {:induction false} EmptiedNone(cults: map<CultId, Cult>)
    ensures EmptiedAll(cults, {}) == cults
  {
  }

  lemma {:induction false} EmptiedMore(cults: map<CultId, Cult>, gone: set<CultId>, i: CultId)
    requires i in cults && i !in gone
    ensures EmptiedAll(cults, gone)[i := Emptied(cults[i])] == EmptiedAll(cults, gone + {i})
  {
  }

  lemma {:induction false} EmptiedAt(cults: map<CultId, Cult>, gone: set<CultId>, i: CultId)
    requires i in cults
    ensures i in EmptiedAll(cults, gone)
    ensures EmptiedAll(cults, gone)[i] == if i in gone then Emptied(cults[i]) else cults[i]
  {
  }

  /** The order by start and then by number. */
  predicate Before(start: int, i: CultId, start': int, j: CultId) {
    start < start' || (start == start' && i < j)
  }

  /** i is the first cultivation by start after a given place. */
  ghost predicate FirstAfter(cults: map<CultId, Cult>, place: Option<(int, CultId)>, i: CultId) {
    && i in cults && Past(place, cults[i].start, i)
    && forall j :: j in cults && Past(place, cults[j].start, j) && j != i ==> Before(cults[i].start, i, cults[j].start, j)
  }

  predicate Past(place: Option<(int, CultId)>, start: int, i: CultId) {
    place.Some? ==> Before(place.value.0, place.value.1, start, i)
  }

  /** Not started in time. */
  predicate Lapsed(c: Cult, now: int) {
    c.deadline <= now && c.start == NEVER
  }

  /** Under way for the whole time allowed. */
  predicate Expired(c: Cult, now: int) {
    c.start != NEVER && c.start + MAX_CULTIVATION_BLOCKS <= now
  }

  /** At most one cultivation has run for the whole time. */
  ghost predicate OneExpired(cults: map<CultId, Cult>, now: int) {
    forall i, j :: i in cults && j in cults && Expired(cults[i], now) && Expired(cults[j], now) ==> i == j
  }

  lemma {:induction false} FirstMeans(cults: map<CultId, Cult>, i: CultId)
    requires FirstAfter(cults, None, i)
    ensures i in cults && forall j :: j in cults ==>
      cults[i].start < cults[j].start || (cults[i].start == cults[j].start && i <= j)
  {
  }

  lemma {:induction false} NotYet(cults: map<CultId, Cult>, stopped: Option<CultId>, now: int)
    requires stopped.Some? <==> exists i :: i in cults && Expired(cults[i], now)
    requires stopped.Some? ==> stopped.value in cults && Expired(cults[stopped.value], now)
    ensures stopped.Some? ==>
      && cults[stopped.value].start != NEVER && cults[stopped.value].start + MAX_CULTIVATION_BLOCKS <= now
    ensures stopped.None? ==>
      forall i :: i in cults ==> cults[i].start == NEVER || cults[i].start + MAX_CULTIVATION_BLOCKS > now
  {
  }

  /** Stopping one expired cultivation leaves none exactly if there was no other. */
  lemma {:induction false} ExpiredLeft(before: map<CultId, Cult>, lapsed: set<CultId>, stopped: Option<CultId>,
                                       removed: set<CultId>,
                                       now: int)
    requires lapsed == set i | i in before && Lapsed(before[i], now)
    requires stopped.Some? <==> exists i :: i in before && Expired(before[i], now)
    requires stopped.Some? ==> stopped.value in before && Expired(before[stopped.value], now)
    requires removed == lapsed + if stopped.Some? then {stopped.value} else {}
    ensures (forall i :: i in before - removed ==> !Expired((before - removed)[i], now)) <==> OneExpired(before, now)
  {
    var after := before - removed;
    if OneExpired(before, now) {
      forall i | i in before && Expired(before[i], now)
        ensures stopped.Some? && i == stopped.value
      {
        assert stopped.Some? && Expired(before[stopped.value], now);
      }
    } else {
      var i, j :| i in before && j in before && Expired(before[i], now) && Expired(before[j], now) && i != j;
      var k := if i == stopped.value then j else i;
      assert k in after && Expired(after[k], now);
    }
  }

  /** Cultivations 1 and 2, with one NFA each, that started in the same block expire together; one block's clean-up
      leaves the second. */
  lemma {:induction false} LeftOverExample()
    ensures var c1 := Cult(1, [(1, HUNDRED_PERCENT)], {1}, 0, 0, 0, 0, 0);
            var c2 := Cult(2, [(2, HUNDRED_PERCENT)], {2}, 0, 0, 0, 0, 0);
            var cults, home, stake, now := map[1 := c1, 2 := c2], map[1 := 1, 2 := 2], map[1 := 5, 2 := 5], MAX_CULTIVATION_BLOCKS;
            && AllOk(cults, {1, 2}, now) && Housed(cults, home, stake)
            && FirstAfter(cults, None, 1) && Expired(cults[2], now) && 2 in cults - {1} && !OneExpired(cults, now)
  {
    var c1 := Cult(1, [(1, HUNDRED_PERCENT)], {1}, 0, 0, 0, 0, 0);
    var c2 := Cult(2, [(2, HUNDRED_PERCENT)], {2}, 0, 0, 0, 0, 0);
    var cults := map[1 := c1, 2 := c2];
    assert 1 in cults && 2 in cults && Expired(cults[1], MAX_CULTIVATION_BLOCKS);
    assert forall i, n :: TakesPart(cults, i, n) <==> i == n && (n == 1 || n == 2);
    WholeShare(1);
    WholeShare(2);
  }

  lemma {:induction false} WholeShare(n: NfaId)
    requires n == 1 || n == 2
    ensures Payable([(n, HUNDRED_PERCENT)], {1, 2})
  {
  }

  lemma {:induction false} StartsBounded(cults: map<CultId, Cult>, nfas: set<NfaId>, now: int)
    requires AllOk(cults, nfas, now)
    ensures forall i :: i in cults ==> cults[i].start <= NEVER
  {
  }

  /** If any cultivation has expired then the first has. */
  lemma {:induction false} FirstTells(cults: map<CultId, Cult>, now: int, next: Option<CultId>)
    requires now < NEVER && forall i :: i in cults ==> cults[i].start <= NEVER
    requires next.Some? ==> FirstAfter(cults, None, next.value)
    requires next.None? ==> forall i :: i in cults ==> !Past(None, cults[i].start, i)
    ensures (exists i :: i in cults && Expired(cults[i], now)) == (next.Some? && Expired(cults[next.value], now))
  {
    if i :| i in cults && Expired(cults[i], now) {
      assert next.Some? ==> i == next.value || Before(cults[next.value].start, next.value, cults[i].start, i);
    }
  }

  /** Dissolving lapsed cultivations, which have no start, changes neither the order nor what has expired. */
  lemma {:induction false} LapsedOrder(before: map<CultId, Cult>, lapsed: set<CultId>, now: int)
    requires lapsed == set i | i in before && Lapsed(before[i], now)
    ensures EmptiedAll(before, lapsed).Keys == before.Keys
    ensures forall i :: i in before ==> (Expired(EmptiedAll(before, lapsed)[i], now) <==> Expired(before[i], now))
    ensures forall i :: FirstAfter(EmptiedAll(before, lapsed), None, i) ==> FirstAfter(before, None, i)
  {
    var after := EmptiedAll(before, lapsed);
    assert forall i :: i in before ==> i in after && after[i].start == before[i].start;
  }

  lemma {:induction false} AllEmptied(before: map<CultId, Cult>, lapsed: set<CultId>, stopped: Option<CultId>,
                                      cults: map<CultId, Cult>)
    requires lapsed <= before.Keys && (stopped.Some? ==> stopped.value in before)
    requires cults == if stopped.None? then EmptiedAll(before, lapsed) else
                        EmptiedAll(before, lapsed)[stopped.value := Emptied(EmptiedAll(before,
                                   lapsed)[stopped.value])]
    ensures var removed := lapsed + if stopped.Some? then {stopped.value} else {};
            cults - removed == before - removed && forall i :: i in removed && i in cults ==> cults[i].participants == {}
  {
  }

  /** Past a stopped cultivation there are only some that have not started. */
  lemma {:induction false} StartedLast(cults: map<CultId, Cult>, i: CultId, next: Option<CultId>)
    requires i in cults && cults[i].start == NEVER && (forall j :: j in cults ==> cults[j].start <= NEVER)
    requires next.Some? ==> FirstAfter(cults, Some((cults[i].start, i)), next.value)
    ensures next.Some? ==> cults[next.value].start == NEVER
  {
  }

  lemma {:induction false} KeysKept(cults: map<CultId, Cult>, gone: set<CultId>, nfas: set<NfaId>, now: int)
    requires AllOk(cults, nfas, now)
    ensures AllOk(cults - gone, nfas, now)
  {
  }

  lemma {:induction false} BeneficiariesKnown(cults: map<CultId, Cult>, nfas: set<NfaId>, now: int, id: CultId)
    requires AllOk(cults, nfas, now) && id in cults
    ensures Payable(cults[id].beneficiaries, nfas) && cults[id].beneficiaries != [] && cults[id].accumulated >= 0
    ensures cults[id].beneficiaries[|cults[id].beneficiaries| - 1].0 in nfas
  {
  }

  lemma {:induction false} JoinOk(cults: map<CultId, Cult>, nfas: set<NfaId>, now: int, i: CultId, c: Cult)
    requires AllOk(cults, nfas, now) && i in cults && cults[i].start == NEVER
    requires c == cults[i].(participants := c.participants)
    ensures AllOk(cults[i := c], nfas, now)
  {
  }

  lemma {:induction false} EmptiedOk(cults: map<CultId, Cult>, nfas: set<NfaId>, now: int, i: CultId)
    requires AllOk(cults, nfas, now) && i in cults
    ensures AllOk(cults[i := Emptied(cults[i])], nfas, now)
  {
  }
}
