/** The wear of an NFA: using it moves a little of its material to the treasury. */
module MaterialWear {
  import opened Arithmetic
  import opened QiLedger

  const WEAR_PARTS := 50

  ghost predicate Whole(amounts: ResourceTotals) {
    forall r: Resource :: r in amounts && amounts[r] >= 0
  }

  /** The Qi that one material may lose: its part of the base, in proportion to its worth. */
  function Allowance(have: int, price: int, base: int, worth: int): int
    requires worth > 0
  {
    base * (have * price) / worth
  }

  /** The code takes the remainder by the allowance cut to 32 bits, and so cannot go on if that is zero. */
  function Cut(allowance: int): int {
    allowance % 0x1_0000_0000
  }

  predicate Divides(have: int, price: int, base: int, worth: int)
    requires worth > 0
  {
    Allowance(have, price, base, worth) <= 0 || Cut(Allowance(have, price, base, worth)) != 0
  }

  /** A single unit of food, a least worth of 50 times 2^32: the allowance is 2^32, which is cut to zero. */
  lemma {:induction false} CutExample()
    ensures var m := map[Gold := 0, Food := 1, Wood := 0, Fabric := 0, Herb := 0];
            (forall r: Resource :: r in m) && !CanWear(m, 0x1_0000_0000 * WEAR_PARTS / WEAR_PARTS)
  {
    var m := map[Gold := 0, Food := 1, Wood := 0, Fabric := 0, Herb := 0];
    forall r: Resource
      ensures r in m
    {
      match r
      case Gold =>
      case Food =>
      case Wood =>
      case Fabric =>
      case Herb =>
    }
    assert !Divides(m[Food], Price(Food), 0x1_0000_0000, ResourceWorth(m));
  }

  ghost predicate CanWear(material: ResourceTotals, base: int)
    requires forall r: Resource :: r in material
  {
    ResourceWorth(material) > 0 ==> forall r: Resource :: Divides(material[r], Price(r), base,
                  ResourceWorth(material))
  }

  /** The units lost: a random part of the allowance in whole units, and no more than there are. */
  function Worn(have: int, price: int, base: int, worth: int, luck: nat): int
    requires worth > 0 && price > 0
  {
    var allowance := Allowance(have, price, base, worth);
    if allowance <= 0 || Cut(allowance) == 0 then 0 else
      var units := luck % Cut(allowance) / price;
      if have < units then have else units
  }

  lemma {:induction false} WornBounds(have: int, price: int, base: int, worth: int, luck: nat)
    requires have >= 0 && price > 0 && base > 0 && worth > 0
    ensures 0 <= Worn(have, price, base, worth, luck) <= have
    ensures worth * Allowance(have, price, base, worth) <= base * (have * price)
    ensures price * Worn(have, price, base, worth, luck) <= Allowance(have, price, base, worth)
    ensures Allowance(have, price, base, worth) > 0 ==>
      price * Worn(have, price, base, worth, luck) < Allowance(have, price, base, worth)
    ensures Allowance(have, price, base, worth) >= 0
  {
    assert have * price >= 0;
    assert base * (have * price) >= 0;
    var allowance := Allowance(have, price, base, worth);
    DivideDown(base * (have * price), worth);
    if allowance > 0 && Cut(allowance) != 0 {
      var rest := luck % Cut(allowance);
      DivideDown(rest, price);
      var units := Worn(have, price, base, worth, luck);
      assert price * units <= price * (rest / price) by {
        assert price * (rest / price - units) >= 0;
      }
    }
  }

  /** The units of one kind that are lost. */
  ghost function WornDown(m: ResourceTotals, base: int, luck: map<Resource, nat>, r: Resource): int
    requires Whole(m) && ResourceWorth(m) > 0 && forall r: Resource :: r in luck
  {
    Worn(m[r], Price(r), base, ResourceWorth(m), luck[r])
  }

  /** What one kind loses: with an allowance in proportion to its worth, a random whole number of units that the
      allowance pays, or all there is. It loses nothing only if there is no allowance or luck has it so. */
  lemma {:induction false} WornIs(m: ResourceTotals, base: int, luck: map<Resource, nat>, r: Resource)
    requires Whole(m) && ResourceWorth(m) > 0 && forall r: Resource :: r in luck
    ensures var allowance := base * (m[r] * Price(r)) / ResourceWorth(m);
            WornDown(m, base, luck, r) ==
              if allowance <= 0 || allowance % 0x1_0000_0000 == 0 then 0
              else if luck[r] % (allowance % 0x1_0000_0000) / Price(r) <= m[r]
                   then luck[r] % (allowance % 0x1_0000_0000) / Price(r) else m[r]
    ensures var allowance := base * (m[r] * Price(r)) / ResourceWorth(m);
            Divides(m[r], Price(r), base, ResourceWorth(m)) <==> allowance <= 0 || allowance % 0x1_0000_0000 != 0
  {
    hide ResourceWorth;
  }

  /** All materials together lose less Qi than the base. */
  lemma {:induction false} WearBelowBase(m: ResourceTotals, base: int, luck: map<Resource, nat>)
    requires Whole(m) && ResourceWorth(m) > 0 && base > 0 && forall r: Resource :: r in luck
    ensures Price(Gold) * WornDown(m, base, luck, Gold) + Price(Food) * WornDown(m, base, luck, Food)
      + Price(Wood) * WornDown(m, base, luck, Wood) + Price(Fabric) * WornDown(m, base, luck, Fabric)
      + Price(Herb) * WornDown(m, base, luck, Herb) < base
  {
    var w := ResourceWorth(m);
    WornBounds(m[Gold], Price(Gold), base, w, luck[Gold]);
    WornBounds(m[Food], Price(Food), base, w, luck[Food]);
    WornBounds(m[Wood], Price(Wood), base, w, luck[Wood]);
    WornBounds(m[Fabric], Price(Fabric), base, w, luck[Fabric]);
    WornBounds(m[Herb], Price(Herb), base, w, luck[Herb]);
    hide Worn, Allowance;
    AllowancesWithin(Allowance(m[Gold], Price(Gold), base, w), Allowance(m[Food], Price(Food), base, w),
                     Allowance(m[Wood], Price(Wood), base, w), Allowance(m[Fabric], Price(Fabric), base, w),
                     Allowance(m[Herb], Price(Herb), base, w),
                     m[Gold] * Price(Gold), m[Food] * Price(Food), m[Wood] * Price(Wood), m[Fabric] * Price(Fabric),
                     m[Herb] * Price(Herb), base, w);
  }

  lemma {:induction false} AllowancesWithin(a: int, b: int, c: int, d: int, e: int,
                                            p: int, q: int, r: int, s: int, t: int, base: int, w: int)
    requires w > 0 && p + q + r + s + t == w
    requires w * a <= base * p && w * b <= base * q && w * c <= base * r && w * d <= base * s && w * e <= base * t
    ensures a + b + c + d + e <= base
  {
    var sum := a + b + c + d + e;
    assert w * sum == w * a + w * b + w * c + w * d + w * e;
    assert base * w == base * p + base * q + base * r + base * s + base * t;
    CancelFactor(w, sum, base);
  }

  class Store {
    var material: ResourceTotals
    var treasury: ResourceTotals

    ghost predicate Valid()
      reads this
    {
      Whole(material) && forall r: Resource :: r in treasury
    }

    constructor (material: ResourceTotals, treasury: ResourceTotals)
      requires Whole(material) && forall r: Resource :: r in treasury
      ensures Valid() && this.material == material && this.treasury == treasury
    {
      this.material, this.treasury := material, treasury;
    }

    /** What each material loses goes to the treasury, in all less Qi than a fiftieth of the least worth. */
    method Wear(leastWorth: nat, luck: map<Resource, nat>) returns (ok: bool)
      requires Valid() && forall r: Resource :: r in luck
      modifies `material, `treasury
      ensures Valid()
      ensures ok <==> CanWear(old(material), leastWorth / WEAR_PARTS)
      ensures !ok ==> material == old(material) && treasury == old(treasury)
      ensures forall r: Resource :: material[r] + treasury[r] == old(material)[r] + old(treasury)[r]
      ensures forall r: Resource :: material[r] <= old(material)[r]
      ensures ok && leastWorth >= WEAR_PARTS && ResourceWorth(old(material)) > 0 ==> forall r: Resource ::
        material[r] == old(material)[r] - WornDown(old(material), leastWorth / WEAR_PARTS, luck, r)
      ensures leastWorth / WEAR_PARTS == 0 || ResourceWorth(old(material)) <= 0 ==> material == old(material)
      ensures ResourceWorth(old(material)) - ResourceWorth(material) <= leastWorth / WEAR_PARTS
      ensures leastWorth >= WEAR_PARTS ==> ResourceWorth(old(material)) - ResourceWorth(material) < leastWorth / WEAR_PARTS
    {
      hide Worn, ResourceWorth;
      var base := leastWorth / WEAR_PARTS;
      if base == 0 {
        return true;
      }
      var worth := ResourceWorth(material);
      if worth <= 0 {
        return true;
      }
      WornBoundsAll(material, base, luck);
      var left, stock;
      left, stock, ok := WearEach(material, treasury, base, worth, luck);
      if ok {
        WornWorth(material, left, base, luck);
        material, treasury := left, stock;
      }
    }
  }

  /** Moves what each kind loses from the materials to the treasury's stock, one kind after the other. */
  method WearEach(material: ResourceTotals, treasury: ResourceTotals, base: int, worth: int, luck: map<Resource, nat>)
      returns (left: ResourceTotals, stock: ResourceTotals, ok: bool)
    requires worth > 0 && forall r: Resource :: r in luck && r in material && r in treasury
    ensures ok <==> forall r: Resource :: Divides(material[r], Price(r), base, worth)
    ensures forall r: Resource :: r in left && r in stock
    ensures ok ==> forall r: Resource :: left[r] == material[r] - Worn(material[r], Price(r), base, worth, luck[r])
    ensures ok ==> forall r: Resource :: stock[r] == treasury[r] + Worn(material[r], Price(r), base, worth, luck[r])
  {
    hide Worn, Divides;
    left, stock, ok := WearOne(material, treasury, Gold, base, worth, luck);
    if !ok {
      return;
    }
    left, stock, ok := WearOne(left, stock, Food, base, worth, luck);
    if !ok {
      return;
    }
    left, stock, ok := WearOne(left, stock, Wood, base, worth, luck);
    if !ok {
      return;
    }
    left, stock, ok := WearOne(left, stock, Fabric, base, worth, luck);
    if !ok {
      return;
    }
    left, stock, ok := WearOne(left, stock, Herb, base, worth, luck);
    if !ok {
      return;
    }
    forall r: Resource
      ensures Divides(material[r], Price(r), base, worth)
      ensures left[r] == material[r] - Worn(material[r], Price(r), base, worth, luck[r])
      ensures stock[r] == treasury[r] + Worn(material[r], Price(r), base, worth, luck[r])
    {
      match r
      case Gold =>
      case Food =>
      case Wood =>
      case Fabric =>
      case Herb =>
    }
  }

  method WearOne(material: ResourceTotals, treasury: ResourceTotals, r: Resource, base: int, worth: int,
                 luck: map<Resource, nat>) returns (left: ResourceTotals, stock: ResourceTotals, ok: bool)
    requires r in material && r in treasury && r in luck && worth > 0
    ensures ok <==> Divides(material[r], Price(r), base, worth)
    ensures left.Keys == material.Keys && stock.Keys == treasury.Keys
    ensures ok ==> var units := Worn(material[r], Price(r), base, worth, luck[r]);
                   left == material[r := material[r] - units] && stock == treasury[r := treasury[r] + units]
  {
    if !Divides(material[r], Price(r), base, worth) {
      return material, treasury, false;
    }
    var units := Worn(material[r], Price(r), base, worth, luck[r]);
    return material[r := material[r] - units], treasury[r := treasury[r] + units], true;
  }

  lemma {:induction false} WornBoundsAll(m: ResourceTotals, base: int, luck: map<Resource, nat>)
    requires Whole(m) && ResourceWorth(m) > 0 && base > 0 && forall r: Resource :: r in luck
    ensures forall r: Resource :: 0 <= WornDown(m, base, luck, r) <= m[r]
  {
    hide Worn;
    forall r: Resource
      ensures 0 <= WornDown(m, base, luck, r) <= m[r]
    {
      WornBounds(m[r], Price(r), base, ResourceWorth(m), luck[r]);
    }
  }

  lemma {:induction false} WornWorth(m: ResourceTotals, m': ResourceTotals, base: int, luck: map<Resource, nat>)
    requires Whole(m) && Whole(m') && ResourceWorth(m) > 0 && base > 0 && forall r: Resource :: r in luck
    requires forall r: Resource :: m'[r] == m[r] - WornDown(m, base, luck, r)
    ensures ResourceWorth(m) - ResourceWorth(m') < base && forall r: Resource :: m'[r] <= m[r]
  {
    hide Worn;
    WearBelowBase(m, base, luck);
    forall r: Resource
      ensures m'[r] <= m[r]
    {
      WornBounds(m[r], Price(r), base, ResourceWorth(m), luck[r]);
    }
  }
}
