/** The arithmetic of the five phases: how the materials of a zone and of the participants of a
    cultivation feed and overcome each other, and what bounds the result. */
module FivePhase {
  import opened Arithmetic
  import opened Percent

  const MAX_CULTIVATION_BLOCKS := 201600   // seven days of blocks

  /** Amounts of wood, herb (fire), food (earth), gold (metal) and fabric (water). */
  datatype Phases = Phases(wood: int, fire: int, earth: int, metal: int, water: int) {
    function Total(): int {
      wood + fire + earth + metal + water
    }

    predicate NonNegative() {
      wood >= 0 && fire >= 0 && earth >= 0 && metal >= 0 && water >= 0
    }

    function Plus(p: Phases): Phases {
      Phases(wood + p.wood, fire + p.fire, earth + p.earth, metal + p.metal, water + p.water)
    }
  }

  const NOTHING := Phases(0, 0, 0, 0, 0)

  /** Division that truncates toward zero. */
  function TruncDiv(a: int, b: int): int
    requires b > 0
  {
    if a >= 0 then a / b else -(-a / b)
  }

  /** x feeds y: wood, fire, earth, metal, water, and round to wood. */
  function Generation(x: Phases, y: Phases): int {
    x.wood * y.fire + x.fire * y.earth + x.earth * y.metal + x.metal * y.water + x.water * y.wood
  }

  /** x overcomes y: wood, earth, water, fire, metal, and round to wood. */
  function Overcoming(x: Phases, y: Phases): int {
    x.wood * y.earth + x.earth * y.water + x.water * y.fire + x.fire * y.metal + x.metal * y.wood
  }

  function ZoneEnergy(m: Phases): int
    requires m.NonNegative()
  {
    var base := m.Total();
    if base > 0
    then base + TruncDiv(TruncDiv(50 * ONE_PERCENT * (Generation(m, m) - Overcoming(m, m)) * 5, HUNDRED_PERCENT), base)
    else 0
  }

  /** A bonus or malus of up to 250%, in proportion to gain over loss. */
  function Harmony(gain: int, loss: int, scale: int): int
    requires scale > 0
  {
    if gain > loss then (gain - loss) * (HUNDRED_PERCENT / 2) * 5 / scale
    else if loss > gain then -((loss - gain) * (HUNDRED_PERCENT / 2) * 5 / scale)
    else 0
  }

  /** Efficiency before the floor: 100%, changed by the participants' harmony among themselves and with
      the zone. */
  function RawEfficiency(p: Phases, z: Phases): int
    requires p.NonNegative() && z.NonNegative()
  {
    if p.Total() == 0 then HUNDRED_PERCENT
    else if z.Total() == 0 then InnerEfficiency(p)
    else
      ProductPositive(z.Total(), p.Total());
      InnerEfficiency(p) + Harmony(Generation(z, p), Overcoming(z, p), z.Total() * p.Total())
  }

  function InnerEfficiency(p: Phases): int
    requires p.NonNegative() && p.Total() > 0
  {
    ProductPositive(p.Total(), p.Total());
    HUNDRED_PERCENT + Harmony(Generation(p, p), Overcoming(p, p), p.Total() * p.Total())
  }

  function Efficiency(p: Phases, z: Phases): int
    requires p.NonNegative() && z.NonNegative()
  {
    var e := RawEfficiency(p, z);
    if e > 10 * ONE_PERCENT then e else 10 * ONE_PERCENT
  }

  /** The Qi that dt blocks add: N is the zone's energy, Q the Qi staked, p a random share. */
  function Reward(N: int, Q: int, p: int, dt: int, E: int): int {
    (N + Q) * p * dt * E / MAX_CULTIVATION_BLOCKS / HUNDRED_PERCENT / HUNDRED_PERCENT
  }

  lemma {:induction false} TruncBounds(a: int, b: int)
    requires b > 0
    ensures a >= 0 ==> 0 <= TruncDiv(a, b) && b * TruncDiv(a, b) <= a
    ensures a <= 0 ==> TruncDiv(a, b) <= 0 && a <= b * TruncDiv(a, b)
  {
    if a >= 0 {
      DivideDown(a, b);
    } else {
      DivideDown(-a, b);
    }
  }

  /** Which phase feeds and which overcomes which, one at a time. */
  lemma {:induction false} PhaseCycles(a: int, y: Phases)
    ensures Generation(Phases(a, 0, 0, 0, 0), y) == a * y.fire && Overcoming(Phases(a, 0, 0, 0, 0), y) == a * y.earth
    ensures Generation(Phases(0, a, 0, 0, 0), y) == a * y.earth && Overcoming(Phases(0, a, 0, 0, 0), y) == a * y.metal
    ensures Generation(Phases(0, 0, a, 0, 0), y) == a * y.metal && Overcoming(Phases(0, 0, a, 0, 0), y) == a * y.water
    ensures Generation(Phases(0, 0, 0, a, 0), y) == a * y.water && Overcoming(Phases(0, 0, 0, a, 0), y) == a * y.wood
    ensures Generation(Phases(0, 0, 0, 0, a), y) == a * y.wood && Overcoming(Phases(0, 0, 0, 0, a), y) == a * y.fire
  {
  }

  /** Phases act side by side. */
  lemma {:induction false} PhasesAdd(x: Phases, x': Phases, y: Phases)
    ensures Generation(x.Plus(x'), y) == Generation(x, y) + Generation(x', y)
    ensures Overcoming(x.Plus(x'), y) == Overcoming(x, y) + Overcoming(x', y)
  {
    Split(x.wood, x'.wood, y.fire, y.earth);
    Split(x.fire, x'.fire, y.earth, y.metal);
    Split(x.earth, x'.earth, y.metal, y.water);
    Split(x.metal, x'.metal, y.water, y.wood);
    Split(x.water, x'.water, y.wood, y.fire);
  }

  lemma {:induction false} Split(a: int, b: int, x: int, y: int)
    ensures (a + b) * x == a * x + b * x && (a + b) * y == a * y + b * y
  {
  }

  // ----- The quadratic bound on a 5-cycle -----

  lemma {:induction false} CycleBoundFalling(a: int, b: int, c: int, d: int, e: int)
    requires a >= 0 && b >= 0 && d >= e >= 0
    ensures 4 * (a * b + b * c + c * d + d * e + e * a) <= (a + b + c + d + e) * (a + b + c + d + e)
  {
    var s, t := a + b + c + d + e, a - b + c - d + e;
    ProductNonNegative(a, d - e);
    ProductNonNegative(b, e);
    assert t * t >= 0;
    assert s * s == t * t + 4 * (a * b + b * c + c * d + d * e + a * d + b * e);
    assert a * (d - e) == a * d - a * e;
  }

  /** Neighbours on a 5-cycle of non-negative numbers: the products never exceed a quarter of the
      squared total. Going round, some number is followed by one that is not larger. */
  lemma {:induction false} CycleBound(a: int, b: int, c: int, d: int, e: int)
    requires a >= 0 && b >= 0 && c >= 0 && d >= 0 && e >= 0
    ensures 0 <= 4 * (a * b + b * c + c * d + d * e + e * a) <= (a + b + c + d + e) * (a + b + c + d + e)
  {
    if d >= e {
      CycleBoundFalling(a, b, c, d, e);
    } else if e >= a {
      CycleBoundFalling(b, c, d, e, a);
    } else if a >= b {
      CycleBoundFalling(c, d, e, a, b);
    } else if b >= c {
      CycleBoundFalling(d, e, a, b, c);
    } else {
      CycleBoundFalling(e, a, b, c, d);
    }
    ProductNonNegative(a, b);
    ProductNonNegative(b, c);
    ProductNonNegative(c, d);
    ProductNonNegative(d, e);
    ProductNonNegative(e, a);
  }

  /** Within one set of materials, feeding and overcoming are each at most a quarter of the square. */
  lemma {:induction false} InnerBounds(m: Phases)
    requires m.NonNegative()
    ensures 0 <= 4 * Generation(m, m) <= m.Total() * m.Total()
    ensures 0 <= 4 * Overcoming(m, m) <= m.Total() * m.Total()
  {
    CycleBound(m.wood, m.fire, m.earth, m.metal, m.water);
    CycleBound(m.wood, m.earth, m.water, m.fire, m.metal);
  }

  // ----- Zone energy -----

  lemma {:induction false} QuarterQuotient(d: int, base: int)
    requires base > 0 && 0 <= 4 * d <= base * base
    ensures 0 <= 8 * TruncDiv(TruncDiv(25000 * d, 10000), base) <= 5 * base
  {
    var t := TruncDiv(25000 * d, 10000);
    var q := TruncDiv(t, base);
    TruncBounds(t, base);
    assert 8 * (base * q) <= 5 * (base * base);
    EighthCancel(base, q);
  }

  lemma {:induction false} EighthCancel(base: int, q: int)
    requires base > 0 && 8 * (base * q) <= 5 * (base * base)
    ensures 8 * q <= 5 * base
  {
    assert base * (8 * q) == 8 * (base * q);
    assert base * (5 * base) == 5 * (base * base);
    CancelFactor(base, 8 * q, 5 * base);
  }

  /** For all materials, a zone's energy lies between 3/8 and 13/8 of their sum. */
  lemma {:induction false} ZoneEnergyBounds(m: Phases)
    requires m.NonNegative()
    ensures 3 * m.Total() <= 8 * ZoneEnergy(m) <= 13 * m.Total()
  {
    var base := m.Total();
    if base > 0 {
      InnerBounds(m);
      var d := Generation(m, m) - Overcoming(m, m);
      EnergyTerm(d, base);
      QuarterQuotient(if d >= 0 then d else -d, base);
    }
  }

  lemma {:induction false} EnergyTerm(d: int, base: int)
    requires base > 0
    ensures TruncDiv(TruncDiv(50 * ONE_PERCENT * d * 5, HUNDRED_PERCENT), base)
         == if d >= 0 then TruncDiv(TruncDiv(25000 * d, 10000), base) else -TruncDiv(TruncDiv(25000 * -d, 10000), base)
  {
    assert 50 * ONE_PERCENT * d * 5 == 25000 * d;
  }

  /** Energy is the sum of the materials and two and a half times the surplus of feeding over overcoming per unit, to
      within one unit. */
  lemma {:induction false} ZoneEnergyRounds(m: Phases)
    requires m.NonNegative() && m.Total() > 0
    ensures var surplus := Generation(m, m) - Overcoming(m, m);
            -2 * m.Total() < 2 * m.Total() * (ZoneEnergy(m) - m.Total()) - 5 * surplus < 2 * m.Total()
  {
    hide Generation, Overcoming;
    var base, d := m.Total(), Generation(m, m) - Overcoming(m, m);
    EnergyTerm(d, base);
    EnergyRounds(if d >= 0 then d else -d, base);
    if d < 0 {
      var q := TruncDiv(TruncDiv(25000 * -d, 10000), base);
      assert 2 * base * -q == -(2 * base * q);
    }
  }

  lemma {:induction false} EnergyRounds(d: int, base: int)
    requires base > 0 && d >= 0
    ensures var q := TruncDiv(TruncDiv(25000 * d, 10000), base); 2 * base * q <= 5 * d < 2 * base * q + 2 * base
  {
    var t := 25000 * d / 10000;
    DivideBounds(t, base);
    assert 2 * t <= 5 * d < 2 * (t + 1);
    assert (t / base + 1) * base == t / base * base + base;
    assert 2 * base * (t / base) == 2 * (t / base * base);
  }

  /** Both ends are reached: by two phases that feed each other, and by two that overcome each other. */
  lemma {:induction false} ZoneEnergyExtremes(k: nat)
    ensures ZoneEnergy(Phases(4 * k, 4 * k, 0, 0, 0)) == 13 * k
    ensures ZoneEnergy(Phases(4 * k, 0, 4 * k, 0, 0)) == 3 * k
  {
    if k > 0 {
      var d := 16 * k * k;
      assert 4 * k * (4 * k) == d;
      assert TruncDiv(25000 * d, 10000) == 40 * k * k;
      assert 40 * k * k == 5 * k * (8 * k);
      ExactQuotient(5 * k, 8 * k);
      assert TruncDiv(-(25000 * d), 10000) == -(40 * k * k);
      assert 50 * ONE_PERCENT * d * 5 == 25000 * d;
      assert 50 * ONE_PERCENT * -d * 5 == -(25000 * d);
    }
  }

  // ----- Cultivation efficiency -----

  /** Whatever one phase a participant set is turned toward, that phase's share and the inner feeding
      together stay within the square. */
  lemma {:induction false} ShareBound(p: Phases, share: int)
    requires p.NonNegative()
    requires share in [p.wood, p.fire, p.earth, p.metal, p.water]
    ensures Generation(p, p) + share * p.Total() <= p.Total() * p.Total()
  {
    var T := p.Total();
    var R := T - share;
    assert Generation(p, p) <= R * T by {
      if share == p.wood {
        PathBound(p.wood, p.fire, p.earth, p.metal, p.water);
      } else if share == p.fire {
        PathBound(p.fire, p.earth, p.metal, p.water, p.wood);
      } else if share == p.earth {
        PathBound(p.earth, p.metal, p.water, p.wood, p.fire);
      } else if share == p.metal {
        PathBound(p.metal, p.water, p.wood, p.fire, p.earth);
      } else {
        PathBound(p.water, p.wood, p.fire, p.earth, p.metal);
      }
    }
    assert R * T + share * T == T * T;
  }

  lemma {:induction false} PathBound(a: int, b: int, c: int, d: int, e: int)
    requires a >= 0 && b >= 0 && c >= 0 && d >= 0 && e >= 0
    ensures a * b + b * c + c * d + d * e + e * a <= (b + c + d + e) * (a + b + c + d + e)
  {
    var R := b + c + d + e;
    CycleBound(0, b, c, d, e);
    assert 4 * (b * c + c * d + d * e) <= R * R;
    ProductNonNegative(R, R);
    ProductNonNegative(a, c + d);
    assert R * (a + R) == a * b + e * a + a * (c + d) + R * R;
  }

  /** Inner and outer harmony compete for the same materials. */
  lemma {:induction false} JointBound(p: Phases, z: Phases)
    requires p.NonNegative() && z.NonNegative()
    ensures Generation(p, p) * z.Total() + Generation(z, p) * p.Total() <= p.Total() * p.Total() * z.Total()
  {
    hide Generation, Phases.Total;
    var G, T := Generation(p, p), p.Total();
    ShareBound(p, p.wood);
    ShareBound(p, p.fire);
    ShareBound(p, p.earth);
    ShareBound(p, p.metal);
    ShareBound(p, p.water);
    Weighted(z.wood, G, p.fire, T);
    Weighted(z.fire, G, p.earth, T);
    Weighted(z.earth, G, p.metal, T);
    Weighted(z.metal, G, p.water, T);
    Weighted(z.water, G, p.wood, T);
    Distribute(z.wood, z.fire, z.earth, z.metal, z.water, G);
    Distribute(z.wood, z.fire, z.earth, z.metal, z.water, T * T);
    Distribute(z.wood * p.fire, z.fire * p.earth, z.earth * p.metal, z.metal * p.water, z.water * p.wood, T);
    Unfolded(z, p);
  }

  lemma {:induction false} Unfolded(z: Phases, p: Phases)
    ensures Generation(z, p)
      == z.wood * p.fire + z.fire * p.earth + z.earth * p.metal + z.metal * p.water + z.water * p.wood
    ensures z.Total() == z.wood + z.fire + z.earth + z.metal + z.water
  {
  }

  lemma {:induction false} Weighted(w: int, G: int, share: int, T: int)
    requires w >= 0 && G + share * T <= T * T
    ensures w * G + w * share * T <= w * (T * T)
  {
    ProductMonotone(w, G + share * T, T * T);
    assert w * (G + share * T) == w * G + w * share * T;
  }

  lemma {:induction false} Distribute(a: int, b: int, c: int, d: int, e: int, x: int)
    ensures (a + b + c + d + e) * x == a * x + b * x + c * x + d * x + e * x
  {
  }

  lemma {:induction false} CrossNonNegative(z: Phases, p: Phases)
    requires p.NonNegative() && z.NonNegative()
    ensures 0 <= Generation(z, p) && 0 <= Overcoming(z, p)
  {
    ProductNonNegative(z.wood, p.fire);
    ProductNonNegative(z.fire, p.earth);
    ProductNonNegative(z.earth, p.metal);
    ProductNonNegative(z.metal, p.water);
    ProductNonNegative(z.water, p.wood);
    ProductNonNegative(z.wood, p.earth);
    ProductNonNegative(z.earth, p.water);
    ProductNonNegative(z.water, p.fire);
    ProductNonNegative(z.fire, p.metal);
    ProductNonNegative(z.metal, p.wood);
  }

  lemma {:induction false} HarmonyBounds(gain: int, loss: int, scale: int)
    requires scale > 0 && gain >= 0 && loss >= 0
    ensures gain > loss ==> 0 <= Harmony(gain, loss, scale) && scale * Harmony(gain, loss, scale) <= 25000 * gain
    ensures gain <= loss ==> Harmony(gain, loss, scale) <= 0
  {
    if gain > loss {
      var x := (gain - loss) * 5000 * 5;
      assert x == 25000 * (gain - loss);
      assert scale * (x / scale) <= x;
    }
  }

  /** For all participants and zones, efficiency lies between 10% and 350%. */
  lemma {:induction false} EfficiencyBounds(p: Phases, z: Phases)
    requires p.NonNegative() && z.NonNegative()
    ensures 10 * ONE_PERCENT <= Efficiency(p, z) <= 350 * ONE_PERCENT
  {
    var T, Z := p.Total(), z.Total();
    if T > 0 {
      ProductPositive(T, T);
      InnerBounds(p);
      HarmonyBounds(Generation(p, p), Overcoming(p, p), T * T);
      var hi := Harmony(Generation(p, p), Overcoming(p, p), T * T);
      assert hi <= 6250 by {
        if hi > 0 {
          assert T * T * hi <= T * T * 6250;
          CancelFactor(T * T, hi, 6250);
        }
      }
      if Z > 0 {
        HarmonySum(p, z, hi);
      }
    }
  }

  lemma {:induction false} ScaledSum(T: int, Z: int, hi: int, he: int, gi: int, ge: int)
    requires T > 0 && Z > 0
    requires T * T * hi <= 25000 * gi && Z * T * he <= 25000 * ge
    requires gi * Z + ge * T <= T * T * Z
    ensures hi + he <= 25000
  {
    var scale := T * T * Z;
    ProductPositive(T, T);
    ProductPositive(T * T, Z);
    ProductMonotone(Z, T * T * hi, 25000 * gi);
    ProductMonotone(T, Z * T * he, 25000 * ge);
    assert scale * hi == Z * (T * T * hi);
    assert scale * he == T * (Z * T * he);
    assert scale * (hi + he) <= 25000 * (gi * Z + ge * T);
    CancelFactor(scale, hi + he, 25000);
  }

  lemma {:induction false} HarmonySum(p: Phases, z: Phases, hi: int)
    requires p.NonNegative() && z.NonNegative() && p.Total() > 0 && z.Total() > 0
    requires p.Total() * p.Total() > 0 && z.Total() * p.Total() > 0
    requires hi == Harmony(Generation(p, p), Overcoming(p, p), p.Total() * p.Total())
    ensures hi + Harmony(Generation(z, p), Overcoming(z, p), z.Total() * p.Total()) <= 25000
  {
    var T, Z := p.Total(), z.Total();
    var gi, ge := Generation(p, p), Generation(z, p);
    var he := Harmony(ge, Overcoming(z, p), Z * T);
    InnerBounds(p);
    CrossNonNegative(z, p);
    HarmonyBounds(gi, Overcoming(p, p), T * T);
    HarmonyBounds(ge, Overcoming(z, p), Z * T);
    JointBound(p, z);
    ProductNonNegative(gi, Z);
    ProductNonNegative(ge, T);
    hide Generation, Overcoming, Harmony;
    ScaledSum(T, Z, if hi > 0 then hi else 0, if he > 0 then he else 0,
              if hi > 0 then gi else 0, if he > 0 then ge else 0);
  }

  /** A bonus is 250% of the surplus over the scale, to within one unit. */
  lemma {:induction false} HarmonyRounds(gain: int, loss: int, scale: int)
    requires scale > 0
    ensures -scale < scale * Harmony(gain, loss, scale) - 25000 * (gain - loss) < scale
  {
    if gain > loss {
      assert (gain - loss) * 5000 * 5 == 25000 * (gain - loss);
      DivideBounds(25000 * (gain - loss), scale);
      Surplus(25000 * (gain - loss) / scale, scale);
    } else if loss > gain {
      assert (loss - gain) * 5000 * 5 == 25000 * (loss - gain);
      DivideBounds(25000 * (loss - gain), scale);
      Surplus(25000 * (loss - gain) / scale, scale);
    }
  }

  lemma {:induction false} Surplus(q: int, scale: int)
    ensures (q + 1) * scale == q * scale + scale && scale * -q == -(q * scale) && scale * q == q * scale
  {
  }

  /** Efficiency is 100% and 250% of the participants' own surplus of feeding over overcoming, and of the zone's
      over them, to within a hundredth of a percent each, and never less than 10%. */
  lemma {:induction false} EfficiencyRounds(p: Phases, z: Phases) returns (inner: int, outer: int)
    requires p.NonNegative() && z.NonNegative()
    ensures var e := HUNDRED_PERCENT + inner + outer;
            Efficiency(p, z) == if e > 10 * ONE_PERCENT then e else 10 * ONE_PERCENT
    ensures p.Total() == 0 ==> inner == 0
    ensures p.Total() == 0 || z.Total() == 0 ==> outer == 0
    ensures p.Total() > 0 ==>
      var scale := p.Total() * p.Total();
      -scale < scale * inner - 25000 * (Generation(p, p) - Overcoming(p, p)) < scale
    ensures p.Total() > 0 && z.Total() > 0 ==>
      var scale := z.Total() * p.Total();
      -scale < scale * outer - 25000 * (Generation(z, p) - Overcoming(z, p)) < scale
  {
    hide Generation, Overcoming, Harmony;
    inner, outer := 0, 0;
    if p.Total() > 0 {
      ProductPositive(p.Total(), p.Total());
      inner := Harmony(Generation(p, p), Overcoming(p, p), p.Total() * p.Total());
      HarmonyRounds(Generation(p, p), Overcoming(p, p), p.Total() * p.Total());
      if z.Total() > 0 {
        ProductPositive(z.Total(), p.Total());
        outer := Harmony(Generation(z, p), Overcoming(z, p), z.Total() * p.Total());
        HarmonyRounds(Generation(z, p), Overcoming(z, p), z.Total() * p.Total());
      }
    }
  }

  /** Both ends are reached: a zone that feeds its participants' only phase, and one that overcomes it. */
  lemma {:induction false} EfficiencyExtremes(k: int, n: int)
    requires k > 0 && n > 0
    ensures Efficiency(Phases(0, k, 0, 0, 0), Phases(n, 0, 0, 0, 0)) == 350 * ONE_PERCENT
    ensures Efficiency(Phases(0, 0, k, 0, 0), Phases(n, 0, 0, 0, 0)) == 10 * ONE_PERCENT
  {
    ProductPositive(k, k);
    ProductPositive(n, k);
    ExactQuotient(25000, n * k);
    assert n * k * 5000 * 5 == 25000 * (n * k);
  }

  // ----- Rewards -----

  /** Rounding down three times is rounding down once. */
  lemma {:induction false} RewardRounds(N: int, Q: int, p: int, dt: int, E: int)
    ensures var whole := MAX_CULTIVATION_BLOCKS * HUNDRED_PERCENT * HUNDRED_PERCENT;
            whole * Reward(N, Q, p, dt, E) <= (N + Q) * p * dt * E < whole * (Reward(N, Q, p, dt, E) + 1)
  {
    var X := (N + Q) * p * dt * E;
    var a := X / MAX_CULTIVATION_BLOCKS;
    var b := a / HUNDRED_PERCENT;
    assert HUNDRED_PERCENT * (b / HUNDRED_PERCENT) <= b < HUNDRED_PERCENT * (b / HUNDRED_PERCENT + 1);
    assert HUNDRED_PERCENT * b <= a < HUNDRED_PERCENT * (b + 1);
    assert MAX_CULTIVATION_BLOCKS * a <= X < MAX_CULTIVATION_BLOCKS * (a + 1);
  }

  /** With any random share below 100% and any elapsed time capped at the maximum, a reward is never
      negative and never more than the whole energy and stake at full efficiency. */
  lemma {:induction false} RewardBounds(N: int, Q: int, p: int, dt: int, E: int)
    requires N >= 0 && Q >= 0 && 0 <= p < HUNDRED_PERCENT && 0 <= dt <= MAX_CULTIVATION_BLOCKS && E >= 0
    ensures 0 <= Reward(N, Q, p, dt, E) <= (N + Q) * E / HUNDRED_PERCENT
  {
    var B := (N + Q) * p * E;
    ProductNonNegative(N + Q, p);
    ProductNonNegative((N + Q) * p, E);
    ProductNonNegative((N + Q) * p, dt);
    ProductNonNegative((N + Q) * p * dt, E);
    var X := (N + Q) * p * dt * E;
    assert X == B * dt;
    ProductMonotone(B, dt, MAX_CULTIVATION_BLOCKS);
    QuotientMonotone(X, B * MAX_CULTIVATION_BLOCKS, MAX_CULTIVATION_BLOCKS);
    ExactQuotient(B, MAX_CULTIVATION_BLOCKS);
    var C := (N + Q) * E;
    ProductNonNegative(N + Q, E);
    assert B == C * p;
    ProductMonotone(C, p, HUNDRED_PERCENT);
    var X1 := X / MAX_CULTIVATION_BLOCKS;
    QuotientMonotone(X1, C * HUNDRED_PERCENT, HUNDRED_PERCENT);
    ExactQuotient(C, HUNDRED_PERCENT);
    QuotientMonotone(X1 / HUNDRED_PERCENT, C, HUNDRED_PERCENT);
  }
}
