/** Income formulas of the idle economy (app/services/economy/formulas.ts):
    per-building income from base rate, level, health, cluster size and
    employment, and the upgrade cost curve. */
module Formulas {
  import opened Common
  import opened Hex

  /** A building as the economy sees it. `kind` is the source's `type`. */
  datatype Building = Building(
    id: string,
    kind: string,
    level: int,
    health: Option<real>,
    coord: Axial,
    productivity: Option<real>,
    clusterId: Option<string>)

  /** The id of a cluster: the source renders it as `cl_<kind>_<q>_<r>_<salt>`,
      where the salt is six random base-36 characters. */
  datatype ClusterId = ClusterId(kind: string, seed: Axial, salt: string)

  datatype Cluster = Cluster(
    id: ClusterId,
    kind: string,
    level: int,
    tiles: seq<Axial>,
    centroid: Axial)

  /** The optional second argument of `incomePerSecond`. */
  datatype IncomeOptions = IncomeOptions(clusterTileCount: Option<int>, employmentRatio: Option<real>)

  const NO_OPTIONS := IncomeOptions(None, None)

  const BASE_INCOME: map<string, real> := map[
    "house" := 2.0, "shop" := 3.0, "factory" := 6.0, "bank" := 8.0,
    "school" := 3.0, "park" := 1.0, "farm" := 2.5]

  /** Coins per second of a level-1 building of this kind; 2 for unknown kinds. */
  function BaseIncome(kind: string): (r: real)
    ensures kind !in BASE_INCOME ==> r == 2.0
    ensures 1.0 <= r <= 8.0
  {
    if kind in BASE_INCOME then BASE_INCOME[kind] else 2.0
  }

  /** `levelMult`: +35 % per level above 1. */
  function LevelMult(level: int): (r: real)
    ensures level <= 1 ==> r == 1.0
    ensures level == 2 ==> r == 1.35
    ensures r >= 1.0
  {
    1.0 + 0.35 * Max(0, level - 1) as real
  }

  /** `healthMult`: linear in health, clamped to [0.4, 1.0]. */
  function HealthMult(health: real): (r: real)
    ensures 0.4 <= r <= 1.0
    ensures health >= 100.0 ==> r == 1.0
    ensures health <= 0.0 ==> r == 0.4
  {
    var m := 0.4 + 0.006 * health;
    MinR(1.0, MaxR(0.4, m))
  }

  /** `clusterBonus`: +5 % for every full five tiles, so never more than
      +1 % per tile. */
  function ClusterBonus(tileCount: int): (r: real)
    ensures 0 <= tileCount < 5 ==> r == 1.0
    ensures 0 <= tileCount ==> 1.0 <= r <= 1.0 + 0.01 * tileCount as real
  {
    var k := tileCount / 5;
    assert 0 <= tileCount ==> 0 <= k && 5 * k <= tileCount;
    1.0 + 0.05 * k as real
  }

  /** `employmentMult`: linear in the employment ratio, clamped to [0.6, 1.2]. */
  function EmploymentMult(ratio: real): (r: real)
    ensures 0.6 <= r <= 1.2
    ensures ratio >= 1.0 ==> r == 1.2
    ensures ratio <= 0.0 ==> r == 0.6
  {
    var base := 0.6 + 0.6 * ratio;
    MaxR(0.6, MinR(1.2, base))
  }

  /** `incomePerSecond`: the product of all multipliers and the productivity
      (health defaults to 100, tile count and employment ratio to 1,
      productivity to 1). */
  function IncomePerSecond(b: Building, opts: IncomeOptions): (r: real)
    ensures b.productivity.GetOr(1.0) >= 0.0 && opts.clusterTileCount.GetOr(1) >= 0 ==> r >= 0.0
    ensures opts.clusterTileCount.GetOr(1) >= 0 ==> (r == 0.0 <==> b.productivity.GetOr(1.0) == 0.0)
    ensures b.health.None? && opts == NO_OPTIONS ==>
      r == 1.2 * BaseIncome(b.kind) * LevelMult(b.level) * b.productivity.GetOr(1.0)
  {
    var base := BaseIncome(b.kind);
    var lvl := LevelMult(b.level);
    var h := HealthMult(b.health.GetOr(100.0));
    var c := ClusterBonus(opts.clusterTileCount.GetOr(1));
    var e := EmploymentMult(opts.employmentRatio.GetOr(1.0));
    var prod := b.productivity.GetOr(1.0);
    ProductSign(base, lvl, h, c, e, prod);
    DefaultProduct(base, lvl, prod);
    Product(base, lvl, h, c, e, prod)
  }

  /** With positive multipliers the product has the sign of the productivity. */
  lemma ProductSign(base: real, lvl: real, h: real, c: real, e: real, prod: real)
    requires base > 0.0 && lvl > 0.0 && h > 0.0 && e > 0.0
    ensures c > 0.0 ==> (Product(base, lvl, h, c, e, prod) == 0.0 <==> prod == 0.0)
    ensures c > 0.0 && prod >= 0.0 ==> Product(base, lvl, h, c, e, prod) >= 0.0
  {
    if c > 0.0 {
      FactorsPositive(base, lvl, h, c, e);
      MulZeroIff(base * lvl * h * c * e, prod);
    }
  }

  lemma DefaultProduct(base: real, lvl: real, prod: real)
    ensures Product(base, lvl, 1.0, 1.0, 1.2, prod) == 1.2 * base * lvl * prod
  {
  }

  lemma MulPos(a: real, b: real)
    requires a > 0.0 && b > 0.0
    ensures a * b > 0.0
  {
  }

  /** The five multipliers before productivity are all positive. */
  lemma FactorsPositive(base: real, lvl: real, h: real, c: real, e: real)
    requires base > 0.0 && lvl > 0.0 && h > 0.0 && c > 0.0 && e > 0.0
    ensures base * lvl * h * c * e > 0.0
  {
    MulPos(base, lvl);
    MulPos(base * lvl, h);
    MulPos(base * lvl * h, c);
    MulPos(base * lvl * h * c, e);
  }

  /** A positive factor times `p` is non-negative when `p` is, and zero
      exactly when `p` is. */
  lemma MulZeroIff(a: real, p: real)
    requires a > 0.0
    ensures a * p == 0.0 <==> p == 0.0
    ensures p >= 0.0 ==> a * p >= 0.0
  {
  }

  function Product(base: real, lvl: real, h: real, c: real, e: real, prod: real): real {
    base * lvl * h * c * e * prod
  }

  /** `incomePerHour`: an hour's worth of `incomePerSecond`. */
  function IncomePerHour(b: Building, opts: IncomeOptions): (r: real)
    ensures b.productivity.GetOr(1.0) >= 0.0 && opts.clusterTileCount.GetOr(1) >= 0 ==> r >= IncomePerSecond(b, opts) >= 0.0
    ensures opts.clusterTileCount.GetOr(1) >= 0 ==> (r == 0.0 <==> b.productivity.GetOr(1.0) == 0.0)
  {
    IncomePerSecond(b, opts) * 3600.0
  }

  // ---------------------------------------------------------------------
  // Upgrade cost.

  function PowNat(x: real, n: nat): real {
    if n == 0 then 1.0 else x * PowNat(x, n - 1)
  }

  /** `Math.pow(x, n)` for an integer exponent; a negative power of 0 is
      infinite in the source and excluded here. */
  function Pow(x: real, n: int): real
    requires n >= 0 || x != 0.0
  {
    if n >= 0 then PowNat(x, n) else PowNatNonZero(x, -n); 1.0 / PowNat(x, -n)
  }

  lemma {:induction false} PowNatNonZero(x: real, n: nat)
    requires x != 0.0
    ensures PowNat(x, n) != 0.0
  {
    if n > 0 { PowNatNonZero(x, n - 1); }
  }

  /** `upgradeCost(level, base, growth)`: `base * growth^(level - 1)`, rounded. */
  function UpgradeCost(level: int, base: real, growth: real): (r: int)
    requires level >= 1 || growth != 0.0
    ensures level == 1 ==> r == Round(base)
    ensures level >= 1 && base >= 0.0 && growth >= 1.0 ==> r >= Round(base)
  {
    CostAtLeastBase(level, base, growth);
    Round(base * Pow(growth, level - 1))
  }

  lemma CostAtLeastBase(level: int, base: real, growth: real)
    requires level >= 1 || growth != 0.0
    ensures level >= 1 && base >= 0.0 && growth >= 1.0 ==> base <= base * Pow(growth, level - 1)
  {
    if level >= 1 && base >= 0.0 && growth >= 1.0 {
      PowNatAtLeastOne(growth, level - 1);
      MulLe(1.0, Pow(growth, level - 1), base);
    }
  }

  lemma RoundMonotone(x: real, y: real)
    requires x <= y
    ensures Round(x) <= Round(y)
  {
  }

  /** For a growth factor of at least 1 and a non-negative base, each level
      costs at least as much as the one before. */
  lemma UpgradeCostMonotone(level: int, base: real, growth: real)
    requires level >= 1 && base >= 0.0 && growth >= 1.0
    ensures UpgradeCost(level, base, growth) <= UpgradeCost(level + 1, base, growth)
  {
    var p := PowNat(growth, level - 1);
    PowNatAtLeastOne(growth, level - 1);
    assert PowNat(growth, level) == growth * p;
    MulLe(1.0, growth, p);
    MulLe(p, growth * p, base);
    assert base * p <= base * (growth * p);
    RoundMonotone(base * p, base * (growth * p));
  }

  /** `upgradeCost(level)` with the default base 50 and growth 1.6. */
  function DefaultUpgradeCost(level: int): int {
    UpgradeCost(level, 50.0, 1.6)
  }

  // ---------------------------------------------------------------------
  // Properties.

  /** The level multiplier never decreases as the level rises. */
  lemma LevelMultMonotone(l1: int, l2: int)
    requires l1 <= l2
    ensures LevelMult(l1) <= LevelMult(l2)
  {
  }

  /** The health multiplier never decreases as health rises. */
  lemma HealthMultMonotone(h1: real, h2: real)
    requires h1 <= h2
    ensures HealthMult(h1) <= HealthMult(h2)
  {
  }

  /** The employment multiplier never decreases as the ratio rises. */
  lemma EmploymentMultMonotone(e1: real, e2: real)
    requires e1 <= e2
    ensures EmploymentMult(e1) <= EmploymentMult(e2)
  {
  }

  /** The cluster bonus is 1 for one to four tiles, rises by exactly 0.05
      when the tile count reaches a multiple of 5, and is flat otherwise. */
  lemma ClusterBonusSteps(n: int)
    ensures 1 <= n <= 4 ==> ClusterBonus(n) == 1.0
    ensures (n + 1) % 5 == 0 ==> ClusterBonus(n + 1) == ClusterBonus(n) + 0.05
    ensures (n + 1) % 5 != 0 ==> ClusterBonus(n + 1) == ClusterBonus(n)
  {
    if (n + 1) % 5 == 0 {
      assert (n + 1) / 5 == n / 5 + 1;
    } else {
      assert (n + 1) / 5 == n / 5;
    }
  }

  lemma ClusterBonusMonotone(n1: int, n2: int)
    requires n1 <= n2
    ensures 1.0 <= ClusterBonus(Max(1, n1)) && ClusterBonus(n1) <= ClusterBonus(n2)
  {
    assert n1 / 5 <= n2 / 5;
  }

  lemma MulLe(a: real, b: real, c: real)
    requires 0.0 <= c && a <= b
    ensures a * c <= b * c
  {
  }

  lemma MulNonNeg(a: real, b: real)
    requires 0.0 <= a && 0.0 <= b
    ensures 0.0 <= a * b
  {
  }

  /** Multiplying grows with both non-negative factors. */
  lemma MulMonotone(p: real, q: real, a: real, b: real)
    requires 0.0 <= p <= q && 0.0 <= a <= b
    ensures 0.0 <= p * a <= q * b
  {
    MulNonNeg(p, a); MulLe(p, q, a); MulLe(a, b, q);
  }

  /** A product of six non-negative factors grows when each factor grows. */
  lemma ProductMonotone(a1: real, a2: real, a3: real, a4: real, a5: real, a6: real,
                        b1: real, b2: real, b3: real, b4: real, b5: real, b6: real)
    requires 0.0 <= a1 <= b1 && 0.0 <= a2 <= b2 && 0.0 <= a3 <= b3
    requires 0.0 <= a4 <= b4 && 0.0 <= a5 <= b5 && 0.0 <= a6 <= b6
    ensures 0.0 <= Product(a1, a2, a3, a4, a5, a6) <= Product(b1, b2, b3, b4, b5, b6)
  {
    Product5Monotone(a1, a2, a3, a4, a5, b1, b2, b3, b4, b5);
    MulMonotone(a1 * a2 * a3 * a4 * a5, b1 * b2 * b3 * b4 * b5, a6, b6);
  }

  lemma Product5Monotone(a1: real, a2: real, a3: real, a4: real, a5: real,
                         b1: real, b2: real, b3: real, b4: real, b5: real)
    requires 0.0 <= a1 <= b1 && 0.0 <= a2 <= b2 && 0.0 <= a3 <= b3
    requires 0.0 <= a4 <= b4 && 0.0 <= a5 <= b5
    ensures 0.0 <= a1 * a2 * a3 * a4 * a5 <= b1 * b2 * b3 * b4 * b5
  {
    Product4Monotone(a1, a2, a3, a4, b1, b2, b3, b4);
    MulMonotone(a1 * a2 * a3 * a4, b1 * b2 * b3 * b4, a5, b5);
  }

  lemma Product4Monotone(a1: real, a2: real, a3: real, a4: real,
                         b1: real, b2: real, b3: real, b4: real)
    requires 0.0 <= a1 <= b1 && 0.0 <= a2 <= b2 && 0.0 <= a3 <= b3 && 0.0 <= a4 <= b4
    ensures 0.0 <= a1 * a2 * a3 * a4 <= b1 * b2 * b3 * b4
  {
    MulMonotone(a1, b1, a2, b2);
    MulMonotone(a1 * a2, b1 * b2, a3, b3);
    MulMonotone(a1 * a2 * a3, b1 * b2 * b3, a4, b4);
  }

  /** Each input the income depends on raises (or keeps) the income:
      level, health, cluster tile count and employment ratio. */
  lemma IncomeMonotone(b: Building, opts: IncomeOptions, b2: Building, opts2: IncomeOptions)
    requires b2.kind == b.kind && b2.productivity == b.productivity
    requires b.productivity.GetOr(1.0) >= 0.0
    requires b.level <= b2.level
    requires b.health.GetOr(100.0) <= b2.health.GetOr(100.0)
    requires 0 <= opts.clusterTileCount.GetOr(1) <= opts2.clusterTileCount.GetOr(1)
    requires opts.employmentRatio.GetOr(1.0) <= opts2.employmentRatio.GetOr(1.0)
    ensures IncomePerSecond(b, opts) <= IncomePerSecond(b2, opts2)
    ensures IncomePerHour(b, opts) <= IncomePerHour(b2, opts2)
  {
    var n, n2 := opts.clusterTileCount.GetOr(1), opts2.clusterTileCount.GetOr(1);
    ClusterBonusMonotone(0, n);
    ClusterBonusMonotone(n, n2);
    var h, h2 := b.health.GetOr(100.0), b2.health.GetOr(100.0);
    var e, e2 := opts.employmentRatio.GetOr(1.0), opts2.employmentRatio.GetOr(1.0);
    LevelMultMonotone(b.level, b2.level);
    HealthMultMonotone(h, h2);
    EmploymentMultMonotone(e, e2);
    var base, prod := BaseIncome(b.kind), b.productivity.GetOr(1.0);
    var f2, f3, f4, f5 := LevelMult(b.level), HealthMult(h), ClusterBonus(n), EmploymentMult(e);
    var g2, g3, g4, g5 := LevelMult(b2.level), HealthMult(h2), ClusterBonus(n2), EmploymentMult(e2);
    ProductMonotone(base, f2, f3, f4, f5, prod, base, g2, g3, g4, g5, prod);
  }

  /** A level-1 house with every default earns 2.4 coins per second and 8640 per hour;
      an unknown kind earns at base rate 2. */
  lemma DefaultHouseIncome(b: Building)
    requires b.level == 1 && b.health == None && b.productivity == None
    ensures b.kind == "house" ==> IncomePerSecond(b, NO_OPTIONS) == 2.4
    ensures b.kind == "house" ==> IncomePerHour(b, NO_OPTIONS) == 8640.0
    ensures b.kind !in BASE_INCOME ==> IncomePerSecond(b, NO_OPTIONS) == 2.4
  {
    assert ClusterBonus(1) == 1.0;
  }

  /** The default upgrade costs 50 at level 1 and 80 at level 2. */
  lemma DefaultUpgradeCostValues()
    ensures DefaultUpgradeCost(1) == 50
    ensures DefaultUpgradeCost(2) == 80
  {
    assert PowNat(1.6, 1) == 1.6;
    assert Round(80.0) == 80;
  }

  lemma {:induction false} PowNatAtLeastOne(x: real, n: nat)
    requires x >= 1.0
    ensures PowNat(x, n) >= 1.0
  {
    if n > 0 {
      PowNatAtLeastOne(x, n - 1);
      MulLe(1.0, x, PowNat(x, n - 1));
    }
  }

  /** With the defaults every upgrade from level 1 on costs strictly more than the last. */
  lemma DefaultUpgradeCostIncreasing(level: int)
    requires level >= 1
    ensures DefaultUpgradeCost(level) < DefaultUpgradeCost(level + 1)
  {
    var p := PowNat(1.6, level - 1);
    PowNatAtLeastOne(1.6, level - 1);
    var x := 50.0 * p;
    assert PowNat(1.6, level) == 1.6 * p;
    assert 50.0 * (1.6 * p) == x + 0.6 * x;
    assert x >= 50.0;
    assert 0.6 * x >= 30.0;
    assert x + 0.6 * x + 0.5 >= (x + 0.5) + 30.0;
  }
}
