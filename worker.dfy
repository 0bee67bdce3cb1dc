/** The economy worker (app/workers/economy.worker.ts): turns one tick's
    request into a coin delta, floored to whole cents. */
module Worker {
  import opened Formulas

  /** A building as the ticker sends it: the building and its computed income. */
  datatype Priced = Priced(building: Building, incomePerHour: real)

  /** An investment position as the worker reads it. */
  datatype Yield = Yield(amount: real, roiYearly: real)

  /** The message the ticker posts to the worker. */
  datatype Request = Request(buildings: seq<Priced>, investments: seq<Yield>, dtMs: real)

  const MS_PER_HOUR: real := 3600000.0
  const MS_PER_YEAR: real := 365.0 * 24.0 * 3600000.0

  /** What one building earns in `dtMs` milliseconds. */
  function BuildingTerm(p: Priced, dtMs: real): real {
    (p.incomePerHour / MS_PER_HOUR) * dtMs
  }

  /** What one investment yields in `dtMs` milliseconds. */
  function YieldTerm(y: Yield, dtMs: real): real {
    (y.amount * y.roiYearly / MS_PER_YEAR) * dtMs
  }

  /** The first loop's total: the terms added left to right. */
  function BuildingsIncome(ps: seq<Priced>, dtMs: real): real {
    if ps == [] then 0.0 else BuildingsIncome(ps[..|ps| - 1], dtMs) + BuildingTerm(ps[|ps| - 1], dtMs)
  }

  /** The second loop's total. */
  function InvestmentsYield(ys: seq<Yield>, dtMs: real): real {
    if ys == [] then 0.0 else InvestmentsYield(ys[..|ys| - 1], dtMs) + YieldTerm(ys[|ys| - 1], dtMs)
  }

  /** The delta before rounding. */
  function RawDelta(req: Request): real {
    BuildingsIncome(req.buildings, req.dtMs) + InvestmentsYield(req.investments, req.dtMs)
  }

  /** `Math.floor(x * 100) / 100` */
  function FloorCents(x: real): real {
    (x * 100.0).Floor as real / 100.0
  }

  /** A whole number of cents. */
  predicate IsCents(x: real) {
    (x * 100.0).Floor as real == x * 100.0
  }

  /** The worker's `onmessage`: two accumulation loops, then the floor to cents.
      The result is what it posts back as `coinsDelta`. */
  method ComputeDelta(req: Request) returns (coinsDelta: real)
    ensures coinsDelta == FloorCents(RawDelta(req))
  {
    coinsDelta := 0.0;
    for i := 0 to |req.buildings|
      invariant coinsDelta == BuildingsIncome(req.buildings[..i], req.dtMs)
    {
      assert req.buildings[..i + 1][..i] == req.buildings[..i];
      coinsDelta := coinsDelta + (req.buildings[i].incomePerHour / 3600000.0) * req.dtMs;
    }
    assert req.buildings[..|req.buildings|] == req.buildings;
    ghost var fromBuildings := coinsDelta;
    for j := 0 to |req.investments|
      invariant coinsDelta == fromBuildings + InvestmentsYield(req.investments[..j], req.dtMs)
    {
      assert req.investments[..j + 1][..j] == req.investments[..j];
      var inv := req.investments[j];
      coinsDelta := coinsDelta + (inv.amount * inv.roiYearly / (365.0 * 24.0 * 3600000.0)) * req.dtMs;
    }
    assert req.investments[..|req.investments|] == req.investments;
    coinsDelta := (coinsDelta * 100.0).Floor as real / 100.0;
  }

  // ---------------------------------------------------------------------
  // Properties.

  /** The floor to cents is the largest whole number of cents not above `x`,
      and it loses less than one cent. */
  lemma FloorCentsSpec(x: real, y: real)
    ensures IsCents(FloorCents(x))
    ensures x - 0.01 < FloorCents(x) <= x
    ensures IsCents(y) && y <= x ==> y <= FloorCents(x)
  {
    var n := (x * 100.0).Floor;
    assert FloorCents(x) * 100.0 == n as real;
    if IsCents(y) && y <= x {
      var m := (y * 100.0).Floor;
      assert m as real == y * 100.0 <= x * 100.0;
      assert m <= n;
    }
  }

  lemma FloorCentsOfCents(x: real)
    requires IsCents(x)
    ensures FloorCents(x) == x
  {
  }

  /** Both totals are linear in the elapsed time: each building adds
      `iph / 3 600 000` and each investment `amount * roi / (365 * 24 * 3 600 000)`
      per millisecond. */
  lemma {:induction false} BuildingsIncomeLinear(ps: seq<Priced>, dtMs: real)
    ensures BuildingsIncome(ps, dtMs) == BuildingsIncome(ps, 1.0) * dtMs
  {
    if ps != [] {
      BuildingsIncomeLinear(ps[..|ps| - 1], dtMs);
    }
  }

  lemma {:induction false} InvestmentsYieldLinear(ys: seq<Yield>, dtMs: real)
    ensures InvestmentsYield(ys, dtMs) == InvestmentsYield(ys, 1.0) * dtMs
  {
    if ys != [] {
      InvestmentsYieldLinear(ys[..|ys| - 1], dtMs);
    }
  }

  /** With nothing to pay for, or no time elapsed, the delta is zero. */
  lemma DeltaZero(req: Request)
    requires (req.buildings == [] && req.investments == []) || req.dtMs == 0.0
    ensures RawDelta(req) == 0.0 && FloorCents(RawDelta(req)) == 0.0
  {
    BuildingsIncomeLinear(req.buildings, req.dtMs);
    InvestmentsYieldLinear(req.investments, req.dtMs);
  }

  lemma {:induction false} BuildingsIncomeNonNeg(ps: seq<Priced>, dtMs: real)
    requires dtMs >= 0.0
    requires forall i :: 0 <= i < |ps| ==> ps[i].incomePerHour >= 0.0
    ensures BuildingsIncome(ps, dtMs) >= 0.0
  {
    if ps != [] {
      BuildingsIncomeNonNeg(ps[..|ps| - 1], dtMs);
      var p := ps[|ps| - 1];
      assert p.incomePerHour / MS_PER_HOUR >= 0.0;
      Formulas.MulNonNeg(p.incomePerHour / MS_PER_HOUR, dtMs);
    }
  }

  lemma {:induction false} InvestmentsYieldNonNeg(ys: seq<Yield>, dtMs: real)
    requires dtMs >= 0.0
    requires forall i :: 0 <= i < |ys| ==> ys[i].amount >= 0.0 && ys[i].roiYearly >= 0.0
    ensures InvestmentsYield(ys, dtMs) >= 0.0
  {
    if ys != [] {
      InvestmentsYieldNonNeg(ys[..|ys| - 1], dtMs);
      var y := ys[|ys| - 1];
      Formulas.MulNonNeg(y.amount, y.roiYearly);
      Formulas.MulNonNeg(y.amount * y.roiYearly / MS_PER_YEAR, dtMs);
    }
  }

  /** Non-negative incomes, amounts, rates and elapsed time give a
      non-negative delta. */
  lemma DeltaNonNegative(req: Request)
    requires req.dtMs >= 0.0
    requires forall i :: 0 <= i < |req.buildings| ==> req.buildings[i].incomePerHour >= 0.0
    requires forall i :: 0 <= i < |req.investments| ==>
      req.investments[i].amount >= 0.0 && req.investments[i].roiYearly >= 0.0
    ensures FloorCents(RawDelta(req)) >= 0.0
  {
    BuildingsIncomeNonNeg(req.buildings, req.dtMs);
    InvestmentsYieldNonNeg(req.investments, req.dtMs);
    FloorCentsSpec(RawDelta(req), 0.0);
  }

  /** One more building adds exactly its own term. */
  lemma BuildingsIncomeAppend(ps: seq<Priced>, p: Priced, dtMs: real)
    ensures BuildingsIncome(ps + [p], dtMs) == BuildingsIncome(ps, dtMs) + (p.incomePerHour / 3600000.0) * dtMs
  {
    assert (ps + [p])[..|ps|] == ps;
  }

  lemma InvestmentsYieldAppend(ys: seq<Yield>, y: Yield, dtMs: real)
    ensures InvestmentsYield(ys + [y], dtMs)
      == InvestmentsYield(ys, dtMs) + (y.amount * y.roiYearly / 31536000000.0) * dtMs
  {
    assert (ys + [y])[..|ys|] == ys;
  }
}
