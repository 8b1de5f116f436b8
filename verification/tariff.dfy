/** The tariff engine of the bill estimator.

    A tariff is an ordered list of slabs (tiers). Each slab carries the
    cumulative consumption bound `limit` up to which it applies and the
    per-unit `rate` inside its band. Consumption beyond the last limit is
    billed at the last rate. Demand charge and meter rent are added on top,
    and VAT is charged on the sum.

    `CalculateBill` maps units to a bill breakdown with one pass over the
    slabs and a running remainder; `CalculateUnitsDetailed` maps a bill back
    to units by extracting the VAT in closed form and walking the slabs
    again. Quantities are exact reals. */
module Tariff {

  /** One tier: `limit` is the cumulative upper bound (kWh) of the tier and
      all tiers before it, `rate` the price per unit inside the band. */
  datatype Slab = Slab(limit: real, rate: real)

  datatype TariffConfig = TariffConfig(
    slabs: seq<Slab>,
    demandCharge: real,
    meterRent: real,
    vatRate: real,
    bkashCharge: real)

  /** Result of the forward calculation. */
  datatype BillBreakdown = BillBreakdown(
    energyCost: real,
    totalSubjectToVat: real,
    vatAmount: real,
    totalPayable: real)

  /** Result of the reverse calculation. */
  datatype UnitsBreakdown = UnitsBreakdown(
    totalUnits: real,
    energyCost: real,
    vatAmount: real)

  /** Cost left over after the reverse walk is converted at the last rate
      only when it exceeds this amount. */
  const ResidualTolerance: real := 0.01

  function Min(a: real, b: real): real {
    if a < b then a else b
  }

  function Max(a: real, b: real): real {
    if a < b then b else a
  }

  function LastSlab(slabs: seq<Slab>): Slab
    requires |slabs| > 0
  {
    slabs[|slabs| - 1]
  }

  /** `amount` with VAT at `vatRate` added. */
  function WithVat(amount: real, vatRate: real): real {
    amount * (1.0 + vatRate)
  }

  /** Fixed charges: owed whatever the consumption. */
  function FixedCharges(cfg: TariffConfig): real {
    cfg.demandCharge + cfg.meterRent
  }

  // ---------------------------------------------------------------------
  // Well-formed tariffs
  // ---------------------------------------------------------------------

  /** The limits are strictly increasing, starting above `lo`. */
  predicate AscendingFrom(slabs: seq<Slab>, lo: real)
    decreases |slabs|
  {
    |slabs| == 0 || (lo < slabs[0].limit && AscendingFrom(slabs[1..], slabs[0].limit))
  }

  predicate NonNegativeRates(slabs: seq<Slab>) {
    forall i :: 0 <= i < |slabs| ==> slabs[i].rate >= 0.0
  }

  predicate PositiveRates(slabs: seq<Slab>) {
    forall i :: 0 <= i < |slabs| ==> slabs[i].rate > 0.0
  }

  /** Cost of a whole slab whose band starts at `previousLimit`
      (`maxCostForSlab` of the reverse loop). */
  function SlabCost(s: Slab, previousLimit: real): real {
    (s.limit - previousLimit) * s.rate
  }

  // ---------------------------------------------------------------------
  // Forward: units -> bill
  // ---------------------------------------------------------------------

  /** State of the forward loop once it leaves: cost accumulated and units
      not yet billed. */
  datatype ForwardState = ForwardState(cost: real, remaining: real)

  /** The forward loop over `slabs`, entered with `remaining` units still to
      bill and `previousLimit` the bound of the band before the first slab.
      A slab whose share is not positive adds nothing; the loop stops as soon
      as nothing remains. */
  function ForwardWalk(slabs: seq<Slab>, remaining: real, previousLimit: real): (w: ForwardState)
    decreases |slabs|
    ensures remaining <= 0.0 ==> w == ForwardState(0.0, remaining)
    ensures remaining > 0.0 ==> 0.0 <= w.remaining <= remaining
  {
    if |slabs| == 0 then ForwardState(0.0, remaining)
    else
      var slabSize := slabs[0].limit - previousLimit;
      var unitsInSlab := Min(remaining, slabSize);
      var cost := if unitsInSlab > 0.0 then unitsInSlab * slabs[0].rate else 0.0;
      var rest := if unitsInSlab > 0.0 then remaining - unitsInSlab else remaining;
      if rest <= 0.0 then ForwardState(cost, rest)
      else
        var next := ForwardWalk(slabs[1..], rest, slabs[0].limit);
        ForwardState(cost + next.cost, next.remaining)
  }

  /** Energy cost of `units`: the forward loop, then whatever remains billed
      at the last slab's rate. */
  function EnergyCost(slabs: seq<Slab>, units: real): (e: real)
    ensures units <= 0.0 || |slabs| == 0 ==> e == 0.0
  {
    var w := ForwardWalk(slabs, units, 0.0);
    if w.remaining > 0.0 && |slabs| > 0 then w.cost + w.remaining * LastSlab(slabs).rate
    else w.cost
  }

  /** Units to bill breakdown. */
  function CalculateBill(cfg: TariffConfig, units: real): (b: BillBreakdown)
    ensures b.energyCost == EnergyCost(cfg.slabs, units)
    ensures b.totalSubjectToVat == b.energyCost + cfg.demandCharge + cfg.meterRent
    ensures b.vatAmount == b.totalSubjectToVat * cfg.vatRate
    ensures b.totalPayable == b.totalSubjectToVat + b.vatAmount
    ensures b.totalPayable == WithVat(b.energyCost + FixedCharges(cfg), cfg.vatRate)
    ensures units <= 0.0 || |cfg.slabs| == 0 ==> b.totalPayable == WithVat(FixedCharges(cfg), cfg.vatRate)
  {
    var energyCost := EnergyCost(cfg.slabs, units);
    var totalSubjectToVat := energyCost + cfg.demandCharge + cfg.meterRent;
    var vatAmount := totalSubjectToVat * cfg.vatRate;
    BillBreakdown(energyCost, totalSubjectToVat, vatAmount, totalSubjectToVat + vatAmount)
  }

  // ---------------------------------------------------------------------
  // Reference tariff: a sum over bands
  // ---------------------------------------------------------------------

  /** How many of `units` fall into the band (lo, hi]. */
  function BandUnits(units: real, lo: real, hi: real): (b: real)
    requires lo <= hi
    ensures 0.0 <= b <= hi - lo
    ensures units <= lo ==> b == 0.0
    ensures units >= hi ==> b == hi - lo
  {
    if units <= lo then 0.0 else if units >= hi then hi - lo else units - lo
  }

  /** Cost of the units of `units` inside the band of slab `s`, the band
      starting at `lo`. */
  function BandCost(units: real, lo: real, s: Slab): real
    requires lo <= s.limit
  {
    BandUnits(units, lo, s.limit) * s.rate
  }

  /** Cost of the part of `units` inside the defined tiers, the first band
      starting at `lo`. */
  function TierCost(slabs: seq<Slab>, lo: real, units: real): real
    requires AscendingFrom(slabs, lo)
    decreases |slabs|
  {
    if |slabs| == 0 then 0.0
    else BandCost(units, lo, slabs[0]) + TierCost(slabs[1..], slabs[0].limit, units)
  }

  /** Cost of consumption beyond the last limit, billed at the last rate. */
  function OverflowCost(slabs: seq<Slab>, units: real): real {
    if |slabs| > 0 && units > LastSlab(slabs).limit
    then (units - LastSlab(slabs).limit) * LastSlab(slabs).rate
    else 0.0
  }

  /** Independent statement of the tariff: each band's units at its rate,
      plus everything beyond the last limit at the last rate. */
  function ReferenceEnergyCost(slabs: seq<Slab>, units: real): real
    requires AscendingFrom(slabs, 0.0)
  {
    TierCost(slabs, 0.0, units) + OverflowCost(slabs, units)
  }

  // ---------------------------------------------------------------------
  // Small arithmetic helpers
  // ---------------------------------------------------------------------

  lemma MulMonotone(a: real, b: real, r: real)
    requires r >= 0.0 && a <= b
    ensures a * r <= b * r
  {
  }

  lemma MulStrict(a: real, b: real, r: real)
    requires r > 0.0 && a < b
    ensures a * r < b * r
  {
  }

  lemma MulDistributes(a: real, b: real, r: real)
    ensures a * r - b * r == (a - b) * r
  {
  }

  lemma MulNonNegative(a: real, b: real)
    requires a >= 0.0 && b >= 0.0
    ensures a * b >= 0.0
  {
  }

  lemma WithVatInjective(a: real, b: real, vatRate: real)
    requires vatRate != -1.0 && WithVat(a, vatRate) == WithVat(b, vatRate)
    ensures a == b
  {
    DivOfProduct(a, 1.0 + vatRate);
    DivOfProduct(b, 1.0 + vatRate);
  }

  lemma WithVatMonotone(a: real, b: real, vatRate: real)
    requires vatRate >= -1.0 && a <= b
    ensures WithVat(a, vatRate) <= WithVat(b, vatRate)
  {
  }

  /** Two amounts at most `t` apart differ, once VAT is added, by more than
      nothing and at most `t` with VAT. */
  lemma WithVatGap(a: real, b: real, t: real, vatRate: real)
    requires vatRate > -1.0 && b < a <= b + t
    ensures 0.0 < WithVat(a, vatRate) - WithVat(b, vatRate) <= WithVat(t, vatRate)
  {
    var k := 1.0 + vatRate;
    var gap := a - b;
    MulDistributes(a, b, k);
    assert WithVat(a, vatRate) - WithVat(b, vatRate) == gap * k;
    MulStrict(0.0, gap, k);
    assert 0.0 * k == 0.0;
    MulMonotone(gap, t, k);
  }

  lemma DivOfProduct(a: real, r: real)
    requires r != 0.0
    ensures (a * r) / r == a
  {
  }

  lemma DivPositive(c: real, r: real)
    requires r > 0.0 && c > 0.0
    ensures c / r > 0.0
    ensures (c / r) * r == c
  {
  }

  // ---------------------------------------------------------------------
  // Facts about the reference
  // ---------------------------------------------------------------------

  lemma {:induction false} LastAbove(slabs: seq<Slab>, lo: real)
    requires AscendingFrom(slabs, lo) && |slabs| > 0
    ensures lo < slabs[0].limit <= LastSlab(slabs).limit
    decreases |slabs|
  {
    if |slabs| > 1 {
      LastAbove(slabs[1..], slabs[0].limit);
      assert LastSlab(slabs[1..]) == LastSlab(slabs);
    }
  }

  lemma {:induction false} TierCostBelow(slabs: seq<Slab>, lo: real, units: real)
    requires AscendingFrom(slabs, lo) && units <= lo
    ensures TierCost(slabs, lo, units) == 0.0
    decreases |slabs|
  {
    if |slabs| > 0 {
      TierCostBelow(slabs[1..], slabs[0].limit, units);
    }
  }

  lemma {:induction false} TierCostNonNegative(slabs: seq<Slab>, lo: real, units: real)
    requires AscendingFrom(slabs, lo) && NonNegativeRates(slabs)
    ensures TierCost(slabs, lo, units) >= 0.0
    decreases |slabs|
  {
    if |slabs| > 0 {
      MulNonNegative(BandUnits(units, lo, slabs[0].limit), slabs[0].rate);
      TierCostNonNegative(slabs[1..], slabs[0].limit, units);
    }
  }

  lemma {:induction false} TierCostMonotone(slabs: seq<Slab>, lo: real, u1: real, u2: real)
    requires AscendingFrom(slabs, lo) && NonNegativeRates(slabs) && u1 <= u2
    ensures TierCost(slabs, lo, u1) <= TierCost(slabs, lo, u2)
    decreases |slabs|
  {
    if |slabs| > 0 {
      MulMonotone(BandUnits(u1, lo, slabs[0].limit), BandUnits(u2, lo, slabs[0].limit), slabs[0].rate);
      TierCostMonotone(slabs[1..], slabs[0].limit, u1, u2);
    }
  }

  /** Past the last limit every band is full. */
  lemma {:induction false} TierCostSaturates(slabs: seq<Slab>, lo: real, units: real)
    requires AscendingFrom(slabs, lo) && |slabs| > 0 && units >= LastSlab(slabs).limit
    ensures TierCost(slabs, lo, units) == TierCost(slabs, lo, LastSlab(slabs).limit)
    decreases |slabs|
  {
    LastAbove(slabs, lo);
    if |slabs| > 1 {
      assert LastSlab(slabs[1..]) == LastSlab(slabs);
      TierCostSaturates(slabs[1..], slabs[0].limit, units);
    }
  }

  /** With positive rates, any consumption above `lo` costs something. */
  lemma TierCostPositive(slabs: seq<Slab>, lo: real, units: real)
    requires AscendingFrom(slabs, lo) && PositiveRates(slabs) && |slabs| > 0 && units > lo
    ensures TierCost(slabs, lo, units) > 0.0
  {
    TierCostNonNegative(slabs[1..], slabs[0].limit, units);
    MulStrict(0.0, BandUnits(units, lo, slabs[0].limit), slabs[0].rate);
  }

  lemma OverflowNonNegative(slabs: seq<Slab>, units: real)
    requires NonNegativeRates(slabs)
    ensures OverflowCost(slabs, units) >= 0.0
  {
  }

  lemma OverflowMonotone(slabs: seq<Slab>, u1: real, u2: real)
    requires NonNegativeRates(slabs) && u1 <= u2
    ensures OverflowCost(slabs, u1) <= OverflowCost(slabs, u2)
  {
  }

  // ---------------------------------------------------------------------
  // The forward loop computes the reference
  // ---------------------------------------------------------------------

  /** The forward loop on a first slab that holds all of `units`. */
  lemma ForwardStepInside(slabs: seq<Slab>, lo: real, units: real)
    requires AscendingFrom(slabs, lo) && |slabs| > 0 && lo < units <= slabs[0].limit
    ensures ForwardWalk(slabs, units - lo, lo)
            == ForwardState(BandCost(units, lo, slabs[0]), 0.0)
  {
  }

  /** The forward loop on a first slab that `units` runs past. */
  lemma ForwardStepPast(slabs: seq<Slab>, lo: real, units: real)
    requires AscendingFrom(slabs, lo) && |slabs| > 0 && units > slabs[0].limit
    ensures ForwardWalk(slabs, units - lo, lo)
            == var next := ForwardWalk(slabs[1..], units - slabs[0].limit, slabs[0].limit);
               ForwardState(BandCost(units, lo, slabs[0]) + next.cost, next.remaining)
  {
  }

  lemma {:induction false} ForwardWalkIsTierCost(slabs: seq<Slab>, lo: real, units: real)
    requires AscendingFrom(slabs, lo) && units > lo
    ensures ForwardWalk(slabs, units - lo, lo).cost == TierCost(slabs, lo, units)
    ensures |slabs| > 0 ==>
      ForwardWalk(slabs, units - lo, lo).remaining
      == (if units > LastSlab(slabs).limit then units - LastSlab(slabs).limit else 0.0)
    decreases |slabs|
  {
    if |slabs| > 0 {
      var s := slabs[0];
      LastAbove(slabs, lo);
      if units <= s.limit {
        ForwardStepInside(slabs, lo, units);
        TierCostBelow(slabs[1..], s.limit, units);
      } else {
        ForwardStepPast(slabs, lo, units);
        if |slabs| > 1 {
          assert LastSlab(slabs[1..]) == LastSlab(slabs);
          ForwardWalkIsTierCost(slabs[1..], s.limit, units);
        }
      }
    }
  }

  /** `EnergyCost` agrees with the band-sum reference for every input. */
  lemma ForwardMatchesReference(slabs: seq<Slab>, units: real)
    requires AscendingFrom(slabs, 0.0)
    ensures EnergyCost(slabs, units) == ReferenceEnergyCost(slabs, units)
  {
    if units <= 0.0 {
      TierCostBelow(slabs, 0.0, units);
      if |slabs| > 0 {
        LastAbove(slabs, 0.0);
      }
    } else {
      assert units - 0.0 == units;
      ForwardWalkIsTierCost(slabs, 0.0, units);
      var w := ForwardWalk(slabs, units, 0.0);
      if |slabs| > 0 && units > LastSlab(slabs).limit {
        assert w.remaining == units - LastSlab(slabs).limit;
        assert w.remaining * LastSlab(slabs).rate == OverflowCost(slabs, units);
      }
    }
  }

  // ---------------------------------------------------------------------
  // Properties of the forward calculation
  // ---------------------------------------------------------------------

  /** With no slabs the bill is the fixed charges plus VAT on them. */
  lemma EmptyTariffBill(cfg: TariffConfig, units: real)
    requires |cfg.slabs| == 0
    ensures CalculateBill(cfg, units).energyCost == 0.0
    ensures CalculateBill(cfg, units).totalPayable == WithVat(cfg.demandCharge + cfg.meterRent, cfg.vatRate)
  {
  }

  /** Units beyond the last limit are billed at the last rate. */
  lemma EnergyBeyondLastSlab(slabs: seq<Slab>, units: real)
    requires AscendingFrom(slabs, 0.0) && |slabs| > 0 && units > LastSlab(slabs).limit
    ensures EnergyCost(slabs, units)
            == EnergyCost(slabs, LastSlab(slabs).limit) + (units - LastSlab(slabs).limit) * LastSlab(slabs).rate
  {
    ForwardMatchesReference(slabs, units);
    ForwardMatchesReference(slabs, LastSlab(slabs).limit);
    TierCostSaturates(slabs, 0.0, units);
  }

  lemma EnergyCostNonNegative(slabs: seq<Slab>, units: real)
    requires AscendingFrom(slabs, 0.0) && NonNegativeRates(slabs)
    ensures EnergyCost(slabs, units) >= 0.0
  {
    ForwardMatchesReference(slabs, units);
    TierCostNonNegative(slabs, 0.0, units);
    OverflowNonNegative(slabs, units);
  }

  lemma EnergyCostMonotone(slabs: seq<Slab>, u1: real, u2: real)
    requires AscendingFrom(slabs, 0.0) && NonNegativeRates(slabs) && u1 <= u2
    ensures EnergyCost(slabs, u1) <= EnergyCost(slabs, u2)
  {
    ForwardMatchesReference(slabs, u1);
    ForwardMatchesReference(slabs, u2);
    TierCostMonotone(slabs, 0.0, u1, u2);
    OverflowMonotone(slabs, u1, u2);
  }

  /** The payable total never falls as consumption grows. */
  lemma TotalPayableMonotone(cfg: TariffConfig, u1: real, u2: real)
    requires AscendingFrom(cfg.slabs, 0.0) && NonNegativeRates(cfg.slabs)
    requires cfg.vatRate >= -1.0 && u1 <= u2
    ensures CalculateBill(cfg, u1).totalPayable <= CalculateBill(cfg, u2).totalPayable
  {
    EnergyCostMonotone(cfg.slabs, u1, u2);
    WithVatMonotone(EnergyCost(cfg.slabs, u1) + FixedCharges(cfg),
                    EnergyCost(cfg.slabs, u2) + FixedCharges(cfg), cfg.vatRate);
  }

  /** With non-negative rates and charges, the payable total is never
      negative. */
  lemma TotalPayableNonNegative(cfg: TariffConfig, units: real)
    requires AscendingFrom(cfg.slabs, 0.0) && NonNegativeRates(cfg.slabs)
    requires cfg.demandCharge >= 0.0 && cfg.meterRent >= 0.0 && cfg.vatRate >= -1.0
    ensures CalculateBill(cfg, units).totalPayable >= 0.0
  {
    EnergyCostNonNegative(cfg.slabs, units);
    WithVatMonotone(0.0, EnergyCost(cfg.slabs, units) + FixedCharges(cfg), cfg.vatRate);
  }

  lemma EnergyCostPositive(slabs: seq<Slab>, units: real)
    requires AscendingFrom(slabs, 0.0) && PositiveRates(slabs) && |slabs| > 0 && units > 0.0
    ensures EnergyCost(slabs, units) > 0.0
  {
    ForwardMatchesReference(slabs, units);
    TierCostPositive(slabs, 0.0, units);
    OverflowNonNegative(slabs, units);
  }

  // ---------------------------------------------------------------------
  // Reverse: bill -> units
  // ---------------------------------------------------------------------

  /** VAT contained in a VAT-inclusive `bill`, in closed form. */
  function ExtractVat(bill: real, vatRate: real): (vat: real)
    requires vatRate != -1.0
    ensures vat * (1.0 + vatRate) == bill * vatRate
    ensures WithVat(bill - vat, vatRate) == bill
  {
    bill * vatRate / (1.0 + vatRate)
  }

  /** State of the reverse loop once it leaves: units found and cost not yet
      converted. */
  datatype ReverseState = ReverseState(units: real, remainingCost: real)

  /** The reverse loop: a slab whose full cost is covered contributes all its
      units; otherwise the rest of the cost is converted at that slab's rate
      and the loop stops. */
  function ReverseWalk(slabs: seq<Slab>, remainingCost: real, previousLimit: real): (w: ReverseState)
    requires remainingCost >= 0.0
    decreases |slabs|
    ensures w.remainingCost >= 0.0
  {
    if |slabs| == 0 then ReverseState(0.0, remainingCost)
    else
      var slabSize := slabs[0].limit - previousLimit;
      var maxCostForSlab := SlabCost(slabs[0], previousLimit);
      if remainingCost >= maxCostForSlab then
        var next := ReverseWalk(slabs[1..], remainingCost - maxCostForSlab, slabs[0].limit);
        ReverseState(slabSize + next.units, next.remainingCost)
      else
        ReverseState(remainingCost / slabs[0].rate, 0.0)
  }

  /** Bill to units breakdown. The closed-form VAT split needs
      `1 + vatRate != 0`, and converting leftover cost needs a non-zero last
      rate. */
  function CalculateUnitsDetailed(cfg: TariffConfig, bill: real): (r: UnitsBreakdown)
    requires cfg.vatRate != -1.0
    requires |cfg.slabs| > 0 ==> LastSlab(cfg.slabs).rate != 0.0
    ensures r.vatAmount * (1.0 + cfg.vatRate) == bill * cfg.vatRate
    ensures WithVat(r.energyCost + FixedCharges(cfg), cfg.vatRate) == bill
    ensures r.energyCost <= 0.0 || |cfg.slabs| == 0 ==> r.totalUnits == 0.0
  {
    var vatAmount := ExtractVat(bill, cfg.vatRate);
    var taxableBase := bill - vatAmount;
    var energyCost := taxableBase - (cfg.demandCharge + cfg.meterRent);
    if energyCost > 0.0 then
      var w := ReverseWalk(cfg.slabs, energyCost, 0.0);
      var units :=
        if w.remainingCost > ResidualTolerance && |cfg.slabs| > 0
        then w.units + w.remainingCost / LastSlab(cfg.slabs).rate
        else w.units;
      UnitsBreakdown(units, energyCost, vatAmount)
    else
      UnitsBreakdown(0.0, energyCost, vatAmount)
  }

  // ---------------------------------------------------------------------
  // The reverse loop undoes the forward loop
  // ---------------------------------------------------------------------

  /** A band that `units` fills costs the whole slab. */
  lemma BandCostFull(units: real, lo: real, s: Slab)
    requires lo <= s.limit <= units
    ensures BandCost(units, lo, s) == SlabCost(s, lo)
  {
  }

  /** A band that `units` only partly fills costs less than the whole slab,
      and converting that cost back at the slab's rate gives the units. */
  lemma BandCostPartial(units: real, lo: real, s: Slab)
    requires lo <= units < s.limit && s.rate > 0.0
    ensures 0.0 <= BandCost(units, lo, s) < SlabCost(s, lo)
    ensures BandCost(units, lo, s) / s.rate == units - lo
  {
  }

  /** Cost below a whole slab, converted at the slab's rate, lands inside the
      band and costs exactly that much again. */
  lemma ConvertedCostInBand(cost: real, lo: real, s: Slab)
    requires lo < s.limit && s.rate > 0.0 && 0.0 <= cost < SlabCost(s, lo)
    ensures 0.0 <= cost / s.rate < s.limit - lo
    ensures BandCost(lo + cost / s.rate, lo, s) == cost
  {
  }

  /** The reverse loop on a first slab whose full cost is covered. */
  lemma ReverseStepCovered(slabs: seq<Slab>, lo: real, cost: real)
    requires |slabs| > 0 && cost >= 0.0 && cost >= SlabCost(slabs[0], lo)
    ensures ReverseWalk(slabs, cost, lo).units
            == (slabs[0].limit - lo) + ReverseWalk(slabs[1..], cost - SlabCost(slabs[0], lo), slabs[0].limit).units
    ensures ReverseWalk(slabs, cost, lo).remainingCost
            == ReverseWalk(slabs[1..], cost - SlabCost(slabs[0], lo), slabs[0].limit).remainingCost
  {
  }

  /** The reverse loop on a first slab that absorbs the rest of the cost. */
  lemma ReverseStepInside(slabs: seq<Slab>, lo: real, cost: real)
    requires |slabs| > 0 && slabs[0].rate != 0.0
    requires 0.0 <= cost < SlabCost(slabs[0], lo)
    ensures ReverseWalk(slabs, cost, lo) == ReverseState(cost / slabs[0].rate, 0.0)
  {
  }

  /** Inside the defined tiers, walking back the cost of `units` lands
      exactly on `units` with nothing left over. */
  lemma {:induction false} ReverseWalkOfTierCost(slabs: seq<Slab>, lo: real, units: real)
    requires AscendingFrom(slabs, lo) && PositiveRates(slabs) && |slabs| > 0
    requires lo <= units <= LastSlab(slabs).limit
    ensures TierCost(slabs, lo, units) >= 0.0
    ensures ReverseWalk(slabs, TierCost(slabs, lo, units), lo) == ReverseState(units - lo, 0.0)
    decreases |slabs|
  {
    TierCostNonNegative(slabs, lo, units);
    TierCostNonNegative(slabs[1..], slabs[0].limit, units);
    LastAbove(slabs, lo);
    if units >= slabs[0].limit {
      BandCostFull(units, lo, slabs[0]);
      ReverseStepCovered(slabs, lo, TierCost(slabs, lo, units));
      assert TierCost(slabs, lo, units) - SlabCost(slabs[0], lo) == TierCost(slabs[1..], slabs[0].limit, units);
      if |slabs| > 1 {
        assert LastSlab(slabs[1..]) == LastSlab(slabs);
        ReverseWalkOfTierCost(slabs[1..], slabs[0].limit, units);
      }
    } else {
      TierCostBelow(slabs[1..], slabs[0].limit, units);
      BandCostPartial(units, lo, slabs[0]);
      ReverseStepInside(slabs, lo, TierCost(slabs, lo, units));
    }
  }

  /** Cost covering every defined tier plus `extra`: the walk takes all
      tier units and leaves exactly `extra`. */
  lemma {:induction false} ReverseWalkPastTiers(slabs: seq<Slab>, lo: real, extra: real)
    requires AscendingFrom(slabs, lo) && NonNegativeRates(slabs) && |slabs| > 0 && extra >= 0.0
    ensures TierCost(slabs, lo, LastSlab(slabs).limit) >= 0.0
    ensures ReverseWalk(slabs, TierCost(slabs, lo, LastSlab(slabs).limit) + extra, lo)
            == ReverseState(LastSlab(slabs).limit - lo, extra)
    decreases |slabs|
  {
    var top := LastSlab(slabs).limit;
    LastAbove(slabs, lo);
    TierCostNonNegative(slabs, lo, top);
    TierCostNonNegative(slabs[1..], slabs[0].limit, top);
    BandCostFull(top, lo, slabs[0]);
    ReverseStepCovered(slabs, lo, TierCost(slabs, lo, top) + extra);
    assert TierCost(slabs, lo, top) + extra - SlabCost(slabs[0], lo)
           == TierCost(slabs[1..], slabs[0].limit, top) + extra;
    if |slabs| > 1 {
      assert LastSlab(slabs[1..]) == LastSlab(slabs);
      ReverseWalkPastTiers(slabs[1..], slabs[0].limit, extra);
    }
  }

  /** What the reverse loop delivers for any cost: the units found lie
      within the defined tiers, the tier cost of those units plus the leftover
      is the cost, and a leftover remains only once every tier is used up. */
  predicate WalkAccountsFor(slabs: seq<Slab>, lo: real, cost: real)
    requires AscendingFrom(slabs, lo) && |slabs| > 0 && cost >= 0.0
  {
    var w := ReverseWalk(slabs, cost, lo);
    && 0.0 <= w.units <= LastSlab(slabs).limit - lo
    && TierCost(slabs, lo, lo + w.units) + w.remainingCost == cost
    && (w.remainingCost > 0.0 ==> w.units == LastSlab(slabs).limit - lo)
  }

  lemma SoundInside(slabs: seq<Slab>, lo: real, cost: real)
    requires AscendingFrom(slabs, lo) && PositiveRates(slabs) && |slabs| > 0
    requires 0.0 <= cost < SlabCost(slabs[0], lo)
    ensures WalkAccountsFor(slabs, lo, cost)
  {
    LastAbove(slabs, lo);
    ReverseStepInside(slabs, lo, cost);
    ConvertedCostInBand(cost, lo, slabs[0]);
    TierCostBelow(slabs[1..], slabs[0].limit, lo + cost / slabs[0].rate);
  }

  /** Tier cost of a consumption that fills the first band and goes `tail`
      units further. */
  lemma FirstBandFilled(slabs: seq<Slab>, lo: real, tail: real)
    requires AscendingFrom(slabs, lo) && |slabs| > 0 && tail >= 0.0
    ensures TierCost(slabs, lo, lo + ((slabs[0].limit - lo) + tail))
            == SlabCost(slabs[0], lo) + TierCost(slabs[1..], slabs[0].limit, slabs[0].limit + tail)
  {
  }

  lemma SoundCovered(slabs: seq<Slab>, lo: real, cost: real)
    requires AscendingFrom(slabs, lo) && PositiveRates(slabs) && |slabs| > 0 && cost >= 0.0
    requires cost >= SlabCost(slabs[0], lo)
    requires |slabs| > 1 ==> WalkAccountsFor(slabs[1..], slabs[0].limit, cost - SlabCost(slabs[0], lo))
    ensures WalkAccountsFor(slabs, lo, cost)
  {
    LastAbove(slabs, lo);
    ReverseStepCovered(slabs, lo, cost);
    var next := ReverseWalk(slabs[1..], cost - SlabCost(slabs[0], lo), slabs[0].limit);
    if |slabs| > 1 {
      assert LastSlab(slabs[1..]) == LastSlab(slabs);
    } else {
      assert next == ReverseState(0.0, cost - SlabCost(slabs[0], lo));
    }
    FirstBandFilled(slabs, lo, next.units);
  }

  lemma {:induction false} ReverseWalkSound(slabs: seq<Slab>, lo: real, cost: real)
    requires AscendingFrom(slabs, lo) && PositiveRates(slabs) && |slabs| > 0 && cost >= 0.0
    ensures WalkAccountsFor(slabs, lo, cost)
    decreases |slabs|
  {
    if cost >= SlabCost(slabs[0], lo) {
      if |slabs| > 1 {
        ReverseWalkSound(slabs[1..], slabs[0].limit, cost - SlabCost(slabs[0], lo));
      }
      SoundCovered(slabs, lo, cost);
    } else {
      SoundInside(slabs, lo, cost);
    }
  }

  /** Extracting VAT from a forward bill recovers its energy cost. */
  lemma ReverseRecoversEnergy(cfg: TariffConfig, units: real)
    requires cfg.vatRate != -1.0
    requires |cfg.slabs| > 0 ==> LastSlab(cfg.slabs).rate != 0.0
    ensures CalculateUnitsDetailed(cfg, CalculateBill(cfg, units).totalPayable).energyCost
            == EnergyCost(cfg.slabs, units)
  {
    var b := CalculateBill(cfg, units);
    var r := CalculateUnitsDetailed(cfg, b.totalPayable);
    WithVatInjective(r.energyCost + FixedCharges(cfg), b.energyCost + FixedCharges(cfg), cfg.vatRate);
  }

  /** The overflow cost converted back at the last rate gives the overflow
      units. */
  lemma OverflowConverts(slabs: seq<Slab>, units: real)
    requires PositiveRates(slabs) && |slabs| > 0 && units > LastSlab(slabs).limit
    ensures OverflowCost(slabs, units) > 0.0
    ensures OverflowCost(slabs, units) / LastSlab(slabs).rate == units - LastSlab(slabs).limit
  {
  }

  /** Round trip units -> bill -> units. It is exact inside the defined tiers
      and, beyond the last limit, exactly when the overflow cost exceeds the
      residual tolerance; otherwise the units come back as the last limit. */
  lemma RoundTripUnits(cfg: TariffConfig, units: real)
    requires AscendingFrom(cfg.slabs, 0.0) && PositiveRates(cfg.slabs) && |cfg.slabs| > 0
    requires cfg.vatRate != -1.0 && units >= 0.0
    ensures CalculateUnitsDetailed(cfg, CalculateBill(cfg, units).totalPayable).totalUnits == units
            <==> units <= LastSlab(cfg.slabs).limit || OverflowCost(cfg.slabs, units) > ResidualTolerance
    ensures units > LastSlab(cfg.slabs).limit && OverflowCost(cfg.slabs, units) <= ResidualTolerance
            ==> CalculateUnitsDetailed(cfg, CalculateBill(cfg, units).totalPayable).totalUnits
                == LastSlab(cfg.slabs).limit
  {
    ReverseRecoversEnergy(cfg, units);
    ForwardMatchesReference(cfg.slabs, units);
    LastAbove(cfg.slabs, 0.0);
    if units > 0.0 {
      EnergyCostPositive(cfg.slabs, units);
      if units <= LastSlab(cfg.slabs).limit {
        ReverseWalkOfTierCost(cfg.slabs, 0.0, units);
      } else {
        OverflowConverts(cfg.slabs, units);
        TierCostSaturates(cfg.slabs, 0.0, units);
        ReverseWalkPastTiers(cfg.slabs, 0.0, OverflowCost(cfg.slabs, units));
      }
    }
  }

  /** When the bill covers the fixed charges, the units found by the reverse
      walk cost exactly the energy part of the bill, unless the leftover lies
      in the tolerance band past the last tier. */
  lemma ReverseUnitsCostEnergy(cfg: TariffConfig, bill: real)
    requires AscendingFrom(cfg.slabs, 0.0) && PositiveRates(cfg.slabs) && |cfg.slabs| > 0
    requires cfg.vatRate != -1.0
    requires CalculateUnitsDetailed(cfg, bill).energyCost > 0.0
    requires var e := CalculateUnitsDetailed(cfg, bill).energyCost;
             var full := EnergyCost(cfg.slabs, LastSlab(cfg.slabs).limit);
             !(full < e <= full + ResidualTolerance)
    ensures EnergyCost(cfg.slabs, CalculateUnitsDetailed(cfg, bill).totalUnits)
            == CalculateUnitsDetailed(cfg, bill).energyCost
  {
    var r := CalculateUnitsDetailed(cfg, bill);
    var w := ReverseWalk(cfg.slabs, r.energyCost, 0.0);
    ReverseWalkSound(cfg.slabs, 0.0, r.energyCost);
    assert 0.0 + w.units == w.units;
    LastAbove(cfg.slabs, 0.0);
    ForwardMatchesReference(cfg.slabs, LastSlab(cfg.slabs).limit);
    ForwardMatchesReference(cfg.slabs, r.totalUnits);
    if w.remainingCost > ResidualTolerance {
      DivPositive(w.remainingCost, LastSlab(cfg.slabs).rate);
      TierCostSaturates(cfg.slabs, 0.0, r.totalUnits);
    } else if w.remainingCost > 0.0 {
      assert false;
    }
  }

  /** Round trip bill -> units -> bill: the bill comes back, except that a
      bill below the fixed charges comes back as the fixed charges with VAT.
      A leftover cost inside the tolerance band past the last tier is the one
      exception, and is excluded. */
  lemma RoundTripBill(cfg: TariffConfig, bill: real)
    requires AscendingFrom(cfg.slabs, 0.0) && PositiveRates(cfg.slabs) && |cfg.slabs| > 0
    requires cfg.vatRate > -1.0
    requires var e := CalculateUnitsDetailed(cfg, bill).energyCost;
             var full := EnergyCost(cfg.slabs, LastSlab(cfg.slabs).limit);
             !(full < e <= full + ResidualTolerance)
    ensures CalculateBill(cfg, CalculateUnitsDetailed(cfg, bill).totalUnits).totalPayable
            == Max(bill, WithVat(FixedCharges(cfg), cfg.vatRate))
  {
    var r := CalculateUnitsDetailed(cfg, bill);
    if r.energyCost <= 0.0 {
      WithVatMonotone(r.energyCost + FixedCharges(cfg), FixedCharges(cfg), cfg.vatRate);
    } else {
      WithVatMonotone(FixedCharges(cfg), r.energyCost + FixedCharges(cfg), cfg.vatRate);
      ReverseUnitsCostEnergy(cfg, bill);
    }
  }

  /** Inside the tolerance band past the last tier the leftover cost is
      dropped: the units come back as the last limit, and the bill they give
      falls short of the original by more than nothing and at most the
      tolerance with VAT. */
  lemma RoundTripBillInBand(cfg: TariffConfig, bill: real)
    requires AscendingFrom(cfg.slabs, 0.0) && PositiveRates(cfg.slabs) && |cfg.slabs| > 0
    requires cfg.vatRate > -1.0
    requires var e := CalculateUnitsDetailed(cfg, bill).energyCost;
             var full := EnergyCost(cfg.slabs, LastSlab(cfg.slabs).limit);
             full < e <= full + ResidualTolerance
    ensures CalculateUnitsDetailed(cfg, bill).totalUnits == LastSlab(cfg.slabs).limit
    ensures 0.0 < bill - CalculateBill(cfg, LastSlab(cfg.slabs).limit).totalPayable
                <= WithVat(ResidualTolerance, cfg.vatRate)
  {
    var r := CalculateUnitsDetailed(cfg, bill);
    var top := LastSlab(cfg.slabs).limit;
    var full := EnergyCost(cfg.slabs, top);
    LastAbove(cfg.slabs, 0.0);
    EnergyCostNonNegative(cfg.slabs, top);
    ForwardMatchesReference(cfg.slabs, top);
    var w := ReverseWalk(cfg.slabs, r.energyCost, 0.0);
    ReverseWalkSound(cfg.slabs, 0.0, r.energyCost);
    assert 0.0 + w.units == w.units;
    TierCostMonotone(cfg.slabs, 0.0, w.units, top);
    assert w.remainingCost == r.energyCost - full;
    WithVatGap(r.energyCost + FixedCharges(cfg), full + FixedCharges(cfg), ResidualTolerance, cfg.vatRate);
  }
}
