/** The two-slab residential tariff worked through by hand: 75 units at
    4.5, up to 200 units at 6.0, demand charge 50, meter rent 20, VAT 5%. */
module TariffExamples {
  import opened Tariff

  const TwoSlabs: seq<Slab> := [Slab(75.0, 4.5), Slab(200.0, 6.0)]

  const TwoSlabTariff: TariffConfig := TariffConfig(TwoSlabs, 50.0, 20.0, 0.05, 0.0)

  /** 100 units: 75 in the first band, 25 in the second. */
  lemma BillForHundredUnits()
    ensures CalculateBill(TwoSlabTariff, 100.0)
            == BillBreakdown(487.5, 557.5, 27.875, 585.375)
  {
  }

  /** The same bill read backwards gives the 100 units again. */
  lemma UnitsForHundredUnitBill()
    ensures CalculateUnitsDetailed(TwoSlabTariff, 585.375).totalUnits == 100.0
  {
  }

  /** 250 units: the 50 units past the last limit are billed at 6.0. */
  lemma EnergyForTwoHundredFiftyUnits()
    ensures EnergyCost(TwoSlabs, 250.0) == 75.0 * 4.5 + 125.0 * 6.0 + 50.0 * 6.0
  {
  }

  /** With no slabs only the fixed charges and their VAT are due. */
  lemma BillWithoutSlabs()
    ensures CalculateBill(TwoSlabTariff.(slabs := []), 100.0).totalPayable == 73.5
  {
  }
}
