# Electricity bill calculator: tariff engine and meter bookkeeping in Dafny

This project models the core of a bill-splitting calculator for a building with one
main meter and several sub-meters. The modelled parts are:

- **Tariff engine** (`tariff.dfy`, module `Tariff`). This is the bill estimator's two
  calculators.
  - The forward calculator `CalculateBill` prices a consumption in units. It walks the
    slabs in order, and consumption beyond the last limit is billed at the last rate.
    Demand charge and meter rent are added, and VAT goes on top.
  - The reverse calculator `CalculateUnitsDetailed` takes a VAT-inclusive bill. It takes
    the VAT out in closed form, subtracts the fixed charges, and walks the slabs back to
    find the units. Leftover cost above a 0.01 tolerance is converted at the last rate.
  - Both loops are written as recursive walks over the remaining slabs (`ForwardWalk`,
    `ReverseWalk`). They keep the source's branch order, its `min`, its early exit and
    its tolerance.
  - They are checked against `ReferenceEnergyCost`, an independent band-by-band
    statement of the tariff.
  - Both round trips are characterised exactly, including where they fail.
- **Worked tariff** (`tariff_examples.dfy`). The two-slab residential tariff, computed by
  hand at 100 and 250 units and with no slabs.
- **Meter readings** (`readings.dfy`, module `Readings`). This covers:
  - the reading record;
  - consumption clamped at zero, and the sum of consumptions;
  - the `{...m, [key]: value}` edit of one field of the reading with a given id;
  - removal by id;
  - the deletion dialog and its confirmation guard.
- **Dashboard** (`dashboard.dfy`, module `Dashboard`). This covers:
  - main-meter units, system loss and the bKash fee;
  - the base bill, the shared fixed costs and their per-user share, and the user subtotal;
  - the long-press dialog and the confirm-delete handler.
- **Readings panel** (`meter_readings.dfy`, module `MeterReadings`). This covers:
  - card expansion;
  - edits refused on a read-only panel;
  - the confirm-delete handler;
  - the add button;
  - the per-card cost estimate and consumption percentage.
- **Text helpers** (`text.dfy`, module `Text`). ASCII upper-casing for the `DELETE`
  confirmation, and the decimal rendering of the new meter number with its inverse.

Numbers are Dafny `real`s: the model is exact arithmetic, not IEEE doubles. The readings
panel publishes its changes through callbacks (`onUpdate`, `onMainMeterUpdate`). Here a
handler returns the value it would publish, with `None` when it publishes nothing. The
dashboard's React state around deletion becomes the record `DashboardState`, and a
handler returns the next state.

Tariff preconditions used below:

- `AscendingFrom(slabs, 0)`: limits strictly increase from 0.
- `PositiveRates`: every rate is positive.
- `NonNegativeRates`: no rate is negative.

## Model

| member | source | states |
|---|---|---|
| Tariff.CalculateBill | components/BillEstimator.tsx:23-55 | the bill's energy cost is the slab energy cost; the VAT base is energy plus demand charge plus meter rent; VAT is base times rate; the total is base plus VAT, i.e. (energy + fixed) with VAT; no consumption or no slabs leaves only the fixed charges with VAT |
| Tariff.ForwardWalk | components/BillEstimator.tsx:28-38 | the slab loop leaves at once when nothing remains to bill; otherwise the units it leaves unbilled are between zero and what it was given |
| Tariff.EnergyCost | components/BillEstimator.tsx:24-43 | consumption of zero or less, or a tariff without slabs, costs nothing |
| Tariff.ForwardMatchesReference | components/BillEstimator.tsx:28-43 | for ascending limits the loop-and-overflow computation equals the independent band-sum definition for every consumption |
| Tariff.ForwardWalkIsTierCost | components/BillEstimator.tsx:28-38 | the loop's accumulated cost is the sum of each band's units times its rate, and the units it leaves are exactly those beyond the last limit |
| Tariff.EnergyBeyondLastSlab | components/BillEstimator.tsx:40-43 | units beyond the last limit are billed at the last slab's rate, on top of the cost of the full tiers |
| Tariff.EmptyTariffBill | components/BillEstimator.tsx:40-47 | with no slabs the energy cost is zero and the bill is demand charge plus meter rent with VAT |
| Tariff.EnergyCostNonNegative | components/BillEstimator.tsx:28-43 | with non-negative rates the energy cost is never negative |
| Tariff.EnergyCostMonotone | components/BillEstimator.tsx:28-43 | with non-negative rates more consumption never costs less energy |
| Tariff.TotalPayableMonotone | components/BillEstimator.tsx:23-47 | with non-negative rates and VAT rate at least -1 more consumption never gives a smaller payable total |
| Tariff.TotalPayableNonNegative | components/BillEstimator.tsx:23-47 | with non-negative rates, demand charge and meter rent, and VAT rate at least -1, the payable total is never negative |
| Tariff.EnergyCostPositive | components/BillEstimator.tsx:28-43 | with positive rates any positive consumption costs something, which is what sends the reverse calculator into its slab walk |
| Tariff.TierCostMonotone | components/BillEstimator.tsx:28-38 | the band sum never falls as consumption grows |
| Tariff.TierCostSaturates | components/BillEstimator.tsx:28-38 | past the last limit every band is full, so the band sum stops growing |
| Tariff.ExtractVat | components/BillEstimator.tsx:58-59 | the closed-form VAT times (1 + rate) is the bill times the rate, and the taxable base with VAT added back is the bill |
| Tariff.CalculateUnitsDetailed | components/BillEstimator.tsx:57-91 | the VAT part satisfies vat·(1+rate) = bill·rate; energy cost plus fixed charges, with VAT, gives back the bill; a non-positive energy cost or an empty tariff yields zero units |
| Tariff.ReverseWalk | components/BillEstimator.tsx:66-82 | the cost the reverse loop leaves unconverted is never negative |
| Tariff.ReverseWalkOfTierCost | components/BillEstimator.tsx:66-82 | within the defined tiers, walking back the band-sum cost of a consumption returns exactly that consumption with nothing left over |
| Tariff.ReverseWalkPastTiers | components/BillEstimator.tsx:66-82 | a cost covering every tier plus an extra takes all tier units and leaves exactly the extra |
| Tariff.ReverseWalkSound | components/BillEstimator.tsx:66-82 | for any cost the units found lie within the tiers, their band-sum cost plus the leftover is the cost, and a leftover remains only when every tier is used up |
| Tariff.ReverseRecoversEnergy | components/BillEstimator.tsx:58-60 | taking VAT and fixed charges out of a forward bill recovers its energy cost exactly |
| Tariff.OverflowConverts | components/BillEstimator.tsx:84-87 | overflow cost converted at the last rate gives back the overflow units |
| Tariff.RoundTripUnits | components/BillEstimator.tsx:23-91 | units → bill → units returns the units exactly if and only if they lie within the tiers or their overflow costs more than the 0.01 tolerance; otherwise the last limit comes back |
| Tariff.ReverseUnitsCostEnergy | components/BillEstimator.tsx:62-88 | outside the tolerance band the units found by the reverse walk cost exactly the bill's energy part |
| Tariff.RoundTripBill | components/BillEstimator.tsx:23-91 | bill → units → bill returns the bill, or the fixed charges with VAT when the bill is below them (the walk is skipped) |
| Tariff.RoundTripBillInBand | components/BillEstimator.tsx:84-87 | inside the tolerance band the leftover is dropped: the last limit comes back and the recomputed bill falls short by more than zero and at most 0.01 with VAT |
| Tariff.WithVatGap | components/BillEstimator.tsx:45-47 | two VAT bases at most t apart give totals at most t-with-VAT apart |
| TariffExamples.BillForHundredUnits | components/BillEstimator.tsx:23-55 | 100 units on the two-slab tariff cost 487.5 energy, 557.5 base, 27.875 VAT, 585.375 total |
| TariffExamples.UnitsForHundredUnitBill | components/BillEstimator.tsx:57-91 | a bill of 585.375 on that tariff gives back 100 units |
| TariffExamples.EnergyForTwoHundredFiftyUnits | components/BillEstimator.tsx:28-43 | 250 units bill the 50 units past the last limit at the last rate |
| TariffExamples.BillWithoutSlabs | components/BillEstimator.tsx:40-47 | with no slabs, 50 + 20 in fixed charges at 5% VAT make 73.5 |
| Readings.Consumption | components/Dashboard.tsx:32 | units consumed are never negative, equal current minus previous when current is not below previous, and are zero otherwise |
| Readings.TotalUnits | components/Dashboard.tsx:33 | the sub-meter total is never negative and is zero for no meters |
| Readings.TotalUnitsAppend | components/MeterReadings.tsx:71 | the total over two lists joined is the sum of their totals |
| Readings.ConsumptionAtMostTotal | components/MeterReadings.tsx:71-72 | no single meter's consumption exceeds the total |
| Readings.ApplyUpdate | components/Dashboard.tsx:45-47 | the edited copy carries the new value in the named field and every other field unchanged |
| Readings.UpdateById | components/Dashboard.tsx:49-51 | the list keeps its length and order; every reading with the id gets the edit and every other reading is unchanged |
| Readings.UpdateAbsentId | components/Dashboard.tsx:49-51 | editing an id nobody carries leaves the list as it was |
| Readings.LabelEditKeepsTotal | components/MeterReadings.tsx:38-41 | editing a name, meter number or id leaves the total consumption unchanged |
| Readings.RemoveById | components/Dashboard.tsx:74 | no reading with the id remains; every other reading remains; the length drops by the number of readings with the id; the order is kept (a subsequence) |
| Readings.RemoveByIdAppend | components/MeterReadings.tsx:66 | removal distributes over joined lists |
| Readings.RemoveByIdIdempotent | components/MeterReadings.tsx:66 | removing the same id twice is the same as once |
| Readings.RemoveByIdTotal | components/MeterReadings.tsx:66-71 | the total after removal plus the total of the removed readings is the total before |
| Text.ToUpper | components/Dashboard.tsx:73 | upper-casing keeps the length and maps each character by itself |
| Text.UpperChar | components/Dashboard.tsx:73 | a lower-case ASCII letter moves to its capital; every other character stays |
| Text.IsDeleteConfirmation | components/Dashboard.tsx:73 | the typed text confirms if and only if it is six characters, each the letter of DELETE in either case |
| Readings.DeleteConfirmed | components/MeterReadings.tsx:65 | a deletion goes ahead if and only if a meter is pending and the typed text is the six letters of DELETE, each in either case |
| Text.NatToString | components/MeterReadings.tsx:85 | the rendering is a non-empty string of decimal digits without a leading zero |
| Text.ParseNatToString | components/MeterReadings.tsx:85 | reading the digits back gives the number |
| Dashboard.SystemLoss | components/Dashboard.tsx:34 | the loss is never negative, loss plus sub-meter units is at least the main units, and the loss is zero exactly when the sub-meters account for the main units |
| Dashboard.BkashFee | components/Dashboard.tsx:36 | the fee is the configured bKash charge when included, and zero otherwise |
| Dashboard.FixedCostPerUser | components/Dashboard.tsx:39 | with meters, the share times the meter count is the shared total; with none, the share is zero |
| Dashboard.UserSubtotal | components/Dashboard.tsx:41-43 | the subtotal of no users is zero, and of users who each pay a non-negative amount it is non-negative |
| Dashboard.UserSubtotalAppend | components/Dashboard.tsx:41-43 | the subtotal over two lists joined is the sum of their subtotals |
| Dashboard.Figures | components/Dashboard.tsx:32-43 | main and sub units are the clamped consumptions; the loss is the system loss of those two (never negative, zero exactly when the sub-meters cover the main units) and lies in 0..main units; the bKash fee is the configured charge when included and zero otherwise; base bill + late fee + bKash fee = total collection; shared fixed costs are demand charge + meter rent + fixed VAT + late fee + bKash fee, split evenly over the meters |
| Dashboard.RemovalRaisesSystemLoss | components/Dashboard.tsx:32-34 | deleting sub-meters never lowers the system loss |
| Dashboard.OpenDeleteDialog | components/Dashboard.tsx:57-63 | a long press sets the meter to delete and clears the typed text, so the dialog does not yet confirm |
| Dashboard.HandleConfirmDelete | components/Dashboard.tsx:72-78 | without a pending meter and the word DELETE nothing changes; with them, every meter with that id goes, the others stay in order, the dialog closes and the result is hidden |
| Dashboard.FreshDialogDeletesNothing | components/Dashboard.tsx:57-78 | confirming a freshly opened dialog deletes nothing |
| Dashboard.ConfirmDeleteOnce | components/Dashboard.tsx:72-78 | confirming twice is the same as confirming once |
| MeterReadings.ToggleExpand | components/MeterReadings.tsx:31-36 | the card's id changes membership and every other id keeps it |
| MeterReadings.ToggleTwice | components/MeterReadings.tsx:31-36 | toggling the same card twice restores the set |
| MeterReadings.ToggleCommutes | components/MeterReadings.tsx:31-36 | toggles of two cards commute |
| MeterReadings.HandleChange | components/MeterReadings.tsx:38-41 | a read-only panel publishes nothing; otherwise the published list keeps its length, the readings with the id get the edit and the others are unchanged |
| MeterReadings.HandleMainMeterChange | components/MeterReadings.tsx:43-46 | a read-only panel publishes nothing; otherwise the edited field takes the new value and each of the other four fields keeps its value, so a label edit keeps the main meter's units |
| MeterReadings.StartLongPress | components/MeterReadings.tsx:48-55 | a read-only panel keeps its dialog; otherwise the dialog targets the pressed reading with an empty, unconfirmed text |
| MeterReadings.ReadOnlyNeverConfirms | components/MeterReadings.tsx:48-49 | on a read-only panel a long press leaves any closed dialog unconfirmed, whatever text it holds |
| MeterReadings.HandleConfirmDelete | components/MeterReadings.tsx:64-69 | a list is published exactly when the deletion is confirmed; it lacks every reading with the id, keeps the others in order, and the dialog closes with its typed text kept; otherwise the dialog is unchanged |
| MeterReadings.DeleteLowersTotalByDeleted | components/MeterReadings.tsx:64-71 | after a confirmed deletion the panel total drops by exactly the deleted readings' units |
| MeterReadings.AddMeter | components/MeterReadings.tsx:83-86 | one reading is appended after the unchanged list, with the new id, the name New User, previous and current both zero, and a meter number that is the new count in decimal digits without a leading zero; its card is expanded |
| MeterReadings.AddMeterKeepsTotal | components/MeterReadings.tsx:83-86 | adding a meter leaves the unit total unchanged |
| MeterReadings.EstimatedCost | components/MeterReadings.tsx:139-141 | the estimate is zero for no consumption, (current − previous) times the rate otherwise, and never negative for a non-negative rate |
| MeterReadings.ConsumptionPercent | components/MeterReadings.tsx:142 | with a positive maximum the percentage times the maximum is 100 times the units, otherwise zero; it lies in 0..100 for units within 0..maximum |

## Left out

- IEEE double arithmetic: rounding, NaN and Infinity are not modelled. Values are exact reals.
- Tariff.CalculateUnitsDetailed: requires `vatRate != -1`, where the closed-form VAT divides by zero. For a non-empty tariff it also requires a non-zero last rate. The source divides by that rate only when more than 0.01 of cost is left after the slab walk (components/BillEstimator.tsx:84-86). The precondition is broader: it excludes every bill on such a tariff. In both cases the source yields Infinity or NaN, which the model does not represent.
- Tariff.RoundTripBill: excludes the tolerance band past the last tier. That band is covered separately by Tariff.RoundTripBillInBand.
- Input parsing (`parseFloat(...) || 0`) and display formatting (`formatNumber`, localisation): these are presentation. An edit is modelled as a typed `FieldUpdate`.
- `toUpperCase` is modelled for ASCII only. Other Unicode case mappings are not modelled.
- The fresh id `Date.now().toString()` is a parameter of `MeterReadings.AddMeter`. Clocks are outside the model.
- The add button is shown only on an editable panel. That is a rendering condition, so `AddMeter` carries no read-only flag.
- `BillCalculationResult` is an input to the dashboard. Its computation, in a file not modelled here, is out of scope. Only the fields the dashboard reads are kept.
- The dashboard's `handleConfigChange`, the timers of the long press (`setTimeout`, `clearTimeout`, vibration), image capture, sharing and saving history: these are I/O and timing, so they are left out.
- Reconciliation of per-user rounding with the main bill is not performed by the modelled components.
- `MobileNav.tsx` is navigation only and is not part of this model.
