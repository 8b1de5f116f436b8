/** The figures the dashboard derives from the readings and the computed
    bill (main-meter units, system loss, bKash fee, base bill, fixed cost
    share, user subtotal) and its delete handler. */
module Dashboard {
  import opened Text
  import opened Readings
  import opened Tariff

  /** The one switch of the bill configuration the dashboard reads. */
  datatype BillConfig = BillConfig(includeBkashFee: bool)

  /** One user's line of the computed bill. */
  datatype UserCalculation = UserCalculation(meterId: string, totalPayable: real)

  /** The parts of the computed bill the dashboard reads. */
  datatype BillCalculationResult = BillCalculationResult(
    totalCollection: real,
    vatFixed: real,
    lateFee: real,
    userCalculations: seq<UserCalculation>)

  /** Units lost between the main meter and the sub-meters, never negative. */
  function SystemLoss(mainUnits: real, totalSubUnits: real): (loss: real)
    ensures 0.0 <= loss
    ensures loss + totalSubUnits >= mainUnits
    ensures loss == 0.0 <==> totalSubUnits >= mainUnits
    ensures loss > 0.0 ==> loss + totalSubUnits == mainUnits
  {
    Max(0.0, mainUnits - totalSubUnits)
  }

  /** The bKash fee is charged only when the configuration asks for it. */
  function BkashFee(config: BillConfig, tariff: TariffConfig): (fee: real)
    ensures config.includeBkashFee ==> fee == tariff.bkashCharge
    ensures !config.includeBkashFee ==> fee == 0.0
  {
    if config.includeBkashFee then tariff.bkashCharge else 0.0
  }

  /** The shared fixed costs split evenly over the sub-meters; nothing is
      split when there are none. */
  function FixedCostPerUser(totalShared: real, meterCount: nat): (share: real)
    ensures meterCount > 0 ==> share * (meterCount as real) == totalShared
    ensures meterCount == 0 ==> share == 0.0
  {
    if meterCount > 0 then totalShared / (meterCount as real) else 0.0
  }

  /** Sum of what every user pays. */
  function UserSubtotal(users: seq<UserCalculation>): (total: real)
    ensures |users| == 0 ==> total == 0.0
    ensures (forall i :: 0 <= i < |users| ==> users[i].totalPayable >= 0.0) ==> total >= 0.0
  {
    if |users| == 0 then 0.0
    else UserSubtotal(users[..|users| - 1]) + users[|users| - 1].totalPayable
  }

  lemma {:induction false} UserSubtotalAppend(a: seq<UserCalculation>, b: seq<UserCalculation>)
    ensures UserSubtotal(a + b) == UserSubtotal(a) + UserSubtotal(b)
    decreases |b|
  {
    if |b| > 0 {
      assert (a + b)[..|a + b| - 1] == a + b[..|b| - 1];
      UserSubtotalAppend(a, b[..|b| - 1]);
    } else {
      assert a + b == a;
    }
  }

  /** Everything the dashboard shows above the per-user table. */
  datatype DashboardFigures = DashboardFigures(
    mainUnits: real,
    totalSubUnits: real,
    systemLoss: real,
    bkashFee: real,
    baseBill: real,
    totalSharedFixedCosts: real,
    fixedCostPerUser: real,
    userSubtotal: real)

  function Figures(
    config: BillConfig, tariff: TariffConfig, result: BillCalculationResult,
    mainMeter: MeterReading, meters: seq<MeterReading>): (f: DashboardFigures)
    ensures f.mainUnits == Consumption(mainMeter)
    ensures f.totalSubUnits == TotalUnits(meters)
    ensures f.systemLoss == SystemLoss(f.mainUnits, f.totalSubUnits)
    ensures 0.0 <= f.systemLoss <= f.mainUnits
    ensures f.systemLoss + f.totalSubUnits >= f.mainUnits
    ensures f.bkashFee == BkashFee(config, tariff)
    ensures f.baseBill + result.lateFee + f.bkashFee == result.totalCollection
    ensures f.totalSharedFixedCosts
            == FixedCharges(tariff) + result.vatFixed + result.lateFee + f.bkashFee
    ensures |meters| > 0 ==> f.fixedCostPerUser * (|meters| as real) == f.totalSharedFixedCosts
    ensures |meters| == 0 ==> f.fixedCostPerUser == 0.0
    ensures f.userSubtotal == UserSubtotal(result.userCalculations)
  {
    var mainUnits := Consumption(mainMeter);
    var totalSubUnits := TotalUnits(meters);
    var bkashFee := BkashFee(config, tariff);
    var totalShared := tariff.demandCharge + tariff.meterRent + result.vatFixed + result.lateFee + bkashFee;
    DashboardFigures(
      mainUnits,
      totalSubUnits,
      SystemLoss(mainUnits, totalSubUnits),
      bkashFee,
      result.totalCollection - result.lateFee - bkashFee,
      totalShared,
      FixedCostPerUser(totalShared, |meters|),
      UserSubtotal(result.userCalculations))
  }

  /** Deleting a sub-meter never lowers the reported system loss. */
  lemma RemovalRaisesSystemLoss(mainMeter: MeterReading, meters: seq<MeterReading>, id: string)
    ensures SystemLoss(Consumption(mainMeter), TotalUnits(RemoveById(meters, id)))
            >= SystemLoss(Consumption(mainMeter), TotalUnits(meters))
  {
    RemoveByIdTotal(meters, id);
  }

  // ---------------------------------------------------------------------
  // Deleting a sub-meter
  // ---------------------------------------------------------------------

  /** The dashboard's own state around deletion, with the sub-meter list. */
  datatype DashboardState = DashboardState(
    meters: seq<MeterReading>,
    dialog: DeleteDialog,
    showResult: bool)

  /** A long press opens the dialog for that meter with an empty box. */
  function OpenDeleteDialog(meter: MeterReading): (d: DeleteDialog)
    ensures d.meterToDelete == Some(meter) && d.confirmText == ""
    ensures !DeleteConfirmed(d)
  {
    DeleteDialog(Some(meter), "")
  }

  /** On confirmation, drop every meter carrying the pending id, close the
      dialog and hide the result; otherwise change nothing. */
  function HandleConfirmDelete(s: DashboardState): (r: DashboardState)
    ensures !DeleteConfirmed(s.dialog) ==> r == s
    ensures DeleteConfirmed(s.dialog) ==>
              var gone := s.dialog.meterToDelete.value.id;
              && (forall k :: 0 <= k < |r.meters| ==> r.meters[k].id != gone)
              && (forall i :: 0 <= i < |s.meters| && s.meters[i].id != gone ==> s.meters[i] in r.meters)
              && IsSubsequence(r.meters, s.meters)
              && |r.meters| == |s.meters| - CountId(s.meters, gone)
              && r.dialog.meterToDelete == None
              && r.dialog.confirmText == s.dialog.confirmText
              && !r.showResult
  {
    if DeleteConfirmed(s.dialog) then
      DashboardState(
        RemoveById(s.meters, s.dialog.meterToDelete.value.id),
        s.dialog.(meterToDelete := None),
        false)
    else s
  }

  /** A dialog freshly opened by a long press cannot delete anything until
      the word is typed. */
  lemma FreshDialogDeletesNothing(meters: seq<MeterReading>, meter: MeterReading, showResult: bool)
    ensures HandleConfirmDelete(DashboardState(meters, OpenDeleteDialog(meter), showResult)).meters == meters
  {
  }

  /** Confirming a second time deletes nothing more: the dialog is closed. */
  lemma ConfirmDeleteOnce(s: DashboardState)
    ensures HandleConfirmDelete(HandleConfirmDelete(s)) == HandleConfirmDelete(s)
  {
  }
}
