/** The readings panel: expanding cards, edits that a read-only panel
    refuses, adding and deleting sub-meters, the two unit totals, and the
    per-card cost estimate and consumption bar. */
module MeterReadings {
  import opened Text
  import opened Readings

  // ---------------------------------------------------------------------
  // Expanded cards
  // ---------------------------------------------------------------------

  /** Flip whether one card is expanded. */
  function ToggleExpand(expanded: set<string>, id: string): (r: set<string>)
    ensures id in r <==> id !in expanded
    ensures forall other :: other != id ==> (other in r <==> other in expanded)
  {
    if id in expanded then expanded - {id} else expanded + {id}
  }

  /** Toggling the same card twice restores the set. */
  lemma ToggleTwice(expanded: set<string>, id: string)
    ensures ToggleExpand(ToggleExpand(expanded, id), id) == expanded
  {
  }

  /** Toggles of two different cards commute. */
  lemma ToggleCommutes(expanded: set<string>, a: string, b: string)
    ensures ToggleExpand(ToggleExpand(expanded, a), b) == ToggleExpand(ToggleExpand(expanded, b), a)
  {
  }

  // ---------------------------------------------------------------------
  // Edits, refused when the panel is read-only
  // ---------------------------------------------------------------------

  /** The new list to publish after editing one field of the reading with
      the given id, or None when the panel is read-only and publishes
      nothing. */
  function HandleChange(readOnly: bool, readings: seq<MeterReading>, id: string, u: FieldUpdate)
    : (r: Option<seq<MeterReading>>)
    ensures r.None? <==> readOnly
    ensures r.Some? ==>
              && |r.value| == |readings|
              && (forall i :: 0 <= i < |readings| && readings[i].id == id ==> r.value[i] == ApplyUpdate(readings[i], u))
              && (forall i :: 0 <= i < |readings| && readings[i].id != id ==> r.value[i] == readings[i])
  {
    if readOnly then None else Some(UpdateById(readings, id, u))
  }

  /** The edited main-meter reading, or None when the panel is read-only. */
  function HandleMainMeterChange(readOnly: bool, mainMeter: MeterReading, u: FieldUpdate)
    : (r: Option<MeterReading>)
    ensures r.None? <==> readOnly
    ensures r.Some? ==> r.value.id == (if u.SetId? then u.id else mainMeter.id)
    ensures r.Some? ==> r.value.name == (if u.SetName? then u.name else mainMeter.name)
    ensures r.Some? ==> r.value.meterNo == (if u.SetMeterNo? then u.meterNo else mainMeter.meterNo)
    ensures r.Some? ==> r.value.previous == (if u.SetPrevious? then u.previous else mainMeter.previous)
    ensures r.Some? ==> r.value.current == (if u.SetCurrent? then u.current else mainMeter.current)
    ensures r.Some? && !TouchesReadings(u) ==> Consumption(r.value) == Consumption(mainMeter)
  {
    if readOnly then None else Some(ApplyUpdate(mainMeter, u))
  }

  /** A long press opens the deletion dialog, except on a read-only panel. */
  function StartLongPress(readOnly: bool, dialog: DeleteDialog, reading: MeterReading): (d: DeleteDialog)
    ensures readOnly ==> d == dialog
    ensures !readOnly ==> d.meterToDelete == Some(reading) && d.confirmText == ""
    ensures !readOnly ==> !DeleteConfirmed(d)
  {
    if readOnly then dialog else DeleteDialog(Some(reading), "")
  }

  /** A read-only panel never deletes: a long press leaves a closed dialog
      closed, whatever text it holds. */
  lemma ReadOnlyNeverConfirms(dialog: DeleteDialog, reading: MeterReading)
    requires dialog.meterToDelete.None?
    ensures !DeleteConfirmed(StartLongPress(true, dialog, reading))
  {
  }

  // ---------------------------------------------------------------------
  // Deletion
  // ---------------------------------------------------------------------

  /** Outcome of the confirm button: the list to publish (None when the
      deletion is not confirmed) and the dialog afterwards. */
  datatype DeleteOutcome = DeleteOutcome(update: Option<seq<MeterReading>>, dialog: DeleteDialog)

  function HandleConfirmDelete(readings: seq<MeterReading>, dialog: DeleteDialog): (r: DeleteOutcome)
    ensures r.update.Some? <==> DeleteConfirmed(dialog)
    ensures !DeleteConfirmed(dialog) ==> r.dialog == dialog
    ensures DeleteConfirmed(dialog) ==>
              var gone := dialog.meterToDelete.value.id;
              && (forall k :: 0 <= k < |r.update.value| ==> r.update.value[k].id != gone)
              && (forall i :: 0 <= i < |readings| && readings[i].id != gone ==> readings[i] in r.update.value)
              && IsSubsequence(r.update.value, readings)
              && |r.update.value| == |readings| - CountId(readings, gone)
              && r.dialog.meterToDelete == None
              && r.dialog.confirmText == dialog.confirmText
  {
    if DeleteConfirmed(dialog) then
      DeleteOutcome(Some(RemoveById(readings, dialog.meterToDelete.value.id)), dialog.(meterToDelete := None))
    else
      DeleteOutcome(None, dialog)
  }

  /** The units removed from the panel's total are exactly those of the
      deleted meters. */
  lemma DeleteLowersTotalByDeleted(readings: seq<MeterReading>, dialog: DeleteDialog)
    requires DeleteConfirmed(dialog)
    ensures TotalUnits(HandleConfirmDelete(readings, dialog).update.value)
            == TotalUnits(readings) - TotalUnits(KeepId(readings, dialog.meterToDelete.value.id))
  {
    RemoveByIdTotal(readings, dialog.meterToDelete.value.id);
  }

  // ---------------------------------------------------------------------
  // Adding a sub-meter
  // ---------------------------------------------------------------------

  const NewUserName: string := "New User"

  /** The list and expanded set after the add button: a blank reading with
      the fresh id and the next meter number goes at the end, and its card
      starts expanded. The fresh id (a timestamp) is a parameter. */
  function AddMeter(readings: seq<MeterReading>, expanded: set<string>, newId: string)
    : (r: (seq<MeterReading>, set<string>))
    ensures |r.0| == |readings| + 1
    ensures r.0[..|readings|] == readings
    ensures r.0[|readings|].id == newId && r.0[|readings|].name == NewUserName
    ensures IsDigits(r.0[|readings|].meterNo) && ParseNat(r.0[|readings|].meterNo) == |readings| + 1
    ensures r.0[|readings|].meterNo[0] != '0'
    ensures r.0[|readings|].previous == 0.0 && r.0[|readings|].current == 0.0
    ensures r.1 == expanded + {newId}
  {
    ParseNatToString(|readings| + 1);
    var blank := MeterReading(newId, NewUserName, NatToString(|readings| + 1), 0.0, 0.0);
    (readings + [blank], expanded + {newId})
  }

  /** Adding a meter leaves the panel's unit total as it was. */
  lemma AddMeterKeepsTotal(readings: seq<MeterReading>, expanded: set<string>, newId: string)
    ensures TotalUnits(AddMeter(readings, expanded, newId).0) == TotalUnits(readings)
  {
  }

  // ---------------------------------------------------------------------
  // Per-card figures
  // ---------------------------------------------------------------------

  /** Estimated cost of a card: its units at the computed average rate. */
  function EstimatedCost(m: MeterReading, calculatedRate: real): (cost: real)
    ensures calculatedRate >= 0.0 ==> cost >= 0.0
    ensures m.current <= m.previous ==> cost == 0.0
    ensures m.current >= m.previous ==> cost == (m.current - m.previous) * calculatedRate
  {
    Consumption(m) * calculatedRate
  }

  /** Width of a card's consumption bar, as a percentage of the largest
      consumption; zero when that largest consumption is not positive. */
  function ConsumptionPercent(units: real, maxUnits: real): (p: real)
    ensures maxUnits > 0.0 ==> p * maxUnits == units * 100.0
    ensures maxUnits <= 0.0 ==> p == 0.0
    ensures 0.0 <= units <= maxUnits ==> 0.0 <= p <= 100.0
  {
    if maxUnits > 0.0 then units / maxUnits * 100.0 else 0.0
  }
}
