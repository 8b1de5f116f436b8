/** Meter readings and the list operations the dashboard and the readings
    panel perform on them: consumption, totals, a field edit by id, and a
    removal by id guarded by the typed confirmation. */
module Readings {
  import opened Text

  datatype Option<T> = None | Some(value: T)

  /** One sub-meter (or the main meter): identity, labels and two readings. */
  datatype MeterReading = MeterReading(
    id: string,
    name: string,
    meterNo: string,
    previous: real,
    current: real)

  /** An edit of one field of a reading, with the new value. */
  datatype FieldUpdate =
    | SetId(id: string)
    | SetName(name: string)
    | SetMeterNo(meterNo: string)
    | SetPrevious(previous: real)
    | SetCurrent(current: real)

  /** Units consumed since the previous reading; a current reading below the
      previous one counts as no consumption. */
  function Consumption(m: MeterReading): (u: real)
    ensures u >= 0.0
    ensures m.current >= m.previous ==> u == m.current - m.previous
    ensures m.current <= m.previous ==> u == 0.0
  {
    if m.current - m.previous > 0.0 then m.current - m.previous else 0.0
  }

  /** Copy of a reading with one field replaced. */
  function ApplyUpdate(m: MeterReading, u: FieldUpdate): (r: MeterReading)
    ensures r.id == (if u.SetId? then u.id else m.id)
    ensures r.name == (if u.SetName? then u.name else m.name)
    ensures r.meterNo == (if u.SetMeterNo? then u.meterNo else m.meterNo)
    ensures r.previous == (if u.SetPrevious? then u.previous else m.previous)
    ensures r.current == (if u.SetCurrent? then u.current else m.current)
  {
    match u
    case SetId(v) => m.(id := v)
    case SetName(v) => m.(name := v)
    case SetMeterNo(v) => m.(meterNo := v)
    case SetPrevious(v) => m.(previous := v)
    case SetCurrent(v) => m.(current := v)
  }

  /** Whether an edit sets `previous` or `current` rather than a label. */
  predicate TouchesReadings(u: FieldUpdate) {
    u.SetPrevious? || u.SetCurrent?
  }

  // ---------------------------------------------------------------------
  // Totals
  // ---------------------------------------------------------------------

  /** Sum of the consumptions of a list of readings (the `reduce` over the
      sub-meters). */
  function TotalUnits(ms: seq<MeterReading>): (t: real)
    ensures t >= 0.0
    ensures |ms| == 0 ==> t == 0.0
  {
    if |ms| == 0 then 0.0 else TotalUnits(ms[..|ms| - 1]) + Consumption(ms[|ms| - 1])
  }

  /** The total over two lists joined is the sum of their totals. */
  lemma {:induction false} TotalUnitsAppend(a: seq<MeterReading>, b: seq<MeterReading>)
    ensures TotalUnits(a + b) == TotalUnits(a) + TotalUnits(b)
    decreases |b|
  {
    if |b| > 0 {
      assert (a + b)[..|a + b| - 1] == a + b[..|b| - 1];
      TotalUnitsAppend(a, b[..|b| - 1]);
    } else {
      assert a + b == a;
    }
  }

  /** No single meter consumes more than the total. */
  lemma {:induction false} ConsumptionAtMostTotal(ms: seq<MeterReading>, i: nat)
    requires i < |ms|
    ensures Consumption(ms[i]) <= TotalUnits(ms)
    decreases |ms|
  {
    if i < |ms| - 1 {
      ConsumptionAtMostTotal(ms[..|ms| - 1], i);
    }
  }

  // ---------------------------------------------------------------------
  // Edit by id
  // ---------------------------------------------------------------------

  /** Apply an edit to every reading carrying the given id, keeping the
      others and the order as they were. */
  function UpdateById(ms: seq<MeterReading>, id: string, u: FieldUpdate): (r: seq<MeterReading>)
    ensures |r| == |ms|
    ensures forall i :: 0 <= i < |ms| && ms[i].id == id ==> r[i] == ApplyUpdate(ms[i], u)
    ensures forall i :: 0 <= i < |ms| && ms[i].id != id ==> r[i] == ms[i]
  {
    if |ms| == 0 then []
    else
      var head := if ms[0].id == id then ApplyUpdate(ms[0], u) else ms[0];
      [head] + UpdateById(ms[1..], id, u)
  }

  /** Editing an id nobody carries changes nothing. */
  lemma UpdateAbsentId(ms: seq<MeterReading>, id: string, u: FieldUpdate)
    requires forall i :: 0 <= i < |ms| ==> ms[i].id != id
    ensures UpdateById(ms, id, u) == ms
  {
  }

  /** Editing a label (name, meter number or id) leaves the total
      consumption unchanged. */
  lemma {:induction false} LabelEditKeepsTotal(ms: seq<MeterReading>, id: string, u: FieldUpdate)
    requires !TouchesReadings(u)
    ensures TotalUnits(UpdateById(ms, id, u)) == TotalUnits(ms)
    decreases |ms|
  {
    if |ms| > 0 {
      var r := UpdateById(ms, id, u);
      var k := |ms| - 1;
      assert r[..k] == UpdateById(ms[..k], id, u);
      LabelEditKeepsTotal(ms[..k], id, u);
      assert Consumption(r[k]) == Consumption(ms[k]);
    }
  }

  // ---------------------------------------------------------------------
  // Removal by id
  // ---------------------------------------------------------------------

  /** `a` is `b` with some elements dropped, order kept. */
  predicate IsSubsequence<T(==)>(a: seq<T>, b: seq<T>)
    decreases |b|
  {
    |a| == 0
    || (|b| > 0 && ((a[0] == b[0] && IsSubsequence(a[1..], b[1..])) || IsSubsequence(a, b[1..])))
  }

  /** Number of readings carrying the id. */
  function CountId(ms: seq<MeterReading>, id: string): (n: nat)
    ensures n <= |ms|
  {
    if |ms| == 0 then 0 else (if ms[0].id == id then 1 else 0) + CountId(ms[1..], id)
  }

  /** The list without the readings that carry the id (the `filter`). */
  function RemoveById(ms: seq<MeterReading>, id: string): (r: seq<MeterReading>)
    ensures forall k :: 0 <= k < |r| ==> r[k].id != id
    ensures forall i :: 0 <= i < |ms| && ms[i].id != id ==> ms[i] in r
    ensures |r| + CountId(ms, id) == |ms|
    ensures IsSubsequence(r, ms)
  {
    if |ms| == 0 then []
    else if ms[0].id == id then RemoveById(ms[1..], id)
    else
      var rest := RemoveById(ms[1..], id);
      assert forall i :: 1 <= i < |ms| ==> ms[i] == ms[1..][i - 1];
      [ms[0]] + rest
  }

  /** Removal acts on each part of a joined list separately. */
  lemma {:induction false} RemoveByIdAppend(a: seq<MeterReading>, b: seq<MeterReading>, id: string)
    ensures RemoveById(a + b, id) == RemoveById(a, id) + RemoveById(b, id)
    decreases |a|
  {
    if |a| == 0 {
      assert a + b == b;
    } else {
      assert (a + b)[1..] == a[1..] + b;
      RemoveByIdAppend(a[1..], b, id);
    }
  }

  /** Removing twice is removing once. */
  lemma {:induction false} RemoveByIdIdempotent(ms: seq<MeterReading>, id: string)
    ensures RemoveById(RemoveById(ms, id), id) == RemoveById(ms, id)
    decreases |ms|
  {
    if |ms| > 0 {
      RemoveByIdIdempotent(ms[1..], id);
    }
  }

  /** Removing a reading takes exactly its consumption off the total. */
  lemma {:induction false} RemoveByIdTotal(ms: seq<MeterReading>, id: string)
    ensures TotalUnits(RemoveById(ms, id)) + TotalUnits(KeepId(ms, id)) == TotalUnits(ms)
    decreases |ms|
  {
    if |ms| > 0 {
      var tail := ms[1..];
      assert ms == [ms[0]] + tail;
      RemoveByIdTotal(tail, id);
      TotalUnitsAppend([ms[0]], tail);
      if ms[0].id == id {
        TotalUnitsAppend([ms[0]], KeepId(tail, id));
      } else {
        TotalUnitsAppend([ms[0]], RemoveById(tail, id));
      }
    }
  }

  /** The readings that carry the id. */
  function KeepId(ms: seq<MeterReading>, id: string): (r: seq<MeterReading>)
    ensures forall k :: 0 <= k < |r| ==> r[k].id == id
    ensures |r| == CountId(ms, id)
  {
    if |ms| == 0 then []
    else if ms[0].id == id then [ms[0]] + KeepId(ms[1..], id)
    else KeepId(ms[1..], id)
  }

  // ---------------------------------------------------------------------
  // Deletion dialog
  // ---------------------------------------------------------------------

  /** The pending deletion and the text typed into the confirmation box. */
  datatype DeleteDialog = DeleteDialog(meterToDelete: Option<MeterReading>, confirmText: string)

  /** A deletion goes ahead only with a pending meter and the word DELETE
      typed in any letter case. */
  predicate DeleteConfirmed(d: DeleteDialog)
    ensures DeleteConfirmed(d)
            <==> && d.meterToDelete.Some?
                 && |d.confirmText| == |DeleteWord|
                 && forall i :: 0 <= i < |d.confirmText| ==>
                      d.confirmText[i] == DeleteWord[i] || d.confirmText[i] as int == DeleteWord[i] as int + 32
  {
    d.meterToDelete.Some? && IsDeleteConfirmation(d.confirmText)
  }
}
