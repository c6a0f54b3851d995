/** The bill arithmetic that src/pages/NewBill.tsx and src/pages/EditBill.tsx each carry a
    copy of: line totals, the grand total and net payment the form displays, the
    "complete line" rule, the aggregate quantity and average rate that are persisted, and
    the row list edits. */
module BillCalc {
  import opened Wrappers
  import opened Text
  import opened Lists
  import opened Records

  /** The form state. `total` and `netPayment` are the numbers the totals effect writes
      back with `toString()`, `None` standing for the blank "". */
  datatype BillForm = BillForm(
    billId: string,
    agent: string,
    farm: string,
    vehicle: string,
    unloadingAmount: Amount,
    advance: Amount,
    total: Option<real>,
    arrivalNumber: string,
    netPayment: Option<real>)

  /** The blank form, with the given bill id. */
  function BlankForm(billId: string): BillForm
  {
    BillForm(billId, "", "", "", Typed(""), Typed(""), None, "", None)
  }

  function RowId(v: VarietyRow): int { v.id }

  function BlankRow(id: int): VarietyRow
  {
    VarietyRow(id, "", "", "", 0.0)
  }

  /** `parseFloat(x) || 0`: unparsable or empty text counts as zero. */
  function ValueOrZero(s: string): real
  {
    ParseFloat(s).GetOr(0.0)
  }

  /** `(parseFloat(quantity) || 0) * (parseFloat(rate) || 0)`. */
  function Times(quantity: string, rate: string): real
  {
    ValueOrZero(quantity) * ValueOrZero(rate)
  }

  /** The line total a row should carry. */
  function LineTotal(v: VarietyRow): real
  {
    Times(v.quantity, v.rate)
  }

  function RowTotal(v: VarietyRow): real { v.total }

  /** The rows with each total recomputed and every other field kept. */
  function Recomputed(rows: seq<VarietyRow>): (r: seq<VarietyRow>)
    ensures |r| == |rows|
    ensures forall i :: 0 <= i < |rows| ==>
              r[i].total == LineTotal(rows[i]) && r[i].(total := rows[i].total) == rows[i]
  {
    seq(|rows|, i requires 0 <= i < |rows| => rows[i].(total := LineTotal(rows[i])))
  }

  /** Recomputation leaves alone exactly the rows whose totals are already right, so a
      second pass changes nothing and the effect stops updating. */
  lemma RecomputedFixpoint(rows: seq<VarietyRow>)
    ensures Recomputed(rows) == rows <==> forall i :: 0 <= i < |rows| ==> rows[i].total == LineTotal(rows[i])
    ensures Recomputed(Recomputed(rows)) == Recomputed(rows)
  {
    if Recomputed(rows) == rows {
      forall i | 0 <= i < |rows| ensures rows[i].total == LineTotal(rows[i]) {
        assert Recomputed(rows)[i].total == LineTotal(rows[i]);
      }
    }
  }

  /** Summing the recomputed totals sums every line's `qty * rate`. */
  lemma {:induction false} SumRecomputed(rows: seq<VarietyRow>)
    ensures Sum(Recomputed(rows), RowTotal) == Sum(rows, LineTotal)
  {
    if rows != [] {
      var n := |rows| - 1;
      assert Recomputed(rows)[..n] == Recomputed(rows[..n]);
      SumRecomputed(rows[..n]);
    }
  }

  /** `updatedVarieties.reduce((sum, v) => sum + v.total, 0)`: the sum of every line's
      `qty * rate`, complete or not. */
  function GrandTotal(rows: seq<VarietyRow>): (r: real)
    ensures r == Sum(rows, LineTotal)
  {
    SumRecomputed(rows);
    Sum(Recomputed(rows), RowTotal)
  }

  /** Appending a line adds exactly its `qty * rate` to the grand total. */
  lemma GrandTotalAppend(rows: seq<VarietyRow>, v: VarietyRow)
    ensures GrandTotal(rows + [v]) == GrandTotal(rows) + LineTotal(v)
  {
    SumAppend(rows, [v], LineTotal);
    assert Sum([v], LineTotal) == LineTotal(v);
  }

  /** `totalAmount - (unloadingAmount + advance)`, the deductions read with `|| 0`. */
  function NetPayment(rows: seq<VarietyRow>, unloading: Amount, advance: Amount): (r: real)
    ensures r + OrZero(AmountValue(unloading)) + OrZero(AmountValue(advance)) == Sum(rows, LineTotal)
    ensures AmountValue(unloading).GetOr(0.0) >= 0.0 && AmountValue(advance).GetOr(0.0) >= 0.0 ==>
              r <= Sum(rows, LineTotal)
  {
    GrandTotal(rows) - (OrZero(AmountValue(unloading)) + OrZero(AmountValue(advance)))
  }

  /** `x > 0 ? x.toString() : ""`. */
  function Shown(x: real): (r: Option<real>)
    ensures r.Some? <==> x > 0.0
    ensures r.Some? ==> r.value == x
  {
    if x > 0.0 then Some(x) else None
  }

  /** The totals effect's update of the form: it shows the sum of the lines and the net
      payment when they are positive and blanks otherwise, and no other field changes. */
  function WithTotals(form: BillForm, rows: seq<VarietyRow>): (f: BillForm)
    ensures f.total.Some? <==> Sum(rows, LineTotal) > 0.0
    ensures f.total.Some? ==> f.total.value == Sum(rows, LineTotal)
    ensures f.netPayment.Some? <==> NetPayment(rows, form.unloadingAmount, form.advance) > 0.0
    ensures f.netPayment.Some? ==> f.netPayment.value > 0.0
    ensures f.(total := form.total, netPayment := form.netPayment) == form
  {
    form.(total := Shown(GrandTotal(rows)),
          netPayment := Shown(NetPayment(rows, form.unloadingAmount, form.advance)))
  }

  /** The effect runs again on the rows it recomputed, and that second run is a no-op. */
  lemma WithTotalsShows(form: BillForm, rows: seq<VarietyRow>)
    ensures var f := WithTotals(form, rows);
            WithTotals(f, Recomputed(rows)) == f
  {
    RecomputedFixpoint(rows);
  }

  /** `v.variety && v.quantity && v.rate`: all three fields filled in. */
  predicate IsComplete(v: VarietyRow)
  {
    v.variety != "" && v.quantity != "" && v.rate != ""
  }

  /** `varieties.filter(v => v.variety && v.quantity && v.rate)`: only complete lines,
      every complete line, and nothing exactly when no line is complete. */
  function CompleteLines(rows: seq<VarietyRow>): (r: seq<VarietyRow>)
    ensures r == [] <==> forall i :: 0 <= i < |rows| ==> !IsComplete(rows[i])
    ensures forall i :: 0 <= i < |r| ==> IsComplete(r[i]) && r[i] in rows
    ensures forall i :: 0 <= i < |rows| && IsComplete(rows[i]) ==> rows[i] in r
  {
    CountBounds(rows, IsComplete);
    Filter(rows, IsComplete)
  }

  function QuantityValue(v: VarietyRow): real { ValueOrZero(v.quantity) }

  /** `lines.reduce((sum, v) => sum + parseFloat(v.quantity), 0)` as the store receives
      it: one unparsable quantity makes the sum `NaN`, stored as `null`. */
  function TotalQuantity(lines: seq<VarietyRow>): (r: Option<real>)
    ensures r.Some? <==> forall i :: 0 <= i < |lines| ==> ParseFloat(lines[i].quantity).Some?
    ensures r.Some? ==> r.value == Sum(lines, QuantityValue)
  {
    if lines == [] then Some(0.0)
    else
      var init := TotalQuantity(lines[..|lines| - 1]);
      var last := ParseFloat(lines[|lines| - 1].quantity);
      if init.Some? && last.Some? then Some(init.value + last.value) else None
  }

  /** `parseFloat(formData.total) / totalQuantity` as the store receives it: a blank total
      or quantity, or a zero quantity, gives `NaN` or an infinity, stored as `null`. */
  function AverageRate(total: Option<real>, quantity: Option<real>): (r: Option<real>)
    ensures r.Some? <==> total.Some? && quantity.Some? && quantity.value != 0.0
    ensures r.Some? ==> r.value * quantity.value == total.value
  {
    if total.Some? && quantity.Some? && quantity.value != 0.0
    then Some(total.value / quantity.value) else None
  }

  /** The columns both pages write; the insert adds `bill_id` to these, the update does
      not. */
  datatype BillWrite = BillWrite(
    agentId: string,
    farmId: string,
    vehicleNumber: string,
    arrivalNumber: string,
    productVariety: seq<VarietyRow>,
    unloadingAmount: real,
    advance: real,
    quantity: Option<real>,
    rate: Option<real>,
    total: Option<real>,
    netPayment: Option<real>)

  /** What a submit sends, or `None` exactly when no line is complete (the submit then
      stops before any store call). It stores only the complete lines, in order; the
      quantity is their summed quantities when every one parses, the rate is the
      displayed total averaged over that quantity, and the total and net payment are the
      displayed ones. */
  function Payload(form: BillForm, rows: seq<VarietyRow>): (r: Option<BillWrite>)
    ensures r.None? <==> forall i :: 0 <= i < |rows| ==> !IsComplete(rows[i])
    ensures r.Some? ==>
              && r.value.productVariety == Filter(rows, IsComplete)
              && |r.value.productVariety| >= 1
              && (forall i :: 0 <= i < |r.value.productVariety| ==> IsComplete(r.value.productVariety[i]))
              && (r.value.quantity.Some? ==> r.value.quantity.value == Sum(r.value.productVariety, QuantityValue))
              && r.value.rate == AverageRate(form.total, r.value.quantity)
              && r.value.total == form.total && r.value.netPayment == form.netPayment
  {
    var lines := CompleteLines(rows);
    if lines == [] then None
    else
      var qty := TotalQuantity(lines);
      Some(BillWrite(form.agent, form.farm, form.vehicle, form.arrivalNumber, lines,
                     OrZero(AmountValue(form.unloadingAmount)), OrZero(AmountValue(form.advance)),
                     qty, AverageRate(form.total, qty), form.total, form.netPayment))
  }

  /** Complete lines once stored and read back stay the same under the filter, so a
      bill saved again from the edit page keeps its lines. */
  lemma CompleteLinesStable(rows: seq<VarietyRow>)
    ensures CompleteLines(CompleteLines(rows)) == CompleteLines(rows)
  {
    var lines := CompleteLines(rows);
    FilterAll(lines, IsComplete);
  }

  /** `Math.max(...rows.map(v => v.id))`. */
  function MaxRowId(rows: seq<VarietyRow>): (m: int)
    requires |rows| >= 1
    ensures forall i :: 0 <= i < |rows| ==> rows[i].id <= m
    ensures exists i :: 0 <= i < |rows| && rows[i].id == m
  {
    if |rows| == 1 then rows[0].id
    else
      var rest := MaxRowId(rows[1..]);
      assert forall i :: 1 <= i < |rows| ==> rows[i] == rows[1..][i - 1];
      if rows[0].id > rest then rows[0].id else rest
  }

  /** `addVariety`: a blank row whose id is one past the largest. */
  function AddRow(rows: seq<VarietyRow>): (r: seq<VarietyRow>)
    requires |rows| >= 1
    ensures |r| == |rows| + 1 && r[..|rows|] == rows
    ensures r[|rows|] == BlankRow(r[|rows|].id)
    ensures forall i :: 0 <= i < |rows| ==> rows[i].id < r[|rows|].id
  {
    rows + [BlankRow(MaxRowId(rows) + 1)]
  }

  /** Adding a row keeps the ids distinct, because the new id exceeds every old one. */
  lemma AddRowFresh(rows: seq<VarietyRow>)
    requires |rows| >= 1 && UniqueKeys(rows, RowId)
    ensures UniqueKeys(AddRow(rows), RowId)
    ensures AddRow(rows)[..|rows|] == rows && |AddRow(rows)| == |rows| + 1
    ensures forall i :: 0 <= i < |rows| ==> rows[i].id < AddRow(rows)[|rows|].id
  {
    var r := AddRow(rows);
    forall i, j | 0 <= i < j < |r| ensures RowId(r[i]) != RowId(r[j]) {
      if j == |rows| {
        assert r[i] == rows[i];
      } else {
        assert r[i] == rows[i] && r[j] == rows[j];
      }
    }
  }

  /** `removeVariety`: drops the rows with that id, unless only one row is left. */
  function RemoveRow(rows: seq<VarietyRow>, id: int): (r: seq<VarietyRow>)
    ensures |rows| <= 1 ==> r == rows
    ensures |rows| > 1 ==> forall i :: 0 <= i < |r| ==> r[i] in rows && r[i].id != id
    ensures |rows| > 1 ==> forall i :: 0 <= i < |rows| && rows[i].id != id ==> rows[i] in r
  {
    if |rows| > 1 then RemoveKey(rows, RowId, id) else rows
  }

  /** With distinct ids, removing keeps at least one row and the ids distinct; it drops
      exactly the row with that id when there is one and changes nothing otherwise. */
  lemma RemoveRowKeepsOne(rows: seq<VarietyRow>, id: int)
    requires |rows| >= 1 && UniqueKeys(rows, RowId)
    ensures |RemoveRow(rows, id)| >= 1 && UniqueKeys(RemoveRow(rows, id), RowId)
    ensures forall i :: 0 <= i < |rows| && rows[i].id == id && |rows| > 1 ==>
              RemoveRow(rows, id) == rows[..i] + rows[i + 1..]
    ensures (forall i :: 0 <= i < |rows| ==> rows[i].id != id) ==> RemoveRow(rows, id) == rows
  {
    if |rows| > 1 {
      RemoveUniqueKey(rows, RowId, id);
      if i :| 0 <= i < |rows| && rows[i].id == id {
        UniqueKeysWithout(rows, RowId, i);
      }
    }
  }

  datatype RowField = VarietyField | QuantityField | RateField

  /** `handleVarietyChange`: every row with that id gets the new text in that field. */
  function SetRowField(rows: seq<VarietyRow>, id: int, field: RowField, value: string): (r: seq<VarietyRow>)
    ensures |r| == |rows|
    ensures forall i :: 0 <= i < |rows| && rows[i].id != id ==> r[i] == rows[i]
    ensures forall i :: 0 <= i < |rows| && rows[i].id == id ==>
              r[i].id == id && r[i].total == rows[i].total
              && r[i].variety == (if field == VarietyField then value else rows[i].variety)
              && r[i].quantity == (if field == QuantityField then value else rows[i].quantity)
              && r[i].rate == (if field == RateField then value else rows[i].rate)
  {
    seq(|rows|, i requires 0 <= i < |rows| =>
      if rows[i].id != id then rows[i]
      else match field
        case VarietyField => rows[i].(variety := value)
        case QuantityField => rows[i].(quantity := value)
        case RateField => rows[i].(rate := value))
  }

  /** The text fields `handleInputChange` writes. */
  datatype FormField = AgentField | FarmField | VehicleField | UnloadingField | AdvanceField | ArrivalField

  /** `handleInputChange`: the one field gets the typed text. */
  function SetFormField(form: BillForm, field: FormField, value: string): (f: BillForm)
    ensures f.billId == form.billId && f.total == form.total && f.netPayment == form.netPayment
  {
    match field
    case AgentField => form.(agent := value)
    case FarmField => form.(farm := value)
    case VehicleField => form.(vehicle := value)
    case UnloadingField => form.(unloadingAmount := Typed(value))
    case AdvanceField => form.(advance := Typed(value))
    case ArrivalField => form.(arrivalNumber := value)
  }

  /** The row the store holds after an insert of `w` under `billId`. */
  function StoredBill(id: string, billId: string, w: BillWrite): Bill
  {
    Bill(id, billId, w.agentId, Some(w.farmId), w.vehicleNumber, w.arrivalNumber,
         VarietyArray(w.productVariety), w.unloadingAmount, w.advance, w.quantity, w.rate,
         w.total, w.netPayment)
  }

  /** The row after an update with `w`: every column the page writes changes, `id` and
      `bill_id` do not. */
  function ApplyWrite(b: Bill, w: BillWrite): (r: Bill)
    ensures r.id == b.id && r.billId == b.billId
    ensures r == StoredBill(b.id, b.billId, w)
  {
    b.(agentId := w.agentId, farmId := Some(w.farmId), vehicleNumber := w.vehicleNumber,
       arrivalNumber := w.arrivalNumber, productVariety := VarietyArray(w.productVariety),
       unloadingAmount := w.unloadingAmount, advance := w.advance, quantity := w.quantity,
       rate := w.rate, total := w.total, netPayment := w.netPayment)
  }

  /** The edit page's form for a loaded bill, as written: `total.toString()` and
      `net_payment.toString()` throw on a `null` column, and the load then fails. */
  function LoadedForm(b: Bill): (r: Option<BillForm>)
    ensures r.None? <==> b.total.None? || b.netPayment.None?
    ensures r.Some? ==> r.value == LoadedFormFixed(b)
  {
    if b.total.None? || b.netPayment.None? then None
    else Some(BillForm(b.billId, b.agentId, b.farmId.GetOr(""), b.vehicleNumber,
                       Loaded(b.unloadingAmount), Loaded(b.advance), b.total, b.arrivalNumber,
                       b.netPayment))
  }

  /** The form for a loaded bill with a `null` total or net payment shown blank. */
  function LoadedFormFixed(b: Bill): BillForm
  {
    BillForm(b.billId, b.agentId, b.farmId.GetOr(""), b.vehicleNumber,
             Loaded(b.unloadingAmount), Loaded(b.advance), b.total, b.arrivalNumber, b.netPayment)
  }

  /** The varieties after a load: the parsed array, or the rows already there when the
      column does not parse to an array. */
  function LoadedRows(b: Bill, current: seq<VarietyRow>): seq<VarietyRow>
  {
    if b.productVariety.VarietyArray? then b.productVariety.rows else current
  }

  /** A bill whose deductions exceed its total: one line of 10 at 5 and an advance of 60. */
  function LossForm(): BillForm
  {
    WithTotals(BlankForm("BILL-2025-001").(advance := Typed("60")), LossRows())
  }

  function LossRows(): seq<VarietyRow>
  {
    [VarietyRow(1, "Alphonso", "10", "5", 50.0)]
  }

  /** As written, the edit page cannot open a bill saved with a net payment of zero or
      less: the new page stores the blank net payment as `null`, and the load throws. */
  lemma LossBillDoesNotLoad()
    ensures Payload(LossForm(), LossRows()).Some?
    ensures LoadedForm(StoredBill("row-1", "BILL-2025-001", Payload(LossForm(), LossRows()).value)).None?
  {
    var rows := LossRows();
    LossNet();
    assert LossForm().netPayment == None;
    assert IsComplete(rows[0]);
    assert CompleteLines(rows) == rows;
  }

  /** The loss bill's line is worth 50. */
  lemma LossLine()
    ensures GrandTotal(LossRows()) == 50.0
  {
    var rows := LossRows();
    ScanWholeDigits("10", [], 0, false);
    ScanWholeDigits("5", [], 0, false);
    assert "10" + [] == "10" && "5" + [] == "5";
    assert LineTotal(rows[0]) == 50.0;
  }

  /** The loss bill's net payment is 50 - 60. */
  lemma LossNet()
    ensures NetPayment(LossRows(), Typed(""), Typed("60")) == -10.0
  {
    LossLine();
    ScanWholeDigits("60", [], 0, false);
    assert "60" + [] == "60";
  }

  /** With the blank-tolerant load, every bill the new page saves opens on the edit page
      with its own id and columns, and saving it again keeps exactly its lines. */
  lemma LoadedFormFixedRoundTrip(form: BillForm, rows: seq<VarietyRow>, id: string)
    requires Payload(form, rows).Some?
    ensures var w := Payload(form, rows).value;
            var b := StoredBill(id, form.billId, w);
            var f := LoadedFormFixed(b);
            && f.billId == form.billId && f.agent == form.agent && f.farm == form.farm
            && AmountValue(f.unloadingAmount) == Some(w.unloadingAmount)
            && AmountValue(f.advance) == Some(w.advance)
            && f.total == form.total && f.netPayment == form.netPayment
            && Payload(f, LoadedRows(b, [BlankRow(1)])).Some?
            && Payload(f, LoadedRows(b, [BlankRow(1)])).value.productVariety == w.productVariety
  {
    CompleteLinesStable(rows);
  }
}
