/** The new-bill page of src/pages/NewBill.tsx: the form and its variety rows, the totals
    effect, the row edits, and the submit that inserts into the bills table and resets
    the form under a fresh id. The year and the random suffix are parameters. */
module NewBill {
  import opened Wrappers
  import opened Text
  import opened Lists
  import opened Records
  import opened Ids
  import opened BillCalc

  /** One insert the page sent to the bills table. */
  datatype BillInsert = BillInsert(billId: string, columns: BillWrite)

  /** `BILL-<year>-<suffix>`. */
  function NewBillId(year: nat, suffix: nat): (id: string)
    requires RandomSuffix(suffix)
    ensures |Split(id, '-')| == 3
    ensures Split(id, '-')[0] == "BILL" && Split(id, '-')[1] == NatToString(year)
    ensures ParseInt(Split(id, '-')[2]) == Some(suffix as int)
  {
    RandomId("BILL", year, suffix)
  }

  class NewBillPage {
    var form: BillForm
    var varieties: seq<VarietyRow>
    /** The inserts this page has made, oldest first. */
    var inserted: seq<BillInsert>

    /** There is always a row, and row ids are distinct. */
    ghost predicate Valid()
      reads this
    {
      |varieties| >= 1 && UniqueKeys(varieties, RowId)
    }

    constructor (year: nat, suffix: nat)
      requires RandomSuffix(suffix)
      ensures Valid()
      ensures form == BlankForm(NewBillId(year, suffix)) && varieties == [BlankRow(1)]
      ensures inserted == []
    {
      varieties := [BlankRow(1)];
      inserted := [];
      form := BlankForm(NewBillId(year, suffix));
    }

    /** The totals effect: every row total becomes its `qty * rate` (written only when
        something differs), and the form shows the grand total and net payment, blank
        when not positive. */
    method Recalculate()
      requires Valid()
      modifies this
      ensures Valid()
      ensures varieties == Recomputed(old(varieties))
      ensures form == WithTotals(old(form), old(varieties))
      ensures inserted == old(inserted)
    {
      var updated := Recomputed(varieties);
      var f := WithTotals(form, varieties);
      assert forall i :: 0 <= i < |varieties| ==> RowId(updated[i]) == RowId(varieties[i]);
      if updated != varieties {
        varieties := updated;
      }
      form := f;
    }

    method InputChange(field: FormField, value: string)
      modifies this
      ensures form == SetFormField(old(form), field, value)
      ensures varieties == old(varieties) && inserted == old(inserted)
    {
      form := SetFormField(form, field, value);
    }

    method VarietyChange(id: int, field: RowField, value: string)
      requires Valid()
      modifies this
      ensures Valid()
      ensures varieties == SetRowField(old(varieties), id, field, value)
      ensures form == old(form) && inserted == old(inserted)
    {
      var updated := SetRowField(varieties, id, field, value);
      assert forall i :: 0 <= i < |varieties| ==> RowId(updated[i]) == RowId(varieties[i]);
      varieties := updated;
    }

    /** `addVariety`: one blank row with a new id at the end. */
    method AddVariety()
      requires Valid()
      modifies this
      ensures Valid()
      ensures varieties == AddRow(old(varieties))
      ensures form == old(form) && inserted == old(inserted)
    {
      AddRowFresh(varieties);
      varieties := AddRow(varieties);
    }

    /** `removeVariety`: drops the row with that id unless it is the last one. */
    method RemoveVariety(id: int)
      requires Valid()
      modifies this
      ensures Valid()
      ensures varieties == RemoveRow(old(varieties), id)
      ensures form == old(form) && inserted == old(inserted)
    {
      RemoveRowKeepsOne(varieties, id);
      varieties := RemoveRow(varieties, id);
    }

    /** Rejected with no insert unless some line is complete; otherwise one insert of
        the current bill id and the payload. A store error changes nothing; a saved bill
        resets the form to blank under a fresh id with one blank row. */
    method Submit(storeOk: bool, year: nat, suffix: nat) returns (result: SubmitResult)
      requires Valid() && RandomSuffix(suffix)
      modifies this
      ensures Valid()
      ensures var p := Payload(old(form), old(varieties));
              && (result == Rejected <==> p.None?)
              && (result == Saved <==> p.Some? && storeOk)
              && (result == Saved ==>
                    inserted == old(inserted) + [BillInsert(old(form).billId, p.value)]
                    && form == BlankForm(NewBillId(year, suffix))
                    && varieties == [BlankRow(1)])
              && (result != Saved ==>
                    inserted == old(inserted) && form == old(form) && varieties == old(varieties))
    {
      var p := Payload(form, varieties);
      if p.None? {
        return Rejected;
      }
      if !storeOk {
        return StoreFailed;
      }
      Save(BillInsert(form.billId, p.value), year, suffix);
      return Saved;
    }

    /** A saved bill: appended, and the form reset under a fresh id with one blank row. */
    method Save(row: BillInsert, year: nat, suffix: nat)
      requires RandomSuffix(suffix)
      modifies this
      ensures Valid()
      ensures inserted == old(inserted) + [row]
      ensures form == BlankForm(NewBillId(year, suffix)) && varieties == [BlankRow(1)]
    {
      inserted := inserted + [row];
      form := BlankForm(NewBillId(year, suffix));
      varieties := [BlankRow(1)];
    }
  }
}
