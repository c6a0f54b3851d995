/** The edit-bill page of src/pages/EditBill.tsx: loading a stored bill into the form,
    the same totals effect and row edits as the new page, and the submit that updates
    the row by its id without touching `bill_id`. */
module EditBill {
  import opened Wrappers
  import opened Lists
  import opened Records
  import opened BillCalc

  /** One update the page sent, addressed by the row's `id`. */
  datatype BillUpdate = BillUpdate(id: string, columns: BillWrite)

  class EditBillPage {
    /** The route's `id`. */
    const rowId: string
    var loading: bool
    var form: BillForm
    var varieties: seq<VarietyRow>
    /** The updates this page has sent, oldest first. */
    var updates: seq<BillUpdate>

    constructor (id: string)
      ensures rowId == id && loading
      ensures form == BlankForm("") && varieties == [BlankRow(1)] && updates == []
    {
      rowId := id;
      loading := true;
      form := BlankForm("");
      varieties := [BlankRow(1)];
      updates := [];
    }

    /** The fetch of the bill: `None` when the store reports an error or no row. The form
        is filled only when the load does not throw; the rows are replaced only when the
        stored varieties parse to an array. Loading ends either way. */
    method Load(fetched: Option<Bill>)
      modifies this
      ensures !loading && updates == old(updates)
      ensures fetched.Some? && LoadedForm(fetched.value).Some? ==>
                form == LoadedForm(fetched.value).value
                && varieties == LoadedRows(fetched.value, old(varieties))
      ensures fetched.None? || LoadedForm(fetched.value).None? ==>
                form == old(form) && varieties == old(varieties)
    {
      if fetched.Some? {
        var f := LoadedForm(fetched.value);
        if f.Some? {
          form := f.value;
          varieties := LoadedRows(fetched.value, varieties);
        }
      }
      loading := false;
    }

    /** The totals effect, as on the new page. */
    method Recalculate()
      modifies this
      ensures varieties == Recomputed(old(varieties))
      ensures form == WithTotals(old(form), old(varieties))
      ensures updates == old(updates) && loading == old(loading)
    {
      var updated := Recomputed(varieties);
      var f := WithTotals(form, varieties);
      if updated != varieties {
        varieties := updated;
      }
      form := f;
    }

    method InputChange(field: FormField, value: string)
      modifies this
      ensures form == SetFormField(old(form), field, value)
      ensures varieties == old(varieties) && updates == old(updates) && loading == old(loading)
    {
      form := SetFormField(form, field, value);
    }

    method VarietyChange(id: int, field: RowField, value: string)
      modifies this
      ensures varieties == SetRowField(old(varieties), id, field, value)
      ensures form == old(form) && updates == old(updates) && loading == old(loading)
    {
      varieties := SetRowField(varieties, id, field, value);
    }

    /** `addVariety`: a blank row whose id is one past the largest. */
    method AddVariety()
      requires |varieties| >= 1
      modifies this
      ensures varieties == AddRow(old(varieties))
      ensures form == old(form) && updates == old(updates) && loading == old(loading)
    {
      varieties := AddRow(varieties);
    }

    /** `removeVariety`: drops the rows with that id unless only one row is left. */
    method RemoveVariety(id: int)
      modifies this
      ensures |old(varieties)| >= 1 && UniqueKeys(old(varieties), RowId) ==>
                |varieties| >= 1 && UniqueKeys(varieties, RowId)
      ensures varieties == RemoveRow(old(varieties), id)
      ensures form == old(form) && updates == old(updates) && loading == old(loading)
    {
      if |varieties| >= 1 && UniqueKeys(varieties, RowId) {
        RemoveRowKeepsOne(varieties, id);
      }
      varieties := RemoveRow(varieties, id);
    }

    /** Rejected with no store call unless some line is complete; otherwise one update of
        this row with the payload, which has no `bill_id` column. Nothing else changes. */
    method Submit(storeOk: bool) returns (result: SubmitResult)
      modifies this
      ensures var p := Payload(old(form), old(varieties));
              && (result == Rejected <==> p.None?)
              && (result == Saved <==> p.Some? && storeOk)
              && updates == (if result == Saved then old(updates) + [BillUpdate(rowId, p.value)]
                             else old(updates))
      ensures form == old(form) && varieties == old(varieties) && loading == old(loading)
    {
      var p := Payload(form, varieties);
      if p.None? {
        return Rejected;
      }
      if !storeOk {
        return StoreFailed;
      }
      updates := updates + [BillUpdate(rowId, p.value)];
      return Saved;
    }
  }
}
