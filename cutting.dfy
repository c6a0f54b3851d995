/** The cutting-schedule page of src/pages/Cutting.tsx: the submit guard, the row it
    inserts, the reset after saving, and the colour of a schedule's status badge. */
module Cutting {
  import opened Wrappers
  import opened Text
  import opened Records

  datatype CuttingForm = CuttingForm(farmId: string, cuttingType: string, expectedQuantity: string, notes: string)

  const BlankCuttingForm: CuttingForm := CuttingForm("", "", "", "")

  datatype CuttingField = FarmIdField | CuttingTypeField | ExpectedQuantityField | NotesField

  function SetCuttingField(f: CuttingForm, field: CuttingField, value: string): CuttingForm
  {
    match field
    case FarmIdField => f.(farmId := value)
    case CuttingTypeField => f.(cuttingType := value)
    case ExpectedQuantityField => f.(expectedQuantity := value)
    case NotesField => f.(notes := value)
  }

  /** A submit goes to the store only with a date, a farm and a cutting type. */
  predicate CanSubmit(date: Option<Date>, f: CuttingForm)
  {
    date.Some? && f.farmId != "" && f.cuttingType != ""
  }

  /** The inserted row. */
  datatype CuttingInsert = CuttingInsert(
    farmId: string,
    cuttingDate: string,
    cropType: string,
    expectedQuantity: Option<real>,
    notes: Option<string>,
    status: CuttingStatus)

  /** Every new schedule is "scheduled"; an empty quantity is `null` and so is one that does
      not parse, and an empty note is `null`. */
  function CuttingPayload(date: Date, f: CuttingForm): (r: CuttingInsert)
    ensures r.status == Scheduled && r.farmId == f.farmId && r.cropType == f.cuttingType
    ensures r.cuttingDate == IsoDate(date)
    ensures r.expectedQuantity.None? <==> f.expectedQuantity == "" || ParseFloat(f.expectedQuantity).None?
    ensures r.expectedQuantity.Some? ==> r.expectedQuantity == ParseFloat(f.expectedQuantity)
    ensures r.notes.None? <==> f.notes == ""
    ensures r.notes.Some? ==> r.notes.value == f.notes
  {
    CuttingInsert(f.farmId, IsoDate(date), f.cuttingType,
                  if f.expectedQuantity != "" then ParseFloat(f.expectedQuantity) else None,
                  if f.notes != "" then Some(f.notes) else None,
                  Scheduled)
  }

  /** The badge classes as written: the cases are the display words, while the store holds
      "scheduled", "in_progress" and "completed". */
  function StatusColor(status: string): (c: string)
    ensures c == DefaultColor <==> status != "Scheduled" && status != "In Progress" && status != "Completed"
  {
    assert "bg-warning/20 text-warning"[3] != DefaultColor[3];
    assert "bg-primary/20 text-primary"[3] != DefaultColor[3];
    assert "bg-success/20 text-success"[3] != DefaultColor[3];
    if status == "Scheduled" then "bg-warning/20 text-warning"
    else if status == "In Progress" then "bg-primary/20 text-primary"
    else if status == "Completed" then "bg-success/20 text-success"
    else DefaultColor
  }

  const DefaultColor: string := "bg-muted text-muted-foreground"

  /** No stored status matches a case, so every schedule gets the muted default badge. */
  lemma StoredStatusesGetDefault(s: CuttingStatus)
    ensures StatusColor(CuttingStatusText(s)) == DefaultColor
  {
    match s
    case Scheduled => assert CuttingStatusText(s)[0] == 's';
    case InProgress => assert CuttingStatusText(s)[0] == 'i';
    case Completed => assert CuttingStatusText(s)[0] == 'c';
  }

  /** The badge classes keyed on the stored status: never the default, and each the one
      the written cases meant for its display word. */
  function BadgeColor(s: CuttingStatus): (c: string)
    ensures c != DefaultColor
    ensures c == StatusColor(match s
                             case Scheduled => "Scheduled"
                             case InProgress => "In Progress"
                             case Completed => "Completed")
  {
    match s
    case Scheduled => "bg-warning/20 text-warning"
    case InProgress => "bg-primary/20 text-primary"
    case Completed => "bg-success/20 text-success"
  }

  /** Each stored status gets its own badge. */
  lemma BadgeColorsDistinct(s: CuttingStatus, t: CuttingStatus)
    ensures BadgeColor(s) == BadgeColor(t) <==> s == t
  {
    if s != t {
      assert BadgeColor(s)[3] != BadgeColor(t)[3];
    }
  }

  class CuttingPage {
    var selectedDate: Option<Date>
    var form: CuttingForm
    /** The schedules the page inserted, oldest first. */
    var inserted: seq<CuttingInsert>

    constructor ()
      ensures selectedDate == None && form == BlankCuttingForm && inserted == []
    {
      selectedDate, form, inserted := None, BlankCuttingForm, [];
    }

    method SelectDate(d: Option<Date>)
      modifies this
      ensures selectedDate == d && form == old(form) && inserted == old(inserted)
    {
      selectedDate := d;
    }

    method InputChange(field: CuttingField, value: string)
      modifies this
      ensures form == SetCuttingField(old(form), field, value)
      ensures selectedDate == old(selectedDate) && inserted == old(inserted)
    {
      form := SetCuttingField(form, field, value);
    }

    /** Rejected with no insert unless the guard holds; a store error changes nothing; a
        saved schedule clears the form and the date. */
    method Submit(storeOk: bool) returns (result: SubmitResult)
      modifies this
      ensures result == Rejected <==> !CanSubmit(old(selectedDate), old(form))
      ensures result == Saved <==> CanSubmit(old(selectedDate), old(form)) && storeOk
      ensures result == Saved ==>
                && inserted == old(inserted) + [CuttingPayload(old(selectedDate).value, old(form))]
                && form == BlankCuttingForm && selectedDate.None?
      ensures result != Saved ==>
                inserted == old(inserted) && form == old(form) && selectedDate == old(selectedDate)
    {
      if !CanSubmit(selectedDate, form) {
        return Rejected;
      }
      if !storeOk {
        return StoreFailed;
      }
      var row := CuttingPayload(selectedDate.value, form);
      inserted := inserted + [row];
      form := BlankCuttingForm;
      selectedDate := None;
      return Saved;
    }
  }
}
