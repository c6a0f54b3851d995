/** The farm list of src/pages/FarmList.tsx: the edit sheet and its update, the
    confirmed delete, and the summary cards. */
module FarmList {
  import opened Wrappers
  import opened Text
  import opened Lists
  import opened Records

  /** A number as the page holds it: `null` as the store returned it, `NaN` from a
      `parseFloat` that failed, or a finite number. */
  datatype JsNumber = Null | NaN | Finite(value: real)

  /** The number a stored column holds; the store has no `NaN`. */
  function FromColumn(o: Option<real>): (n: JsNumber)
    ensures n != NaN
  {
    if o.Some? then Finite(o.value) else Null
  }

  /** What `JSON.stringify` sends for the number: `NaN` goes out as `null`. */
  function ToColumn(n: JsNumber): (o: Option<real>)
    ensures o.None? <==> !n.Finite?
    ensures n.Finite? ==> o.value == n.value
  {
    if n.Finite? then Some(n.value) else None
  }

  /** `a + b` on numbers that may be `null`: `null` counts as 0 and `NaN` absorbs. */
  function JsAdd(a: JsNumber, b: JsNumber): (r: JsNumber)
    ensures r != Null
    ensures r == NaN <==> a == NaN || b == NaN
    ensures r.Finite? ==> r.value == OrZeroJs(a) + OrZeroJs(b)
  {
    if a == NaN || b == NaN then NaN else Finite(OrZeroJs(a) + OrZeroJs(b))
  }

  function OrZeroJs(n: JsNumber): real
  {
    if n.Finite? then n.value else 0.0
  }

  /** A farm as the page's list holds it: the stored row, with area and price as numbers
      the edit sheet may have set to `NaN`. */
  datatype FarmRow = FarmRow(
    id: string,
    farmId: string,
    ownerName: string,
    location: string,
    area: JsNumber,
    price: JsNumber,
    leaseStartDate: string,
    leaseEndDate: string,
    guarantor: string,
    cropType: string,
    status: Status)

  /** The fetched row as the page holds it; reading it back gives the stored row. */
  function FromStore(f: Farm): (r: FarmRow)
    ensures r.area != NaN && r.price != NaN
    ensures ToStore(r) == f
  {
    FarmRow(f.id, f.farmId, f.ownerName, f.location, FromColumn(f.area), FromColumn(f.price),
            f.leaseStartDate, f.leaseEndDate, f.guarantor, f.cropType, f.status)
  }

  /** The row as the store would keep it, `NaN` written as `null`. */
  function ToStore(r: FarmRow): (f: Farm)
    ensures f.id == r.id && f.ownerName == r.ownerName && f.status == r.status
    ensures f.area.None? <==> !r.area.Finite?
    ensures f.price.None? <==> !r.price.Finite?
  {
    Farm(r.id, r.farmId, r.ownerName, r.location, ToColumn(r.area), ToColumn(r.price),
         r.leaseStartDate, r.leaseEndDate, r.guarantor, r.cropType, r.status)
  }

  /** A page row is the stored row read back exactly when neither number is `NaN`. */
  lemma StoreRoundTrip(r: FarmRow)
    ensures FromStore(ToStore(r)) == r <==> r.area != NaN && r.price != NaN
  {
    if r.area != NaN && r.price != NaN {
      assert FromColumn(ToColumn(r.area)) == r.area;
      assert FromColumn(ToColumn(r.price)) == r.price;
    }
  }

  function FarmRowKey(f: FarmRow): string { f.id }

  /** One input of the edit sheet; area and price are typed text read by `parseFloat`. */
  datatype FarmEdit =
    | SetOwnerName(ownerName: string)
    | SetLocation(location: string)
    | SetArea(areaText: string)
    | SetPrice(priceText: string)
    | SetStatus(status: Status)

  /** `parseFloat` of typed text: the number, or `NaN` when it does not parse. */
  function ParseNumber(t: string): (n: JsNumber)
    ensures n == NaN <==> ParseFloat(t).None?
    ensures n.Finite? ==> Some(n.value) == ParseFloat(t)
  {
    if ParseFloat(t).Some? then Finite(ParseFloat(t).value) else NaN
  }

  /** One input changes that field of the edited farm, and the six columns the sheet does
      not show stay as they were. */
  function ApplyEdit(f: FarmRow, e: FarmEdit): (r: FarmRow)
    ensures SameFixedColumns(r, f)
    ensures e.SetArea? ==> r.area == ParseNumber(e.areaText) && r.price == f.price
    ensures e.SetPrice? ==> r.price == ParseNumber(e.priceText) && r.area == f.area
    ensures e.SetOwnerName? ==> r == f.(ownerName := e.ownerName)
  {
    match e
    case SetOwnerName(n) => f.(ownerName := n)
    case SetLocation(l) => f.(location := l)
    case SetArea(t) => f.(area := ParseNumber(t))
    case SetPrice(t) => f.(price := ParseNumber(t))
    case SetStatus(s) => f.(status := s)
  }

  /** The columns the sheet never edits. */
  predicate SameFixedColumns(a: FarmRow, b: FarmRow)
  {
    a.id == b.id && a.farmId == b.farmId && a.leaseStartDate == b.leaseStartDate
    && a.leaseEndDate == b.leaseEndDate && a.guarantor == b.guarantor && a.cropType == b.cropType
  }

  function ApplyEdits(f: FarmRow, edits: seq<FarmEdit>): (r: FarmRow)
    ensures SameFixedColumns(r, f)
    decreases |edits|
  {
    if edits == [] then f else ApplyEdits(ApplyEdit(f, edits[0]), edits[1..])
  }

  /** The five columns the update sends. */
  datatype FarmColumns = FarmColumns(ownerName: string, area: Option<real>, price: Option<real>,
                                     location: string, status: Status)

  /** The update's body: the five edited fields, with `NaN` sent as `null`. */
  function ColumnsOf(f: FarmRow): (c: FarmColumns)
    ensures c.area.None? <==> !f.area.Finite?
    ensures c.price.None? <==> !f.price.Finite?
    ensures c.ownerName == f.ownerName && c.location == f.location && c.status == f.status
  {
    FarmColumns(f.ownerName, ToColumn(f.area), ToColumn(f.price), f.location, f.status)
  }

  /** The stored row after the update: those five columns and nothing else change. */
  function Updated(stored: Farm, c: FarmColumns): Farm
  {
    stored.(ownerName := c.ownerName, area := c.area, price := c.price, location := c.location, status := c.status)
  }

  /** The sheet edits only the five columns the update sends, so after the update the
      store keeps the page's farm with `NaN` written as `null`; the page's list holds the
      store's row exactly when the edits left no `NaN`. */
  lemma StoreMatchesList(stored: Farm, edits: seq<FarmEdit>)
    ensures var r := ApplyEdits(FromStore(stored), edits);
            Updated(stored, ColumnsOf(r)) == ToStore(r)
            && (FromStore(Updated(stored, ColumnsOf(r))) == r <==> r.area != NaN && r.price != NaN)
  {
    var r := ApplyEdits(FromStore(stored), edits);
    assert SameFixedColumns(r, FromStore(stored));
    StoreRoundTrip(r);
  }

  predicate FarmIsActive(f: FarmRow) { f.status == Active }

  function AreaOf(f: FarmRow): real { OrZeroJs(f.area) }

  function PriceOf(f: FarmRow): real { OrZeroJs(f.price) }

  function AreaField(f: FarmRow): JsNumber { f.area }

  function PriceField(f: FarmRow): JsNumber { f.price }

  /** The number of one field, `null` counted as 0. */
  function NullAsZero(x: FarmRow -> JsNumber): FarmRow -> real
  {
    f => OrZeroJs(x(f))
  }

  /** `farms.reduce((sum, farm) => sum + farm.x, 0)`: `NaN` exactly when some farm's
      number is `NaN`, and otherwise the sum with `null` counted as 0. */
  function JsSum(farms: seq<FarmRow>, x: FarmRow -> JsNumber): (r: JsNumber)
    ensures r != Null
    ensures r == NaN <==> exists i :: 0 <= i < |farms| && x(farms[i]) == NaN
    ensures r.Finite? ==> r.value == Sum(farms, NullAsZero(x))
  {
    if farms == [] then Finite(0.0)
    else
      var init := farms[..|farms| - 1];
      assert forall i :: 0 <= i < |init| ==> init[i] == farms[i];
      JsAdd(JsSum(init, x), x(farms[|farms| - 1]))
  }

  /** The summary cards: active farms, total area, total value. */
  function ActiveFarms(farms: seq<FarmRow>): (n: nat)
    ensures n == Count(farms, FarmIsActive) && n <= |farms|
    ensures n == |farms| <==> forall i :: 0 <= i < |farms| ==> farms[i].status == Active
    ensures n == 0 <==> forall i :: 0 <= i < |farms| ==> farms[i].status != Active
  {
    CountBounds(farms, FarmIsActive);
    |Filter(farms, FarmIsActive)|
  }

  function TotalArea(farms: seq<FarmRow>): (r: JsNumber)
    ensures r == NaN <==> exists i :: 0 <= i < |farms| && farms[i].area == NaN
    ensures r.Finite? ==> r.value == Sum(farms, AreaOf)
  {
    var t := JsSum(farms, AreaField);
    SumSameTerms(farms, NullAsZero(AreaField), AreaOf);
    t
  }

  function TotalValue(farms: seq<FarmRow>): (r: JsNumber)
    ensures r == NaN <==> exists i :: 0 <= i < |farms| && farms[i].price == NaN
    ensures r.Finite? ==> r.value == Sum(farms, PriceOf)
  {
    var t := JsSum(farms, PriceField);
    SumSameTerms(farms, NullAsZero(PriceField), PriceOf);
    t
  }

  /** Replacing one farm by an edited version without `NaN` shifts finite totals by the
      differences; an edited `NaN` turns the total into `NaN`. */
  lemma UpdateShiftsTotals(farms: seq<FarmRow>, i: nat, edited: FarmRow)
    requires i < |farms|
    ensures TotalArea(farms).Finite? && edited.area != NaN ==>
              TotalArea(farms[i := edited]) == Finite(TotalArea(farms).value - AreaOf(farms[i]) + AreaOf(edited))
    ensures TotalValue(farms).Finite? && edited.price != NaN ==>
              TotalValue(farms[i := edited]) == Finite(TotalValue(farms).value - PriceOf(farms[i]) + PriceOf(edited))
    ensures edited.area == NaN ==> TotalArea(farms[i := edited]) == NaN
    ensures edited.price == NaN ==> TotalValue(farms[i := edited]) == NaN
  {
    var s := farms[i := edited];
    assert s[i] == edited;
    assert s[..i] == farms[..i] && s[i + 1..] == farms[i + 1..];
    UpdateShiftsArea(farms, i, edited, s);
    UpdateShiftsValue(farms, i, edited, s);
  }

  lemma UpdateShiftsArea(farms: seq<FarmRow>, i: nat, edited: FarmRow, s: seq<FarmRow>)
    requires i < |farms| && s == farms[i := edited]
    requires s[..i] == farms[..i] && s[i + 1..] == farms[i + 1..]
    ensures TotalArea(farms).Finite? && edited.area != NaN ==>
              TotalArea(s) == Finite(TotalArea(farms).value - AreaOf(farms[i]) + AreaOf(edited))
  {
    if TotalArea(farms).Finite? && edited.area != NaN {
      SumWithout(farms, i, AreaOf);
      SumWithout(s, i, AreaOf);
      forall j | 0 <= j < |s| ensures s[j].area != NaN {
        if j != i {
          assert s[j] == farms[j];
        }
      }
    }
  }

  lemma UpdateShiftsValue(farms: seq<FarmRow>, i: nat, edited: FarmRow, s: seq<FarmRow>)
    requires i < |farms| && s == farms[i := edited]
    requires s[..i] == farms[..i] && s[i + 1..] == farms[i + 1..]
    ensures TotalValue(farms).Finite? && edited.price != NaN ==>
              TotalValue(s) == Finite(TotalValue(farms).value - PriceOf(farms[i]) + PriceOf(edited))
  {
    if TotalValue(farms).Finite? && edited.price != NaN {
      SumWithout(farms, i, PriceOf);
      SumWithout(s, i, PriceOf);
      forall j | 0 <= j < |s| ensures s[j].price != NaN {
        if j != i {
          assert s[j] == farms[j];
        }
      }
    }
  }

  class FarmListPage {
    var farms: seq<FarmRow>
    var editForm: Option<FarmRow>
    var isEditOpen: bool
    /** The updates the store accepted, oldest first. */
    var updates: seq<(string, FarmColumns)>
    /** The farm whose view dialog is open, if any. */
    var viewing: Option<FarmRow>
    /** Set once a render has thrown; the page is then gone and nothing changes it. */
    var crashed: bool

    constructor ()
      ensures farms == [] && editForm == None && !isEditOpen && updates == []
      ensures viewing == None && !crashed
    {
      farms, editForm, isEditOpen, updates := [], None, false, [];
      viewing, crashed := None, false;
    }

    /** The mount fetch; a failed query leaves the list as it was. */
    method Load(fetched: Option<seq<Farm>>)
      modifies this
      ensures old(crashed) || fetched.None? ==> farms == old(farms)
      ensures !old(crashed) && fetched.Some? ==>
                |farms| == |fetched.value| && forall i :: 0 <= i < |farms| ==> farms[i] == FromStore(fetched.value[i])
      ensures editForm == old(editForm) && isEditOpen == old(isEditOpen) && updates == old(updates)
      ensures viewing == old(viewing) && crashed == old(crashed)
    {
      if !crashed && fetched.Some? {
        var rows := fetched.value;
        farms := seq(|rows|, i requires 0 <= i < |rows| => FromStore(rows[i]));
      }
    }

    /** `handleView`: the dialog opens on the farm and renders its price with
        `toLocaleString`, which throws on `null` (a `NaN` price renders as `NaN`). */
    method View(farm: FarmRow)
      modifies this
      ensures crashed == (old(crashed) || farm.price == Null)
      ensures viewing == if old(crashed) then old(viewing) else Some(farm)
      ensures farms == old(farms) && editForm == old(editForm) && isEditOpen == old(isEditOpen)
      ensures updates == old(updates)
    {
      if !crashed {
        viewing := Some(farm);
        if farm.price == Null {
          crashed := true;
        }
      }
    }

    /** `handleEdit`: the sheet opens on a copy of the farm. */
    method Edit(farm: FarmRow)
      modifies this
      ensures !old(crashed) ==> editForm == Some(farm) && isEditOpen
      ensures old(crashed) ==> editForm == old(editForm) && isEditOpen == old(isEditOpen)
      ensures farms == old(farms) && updates == old(updates)
      ensures viewing == old(viewing) && crashed == old(crashed)
    {
      if !crashed {
        editForm := Some(farm);
        isEditOpen := true;
      }
    }

    /** One input of the sheet, which is shown only while there is a farm to edit. */
    method EditField(e: FarmEdit)
      modifies this
      ensures editForm == if !old(crashed) && old(editForm).Some? then Some(ApplyEdit(old(editForm).value, e))
                          else old(editForm)
      ensures farms == old(farms) && isEditOpen == old(isEditOpen) && updates == old(updates)
      ensures viewing == old(viewing) && crashed == old(crashed)
    {
      if !crashed && editForm.Some? {
        editForm := Some(ApplyEdit(editForm.value, e));
      }
    }

    /** `handleUpdateFarm`: with no farm being edited, or when the store refuses, nothing
        changes. Otherwise the five columns go to the store, the farm with that id is
        replaced by the edited one, which with distinct ids changes that farm alone,
        and the sheet closes. */
    method UpdateFarm(storeOk: bool)
      modifies this
      ensures old(crashed) || old(editForm).None? || !storeOk ==>
                farms == old(farms) && editForm == old(editForm) && isEditOpen == old(isEditOpen)
                && updates == old(updates)
      ensures !old(crashed) && old(editForm).Some? && storeOk ==>
                var f := old(editForm).value;
                && updates == old(updates) + [(f.id, ColumnsOf(f))]
                && farms == ReplaceKey(old(farms), FarmRowKey, f.id, f)
                && (UniqueKeys(old(farms), FarmRowKey) ==> ReplacedExactly(old(farms), farms, FarmRowKey, f.id, f))
                && editForm.None? && !isEditOpen
      ensures viewing == old(viewing) && crashed == old(crashed)
    {
      if crashed || editForm.None? || !storeOk {
        return;
      }
      var f := editForm.value;
      if UniqueKeys(farms, FarmRowKey) {
        ReplaceUniqueKey(farms, FarmRowKey, f.id, f);
      }
      updates := updates + [(f.id, ColumnsOf(f))];
      farms := ReplaceKey(farms, FarmRowKey, f.id, f);
      isEditOpen := false;
      editForm := None;
    }

    /** `handleDelete`: nothing without confirmation or when the store refuses; otherwise
        exactly that farm leaves the list. */
    method Delete(id: string, confirmed: bool, storeOk: bool)
      modifies this
      ensures farms == if !old(crashed) && confirmed && storeOk then RemoveKey(old(farms), FarmRowKey, id)
                       else old(farms)
      ensures UniqueKeys(old(farms), FarmRowKey) ==>
                if !old(crashed) && confirmed && storeOk then RemovedExactly(old(farms), farms, FarmRowKey, id)
                else farms == old(farms)
      ensures editForm == old(editForm) && isEditOpen == old(isEditOpen) && updates == old(updates)
      ensures viewing == old(viewing) && crashed == old(crashed)
    {
      if UniqueKeys(farms, FarmRowKey) {
        RemoveUniqueKey(farms, FarmRowKey, id);
      }
      if !crashed && confirmed && storeOk {
        farms := RemoveKey(farms, FarmRowKey, id);
      }
    }
  }
}
