/** The farm registration page of src/pages/NewFarm.tsx: the `FARM-<year>-<n>` id, the
    lease dates (today, and today moved on by the lease years), the row inserted into the
    farms table, and the reset under a fresh id. The year, today and the random suffix
    are parameters. */
module NewFarm {
  import opened Wrappers
  import opened Text
  import opened Records
  import opened Ids

  /** `FARM-<year>-<suffix>`. */
  function NewFarmId(year: nat, suffix: nat): (id: string)
    requires RandomSuffix(suffix)
    ensures |Split(id, '-')| == 3
    ensures Split(id, '-')[0] == "FARM" && Split(id, '-')[1] == NatToString(year)
    ensures ParseInt(Split(id, '-')[2]) == Some(suffix as int)
  {
    RandomId("FARM", year, suffix)
  }

  /** The form; every field is text. */
  datatype FarmForm = FarmForm(
    farmId: string,
    ownerName: string,
    location: string,
    cropType: string,
    area: string,
    farmPrice: string,
    leaseYears: string,
    guarantor: string)

  /** A fresh form: the given id, crop "Mango", every other field empty. */
  function BlankFarmForm(farmId: string): FarmForm
  {
    FarmForm(farmId, "", "", "Mango", "", "", "", "")
  }

  /** The fields `handleInputChange` is called with. */
  datatype FarmField = OwnerNameField | LocationField | AreaField | FarmPriceField
                     | LeaseYearsField | GuarantorField

  function SetFarmField(f: FarmForm, field: FarmField, value: string): FarmForm
  {
    match field
    case OwnerNameField => f.(ownerName := value)
    case LocationField => f.(location := value)
    case AreaField => f.(area := value)
    case FarmPriceField => f.(farmPrice := value)
    case LeaseYearsField => f.(leaseYears := value)
    case GuarantorField => f.(guarantor := value)
  }

  /** `new Date(new Date().setFullYear(year + parseInt(leaseYears)))`: the same month and
      day, the year moved on. `None` when the lease years do not parse, since the invalid
      date then makes `toISOString` throw, and when the year would fall before year 0. */
  function LeaseEnd(today: Date, leaseYears: string): (r: Option<Date>)
    ensures r.Some? <==> ParseInt(leaseYears).Some? && today.year as int + ParseInt(leaseYears).value >= 0
    ensures r.Some? ==> r.value.year as int == today.year as int + ParseInt(leaseYears).value
                        && r.value.month == today.month && r.value.day == today.day
  {
    match ParseInt(leaseYears)
    case None => None
    case Some(n) => if today.year as int + n >= 0 then Some(today.(year := (today.year as int + n) as nat)) else None
  }

  /** The row inserted into the farms table. */
  datatype FarmInsert = FarmInsert(
    farmId: string,
    ownerName: string,
    location: string,
    area: Option<real>,
    price: Option<real>,
    leaseStartDate: string,
    leaseEndDate: string,
    guarantor: string,
    cropType: string,
    status: Status)

  /** The insert payload, or `None` when the lease end cannot be computed and the submit
      throws before any store call. */
  function FarmPayload(f: FarmForm, today: Date): (r: Option<FarmInsert>)
    ensures r.Some? <==> LeaseEnd(today, f.leaseYears).Some?
    ensures r.Some? ==>
              && r.value.farmId == f.farmId && r.value.ownerName == f.ownerName
              && r.value.location == f.location && r.value.guarantor == f.guarantor
              && r.value.cropType == f.cropType && r.value.status == Active
              && r.value.area == ParseFloat(f.area) && r.value.price == ParseFloat(f.farmPrice)
              && r.value.leaseStartDate == IsoDate(today)
              && r.value.leaseEndDate == IsoDate(LeaseEnd(today, f.leaseYears).value)
  {
    match LeaseEnd(today, f.leaseYears)
    case None => None
    case Some(end) =>
      Some(FarmInsert(f.farmId, f.ownerName, f.location, ParseFloat(f.area), ParseFloat(f.farmPrice),
                      IsoDate(today), IsoDate(end), f.guarantor, f.cropType, Active))
  }

  /** The stored lease dates read back as today and a date exactly `leaseYears` years later:
      the year numerals differ by the lease years, the month and day numerals agree. */
  lemma LeaseDatesReadBack(f: FarmForm, today: Date)
    requires FarmPayload(f, today).Some?
    ensures var p := FarmPayload(f, today).value;
            var start := Split(p.leaseStartDate, '-');
            var end := Split(p.leaseEndDate, '-');
            && |start| == 3 && |end| == 3
            && ParseInt(start[0]).Some? && ParseInt(end[0]).Some?
            && ParseInt(end[0]).value - ParseInt(start[0]).value == ParseInt(f.leaseYears).value
            && end[1] == start[1] && end[2] == start[2]
  {
    var e := LeaseEnd(today, f.leaseYears).value;
    IsoDateFields(today);
    IsoDateFields(e);
  }

  /** Area and price typed as whole numbers are stored as those numbers. */
  lemma WholeNumbersStored(f: FarmForm, today: Date, area: nat, price: nat)
    requires f.area == NatToString(area) && f.farmPrice == NatToString(price)
    requires FarmPayload(f, today).Some?
    ensures FarmPayload(f, today).value.area == Some(area as real)
    ensures FarmPayload(f, today).value.price == Some(price as real)
  {
    ParseFloatOfNat(area);
    ParseFloatOfNat(price);
  }

  class NewFarmPage {
    var form: FarmForm
    /** The inserts this page has made, oldest first. */
    var inserted: seq<FarmInsert>

    constructor (year: nat, suffix: nat)
      requires RandomSuffix(suffix)
      ensures form == BlankFarmForm(NewFarmId(year, suffix)) && inserted == []
    {
      form := BlankFarmForm(NewFarmId(year, suffix));
      inserted := [];
    }

    method InputChange(field: FarmField, value: string)
      modifies this
      ensures form == SetFarmField(old(form), field, value)
      ensures inserted == old(inserted)
    {
      form := SetFarmField(form, field, value);
    }

    /** Rejected with no store call when the lease end cannot be computed; a store error
        changes nothing; a saved farm resets the form under the id `FARM-<year>-<suffix>`. */
    method Submit(storeOk: bool, today: Date, year: nat, suffix: nat) returns (result: SubmitResult)
      requires RandomSuffix(suffix)
      modifies this
      ensures result == Rejected <==> FarmPayload(old(form), today).None?
      ensures result == Saved <==> FarmPayload(old(form), today).Some? && storeOk
      ensures result == Saved ==>
                inserted == old(inserted) + [FarmPayload(old(form), today).value]
                && form == BlankFarmForm(NewFarmId(year, suffix))
      ensures result != Saved ==> inserted == old(inserted) && form == old(form)
    {
      var p := FarmPayload(form, today);
      if p.None? {
        return Rejected;
      }
      if !storeOk {
        return StoreFailed;
      }
      Save(p.value, year, suffix);
      return Saved;
    }

    /** A saved farm: appended, and the form reset under a fresh id. */
    method Save(row: FarmInsert, year: nat, suffix: nat)
      requires RandomSuffix(suffix)
      modifies this
      ensures inserted == old(inserted) + [row] && form == BlankFarmForm(NewFarmId(year, suffix))
    {
      inserted := inserted + [row];
      form := BlankFarmForm(NewFarmId(year, suffix));
    }
  }
}
