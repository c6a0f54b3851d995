/** The voucher form of src/pages/NewVoucher.tsx: voucher ids `VC-F-<year>-<nnn>` for
    farms and `VC-A-<year>-<nnn>` otherwise, one sequence counter per kind seeded from the
    latest voucher of that kind this year, the linked-to switch, and the submit that
    either inserts a new voucher or updates the one being edited. The year and today's
    date, as the `YYYY-MM-DD` text of `toISOString`, are parameters; the vouchers table
    is its `voucher_id` column in creation order. */
module NewVoucher {
  import opened Wrappers
  import opened Text
  import opened Records
  import opened Ids

  /** `linkedTo === "farm" ? "VC-F" : "VC-A"`. */
  function KindPrefix(linkedTo: string): string
  {
    if linkedTo == "farm" then "VC-F" else "VC-A"
  }

  /** `generateVoucherId`. */
  function GenerateVoucherId(linkedTo: string, year: nat, num: nat): (id: string)
    ensures Split(id, '-') == ["VC", [KindPrefix(linkedTo)[3]], NatToString(year), Seq3(num)]
  {
    VoucherIdPieces(linkedTo, year, num);
    YearId(KindPrefix(linkedTo), year, num)
  }

  /** The text before the `%` of the pattern `VC-F-<year>-%`. */
  function YearPattern(prefix: string, year: nat): string
  {
    prefix + "-" + NatToString(year) + "-"
  }

  /** The most recently created id that starts with `p`. */
  function LastWithPrefix(ids: seq<string>, p: string): (r: Option<string>)
    ensures r.None? <==> forall i :: 0 <= i < |ids| ==> !(p <= ids[i])
    ensures r.Some? ==> exists i :: 0 <= i < |ids| && ids[i] == r.value && p <= ids[i]
                                    && forall j :: i < j < |ids| ==> !(p <= ids[j])
  {
    if ids == [] then None
    else if p <= ids[|ids| - 1] then Some(ids[|ids| - 1])
    else LastWithPrefix(ids[..|ids| - 1], p)
  }

  /** `parseInt(id.split('-')[3]) || 0`: the number after the third dash, 0 when it does
      not parse. No piece of a split holds a dash, so it is never negative. */
  function SequencePart(id: string): (n: int)
    ensures n >= 0
  {
    var parts := Split(id, '-');
    SplitPieces(id, '-');
    if |parts| > 3 && ParseInt(parts[3]).Some? then
      ParseIntNonNegative(parts[3]);
      ParseInt(parts[3]).value
    else 0
  }

  /** The counter after the mount query for one kind: one past the latest voucher's
      number this year, or `current` when there is none. */
  function NextNumber(ids: seq<string>, prefix: string, year: nat, current: nat): (n: nat)
    ensures (forall i :: 0 <= i < |ids| ==> !(YearPattern(prefix, year) <= ids[i])) ==> n == current
    ensures (exists i :: 0 <= i < |ids| && YearPattern(prefix, year) <= ids[i]) ==>
              exists i :: 0 <= i < |ids| && YearPattern(prefix, year) <= ids[i]
                          && n == SequencePart(ids[i]) + 1
                          && forall j :: i < j < |ids| ==> !(YearPattern(prefix, year) <= ids[j])
  {
    match LastWithPrefix(ids, YearPattern(prefix, year))
    case None => current
    case Some(id) => SequencePart(id) + 1
  }

  lemma SplitKindPrefix(linkedTo: string)
    ensures Split(KindPrefix(linkedTo), '-') == ["VC", [KindPrefix(linkedTo)[3]]]
  {
    var k := KindPrefix(linkedTo);
    assert k == "VC" + ['-'] + [k[3]];
    SplitConcat("VC", [k[3]], '-');
    SplitPlain("VC", '-');
    SplitPlain([k[3]], '-');
  }

  /** A voucher id splits into `VC`, the kind letter, the year and the number. */
  lemma VoucherIdPieces(linkedTo: string, year: nat, n: nat)
    ensures Split(YearId(KindPrefix(linkedTo), year, n), '-')
         == ["VC", [KindPrefix(linkedTo)[3]], NatToString(year), Seq3(n)]
  {
    var k := KindPrefix(linkedTo);
    YearIdSplit(k, year, n);
    SplitKindPrefix(linkedTo);
    assert ["VC", [k[3]]] + [NatToString(year), Seq3(n)] == ["VC", [k[3]], NatToString(year), Seq3(n)];
  }

  /** A generated id matches its own kind's pattern for the year, and its number reads
      back from it. */
  lemma GeneratedIdReadsBack(linkedTo: string, year: nat, n: nat)
    ensures YearPattern(KindPrefix(linkedTo), year) <= GenerateVoucherId(linkedTo, year, n)
    ensures SequencePart(GenerateVoucherId(linkedTo, year, n)) == n
  {
    GeneratedIdMatches(linkedTo, year, n);
    GeneratedIdNumber(linkedTo, year, n);
  }

  lemma GeneratedIdMatches(linkedTo: string, year: nat, n: nat)
    ensures YearPattern(KindPrefix(linkedTo), year) <= GenerateVoucherId(linkedTo, year, n)
  {
    var p := YearPattern(KindPrefix(linkedTo), year);
    assert GenerateVoucherId(linkedTo, year, n) == p + Seq3(n);
    PrefixOfConcat(p, Seq3(n));
  }

  lemma PrefixOfConcat(p: string, q: string)
    ensures p <= p + q
  {
    assert (p + q)[..|p|] == p;
  }

  lemma GeneratedIdNumber(linkedTo: string, year: nat, n: nat)
    ensures SequencePart(GenerateVoucherId(linkedTo, year, n)) == n
  {
    Seq3Digits(n);
  }

  /** After a voucher numbered `n` is created, the next number its kind reads is `n + 1`. */
  lemma NextNumberAfterCreate(ids: seq<string>, linkedTo: string, year: nat, n: nat, current: nat)
    ensures NextNumber(ids + [GenerateVoucherId(linkedTo, year, n)], KindPrefix(linkedTo), year, current) == n + 1
  {
    GeneratedIdReadsBack(linkedTo, year, n);
  }

  /** A voucher of the other kind leaves a kind's next number unchanged. */
  lemma NextNumberOtherKind(ids: seq<string>, linkedTo: string, other: string, year: nat, n: nat, current: nat)
    requires KindPrefix(linkedTo) != KindPrefix(other)
    ensures NextNumber(ids + [GenerateVoucherId(other, year, n)], KindPrefix(linkedTo), year, current)
         == NextNumber(ids, KindPrefix(linkedTo), year, current)
  {
    var p := YearPattern(KindPrefix(linkedTo), year);
    var id := GenerateVoucherId(other, year, n);
    KindLetter(linkedTo, year, n);
    KindLetter(other, year, n);
    assert p[3] != id[3];
    LastWithPrefixSkips(ids, id, p);
  }

  /** The fourth character of a pattern and of an id is the kind letter. */
  lemma KindLetter(linkedTo: string, year: nat, n: nat)
    ensures |YearPattern(KindPrefix(linkedTo), year)| > 4 && |GenerateVoucherId(linkedTo, year, n)| > 4
    ensures YearPattern(KindPrefix(linkedTo), year)[3] == KindPrefix(linkedTo)[3]
    ensures GenerateVoucherId(linkedTo, year, n)[3] == KindPrefix(linkedTo)[3]
  {
  }

  /** A last id that does not match is passed over. */
  lemma LastWithPrefixSkips(ids: seq<string>, id: string, p: string)
    requires |p| > 3 && |id| > 3 && p[3] != id[3]
    ensures LastWithPrefix(ids + [id], p) == LastWithPrefix(ids, p)
  {
    assert !(p <= id);
    assert (ids + [id])[..|ids|] == ids;
  }

  /** The form; `amount` is typed text, or the loaded number when editing. */
  datatype VoucherForm = VoucherForm(
    voucherId: string,
    linkedTo: string,
    linkedId: string,
    kind: string,
    reason: string,
    reasonDescription: string,
    mode: string,
    amount: Amount,
    date: string)

  /** All fields blank, the date today's `YYYY-MM-DD` text. */
  function BlankVoucherForm(today: string): VoucherForm
  {
    VoucherForm("", "", "", "", "", "", "", Typed(""), today)
  }

  /** The form for the voucher being edited; `amount.toString()` throws on a `null`
      amount, and then there is no form. Otherwise, left untouched, the form writes back
      exactly the voucher's own columns. */
  function EditForm(v: Voucher): (r: Option<VoucherForm>)
    ensures r.None? <==> v.amount.None?
    ensures r.Some? ==> r.value.voucherId == v.voucherId
    ensures r.Some? ==> Columns(r.value)
                        == VoucherColumns(EntityText(v.linkedTo), v.linkedId, VoucherTypeText(v.kind),
                                          v.date, v.reason, v.description.GetOr(""),
                                          PaymentModeText(v.paymentMode), v.amount)
  {
    if v.amount.None? then None
    else Some(VoucherForm(v.voucherId, EntityText(v.linkedTo), v.linkedId, VoucherTypeText(v.kind),
                          v.reason, v.description.GetOr(""), PaymentModeText(v.paymentMode),
                          Loaded(v.amount.value), v.date))
  }

  /** The columns both the insert and the update write. */
  datatype VoucherColumns = VoucherColumns(
    linkedTo: string,
    linkedId: string,
    kind: string,
    date: string,
    reason: string,
    description: string,
    paymentMode: string,
    amount: Option<real>)

  /** The form's fields under their column names; the amount is the field's number, or
      `null` for a typed text that does not parse. A loaded amount is written unchanged. */
  function Columns(f: VoucherForm): (c: VoucherColumns)
    ensures c.amount == AmountValue(f.amount)
    ensures f.amount.Loaded? ==> c.amount == Some(f.amount.number)
    ensures c.description == f.reasonDescription && c.kind == f.kind && c.paymentMode == f.mode
  {
    VoucherColumns(f.linkedTo, f.linkedId, f.kind, f.date, f.reason, f.reasonDescription, f.mode,
                   AmountValue(f.amount))
  }

  datatype VoucherInsert = VoucherInsert(voucherId: string, columns: VoucherColumns)

  /** An update addressed by row id; it has no `voucher_id` column. */
  datatype VoucherUpdate = VoucherUpdate(id: string, columns: VoucherColumns)

  class NewVoucherPage {
    /** The voucher passed in to edit, if any. */
    const editVoucher: Option<Voucher>
    var nextFarmNumber: nat
    var nextAgentNumber: nat
    var form: VoucherForm
    var inserts: seq<VoucherInsert>
    var updates: seq<VoucherUpdate>
    /** Set when the edit effect threw: React then unmounts the page, and nothing the
        page would do afterwards happens. */
    var crashed: bool

    constructor (edit: Option<Voucher>, today: string)
      ensures editVoucher == edit && nextFarmNumber == 1 && nextAgentNumber == 1
      ensures form == BlankVoucherForm(today) && inserts == [] && updates == [] && !crashed
    {
      editVoucher := edit;
      nextFarmNumber := 1;
      nextAgentNumber := 1;
      form := BlankVoucherForm(today);
      inserts := [];
      updates := [];
      crashed := false;
    }

    /** The mount query: each counter becomes one past the latest number of its kind this
        year, and stays put when there is no such voucher. Its answer is dropped once the
        page has crashed. */
    method FetchNumbers(voucherIds: seq<string>, year: nat)
      modifies this
      ensures !crashed ==> nextFarmNumber == NextNumber(voucherIds, "VC-F", year, old(nextFarmNumber))
      ensures !crashed ==> nextAgentNumber == NextNumber(voucherIds, "VC-A", year, old(nextAgentNumber))
      ensures crashed ==> nextFarmNumber == old(nextFarmNumber) && nextAgentNumber == old(nextAgentNumber)
      ensures form == old(form) && inserts == old(inserts) && updates == old(updates)
      ensures crashed == old(crashed)
    {
      if crashed {
        return;
      }
      nextFarmNumber := NextNumber(voucherIds, "VC-F", year, nextFarmNumber);
      nextAgentNumber := NextNumber(voucherIds, "VC-A", year, nextAgentNumber);
    }

    /** The edit effect: the form takes the edited voucher's fields. A voucher with a
        `null` amount makes the effect throw, and the page crashes with its form as it was. */
    method LoadEdit()
      modifies this
      ensures form == if !old(crashed) && editVoucher.Some? && EditForm(editVoucher.value).Some?
                      then EditForm(editVoucher.value).value else old(form)
      ensures crashed == (old(crashed) || (editVoucher.Some? && editVoucher.value.amount.None?))
      ensures nextFarmNumber == old(nextFarmNumber) && nextAgentNumber == old(nextAgentNumber)
      ensures inserts == old(inserts) && updates == old(updates)
    {
      if crashed {
        return;
      }
      if editVoucher.Some? {
        var f := EditForm(editVoucher.value);
        if f.Some? {
          form := f.value;
        } else {
          crashed := true;
        }
      }
    }

    /** Choosing what the voucher is linked to clears the linked id, sets the type to
        expense for a farm and income otherwise, and takes the id from that kind's counter. */
    method HandleLinkedToChange(value: string, year: nat)
      modifies this
      ensures old(crashed) ==> form == old(form)
      ensures crashed == old(crashed)
      ensures var num := if value == "farm" then nextFarmNumber else nextAgentNumber;
              !old(crashed) ==> form == old(form).(linkedTo := value, linkedId := "",
                                 kind := if value == "farm" then "expense" else "income",
                                 voucherId := GenerateVoucherId(value, year, num))
      ensures nextFarmNumber == old(nextFarmNumber) && nextAgentNumber == old(nextAgentNumber)
      ensures inserts == old(inserts) && updates == old(updates)
    {
      if crashed {
        return;
      }
      var num := if value == "farm" then nextFarmNumber else nextAgentNumber;
      form := form.(linkedTo := value, linkedId := "",
                    kind := if value == "farm" then "expense" else "income",
                    voucherId := GenerateVoucherId(value, year, num));
    }

    /** In edit mode: one update of the edited row, leaving its voucher id alone. Otherwise:
        one insert with the form's voucher id; then only the counter of the linked kind
        goes up, by one, and the form is blank again with today's date. A store error
        changes nothing, and a crashed page has no submit button: nothing is sent. */
    method Submit(storeOk: bool, today: string) returns (result: SubmitResult)
      modifies this
      ensures old(crashed) ==> result == Unmounted && inserts == old(inserts) && updates == old(updates)
                               && form == old(form) && nextFarmNumber == old(nextFarmNumber)
                               && nextAgentNumber == old(nextAgentNumber)
      ensures crashed == old(crashed)
      ensures !old(crashed) ==> result == (if storeOk then Saved else StoreFailed)
      ensures !old(crashed) && editVoucher.Some? ==>
                inserts == old(inserts) && form == old(form)
                && nextFarmNumber == old(nextFarmNumber) && nextAgentNumber == old(nextAgentNumber)
                && updates == (if storeOk then old(updates) + [VoucherUpdate(editVoucher.value.id, Columns(old(form)))]
                               else old(updates))
      ensures !old(crashed) && editVoucher.None? && storeOk ==>
                && updates == old(updates)
                && inserts == old(inserts) + [VoucherInsert(old(form).voucherId, Columns(old(form)))]
                && nextFarmNumber == old(nextFarmNumber) + (if old(form).linkedTo == "farm" then 1 else 0)
                && nextAgentNumber == old(nextAgentNumber) + (if old(form).linkedTo == "farm" then 0 else 1)
                && form == BlankVoucherForm(today)
      ensures !old(crashed) && editVoucher.None? && !storeOk ==>
                inserts == old(inserts) && updates == old(updates) && form == old(form)
                && nextFarmNumber == old(nextFarmNumber) && nextAgentNumber == old(nextAgentNumber)
    {
      if crashed {
        return Unmounted;
      }
      if !storeOk {
        return StoreFailed;
      }
      if editVoucher.Some? {
        updates := updates + [VoucherUpdate(editVoucher.value.id, Columns(form))];
      } else {
        SaveNew(VoucherInsert(form.voucherId, Columns(form)), form.linkedTo == "farm", today);
      }
      return Saved;
    }

    /** A new voucher: one insert, the linked kind's counter up by one, a blank form. */
    method SaveNew(row: VoucherInsert, toFarm: bool, today: string)
      modifies this
      ensures crashed == old(crashed)
      ensures updates == old(updates) && inserts == old(inserts) + [row]
      ensures nextFarmNumber == old(nextFarmNumber) + (if toFarm then 1 else 0)
      ensures nextAgentNumber == old(nextAgentNumber) + (if toFarm then 0 else 1)
      ensures form == BlankVoucherForm(today)
    {
      inserts := inserts + [row];
      nextFarmNumber := nextFarmNumber + if toFarm then 1 else 0;
      nextAgentNumber := nextAgentNumber + if toFarm then 0 else 1;
      form := BlankVoucherForm(today);
    }
  }
}
