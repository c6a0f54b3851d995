/** The sale-bill list of src/pages/SaleBillList.tsx: each bill with its items, the
    agent and farm names shown for it, the confirmed delete, and the summary cards. */
module SaleBillList {
  import opened Wrappers
  import opened Text
  import opened Lists
  import opened Records
  import opened BillCalc

  /** A bill as the page holds it: the row and its `bill_items`. */
  datatype ListedBill = ListedBill(bill: Bill, items: seq<BillItem>)

  function ListedKey(b: ListedBill): string { b.bill.id }

  function ItemOf(billId: string): BillItem -> bool
  {
    (item: BillItem) => item.billId == billId
  }

  /** The `bill_items` query of one bill, over the whole items table in creation order. */
  function ItemsOf(billId: string, table: seq<BillItem>): (r: seq<BillItem>)
    ensures forall j :: 0 <= j < |r| ==> r[j] in table && r[j].billId == billId
    ensures forall j :: 0 <= j < |table| && table[j].billId == billId ==> table[j] in r
  {
    var r := Filter(table, ItemOf(billId));
    assert forall x :: ItemOf(billId)(x) <==> x.billId == billId;
    r
  }

  /** The query keeps the table's order: a row added to the table comes after the bill's
      earlier items, and only when it carries that bill's `bill_id`. */
  lemma ItemsOfAppend(billId: string, table: seq<BillItem>, item: BillItem)
    ensures ItemsOf(billId, []) == []
    ensures ItemsOf(billId, table + [item]) == ItemsOf(billId, table) + (if item.billId == billId then [item] else [])
  {
    FilterAppend(table, [item], ItemOf(billId));
    FilterSingle(item, ItemOf(billId));
  }

  /** Every bill keeps its place and gets the items of its own `bill_id`, or none when
      its items query failed (`itemsData || []`). */
  function AttachItems(bills: seq<Bill>, table: seq<BillItem>, failed: set<string>): (r: seq<ListedBill>)
    ensures |r| == |bills|
    ensures forall i :: 0 <= i < |r| ==> r[i].bill == bills[i]
    ensures forall i :: 0 <= i < |r| && bills[i].id in failed ==> r[i].items == []
    ensures forall i, j :: 0 <= i < |r| && 0 <= j < |r[i].items| ==>
              r[i].items[j] in table && r[i].items[j].billId == bills[i].billId
    ensures forall i, j :: 0 <= i < |r| && bills[i].id !in failed && 0 <= j < |table| && table[j].billId == bills[i].billId ==>
              table[j] in r[i].items
  {
    seq(|bills|, i requires 0 <= i < |bills| =>
      ListedBill(bills[i], if bills[i].id in failed then [] else ItemsOf(bills[i].billId, table)))
  }

  function AgentKey(a: Agent): string { a.agentId }

  function AgentNameOf(a: Agent): string { a.agentName }

  function FarmKey(f: Farm): string { f.farmId }

  function OwnerName(f: Farm): string { f.ownerName }

  /** `getAgentName`: the agent's name, or the id when no agent has it. */
  function AgentName(agentId: string, agents: seq<Agent>): (name: string)
    ensures (forall i :: 0 <= i < |agents| ==> agents[i].agentId != agentId) ==> name == agentId
    ensures (exists i :: 0 <= i < |agents| && agents[i].agentId == agentId) ==>
              exists i :: 0 <= i < |agents| && agents[i].agentId == agentId && name == agents[i].agentName
                          && forall j :: 0 <= j < i ==> agents[j].agentId != agentId
  {
    NameOr(agents, AgentKey, AgentNameOf, agentId, agentId)
  }

  /** `getFarmName`: "N/A" for a missing or empty farm id, else the owner's name, or the
      id when no farm has it. */
  function FarmName(farmId: Option<string>, farms: seq<Farm>): (name: string)
    ensures farmId.None? || farmId.value == "" ==> name == "N/A"
    ensures farmId.Some? && farmId.value != "" && (forall i :: 0 <= i < |farms| ==> farms[i].farmId != farmId.value) ==>
              name == farmId.value
    ensures farmId.Some? && farmId.value != "" && (exists i :: 0 <= i < |farms| && farms[i].farmId == farmId.value) ==>
              exists i :: 0 <= i < |farms| && farms[i].farmId == farmId.value && name == farms[i].ownerName
                          && forall j :: 0 <= j < i ==> farms[j].farmId != farmId.value
  {
    if farmId.None? || farmId.value == "" then "N/A"
    else NameOr(farms, FarmKey, OwnerName, farmId.value, farmId.value)
  }

  function NetOf(b: ListedBill): real { OrZero(b.bill.netPayment) }

  function QuantityOf(b: ListedBill): real { OrZero(b.bill.quantity) }

  /** "Net Payments": never negative when no listed bill has a negative net payment. */
  function NetPayments(bills: seq<ListedBill>): (r: real)
    ensures (forall i :: 0 <= i < |bills| ==> NetOf(bills[i]) >= 0.0) ==> r >= 0.0
  {
    SumNonNegativeWhen(bills, NetOf);
    Sum(bills, NetOf)
  }

  /** "Total Quantity": never negative when no listed bill has a negative quantity. */
  function TotalQuantity(bills: seq<ListedBill>): (r: real)
    ensures (forall i :: 0 <= i < |bills| ==> QuantityOf(bills[i]) >= 0.0) ==> r >= 0.0
  {
    SumNonNegativeWhen(bills, QuantityOf);
    Sum(bills, QuantityOf)
  }

  /** With distinct ids, deleting a bill takes exactly its net payment and its quantity
      off the cards, and one off the bill count. */
  lemma DeleteLowersTotals(bills: seq<ListedBill>, i: nat)
    requires i < |bills| && UniqueKeys(bills, ListedKey)
    ensures var rest := RemoveKey(bills, ListedKey, bills[i].bill.id);
            && |rest| == |bills| - 1
            && NetPayments(rest) == NetPayments(bills) - NetOf(bills[i])
            && TotalQuantity(rest) == TotalQuantity(bills) - QuantityOf(bills[i])
  {
    RemoveKeyAt(bills, ListedKey, i);
    SumWithout(bills, i, NetOf);
    SumWithout(bills, i, QuantityOf);
  }

  /** The table renders each bill's net payment with `toLocaleString`, which throws on a
      `null`: the list renders exactly when every net payment is present. */
  predicate RowsRender(bills: seq<ListedBill>)
  {
    forall i :: 0 <= i < |bills| ==> bills[i].bill.netPayment.Some?
  }

  /** The view dialog renders the net payment and the total with `toLocaleString`, and the
      bill's rate too when it has no items; any of those `null` throws. */
  predicate ViewThrows(b: ListedBill)
  {
    b.bill.netPayment.None? || b.bill.total.None? || (b.items == [] && b.bill.rate.None?)
  }

  /** As written, a bill the new page saves with a net payment of zero or less has a
      `null` net payment, so listing it throws and the whole list page is lost. */
  lemma LossBillCrashesList(form: BillForm, rows: seq<VarietyRow>, id: string,
                            table: seq<BillItem>, failed: set<string>)
    requires exists i :: 0 <= i < |rows| && IsComplete(rows[i])
    requires NetPayment(rows, form.unloadingAmount, form.advance) <= 0.0
    ensures var f := WithTotals(form, rows);
            && Payload(f, rows).Some?
            && !RowsRender(AttachItems([StoredBill(id, f.billId, Payload(f, rows).value)], table, failed))
  {
    var f := WithTotals(form, rows);
    assert f.netPayment.None?;
    var listed := AttachItems([StoredBill(id, f.billId, Payload(f, rows).value)], table, failed);
    assert listed[0].bill.netPayment.None?;
  }

  /** The one-line loss bill (10 at 5, with 60 advance) takes the bill list down. */
  lemma LossBillListExample()
    ensures Payload(LossForm(), LossRows()).Some?
    ensures !RowsRender(AttachItems([StoredBill("row-1", "BILL-2025-001", Payload(LossForm(), LossRows()).value)], [], {}))
  {
    LossNet();
    assert IsComplete(LossRows()[0]);
    LossBillCrashesList(BlankForm("BILL-2025-001").(advance := Typed("60")), LossRows(), "row-1", [], {});
  }

  class SaleBillListPage {
    var bills: seq<ListedBill>
    var farms: seq<Farm>
    var agents: seq<Agent>
    /** The bill whose view dialog is open, if any. */
    var viewing: Option<ListedBill>
    /** Set once a render has thrown; the page is then gone and nothing changes it. */
    var crashed: bool

    /** A page that has not crashed holds only bills whose rows render, and a view that
        renders. */
    predicate Renders()
      reads this
    {
      !crashed ==> RowsRender(bills) && (viewing.Some? ==> !ViewThrows(viewing.value))
    }

    constructor ()
      ensures bills == [] && farms == [] && agents == [] && viewing == None && !crashed
      ensures Renders()
    {
      bills, farms, agents, viewing, crashed := [], [], [], None, false;
    }

    /** The mount fetch: the lists are set only when the bills, farms and agents queries
        all succeed; a failed items query only empties that bill's items. A fetched bill
        with a `null` net payment then makes the table's render throw. */
    method Load(fetchedBills: Option<seq<Bill>>, itemTable: seq<BillItem>, failedItems: set<string>,
                fetchedFarms: Option<seq<Farm>>, fetchedAgents: Option<seq<Agent>>)
      modifies this
      ensures var fetched := fetchedBills.Some? && fetchedFarms.Some? && fetchedAgents.Some?;
              crashed == (old(crashed) || (fetched && !RowsRender(AttachItems(fetchedBills.value, itemTable, failedItems))))
      ensures !old(crashed) && fetchedBills.Some? && fetchedFarms.Some? && fetchedAgents.Some? ==>
                && bills == AttachItems(fetchedBills.value, itemTable, failedItems)
                && farms == fetchedFarms.value && agents == fetchedAgents.value
      ensures old(crashed) || fetchedBills.None? || fetchedFarms.None? || fetchedAgents.None? ==>
                bills == old(bills) && farms == old(farms) && agents == old(agents)
      ensures viewing == old(viewing)
      ensures old(Renders()) ==> Renders()
    {
      if !crashed && fetchedBills.Some? && fetchedFarms.Some? && fetchedAgents.Some? {
        bills := AttachItems(fetchedBills.value, itemTable, failedItems);
        farms, agents := fetchedFarms.value, fetchedAgents.value;
        if !RowsRender(bills) {
          crashed := true;
        }
      }
    }

    /** The same fetch with the net payment rendered as `(bill.net_payment ?? 0)`: the
        page never throws, and every fetched bill is listed, loss bills included. */
    method LoadBlankNetAsZero(fetchedBills: Option<seq<Bill>>, itemTable: seq<BillItem>, failedItems: set<string>,
                              fetchedFarms: Option<seq<Farm>>, fetchedAgents: Option<seq<Agent>>)
      modifies this
      ensures crashed == old(crashed)
      ensures !old(crashed) && fetchedBills.Some? && fetchedFarms.Some? && fetchedAgents.Some? ==>
                && |bills| == |fetchedBills.value|
                && (forall i :: 0 <= i < |bills| ==> bills[i].bill == fetchedBills.value[i])
                && farms == fetchedFarms.value && agents == fetchedAgents.value
      ensures old(crashed) || fetchedBills.None? || fetchedFarms.None? || fetchedAgents.None? ==>
                bills == old(bills) && farms == old(farms) && agents == old(agents)
      ensures viewing == old(viewing)
    {
      if !crashed && fetchedBills.Some? && fetchedFarms.Some? && fetchedAgents.Some? {
        bills := AttachItems(fetchedBills.value, itemTable, failedItems);
        farms, agents := fetchedFarms.value, fetchedAgents.value;
      }
    }

    /** `handleView`: the dialog opens on the bill, and throws when one of the values
        it renders with `toLocaleString` is `null`. */
    method ViewBill(b: ListedBill)
      modifies this
      ensures crashed == (old(crashed) || ViewThrows(b))
      ensures viewing == if old(crashed) then old(viewing) else Some(b)
      ensures bills == old(bills) && farms == old(farms) && agents == old(agents)
      ensures old(Renders()) ==> Renders()
    {
      if !crashed {
        viewing := Some(b);
        if ViewThrows(b) {
          crashed := true;
        }
      }
    }

    /** `handleDeleteBill`: nothing without confirmation or when the store refuses;
        otherwise the list loses that bill. */
    method DeleteBill(bill: Bill, confirmed: bool, storeOk: bool)
      modifies this
      ensures bills == if !old(crashed) && confirmed && storeOk then RemoveKey(old(bills), ListedKey, bill.id)
                       else old(bills)
      ensures UniqueKeys(old(bills), ListedKey) ==>
                if !old(crashed) && confirmed && storeOk then RemovedExactly(old(bills), bills, ListedKey, bill.id)
                else bills == old(bills)
      ensures farms == old(farms) && agents == old(agents) && viewing == old(viewing)
      ensures crashed == old(crashed)
      ensures old(Renders()) ==> Renders()
    {
      if UniqueKeys(bills, ListedKey) {
        RemoveUniqueKey(bills, ListedKey, bill.id);
      }
      if !crashed && confirmed && storeOk {
        bills := RemoveKey(bills, ListedKey, bill.id);
      }
    }
  }
}
