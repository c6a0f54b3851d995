/** The voucher list of src/pages/VoucherList.tsx: the name shown for a voucher's linked
    farm or agent, the confirmed delete, and the summary cards. */
module VoucherList {
  import opened Wrappers
  import opened Lists
  import opened Records

  function VoucherKey(v: Voucher): string { v.id }

  function FarmKey(f: Farm): string { f.farmId }

  function OwnerName(f: Farm): string { f.ownerName }

  function AgentKey(a: Agent): string { a.agentId }

  function AgentNameOf(a: Agent): string { a.agentName }

  /** `getLinkedEntityName`: the owner of the farm, or the name of the agent, whose id the
      voucher is linked to; the linked id itself when there is no such record. */
  function LinkedEntityName(v: Voucher, farms: seq<Farm>, agents: seq<Agent>): (name: string)
    ensures v.linkedTo == FarmEntity && (forall i :: 0 <= i < |farms| ==> farms[i].farmId != v.linkedId) ==>
              name == v.linkedId
    ensures v.linkedTo == FarmEntity && (exists i :: 0 <= i < |farms| && farms[i].farmId == v.linkedId) ==>
              exists i :: 0 <= i < |farms| && farms[i].farmId == v.linkedId && name == farms[i].ownerName
                          && forall j :: 0 <= j < i ==> farms[j].farmId != v.linkedId
    ensures v.linkedTo == AgentEntity && (forall i :: 0 <= i < |agents| ==> agents[i].agentId != v.linkedId) ==>
              name == v.linkedId
    ensures v.linkedTo == AgentEntity && (exists i :: 0 <= i < |agents| && agents[i].agentId == v.linkedId) ==>
              exists i :: 0 <= i < |agents| && agents[i].agentId == v.linkedId && name == agents[i].agentName
                          && forall j :: 0 <= j < i ==> agents[j].agentId != v.linkedId
  {
    if v.linkedTo == FarmEntity then NameOr(farms, FarmKey, OwnerName, v.linkedId, v.linkedId)
    else NameOr(agents, AgentKey, AgentNameOf, v.linkedId, v.linkedId)
  }

  function AmountOf(v: Voucher): real { OrZero(v.amount) }

  predicate IsIncome(v: Voucher) { v.kind == Income }

  predicate IsExpense(v: Voucher) { v.kind == Expense }

  /** "Total Credits": the income vouchers' amounts, that is every voucher's amount with
      the expense vouchers counting as zero. */
  function TotalCredits(vouchers: seq<Voucher>): (r: real)
    ensures r == Sum(vouchers, Masked(IsIncome, AmountOf))
  {
    SumFilter(vouchers, IsIncome, AmountOf);
    Sum(Filter(vouchers, IsIncome), AmountOf)
  }

  /** "Total Debits": the expense vouchers' amounts, the income vouchers counting as
      zero. */
  function TotalDebits(vouchers: seq<Voucher>): (r: real)
    ensures r == Sum(vouchers, Masked(IsExpense, AmountOf))
  {
    SumFilter(vouchers, IsExpense, AmountOf);
    Sum(Filter(vouchers, IsExpense), AmountOf)
  }

  /** Every voucher is income or expense, so the two cards together count every amount
      once. */
  lemma CreditsAndDebitsCoverAll(vouchers: seq<Voucher>)
    ensures TotalCredits(vouchers) + TotalDebits(vouchers) == Sum(vouchers, AmountOf)
  {
    SumPartition(vouchers, IsIncome, IsExpense, AmountOf);
  }

  /** With distinct ids, deleting one voucher takes exactly its amount off its own card
      and leaves the other card as it was. */
  lemma DeleteLowersItsCard(vouchers: seq<Voucher>, i: nat)
    requires i < |vouchers| && UniqueKeys(vouchers, VoucherKey)
    ensures var rest := RemoveKey(vouchers, VoucherKey, vouchers[i].id);
            && |rest| == |vouchers| - 1
            && (vouchers[i].kind == Income ==>
                  TotalCredits(rest) == TotalCredits(vouchers) - AmountOf(vouchers[i])
                  && TotalDebits(rest) == TotalDebits(vouchers))
            && (vouchers[i].kind == Expense ==>
                  TotalDebits(rest) == TotalDebits(vouchers) - AmountOf(vouchers[i])
                  && TotalCredits(rest) == TotalCredits(vouchers))
  {
    RemoveKeyAt(vouchers, VoucherKey, i);
    SumFilterWithout(vouchers, i, IsIncome, AmountOf);
    SumFilterWithout(vouchers, i, IsExpense, AmountOf);
  }

  /** The table renders each voucher's amount with `toLocaleString`, which throws on a
      `null` amount: the page renders exactly when every amount is present. */
  predicate AmountsPresent(vouchers: seq<Voucher>)
  {
    forall i :: 0 <= i < |vouchers| ==> vouchers[i].amount.Some?
  }

  class VoucherListPage {
    var vouchers: seq<Voucher>
    var farms: seq<Farm>
    var agents: seq<Agent>
    /** The voucher whose view dialog is open, if any. */
    var viewing: Option<Voucher>
    /** Set once a render has thrown; the page is then gone and nothing changes it. */
    var crashed: bool

    /** A page that has not crashed holds only vouchers whose amounts render. */
    predicate Renders()
      reads this
    {
      !crashed ==> AmountsPresent(vouchers) && (viewing.Some? ==> viewing.value.amount.Some?)
    }

    constructor ()
      ensures vouchers == [] && farms == [] && agents == [] && viewing == None && !crashed
      ensures Renders()
    {
      vouchers, farms, agents, viewing, crashed := [], [], [], None, false;
    }

    /** The mount fetch: the three lists are set only when all three queries succeed.
        A fetched voucher with a `null` amount then makes the table's render throw. */
    method Load(fetchedVouchers: Option<seq<Voucher>>, fetchedFarms: Option<seq<Farm>>,
                fetchedAgents: Option<seq<Agent>>)
      modifies this
      ensures var fetched := fetchedVouchers.Some? && fetchedFarms.Some? && fetchedAgents.Some?;
              crashed == (old(crashed) || (fetched && !AmountsPresent(fetchedVouchers.value)))
      ensures !old(crashed) && fetchedVouchers.Some? && fetchedFarms.Some? && fetchedAgents.Some? ==>
                vouchers == fetchedVouchers.value && farms == fetchedFarms.value && agents == fetchedAgents.value
      ensures old(crashed) || fetchedVouchers.None? || fetchedFarms.None? || fetchedAgents.None? ==>
                vouchers == old(vouchers) && farms == old(farms) && agents == old(agents)
      ensures viewing == old(viewing)
      ensures old(Renders()) ==> Renders()
    {
      if !crashed && fetchedVouchers.Some? && fetchedFarms.Some? && fetchedAgents.Some? {
        vouchers, farms, agents := fetchedVouchers.value, fetchedFarms.value, fetchedAgents.value;
        if !AmountsPresent(vouchers) {
          crashed := true;
        }
      }
    }

    /** `handleView`: the dialog opens on the voucher and renders its amount with
        `toLocaleString`, which throws on a `null` amount. */
    method View(v: Voucher)
      modifies this
      ensures crashed == (old(crashed) || v.amount.None?)
      ensures viewing == if old(crashed) then old(viewing) else Some(v)
      ensures vouchers == old(vouchers) && farms == old(farms) && agents == old(agents)
      ensures old(Renders()) ==> Renders()
    {
      if !crashed {
        viewing := Some(v);
        if v.amount.None? {
          crashed := true;
        }
      }
    }

    /** `handleDelete`: nothing without confirmation or when the store refuses; otherwise
        the list loses the vouchers with that id, which with distinct ids is exactly one. */
    method Delete(id: string, confirmed: bool, storeOk: bool)
      modifies this
      ensures vouchers == if !old(crashed) && confirmed && storeOk then RemoveKey(old(vouchers), VoucherKey, id)
                          else old(vouchers)
      ensures UniqueKeys(old(vouchers), VoucherKey) ==>
                if !old(crashed) && confirmed && storeOk then RemovedExactly(old(vouchers), vouchers, VoucherKey, id)
                else vouchers == old(vouchers)
      ensures farms == old(farms) && agents == old(agents) && viewing == old(viewing)
      ensures crashed == old(crashed)
      ensures old(Renders()) ==> Renders()
    {
      if UniqueKeys(vouchers, VoucherKey) {
        RemoveUniqueKey(vouchers, VoucherKey, id);
      }
      if !crashed && confirmed && storeOk {
        vouchers := RemoveKey(vouchers, VoucherKey, id);
      }
    }
  }
}
