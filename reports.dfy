/** The figures of src/pages/Reports.improved.tsx: the dashboard statistics, the choice
    of a detailed report, and the per-farm and per-agent voucher and bill summaries.
    A fetch that returns no data is the empty list, as its `|| []` and `|| 0` make it. */
module Reports {
  import opened Wrappers
  import opened Lists
  import opened Records

  function NetPaymentOf(b: Bill): real { OrZero(b.netPayment) }

  function AmountOf(v: Voucher): real { OrZero(v.amount) }

  predicate IsExpense(v: Voucher) { v.kind == Expense }

  predicate FarmIsActive(f: Farm) { f.status == Active }

  predicate AgentIsActive(a: Agent) { a.status == Active }

  /** The dashboard cards. */
  datatype Stats = Stats(
    totalSales: real,
    totalExpenses: real,
    netProfit: real,
    profitMargin: real,
    totalBills: nat,
    totalVouchers: nat,
    activeFarms: nat,
    activeAgents: nat)

  /** Every bill's net payment, a `null` one counting as zero. The bill pages store a net
      payment only when it is positive, so sales are then never negative. */
  function TotalSales(bills: seq<Bill>): (r: real)
    ensures (forall i :: 0 <= i < |bills| ==> bills[i].netPayment.None? || bills[i].netPayment.value > 0.0) ==>
              r >= 0.0
  {
    SumNonNegativeWhen(bills, NetPaymentOf);
    Sum(bills, NetPaymentOf)
  }

  /** Only vouchers of type expense are expenses: every voucher's amount, the income
      vouchers counting as zero. With non-negative amounts the expenses are never
      negative. */
  function TotalExpenses(vouchers: seq<Voucher>): (r: real)
    ensures r == Sum(vouchers, Masked(IsExpense, AmountOf))
    ensures (forall i :: 0 <= i < |vouchers| ==> AmountOf(vouchers[i]) >= 0.0) ==> r >= 0.0
  {
    SumFilter(vouchers, IsExpense, AmountOf);
    SumNonNegativeWhen(vouchers, Masked(IsExpense, AmountOf));
    Sum(Filter(vouchers, IsExpense), AmountOf)
  }

  /** The statistics set once the five tables are fetched. */
  function ComputeStats(bills: seq<Bill>, vouchers: seq<Voucher>, farms: seq<Farm>, agents: seq<Agent>): (s: Stats)
    ensures s.totalSales == TotalSales(bills) && s.totalExpenses == TotalExpenses(vouchers)
    ensures s.netProfit == s.totalSales - s.totalExpenses
    ensures s.totalSales <= 0.0 ==> s.profitMargin == 0.0
    ensures s.totalSales > 0.0 ==> s.profitMargin * s.totalSales == s.netProfit * 100.0
    ensures s.totalBills == |bills| && s.totalVouchers == |vouchers|
    ensures s.activeFarms == Count(farms, FarmIsActive) <= |farms|
    ensures s.activeAgents == Count(agents, AgentIsActive) <= |agents|
  {
    var sales := TotalSales(bills);
    var expenses := TotalExpenses(vouchers);
    Stats(sales, expenses, sales - expenses,
          if sales > 0.0 then (sales - expenses) / sales * 100.0 else 0.0,
          |bills|, |vouchers|, Count(farms, FarmIsActive), Count(agents, AgentIsActive))
  }

  /** An income voucher leaves the expenses unchanged; an expense voucher adds exactly
      its amount. */
  lemma ExpensesOnlyFromExpenseVouchers(vouchers: seq<Voucher>, v: Voucher)
    ensures TotalExpenses(vouchers + [v]) == TotalExpenses(vouchers) + (if IsExpense(v) then AmountOf(v) else 0.0)
  {
    FilterAppend(vouchers, [v], IsExpense);
    SumAppend(Filter(vouchers, IsExpense), Filter([v], IsExpense), AmountOf);
    if IsExpense(v) {
      assert Filter([v], IsExpense) == [v];
    } else {
      assert Filter([v], IsExpense) == [];
    }
  }

  /** The bill pages store a net payment only when it is positive, so sales are never
      negative; with non-negative expenses the margin is then at most 100. */
  lemma MarginAtMostHundred(bills: seq<Bill>, vouchers: seq<Voucher>, farms: seq<Farm>, agents: seq<Agent>)
    requires forall i :: 0 <= i < |bills| ==> bills[i].netPayment.None? || bills[i].netPayment.value > 0.0
    requires forall i :: 0 <= i < |vouchers| ==> AmountOf(vouchers[i]) >= 0.0
    ensures ComputeStats(bills, vouchers, farms, agents).totalSales >= 0.0
    ensures ComputeStats(bills, vouchers, farms, agents).profitMargin <= 100.0
  {
    var s := ComputeStats(bills, vouchers, farms, agents);
    if s.totalSales > 0.0 {
      MarginBound(s.totalSales, s.totalExpenses, s.profitMargin);
    }
  }

  lemma MarginBound(sales: real, expenses: real, margin: real)
    requires sales > 0.0 && expenses >= 0.0
    requires margin * sales == (sales - expenses) * 100.0
    ensures margin <= 100.0
  {
    assert (margin - 100.0) * sales == -100.0 * expenses;
  }

  /** The six titles that open a detailed report. */
  const ReportTitles: seq<string> := ["Farm Performance", "Agent Performance", "Voucher Analysis",
                                      "Bills Analysis", "Farm-wise Quantity Supply Report",
                                      "Agent-wise Quantity Distribution Report"]

  /** `handleGenerateReport`: any other title leaves the open report as it was. */
  function SelectReport(current: Option<string>, title: string): (r: Option<string>)
    ensures title in ReportTitles ==> r == Some(title)
    ensures title !in ReportTitles ==> r == current
  {
    if title == "Farm Performance" || title == "Agent Performance" || title == "Voucher Analysis"
       || title == "Bills Analysis" || title == "Farm-wise Quantity Supply Report"
       || title == "Agent-wise Quantity Distribution Report"
    then Some(title)
    else current
  }

  /** One line of a farm-wise or agent-wise summary table. */
  datatype SummaryRow = SummaryRow(entityId: string, name: string, count: nat, total: real)

  /** The line for one entity: how many items belong to it and their total. */
  function RowFor<E, I>(e: E, id: E -> string, name: E -> string, belongs: string -> I -> bool,
                        value: I -> real, items: seq<I>): SummaryRow
  {
    var mine := Filter(items, belongs(id(e)));
    SummaryRow(id(e), name(e), |mine|, Sum(mine, value))
  }

  /** The line of every entity, in the entities' order. */
  function Lines<E, I>(entities: seq<E>, id: E -> string, name: E -> string,
                       belongs: string -> I -> bool, value: I -> real, items: seq<I>): (r: seq<SummaryRow>)
    ensures |r| == |entities|
    ensures forall j :: 0 <= j < |entities| ==> r[j] == RowFor(entities[j], id, name, belongs, value, items)
  {
    seq(|entities|, j requires 0 <= j < |entities| => RowFor(entities[j], id, name, belongs, value, items))
  }

  predicate HasItems(r: SummaryRow) { r.count > 0 }

  /** `entities.map(e => ...)` that returns `null` for an entity with no items: one line
      per entity with items, in the entities' order. */
  function SummaryRows<E, I>(entities: seq<E>, id: E -> string, name: E -> string,
                             belongs: string -> I -> bool, value: I -> real, items: seq<I>): (rows: seq<SummaryRow>)
    ensures |rows| <= |entities|
    ensures forall i :: 0 <= i < |rows| ==> rows[i].count > 0
    ensures forall i :: 0 <= i < |rows| ==>
              exists j :: 0 <= j < |entities| && rows[i] == RowFor(entities[j], id, name, belongs, value, items)
    ensures forall j :: 0 <= j < |entities| && RowFor(entities[j], id, name, belongs, value, items).count > 0 ==>
              RowFor(entities[j], id, name, belongs, value, items) in rows
  {
    Filter(Lines(entities, id, name, belongs, value, items), HasItems)
  }

  /** The lines follow the entities: the summary of two runs of entities is the summary
      of the first followed by that of the second, so each entity's line, when it has
      one, comes in the entity's own place. */
  lemma SummaryRowsConcat<E, I>(a: seq<E>, b: seq<E>, id: E -> string, name: E -> string,
                                belongs: string -> I -> bool, value: I -> real, items: seq<I>)
    ensures SummaryRows(a + b, id, name, belongs, value, items)
         == SummaryRows(a, id, name, belongs, value, items) + SummaryRows(b, id, name, belongs, value, items)
  {
    var la, lb := Lines(a, id, name, belongs, value, items), Lines(b, id, name, belongs, value, items);
    assert Lines(a + b, id, name, belongs, value, items) == la + lb;
    FilterAppend(la, lb, HasItems);
  }

  /** A single entity has its own line exactly when some item belongs to it. */
  lemma SummaryRowsSingle<E, I>(e: E, id: E -> string, name: E -> string,
                                belongs: string -> I -> bool, value: I -> real, items: seq<I>)
    ensures var line := RowFor(e, id, name, belongs, value, items);
            SummaryRows([e], id, name, belongs, value, items) == if line.count > 0 then [line] else []
  {
    var line := RowFor(e, id, name, belongs, value, items);
    assert Lines([e], id, name, belongs, value, items) == [line];
    FilterSingle(line, HasItems);
  }

  function FarmKey(f: Farm): string { f.farmId }

  function OwnerName(f: Farm): string { f.ownerName }

  function AgentKey(a: Agent): string { a.agentId }

  function AgentName(a: Agent): string { a.agentName }

  /** `v.linked_to === kind && v.linked_id === id`. */
  function LinkedTo(kind: EntityType): string -> Voucher -> bool
  {
    (id: string) => (v: Voucher) => v.linkedTo == kind && v.linkedId == id
  }

  /** `b.farm_id === id`; a bill with no farm matches none. */
  function BillsOfFarm(): string -> Bill -> bool
  {
    (id: string) => (b: Bill) => b.farmId == Some(id)
  }

  function BillsOfAgent(): string -> Bill -> bool
  {
    (id: string) => (b: Bill) => b.agentId == id
  }

  /** The Voucher Analysis tables. */
  function FarmVoucherSummary(farms: seq<Farm>, vouchers: seq<Voucher>): (rows: seq<SummaryRow>)
    ensures |rows| <= |farms|
    ensures forall i :: 0 <= i < |rows| ==>
              rows[i].count > 0 && exists j :: 0 <= j < |farms| && rows[i].entityId == farms[j].farmId
                                              && rows[i].name == farms[j].ownerName
  {
    SummaryRows(farms, FarmKey, OwnerName, LinkedTo(FarmEntity), AmountOf, vouchers)
  }

  function AgentVoucherSummary(agents: seq<Agent>, vouchers: seq<Voucher>): (rows: seq<SummaryRow>)
    ensures |rows| <= |agents|
    ensures forall i :: 0 <= i < |rows| ==>
              rows[i].count > 0 && exists j :: 0 <= j < |agents| && rows[i].entityId == agents[j].agentId
                                              && rows[i].name == agents[j].agentName
  {
    SummaryRows(agents, AgentKey, AgentName, LinkedTo(AgentEntity), AmountOf, vouchers)
  }

  /** The Bills Analysis tables. */
  function FarmBillSummary(farms: seq<Farm>, bills: seq<Bill>): (rows: seq<SummaryRow>)
    ensures |rows| <= |farms|
    ensures forall i :: 0 <= i < |rows| ==>
              rows[i].count > 0 && exists j :: 0 <= j < |farms| && rows[i].entityId == farms[j].farmId
                                              && rows[i].name == farms[j].ownerName
  {
    SummaryRows(farms, FarmKey, OwnerName, BillsOfFarm(), NetPaymentOf, bills)
  }

  function AgentBillSummary(agents: seq<Agent>, bills: seq<Bill>): (rows: seq<SummaryRow>)
    ensures |rows| <= |agents|
    ensures forall i :: 0 <= i < |rows| ==>
              rows[i].count > 0 && exists j :: 0 <= j < |agents| && rows[i].entityId == agents[j].agentId
                                              && rows[i].name == agents[j].agentName
  {
    SummaryRows(agents, AgentKey, AgentName, BillsOfAgent(), NetPaymentOf, bills)
  }

  /** An item that belongs to no entity changes no summary. */
  lemma SummaryIgnoresUnrelated<E, I>(entities: seq<E>, id: E -> string, name: E -> string,
                                      belongs: string -> I -> bool, value: I -> real,
                                      items: seq<I>, x: I)
    requires forall j :: 0 <= j < |entities| ==> !belongs(id(entities[j]))(x)
    ensures SummaryRows(entities, id, name, belongs, value, items + [x])
         == SummaryRows(entities, id, name, belongs, value, items)
  {
    var before := Lines(entities, id, name, belongs, value, items);
    var after := Lines(entities, id, name, belongs, value, items + [x]);
    forall j | 0 <= j < |entities|
      ensures after[j] == before[j]
    {
      var p := belongs(id(entities[j]));
      FilterAppend(items, [x], p);
      assert Filter([x], p) == [];
      assert Filter(items + [x], p) == Filter(items, p);
    }
    assert after == before;
  }

  /** A voucher linked to an agent never enters a farm's voucher summary. */
  lemma FarmSummaryIgnoresAgentVouchers(farms: seq<Farm>, vouchers: seq<Voucher>, v: Voucher)
    requires v.linkedTo == AgentEntity
    ensures FarmVoucherSummary(farms, vouchers + [v]) == FarmVoucherSummary(farms, vouchers)
  {
    SummaryIgnoresUnrelated(farms, FarmKey, OwnerName, LinkedTo(FarmEntity), AmountOf, vouchers, v);
  }

  /** A bill with no farm never enters the farm-wise bill summary. */
  lemma FarmBillSummaryIgnoresFarmless(farms: seq<Farm>, bills: seq<Bill>, b: Bill)
    requires b.farmId.None?
    ensures FarmBillSummary(farms, bills + [b]) == FarmBillSummary(farms, bills)
  {
    SummaryIgnoresUnrelated(farms, FarmKey, OwnerName, BillsOfFarm(), NetPaymentOf, bills, b);
  }
}
