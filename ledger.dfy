/** The figures of the two ledger pages, src/pages/FarmerLedger.tsx and
    src/pages/AgentLedger.tsx: the debit and credit totals over one entity's entries,
    the balance with its page's sign convention and label, the counts by transaction
    type, and the per-row cells. */
module Ledger {
  import opened Wrappers
  import opened Lists
  import opened Records

  function Debit(e: LedgerEntry): real { OrZero(e.debit) }

  function Credit(e: LedgerEntry): real { OrZero(e.credit) }

  /** What one entry adds to a farm's balance. */
  function FarmNet(e: LedgerEntry): real { Credit(e) - Debit(e) }

  /** What one entry adds to an agent's balance. */
  function AgentNet(e: LedgerEntry): real { Debit(e) - Credit(e) }

  /** The debit column's total; never negative when no stored debit is. */
  function TotalDebit(entries: seq<LedgerEntry>): (r: real)
    ensures (forall i :: 0 <= i < |entries| ==> Debit(entries[i]) >= 0.0) ==> r >= 0.0
  {
    SumNonNegativeWhen(entries, Debit);
    Sum(entries, Debit)
  }

  /** The credit column's total; never negative when no stored credit is. */
  function TotalCredit(entries: seq<LedgerEntry>): (r: real)
    ensures (forall i :: 0 <= i < |entries| ==> Credit(entries[i]) >= 0.0) ==> r >= 0.0
  {
    SumNonNegativeWhen(entries, Credit);
    Sum(entries, Credit)
  }

  /** The farm page's balance, what the farm earned less what it was paid: the sum of the
      entries' own nets. */
  function FarmBalance(entries: seq<LedgerEntry>): (r: real)
    ensures r == Sum(entries, FarmNet)
  {
    SumDifference(entries, Credit, Debit, FarmNet);
    TotalCredit(entries) - TotalDebit(entries)
  }

  /** The agent page's balance, positive when the agent owes us: the sum of the entries'
      own nets under the opposite sign, which is the farm balance negated. */
  function AgentBalance(entries: seq<LedgerEntry>): (r: real)
    ensures r == Sum(entries, AgentNet)
    ensures r == -Sum(entries, FarmNet)
  {
    SumDifference(entries, Debit, Credit, AgentNet);
    SumDifference(entries, Credit, Debit, FarmNet);
    TotalDebit(entries) - TotalCredit(entries)
  }

  /** Balances add up over a split of the entries, so an entry added later shifts the
      balance by exactly its own net. */
  lemma BalanceAppend(a: seq<LedgerEntry>, b: seq<LedgerEntry>)
    ensures FarmBalance(a + b) == FarmBalance(a) + FarmBalance(b)
    ensures AgentBalance(a + b) == AgentBalance(a) + AgentBalance(b)
  {
    SumAppend(a, b, Debit);
    SumAppend(a, b, Credit);
  }

  predicate IsVoucherEntry(e: LedgerEntry) { e.transactionType == VoucherTransaction }

  predicate IsBillEntry(e: LedgerEntry) { e.transactionType == BillTransaction }

  /** The voucher count: at most the number of entries, and 0 exactly when no entry is a
      voucher. */
  function TotalVouchers(entries: seq<LedgerEntry>): (n: nat)
    ensures n == Count(entries, IsVoucherEntry) && n <= |entries|
    ensures n == 0 <==> forall i :: 0 <= i < |entries| ==> entries[i].transactionType != VoucherTransaction
  {
    CountBounds(entries, IsVoucherEntry);
    Count(entries, IsVoucherEntry)
  }

  /** The bill count: at most the number of entries, and 0 exactly when no entry is a
      bill. */
  function TotalBills(entries: seq<LedgerEntry>): (n: nat)
    ensures n == Count(entries, IsBillEntry) && n <= |entries|
    ensures n == 0 <==> forall i :: 0 <= i < |entries| ==> entries[i].transactionType != BillTransaction
  {
    CountBounds(entries, IsBillEntry);
    Count(entries, IsBillEntry)
  }

  /** Every entry is a voucher or a bill and not both, so the two counts add up to the
      number of entries. */
  lemma CountsCoverEntries(entries: seq<LedgerEntry>)
    ensures TotalVouchers(entries) + TotalBills(entries) == |entries|
  {
    CountPartition(entries, IsVoucherEntry, IsBillEntry);
  }

  /** The balance box: the magnitude and the label beside it. */
  datatype BalanceDisplay = BalanceDisplay(amount: real, caption: string)

  function Abs(x: real): (r: real)
    ensures r >= 0.0 && (r == x || r == -x)
  {
    if x < 0.0 then -x else x
  }

  /** `Math.abs(balance)` labelled " (Profit)" when positive, " (Loss)" otherwise, so a
      zero balance reads as a loss. */
  function FarmBalanceDisplay(balance: real): (d: BalanceDisplay)
    ensures d.amount == Abs(balance)
    ensures d.caption == " (Profit)" <==> balance > 0.0
    ensures d.caption == " (Loss)" <==> balance <= 0.0
  {
    BalanceDisplay(Abs(balance), if balance > 0.0 then " (Profit)" else " (Loss)")
  }

  /** `Math.abs(balance)` labelled " (Agent Owes Us)" when positive, " (We Owe)" otherwise. */
  function AgentBalanceDisplay(balance: real): (d: BalanceDisplay)
    ensures d.amount == Abs(balance)
    ensures d.caption == " (Agent Owes Us)" <==> balance > 0.0
    ensures d.caption == " (We Owe)" <==> balance <= 0.0
  {
    BalanceDisplay(Abs(balance), if balance > 0.0 then " (Agent Owes Us)" else " (We Owe)")
  }

  /** Shown with both pages' conventions, the same entries give the same magnitude; a
      nonzero balance that is a profit on the farm page reads "We Owe" on the agent page,
      and the other way round. */
  lemma DisplaysAgree(entries: seq<LedgerEntry>)
    ensures FarmBalanceDisplay(FarmBalance(entries)).amount
         == AgentBalanceDisplay(AgentBalance(entries)).amount
    ensures FarmBalance(entries) != 0.0 ==>
              (FarmBalanceDisplay(FarmBalance(entries)).caption == " (Profit)"
               <==> AgentBalanceDisplay(AgentBalance(entries)).caption == " (We Owe)")
  {
  }

  /** A debit or credit cell: the amount, or a dash. */
  datatype Cell = Dash | Amount(value: real)

  /** `Number(x) > 0 ? x : '-'`, where a `null` reads as zero. */
  function ShowCell(x: Option<real>): (c: Cell)
    ensures c.Amount? <==> x.Some? && x.value > 0.0
    ensures c.Amount? ==> c.value == x.value
  {
    if OrZero(x) > 0.0 then Amount(x.value) else Dash
  }
}
