/** The rows of the six business tables (src/lib/supabase.ts). Numeric columns that the
    pages fill from `parseFloat` are `Option<real>`: `None` is the JSON `null` that a
    `NaN` or `Infinity` becomes on its way to the store. The `created_at`/`updated_at`
    timestamps are not modelled. */
module Records {
  import opened Wrappers

  datatype Status = Active | Inactive

  /** `linked_to` of a voucher and `entity_type` of a ledger entry. */
  datatype EntityType = FarmEntity | AgentEntity

  datatype VoucherType = Expense | Income

  datatype PaymentMode = Cash | Bank | Cheque

  datatype TransactionType = VoucherTransaction | BillTransaction

  datatype CuttingStatus = Scheduled | InProgress | Completed

  /** The text the store holds for a cutting status. */
  function CuttingStatusText(s: CuttingStatus): string
  {
    match s
    case Scheduled => "scheduled"
    case InProgress => "in_progress"
    case Completed => "completed"
  }

  datatype Farm = Farm(
    id: string,
    farmId: string,
    ownerName: string,
    location: string,
    area: Option<real>,
    price: Option<real>,
    leaseStartDate: string,
    leaseEndDate: string,
    guarantor: string,
    cropType: string,
    status: Status)

  datatype Agent = Agent(
    id: string,
    agentId: string,
    companyName: string,
    agentName: string,
    mobile: string,
    guarantor: string,
    status: Status)

  datatype Voucher = Voucher(
    id: string,
    voucherId: string,
    linkedTo: EntityType,
    linkedId: string,
    kind: VoucherType,
    date: string,
    reason: string,
    description: Option<string>,
    paymentMode: PaymentMode,
    amount: Option<real>)

  datatype BillItem = BillItem(
    id: string,
    billId: string,
    productVariety: string,
    quantity: real,
    rate: real,
    total: real)

  /** One line of the bill form: `{ id, variety, quantity, rate, total }`, with the
      quantity and rate as the text typed into the form. */
  datatype VarietyRow = VarietyRow(id: int, variety: string, quantity: string, rate: string, total: real)

  /** What `JSON.parse(bill.product_variety)` yields: a syntax error, a value that is
      not an array, or an array of variety rows. */
  datatype VarietyJson = Malformed | NotAnArray | VarietyArray(rows: seq<VarietyRow>)

  datatype Bill = Bill(
    id: string,
    billId: string,
    agentId: string,
    farmId: Option<string>,
    vehicleNumber: string,
    arrivalNumber: string,
    productVariety: VarietyJson,
    unloadingAmount: real,
    advance: real,
    quantity: Option<real>,
    rate: Option<real>,
    total: Option<real>,
    netPayment: Option<real>)

  datatype CuttingSchedule = CuttingSchedule(
    id: string,
    farmId: string,
    cuttingDate: string,
    cropType: string,
    expectedQuantity: Option<real>,
    status: CuttingStatus,
    notes: Option<string>)

  datatype LedgerEntry = LedgerEntry(
    id: string,
    entityType: EntityType,
    entityId: string,
    transactionType: TransactionType,
    transactionId: string,
    date: string,
    description: string,
    debit: Option<real>,
    credit: Option<real>)

  /** The text the store and the forms use for each enumerated value. */
  function EntityText(e: EntityType): string
  {
    match e
    case FarmEntity => "farm"
    case AgentEntity => "agent"
  }

  function VoucherTypeText(t: VoucherType): string
  {
    match t
    case Expense => "expense"
    case Income => "income"
  }

  function PaymentModeText(m: PaymentMode): string
  {
    match m
    case Cash => "cash"
    case Bank => "bank"
    case Cheque => "cheque"
  }

  function StatusText(s: Status): string
  {
    match s
    case Active => "active"
    case Inactive => "inactive"
  }

  /** How a form submit ended: stopped by the page's own checks before any store call,
      refused by the store, saved, or never made because the page had crashed. */
  datatype SubmitResult = Rejected | StoreFailed | Saved | Unmounted

  /** `Number(x || 0)` / `Number(x) || 0` / `sum + x` on a numeric column: a missing
      value counts as zero. */
  function OrZero(x: Option<real>): real
  {
    x.GetOr(0.0)
  }
}
