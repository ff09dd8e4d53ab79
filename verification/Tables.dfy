/** The three tables of the payment ledger and the SQL statements that touch
    them. Every statement is a function from the tables before to the tables
    after; a guarded UPDATE that matches no row leaves the tables alone.

    Timestamps are integer seconds. The database stores them as text, which
    orders the same way: see `Timestamps.TextOrderIsTimeOrder`. */
module Tables {
  import opened Common

  type InvoiceId = string
  type SlateId = string
  type EventId = string

  datatype Mode = Memo | Derived | Amount

  datatype Status = Open | Paid | Confirmed | Expired

  /** One invoice row. `rowid` is the insertion order, `created` the creation
      second. The grin1 rail marker and the issued slate id are written by one
      statement, so `slate.Some?` stands for both. */
  datatype Invoice = Invoice(
    rowid: nat,
    created: int,
    orderRef: Option<string>,
    expected: Option<i64>,
    expiry: Option<int>,
    mode: Option<Mode>,
    recipient: string,
    status: Status,
    paidBy: Option<SlateId>,
    slate: Option<SlateId>)

  datatype PaymentStatus = Received | Replied | OnChain

  /** One payment row, keyed by its slate id. */
  datatype Payment = Payment(
    amount: i64,
    kernel: Option<string>,
    invoice: Option<InvoiceId>,
    user: Option<string>,
    confirmations: i64,
    status: PaymentStatus)

  datatype EventKind = PaymentReceived | PaymentConfirmed

  /** The webhook body: the fields a store acts on. */
  datatype Event = Event(
    kind: EventKind,
    slate: SlateId,
    amount: u64,
    invoice: Option<InvoiceId>,
    orderRef: Option<string>,
    user: Option<string>)

  /** One queued delivery: the immutable body and its retry bookkeeping. */
  datatype Delivery = Delivery(event: Event, attempts: nat, delivered: bool, next: int)

  datatype Db = Db(
    now: int,
    invoices: map<InvoiceId, Invoice>,
    payments: map<SlateId, Payment>,
    queue: map<EventId, Delivery>)

  /** Server policy: required confirmation depth and whether a webhook is set. */
  datatype Config = Config(required: i64, webhook: bool)

  predicate ValidConfig(cfg: Config) {
    cfg.required >= 1
  }

  // ---------------------------------------------------------------- invoice

  predicate Due(now: int, inv: Invoice) {
    inv.status == Open && inv.expiry.Some? && inv.expiry.value <= now
  }

  predicate IsOpen(db: Db, id: InvoiceId) {
    id in db.invoices && db.invoices[id].status == Open
  }

  function MarkPaid(db: Db, id: InvoiceId, slate: SlateId): Db {
    if IsOpen(db, id)
    then db.(invoices := db.invoices[id := db.invoices[id].(status := Paid, paidBy := Some(slate))])
    else db
  }

  predicate IsPaid(db: Db, id: InvoiceId) {
    id in db.invoices && db.invoices[id].status == Paid
  }

  function MarkConfirmed(db: Db, id: InvoiceId): Db {
    if IsPaid(db, id)
    then db.(invoices := db.invoices[id := db.invoices[id].(status := Confirmed)])
    else db
  }

  function MarkExpired(db: Db, id: InvoiceId): Db {
    if IsOpen(db, id)
    then db.(invoices := db.invoices[id := db.invoices[id].(status := Expired)])
    else db
  }

  /** The lazy expiry of a single invoice, on read. */
  function ExpireIfDue(db: Db, id: InvoiceId): Db {
    if id in db.invoices && Due(db.now, db.invoices[id]) then MarkExpired(db, id) else db
  }

  function ExpireRow(now: int, inv: Invoice): Invoice {
    if Due(now, inv) then inv.(status := Expired) else inv
  }

  /** The bulk expiry run by the admin listing. */
  function ExpireDue(db: Db): Db {
    db.(invoices := map i | i in db.invoices :: ExpireRow(db.now, db.invoices[i]))
  }

  function AttachGrin1(db: Db, id: InvoiceId, slate: SlateId): Db {
    if id in db.invoices
    then db.(invoices := db.invoices[id := db.invoices[id].(slate := Some(slate))])
    else db
  }

  /** A row as `create` inserts it: under a fresh random (so non-empty) id, open,
      unpaid, unarmed, stamped with the current second, and later in insertion
      order than every other row. */
  predicate FreshInvoice(db: Db, id: InvoiceId, inv: Invoice) {
    && id !in db.invoices && id != ""
    && inv.status == Open && inv.paidBy == None && inv.slate == None
    && inv.created == db.now
    && forall j :: j in db.invoices ==> db.invoices[j].rowid < inv.rowid
  }

  function InsertInvoice(db: Db, id: InvoiceId, inv: Invoice): Db {
    db.(invoices := db.invoices[id := inv])
  }

  // ---------------------------------------------------------------- payment

  /** INSERT; a duplicate primary key is logged and leaves the table alone. */
  function InsertPayment(db: Db, slate: SlateId, amount: u64, kernel: string, invoice: Option<InvoiceId>): Db {
    if slate in db.payments then db
    else db.(payments := db.payments[slate := Payment(AsI64(amount), Some(kernel), invoice, None, 0, Received)])
  }

  function LinkPayment(db: Db, slate: SlateId, invoice: Option<InvoiceId>, user: Option<string>): Db {
    if slate in db.payments
    then db.(payments := db.payments[slate := db.payments[slate].(invoice := invoice, user := user)])
    else db
  }

  function DeletePayment(db: Db, slate: SlateId): Db {
    db.(payments := db.payments - {slate})
  }

  function RecordDepth(db: Db, slate: SlateId, confirmations: i64): Db {
    if slate in db.payments
    then db.(payments := db.payments[slate := db.payments[slate].(confirmations := confirmations, status := OnChain)])
    else db
  }

  function MarkReplied(db: Db, slate: SlateId): Db {
    if slate in db.payments
    then db.(payments := db.payments[slate := db.payments[slate].(status := Replied)])
    else db
  }

  // ------------------------------------------------------- webhook_delivery

  function Enqueue(db: Db, id: EventId, event: Event): Db {
    db.(queue := db.queue[id := Delivery(event, 0, false, db.now)])
  }

  // ---------------------------------------------------------------- queries

  /** One received payment presented to the matcher. `default` is the matching
      mode in force for this call, `user` the tenant its endpub credits. */
  datatype Call = Call(
    slate: SlateId,
    amount: u64,
    kernel: string,
    recipient: string,
    memo: Option<string>,
    default: Mode,
    user: Option<string>)

  datatype Query = ByRecipient(recipient: string) | ByRef(memo: string) | ByAmount(amount: u64)

  function EffectiveMode(inv: Invoice, default: Mode): Mode {
    if inv.mode.Some? then inv.mode.value else default
  }

  /** The WHERE clause of the three resolution queries. Only the amount query
      looks at the expiry. */
  predicate Hits(now: int, default: Mode, q: Query, inv: Invoice) {
    inv.status == Open &&
    match q
    case ByRecipient(r) => inv.recipient == r && EffectiveMode(inv, default) == Derived
    case ByRef(m) => inv.orderRef == Some(m) && EffectiveMode(inv, default) == Memo
    case ByAmount(a) =>
      && inv.expected == Some(AsI64(a))
      && EffectiveMode(inv, default) == Amount
      && (inv.expiry.Some? ==> inv.expiry.value > now)
  }

  predicate HitsId(db: Db, default: Mode, q: Query, id: InvoiceId) {
    id in db.invoices && Hits(db.now, default, q, db.invoices[id])
  }

  predicate NoHit(db: Db, default: Mode, q: Query) {
    forall j :: j in db.invoices ==> !HitsId(db, default, q, j)
  }

  /** `ORDER BY created_at LIMIT 1`: some hit no other hit is older than. Rows
      created in the same second tie, and any of them may be returned. */
  predicate OldestHit(db: Db, default: Mode, q: Query, id: InvoiceId) {
    && HitsId(db, default, q, id)
    && forall j :: j in db.invoices && HitsId(db, default, q, j) ==> db.invoices[id].created <= db.invoices[j].created
  }

  predicate Answers(db: Db, default: Mode, q: Query, r: Option<InvoiceId>) {
    match r
    case None => NoHit(db, default, q)
    case Some(id) => OldestHit(db, default, q, id)
  }

  /** The amount-binding guard: an exact expected amount must be paid exactly. */
  predicate Binds(inv: Invoice, amount: u64) {
    inv.expected.Some? ==> amount == Clamp(inv.expected.value)
  }
}
