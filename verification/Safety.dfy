/** What every interleaving keeps. The argument is rely/guarantee: every step
    lets the tables only `Evolve` and touches the payment row of its own slate
    alone, and the local invariant of every handler is stable under that. */
module Safety {
  import opened Common
  import opened Tables
  import opened Interleaving

  // --------------------------------------------------------------- evolution

  predicate StatusMoves(a: Status, b: Status) {
    a == b || a == Open || (a == Paid && b == Confirmed)
  }

  predicate RowEvolves(a: Invoice, b: Invoice) {
    && b == a.(status := b.status, paidBy := b.paidBy, slate := b.slate)
    && StatusMoves(a.status, b.status)
    && (a.status != Open ==> b.paidBy == a.paidBy)
    && (a.slate.Some? ==> b.slate == a.slate)
  }

  /** What never changes once written, over any number of steps. */
  ghost predicate Evolves(a: Db, b: Db) {
    && a.now <= b.now
    && (forall i :: i in a.invoices ==> i in b.invoices && RowEvolves(a.invoices[i], b.invoices[i]))
    && (forall x :: x in a.payments && a.payments[x].invoice.Some? ==>
         x in b.payments && b.payments[x].invoice == a.payments[x].invoice && b.payments[x].amount == a.payments[x].amount)
    && (forall e :: e in a.queue ==> e in b.queue && b.queue[e].event == a.queue[e].event)
  }

  /** A step on behalf of `own` leaves every other payment row, and who paid
      what with it, as it was. */
  ghost predicate LeavesAlone(a: Db, b: Db, own: Option<SlateId>) {
    && (forall x :: Some(x) != own ==>
         && (x in a.payments <==> x in b.payments)
         && (x in a.payments ==> b.payments[x].invoice == a.payments[x].invoice && b.payments[x].amount == a.payments[x].amount))
    && (forall i :: i in b.invoices && b.invoices[i].paidBy.Some? && b.invoices[i].paidBy != own ==>
         i in a.invoices && a.invoices[i].paidBy == b.invoices[i].paidBy)
  }

  predicate SlatesKept(a: Db, b: Db) {
    forall i :: i in b.invoices && b.invoices[i].slate.Some? ==> i in a.invoices && a.invoices[i].slate == b.invoices[i].slate
  }

  predicate DepthsKept(a: Db, b: Db) {
    forall x :: x in a.payments && x in b.payments ==> b.payments[x].confirmations == a.payments[x].confirmations
  }

  // -------------------------------------------------------------- invariants

  predicate LinkBinds(db: Db, x: SlateId, i: InvoiceId)
    requires x in db.payments
  {
    i in db.invoices && (db.invoices[i].expected.Some? ==> db.payments[x].amount == Clamp(db.invoices[i].expected.value))
  }

  predicate Deep(cfg: Config, db: Db, x: SlateId, i: InvoiceId) {
    x in db.payments && db.payments[x].invoice == Some(i) && db.payments[x].confirmations >= cfg.required
  }

  /** Amount binding: a linked payment carries its invoice's expected amount. */
  ghost predicate AmountsBind(db: Db) {
    forall x :: x in db.payments && db.payments[x].invoice.Some? ==> LinkBinds(db, x, db.payments[x].invoice.value)
  }

  ghost predicate PayersRecorded(db: Db) {
    && (forall i :: i in db.invoices ==> (db.invoices[i].paidBy.Some? <==> db.invoices[i].status == Paid || db.invoices[i].status == Confirmed))
    && (forall i, j :: i in db.invoices && j in db.invoices && i != j && db.invoices[i].paidBy.Some? ==>
         db.invoices[i].paidBy != db.invoices[j].paidBy)
    && (forall i, j :: i in db.invoices && j in db.invoices && i != j && db.invoices[i].slate.Some? ==>
         db.invoices[i].slate != db.invoices[j].slate)
  }

  ghost predicate ConfirmedIsDeep(cfg: Config, db: Db) {
    forall i :: i in db.invoices && db.invoices[i].status == Confirmed ==> exists x :: Deep(cfg, db, x, i)
  }

  /** Whether a queued body tells the truth about the tables. */
  predicate EventHolds(cfg: Config, db: Db, e: Event) {
    e.kind == PaymentConfirmed ==>
      && e.invoice.Some? && e.invoice.value in db.invoices
      && db.invoices[e.invoice.value].status == Confirmed
      && db.invoices[e.invoice.value].orderRef == e.orderRef
      && Deep(cfg, db, e.slate, e.invoice.value)
      && e.amount == AsU64(db.payments[e.slate].amount)
  }

  predicate Confirms(d: Delivery, i: InvoiceId) {
    d.event.kind == PaymentConfirmed && d.event.invoice == Some(i)
  }

  ghost predicate EventsHold(cfg: Config, db: Db) {
    && (forall e :: e in db.queue ==> EventHolds(cfg, db, db.queue[e].event))
    && (forall d, e, i :: d in db.queue && e in db.queue && Confirms(db.queue[d], i) && Confirms(db.queue[e], i) ==> d == e)
  }

  /** The invoice whose confirmation the poll has written but not yet queued. */
  function Untold(p: Poll): Option<InvoiceId> {
    match p
    case Loading(_, id, _) => Some(id)
    case Telling(_, id, _, _) => Some(id)
    case _ => None
  }

  ghost predicate ConfirmationsTold(cfg: Config, db: Db, p: Poll) {
    && (Untold(p).Some? ==> forall d :: d in db.queue ==> !Confirms(db.queue[d], Untold(p).value))
    && (cfg.webhook ==>
          forall i :: i in db.invoices && db.invoices[i].status == Confirmed && Untold(p) != Some(i) ==>
            exists d :: d in db.queue && Confirms(db.queue[d], i))
  }

  // ------------------------------------------------------ handlers and tasks

  /** A received payment's row while its handler has not linked it yet. */
  predicate Unlinked(db: Db, c: Call) {
    c.slate in db.payments && db.payments[c.slate].invoice == None && db.payments[c.slate].amount == AsI64(c.amount)
  }

  /** The row after its handler linked it (to nothing, when nothing matched). */
  predicate Linked(db: Db, c: Call, hit: Option<InvoiceId>) {
    && c.slate in db.payments && db.payments[c.slate].invoice == hit && db.payments[c.slate].amount == AsI64(c.amount)
    && (hit.Some? ==> hit.value in db.invoices)
  }

  function RefOf(db: Db, hit: Option<InvoiceId>): Option<string> {
    if hit.Some? && hit.value in db.invoices then db.invoices[hit.value].orderRef else None
  }

  predicate IsShut(db: Db, id: InvoiceId) {
    id in db.invoices && db.invoices[id].status != Open
  }

  ghost predicate NotAPayer(db: Db, x: SlateId) {
    forall i :: i in db.invoices ==> db.invoices[i].paidBy != Some(x)
  }

  predicate Settles(db: Db, f: Finalized, id: InvoiceId, amount: u64, orderRef: Option<string>) {
    && id in db.invoices && db.invoices[id].slate == Some(f.slate) && db.invoices[id].orderRef == orderRef
    && (db.invoices[id].expected.Some? ==> amount == Clamp(db.invoices[id].expected.value))
    && amount < TWO_63
  }

  predicate Booked(db: Db, f: Finalized, id: InvoiceId, amount: u64) {
    f.slate in db.payments && db.payments[f.slate].invoice == Some(id) && db.payments[f.slate].amount == AsI64(amount)
  }

  ghost predicate HandlerHolds(db: Db, w: Wallet, h: Handler) {
    match h
    case Insert(c) => c.slate in w.received && c.slate !in db.payments && NotAPayer(db, c.slate)
    case AskRecipient(c) => c.slate in w.received && Unlinked(db, c) && NotAPayer(db, c.slate)
    case AskRef(c) => c.slate in w.received && Unlinked(db, c) && NotAPayer(db, c.slate)
    case AskAmount(c) => c.slate in w.received && Unlinked(db, c) && NotAPayer(db, c.slate)
    case Check(c, id) => c.slate in w.received && Unlinked(db, c) && NotAPayer(db, c.slate) && id in db.invoices
    case Flip(c, id) =>
      && c.slate in w.received && Unlinked(db, c) && NotAPayer(db, c.slate)
      && id in db.invoices && Binds(db.invoices[id], c.amount)
    case Link(c, hit) =>
      && c.slate in w.received && Unlinked(db, c)
      && (hit.Some? ==> IsShut(db, hit.value) && Binds(db.invoices[hit.value], c.amount))
      && forall i :: i in db.invoices && db.invoices[i].paidBy == Some(c.slate) ==> hit == Some(i)
    case Undo(c) => c.slate in w.received && Unlinked(db, c) && NotAPayer(db, c.slate)
    case Touch(c, id) => c.slate in w.received && Linked(db, c, Some(id))
    case ReadRef(c, id) => c.slate in w.received && Linked(db, c, Some(id))
    case Notify(c, hit, orderRef) => c.slate in w.received && Linked(db, c, hit) && orderRef == RefOf(db, hit)
    case Lookup(f) => f.slate in w.issued - w.live && f.slate !in db.payments && NotAPayer(db, f.slate)
    case Record(f, id, amount, orderRef) =>
      && f.slate in w.issued - w.live && f.slate !in db.payments && NotAPayer(db, f.slate)
      && Settles(db, f, id, amount, orderRef)
    case Settle(f, id, amount, orderRef) =>
      f.slate in w.issued - w.live && Booked(db, f, id, amount) && Settles(db, f, id, amount, orderRef) && NotAPayer(db, f.slate)
    case Announce(f, id, amount, orderRef) =>
      && f.slate in w.issued - w.live && Booked(db, f, id, amount) && Settles(db, f, id, amount, orderRef)
      && db.invoices[id].paidBy == Some(f.slate) && db.invoices[id].status != Open
    case Attach(id, slate) => slate in w.issued && id in db.invoices && db.invoices[id].slate == None
      && forall i :: i in db.invoices ==> db.invoices[i].slate != Some(slate)
    case Done => true
  }

  /** No two handlers work for the same slate or arm the same invoice. */
  ghost predicate Disjoint(calls: map<nat, Handler>) {
    && (forall t, u :: t in calls && u in calls && t != u && Owned(calls[t]).Some? ==> Owned(calls[t]) != Owned(calls[u]))
    && (forall t, u :: t in calls && u in calls && t != u && calls[t].Attach? && calls[u].Attach? ==>
         calls[t].id != calls[u].id && calls[t].slate != calls[u].slate)
  }

  ghost predicate HandlersHold(s: Sys) {
    && Disjoint(s.calls)
    && forall t :: t in s.calls ==> HandlerHolds(s.db, s.wallet, s.calls[t])
  }

  predicate LinkPending(h: Handler, x: SlateId, i: InvoiceId) {
    h.Link? && h.c.slate == x && h.hit == Some(i)
  }

  predicate PayerLinks(db: Db, calls: map<nat, Handler>, i: InvoiceId)
    requires i in db.invoices && db.invoices[i].paidBy.Some?
  {
    var x := db.invoices[i].paidBy.value;
    && x in db.payments
    && ( || db.payments[x].invoice == Some(i)
         || exists t :: t in calls && LinkPending(calls[t], x, i))
  }

  /** The paying payment is linked back, or its handler is about to link it. */
  ghost predicate PayersLinkBack(s: Sys) {
    forall i :: i in s.db.invoices && s.db.invoices[i].paidBy.Some? ==> PayerLinks(s.db, s.calls, i)
  }

  ghost predicate WalletHolds(s: Sys) {
    && s.wallet.live <= s.wallet.issued
    && s.wallet.received !! s.wallet.issued
    && s.db.payments.Keys <= s.wallet.received + s.wallet.issued
    && (forall i :: i in s.db.invoices && s.db.invoices[i].slate.Some? ==> s.db.invoices[i].slate.value in s.wallet.issued)
    && (forall i :: i in s.db.invoices && s.db.invoices[i].paidBy.Some? ==> s.db.invoices[i].paidBy.value in s.db.payments)
    && s.wallet.live !! s.db.payments.Keys
  }

  predicate ItemHolds(cfg: Config, db: Db, item: WorkItem) {
    && (item.slate in db.payments ==> db.payments[item.slate].confirmations < cfg.required)
    && (item.invoice.Some? ==> item.slate in db.payments && db.payments[item.slate].invoice == item.invoice)
  }

  ghost predicate WorkHolds(cfg: Config, db: Db, work: seq<WorkItem>) {
    && (forall k :: 0 <= k < |work| ==> ItemHolds(cfg, db, work[k]))
    && (forall j, k :: 0 <= j < k < |work| ==> work[j].slate != work[k].slate)
  }

  predicate NotListed(work: seq<WorkItem>, x: SlateId) {
    forall k :: 0 <= k < |work| ==> work[k].slate != x
  }

  ghost predicate PollHolds(cfg: Config, db: Db, p: Poll) {
    match p
    case Resting => true
    case Working(work) => WorkHolds(cfg, db, work)
    case Recording(item, _, work) =>
      WorkHolds(cfg, db, work) && ItemHolds(cfg, db, item) && NotListed(work, item.slate)
    case Confirming(x, i, work) => WorkHolds(cfg, db, work) && Deep(cfg, db, x, i) && NotListed(work, x)
    case Loading(x, i, work) =>
      && WorkHolds(cfg, db, work) && Deep(cfg, db, x, i) && NotListed(work, x)
      && i in db.invoices && db.invoices[i].status == Confirmed
    case Telling(x, i, e, work) =>
      && WorkHolds(cfg, db, work) && Deep(cfg, db, x, i) && NotListed(work, x)
      && e.kind == PaymentConfirmed && e.invoice == Some(i) && EventHolds(cfg, db, e)
  }

  ghost predicate DueHolds(db: Db, due: seq<(InvoiceId, SlateId)>) {
    forall k :: 0 <= k < |due| ==> due[k].0 in db.invoices && db.invoices[due[k].0].slate == Some(due[k].1)
  }

  ghost predicate SweepHolds(db: Db, w: Wallet, p: Sweep) {
    match p
    case Idle => true
    case Sweeping(due) => DueHolds(db, due)
    case Expiring(i, x, due) =>
      DueHolds(db, due) && i in db.invoices && db.invoices[i].slate == Some(x) && x !in w.live
  }

  ghost predicate DbHolds(cfg: Config, db: Db) {
    AmountsBind(db) && PayersRecorded(db) && ConfirmedIsDeep(cfg, db) && EventsHold(cfg, db)
  }

  /** The inductive invariant of the statement-grain system. */
  ghost predicate Holds(cfg: Config, s: Sys) {
    && DbHolds(cfg, s.db)
    && WalletHolds(s)
    && HandlersHold(s)
    && PayersLinkBack(s)
    && PollHolds(cfg, s.db, s.poll)
    && SweepHolds(s.db, s.wallet, s.sweep)
    && ConfirmationsTold(cfg, s.db, s.poll)
  }
}
