/** The ledger at statement grain. The connection pool serialises single SQL
    statements only, so request handlers, the confirmation poll, the expiry
    sweep and the webhook dispatcher interleave between any two of them. A
    handler in flight is its program counter together with what it has read so
    far; one step runs one statement (or one wallet or node call). */
module Interleaving {
  import opened Common
  import opened Tables

  // ------------------------------------------------------------ the handlers

  /** What the wallet hands over after completing an issued invoice slate. */
  datatype Finalized = Finalized(slate: SlateId, amount: u64, kernel: string)

  datatype Handler =
    // persist_and_match, with match_payment inlined
    | Insert(c: Call)
    | AskRecipient(c: Call)
    | AskRef(c: Call)
    | AskAmount(c: Call)
    | Check(c: Call, id: InvoiceId)
    | Flip(c: Call, id: InvoiceId)
    | Link(c: Call, hit: Option<InvoiceId>)
    | Undo(c: Call)
    | Touch(c: Call, id: InvoiceId)
    | ReadRef(c: Call, id: InvoiceId)
    | Notify(c: Call, hit: Option<InvoiceId>, orderRef: Option<string>)
    // settle_finalized
    | Lookup(f: Finalized)
    | Record(f: Finalized, id: InvoiceId, amount: u64, orderRef: Option<string>)
    | Settle(f: Finalized, id: InvoiceId, amount: u64, orderRef: Option<string>)
    | Announce(f: Finalized, id: InvoiceId, amount: u64, orderRef: Option<string>)
    // arm_grin1_rail, after the wallet issued the slate
    | Attach(id: InvoiceId, slate: SlateId)
    | Done

  function ReceivedEvent(c: Call, hit: Option<InvoiceId>, orderRef: Option<string>): Event {
    Event(PaymentReceived, c.slate, c.amount, hit, orderRef, c.user)
  }

  function SettledEvent(f: Finalized, id: InvoiceId, amount: u64, orderRef: Option<string>): Event {
    Event(PaymentReceived, f.slate, amount, Some(id), orderRef, None)
  }

  /** Queueing draws a fresh random event id. */
  ghost predicate Enqueues(db: Db, event: Event, db': Db) {
    exists e :: e !in db.queue && db' == Enqueue(db, e, event)
  }

  function AfterRecipient(c: Call): Handler {
    if c.memo.Some? then AskRef(c) else AskAmount(c)
  }

  function AfterLink(cfg: Config, c: Call, hit: Option<InvoiceId>): Handler {
    if !cfg.webhook then Done
    else if hit.Some? then Touch(c, hit.value)
    else Notify(c, None, None)
  }

  /** The amount `settle_finalized` books: the invoice's own figure when it has
      one, never the slate's. */
  function SettledAmount(inv: Invoice, f: Finalized): u64 {
    Clamp(if inv.expected.Some? then inv.expected.value else AsI64(f.amount))
  }

  /** A resolution query: a hit goes on to the amount check, a miss elsewhere. */
  ghost predicate Asks(db: Db, c: Call, q: Query, miss: Handler, h': Handler) {
    || (h' == miss && NoHit(db, c.default, q))
    || (h'.Check? && h' == Check(c, h'.id) && OldestHit(db, c.default, q, h'.id))
  }

  /** One statement of one handler. */
  ghost predicate HandlerStep(cfg: Config, db: Db, h: Handler, db': Db, h': Handler) {
    match h
    case Insert(c) =>
      db' == InsertPayment(db, c.slate, c.amount, c.kernel, None) && h' == AskRecipient(c)
    case AskRecipient(c) =>
      db' == db && Asks(db, c, ByRecipient(c.recipient), AfterRecipient(c), h')
    case AskRef(c) =>
      db' == db && c.memo.Some? && Asks(db, c, ByRef(c.memo.value), AskAmount(c), h')
    case AskAmount(c) =>
      db' == db && Asks(db, c, ByAmount(c.amount), Link(c, None), h')
    case Check(c, id) =>
      && db' == db && id in db.invoices
      && h' == if Binds(db.invoices[id], c.amount) then Flip(c, id) else Undo(c)
    case Flip(c, id) =>
      db' == MarkPaid(db, id, c.slate) && h' == Link(c, Some(id))
    case Link(c, hit) =>
      db' == LinkPayment(db, c.slate, hit, c.user) && h' == AfterLink(cfg, c, hit)
    case Undo(c) =>
      db' == DeletePayment(db, c.slate) && h' == Done
    case Touch(c, id) =>
      db' == ExpireIfDue(db, id) && h' == ReadRef(c, id)
    case ReadRef(c, id) =>
      db' == db && id in db.invoices && h' == Notify(c, Some(id), db.invoices[id].orderRef)
    case Notify(c, hit, orderRef) =>
      Enqueues(db, ReceivedEvent(c, hit, orderRef), db') && h' == Done
    case Lookup(f) =>
      && db' == db
      && ( || (h' == Done && forall i :: i in db.invoices ==> db.invoices[i].slate != Some(f.slate))
           || exists i :: i in db.invoices && db.invoices[i].slate == Some(f.slate) &&
                h' == Record(f, i, SettledAmount(db.invoices[i], f), db.invoices[i].orderRef))
    case Record(f, id, amount, orderRef) =>
      db' == InsertPayment(db, f.slate, amount, f.kernel, Some(id)) && h' == Settle(f, id, amount, orderRef)
    case Settle(f, id, amount, orderRef) =>
      && db' == MarkPaid(db, id, f.slate)
      && h' == if IsOpen(db, id) && cfg.webhook then Announce(f, id, amount, orderRef) else Done
    case Announce(f, id, amount, orderRef) =>
      Enqueues(db, SettledEvent(f, id, amount, orderRef), db') && h' == Done
    case Attach(id, slate) =>
      db' == AttachGrin1(db, id, slate) && h' == Done
    case Done => false
  }

  // ------------------------------------------------------ the background tasks

  datatype WorkItem = WorkItem(slate: SlateId, kernel: string, invoice: Option<InvoiceId>)

  /** The confirmation poll: one task, one pass at a time. */
  datatype Poll =
    | Resting
    | Working(work: seq<WorkItem>)
    | Recording(item: WorkItem, depth: u64, work: seq<WorkItem>)
    | Confirming(slate: SlateId, invoice: InvoiceId, work: seq<WorkItem>)
    | Loading(slate: SlateId, invoice: InvoiceId, work: seq<WorkItem>)
    | Telling(slate: SlateId, invoice: InvoiceId, event: Event, work: seq<WorkItem>)

  predicate InWorkList(cfg: Config, db: Db, x: SlateId) {
    x in db.payments && db.payments[x].kernel.Some? && db.payments[x].confirmations < cfg.required
  }

  /** The SELECT at the head of a poll pass: every kernel-bearing payment below
      the threshold, once each. */
  ghost predicate WorkList(cfg: Config, db: Db, work: seq<WorkItem>) {
    && (forall k :: 0 <= k < |work| ==>
         && InWorkList(cfg, db, work[k].slate)
         && db.payments[work[k].slate].kernel == Some(work[k].kernel)
         && db.payments[work[k].slate].invoice == work[k].invoice)
    && (forall j, k :: 0 <= j < k < |work| ==> work[j].slate != work[k].slate)
    && (forall x :: InWorkList(cfg, db, x) ==> exists k :: 0 <= k < |work| && work[k].slate == x)
  }

  function ConfirmedEvent(db: Db, slate: SlateId, invoice: InvoiceId): Event
    requires slate in db.payments
  {
    var p := db.payments[slate];
    var orderRef := if p.invoice.Some? && p.invoice.value in db.invoices then db.invoices[p.invoice.value].orderRef else None;
    Event(PaymentConfirmed, slate, AsU64(p.amount), Some(invoice), orderRef, p.user)
  }

  ghost predicate PollStep(cfg: Config, db: Db, p: Poll, db': Db, p': Poll) {
    match p
    case Resting =>
      db' == db && p'.Working? && WorkList(cfg, db, p'.work)
    case Working(work) =>
      && db' == db
      && if work == [] then p' == Resting
         // the node either reports no kernel yet (or fails), or a depth
         else p' == Working(work[1..]) || (p'.Recording? && p' == Recording(work[0], p'.depth, work[1..]))
    case Recording(item, depth, work) =>
      && db' == RecordDepth(db, item.slate, AsI64(depth))
      && p' == if AsI64(depth) >= cfg.required && item.invoice.Some?
               then Confirming(item.slate, item.invoice.value, work)
               else Working(work)
    case Confirming(slate, id, work) =>
      && db' == MarkConfirmed(db, id)
      && p' == if IsPaid(db, id) && cfg.webhook then Loading(slate, id, work) else Working(work)
    case Loading(slate, id, work) =>
      && db' == db
      && p' == if slate in db.payments
               then Telling(slate, id, ConfirmedEvent(db, slate, id), work)
               else Working(work)
    case Telling(slate, id, event, work) =>
      Enqueues(db, event, db') && p' == Working(work)
  }

  /** The grin1 expiry sweep: one task, one pass at a time. */
  datatype Sweep =
    | Idle
    | Sweeping(due: seq<(InvoiceId, SlateId)>)
    | Expiring(id: InvoiceId, slate: SlateId, due: seq<(InvoiceId, SlateId)>)

  predicate DueGrin1(db: Db, id: InvoiceId) {
    id in db.invoices && db.invoices[id].slate.Some? && Due(db.now, db.invoices[id])
  }

  ghost predicate DueList(db: Db, due: seq<(InvoiceId, SlateId)>) {
    && (forall k :: 0 <= k < |due| ==> DueGrin1(db, due[k].0) && db.invoices[due[k].0].slate == Some(due[k].1))
    && (forall j, k :: 0 <= j < k < |due| ==> due[j].0 != due[k].0)
    && (forall i :: DueGrin1(db, i) ==> exists k :: 0 <= k < |due| && due[k].0 == i)
  }

  /** The wallet: slate ids it has received, slate ids it has issued, and the
      issued ones whose context can still be finalized. */
  datatype Wallet = Wallet(received: set<SlateId>, issued: set<SlateId>, live: set<SlateId>)

  ghost predicate SweepStep(db: Db, w: Wallet, p: Sweep, db': Db, w': Wallet, p': Sweep) {
    match p
    case Idle =>
      db' == db && w' == w && p'.Sweeping? && DueList(db, p'.due)
    case Sweeping(due) =>
      && db' == db
      && if due == [] then w' == w && p' == Idle
         else || (w' == w.(live := w.live - {due[0].1}) && p' == Expiring(due[0].0, due[0].1, due[1..]))
              || (w' == w && p' == Sweeping(due[1..]))  // the cancel failed: retry next pass
    case Expiring(id, slate, due) =>
      db' == MarkExpired(db, id) && w' == w && p' == Sweeping(due)
  }

  // --------------------------------------------------------------- the system

  datatype Sys = Sys(db: Db, wallet: Wallet, calls: map<nat, Handler>, poll: Poll, sweep: Sweep)

  datatype Action =
    | Tick(now: int)
    | Create(id: InvoiceId, inv: Invoice)
    | ReadInvoice(id: InvoiceId)
    | ListInvoices
    | Issue(t: nat, id: InvoiceId, slate: SlateId)
    | Receive(t: nat, c: Call)
    | Finalize(t: nat, f: Finalized)
    | LoseContext(slate: SlateId)
    | Move(t: nat)
    | PollMoves
    | SweepMoves
    | Reply(slate: SlateId)
    | Attempt(e: EventId, d: Delivery)

  /** The wallet slate a handler works on behalf of. */
  function Owned(h: Handler): Option<SlateId> {
    match h
    case Lookup(f) => Some(f.slate)
    case Record(f, _, _, _) => Some(f.slate)
    case Settle(f, _, _, _) => Some(f.slate)
    case Announce(f, _, _, _) => Some(f.slate)
    case Attach(_, _) => None
    case Done => None
    case _ => Some(h.c.slate)
  }

  ghost predicate Step(cfg: Config, s: Sys, a: Action, s': Sys) {
    match a
    case Tick(now) =>
      s.db.now <= now && s' == s.(db := s.db.(now := now))
    case Create(id, inv) =>
      FreshInvoice(s.db, id, inv) && s' == s.(db := InsertInvoice(s.db, id, inv))
    case ReadInvoice(id) =>
      s' == s.(db := ExpireIfDue(s.db, id))
    case ListInvoices =>
      s' == s.(db := ExpireDue(s.db))
    // the wallet issues a fresh slate for an invoice that has none yet
    case Issue(t, id, slate) =>
      && t !in s.calls
      && id in s.db.invoices && s.db.invoices[id].slate == None
      && (forall u :: u in s.calls && s.calls[u].Attach? ==> s.calls[u].id != id)
      && slate !in s.wallet.received + s.wallet.issued
      && s' == s.(calls := s.calls[t := Attach(id, slate)],
                  wallet := s.wallet.(issued := s.wallet.issued + {slate}, live := s.wallet.live + {slate}))
    // the wallet refuses a slate id it has already received or issued
    case Receive(t, c) =>
      && t !in s.calls
      && c.slate !in s.wallet.received + s.wallet.issued
      && s' == s.(calls := s.calls[t := Insert(c)],
                  wallet := s.wallet.(received := s.wallet.received + {c.slate}))
    // finalizing consumes the stored context
    case Finalize(t, f) =>
      && t !in s.calls
      && f.slate in s.wallet.live
      && s' == s.(calls := s.calls[t := Lookup(f)],
                  wallet := s.wallet.(live := s.wallet.live - {f.slate}))
    case LoseContext(slate) =>
      s' == s.(wallet := s.wallet.(live := s.wallet.live - {slate}))
    case Move(t) =>
      && t in s.calls && t in s'.calls
      && HandlerStep(cfg, s.db, s.calls[t], s'.db, s'.calls[t])
      && s' == s.(db := s'.db, calls := s.calls[t := s'.calls[t]])
    case PollMoves =>
      PollStep(cfg, s.db, s.poll, s'.db, s'.poll) && s' == s.(db := s'.db, poll := s'.poll)
    case SweepMoves =>
      && SweepStep(s.db, s.wallet, s.sweep, s'.db, s'.wallet, s'.sweep)
      && s' == s.(db := s'.db, wallet := s'.wallet, sweep := s'.sweep)
    case Reply(slate) =>
      s' == s.(db := MarkReplied(s.db, slate))
    // the dispatcher rewrites the retry bookkeeping of a delivery, never its body
    case Attempt(e, d) =>
      && e in s.db.queue && d.event == s.db.queue[e].event
      && s' == s.(db := s.db.(queue := s.db.queue[e := d]))
  }

  predicate Init(s: Sys) {
    && s.db.invoices == map[] && s.db.payments == map[] && s.db.queue == map[]
    && s.wallet == Wallet({}, {}, {}) && s.calls == map[] && s.poll == Resting && s.sweep == Idle
  }

  /** A run: the states passed through, starting from an empty ledger. */
  ghost predicate Run(cfg: Config, states: seq<Sys>, actions: seq<Action>) {
    && |states| == |actions| + 1
    && Init(states[0])
    && forall k {:trigger actions[k]} :: 0 <= k < |actions| ==> Step(cfg, states[k], actions[k], states[k + 1])
  }
}
