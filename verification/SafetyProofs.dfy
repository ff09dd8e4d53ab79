/** The invariant is inductive: each step evolves the tables and keeps it. Here, the
    statements of the handlers, one at a time: what each of them guarantees to all the
    others, that nobody's local invariant is disturbed by what the others guarantee, and
    so that a handler's step keeps the whole. */
module SafetyProofs {
  import opened Common
  import opened Tables
  import opened Interleaving
  import opened Safety

  // ---------------------------------------------------------------- stability

  predicate Received?(d: Delivery) {
    d.event.kind == PaymentReceived
  }

  /** A step of the ledger other than the poll recording a depth, confirming an
      invoice or announcing it, and other than arming an invoice. */
  ghost predicate Gentle(cfg: Config, a: Db, b: Db, own: Option<SlateId>) {
    && Evolves(a, b) && LeavesAlone(a, b, own) && DepthsKept(a, b)
    && (forall x :: x in b.payments && x !in a.payments ==> b.payments[x].confirmations < cfg.required)
    && (forall x :: x in b.payments && Some(x) == own && b.payments[x].invoice.Some? ==>
         LinkBinds(b, x, b.payments[x].invoice.value))
    && (forall i :: i in b.invoices && b.invoices[i].status == Confirmed ==>
         i in a.invoices && a.invoices[i].status == Confirmed)
    && (forall e :: e in b.queue ==>
         (e in a.queue && b.queue[e].event == a.queue[e].event) || Received?(b.queue[e]))
  }

  lemma HandlerStable(a: Db, b: Db, w: Wallet, w': Wallet, h: Handler, own: Option<SlateId>)
    requires HandlerHolds(a, w, h)
    requires Evolves(a, b) && LeavesAlone(a, b, own) && SlatesKept(a, b)
    requires Owned(h).Some? ==> Owned(h) != own
    requires w.received <= w'.received && w.issued <= w'.issued && w'.live * w.issued <= w.live
    ensures HandlerHolds(b, w', h)
  {
  }

  lemma TablesStable(cfg: Config, a: Db, b: Db, own: Option<SlateId>)
    requires AmountsBind(a) && ConfirmedIsDeep(cfg, a)
    requires Gentle(cfg, a, b, own)
    ensures AmountsBind(b) && ConfirmedIsDeep(cfg, b)
  {
    forall x | x in b.payments && b.payments[x].invoice.Some?
      ensures LinkBinds(b, x, b.payments[x].invoice.value)
    {
      if Some(x) != own {
        assert LinkBinds(a, x, a.payments[x].invoice.value);
      }
    }
    forall i | i in b.invoices && b.invoices[i].status == Confirmed
      ensures exists x :: Deep(cfg, b, x, i)
    {
      var x :| Deep(cfg, a, x, i);
      assert Deep(cfg, b, x, i);
    }
  }

  lemma QueueStable(cfg: Config, a: Db, b: Db, own: Option<SlateId>)
    requires EventsHold(cfg, a)
    requires Gentle(cfg, a, b, own)
    ensures EventsHold(cfg, b)
  {
    forall d, e, i | d in b.queue && e in b.queue && Confirms(b.queue[d], i) && Confirms(b.queue[e], i)
      ensures d == e
    {
      assert Confirms(a.queue[d], i) && Confirms(a.queue[e], i);
    }
  }

  lemma ToldStable(cfg: Config, a: Db, b: Db, p: Poll, own: Option<SlateId>)
    requires ConfirmationsTold(cfg, a, p)
    requires Gentle(cfg, a, b, own)
    ensures ConfirmationsTold(cfg, b, p)
  {
    forall d | Untold(p).Some? && d in b.queue
      ensures !Confirms(b.queue[d], Untold(p).value)
    {
      if !Received?(b.queue[d]) {
        assert !Confirms(a.queue[d], Untold(p).value);
      }
    }
    forall i | cfg.webhook && i in b.invoices && b.invoices[i].status == Confirmed && Untold(p) != Some(i)
      ensures exists d :: d in b.queue && Confirms(b.queue[d], i)
    {
      var d :| d in a.queue && Confirms(a.queue[d], i);
      assert Confirms(b.queue[d], i);
    }
  }

  /** Everything but the acting handler, the payers and the wallet. */
  lemma BystandersHold(cfg: Config, s: Sys, s': Sys, own: Option<SlateId>)
    requires Holds(cfg, s)
    requires Gentle(cfg, s.db, s'.db, own)
    requires s'.poll == s.poll && s'.sweep == s.sweep
    requires s'.wallet.live * s.wallet.issued <= s.wallet.live
    ensures AmountsBind(s'.db) && ConfirmedIsDeep(cfg, s'.db) && EventsHold(cfg, s'.db)
    ensures PollHolds(cfg, s'.db, s'.poll) && SweepHolds(s'.db, s'.wallet, s'.sweep)
    ensures ConfirmationsTold(cfg, s'.db, s'.poll)
  {
    TablesStable(cfg, s.db, s'.db, own);
    QueueStable(cfg, s.db, s'.db, own);
    ToldStable(cfg, s.db, s'.db, s.poll, own);
  }

  /** Handler `t` moved from `h` to `h'`; the others are stable. */
  lemma HandlersStable(s: Sys, s': Sys, t: nat, own: Option<SlateId>)
    requires HandlersHold(s)
    requires Evolves(s.db, s'.db) && LeavesAlone(s.db, s'.db, own) && SlatesKept(s.db, s'.db)
    requires s'.wallet == s.wallet
    requires t in s.calls && t in s'.calls && s'.calls == s.calls[t := s'.calls[t]]
    requires own == Owned(s.calls[t]) && (s'.calls[t].Done? || Owned(s'.calls[t]) == own) && !s'.calls[t].Attach?
    requires own.Some?
    requires HandlerHolds(s'.db, s'.wallet, s'.calls[t])
    ensures HandlersHold(s')
  {
    forall u | u in s'.calls ensures HandlerHolds(s'.db, s'.wallet, s'.calls[u]) {
      if u != t {
        HandlerStable(s.db, s'.db, s.wallet, s'.wallet, s.calls[u], own);
      }
    }
  }

  // ---------------------------------------------------- the statements, singly

  /** A linked row still binds after any evolution that keeps it. */
  lemma LinkedRowBinds(a: Db, b: Db, x: SlateId)
    requires AmountsBind(a) && Evolves(a, b)
    requires x in a.payments && a.payments[x].invoice.Some?
    ensures x in b.payments && b.payments[x].invoice == a.payments[x].invoice
    ensures LinkBinds(b, x, b.payments[x].invoice.value)
  {
    assert LinkBinds(a, x, a.payments[x].invoice.value);
  }

  lemma ReadGentle(cfg: Config, db: Db, own: Option<SlateId>)
    requires AmountsBind(db)
    ensures Gentle(cfg, db, db, own)
  {
  }

  /** Rewriting the status and the payer of one row. */
  lemma RowGentle(cfg: Config, db: Db, id: InvoiceId, row: Invoice, own: Option<SlateId>)
    requires AmountsBind(db)
    requires id in db.invoices && RowEvolves(db.invoices[id], row) && row.slate == db.invoices[id].slate
    requires row.status == Confirmed ==> db.invoices[id].status == Confirmed
    requires row.paidBy == db.invoices[id].paidBy || row.paidBy == own
    ensures Gentle(cfg, db, db.(invoices := db.invoices[id := row]), own)
  {
    var b := db.(invoices := db.invoices[id := row]);
    assert Evolves(db, b);
    assert LeavesAlone(db, b, own);
    forall x | x in b.payments && Some(x) == own && b.payments[x].invoice.Some?
      ensures LinkBinds(b, x, b.payments[x].invoice.value)
    {
      LinkedRowBinds(db, b, x);
    }
  }

  lemma MarkPaidGentle(cfg: Config, db: Db, id: InvoiceId, x: SlateId)
    requires AmountsBind(db) && PayersRecorded(db) && NotAPayer(db, x)
    ensures Gentle(cfg, db, MarkPaid(db, id, x), Some(x)) && PayersRecorded(MarkPaid(db, id, x))
  {
    if IsOpen(db, id) {
      RowGentle(cfg, db, id, db.invoices[id].(status := Paid, paidBy := Some(x)), Some(x));
    } else {
      ReadGentle(cfg, db, Some(x));
    }
  }

  lemma InsertGentle(cfg: Config, db: Db, x: SlateId, amount: u64, kernel: string, invoice: Option<InvoiceId>)
    requires ValidConfig(cfg) && x !in db.payments
    requires invoice.Some? ==>
               && invoice.value in db.invoices && amount < TWO_63
               && (db.invoices[invoice.value].expected.Some? ==> amount == Clamp(db.invoices[invoice.value].expected.value))
    ensures Gentle(cfg, db, InsertPayment(db, x, amount, kernel, invoice), Some(x))
  {
  }

  lemma LinkGentle(cfg: Config, db: Db, c: Call, hit: Option<InvoiceId>)
    requires Unlinked(db, c)
    requires hit.Some? ==> hit.value in db.invoices && Binds(db.invoices[hit.value], c.amount)
    ensures Gentle(cfg, db, LinkPayment(db, c.slate, hit, c.user), Some(c.slate))
  {
  }

  lemma UndoGentle(cfg: Config, db: Db, c: Call)
    requires Unlinked(db, c)
    ensures Gentle(cfg, db, DeletePayment(db, c.slate), Some(c.slate))
  {
  }

  lemma ExpireGentle(cfg: Config, db: Db, id: InvoiceId, own: Option<SlateId>)
    requires AmountsBind(db) && PayersRecorded(db)
    ensures Gentle(cfg, db, MarkExpired(db, id), own) && PayersRecorded(MarkExpired(db, id))
  {
    if IsOpen(db, id) {
      RowGentle(cfg, db, id, db.invoices[id].(status := Expired), own);
    } else {
      ReadGentle(cfg, db, own);
    }
  }

  lemma EnqueueGentle(cfg: Config, db: Db, e: EventId, event: Event, own: Option<SlateId>)
    requires AmountsBind(db) && e !in db.queue && event.kind == PaymentReceived
    ensures Gentle(cfg, db, Enqueue(db, e, event), own)
  {
    var b := Enqueue(db, e, event);
    assert Evolves(db, b);
    if own.Some? && own.value in db.payments && db.payments[own.value].invoice.Some? {
      LinkedRowBinds(db, b, own.value);
    }
  }

  // -------------------------------------------------------- one handler moves

  lemma PersistIsGentle(cfg: Config, db: Db, w: Wallet, h: Handler, db': Db, h': Handler)
    requires ValidConfig(cfg) && AmountsBind(db) && PayersRecorded(db)
    requires HandlerHolds(db, w, h) && HandlerStep(cfg, db, h, db', h')
    requires h.Insert? || h.Flip? || h.Link? || h.Undo?
    ensures Gentle(cfg, db, db', Owned(h)) && PayersRecorded(db')
  {
    match h
    case Insert(c) => InsertGentle(cfg, db, c.slate, c.amount, c.kernel, None);
    case Flip(c, id) => MarkPaidGentle(cfg, db, id, c.slate);
    case Link(c, hit) => LinkGentle(cfg, db, c, hit);
    case Undo(c) => UndoGentle(cfg, db, c);
  }

  lemma SettleIsGentle(cfg: Config, db: Db, w: Wallet, h: Handler, db': Db, h': Handler)
    requires ValidConfig(cfg) && AmountsBind(db) && PayersRecorded(db)
    requires HandlerHolds(db, w, h) && HandlerStep(cfg, db, h, db', h')
    requires h.Record? || h.Settle?
    ensures Gentle(cfg, db, db', Owned(h)) && PayersRecorded(db')
  {
    match h
    case Record(f, id, amount, _) => InsertGentle(cfg, db, f.slate, amount, f.kernel, Some(id));
    case Settle(f, id, _, _) => MarkPaidGentle(cfg, db, id, f.slate);
  }

  lemma NotifyGentle(cfg: Config, db: Db, h: Handler, db': Db, h': Handler)
    requires AmountsBind(db) && PayersRecorded(db)
    requires HandlerStep(cfg, db, h, db', h') && (h.Notify? || h.Announce?)
    ensures Gentle(cfg, db, db', Owned(h)) && PayersRecorded(db')
  {
    var event := if h.Notify? then ReceivedEvent(h.c, h.hit, h.orderRef) else SettledEvent(h.f, h.id, h.amount, h.orderRef);
    var e :| e !in db.queue && db' == Enqueue(db, e, event);
    EnqueueGentle(cfg, db, e, event, Owned(h));
  }

  /** Every statement of a slate-owning handler is gentle. */
  lemma StatementIsGentle(cfg: Config, db: Db, w: Wallet, h: Handler, db': Db, h': Handler)
    requires ValidConfig(cfg) && AmountsBind(db) && PayersRecorded(db)
    requires HandlerHolds(db, w, h) && HandlerStep(cfg, db, h, db', h') && !h.Attach?
    ensures Gentle(cfg, db, db', Owned(h)) && PayersRecorded(db')
  {
    if h.Insert? || h.Flip? || h.Link? || h.Undo? {
      PersistIsGentle(cfg, db, w, h, db', h');
    } else if h.Record? || h.Settle? {
      SettleIsGentle(cfg, db, w, h, db', h');
    } else if h.Notify? || h.Announce? {
      NotifyGentle(cfg, db, h, db', h');
    } else {
      ReadGentle(cfg, db, Owned(h));
      if h.Touch? {
        ExpireGentle(cfg, db, h.id, Owned(h));
      }
    }
  }

  lemma PersistAdvances(cfg: Config, db: Db, w: Wallet, h: Handler, db': Db, h': Handler)
    requires HandlerHolds(db, w, h) && HandlerStep(cfg, db, h, db', h')
    requires h.Insert? || h.Flip? || h.Link? || h.Undo?
    ensures HandlerHolds(db', w, h')
  {
  }

  /** Every statement leaves its handler's invariant true at the next one. */
  lemma StatementAdvances(cfg: Config, db: Db, w: Wallet, h: Handler, db': Db, h': Handler)
    requires HandlerHolds(db, w, h) && HandlerStep(cfg, db, h, db', h') && !h.Attach?
    ensures HandlerHolds(db', w, h')
    ensures Owned(h).Some? && (h'.Done? || (Owned(h') == Owned(h) && !h'.Attach?))
  {
    if h.Insert? || h.Flip? || h.Link? || h.Undo? {
      PersistAdvances(cfg, db, w, h, db', h');
    }
  }

  /** A payer that a statement just wrote is one its handler links next, or has
      linked already. */
  lemma StatementPays(cfg: Config, db: Db, w: Wallet, h: Handler, db': Db, h': Handler, i: InvoiceId)
    requires HandlerHolds(db, w, h) && HandlerStep(cfg, db, h, db', h') && !h.Attach?
    requires i in db'.invoices && db'.invoices[i].paidBy.Some?
    requires i in db.invoices ==> db.invoices[i].paidBy != db'.invoices[i].paidBy
    ensures var x := db'.invoices[i].paidBy.value;
            x in db'.payments && (LinkPending(h', x, i) || db'.payments[x].invoice == Some(i))
  {
  }

  /** Nor does it unlink a payer: the row stays, linked or about to be. */
  lemma StatementKeepsPayer(cfg: Config, db: Db, w: Wallet, h: Handler, db': Db, h': Handler, i: InvoiceId, x: SlateId)
    requires HandlerHolds(db, w, h) && HandlerStep(cfg, db, h, db', h') && !h.Attach?
    requires i in db.invoices && db.invoices[i].paidBy == Some(x) && x in db.payments
    requires db.payments[x].invoice == Some(i) || LinkPending(h, x, i)
    ensures x in db'.payments && db'.payments[x].invoice == Some(i)
  {
  }

  lemma PayerStays(cfg: Config, s: Sys, t: nat, s': Sys, i: InvoiceId, x: SlateId)
    requires HandlersHold(s) && PayersLinkBack(s)
    requires Step(cfg, s, Move(t), s') && !s.calls[t].Attach?
    requires Gentle(cfg, s.db, s'.db, Owned(s.calls[t]))
    requires i in s.db.invoices && s.db.invoices[i].paidBy == Some(x)
    requires i in s'.db.invoices && s'.db.invoices[i].paidBy == Some(x)
    ensures PayerLinks(s'.db, s'.calls, i)
  {
    assert HandlerHolds(s.db, s.wallet, s.calls[t]);
    assert PayerLinks(s.db, s.calls, i);
    if s.db.payments[x].invoice == Some(i) || LinkPending(s.calls[t], x, i) {
      StatementKeepsPayer(cfg, s.db, s.wallet, s.calls[t], s'.db, s'.calls[t], i, x);
    } else {
      var u :| u in s.calls && LinkPending(s.calls[u], x, i);
      assert LinkPending(s'.calls[u], x, i);
    }
  }

  lemma MoveKeepsPayers(cfg: Config, s: Sys, t: nat, s': Sys)
    requires HandlersHold(s) && PayersLinkBack(s)
    requires Step(cfg, s, Move(t), s') && !s.calls[t].Attach?
    requires Gentle(cfg, s.db, s'.db, Owned(s.calls[t]))
    ensures PayersLinkBack(s')
  {
    var h := s.calls[t];
    assert HandlerHolds(s.db, s.wallet, h);
    forall i | i in s'.db.invoices && s'.db.invoices[i].paidBy.Some?
      ensures PayerLinks(s'.db, s'.calls, i)
    {
      var x := s'.db.invoices[i].paidBy.value;
      if i in s.db.invoices && s.db.invoices[i].paidBy == Some(x) {
        PayerStays(cfg, s, t, s', i, x);
      } else {
        StatementPays(cfg, s.db, s.wallet, h, s'.db, s'.calls[t], i);
      }
    }
  }

  lemma StatementKeepsSlates(cfg: Config, db: Db, h: Handler, db': Db, h': Handler)
    requires HandlerStep(cfg, db, h, db', h') && !h.Attach?
    ensures SlatesKept(db, db')
  {
  }

  lemma StatementKeepsWallet(cfg: Config, db: Db, w: Wallet, h: Handler, db': Db, h': Handler)
    requires HandlerHolds(db, w, h) && HandlerStep(cfg, db, h, db', h') && !h.Attach?
    requires db.payments.Keys <= w.received + w.issued && w.received !! w.issued && w.live <= w.issued
    requires w.live !! db.payments.Keys
    ensures db'.payments.Keys <= w.received + w.issued && w.live !! db'.payments.Keys
  {
  }

  lemma MoveKeeps(cfg: Config, s: Sys, t: nat, s': Sys)
    requires Holds(cfg, s) && ValidConfig(cfg)
    requires Step(cfg, s, Move(t), s') && !s.calls[t].Attach?
    ensures Holds(cfg, s') && Evolves(s.db, s'.db)
  {
    var h, h' := s.calls[t], s'.calls[t];
    assert HandlerHolds(s.db, s.wallet, h);
    StatementAdvances(cfg, s.db, s.wallet, h, s'.db, h');
    StatementIsGentle(cfg, s.db, s.wallet, h, s'.db, h');
    StatementKeepsWallet(cfg, s.db, s.wallet, h, s'.db, h');
    StatementKeepsSlates(cfg, s.db, h, s'.db, h');
    MoveKeepsPayers(cfg, s, t, s');
    BystandersHold(cfg, s, s', Owned(h));
    HandlersStable(s, s', t, Owned(h));
  }
}
