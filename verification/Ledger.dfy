/** The server's handlers and tasks as they run: methods that change the tables
    statement by statement, each proved to have the effect that the interleaving
    proofs and the pass lemmas speak about. */
module Ledgers {
  import opened Common
  import opened Tables
  import opened Interleaving
  import opened Handlers
  import opened Resolution
  import opened Passes
  import opened PlainSend
  import opened Sets

  lemma OldestHitExists(db: Db, default: Mode, q: Query)
    ensures NoHit(db, default, q) <==> forall i :: i in db.invoices ==> !OldestHit(db, default, q, i)
  {
    if !NoHit(db, default, q) {
      var hits := set i | i in db.invoices && HitsId(db, default, q, i);
      var some :| some in db.invoices && HitsId(db, default, q, some);
      assert some in hits;
      var age := (i: InvoiceId) => if i in db.invoices then db.invoices[i].created else 0;
      var id := Minimum(hits, age);
      forall j | j in hits ensures db.invoices[id].created <= db.invoices[j].created {
        assert age(id) <= age(j);
      }
      assert OldestHit(db, default, q, id);
    }
  }

  class Ledger {
    var now: int
    var invoices: map<InvoiceId, Invoice>
    var payments: map<SlateId, Payment>
    var queue: map<EventId, Delivery>

    constructor (at: int)
      ensures State() == Db(at, map[], map[], map[])
    {
      now, invoices, payments, queue := at, map[], map[], map[];
    }

    function State(): Db
      reads this
    {
      Db(now, invoices, payments, queue)
    }

    // ------------------------------------------------------ invoice statements

    /** `create`'s INSERT, under an id drawn beforehand. */
    method Create(id: InvoiceId, inv: Invoice)
      requires FreshInvoice(State(), id, inv)
      modifies this`invoices
      ensures State() == InsertInvoice(old(State()), id, inv)
      ensures Inserted(old(State())) ==> Inserted(State())
    {
      if Inserted(State()) {
        CreateKeepsInserted(State(), id, inv);
      }
      invoices := invoices[id := inv];
    }

    method MarkPaid(id: InvoiceId, slate: SlateId) returns (flipped: bool)
      modifies this`invoices
      ensures State() == Tables.MarkPaid(old(State()), id, slate)
      ensures flipped <==> IsOpen(old(State()), id)
    {
      flipped := id in invoices && invoices[id].status == Open;
      if flipped {
        invoices := invoices[id := invoices[id].(status := Paid, paidBy := Some(slate))];
      }
    }

    method MarkConfirmed(id: InvoiceId) returns (flipped: bool)
      modifies this`invoices
      ensures State() == Tables.MarkConfirmed(old(State()), id)
      ensures flipped <==> IsPaid(old(State()), id)
    {
      flipped := id in invoices && invoices[id].status == Paid;
      if flipped {
        invoices := invoices[id := invoices[id].(status := Confirmed)];
      }
    }

    method MarkExpired(id: InvoiceId) returns (flipped: bool)
      modifies this`invoices
      ensures State() == Tables.MarkExpired(old(State()), id)
      ensures flipped <==> IsOpen(old(State()), id)
    {
      flipped := id in invoices && invoices[id].status == Open;
      if flipped {
        invoices := invoices[id := invoices[id].(status := Expired)];
      }
    }

    /** Reading an invoice expires it first when it is due. */
    method Get(id: InvoiceId) returns (r: Option<Invoice>)
      modifies this`invoices
      ensures State() == ExpireIfDue(old(State()), id)
      ensures r == if id in invoices then Some(invoices[id]) else None
      ensures r.Some? && r.value.status == Open && r.value.expiry.Some? ==> now < r.value.expiry.value
      ensures r.Some? && r.value.status == Expired && old(invoices)[id].status != Expired ==>
                r.value.expiry.Some? && r.value.expiry.value <= now
    {
      if id in invoices && Due(now, invoices[id]) {
        invoices := invoices[id := invoices[id].(status := Expired)];
      }
      r := if id in invoices then Some(invoices[id]) else None;
    }

    // --------------------------------------------------------------- matching

    /** One resolution query: `ORDER BY created_at LIMIT 1`. */
    method Resolve(default: Mode, q: Query) returns (r: Option<InvoiceId>)
      ensures Answers(State(), default, q, r)
      ensures if r.Some? then OldestSuits(State(), default, q, r.value) else NoneSuits(State(), default, q)
    {
      OldestHitExists(State(), default, q);
      QueryIsSuited(State(), default, q);
      if id :| id in invoices && OldestHit(State(), default, q, id) {
        r := Some(id);
      } else {
        r := None;
      }
    }

    /** `match_payment`: resolve, bind the amount, flip the invoice, link the row. */
    method MatchPayment(c: Call) returns (outcome: Outcome, hit: Option<InvoiceId>)
      modifies this`invoices, this`payments
      ensures Resolves(old(State()), c, hit) && Chosen(old(State()), c, hit)
      ensures State() == AfterMatch(old(State()), c, hit)
      ensures outcome == OutcomeOf(old(State()), c, hit)
    {
      hit := Resolve(c.default, ByRecipient(c.recipient));
      if hit.None? && c.memo.Some? {
        hit := Resolve(c.default, ByRef(c.memo.value));
      }
      if hit.None? {
        hit := Resolve(c.default, ByAmount(c.amount));
      }
      ResolvesToTheFirst(State(), c, hit);
      if hit.Some? {
        var expected := invoices[hit.value].expected;
        if expected.Some? && c.amount != Clamp(expected.value) {
          return Rejected(Clamp(expected.value), c.amount), hit;
        }
        var _ := MarkPaid(hit.value, c.slate);
      }
      if c.slate in payments {
        payments := payments[c.slate := payments[c.slate].(invoice := hit, user := c.user)];
      }
      outcome := Matched(hit);
    }

    /** `persist_and_match`: record, match, undo on a mismatch, notify. */
    method PersistAndMatch(cfg: Config, c: Call, ev: EventId) returns (outcome: Outcome, hit: Option<InvoiceId>)
      modifies this
      ensures Resolves(old(State()), c, hit)
      ensures State() == AfterPersist(cfg, old(State()), c, hit, ev)
      ensures outcome == OutcomeOf(old(State()), c, hit)
      ensures outcome.Rejected? && c.slate !in old(payments) ==> State() == old(State())
    {
      if c.slate !in payments {
        payments := payments[c.slate := Payment(AsI64(c.amount), Some(c.kernel), None, None, 0, Received)];
      }
      ghost var recorded := State();
      outcome, hit := MatchPayment(c);
      SameAnswers(old(State()), recorded, c, hit);
      if outcome.Rejected? {
        payments := payments - {c.slate};
        return;
      }
      if cfg.webhook {
        var orderRef := None;
        if hit.Some? {
          var inv := Get(hit.value);
          orderRef := if inv.Some? then inv.value.orderRef else None;
        }
        queue := queue[ev := Delivery(ReceivedEvent(c, hit, orderRef), 0, false, now)];
      }
    }

    // ---------------------------------------------------- the invoice-flow rail

    /** `attach_grin1`: arm an invoice with the slate issued for it. */
    method Attach(id: InvoiceId, slate: SlateId)
      modifies this`invoices
      ensures State() == AttachGrin1(old(State()), id, slate)
      ensures id in invoices && (forall i :: i in invoices && i != id ==> old(invoices)[i].slate != Some(slate)) ==>
                forall hit :: IssuedFor(State(), slate, hit) <==> hit == Some(id)
    {
      if id in invoices && forall i :: i in invoices && i != id ==> invoices[i].slate != Some(slate) {
        ArmedSlateFindsItsInvoice(State(), id, slate);
      }
      if id in invoices {
        invoices := invoices[id := invoices[id].(slate := Some(slate))];
      }
    }

    /** `get_by_slate_id`. */
    method IssuedInvoice(slate: SlateId) returns (r: Option<InvoiceId>)
      ensures IssuedFor(State(), slate, r)
    {
      if id :| id in invoices && invoices[id].slate == Some(slate) {
        r := Some(id);
      } else {
        r := None;
      }
    }

    /** `settle_finalized`: record at the invoice's own amount, flip, notify on
        the flip only. */
    method SettleFinalized(cfg: Config, f: Finalized, ev: EventId) returns (hit: Option<InvoiceId>)
      modifies this
      ensures IssuedFor(old(State()), f.slate, hit)
      ensures State() == AfterSettle(cfg, old(State()), f, hit, ev)
    {
      hit := IssuedInvoice(f.slate);
      if hit.None? { return; }
      var id, inv := hit.value, invoices[hit.value];
      var amount := Clamp(if inv.expected.Some? then inv.expected.value else AsI64(f.amount));
      if f.slate !in payments {
        payments := payments[f.slate := Payment(AsI64(amount), Some(f.kernel), Some(id), None, 0, Received)];
      }
      var flipped := MarkPaid(id, f.slate);
      if flipped && cfg.webhook {
        queue := queue[ev := Delivery(SettledEvent(f, id, amount, inv.orderRef), 0, false, now)];
      }
    }

    // --------------------------------------------------------- background tasks

    /** `finalize_invoice`: confirm, and notify on the transition only. */
    method FinalizeInvoice(cfg: Config, slate: SlateId, id: InvoiceId, ev: EventId)
      modifies this
      ensures State() == AfterFinalize(cfg, old(State()), slate, id, ev)
    {
      var flipped := MarkConfirmed(id);
      if !flipped || !cfg.webhook || slate !in payments { return; }
      queue := queue[ev := Delivery(ConfirmedEvent(State(), slate, id), 0, false, now)];
    }

    /** `confirm_pending` over a work list and the node's answers. */
    method ConfirmPending(cfg: Config, rs: seq<Reading>)
      requires PassOver(cfg, State(), rs)
      modifies this
      ensures State() == AfterReadings(cfg, old(State()), rs)
      ensures forall i :: i in old(invoices) ==>
                i in invoices &&
                invoices[i] == if old(invoices)[i].status == Paid && Reached(cfg, rs, i)
                               then old(invoices)[i].(status := Confirmed) else old(invoices)[i]
      ensures forall k :: 0 <= k < |rs| && rs[k].depth.Some? ==>
                rs[k].item.slate in old(payments) && rs[k].item.slate in payments &&
                Deepened(old(payments)[rs[k].item.slate], payments[rs[k].item.slate], rs[k].depth.value)
    {
      ghost var before := State();
      for k := 0 to |rs|
        invariant State() == AfterReadings(cfg, before, rs[..k])
      {
        assert rs[..k + 1][..k] == rs[..k];
        var slate, id := rs[k].item.slate, rs[k].item.invoice;
        if rs[k].depth.Some? {
          var depth := AsI64(rs[k].depth.value);
          if slate in payments {
            payments := payments[slate := payments[slate].(confirmations := depth, status := OnChain)];
          }
          if depth >= cfg.required && id.Some? {
            FinalizeInvoice(cfg, slate, id.value, rs[k].ev);
          }
        }
      }
      assert rs[..|rs|] == rs;
      PassConfirmsExactly(cfg, before, rs);
      PassIsReadable(cfg, before, rs);
      PassDeepens(cfg, before, rs);
    }

    /** The expiry sweep: cancel each due context, and expire only on success. */
    method SweepExpired(due: seq<(InvoiceId, SlateId)>, cancelled: seq<bool>, live: set<SlateId>) returns (live': set<SlateId>)
      requires DueList(State(), due) && |due| == |cancelled|
      modifies this`invoices
      ensures State() == AfterSweep(old(State()), due, cancelled)
      ensures live' == live - Cancelled(due, cancelled)
      ensures forall i :: i in invoices && invoices[i].status == Expired && i in old(invoices) && old(invoices)[i].status == Open ==>
                invoices[i].slate.Some? && invoices[i].slate.value !in live'
    {
      ghost var before := State();
      live' := live;
      for k := 0 to |due|
        invariant State() == AfterSweep(before, due[..k], cancelled[..k])
        invariant live' == live - Cancelled(due[..k], cancelled[..k])
      {
        assert due[..k + 1][..k] == due[..k];
        assert cancelled[..k + 1][..k] == cancelled[..k];
        if cancelled[k] {
          live' := live' - {due[k].1};
          var _ := MarkExpired(due[k].0);
        }
      }
      assert due[..|due|] == due && cancelled[..|due|] == cancelled;
      SweepExpiresExactly(before, due, cancelled);
      forall i | i in before.invoices && before.invoices[i].status == Open && invoices[i].status == Expired
        ensures invoices[i].slate.Some? && invoices[i].slate.value !in live'
      {
        SweptContextsAreGone(before, due, cancelled, live, i);
      }
    }
  }
}
