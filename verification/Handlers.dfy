/** Whole request handlers as single transitions of the tables, and the proof
    that a handler which runs undisturbed at statement grain has exactly that
    effect. */
module Handlers {
  import opened Common
  import opened Tables
  import opened Interleaving
  import opened Safety

  // ------------------------------------------------------- persist_and_match

  datatype Outcome = Matched(invoice: Option<InvoiceId>) | Rejected(expected: u64, received: u64)

  /** The invoice `match_payment` may settle on: derived key first, then the
      memo, then the exact amount. */
  predicate Resolves(db: Db, c: Call, hit: Option<InvoiceId>) {
    if !NoHit(db, c.default, ByRecipient(c.recipient)) then hit.Some? && OldestHit(db, c.default, ByRecipient(c.recipient), hit.value)
    else if c.memo.Some? && !NoHit(db, c.default, ByRef(c.memo.value)) then hit.Some? && OldestHit(db, c.default, ByRef(c.memo.value), hit.value)
    else Answers(db, c.default, ByAmount(c.amount), hit)
  }

  predicate Refuses(db: Db, c: Call, hit: Option<InvoiceId>) {
    hit.Some? && hit.value in db.invoices && !Binds(db.invoices[hit.value], c.amount)
  }

  function AfterMatch(db: Db, c: Call, hit: Option<InvoiceId>): Db {
    if Refuses(db, c, hit) then db
    else LinkPayment(if hit.Some? then MarkPaid(db, hit.value, c.slate) else db, c.slate, hit, c.user)
  }

  function OutcomeOf(db: Db, c: Call, hit: Option<InvoiceId>): Outcome {
    if Refuses(db, c, hit) then Rejected(Clamp(db.invoices[hit.value].expected.value), c.amount) else Matched(hit)
  }

  function Recorded(db: Db, c: Call): Db {
    InsertPayment(db, c.slate, c.amount, c.kernel, None)
  }

  /** What the handler still does once its row is in and its query answered. */
  function Continued(cfg: Config, db: Db, c: Call, hit: Option<InvoiceId>, ev: EventId): Db {
    var matched := AfterMatch(db, c, hit);
    if Refuses(db, c, hit) then DeletePayment(matched, c.slate)
    else if !cfg.webhook then matched
    else
      var read := if hit.Some? then ExpireIfDue(matched, hit.value) else matched;
      Enqueue(read, ev, ReceivedEvent(c, hit, RefOf(read, hit)))
  }

  /** The tables after `persist_and_match`, when the queries answer `hit` and a
      notification, if one is due, draws the event id `ev`. */
  function AfterPersist(cfg: Config, db: Db, c: Call, hit: Option<InvoiceId>, ev: EventId): Db {
    Continued(cfg, Recorded(db, c), c, hit, ev)
  }

  // -------------------------------------------------------- settle_finalized

  /** The tables after `settle_finalized`, when the slate lookup answers `hit`. */
  function AfterSettle(cfg: Config, db: Db, f: Finalized, hit: Option<InvoiceId>, ev: EventId): Db
    requires hit.Some? ==> hit.value in db.invoices
  {
    if hit.None? then db
    else
      var inv := db.invoices[hit.value];
      var amount := SettledAmount(inv, f);
      var recorded := InsertPayment(db, f.slate, amount, f.kernel, hit);
      var paid := MarkPaid(recorded, hit.value, f.slate);
      if inv.status == Open && cfg.webhook
      then Enqueue(paid, ev, SettledEvent(f, hit.value, amount, inv.orderRef))
      else paid
  }

  /** What is booked for a settled invoice: its own figure when it has one, a negative
      one as zero, and otherwise what was paid, unless that is 2^63 or more. */
  lemma SettlesAtTheInvoicesFigure(cfg: Config, db: Db, f: Finalized, id: InvoiceId, ev: EventId)
    requires id in db.invoices && f.slate !in db.payments
    ensures var p := AfterSettle(cfg, db, f, Some(id), ev).payments;
            && f.slate in p && p[f.slate].invoice == Some(id) && p[f.slate].kernel == Some(f.kernel)
            && p[f.slate].amount == match db.invoices[id].expected
                                    case Some(e) => if e > 0 then e else 0
                                    case None => if f.amount < TWO_63 then f.amount else 0
  {
  }

  predicate IssuedFor(db: Db, slate: SlateId, hit: Option<InvoiceId>) {
    match hit
    case None => forall i :: i in db.invoices ==> db.invoices[i].slate != Some(slate)
    case Some(i) => i in db.invoices && db.invoices[i].slate == Some(slate)
  }

  /** A slate armed on an invoice is found again by exactly that invoice. */
  lemma ArmedSlateFindsItsInvoice(db: Db, id: InvoiceId, slate: SlateId)
    requires id in db.invoices && forall i :: i in db.invoices && i != id ==> db.invoices[i].slate != Some(slate)
    ensures forall hit :: IssuedFor(AttachGrin1(db, id, slate), slate, hit) <==> hit == Some(id)
  {
    assert AttachGrin1(db, id, slate).invoices[id].slate == Some(slate);
  }

  lemma SettledLeavesNothingToDo(cfg: Config, db: Db, f: Finalized, id: InvoiceId, ev: EventId)
    requires id in db.invoices
    ensures var db' := AfterSettle(cfg, db, f, Some(id), ev);
            f.slate in db'.payments && id in db'.invoices && db'.invoices[id].status != Open
  {
  }

  /** Settling a slate again, by a replayed finalize, changes nothing, whether or
      not the wallet guards against it: its row is in, its invoice is no longer
      open, and nothing is announced. */
  lemma SettlingTwiceIsSettlingOnce(cfg: Config, db: Db, f: Finalized, g: Finalized, hit: Option<InvoiceId>, ev: EventId, ev': EventId)
    requires (hit.Some? ==> hit.value in db.invoices) && g.slate == f.slate
    ensures hit.Some? ==> hit.value in AfterSettle(cfg, db, f, hit, ev).invoices
    ensures AfterSettle(cfg, AfterSettle(cfg, db, f, hit, ev), g, hit, ev') == AfterSettle(cfg, db, f, hit, ev)
  {
    if hit.Some? {
      SettledLeavesNothingToDo(cfg, db, f, hit.value, ev);
    }
  }

  // ---------------------------------------------------------- the paste form

  datatype PasteRoute = ReceiveS1 | FinalizeI2 | Reject

  /** Where a slatepack pasted on an invoice's page goes. */
  function RoutePaste(state: string, slate: SlateId, inv: Invoice): PasteRoute {
    if state == "S1" then ReceiveS1
    else if state == "I2" then
      if inv.status != Open then Reject
      else if inv.slate == Some(slate) then FinalizeI2
      else Reject
    else Reject
  }

  /** A payment is always received; a response is finalized exactly when it answers
      the open invoice of its page; anything else is rejected. */
  lemma PasteIsRoutedByState(state: string, slate: SlateId, inv: Invoice)
    ensures RoutePaste(state, slate, inv) == ReceiveS1 <==> state == "S1"
    ensures RoutePaste(state, slate, inv) == FinalizeI2 <==> state == "I2" && inv.status == Open && inv.slate == Some(slate)
  {
  }

  /** A paste routed to finalize settles the invoice of its page and no other, as
      each slate is issued for one invoice; once that invoice is no longer open the
      same paste is rejected. */
  lemma PasteSettlesItsOwnInvoice(cfg: Config, db: Db, id: InvoiceId, f: Finalized, hit: Option<InvoiceId>, ev: EventId)
    requires PayersRecorded(db) && id in db.invoices
    requires RoutePaste("I2", f.slate, db.invoices[id]) == FinalizeI2 && IssuedFor(db, f.slate, hit)
    ensures hit == Some(id)
    ensures var db' := AfterSettle(cfg, db, f, hit, ev);
            && db'.invoices == db.invoices[id := db.invoices[id].(status := Paid, paidBy := Some(f.slate))]
            && RoutePaste("I2", f.slate, db'.invoices[id]) == Reject
  {
    assert db.invoices[id].slate == Some(f.slate);
  }

  // ------------------------------------------------ undisturbed handler runs

  datatype Moment = Moment(db: Db, h: Handler)

  ghost predicate SoloStep(cfg: Config, m: Moment, n: Moment) {
    HandlerStep(cfg, m.db, m.h, n.db, n.h)
  }

  /** A handler running undisturbed from `ms[0]` to completion. */
  ghost predicate Solo(cfg: Config, ms: seq<Moment>) {
    && ms != []
    && (forall k :: 0 <= k < |ms| - 1 ==> SoloStep(cfg, ms[k], ms[k + 1]))
    && ms[|ms| - 1].h == Done
  }

  lemma SoloMoves(cfg: Config, ms: seq<Moment>)
    requires Solo(cfg, ms) && ms[0].h != Done
    ensures |ms| > 1 && Solo(cfg, ms[1..])
    ensures HandlerStep(cfg, ms[0].db, ms[0].h, ms[1].db, ms[1].h)
  {
    assert SoloStep(cfg, ms[0], ms[1]);
    forall k | 0 <= k < |ms[1..]| - 1 ensures SoloStep(cfg, ms[1..][k], ms[1..][k + 1]) {
      assert SoloStep(cfg, ms[k + 1], ms[k + 2]);
    }
  }

  lemma SoloEnds(cfg: Config, ms: seq<Moment>)
    requires Solo(cfg, ms) && ms[0].h == Done
    ensures |ms| == 1
  {
    assert |ms| > 1 ==> SoloStep(cfg, ms[0], ms[1]);
  }

  /** From the notification on: one event under a fresh id. */
  lemma SoloNotify(cfg: Config, ms: seq<Moment>) returns (ev: EventId)
    requires Solo(cfg, ms) && ms[0].h.Notify?
    ensures ev !in ms[0].db.queue
    ensures ms[|ms| - 1].db == Enqueue(ms[0].db, ev, ReceivedEvent(ms[0].h.c, ms[0].h.hit, ms[0].h.orderRef))
  {
    SoloMoves(cfg, ms);
    SoloEnds(cfg, ms[1..]);
    var e := ReceivedEvent(ms[0].h.c, ms[0].h.hit, ms[0].h.orderRef);
    ev :| ev !in ms[0].db.queue && ms[1].db == Enqueue(ms[0].db, ev, e);
  }

  ghost function Longest(ids: set<EventId>): (n: nat)
    ensures forall e :: e in ids ==> |e| <= n
  {
    if ids == {} then 0
    else
      var e :| e in ids;
      var n := Longest(ids - {e});
      if |e| > n then |e| else n
  }

  /** There is always an unused event id. */
  lemma FreshEventId(db: Db) returns (ev: EventId)
    ensures ev !in db.queue
  {
    ev := seq(Longest(db.queue.Keys) + 1, _ => '0');
  }

  /** From the link on, with the tables as `match_payment` hands them over. */
  lemma SoloLink(cfg: Config, ms: seq<Moment>) returns (ev: EventId)
    requires Solo(cfg, ms) && ms[0].h.Link?
    ensures ev !in ms[0].db.queue
    ensures var h := ms[0].h;
            var linked := LinkPayment(ms[0].db, h.c.slate, h.hit, h.c.user);
            var read := if h.hit.Some? then ExpireIfDue(linked, h.hit.value) else linked;
            ms[|ms| - 1].db ==
              if cfg.webhook then Enqueue(read, ev, ReceivedEvent(h.c, h.hit, RefOf(read, h.hit))) else linked
  {
    SoloMoves(cfg, ms);
    if !cfg.webhook {
      SoloEnds(cfg, ms[1..]);
      ev := FreshEventId(ms[0].db);
    } else if ms[0].h.hit.Some? {
      SoloMoves(cfg, ms[1..]);
      SoloMoves(cfg, ms[2..]);
      ev := SoloNotify(cfg, ms[3..]);
    } else {
      ev := SoloNotify(cfg, ms[1..]);
    }
  }

  /** From the amount check on. */
  lemma SoloCheck(cfg: Config, ms: seq<Moment>) returns (ev: EventId)
    requires Solo(cfg, ms) && ms[0].h.Check? && ms[0].h.id in ms[0].db.invoices
    ensures ev !in ms[0].db.queue
    ensures ms[|ms| - 1].db == Continued(cfg, ms[0].db, ms[0].h.c, Some(ms[0].h.id), ev)
  {
    SoloMoves(cfg, ms);
    SoloMoves(cfg, ms[1..]);
    if Binds(ms[0].db.invoices[ms[0].h.id], ms[0].h.c.amount) {
      ev := SoloLink(cfg, ms[2..]);
    } else {
      SoloEnds(cfg, ms[2..]);
      ev := FreshEventId(ms[0].db);
    }
  }

  /** A question is asked when nothing answered to those before it. */
  ghost predicate Asked(m: Moment) {
    match m.h
    case AskRecipient(c) => true
    case AskRef(c) => NoHit(m.db, c.default, ByRecipient(c.recipient))
    case AskAmount(c) =>
      NoHit(m.db, c.default, ByRecipient(c.recipient)) && (c.memo.Some? ==> NoHit(m.db, c.default, ByRef(c.memo.value)))
    case _ => false
  }

  /** From any of the three questions on. */
  lemma SoloAsks(cfg: Config, ms: seq<Moment>) returns (hit: Option<InvoiceId>, ev: EventId)
    requires Solo(cfg, ms) && Asked(ms[0])
    ensures Resolves(ms[0].db, ms[0].h.c, hit) && ev !in ms[0].db.queue
    ensures ms[|ms| - 1].db == Continued(cfg, ms[0].db, ms[0].h.c, hit, ev)
    decreases |ms|
  {
    SoloMoves(cfg, ms);
    if ms[1].h.Check? {
      hit := Some(ms[1].h.id);
      ev := SoloCheck(cfg, ms[1..]);
    } else if ms[1].h.Link? {
      hit := None;
      ev := SoloLink(cfg, ms[1..]);
    } else {
      hit, ev := SoloAsks(cfg, ms[1..]);
    }
  }

  lemma SameHits(a: Db, b: Db, default: Mode, q: Query)
    requires b.invoices == a.invoices && b.now == a.now
    ensures NoHit(a, default, q) <==> NoHit(b, default, q)
    ensures forall i :: OldestHit(a, default, q, i) <==> OldestHit(b, default, q, i)
  {
    assert forall i :: HitsId(a, default, q, i) <==> HitsId(b, default, q, i);
  }

  /** The queries read only the invoices and the clock. */
  lemma SameAnswers(a: Db, b: Db, c: Call, hit: Option<InvoiceId>)
    requires b.invoices == a.invoices && b.now == a.now
    ensures Resolves(a, c, hit) <==> Resolves(b, c, hit)
  {
    SameHits(a, b, c.default, ByRecipient(c.recipient));
    SameHits(a, b, c.default, ByAmount(c.amount));
    if c.memo.Some? {
      SameHits(a, b, c.default, ByRef(c.memo.value));
    }
  }

  /** Undisturbed, the statements of `persist_and_match` add up to `AfterPersist`
      for an invoice its queries may answer. */
  lemma PersistAloneIsAtomic(cfg: Config, ms: seq<Moment>) returns (hit: Option<InvoiceId>, ev: EventId)
    requires Solo(cfg, ms) && ms[0].h.Insert?
    ensures Resolves(ms[0].db, ms[0].h.c, hit) && ev !in ms[0].db.queue
    ensures ms[|ms| - 1].db == AfterPersist(cfg, ms[0].db, ms[0].h.c, hit, ev)
  {
    SoloMoves(cfg, ms);
    hit, ev := SoloAsks(cfg, ms[1..]);
    SameAnswers(ms[0].db, ms[1].db, ms[0].h.c, hit);
  }

  /** Undisturbed, the statements of `settle_finalized` add up to `AfterSettle`. */
  lemma SettleAloneIsAtomic(cfg: Config, ms: seq<Moment>) returns (hit: Option<InvoiceId>, ev: EventId)
    requires Solo(cfg, ms) && ms[0].h.Lookup?
    ensures IssuedFor(ms[0].db, ms[0].h.f.slate, hit) && ev !in ms[0].db.queue
    ensures ms[|ms| - 1].db == AfterSettle(cfg, ms[0].db, ms[0].h.f, hit, ev)
  {
    SoloMoves(cfg, ms);
    var db := ms[0].db;
    if ms[1].h == Done {
      SoloEnds(cfg, ms[1..]);
      hit := None;
      ev := FreshEventId(db);
    } else {
      hit := Some(ms[1].h.id);
      SoloMoves(cfg, ms[1..]);
      SoloMoves(cfg, ms[2..]);
      if ms[3].h == Done {
        SoloEnds(cfg, ms[3..]);
        ev := FreshEventId(db);
      } else {
        SoloMoves(cfg, ms[3..]);
        SoloEnds(cfg, ms[4..]);
        var e := SettledEvent(ms[3].h.f, ms[3].h.id, ms[3].h.amount, ms[3].h.orderRef);
        ev :| ev !in ms[3].db.queue && ms[4].db == Enqueue(ms[3].db, ev, e);
      }
    }
  }
}
