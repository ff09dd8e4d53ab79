/** Which invoice a payment settles, told from the invoice's side: every invoice
    answers one question only, that of its own matching mode. */
module Resolution {
  import opened Common
  import opened Tables
  import opened Handlers

  /** The one question an invoice answers, by its own mode or else the default. */
  function AskedBy(inv: Invoice, default: Mode): Option<Query> {
    match (match inv.mode case None => default case Some(mode) => mode)
    case Derived => Some(ByRecipient(inv.recipient))
    case Memo => if inv.orderRef.Some? then Some(ByRef(inv.orderRef.value)) else None
    case Amount => if inv.expected.Some? then Some(ByAmount(AsU64(inv.expected.value))) else None
  }

  /** An open invoice answers its question; that of its amount not past its expiry. */
  predicate Suits(now: int, default: Mode, q: Query, inv: Invoice) {
    && inv.status == Open && AskedBy(inv, default) == Some(q)
    && (q.ByAmount? && inv.expiry.Some? ==> now < inv.expiry.value)
  }

  lemma HitsAreSuited(now: int, default: Mode, q: Query, inv: Invoice)
    ensures Hits(now, default, q, inv) <==> Suits(now, default, q, inv)
  {
  }

  /** What a payment asks, in order. */
  function Questions(c: Call): seq<Query> {
    [ByRecipient(c.recipient)] + (if c.memo.Some? then [ByRef(c.memo.value)] else []) + [ByAmount(c.amount)]
  }

  /** An invoice the payment may settle. */
  predicate Fits(now: int, c: Call, inv: Invoice) {
    exists k :: 0 <= k < |Questions(c)| && Suits(now, c.default, Questions(c)[k], inv)
  }

  /** The mode written out: a payment fits an open invoice sent to its derived key,
      or naming its reference, or of exactly its amount and not past its expiry. */
  lemma FitsByItsOwnMode(now: int, c: Call, inv: Invoice)
    ensures Fits(now, c, inv) <==>
            inv.status == Open &&
            match (match inv.mode case None => c.default case Some(mode) => mode)
            case Derived => inv.recipient == c.recipient
            case Memo => c.memo.Some? && inv.orderRef == c.memo
            case Amount => inv.expected == Some(AsI64(c.amount)) && (inv.expiry.Some? ==> now < inv.expiry.value)
  {
    var qs := Questions(c);
    assert qs[0] == ByRecipient(c.recipient) && qs[|qs| - 1] == ByAmount(c.amount);
    assert c.memo.Some? ==> qs[1] == ByRef(c.memo.value);
  }

  ghost predicate NoneSuits(db: Db, default: Mode, q: Query) {
    forall j :: j in db.invoices ==> !Suits(db.now, default, q, db.invoices[j])
  }

  ghost predicate OldestSuits(db: Db, default: Mode, q: Query, i: InvoiceId) {
    && i in db.invoices && Suits(db.now, default, q, db.invoices[i])
    && forall j :: j in db.invoices && Suits(db.now, default, q, db.invoices[j]) ==>
         db.invoices[i].created <= db.invoices[j].created
  }

  lemma QueryIsSuited(db: Db, default: Mode, q: Query)
    ensures NoHit(db, default, q) <==> NoneSuits(db, default, q)
    ensures forall i :: OldestHit(db, default, q, i) <==> OldestSuits(db, default, q, i)
  {
    forall j | j in db.invoices ensures HitsId(db, default, q, j) <==> Suits(db.now, default, q, db.invoices[j]) {
      HitsAreSuited(db.now, default, q, db.invoices[j]);
    }
  }

  /** The oldest invoice that suits the first question any invoice suits; none when
      no question suits any. */
  ghost predicate Chosen(db: Db, c: Call, hit: Option<InvoiceId>) {
    var qs := Questions(c);
    match hit
    case None => forall k :: 0 <= k < |qs| ==> NoneSuits(db, c.default, qs[k])
    case Some(i) => exists k :: 0 <= k < |qs| && OldestSuits(db, c.default, qs[k], i) && forall m :: 0 <= m < k ==> NoneSuits(db, c.default, qs[m])
  }

  /** The three queries, one after the other, settle on exactly that invoice. */
  lemma ResolvesToTheFirst(db: Db, c: Call, hit: Option<InvoiceId>)
    ensures Resolves(db, c, hit) <==> Chosen(db, c, hit)
  {
    var qs := Questions(c);
    forall k | 0 <= k < |qs| {
      QueryIsSuited(db, c.default, qs[k]);
    }
    assert qs[0] == ByRecipient(c.recipient) && qs[|qs| - 1] == ByAmount(c.amount);
    if c.memo.Some? {
      assert qs[1] == ByRef(c.memo.value) && |qs| == 3;
    }
  }

  /** So it settles only on an invoice it fits, and on none only when it fits none. */
  lemma SettlesOnlyWhatFits(db: Db, c: Call, hit: Option<InvoiceId>)
    requires Resolves(db, c, hit)
    ensures match hit
            case None => forall i :: i in db.invoices ==> !Fits(db.now, c, db.invoices[i])
            case Some(i) => i in db.invoices && Fits(db.now, c, db.invoices[i])
  {
    ResolvesToTheFirst(db, c, hit);
  }
}
