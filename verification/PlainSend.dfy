/** The render gate of the plain-send panel, against the amount match it has to
    predict. */
module PlainSend {
  import opened Common
  import opened Tables
  import opened Interleaving
  import opened Sets

  /** The rows the gate's COUNT counts for `id`. */
  predicate Earlier(db: Db, id: InvoiceId, amount: i64, j: InvoiceId)
    requires id in db.invoices
  {
    && j in db.invoices && j != id
    && db.invoices[j].slate.Some? && db.invoices[j].status == Open && db.invoices[j].expected == Some(amount)
    && db.invoices[j].rowid < db.invoices[id].rowid
  }

  predicate PlainSendAllowed(db: Db, id: InvoiceId)
    requires id in db.invoices
  {
    && db.invoices[id].slate.Some?
    && db.invoices[id].expected.Some?
    && db.invoices[id].expected.value > 0
    && (set j | j in db.invoices && Earlier(db, id, db.invoices[id].expected.value, j)) == {}
  }

  /** Open and armed on the native rail for exactly this amount. */
  predicate Offers(db: Db, amount: i64, id: InvoiceId) {
    id in db.invoices && db.invoices[id].slate.Some? && db.invoices[id].status == Open && db.invoices[id].expected == Some(amount)
  }

  // ------------------------------------------------------- insertion order

  /** Insertion order is strict and agrees with creation time. */
  ghost predicate Inserted(db: Db) {
    && (forall i, j :: i in db.invoices && j in db.invoices && db.invoices[i].rowid == db.invoices[j].rowid ==> i == j)
    && (forall i, j :: i in db.invoices && j in db.invoices && db.invoices[i].rowid < db.invoices[j].rowid ==>
         db.invoices[i].created <= db.invoices[j].created)
    && (forall i :: i in db.invoices ==> db.invoices[i].created <= db.now)
  }

  /** Nothing but `create` touches the two stamps of a row. */
  ghost predicate SameStamps(a: Db, b: Db) {
    && a.now <= b.now
    && b.invoices.Keys == a.invoices.Keys
    && forall i :: i in a.invoices ==> b.invoices[i].rowid == a.invoices[i].rowid && b.invoices[i].created == a.invoices[i].created
  }

  lemma HandlersKeepStamps(cfg: Config, db: Db, h: Handler, db': Db, h': Handler)
    requires HandlerStep(cfg, db, h, db', h')
    ensures SameStamps(db, db')
  {
  }

  lemma TasksKeepStamps(cfg: Config, db: Db, w: Wallet, p: Poll, q: Sweep, db': Db, w': Wallet, p': Poll, q': Sweep)
    requires PollStep(cfg, db, p, db', p') || SweepStep(db, w, q, db', w', q')
    ensures SameStamps(db, db')
  {
  }

  lemma SameStampsKeepInserted(a: Db, b: Db)
    requires Inserted(a) && SameStamps(a, b)
    ensures Inserted(b)
  {
  }

  lemma CreateKeepsInserted(db: Db, id: InvoiceId, inv: Invoice)
    requires Inserted(db) && FreshInvoice(db, id, inv)
    ensures Inserted(InsertInvoice(db, id, inv))
  {
  }

  lemma StepKeepsInserted(cfg: Config, s: Sys, a: Action, s': Sys)
    requires Step(cfg, s, a, s') && Inserted(s.db)
    ensures Inserted(s'.db)
  {
    match a
    case Create(id, inv) => CreateKeepsInserted(s.db, id, inv);
    case Move(t) =>
      HandlersKeepStamps(cfg, s.db, s.calls[t], s'.db, s'.calls[t]);
      SameStampsKeepInserted(s.db, s'.db);
    case PollMoves =>
      TasksKeepStamps(cfg, s.db, s.wallet, s.poll, s.sweep, s'.db, s'.wallet, s'.poll, s'.sweep);
      SameStampsKeepInserted(s.db, s'.db);
    case SweepMoves =>
      TasksKeepStamps(cfg, s.db, s.wallet, s.poll, s.sweep, s'.db, s'.wallet, s'.poll, s'.sweep);
      SameStampsKeepInserted(s.db, s'.db);
    case _ =>
      SameStampsKeepInserted(s.db, s'.db);
  }

  /** In every reachable state rows were created in insertion order. */
  lemma {:induction false} ReachableInserted(cfg: Config, states: seq<Sys>, actions: seq<Action>, k: nat)
    requires Run(cfg, states, actions) && k < |states|
    ensures Inserted(states[k].db)
  {
    if k > 0 {
      ReachableInserted(cfg, states, actions, k - 1);
      assert Step(cfg, states[k - 1], actions[k - 1], states[k]);
      StepKeepsInserted(cfg, states[k - 1], actions[k - 1], states[k]);
    }
  }

  // ----------------------------------------------------------------- the gate

  ghost function Offering(db: Db, amount: i64): set<InvoiceId> {
    set i | i in db.invoices && Offers(db, amount, i)
  }

  /** The gate passes a native-rail invoice of a positive amount iff none of those on
      offer for that amount was inserted before it, and no other invoice. */
  lemma GatePassesTheEarliest(db: Db, id: InvoiceId)
    requires id in db.invoices
    ensures PlainSendAllowed(db, id) <==>
            && db.invoices[id].slate.Some? && db.invoices[id].expected.Some? && db.invoices[id].expected.value > 0
            && forall j :: j in db.invoices && j != id && Offers(db, db.invoices[id].expected.value, j) ==>
                 db.invoices[id].rowid <= db.invoices[j].rowid
  {
    if db.invoices[id].expected.None? { return; }
    var amount := db.invoices[id].expected.value;
    assert forall j :: j in db.invoices && Earlier(db, id, amount, j) ==> Offers(db, amount, j);
    var earlier := set j | j in db.invoices && Earlier(db, id, amount, j);
    assert forall j :: j in db.invoices && j != id && Offers(db, amount, j) && db.invoices[j].rowid < db.invoices[id].rowid ==> j in earlier;
  }

  /** Of the open native-rail invoices of one positive amount, exactly one shows
      the panel. */
  lemma GatePassesExactlyOne(db: Db, amount: i64) returns (id: InvoiceId)
    requires Inserted(db) && amount > 0 && Offering(db, amount) != {}
    ensures Offers(db, amount, id)
    ensures forall j :: Offers(db, amount, j) ==> (PlainSendAllowed(db, j) <==> j == id)
  {
    var place := (i: InvoiceId) => if i in db.invoices then db.invoices[i].rowid as int else 0;
    id := Minimum(Offering(db, amount), place);
    forall i | Offers(db, amount, i) ensures db.invoices[id].rowid <= db.invoices[i].rowid {
      assert i in Offering(db, amount) && place(id) <= place(i);
    }
    forall j | Offers(db, amount, j) ensures PlainSendAllowed(db, j) <==> j == id {
      GatePassesTheEarliest(db, j);
      assert id in Offering(db, amount) && j in Offering(db, amount);
    }
  }

  // ----------------------------------------- the gate and the amount resolver

  /** Every open invoice of this amount is on the native rail, matched by amount
      and unexpired. */
  predicate AllPlain(db: Db, default: Mode, amount: i64) {
    forall i :: i in db.invoices && db.invoices[i].status == Open && db.invoices[i].expected == Some(amount) ==>
      db.invoices[i].slate.Some? && EffectiveMode(db.invoices[i], default) == Amount && !Due(db.now, db.invoices[i])
  }

  predicate HitsAreOffers(db: Db, default: Mode, amount: i64)
    requires amount >= 0
  {
    forall i :: i in db.invoices ==> (HitsId(db, default, ByAmount(amount), i) <==> Offers(db, amount, i))
  }

  /** The invoice the panel names is one the amount match may answer, and it is
      its only answer iff no other invoice on offer was created in that second. */
  lemma GateAgreesWithMatch(db: Db, default: Mode, amount: u64, id: InvoiceId)
    requires amount < TWO_63 && Inserted(db) && AllPlain(db, default, amount)
    requires Offers(db, amount, id) && PlainSendAllowed(db, id)
    ensures OldestHit(db, default, ByAmount(amount), id)
    ensures (forall r :: Answers(db, default, ByAmount(amount), r) ==> r == Some(id)) <==>
            (forall j :: j in db.invoices && Offers(db, amount, j) && j != id ==> db.invoices[j].created != db.invoices[id].created)
  {
    GatePassesTheEarliest(db, id);
    assert HitsAreOffers(db, default, amount);
    if j :| j in db.invoices && Offers(db, amount, j) && j != id && db.invoices[j].created == db.invoices[id].created {
      assert HitsId(db, default, ByAmount(amount), j);
      assert Answers(db, default, ByAmount(amount), Some(j));
    }
  }
}
