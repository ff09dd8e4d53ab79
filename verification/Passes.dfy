/** Whole passes of the two background tasks, and exactly what they change. */
module Passes {
  import opened Common
  import opened Tables
  import opened Interleaving
  import opened Safety
  import opened Runs
  import opened Readings
  import opened Stranding

  // ------------------------------------------------------ the confirmation poll

  /** One work item with the node's answer: no depth when the kernel is not on
      chain yet or the node could not be asked. `ev` is the event id drawn if the
      reading leads to a notification. */
  datatype Reading = Reading(item: WorkItem, depth: Option<u64>, ev: EventId)

  function AfterFinalize(cfg: Config, db: Db, slate: SlateId, id: InvoiceId, ev: EventId): Db {
    if !IsPaid(db, id) then db
    else
      var confirmed := MarkConfirmed(db, id);
      if cfg.webhook && slate in db.payments
      then Enqueue(confirmed, ev, ConfirmedEvent(confirmed, slate, id))
      else confirmed
  }

  /** A reading deep enough to confirm the invoice its payment is linked to. */
  predicate Reaches(cfg: Config, r: Reading, id: InvoiceId) {
    r.depth.Some? && AsI64(r.depth.value) >= cfg.required && r.item.invoice == Some(id)
  }

  function AfterReading(cfg: Config, db: Db, r: Reading): Db {
    if r.depth.None? then db
    else
      var recorded := RecordDepth(db, r.item.slate, AsI64(r.depth.value));
      if AsI64(r.depth.value) >= cfg.required && r.item.invoice.Some?
      then AfterFinalize(cfg, recorded, r.item.slate, r.item.invoice.value, r.ev)
      else recorded
  }

  /** The tables after a pass over these readings, first to last. */
  function AfterReadings(cfg: Config, db: Db, rs: seq<Reading>): Db {
    if rs == [] then db
    else AfterReading(cfg, AfterReadings(cfg, db, rs[..|rs| - 1]), rs[|rs| - 1])
  }

  function Items(rs: seq<Reading>): seq<WorkItem> {
    seq(|rs|, k requires 0 <= k < |rs| => rs[k].item)
  }

  predicate Fresh(db: Db, rs: seq<Reading>) {
    && (forall k :: 0 <= k < |rs| ==> rs[k].ev !in db.queue)
    && (forall j, k :: 0 <= j < k < |rs| ==> rs[j].ev != rs[k].ev)
  }

  /** Readings of the work list a pass starts from, with unused event ids. */
  ghost predicate PassOver(cfg: Config, db: Db, rs: seq<Reading>) {
    WorkList(cfg, db, Items(rs)) && Fresh(db, rs)
  }

  predicate Deepened(p: Payment, p': Payment, d: u64) {
    p' == p.(confirmations := AsI64(d), status := OnChain)
  }

  /** The readings concern different payments, each of them in the ledger. */
  predicate Readable(db: Db, rs: seq<Reading>) {
    && (forall k :: 0 <= k < |rs| ==> rs[k].item.slate in db.payments)
    && (forall j, k :: 0 <= j < k < |rs| ==> rs[j].item.slate != rs[k].item.slate)
  }

  lemma ReadingDeepens(cfg: Config, db: Db, r: Reading)
    ensures AfterReading(cfg, db, r).payments ==
            if r.depth.Some? && r.item.slate in db.payments
            then db.payments[r.item.slate := db.payments[r.item.slate].(confirmations := AsI64(r.depth.value), status := OnChain)]
            else db.payments
  {
  }

  lemma ReadingConfirms(cfg: Config, db: Db, r: Reading)
    ensures AfterReading(cfg, db, r).now == db.now
    ensures AfterReading(cfg, db, r).invoices ==
            if r.item.invoice.Some? && Reaches(cfg, r, r.item.invoice.value) && IsPaid(db, r.item.invoice.value)
            then db.invoices[r.item.invoice.value := db.invoices[r.item.invoice.value].(status := Confirmed)]
            else db.invoices
  {
  }

  /** What a pass does to the payments: exactly the depths read are recorded. */
  lemma {:induction false} PassDeepens(cfg: Config, db: Db, rs: seq<Reading>)
    requires Readable(db, rs)
    ensures var db' := AfterReadings(cfg, db, rs);
            && db'.payments.Keys == db.payments.Keys
            && (forall k :: 0 <= k < |rs| && rs[k].depth.Some? ==>
                  Deepened(db.payments[rs[k].item.slate], db'.payments[rs[k].item.slate], rs[k].depth.value))
            && (forall x :: x in db.payments && (forall k :: 0 <= k < |rs| ==> rs[k].item.slate != x || rs[k].depth.None?) ==>
                  db'.payments[x] == db.payments[x])
  {
    if rs != [] {
      var n := |rs| - 1;
      PassDeepens(cfg, db, rs[..n]);
      ReadingDeepens(cfg, AfterReadings(cfg, db, rs[..n]), rs[n]);
      assert forall k :: 0 <= k < n ==> rs[..n][k] == rs[k];
    }
  }

  ghost predicate Reached(cfg: Config, rs: seq<Reading>, id: InvoiceId) {
    exists k :: 0 <= k < |rs| && Reaches(cfg, rs[k], id)
  }

  lemma ReachedByLast(cfg: Config, rs: seq<Reading>, id: InvoiceId)
    requires rs != []
    ensures Reached(cfg, rs, id) <==> Reached(cfg, rs[..|rs| - 1], id) || Reaches(cfg, rs[|rs| - 1], id)
  {
    if Reached(cfg, rs[..|rs| - 1], id) {
      var k :| 0 <= k < |rs| - 1 && Reaches(cfg, rs[..|rs| - 1][k], id);
      assert Reaches(cfg, rs[k], id);
    }
    if Reached(cfg, rs, id) && !Reaches(cfg, rs[|rs| - 1], id) {
      var k :| 0 <= k < |rs| && Reaches(cfg, rs[k], id);
      assert Reaches(cfg, rs[..|rs| - 1][k], id);
    }
  }

  /** What a pass does to the invoices: the paid ones it reached are confirmed,
      nothing else changes. */
  lemma {:induction false} PassConfirmsExactly(cfg: Config, db: Db, rs: seq<Reading>)
    ensures var db' := AfterReadings(cfg, db, rs);
            && db'.now == db.now && db'.invoices.Keys == db.invoices.Keys
            && (forall i :: i in db.invoices ==>
                  db'.invoices[i] == if db.invoices[i].status == Paid && Reached(cfg, rs, i)
                                     then db.invoices[i].(status := Confirmed) else db.invoices[i])
  {
    if rs != [] {
      var init, r := rs[..|rs| - 1], rs[|rs| - 1];
      PassConfirmsExactly(cfg, db, init);
      ReadingConfirms(cfg, AfterReadings(cfg, db, init), r);
      forall i ensures Reached(cfg, rs, i) <==> Reached(cfg, init, i) || Reaches(cfg, r, i) {
        ReachedByLast(cfg, rs, i);
      }
    }
  }

  predicate Announces(db: Db, e: EventId, id: InvoiceId) {
    e in db.queue && db.queue[e].event.kind == PaymentConfirmed && db.queue[e].event.invoice == Some(id)
  }

  /** Event k of a pass: drawn by the first reading that reaches its invoice. */
  ghost predicate Triggers(cfg: Config, db: Db, rs: seq<Reading>, k: int, id: InvoiceId) {
    && 0 <= k < |rs| && IsPaid(db, id) && Reaches(cfg, rs[k], id)
    && forall j :: 0 <= j < k ==> !Reaches(cfg, rs[j], id)
  }

  lemma TriggersOfPrefix(cfg: Config, db: Db, rs: seq<Reading>, n: int, k: int, id: InvoiceId)
    requires 0 <= n <= |rs|
    ensures Triggers(cfg, db, rs[..n], k, id) <==> k < n && Triggers(cfg, db, rs, k, id)
  {
    if k < n && Triggers(cfg, db, rs, k, id) {
      assert forall j :: 0 <= j < k ==> rs[..n][j] == rs[j];
    }
    if Triggers(cfg, db, rs[..n], k, id) {
      assert forall j :: 0 <= j < k ==> rs[..n][j] == rs[j];
    }
  }

  /** One reading draws its event iff it reaches an invoice that is paid. */
  lemma ReadingTells(cfg: Config, db: Db, r: Reading)
    requires cfg.webhook && r.item.slate in db.payments
    ensures var db' := AfterReading(cfg, db, r);
            if r.item.invoice.Some? && Reaches(cfg, r, r.item.invoice.value) && IsPaid(db, r.item.invoice.value)
            then && db'.queue.Keys == db.queue.Keys + {r.ev} && Announces(db', r.ev, r.item.invoice.value)
                 && forall e :: e in db.queue && e != r.ev ==> db'.queue[e] == db.queue[e]
            else db'.queue == db.queue
  {
  }

  /** The last reading of a pass draws its event iff it is the first to reach a
      paid invoice. */
  lemma LastReadingTells(cfg: Config, db: Db, rs: seq<Reading>)
    requires rs != [] && cfg.webhook && Readable(db, rs)
    ensures var n := |rs| - 1;
            var mid, db' := AfterReadings(cfg, db, rs[..n]), AfterReadings(cfg, db, rs);
            && (forall id :: Triggers(cfg, db, rs, n, id) ==>
                 db'.queue.Keys == mid.queue.Keys + {rs[n].ev} && Announces(db', rs[n].ev, id))
            && (forall e :: e in mid.queue && e != rs[n].ev ==> e in db'.queue && db'.queue[e] == mid.queue[e])
            && ((forall id :: !Triggers(cfg, db, rs, n, id)) ==> db'.queue == mid.queue)
  {
    var n := |rs| - 1;
    var mid := AfterReadings(cfg, db, rs[..n]);
    PassConfirmsExactly(cfg, db, rs[..n]);
    PassDeepens(cfg, db, rs[..n]);
    ReadingTells(cfg, mid, rs[n]);
    if rs[n].item.invoice.Some? {
      var id := rs[n].item.invoice.value;
      assert Reached(cfg, rs[..n], id) <==> exists j :: 0 <= j < n && Reaches(cfg, rs[j], id) by {
        assert forall j :: 0 <= j < n ==> rs[..n][j] == rs[j];
      }
      assert Triggers(cfg, db, rs, n, id) <==> Reaches(cfg, rs[n], id) && IsPaid(mid, id);
    }
  }

  /** What a pass does to the queue: one confirmation for every invoice it
      confirms, drawn by the first reading that reaches it, and nothing else. */
  lemma {:induction false} PassTellsExactly(cfg: Config, db: Db, rs: seq<Reading>)
    requires cfg.webhook && Readable(db, rs) && Fresh(db, rs)
    ensures var db' := AfterReadings(cfg, db, rs);
            && (forall e :: e in db.queue ==> e in db'.queue && db'.queue[e] == db.queue[e])
            && (forall e :: e in db'.queue && e !in db.queue ==> exists k, id :: Triggers(cfg, db, rs, k, id) && rs[k].ev == e)
            && (forall k, id :: Triggers(cfg, db, rs, k, id) ==> Announces(db', rs[k].ev, id))
  {
    if rs != [] {
      var n := |rs| - 1;
      PassTellsExactly(cfg, db, rs[..n]);
      LastReadingTells(cfg, db, rs);
      var mid, db' := AfterReadings(cfg, db, rs[..n]), AfterReadings(cfg, db, rs);
      forall e | e in db'.queue && e !in db.queue ensures exists k, id :: Triggers(cfg, db, rs, k, id) && rs[k].ev == e {
        if e in mid.queue {
          var k, id :| Triggers(cfg, db, rs[..n], k, id) && rs[..n][k].ev == e;
          TriggersOfPrefix(cfg, db, rs, n, k, id);
        }
      }
      forall k, id | Triggers(cfg, db, rs, k, id) ensures Announces(db', rs[k].ev, id) {
        TriggersOfPrefix(cfg, db, rs, n, k, id);
        if k < n {
          assert Announces(mid, rs[..n][k].ev, id);
        }
      }
    }
  }

  lemma PassIsReadable(cfg: Config, db: Db, rs: seq<Reading>)
    requires PassOver(cfg, db, rs)
    ensures Readable(db, rs)
  {
    forall k | 0 <= k < |rs| ensures rs[k].item.slate in db.payments {
      assert InWorkList(cfg, db, Items(rs)[k].slate);
    }
    forall j, k | 0 <= j < k < |rs| ensures rs[j].item.slate != rs[k].item.slate {
      assert Items(rs)[j].slate != Items(rs)[k].slate;
    }
  }

  /** A pass that reads a payment linked to a paid invoice at the required depth
      confirms that invoice. */
  lemma {:induction false} DeepPayerConfirms(cfg: Config, db: Db, rs: seq<Reading>, i: InvoiceId, x: SlateId)
    requires PassOver(cfg, db, rs)
    requires IsPaid(db, i) && InWorkList(cfg, db, x) && db.payments[x].invoice == Some(i)
    requires forall k :: 0 <= k < |rs| && rs[k].item.slate == x ==> rs[k].depth.Some? && AsI64(rs[k].depth.value) >= cfg.required
    ensures AfterReadings(cfg, db, rs).invoices.Keys == db.invoices.Keys
    ensures AfterReadings(cfg, db, rs).invoices[i] == db.invoices[i].(status := Confirmed)
  {
    var work := Items(rs);
    var k :| 0 <= k < |work| && work[k].slate == x;
    assert db.payments[work[k].slate].invoice == work[k].invoice;
    assert Reaches(cfg, rs[k], i);
    PassConfirmsExactly(cfg, db, rs);
  }

  /** Progress: once the node reports the paying payment of a paid invoice at the
      required depth, the next pass started while no handler is mid-link confirms
      that invoice. */
  lemma {:induction false} NextPassConfirms(cfg: Config, states: seq<Sys>, actions: seq<Action>, k: nat, i: InvoiceId, rs: seq<Reading>)
    requires ValidConfig(cfg) && Run(cfg, states, actions) && QuietLists(states, actions) && k < |states|
    requires IsPaid(states[k].db, i) && states[k].db.invoices[i].paidBy.Some?
    requires states[k].poll.Resting? && forall t :: t in states[k].calls ==> !MidLink(states[k].calls[t])
    requires PassOver(cfg, states[k].db, rs)
    requires forall j :: 0 <= j < |rs| && Some(rs[j].item.slate) == states[k].db.invoices[i].paidBy ==>
               rs[j].depth.Some? && AsI64(rs[j].depth.value) >= cfg.required
    ensures i in AfterReadings(cfg, states[k].db, rs).invoices
    ensures AfterReadings(cfg, states[k].db, rs).invoices[i].status == Confirmed
  {
    PaidInvoiceIsPolled(cfg, states, actions, k, i);
    ReachableHolds(cfg, states, actions, k);
    var s := states[k];
    assert PayerLinks(s.db, s.calls, i);
    DeepPayerConfirms(cfg, s.db, rs, i, s.db.invoices[i].paidBy.value);
  }

  ghost predicate SoloPollStep(cfg: Config, db: Db, p: Poll, db': Db, p': Poll) {
    PollStep(cfg, db, p, db', p')
  }

  /** A poll pass undisturbed at statement grain, from its work list to rest. */
  ghost predicate SoloPass(cfg: Config, dbs: seq<Db>, ps: seq<Poll>) {
    && |dbs| == |ps| >= 1 && ps[|ps| - 1] == Resting
    && (forall k :: 0 <= k < |ps| - 1 ==> SoloPollStep(cfg, dbs[k], ps[k], dbs[k + 1], ps[k + 1]))
    && (forall k :: 0 <= k < |ps| - 1 ==> ps[k] != Resting)
  }

  lemma {:induction false} FirstThenRest(cfg: Config, db: Db, r: Reading, rs: seq<Reading>)
    ensures AfterReadings(cfg, db, [r] + rs) == AfterReadings(cfg, AfterReading(cfg, db, r), rs)
  {
    if rs == [] {
      assert ([r] + rs)[..0] == [];
    } else {
      var n := |rs| - 1;
      FirstThenRest(cfg, db, r, rs[..n]);
      assert ([r] + rs)[..n + 1] == [r] + rs[..n];
    }
  }

  /** One item, undisturbed: the steps up to the next item are one reading. */
  lemma SoloItem(cfg: Config, dbs: seq<Db>, ps: seq<Poll>) returns (n: nat, r: Reading)
    requires SoloPass(cfg, dbs, ps) && ps[0].Working? && ps[0].work != []
    ensures 0 < n < |ps| && SoloPass(cfg, dbs[n..], ps[n..]) && ps[n] == Working(ps[0].work[1..])
    ensures r.item == ps[0].work[0] && dbs[n] == AfterReading(cfg, dbs[0], r)
  {
    n, r := 1, Reading(ps[0].work[0], None, "");
    if ps[1].Recording? {
      r := r.(depth := Some(ps[1].depth));
      n := 2;
      if ps[2].Confirming? {
        n := 3;
        if ps[3].Loading? {
          n := 4;
          if ps[4].Telling? {
            n := 5;
            var ev :| ev !in dbs[4].queue && dbs[5] == Enqueue(dbs[4], ev, ps[4].event);
            r := r.(ev := ev);
          }
        }
      }
    }
  }

  /** Undisturbed, the statements of a poll pass over `work` add up to one reading
      per item, in order. */
  lemma {:induction false} PassAloneIsAtomic(cfg: Config, dbs: seq<Db>, ps: seq<Poll>) returns (rs: seq<Reading>)
    requires SoloPass(cfg, dbs, ps) && ps[0].Working?
    ensures Items(rs) == ps[0].work && dbs[|dbs| - 1] == AfterReadings(cfg, dbs[0], rs)
    decreases |ps|
  {
    if ps[0].work == [] {
      assert SoloPollStep(cfg, dbs[0], ps[0], dbs[1], ps[1]);
      rs := [];
    } else {
      var n, r := SoloItem(cfg, dbs, ps);
      var rest := PassAloneIsAtomic(cfg, dbs[n..], ps[n..]);
      rs := [r] + rest;
      FirstThenRest(cfg, dbs[0], r, rest);
    }
  }

  // ------------------------------------------------------------ the expiry sweep

  /** The tables after a sweep over `due`, where `cancelled` says which cancels the
      wallet carried out. */
  function AfterSweep(db: Db, due: seq<(InvoiceId, SlateId)>, cancelled: seq<bool>): Db
    requires |due| == |cancelled|
  {
    if due == [] then db
    else
      var n := |due| - 1;
      var mid := AfterSweep(db, due[..n], cancelled[..n]);
      if cancelled[n] then MarkExpired(mid, due[n].0) else mid
  }

  function Cancelled(due: seq<(InvoiceId, SlateId)>, cancelled: seq<bool>): set<SlateId>
    requires |due| == |cancelled|
  {
    set k | 0 <= k < |due| && cancelled[k] :: due[k].1
  }

  predicate Swept(due: seq<(InvoiceId, SlateId)>, cancelled: seq<bool>, i: InvoiceId)
    requires |due| == |cancelled|
  {
    exists k :: 0 <= k < |due| && cancelled[k] && due[k].0 == i
  }

  /** A sweep expires exactly the open invoices it cancelled, and leaves the
      payments and the queue alone. */
  lemma {:induction false} SweepExpiresExactly(db: Db, due: seq<(InvoiceId, SlateId)>, cancelled: seq<bool>)
    requires |due| == |cancelled|
    ensures var db' := AfterSweep(db, due, cancelled);
            && db' == db.(invoices := db'.invoices) && db'.invoices.Keys == db.invoices.Keys
            && (forall i :: i in db.invoices ==>
                  db'.invoices[i] == if db.invoices[i].status == Open && Swept(due, cancelled, i)
                                     then db.invoices[i].(status := Expired) else db.invoices[i])
  {
    if due != [] {
      var n := |due| - 1;
      SweepExpiresExactly(db, due[..n], cancelled[..n]);
      forall i | i in db.invoices
        ensures Swept(due, cancelled, i) <==> Swept(due[..n], cancelled[..n], i) || (cancelled[n] && due[n].0 == i)
      {
      }
    }
  }

  /** Whatever a sweep expires has lost its wallet context; a due invoice whose
      cancel failed is as it was, and due again in the next sweep. */
  lemma SweptContextsAreGone(db: Db, due: seq<(InvoiceId, SlateId)>, cancelled: seq<bool>, live: set<SlateId>, i: InvoiceId)
    requires |due| == |cancelled| && DueList(db, due) && i in db.invoices && db.invoices[i].status == Open
    ensures i in AfterSweep(db, due, cancelled).invoices
    ensures var inv' := AfterSweep(db, due, cancelled).invoices[i];
            if inv'.status == Expired
            then inv'.slate.Some? && inv'.slate.value !in live - Cancelled(due, cancelled)
            else inv' == db.invoices[i] && (DueGrin1(db, i) ==> DueGrin1(AfterSweep(db, due, cancelled), i))
  {
    SweepExpiresExactly(db, due, cancelled);
    if Swept(due, cancelled, i) {
      var k :| 0 <= k < |due| && cancelled[k] && due[k].0 == i;
      assert due[k].1 in Cancelled(due, cancelled);
    }
  }
}
