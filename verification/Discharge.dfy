/** First in, first out: what a series of equal-amount payments pays, handled
    one whole `persist_and_match` at a time. */
module Discharge {
  import opened Common
  import opened Tables
  import opened Interleaving
  import opened Handlers

  /** One payment handled whole, ending at a possibly later second. */
  ghost predicate Handled(cfg: Config, db: Db, c: Call, hit: Option<InvoiceId>, db': Db) {
    Resolves(db, c, hit) && db.now <= db'.now &&
    exists ev :: db' == AfterPersist(cfg, db, c, hit, ev).(now := db'.now)
  }

  /** No derived or memo invoice claims the payment first. */
  predicate Unclaimed(db: Db, c: Call) {
    NoHit(db, c.default, ByRecipient(c.recipient)) && (c.memo.Some? ==> NoHit(db, c.default, ByRef(c.memo.value)))
  }

  /** A series of payments of amount `a`, all left to the amount match. */
  ghost predicate Series(cfg: Config, default: Mode, a: u64, dbs: seq<Db>, cs: seq<Call>, hits: seq<Option<InvoiceId>>) {
    && |dbs| == |cs| + 1 && |hits| == |cs|
    && (forall k :: 0 <= k < |cs| ==> cs[k].amount == a && cs[k].default == default && Unclaimed(dbs[k], cs[k]))
    && (forall k :: 0 <= k < |cs| ==> Handled(cfg, dbs[k], cs[k], hits[k], dbs[k + 1]))
  }

  /** None of the invoices awaiting this amount falls due before `until`. */
  predicate OutlastsAll(db: Db, default: Mode, a: u64, until: int) {
    forall i :: i in db.invoices && HitsId(db, default, ByAmount(a), i) ==>
      (db.invoices[i].expiry.Some? ==> db.invoices[i].expiry.value > until)
  }

  /** Exactly what one such payment does to the invoices. */
  lemma PaysTheOldest(cfg: Config, db: Db, c: Call, hit: Option<InvoiceId>, db': Db)
    requires Unclaimed(db, c) && Handled(cfg, db, c, hit, db')
    ensures Answers(db, c.default, ByAmount(c.amount), hit)
    ensures db'.invoices ==
            if hit.Some? && c.amount < TWO_63
            then db.invoices[hit.value := db.invoices[hit.value].(status := Paid, paidBy := Some(c.slate))]
            else db.invoices
  {
  }

  predicate PaidBy(was: Db, db: Db, i: InvoiceId, slate: SlateId) {
    i in was.invoices && i in db.invoices && db.invoices[i] == was.invoices[i].(status := Paid, paidBy := Some(slate))
  }

  /** The invoices still awaiting the amount are those that were at the start, less
      the ones paid since, and nothing else about the invoices has changed. */
  ghost predicate PaidOnesLeft(default: Mode, a: u64, was: Db, db: Db, cs: seq<Call>, hits: seq<Option<InvoiceId>>)
    requires |cs| == |hits|
  {
    && was.now <= db.now
    && db.invoices.Keys == was.invoices.Keys
    && (forall i :: HitsId(db, default, ByAmount(a), i) <==> HitsId(was, default, ByAmount(a), i) && Some(i) !in hits)
    && (forall i :: i in was.invoices && Some(i) !in hits ==> db.invoices[i] == was.invoices[i])
    && (forall j :: 0 <= j < |hits| && hits[j].Some? ==> PaidBy(was, db, hits[j].value, cs[j].slate))
  }

  lemma OneDropsOut(cfg: Config, default: Mode, a: u64, db: Db, c: Call, hit: Option<InvoiceId>, db': Db)
    requires Unclaimed(db, c) && Handled(cfg, db, c, hit, db') && c.amount == a < TWO_63 && c.default == default
    requires OutlastsAll(db, default, a, db'.now)
    ensures PaidOnesLeft(default, a, db, db', [c], [hit]) && (hit.Some? ==> HitsId(db, default, ByAmount(a), hit.value))
  {
    PaysTheOldest(cfg, db, c, hit, db');
  }

  lemma OneMoreLeaves(
      default: Mode, a: u64, was: Db, mid: Db, db: Db, cs: seq<Call>, hits: seq<Option<InvoiceId>>, c: Call, hit: Option<InvoiceId>)
    requires |cs| == |hits| && PaidOnesLeft(default, a, was, mid, cs, hits) && PaidOnesLeft(default, a, mid, db, [c], [hit])
    requires hit.Some? ==> HitsId(mid, default, ByAmount(a), hit.value)
    ensures PaidOnesLeft(default, a, was, db, cs + [c], hits + [hit])
  {
    assert hit == [hit][0] && c == [c][0];
    forall j | 0 <= j < |hits| && hits[j].Some? ensures PaidBy(was, db, hits[j].value, cs[j].slate) {
      assert PaidBy(was, mid, hits[j].value, cs[j].slate);
      assert Some(hits[j].value) in hits;
    }
  }

  lemma NextPaysOne(
      cfg: Config, default: Mode, a: u64, dbs: seq<Db>, cs: seq<Call>, hits: seq<Option<InvoiceId>>, k: nat)
    requires Series(cfg, default, a, dbs, cs, hits) && a < TWO_63 && k < |cs| && OutlastsAll(dbs[k], default, a, dbs[k + 1].now)
    ensures PaidOnesLeft(default, a, dbs[k], dbs[k + 1], [cs[k]], [hits[k]])
    ensures hits[k].Some? ==> HitsId(dbs[k], default, ByAmount(a), hits[k].value)
  {
    assert Handled(cfg, dbs[k], cs[k], hits[k], dbs[k + 1]) && Unclaimed(dbs[k], cs[k]);
    OneDropsOut(cfg, default, a, dbs[k], cs[k], hits[k], dbs[k + 1]);
  }

  lemma {:induction false} ClockAdvances(
      cfg: Config, default: Mode, a: u64, dbs: seq<Db>, cs: seq<Call>, hits: seq<Option<InvoiceId>>, j: nat, k: nat)
    requires Series(cfg, default, a, dbs, cs, hits) && j <= k < |dbs|
    ensures dbs[j].now <= dbs[k].now
  {
    if j < k {
      ClockAdvances(cfg, default, a, dbs, cs, hits, j, k - 1);
      assert Handled(cfg, dbs[k - 1], cs[k - 1], hits[k - 1], dbs[k]);
    }
  }

  lemma NextLeaves(
      cfg: Config, default: Mode, a: u64, dbs: seq<Db>, cs: seq<Call>, hits: seq<Option<InvoiceId>>, k: nat)
    requires Series(cfg, default, a, dbs, cs, hits) && a < TWO_63 && k < |cs|
    requires PaidOnesLeft(default, a, dbs[0], dbs[k], cs[..k], hits[..k]) && OutlastsAll(dbs[0], default, a, dbs[k + 1].now)
    ensures PaidOnesLeft(default, a, dbs[0], dbs[k + 1], cs[..k + 1], hits[..k + 1])
  {
    NextPaysOne(cfg, default, a, dbs, cs, hits, k);
    OneMoreLeaves(default, a, dbs[0], dbs[k], dbs[k + 1], cs[..k], hits[..k], cs[k], hits[k]);
    assert hits[..k + 1] == hits[..k] + [hits[k]];
    assert cs[..k + 1] == cs[..k] + [cs[k]];
  }

  lemma {:induction false} PaidOnesDropOut(
      cfg: Config, default: Mode, a: u64, dbs: seq<Db>, cs: seq<Call>, hits: seq<Option<InvoiceId>>, k: nat)
    requires Series(cfg, default, a, dbs, cs, hits) && a < TWO_63 && k < |dbs|
    requires OutlastsAll(dbs[0], default, a, dbs[k].now)
    ensures PaidOnesLeft(default, a, dbs[0], dbs[k], cs[..k], hits[..k])
  {
    if k > 0 {
      ClockAdvances(cfg, default, a, dbs, cs, hits, k - 1, k);
      PaidOnesDropOut(cfg, default, a, dbs, cs, hits, k - 1);
      NextLeaves(cfg, default, a, dbs, cs, hits, k - 1);
    }
  }

  /** Oldest first, ties in any order: payment k pays an awaiting invoice that no
      unpaid awaiting invoice is older than, and pays none only when none is
      left. */
  lemma OldestFirst(
      cfg: Config, default: Mode, a: u64, dbs: seq<Db>, cs: seq<Call>, hits: seq<Option<InvoiceId>>, k: nat)
    requires Series(cfg, default, a, dbs, cs, hits) && a < TWO_63 && k < |cs|
    requires OutlastsAll(dbs[0], default, a, dbs[k].now)
    ensures forall i :: HitsId(dbs[0], default, ByAmount(a), i) && Some(i) !in hits[..k] ==>
              hits[k].Some? && hits[k].value in dbs[0].invoices && dbs[0].invoices[hits[k].value].created <= dbs[0].invoices[i].created
    ensures hits[k].Some? ==> HitsId(dbs[0], default, ByAmount(a), hits[k].value) && hits[k] !in hits[..k]
  {
    PaidOnesDropOut(cfg, default, a, dbs, cs, hits, k);
    assert Handled(cfg, dbs[k], cs[k], hits[k], dbs[k + 1]);
    PaysTheOldest(cfg, dbs[k], cs[k], hits[k], dbs[k + 1]);
  }

  /** `order` lists the awaiting invoices, oldest first, no two of one second. */
  ghost predicate CreationOrder(db: Db, default: Mode, a: u64, order: seq<InvoiceId>) {
    && (forall k :: 0 <= k < |order| ==> HitsId(db, default, ByAmount(a), order[k]))
    && (forall j, k :: 0 <= j < k < |order| ==> db.invoices[order[j]].created < db.invoices[order[k]].created)
    && (forall i :: HitsId(db, default, ByAmount(a), i) ==> i in order)
  }

  ghost predicate Clock(dbs: seq<Db>) {
    forall j, k :: 0 <= j <= k < |dbs| ==> dbs[j].now <= dbs[k].now
  }

  /** In strict creation order, payment k pays exactly the k-th oldest. */
  lemma {:induction false} PaysInOrder(
      cfg: Config, default: Mode, a: u64, dbs: seq<Db>, cs: seq<Call>, hits: seq<Option<InvoiceId>>, order: seq<InvoiceId>, k: nat)
    requires Series(cfg, default, a, dbs, cs, hits) && a < TWO_63 && k <= |cs|
    requires OutlastsAll(dbs[0], default, a, dbs[|cs|].now) && Clock(dbs)
    requires CreationOrder(dbs[0], default, a, order)
    ensures forall j :: 0 <= j < k ==> hits[j] == if j < |order| then Some(order[j]) else None
  {
    if k > 0 {
      PaysInOrder(cfg, default, a, dbs, cs, hits, order, k - 1);
      OldestFirst(cfg, default, a, dbs, cs, hits, k - 1);
      forall m | 0 <= m < k - 1 && m < |order| ensures Some(order[m]) in hits[..k - 1] {
        assert hits[m] == Some(order[m]);
      }
      if k - 1 < |order| {
        assert HitsId(dbs[0], default, ByAmount(a), order[k - 1]);
        assert Some(order[k - 1]) !in hits[..k - 1];
      }
    }
  }

  /** FIFO discharge: n payments of one amount pay exactly the n oldest invoices
      awaiting it (all of them, when there are fewer), the k-th payment the k-th
      oldest, and leave every other invoice as it was. */
  lemma FifoDischarge(
      cfg: Config, default: Mode, a: u64, dbs: seq<Db>, cs: seq<Call>, hits: seq<Option<InvoiceId>>, order: seq<InvoiceId>)
    requires Series(cfg, default, a, dbs, cs, hits) && a < TWO_63
    requires CreationOrder(dbs[0], default, a, order) && OutlastsAll(dbs[0], default, a, dbs[|cs|].now)
    ensures forall k :: 0 <= k < |cs| ==> hits[k] == if k < |order| then Some(order[k]) else None
    ensures dbs[|cs|].invoices.Keys == dbs[0].invoices.Keys
    ensures forall k :: 0 <= k < |cs| && k < |order| ==>
              order[k] in dbs[0].invoices &&
              dbs[|cs|].invoices[order[k]] == dbs[0].invoices[order[k]].(status := Paid, paidBy := Some(cs[k].slate))
    ensures forall i :: i in dbs[0].invoices && i !in order[..if |cs| < |order| then |cs| else |order|] ==>
              dbs[|cs|].invoices[i] == dbs[0].invoices[i]
  {
    forall j, k | 0 <= j <= k < |dbs| ensures dbs[j].now <= dbs[k].now {
      ClockAdvances(cfg, default, a, dbs, cs, hits, j, k);
    }
    PaysInOrder(cfg, default, a, dbs, cs, hits, order, |cs|);
    PaidOnesDropOut(cfg, default, a, dbs, cs, hits, |cs|);
    assert cs[..|cs|] == cs && hits[..|cs|] == hits;
    var paid := order[..if |cs| < |order| then |cs| else |order|];
    forall i | i in dbs[0].invoices && i !in paid ensures Some(i) !in hits {
      forall j | 0 <= j < |cs| ensures hits[j] != Some(i) {
        assert j < |order| ==> paid[j] == order[j];
      }
    }
    forall k | 0 <= k < |cs| && k < |order|
      ensures order[k] in dbs[0].invoices &&
              dbs[|cs|].invoices[order[k]] == dbs[0].invoices[order[k]].(status := Paid, paidBy := Some(cs[k].slate))
    {
      assert hits[k] == Some(order[k]) && PaidBy(dbs[0], dbs[|cs|], order[k], cs[k].slate);
    }
  }

  /** The signed column is the limit: an amount an awaiting invoice matches pays
      it exactly when it is below 2^63. At or above, the guard refuses it. */
  lemma PaysIffBelowTwoTo63(cfg: Config, db: Db, c: Call, hit: Option<InvoiceId>, db': Db)
    requires Unclaimed(db, c) && Handled(cfg, db, c, hit, db') && hit.Some?
    ensures hit.value in db'.invoices
    ensures db'.invoices[hit.value].status == Paid <==> c.amount < TWO_63
    ensures c.amount >= TWO_63 ==> db'.invoices == db.invoices && c.slate !in db'.payments
  {
    PaysTheOldest(cfg, db, c, hit, db');
  }
}
