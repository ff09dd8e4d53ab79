/** Nothing expires early, and nothing that is read stays open past its expiry. */
module Expiry {
  import opened Common
  import opened Tables
  import opened Interleaving
  import opened Safety
  import opened SafetyTasks
  import opened Runs
  import opened Passes

  predicate PastExpiry(db: Db, i: InvoiceId) {
    i in db.invoices && db.invoices[i].expiry.Some? && db.invoices[i].expiry.value <= db.now
  }

  /** What the sweep still has in hand was past its expiry when it was listed. */
  ghost predicate SweepIsLate(db: Db, p: Sweep) {
    match p
    case Idle => true
    case Sweeping(due) => forall k :: 0 <= k < |due| ==> PastExpiry(db, due[k].0)
    case Expiring(id, _, due) => PastExpiry(db, id) && forall k :: 0 <= k < |due| ==> PastExpiry(db, due[k].0)
  }

  ghost predicate ExpiredLate(s: Sys) {
    && (forall i :: i in s.db.invoices && s.db.invoices[i].status == Expired ==> PastExpiry(s.db, i))
    && SweepIsLate(s.db, s.sweep)
  }

  /** Whatever a step expires is past its expiry. */
  lemma StepExpiresLate(cfg: Config, s: Sys, a: Action, s': Sys, i: InvoiceId)
    requires Step(cfg, s, a, s') && SweepIsLate(s.db, s.sweep)
    requires i in s'.db.invoices && s'.db.invoices[i].status == Expired && (i in s.db.invoices ==> s.db.invoices[i].status != Expired)
    ensures PastExpiry(s.db, i)
  {
  }

  lemma SweepStaysLate(cfg: Config, s: Sys, a: Action, s': Sys)
    requires Step(cfg, s, a, s') && SweepIsLate(s.db, s.sweep) && Evolves(s.db, s'.db)
    ensures SweepIsLate(s'.db, s'.sweep)
  {
  }

  lemma {:induction false} ReachableExpiredLate(cfg: Config, states: seq<Sys>, actions: seq<Action>, k: nat)
    requires ValidConfig(cfg) && Run(cfg, states, actions) && k < |states|
    ensures ExpiredLate(states[k])
  {
    if k > 0 {
      var s, s' := states[k - 1], states[k];
      ReachableExpiredLate(cfg, states, actions, k - 1);
      EvolvesAt(cfg, states, actions, k - 1);
      assert Step(cfg, s, actions[k - 1], s');
      SweepStaysLate(cfg, s, actions[k - 1], s');
      forall i | i in s'.db.invoices && s'.db.invoices[i].status == Expired ensures PastExpiry(s'.db, i) {
        if i !in s.db.invoices || s.db.invoices[i].status != Expired {
          StepExpiresLate(cfg, s, actions[k - 1], s', i);
        }
      }
    }
  }

  /** In every state of every run an expired invoice has an expiry, and it has passed:
      lazily on read, in bulk on listing or by the sweep, nothing expires early. */
  lemma NothingExpiresEarly(cfg: Config, states: seq<Sys>, actions: seq<Action>, k: nat, i: InvoiceId)
    requires ValidConfig(cfg) && Run(cfg, states, actions) && k < |states|
    requires i in states[k].db.invoices && states[k].db.invoices[i].status == Expired
    ensures states[k].db.invoices[i].expiry.Some? && states[k].db.invoices[i].expiry.value <= states[k].db.now
  {
    ReachableExpiredLate(cfg, states, actions, k);
    assert PastExpiry(states[k].db, i);
  }

  /** Read or listed, an open invoice expires exactly when its expiry has come, and
      nothing else about it changes. */
  lemma ReadExpiresExactly(cfg: Config, s: Sys, a: Action, s': Sys, i: InvoiceId)
    requires Step(cfg, s, a, s') && (a == ReadInvoice(i) || a.ListInvoices?) && i in s.db.invoices
    ensures i in s'.db.invoices
    ensures var inv := s.db.invoices[i];
            s'.db.invoices[i] ==
              if inv.status == Open && inv.expiry.Some? && inv.expiry.value <= s.db.now then inv.(status := Expired) else inv
  {
  }

  /** A sweep whose cancels all succeed leaves no armed invoice open past its expiry,
      and expires no other. */
  lemma SweepTakesExactlyTheOverdue(db: Db, due: seq<(InvoiceId, SlateId)>, cancelled: seq<bool>, i: InvoiceId)
    requires |due| == |cancelled| && DueList(db, due) && (forall k :: 0 <= k < |due| ==> cancelled[k]) && i in db.invoices
    ensures i in AfterSweep(db, due, cancelled).invoices
    ensures var inv := db.invoices[i];
            AfterSweep(db, due, cancelled).invoices[i] ==
              if inv.status == Open && inv.slate.Some? && inv.expiry.Some? && inv.expiry.value <= db.now
              then inv.(status := Expired) else inv
  {
    SweepExpiresExactly(db, due, cancelled);
    if DueGrin1(db, i) {
      var k :| 0 <= k < |due| && due[k].0 == i;
      assert cancelled[k];
    }
  }
}
