/** What a reader may rely on over every run at statement grain, whatever the
    interleaving of handlers, poll, sweep, dispatcher and clock. */
module Runs {
  import opened Common
  import opened Tables
  import opened Interleaving
  import opened Safety
  import opened SafetyTasks

  lemma {:induction false} ReachableHolds(cfg: Config, states: seq<Sys>, actions: seq<Action>, k: nat)
    requires ValidConfig(cfg) && Run(cfg, states, actions) && k < |states|
    ensures Holds(cfg, states[k])
  {
    if k == 0 {
      InitHolds(cfg, states[0]);
    } else {
      ReachableHolds(cfg, states, actions, k - 1);
      assert Step(cfg, states[k - 1], actions[k - 1], states[k]);
      StepKeeps(cfg, states[k - 1], actions[k - 1], states[k]);
    }
  }

  lemma EvolvesAt(cfg: Config, states: seq<Sys>, actions: seq<Action>, k: nat)
    requires ValidConfig(cfg) && Run(cfg, states, actions) && k < |actions|
    ensures Evolves(states[k].db, states[k + 1].db)
  {
    ReachableHolds(cfg, states, actions, k);
    assert Step(cfg, states[k], actions[k], states[k + 1]);
    StepKeeps(cfg, states[k], actions[k], states[k + 1]);
  }

  lemma {:induction false} ReachableEvolves(cfg: Config, states: seq<Sys>, actions: seq<Action>, j: nat, k: nat)
    requires ValidConfig(cfg) && Run(cfg, states, actions) && j <= k < |states|
    ensures Evolves(states[j].db, states[k].db)
  {
    if j < k {
      ReachableEvolves(cfg, states, actions, j, k - 1);
      EvolvesAt(cfg, states, actions, k - 1);
    }
  }

  // ------------------------------------------------------------ money safety

  /** Amount binding, on every rail: a payment linked to an invoice with expected
      amount e carries exactly max(e, 0), as stored and as presented. */
  lemma LinkedPaymentPaysExactly(cfg: Config, states: seq<Sys>, actions: seq<Action>, k: nat, x: SlateId, i: InvoiceId)
    requires ValidConfig(cfg) && Run(cfg, states, actions) && k < |states|
    requires x in states[k].db.payments && states[k].db.payments[x].invoice == Some(i)
    ensures i in states[k].db.invoices
    ensures var e := states[k].db.invoices[i].expected;
            e.Some? ==> states[k].db.payments[x].amount == AsU64(states[k].db.payments[x].amount) == Clamp(e.value)
  {
    ReachableHolds(cfg, states, actions, k);
    assert LinkBinds(states[k].db, x, i);
  }

  /** The payer of an invoice is written once and never changes, no slate pays
      two invoices, and what has expired is never paid. */
  lemma PayerIsFinal(cfg: Config, states: seq<Sys>, actions: seq<Action>, j: nat, k: nat, i: InvoiceId, i': InvoiceId)
    requires ValidConfig(cfg) && Run(cfg, states, actions) && j <= k < |states|
    requires i in states[j].db.invoices
    ensures i in states[k].db.invoices
    ensures states[j].db.invoices[i].paidBy.Some? ==> states[k].db.invoices[i].paidBy == states[j].db.invoices[i].paidBy
    ensures states[j].db.invoices[i].status == Expired ==>
              states[k].db.invoices[i].status == Expired && states[k].db.invoices[i].paidBy == None
    ensures i' in states[k].db.invoices && i' != i && states[k].db.invoices[i].paidBy.Some? ==>
              states[k].db.invoices[i'].paidBy != states[k].db.invoices[i].paidBy
  {
    ReachableHolds(cfg, states, actions, j);
    ReachableHolds(cfg, states, actions, k);
    ReachableEvolves(cfg, states, actions, j, k);
  }

  /** The payer's row exists, and once no handler is working for that slate it
      is linked back to the invoice it paid. */
  lemma PayerLinksBack(cfg: Config, states: seq<Sys>, actions: seq<Action>, k: nat, i: InvoiceId)
    requires ValidConfig(cfg) && Run(cfg, states, actions) && k < |states|
    requires i in states[k].db.invoices && states[k].db.invoices[i].paidBy.Some?
    ensures var s, x := states[k], states[k].db.invoices[i].paidBy.value;
            && x in s.db.payments
            && ((forall t :: t in s.calls ==> Owned(s.calls[t]) != Some(x)) ==> s.db.payments[x].invoice == Some(i))
  {
    ReachableHolds(cfg, states, actions, k);
    assert PayerLinks(states[k].db, states[k].calls, i);
  }

  /** A confirmed invoice has a linked payment at the required depth, and that
      payment carries its expected amount. */
  lemma ConfirmedIsPaidInDepth(cfg: Config, states: seq<Sys>, actions: seq<Action>, k: nat, i: InvoiceId) returns (x: SlateId)
    requires ValidConfig(cfg) && Run(cfg, states, actions) && k < |states|
    requires i in states[k].db.invoices && states[k].db.invoices[i].status == Confirmed
    ensures x in states[k].db.payments
    ensures var p, e := states[k].db.payments[x], states[k].db.invoices[i].expected;
            && p.invoice == Some(i) && p.confirmations >= cfg.required
            && (e.Some? ==> p.amount == Clamp(e.value))
  {
    ReachableHolds(cfg, states, actions, k);
    x :| Deep(cfg, states[k].db, x, i);
    assert LinkBinds(states[k].db, x, i);
  }

  /** `payment.confirmed` is queued exactly once for a confirmed invoice (while
      the poll is not just between confirming it and queueing), and never for
      any other; its body is true of the tables. */
  lemma ConfirmedIsToldOnce(cfg: Config, states: seq<Sys>, actions: seq<Action>, k: nat, i: InvoiceId)
    requires ValidConfig(cfg) && cfg.webhook && Run(cfg, states, actions) && k < |states|
    requires i in states[k].db.invoices && Untold(states[k].poll) != Some(i)
    ensures var db := states[k].db;
            && (db.invoices[i].status == Confirmed <==> exists d :: d in db.queue && Confirms(db.queue[d], i))
            && (forall d, e :: d in db.queue && e in db.queue && Confirms(db.queue[d], i) && Confirms(db.queue[e], i) ==> d == e)
            && (forall d :: d in db.queue && Confirms(db.queue[d], i) ==> EventHolds(cfg, db, db.queue[d].event))
  {
    ReachableHolds(cfg, states, actions, k);
  }

  /** A finalized, cancelled or lost context never comes back. */
  lemma {:induction false} ContextStaysGone(cfg: Config, states: seq<Sys>, actions: seq<Action>, j: nat, k: nat, x: SlateId)
    requires ValidConfig(cfg) && Run(cfg, states, actions) && j <= k < |states|
    requires x in states[j].wallet.issued - states[j].wallet.live
    ensures x in states[k].wallet.issued - states[k].wallet.live
  {
    if j < k {
      ContextStaysGone(cfg, states, actions, j, k - 1, x);
      assert Step(cfg, states[k - 1], actions[k - 1], states[k]);
    }
  }

  /** The sweep cancels before it expires: when it flips an invoice, and ever
      after, the wallet has no live context for the slate that invoice was
      issued, so no late response can settle it. */
  lemma SweptContextIsGone(cfg: Config, states: seq<Sys>, actions: seq<Action>, j: nat, k: nat, i: InvoiceId)
    requires ValidConfig(cfg) && Run(cfg, states, actions) && j < k < |states|
    requires actions[j] == SweepMoves
    requires IsOpen(states[j].db, i) && !IsOpen(states[j + 1].db, i)
    ensures i in states[k].db.invoices && states[k].db.invoices[i].slate.Some?
    ensures states[k].db.invoices[i].slate.value !in states[k].wallet.live
    ensures states[k].db.invoices[i].status == Expired
  {
    ReachableHolds(cfg, states, actions, j);
    assert Step(cfg, states[j], actions[j], states[j + 1]);
    ReachableHolds(cfg, states, actions, j + 1);
    ReachableEvolves(cfg, states, actions, j + 1, k);
    ContextStaysGone(cfg, states, actions, j + 1, k, states[j + 1].db.invoices[i].slate.value);
  }

  // ------------------------------------------------------------- life cycles

  predicate StatusStep(a: Status, b: Status) {
    a == b || (a == Open && (b == Paid || b == Expired)) || (a == Paid && b == Confirmed)
  }

  /** One step moves a status by at most one edge of the life cycle, and a new
      invoice starts open. */
  lemma StepMovesStatus(cfg: Config, s: Sys, a: Action, s': Sys, i: InvoiceId)
    requires Step(cfg, s, a, s')
    ensures i in s.db.invoices ==> i in s'.db.invoices && StatusStep(s.db.invoices[i].status, s'.db.invoices[i].status)
    ensures i !in s.db.invoices && i in s'.db.invoices ==> s'.db.invoices[i].status == Open
  {
  }

  /** A payment's status changes only when its reply is recorded or its depth is. */
  lemma PaymentStatusMoves(cfg: Config, s: Sys, a: Action, s': Sys, x: SlateId)
    requires Step(cfg, s, a, s') && x in s.db.payments && x in s'.db.payments
    ensures s'.db.payments[x].status ==
            if a == Reply(x) then Replied
            else if a.PollMoves? && s.poll.Recording? && s.poll.item.slate == x then OnChain
            else s.db.payments[x].status
  {
  }

  /** The distinct statuses an invoice has passed through, in order. */
  function History(states: seq<Sys>, i: InvoiceId): seq<Status> {
    if states == [] then []
    else
      var before := History(states[..|states| - 1], i);
      var db := states[|states| - 1].db;
      if i !in db.invoices || (before != [] && before[|before| - 1] == db.invoices[i].status) then before
      else before + [db.invoices[i].status]
  }

  predicate LifeCycle(h: seq<Status>) {
    h == [] || h == [Open] || h == [Open, Expired] || h == [Open, Paid] || h == [Open, Paid, Confirmed]
  }

  /** Every invoice's history is a prefix of open, paid, confirmed or of open,
      expired, and ends in its current status. */
  lemma {:induction false} HistoryIsLifeCycle(cfg: Config, states: seq<Sys>, actions: seq<Action>, k: nat, i: InvoiceId)
    requires Run(cfg, states, actions) && k < |states|
    ensures var h := History(states[..k + 1], i);
            && LifeCycle(h)
            && (h == [] <==> i !in states[k].db.invoices)
            && (i in states[k].db.invoices ==> h[|h| - 1] == states[k].db.invoices[i].status)
  {
    assert states[..k + 1][..k] == states[..k];
    if k == 0 {
      assert History(states[..1][..0], i) == [];
    } else {
      HistoryIsLifeCycle(cfg, states, actions, k - 1, i);
      assert Step(cfg, states[k - 1], actions[k - 1], states[k]);
      StepMovesStatus(cfg, states[k - 1], actions[k - 1], states[k], i);
    }
  }
}
