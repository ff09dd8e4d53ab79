/** Which payments the confirmation poll has let go of: exactly those
    some deep reading of which was wasted, that is, recorded from an entry of the work
    list that named no invoice to confirm, or one that was not paid yet. The account is
    kept over whole runs, payment by payment, at statement grain. */
module Readings {
  import opened Common
  import opened Tables
  import opened Interleaving
  import opened Safety
  import opened SafetyProofs
  import opened SafetyTasks
  import opened Runs

  /** The items the poll still holds. */
  function Held(p: Poll): seq<WorkItem> {
    match p
    case Resting => []
    case Recording(item, _, work) => [item] + work
    case _ => p.work
  }

  /** Slate ids whose work has begun: received, or issued and no longer live. */
  function Used(w: Wallet): set<SlateId> {
    w.received + (w.issued - w.live)
  }

  /** Handlers that have yet to insert their payment row. */
  predicate PreInsert(h: Handler) {
    h.Insert? || h.Lookup? || h.Record?
  }

  /** x can have no new payment row any more. */
  ghost predicate Begun(s: Sys, x: SlateId) {
    x in Used(s.wallet) && forall t :: t in s.calls && PreInsert(s.calls[t]) ==> Owned(s.calls[t]) != Some(x)
  }

  /** The poll records x at the required depth, and the list entry it works from
      names no invoice, or one that is not paid: the depth goes on record, no
      confirmation can come of it, and x will not be listed again. */
  predicate Wasted(cfg: Config, s: Sys, a: Action, x: SlateId) {
    && a.PollMoves? && s.poll.Recording? && s.poll.item.slate == x
    && AsI64(s.poll.depth) >= cfg.required
    && !(s.poll.item.invoice.Some? && IsPaid(s.db, s.poll.item.invoice.value))
  }

  function WastedAt(cfg: Config, s: Sys, a: Action): set<SlateId> {
    if s.poll.Recording? && Wasted(cfg, s, a, s.poll.item.slate) then {s.poll.item.slate} else {}
  }

  /** The slates whose deep reading was wasted in the first k steps. */
  ghost function WastedIn(cfg: Config, states: seq<Sys>, actions: seq<Action>, k: nat): set<SlateId>
    requires k <= |actions| < |states|
  {
    if k == 0 then {}
    else WastedIn(cfg, states, actions, k - 1) + WastedAt(cfg, states[k - 1], actions[k - 1])
  }

  predicate IsDeep(cfg: Config, db: Db, x: SlateId) {
    x in db.payments && db.payments[x].confirmations >= cfg.required
  }

  /** x's depth confirmed its invoice, or is just about to. */
  predicate PutToUse(s: Sys, x: SlateId)
    requires x in s.db.payments
  {
    s.db.payments[x].invoice.Some? &&
    var i := s.db.payments[x].invoice.value;
    && i in s.db.invoices
    && (s.db.invoices[i].status == Confirmed || (s.db.invoices[i].status == Paid && s.poll.Confirming? && s.poll.invoice == i))
  }

  /** Every deep payment is accounted for. */
  ghost predicate Accounted(cfg: Config, s: Sys, wasted: set<SlateId>) {
    && (forall item :: item in Held(s.poll) ==> Begun(s, item.slate))
    && (forall x :: x in wasted ==> Begun(s, x) && (x in s.db.payments ==> IsDeep(cfg, s.db, x)))
    && (forall x :: IsDeep(cfg, s.db, x) ==> x in wasted || PutToUse(s, x))
    && (forall x :: x in s.db.payments ==> s.db.payments[x].kernel.Some?)
  }

  // ------------------------------------------------------------ steps, one by one

  /** What begun means: no row can be inserted for it. */
  lemma RowsHaveBegun(s: Sys, x: SlateId)
    requires HandlersHold(s) && WalletHolds(s) && x in s.db.payments
    ensures Begun(s, x)
  {
    forall t | t in s.calls && PreInsert(s.calls[t]) ensures Owned(s.calls[t]) != Some(x) {
      assert HandlerHolds(s.db, s.wallet, s.calls[t]);
    }
  }

  lemma MoveKeepsBegun(cfg: Config, s: Sys, t: nat, s': Sys, x: SlateId)
    requires Step(cfg, s, Move(t), s') && Begun(s, x)
    ensures Begun(s', x) && (x in s'.db.payments ==> x in s.db.payments)
  {
  }

  lemma StartKeepsBegun(cfg: Config, s: Sys, a: Action, s': Sys, x: SlateId)
    requires WalletHolds(s) && Step(cfg, s, a, s') && (a.Issue? || a.Receive? || a.Finalize?) && Begun(s, x)
    ensures Begun(s', x) && s'.db == s.db
  {
  }

  lemma TaskKeepsBegun(cfg: Config, s: Sys, a: Action, s': Sys, x: SlateId)
    requires Step(cfg, s, a, s') && (a.PollMoves? || a.SweepMoves? || Quiet(a)) && Begun(s, x)
    ensures Begun(s', x) && (x in s'.db.payments ==> x in s.db.payments)
  {
  }

  lemma BegunStays(cfg: Config, s: Sys, a: Action, s': Sys, x: SlateId)
    requires WalletHolds(s) && Step(cfg, s, a, s') && Begun(s, x)
    ensures Begun(s', x) && (x in s'.db.payments ==> x in s.db.payments)
  {
    if a.Move? {
      MoveKeepsBegun(cfg, s, a.t, s', x);
    } else if a.Issue? || a.Receive? || a.Finalize? {
      StartKeepsBegun(cfg, s, a, s', x);
    } else {
      TaskKeepsBegun(cfg, s, a, s', x);
    }
  }

  /** Depths and kernels, and where new rows come from. */
  ghost predicate RowsKept(a: Db, b: Db) {
    forall x :: x in b.payments ==>
      if x in a.payments then b.payments[x].kernel == a.payments[x].kernel && b.payments[x].confirmations == a.payments[x].confirmations
      else b.payments[x].kernel.Some? && b.payments[x].confirmations == 0
  }

  lemma StatementKeepsRows(cfg: Config, db: Db, h: Handler, db': Db, h': Handler)
    requires HandlerStep(cfg, db, h, db', h')
    ensures RowsKept(db, db')
  {
  }

  /** Only the poll's recording step writes a depth. */
  lemma OthersKeepRows(cfg: Config, s: Sys, a: Action, s': Sys)
    requires Step(cfg, s, a, s') && !(a.PollMoves? && s.poll.Recording?)
    ensures RowsKept(s.db, s'.db)
  {
    if a.Move? {
      StatementKeepsRows(cfg, s.db, s.calls[a.t], s'.db, s'.calls[a.t]);
    }
  }

  /** The poll confirms the invoice, or is still about to. */
  lemma ConfirmingPutsToUse(cfg: Config, s: Sys, a: Action, s': Sys, i: InvoiceId)
    requires Step(cfg, s, a, s') && s.poll.Confirming? && s.poll.invoice == i && IsPaid(s.db, i)
    ensures a.PollMoves? ==> i in s'.db.invoices && s'.db.invoices[i].status == Confirmed
    ensures !a.PollMoves? ==> s'.poll == s.poll
  {
  }

  /** A use stays a use. */
  lemma UseStays(cfg: Config, s: Sys, a: Action, s': Sys, x: SlateId)
    requires Step(cfg, s, a, s') && Evolves(s.db, s'.db) && x in s.db.payments && PutToUse(s, x) && x in s'.db.payments
    ensures PutToUse(s', x)
  {
    var i := s.db.payments[x].invoice.value;
    assert RowEvolves(s.db.invoices[i], s'.db.invoices[i]);
    if s.poll.Confirming? && s.poll.invoice == i && IsPaid(s.db, i) {
      ConfirmingPutsToUse(cfg, s, a, s', i);
    }
  }

  // --------------------------------------------------------------- the invariant

  lemma HeldStaysBegun(cfg: Config, s: Sys, a: Action, s': Sys, wasted: set<SlateId>)
    requires HandlersHold(s) && WalletHolds(s) && Step(cfg, s, a, s') && Accounted(cfg, s, wasted)
    ensures forall item :: item in Held(s'.poll) ==> Begun(s', item.slate)
  {
    forall item | item in Held(s'.poll) ensures Begun(s', item.slate) {
      if item !in Held(s.poll) {
        RowsHaveBegun(s, item.slate);
      }
      BegunStays(cfg, s, a, s', item.slate);
    }
  }

  lemma OthersKeepAccount(cfg: Config, s: Sys, a: Action, s': Sys, wasted: set<SlateId>)
    requires HandlersHold(s) && WalletHolds(s) && ValidConfig(cfg) && Step(cfg, s, a, s') && Accounted(cfg, s, wasted)
    requires Evolves(s.db, s'.db) && !(a.PollMoves? && s.poll.Recording?)
    ensures Accounted(cfg, s', wasted)
  {
    HeldStaysBegun(cfg, s, a, s', wasted);
    OthersKeepRows(cfg, s, a, s');
    forall x | x in wasted ensures Begun(s', x) && (x in s'.db.payments ==> IsDeep(cfg, s'.db, x)) {
      BegunStays(cfg, s, a, s', x);
    }
    forall x | IsDeep(cfg, s'.db, x) ensures x in wasted || PutToUse(s', x) {
      assert IsDeep(cfg, s.db, x);
      if x !in wasted {
        UseStays(cfg, s, a, s', x);
      }
    }
  }

  /** The recording step: another payment's account stays, its own is opened as
      put to use or as wasted. */
  lemma RecordingKeepsAccount(cfg: Config, s: Sys, s': Sys, wasted: set<SlateId>)
    requires HandlersHold(s) && WalletHolds(s) && PollHolds(cfg, s.db, s.poll) && AmountsBind(s.db)
    requires Step(cfg, s, PollMoves, s') && s.poll.Recording? && Accounted(cfg, s, wasted) && Evolves(s.db, s'.db)
    ensures Accounted(cfg, s', wasted + WastedAt(cfg, s, PollMoves))
  {
    var item := s.poll.item;
    HeldStaysBegun(cfg, s, PollMoves, s', wasted);
    assert item in Held(s.poll) && ItemHolds(cfg, s.db, item);
    forall x | x in wasted + WastedAt(cfg, s, PollMoves) ensures Begun(s', x) && (x in s'.db.payments ==> IsDeep(cfg, s'.db, x)) {
      BegunStays(cfg, s, PollMoves, s', x);
    }
    forall x | IsDeep(cfg, s'.db, x) ensures x in wasted + WastedAt(cfg, s, PollMoves) || PutToUse(s', x) {
      if x != item.slate {
        assert IsDeep(cfg, s.db, x);
        if x !in wasted {
          UseStays(cfg, s, PollMoves, s', x);
        }
      }
    }
  }

  lemma StepKeepsAccount(cfg: Config, s: Sys, a: Action, s': Sys, wasted: set<SlateId>)
    requires Holds(cfg, s) && ValidConfig(cfg) && Step(cfg, s, a, s') && Evolves(s.db, s'.db) && Accounted(cfg, s, wasted)
    ensures Accounted(cfg, s', wasted + WastedAt(cfg, s, a))
  {
    if a.PollMoves? && s.poll.Recording? {
      RecordingKeepsAccount(cfg, s, s', wasted);
    } else {
      OthersKeepAccount(cfg, s, a, s', wasted);
      assert wasted + WastedAt(cfg, s, a) == wasted;
    }
  }

  lemma AccountAt(cfg: Config, states: seq<Sys>, actions: seq<Action>, k: nat)
    requires ValidConfig(cfg) && Run(cfg, states, actions) && k < |actions|
    requires Accounted(cfg, states[k], WastedIn(cfg, states, actions, k))
    ensures Accounted(cfg, states[k + 1], WastedIn(cfg, states, actions, k + 1))
  {
    ReachableHolds(cfg, states, actions, k);
    EvolvesAt(cfg, states, actions, k);
    assert Step(cfg, states[k], actions[k], states[k + 1]);
    StepKeepsAccount(cfg, states[k], actions[k], states[k + 1], WastedIn(cfg, states, actions, k));
  }

  lemma {:induction false} ReachableAccount(cfg: Config, states: seq<Sys>, actions: seq<Action>, k: nat)
    requires ValidConfig(cfg) && Run(cfg, states, actions) && k < |states|
    ensures Accounted(cfg, states[k], WastedIn(cfg, states, actions, k))
  {
    if k > 0 {
      ReachableAccount(cfg, states, actions, k - 1);
      AccountAt(cfg, states, actions, k - 1);
    }
  }

  lemma {:induction false} WastedInIsASome(cfg: Config, states: seq<Sys>, actions: seq<Action>, k: nat, x: SlateId)
    requires k <= |actions| < |states|
    ensures x in WastedIn(cfg, states, actions, k) <==> exists j :: 0 <= j < k && Wasted(cfg, states[j], actions[j], x)
  {
    if k > 0 {
      WastedInIsASome(cfg, states, actions, k - 1, x);
      assert x in WastedAt(cfg, states[k - 1], actions[k - 1]) <==> Wasted(cfg, states[k - 1], actions[k - 1], x);
    }
  }

  // ------------------------------------------------------------------ main result

  predicate LinkedTo(db: Db, x: SlateId, i: InvoiceId) {
    x in db.payments && db.payments[x].invoice == Some(i) && i in db.invoices
  }

  /** A payer's row is linked to its invoice, or to nothing yet. */
  lemma PayerPointsNowhereElse(s: Sys, i: InvoiceId, x: SlateId)
    requires HandlersHold(s) && PayersLinkBack(s) && i in s.db.invoices && s.db.invoices[i].paidBy == Some(x)
    ensures x in s.db.payments && (s.db.payments[x].invoice == None || s.db.payments[x].invoice == Some(i))
  {
    assert PayerLinks(s.db, s.calls, i);
    if s.db.payments[x].invoice != Some(i) {
      var t :| t in s.calls && LinkPending(s.calls[t], x, i);
      assert HandlerHolds(s.db, s.wallet, s.calls[t]);
    }
  }

  /** Exactly when the poll has let go of a payment of a paid invoice (one linked
      to it, or its payer): when some earlier deep reading of that payment was
      wasted. The poll that is just confirming the invoice has not let go yet. */
  lemma LetGoIffAReadingWasWasted(cfg: Config, states: seq<Sys>, actions: seq<Action>, k: nat, i: InvoiceId, x: SlateId)
    requires ValidConfig(cfg) && Run(cfg, states, actions) && k < |states| && IsPaid(states[k].db, i)
    requires !(states[k].poll.Confirming? && states[k].poll.invoice == i)
    requires LinkedTo(states[k].db, x, i) || states[k].db.invoices[i].paidBy == Some(x)
    ensures !InWorkList(cfg, states[k].db, x) <==> exists j :: 0 <= j < k && Wasted(cfg, states[j], actions[j], x)
  {
    var s := states[k];
    ReachableHolds(cfg, states, actions, k);
    ReachableAccount(cfg, states, actions, k);
    WastedInIsASome(cfg, states, actions, k, x);
    if s.db.invoices[i].paidBy == Some(x) {
      PayerPointsNowhereElse(s, i, x);
    }
    assert IsDeep(cfg, s.db, x) ==> !PutToUse(s, x);
  }

  /** Stranded for good: paid, and no payment linked to it is ever listed again. */
  ghost predicate Stranded(cfg: Config, db: Db, i: InvoiceId) {
    IsPaid(db, i) && forall x :: LinkedTo(db, x, i) ==> !InWorkList(cfg, db, x)
  }

  /** A paid invoice is stranded iff every payment linked to it had its deep
      reading wasted. */
  lemma StrandedIffAllReadingsWereWasted(cfg: Config, states: seq<Sys>, actions: seq<Action>, k: nat, i: InvoiceId)
    requires ValidConfig(cfg) && Run(cfg, states, actions) && k < |states| && IsPaid(states[k].db, i)
    requires !(states[k].poll.Confirming? && states[k].poll.invoice == i)
    ensures Stranded(cfg, states[k].db, i) <==>
            forall x :: LinkedTo(states[k].db, x, i) ==> exists j :: 0 <= j < k && Wasted(cfg, states[j], actions[j], x)
  {
    forall x | LinkedTo(states[k].db, x, i)
      ensures !InWorkList(cfg, states[k].db, x) <==> exists j :: 0 <= j < k && Wasted(cfg, states[j], actions[j], x)
    {
      LetGoIffAReadingWasWasted(cfg, states, actions, k, i, x);
    }
  }
}
