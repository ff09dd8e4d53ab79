/** A schedule under which no deep reading is ever wasted, so that no paid invoice
    is stranded: no poll pass lists its work while a handler is between recording
    a payment and finishing to link or settle it. */
module Stranding {
  import opened Common
  import opened Tables
  import opened Interleaving
  import opened Safety
  import opened SafetyProofs
  import opened SafetyTasks
  import opened Runs
  import opened Races
  import opened Readings

  /** Handlers that may still link a payment or flip its invoice. */
  predicate MayLink(h: Handler) {
    || h.Insert? || h.AskRecipient? || h.AskRef? || h.AskAmount? || h.Check? || h.Flip? || h.Link?
    || h.Lookup? || h.Record? || h.Settle?
  }

  /** Those among them whose payment row exists already. */
  predicate MidLink(h: Handler) {
    MayLink(h) && !PreInsert(h)
  }

  ghost predicate Claimed(calls: map<nat, Handler>, x: SlateId) {
    exists t :: t in calls && MayLink(calls[t]) && Owned(calls[t]) == Some(x)
  }

  /** The poll starts a pass, and no handler is mid-link. */
  ghost predicate QuietList(s: Sys, a: Action) {
    a.PollMoves? && s.poll.Resting? ==> forall t :: t in s.calls ==> !MidLink(s.calls[t])
  }

  ghost predicate QuietLists(states: seq<Sys>, actions: seq<Action>)
    requires |states| >= |actions|
  {
    forall k {:trigger actions[k]} :: 0 <= k < |actions| ==> QuietList(states[k], actions[k])
  }

  /** Nobody will insert, link or settle x any more. */
  ghost predicate Released(s: Sys, x: SlateId) {
    x in Used(s.wallet) && !Claimed(s.calls, x)
  }

  predicate Unlinked?(db: Db, x: SlateId) {
    x in db.payments ==> db.payments[x].invoice == None
  }

  ghost predicate Orderly(s: Sys) {
    // what the poll holds is done with by its handler, and listed as it now is
    && (forall item :: item in Held(s.poll) ==> Released(s, item.slate) && (item.invoice == None ==> Unlinked?(s.db, item.slate)))
    // a payment that is linked for good belongs to an invoice that is not open
    && (forall x, i :: LinkedTo(s.db, x, i) && !Claimed(s.calls, x) ==> s.db.invoices[i].status != Open)
  }

  // -------------------------------------------------------------- what is released

  predicate SameLink(a: Db, b: Db, x: SlateId) {
    x in b.payments ==> x in a.payments && b.payments[x].invoice == a.payments[x].invoice
  }

  /** A statement changes links and inserts rows for its own slate only, and only
      while its handler may link. */
  lemma StatementLinksItsOwn(cfg: Config, db: Db, w: Wallet, h: Handler, db': Db, h': Handler, x: SlateId)
    requires HandlerHolds(db, w, h) && HandlerStep(cfg, db, h, db', h')
    ensures MayLink(h') ==> MayLink(h) && Owned(h') == Owned(h)
    ensures !(Owned(h) == Some(x) && MayLink(h)) ==> SameLink(db, db', x)
  {
  }

  /** Whoever starts works for another slate than one already used. */
  lemma StartClaims(cfg: Config, s: Sys, a: Action, s': Sys, x: SlateId)
    requires WalletHolds(s) && Step(cfg, s, a, s') && (a.Issue? || a.Receive? || a.Finalize?) && x in Used(s.wallet)
    ensures x in Used(s'.wallet) && (Claimed(s'.calls, x) ==> Claimed(s.calls, x))
  {
    if Claimed(s'.calls, x) {
      var u :| u in s'.calls && MayLink(s'.calls[u]) && Owned(s'.calls[u]) == Some(x);
      assert u in s.calls && MayLink(s.calls[u]) && Owned(s.calls[u]) == Some(x);
    }
  }

  lemma TaskKeepsLinks(cfg: Config, s: Sys, a: Action, s': Sys, x: SlateId)
    requires Step(cfg, s, a, s') && (a.PollMoves? || a.SweepMoves? || Quiet(a))
    ensures SameLink(s.db, s'.db, x) && s'.calls == s.calls && Used(s.wallet) <= Used(s'.wallet)
  {
  }

  /** A released slate stays released, and its link stays as it is. */
  lemma ReleasedStays(cfg: Config, s: Sys, a: Action, s': Sys, x: SlateId)
    requires HandlersHold(s) && WalletHolds(s) && Step(cfg, s, a, s') && Released(s, x)
    ensures Released(s', x) && SameLink(s.db, s'.db, x)
  {
    if a.Move? {
      assert HandlerHolds(s.db, s.wallet, s.calls[a.t]);
      StatementLinksItsOwn(cfg, s.db, s.wallet, s.calls[a.t], s'.db, s'.calls[a.t], x);
    } else if a.Issue? || a.Receive? || a.Finalize? {
      StartClaims(cfg, s, a, s', x);
    } else {
      TaskKeepsLinks(cfg, s, a, s', x);
    }
  }

  // -------------------------------------------------------------- the invariant

  /** Who lets go of a payment leaves its invoice shut. */
  lemma ReleaseLeavesShut(cfg: Config, db: Db, w: Wallet, h: Handler, db': Db, h': Handler, x: SlateId, i: InvoiceId)
    requires HandlerHolds(db, w, h) && HandlerStep(cfg, db, h, db', h') && LinkedTo(db', x, i)
    requires MayLink(h) && Owned(h) == Some(x) && !MayLink(h')
    ensures db'.invoices[i].status != Open
  {
  }

  /** A claim ends only with a statement of the claiming handler. */
  lemma ClaimEnds(cfg: Config, s: Sys, a: Action, s': Sys, x: SlateId)
    requires Step(cfg, s, a, s') && Claimed(s.calls, x) && !Claimed(s'.calls, x)
    ensures a.Move? && MayLink(s.calls[a.t]) && Owned(s.calls[a.t]) == Some(x) && !(MayLink(s'.calls[a.t]) && Owned(s'.calls[a.t]) == Some(x))
  {
    var u :| u in s.calls && MayLink(s.calls[u]) && Owned(s.calls[u]) == Some(x);
    assert u in s'.calls;
    assert !(MayLink(s'.calls[u]) && Owned(s'.calls[u]) == Some(x));
  }

  /** A row for a slate not yet in use belongs to a handler in flight. */
  lemma FreshRowsAreClaimed(cfg: Config, s: Sys, a: Action, s': Sys, x: SlateId)
    requires HandlersHold(s) && Step(cfg, s, a, s') && x !in s.db.payments && !Claimed(s.calls, x)
    ensures x !in s'.db.payments
  {
    if a.Move? {
      assert HandlerHolds(s.db, s.wallet, s.calls[a.t]);
      StatementLinksItsOwn(cfg, s.db, s.wallet, s.calls[a.t], s'.db, s'.calls[a.t], x);
    } else if a.PollMoves? || a.SweepMoves? || Quiet(a) {
      TaskKeepsLinks(cfg, s, a, s', x);
    }
  }

  lemma LinkedStayShut(cfg: Config, s: Sys, a: Action, s': Sys, x: SlateId, i: InvoiceId)
    requires HandlersHold(s) && WalletHolds(s) && AmountsBind(s.db) && s.db.payments.Keys <= Used(s.wallet)
    requires Step(cfg, s, a, s') && Evolves(s.db, s'.db) && Orderly(s)
    requires LinkedTo(s'.db, x, i) && !Claimed(s'.calls, x)
    ensures s'.db.invoices[i].status != Open
  {
    if Claimed(s.calls, x) {
      ClaimEnds(cfg, s, a, s', x);
      var h, h' := s.calls[a.t], s'.calls[a.t];
      assert HandlerHolds(s.db, s.wallet, h);
      StatementLinksItsOwn(cfg, s.db, s.wallet, h, s'.db, h', x);
      ReleaseLeavesShut(cfg, s.db, s.wallet, h, s'.db, h', x, i);
    } else if x in Used(s.wallet) {
      ReleasedStays(cfg, s, a, s', x);
      assert LinkBinds(s.db, x, i);
    } else {
      FreshRowsAreClaimed(cfg, s, a, s', x);
    }
  }

  /** With no handler mid-link, nobody has a claim on a row. */
  lemma QuietRowsAreReleased(s: Sys, x: SlateId)
    requires HandlersHold(s) && s.db.payments.Keys <= Used(s.wallet) && x in s.db.payments
    requires forall t :: t in s.calls ==> !MidLink(s.calls[t])
    ensures Released(s, x)
  {
    forall t | t in s.calls && MayLink(s.calls[t]) ensures Owned(s.calls[t]) != Some(x) {
      assert HandlerHolds(s.db, s.wallet, s.calls[t]);
    }
  }

  lemma StepKeepsOrderly(cfg: Config, s: Sys, a: Action, s': Sys)
    requires HandlersHold(s) && WalletHolds(s) && AmountsBind(s.db) && Step(cfg, s, a, s') && Evolves(s.db, s'.db)
    requires Orderly(s) && QuietList(s, a)
    ensures Orderly(s')
  {
    forall item | item in Held(s'.poll)
      ensures Released(s', item.slate) && (item.invoice == None ==> Unlinked?(s'.db, item.slate))
    {
      if item !in Held(s.poll) {
        QuietRowsAreReleased(s, item.slate);
      }
      ReleasedStays(cfg, s, a, s', item.slate);
    }
    forall x, i | LinkedTo(s'.db, x, i) && !Claimed(s'.calls, x) ensures s'.db.invoices[i].status != Open {
      LinkedStayShut(cfg, s, a, s', x, i);
    }
  }

  lemma OrderlyAt(cfg: Config, states: seq<Sys>, actions: seq<Action>, k: nat)
    requires ValidConfig(cfg) && Run(cfg, states, actions) && QuietLists(states, actions) && k < |actions|
    requires Orderly(states[k])
    ensures Orderly(states[k + 1])
  {
    ReachableHolds(cfg, states, actions, k);
    EvolvesAt(cfg, states, actions, k);
    assert Step(cfg, states[k], actions[k], states[k + 1]) && QuietList(states[k], actions[k]);
    StepKeepsOrderly(cfg, states[k], actions[k], states[k + 1]);
  }

  lemma {:induction false} QuietListsKeepOrder(cfg: Config, states: seq<Sys>, actions: seq<Action>, k: nat)
    requires ValidConfig(cfg) && Run(cfg, states, actions) && QuietLists(states, actions) && k < |states|
    ensures Orderly(states[k])
  {
    if k > 0 {
      QuietListsKeepOrder(cfg, states, actions, k - 1);
      OrderlyAt(cfg, states, actions, k - 1);
    }
  }

  // ------------------------------------------------------------- no reading wasted

  lemma {:induction false} ReleasedLasts(cfg: Config, states: seq<Sys>, actions: seq<Action>, j: nat, k: nat, x: SlateId)
    requires ValidConfig(cfg) && Run(cfg, states, actions) && j <= k < |states|
    requires Released(states[j], x) && Unlinked?(states[j].db, x)
    ensures Released(states[k], x) && Unlinked?(states[k].db, x)
  {
    if j < k {
      ReleasedLasts(cfg, states, actions, j, k - 1, x);
      ReachableHolds(cfg, states, actions, k - 1);
      assert Step(cfg, states[k - 1], actions[k - 1], states[k]);
      ReleasedStays(cfg, states[k - 1], actions[k - 1], states[k], x);
    }
  }

  /** x is linked to invoice i, or is its payer. */
  predicate PaysFor(db: Db, x: SlateId, i: InvoiceId) {
    i in db.invoices && (LinkedTo(db, x, i) || db.invoices[i].paidBy == Some(x))
  }

  lemma ListedInvoiceIsPaid(cfg: Config, s: Sys, later: Sys, item: WorkItem, i: InvoiceId)
    requires ItemHolds(cfg, s.db, item) && AmountsBind(s.db) && Orderly(s) && item in Held(s.poll) && item.invoice.Some?
    requires HandlersHold(later) && PayersLinkBack(later) && Evolves(s.db, later.db)
    requires IsPaid(later.db, i) && PaysFor(later.db, item.slate, i)
    ensures item.invoice == Some(i) && IsPaid(s.db, i)
  {
    assert LinkBinds(s.db, item.slate, item.invoice.value);
    if later.db.invoices[i].paidBy == Some(item.slate) {
      PayerPointsNowhereElse(later, i, item.slate);
    }
    assert LinkedTo(s.db, item.slate, i);
    assert RowEvolves(s.db.invoices[i], later.db.invoices[i]);
  }

  /** Under the schedule no payment of a paid invoice had a reading wasted. */
  lemma QuietReadingsAreNotWasted(cfg: Config, states: seq<Sys>, actions: seq<Action>, j: nat, k: nat, i: InvoiceId, x: SlateId)
    requires ValidConfig(cfg) && Run(cfg, states, actions) && QuietLists(states, actions) && j < k < |states|
    requires IsPaid(states[k].db, i) && PaysFor(states[k].db, x, i)
    ensures !Wasted(cfg, states[j], actions[j], x)
  {
    var s := states[j];
    if s.poll.Recording? && s.poll.item.slate == x {
      var item := s.poll.item;
      assert item in Held(s.poll);
      QuietListsKeepOrder(cfg, states, actions, j);
      ReachableHolds(cfg, states, actions, j);
      ReachableHolds(cfg, states, actions, k);
      if item.invoice.None? {
        ReleasedLasts(cfg, states, actions, j, k, x);
      } else {
        ReachableEvolves(cfg, states, actions, j, k);
        ListedInvoiceIsPaid(cfg, s, states[k], item, i);
      }
    }
  }

  /** No paid invoice is stranded: in every state of a run whose poll passes
      start while no handler is mid-link, each payment linked to a paid invoice
      is still in the poll's work list (unless the poll is just confirming that
      invoice), and so is its payer. */
  lemma PaidInvoiceIsPolled(cfg: Config, states: seq<Sys>, actions: seq<Action>, k: nat, i: InvoiceId)
    requires ValidConfig(cfg) && Run(cfg, states, actions) && QuietLists(states, actions) && k < |states|
    requires IsPaid(states[k].db, i) && !(states[k].poll.Confirming? && states[k].poll.invoice == i)
    ensures states[k].db.invoices[i].paidBy.Some? && InWorkList(cfg, states[k].db, states[k].db.invoices[i].paidBy.value)
    ensures forall x :: LinkedTo(states[k].db, x, i) ==> InWorkList(cfg, states[k].db, x)
  {
    ReachableHolds(cfg, states, actions, k);
    forall x | PaysFor(states[k].db, x, i) ensures InWorkList(cfg, states[k].db, x) {
      LetGoIffAReadingWasWasted(cfg, states, actions, k, i, x);
      forall j | 0 <= j < k ensures !Wasted(cfg, states[j], actions[j], x) {
        QuietReadingsAreNotWasted(cfg, states, actions, j, k, i, x);
      }
    }
    assert PaysFor(states[k].db, states[k].db.invoices[i].paidBy.value, i);
  }

  /** Whole handlers as steps meet the condition. */
  lemma HandlerGrainIsQuiet(states: seq<Sys>, actions: seq<Action>)
    requires |states| >= |actions| && HandlerGrain(states, actions)
    ensures QuietLists(states, actions)
  {
    forall k | 0 <= k < |actions| ensures QuietList(states[k], actions[k]) {
      assert Alone(states[k], actions[k]);
    }
  }
}
