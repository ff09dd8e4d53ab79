/** What the ledger promises only when handlers do not get in each other's way:
    exactly when that is, and what follows. */
module Races {
  import opened Common
  import opened Tables
  import opened Interleaving
  import opened Safety
  import opened SafetyProofs
  import opened SafetyTasks
  import opened Runs
  import opened Told

  /** No receive or settle handler is in flight. */
  ghost predicate Quiescent(s: Sys) {
    forall t :: t in s.calls ==> Owned(s.calls[t]) == None
  }

  /** `payment.received` events that name invoice i. */
  predicate ReceivedFor(d: Delivery, i: InvoiceId) {
    d.event.kind == PaymentReceived && d.event.invoice == Some(i)
  }

  /** One `payment.received` for each invoice that got paid, none for others. */
  ghost predicate OneReceiptEach(db: Db) {
    forall i :: i in db.invoices ==>
      && (db.invoices[i].paidBy.Some? <==> exists d :: d in db.queue && ReceivedFor(db.queue[d], i))
      && (forall d, e :: d in db.queue && e in db.queue && ReceivedFor(db.queue[d], i) && ReceivedFor(db.queue[e], i) ==> d == e)
  }

  /** A receive handler whose mark_paid changes nothing, because the invoice it
      resolved was paid or expired since. */
  predicate LostFlip(s: Sys, a: Action) {
    a.Move? && a.t in s.calls && s.calls[a.t].Flip? && !IsOpen(s.db, s.calls[a.t].id)
  }

  predicate NoLostFlips(states: seq<Sys>, actions: seq<Action>)
    requires |states| >= |actions|
  {
    forall k :: 0 <= k < |actions| ==> !LostFlip(states[k], actions[k])
  }

  /** A step marks invoice i paid by slate x. */
  predicate Pays(s: Sys, s': Sys, x: SlateId, i: InvoiceId) {
    IsOpen(s.db, i) && IsPaid(s'.db, i) && s'.db.invoices[i].paidBy == Some(x)
  }

  lemma PayerPaysNoOther(s: Sys, s': Sys, x: SlateId, i: InvoiceId, i': InvoiceId)
    requires PayersRecorded(s.db) && PayersRecorded(s'.db) && Evolves(s.db, s'.db)
    requires i in s.db.invoices && s.db.invoices[i].paidBy == Some(x)
    ensures !Pays(s, s', x, i')
  {
    assert RowEvolves(s.db.invoices[i], s'.db.invoices[i]);
  }

  /** Each slate settles at most once, on whatever rail it arrives: at most one step
      of a run marks an invoice paid by it, its payment row then exists, and it is
      announced at most once. */
  lemma SlateSettlesOnce(cfg: Config, states: seq<Sys>, actions: seq<Action>, j: nat, k: nat, x: SlateId, i: InvoiceId, i': InvoiceId)
    requires ValidConfig(cfg) && Run(cfg, states, actions) && j < k < |states|
    requires Pays(states[j], states[j + 1], x, i)
    ensures k < |actions| ==> !Pays(states[k], states[k + 1], x, i')
    ensures x in states[k].db.payments && i in states[k].db.invoices && states[k].db.invoices[i].paidBy == Some(x)
    ensures forall d, e :: d in states[k].db.queue && e in states[k].db.queue && Receives(states[k].db.queue[d], x) && Receives(states[k].db.queue[e], x) ==> d == e
  {
    ReachableHolds(cfg, states, actions, j + 1);
    ReachableEvolves(cfg, states, actions, j + 1, k);
    ReachableHolds(cfg, states, actions, k);
    ReachableTold(cfg, states, actions, k);
    assert PayerLinks(states[k].db, states[k].calls, i);
    if k < |actions| {
      ReachableHolds(cfg, states, actions, k + 1);
      EvolvesAt(cfg, states, actions, k);
      PayerPaysNoOther(states[k], states[k + 1], x, i, i');
    }
  }

  predicate FlipWon(db: Db, h: Handler)
    requires h.Link? && h.hit.Some?
  {
    h.hit.value in db.invoices && db.invoices[h.hit.value].paidBy == Some(h.c.slate)
  }

  /** Every plain payment that matched an invoice paid it. */
  ghost predicate SolePayers(s: Sys) {
    && (forall x :: x in s.db.payments && x in s.wallet.received && s.db.payments[x].invoice.Some? ==>
         PaysForItsInvoice(s.db, x))
    && (forall t :: t in s.calls && s.calls[t].Link? && s.calls[t].hit.Some? ==> FlipWon(s.db, s.calls[t]))
  }

  lemma FlipWins(cfg: Config, db: Db, h: Handler, db': Db, h': Handler)
    requires HandlerStep(cfg, db, h, db', h') && h'.Link? && h'.hit.Some?
    ensures h.Flip? && (IsOpen(db, h.id) ==> FlipWon(db', h'))
  {
  }

  lemma FlipWonStep(cfg: Config, s: Sys, a: Action, s': Sys, t: nat)
    requires PayersRecorded(s.db) && Step(cfg, s, a, s') && SolePayers(s) && !LostFlip(s, a)
    requires Evolves(s.db, s'.db)
    requires t in s'.calls && s'.calls[t].Link? && s'.calls[t].hit.Some?
    ensures FlipWon(s'.db, s'.calls[t])
  {
    if t in s.calls && s'.calls[t] == s.calls[t] {
      assert FlipWon(s.db, s.calls[t]);
    } else {
      assert a == Move(t);
      FlipWins(cfg, s.db, s.calls[t], s'.db, s'.calls[t]);
    }
  }

  /** A slate with a payment row is not received anew. */
  lemma ReceivedBefore(cfg: Config, s: Sys, a: Action, s': Sys, x: SlateId)
    requires WalletHolds(s) && Step(cfg, s, a, s') && x in s.db.payments && x in s'.wallet.received
    ensures x in s.wallet.received
  {
  }

  lemma LinkingStatement(cfg: Config, db: Db, w: Wallet, h: Handler, db': Db, h': Handler, x: SlateId)
    requires HandlerHolds(db, w, h) && HandlerStep(cfg, db, h, db', h')
    requires x in db'.payments && db'.payments[x].invoice.Some?
    requires x !in db.payments || db.payments[x].invoice == None
    requires x in w.received && w.received !! w.issued
    ensures h.Link? && h.c.slate == x && db'.payments[x].invoice == h.hit && db'.invoices == db.invoices
  {
  }

  /** A plain payment becomes linked only when its own handler links it. */
  lemma LinkedByItsHandler(cfg: Config, s: Sys, a: Action, s': Sys, x: SlateId)
    requires Holds(cfg, s) && ValidConfig(cfg) && Step(cfg, s, a, s')
    requires x in s'.db.payments && x in s'.wallet.received && s'.db.payments[x].invoice.Some?
    requires x !in s.db.payments || s.db.payments[x].invoice == None
    ensures a.Move? && a.t in s.calls && s.calls[a.t].Link? && s.calls[a.t].c.slate == x
    ensures s'.db.payments[x].invoice == s.calls[a.t].hit
    ensures s'.db.invoices == s.db.invoices
  {
    if a.Move? {
      assert HandlerHolds(s.db, s.wallet, s.calls[a.t]);
      LinkingStatement(cfg, s.db, s.wallet, s.calls[a.t], s'.db, s'.calls[a.t], x);
    } else if a.PollMoves? || a.SweepMoves? || Quiet(a) {
      PollAndOthersAreUnheard(cfg, s, a, s');
    }
  }

  lemma SolePayerStep(cfg: Config, s: Sys, a: Action, s': Sys, x: SlateId)
    requires Holds(cfg, s) && ValidConfig(cfg) && Step(cfg, s, a, s') && SolePayers(s) && Evolves(s.db, s'.db)
    requires x in s'.db.payments && x in s'.wallet.received && s'.db.payments[x].invoice.Some?
    ensures PaysForItsInvoice(s'.db, x)
  {
    if x in s.db.payments && s.db.payments[x].invoice.Some? {
      ReceivedBefore(cfg, s, a, s', x);
      assert PaysForItsInvoice(s.db, x);
    } else {
      LinkedByItsHandler(cfg, s, a, s', x);
      assert FlipWon(s.db, s.calls[a.t]);
    }
  }

  lemma {:induction false} NoLossKeepsSolePayers(cfg: Config, s: Sys, a: Action, s': Sys)
    requires Holds(cfg, s) && ValidConfig(cfg) && Step(cfg, s, a, s') && SolePayers(s) && !LostFlip(s, a)
    ensures SolePayers(s')
  {
    StepKeeps(cfg, s, a, s');
    forall x | x in s'.db.payments && x in s'.wallet.received && s'.db.payments[x].invoice.Some?
      ensures PaysForItsInvoice(s'.db, x)
    {
      SolePayerStep(cfg, s, a, s', x);
    }
    forall t | t in s'.calls && s'.calls[t].Link? && s'.calls[t].hit.Some?
      ensures FlipWon(s'.db, s'.calls[t])
    {
      FlipWonStep(cfg, s, a, s', t);
    }
  }

  /** A lost race leaves a trace for good: the payment is, or is about to be,
      linked to an invoice it did not pay and never will. */
  ghost predicate RaceLost(s: Sys, x: SlateId, i: InvoiceId) {
    && x in s.wallet.received
    && i in s.db.invoices && s.db.invoices[i].status != Open && s.db.invoices[i].paidBy != Some(x)
    && ( || (x in s.db.payments && s.db.payments[x].invoice == Some(i))
         || exists t :: t in s.calls && LinkPending(s.calls[t], x, i))
  }

  lemma LosingLeavesATrace(cfg: Config, s: Sys, a: Action, s': Sys)
    requires Holds(cfg, s) && Step(cfg, s, a, s') && LostFlip(s, a)
    ensures RaceLost(s', s.calls[a.t].c.slate, s.calls[a.t].id)
  {
    assert HandlerHolds(s.db, s.wallet, s.calls[a.t]);
    assert LinkPending(s'.calls[a.t], s.calls[a.t].c.slate, s.calls[a.t].id);
  }

  /** Only its own handler links a payment; anyone else leaves it about to be. */
  lemma PendingStays(cfg: Config, s: Sys, a: Action, s': Sys, t: nat, x: SlateId, i: InvoiceId)
    requires HandlersHold(s) && Step(cfg, s, a, s')
    requires t in s.calls && LinkPending(s.calls[t], x, i)
    ensures (x in s'.db.payments && s'.db.payments[x].invoice == Some(i)) || (t in s'.calls && LinkPending(s'.calls[t], x, i))
  {
    assert HandlerHolds(s.db, s.wallet, s.calls[t]);
  }

  lemma TraceStays(cfg: Config, s: Sys, a: Action, s': Sys, x: SlateId, i: InvoiceId)
    requires HandlersHold(s) && Step(cfg, s, a, s') && RaceLost(s, x, i) && Evolves(s.db, s'.db)
    requires s.wallet.received <= s'.wallet.received
    ensures RaceLost(s', x, i)
  {
    if !(x in s.db.payments && s.db.payments[x].invoice == Some(i)) {
      var t :| t in s.calls && LinkPending(s.calls[t], x, i);
      PendingStays(cfg, s, a, s', t, x, i);
    }
  }

  lemma ReceivedGrows(cfg: Config, s: Sys, a: Action, s': Sys)
    requires Step(cfg, s, a, s')
    ensures s.wallet.received <= s'.wallet.received
  {
  }

  lemma TraceStaysAt(cfg: Config, states: seq<Sys>, actions: seq<Action>, k: nat, x: SlateId, i: InvoiceId)
    requires ValidConfig(cfg) && Run(cfg, states, actions) && k < |actions| && RaceLost(states[k], x, i)
    ensures RaceLost(states[k + 1], x, i)
  {
    ReachableHolds(cfg, states, actions, k);
    EvolvesAt(cfg, states, actions, k);
    assert Step(cfg, states[k], actions[k], states[k + 1]);
    ReceivedGrows(cfg, states[k], actions[k], states[k + 1]);
    TraceStays(cfg, states[k], actions[k], states[k + 1], x, i);
  }

  lemma {:induction false} TraceLasts(cfg: Config, states: seq<Sys>, actions: seq<Action>, j: nat, k: nat, x: SlateId, i: InvoiceId)
    requires ValidConfig(cfg) && Run(cfg, states, actions) && j <= k < |states| && RaceLost(states[j], x, i)
    ensures RaceLost(states[k], x, i)
  {
    if j < k {
      TraceLasts(cfg, states, actions, j, k - 1, x, i);
      TraceStaysAt(cfg, states, actions, k - 1, x, i);
    }
  }

  lemma {:induction false} NoLossMeansSolePayers(cfg: Config, states: seq<Sys>, actions: seq<Action>, k: nat)
    requires ValidConfig(cfg) && Run(cfg, states, actions) && NoLostFlips(states, actions) && k < |states|
    ensures SolePayers(states[k])
  {
    if k > 0 {
      NoLossMeansSolePayers(cfg, states, actions, k - 1);
      ReachableHolds(cfg, states, actions, k - 1);
      assert Step(cfg, states[k - 1], actions[k - 1], states[k]);
      assert !LostFlip(states[k - 1], actions[k - 1]);
      NoLossKeepsSolePayers(cfg, states[k - 1], actions[k - 1], states[k]);
    }
  }

  /** At rest, an invoice's payer has been announced for that invoice. */
  lemma PayerIsAnnounced(cfg: Config, s: Sys, i: InvoiceId)
    requires Holds(cfg, s) && ToldExactly(cfg, s) && cfg.webhook && Quiescent(s)
    requires i in s.db.invoices && s.db.invoices[i].paidBy.Some?
    ensures exists d :: d in s.db.queue && ReceivedFor(s.db.queue[d], i) && Receives(s.db.queue[d], s.db.invoices[i].paidBy.value)
  {
    var x := s.db.invoices[i].paidBy.value;
    assert PayerLinks(s.db, s.calls, i);
    assert s.db.payments[x].invoice == Some(i);
    assert Announceable(cfg, s, x);
    var d :| d in s.db.queue && Receives(s.db.queue[d], x);
    assert ReceiptHolds(s.db, s.db.queue[d].event);
    assert ReceivedFor(s.db.queue[d], i);
  }

  /** An event for an invoice comes from a payment linked to that invoice. */
  lemma AnnouncedIsLinked(cfg: Config, s: Sys, d: EventId, i: InvoiceId)
    requires Holds(cfg, s) && ToldExactly(cfg, s) && d in s.db.queue && ReceivedFor(s.db.queue[d], i)
    ensures var x := s.db.queue[d].event.slate;
            && x in s.db.payments && s.db.payments[x].invoice == Some(i)
            && (x in s.wallet.received || PaysForItsInvoice(s.db, x))
  {
    assert ReceiptHolds(s.db, s.db.queue[d].event);
    assert Receives(s.db.queue[d], s.db.queue[d].event.slate);
    assert HasEvent(s.db, s.db.queue[d].event.slate);
  }

  lemma SolePayersTellOnce(cfg: Config, s: Sys)
    requires Holds(cfg, s) && ToldExactly(cfg, s) && cfg.webhook && Quiescent(s) && SolePayers(s)
    ensures OneReceiptEach(s.db)
  {
    forall i, d | i in s.db.invoices && d in s.db.queue && ReceivedFor(s.db.queue[d], i)
      ensures s.db.invoices[i].paidBy == Some(s.db.queue[d].event.slate)
    {
      AnnouncedIsLinked(cfg, s, d, i);
    }
    forall i | i in s.db.invoices && s.db.invoices[i].paidBy.Some?
      ensures exists d :: d in s.db.queue && ReceivedFor(s.db.queue[d], i)
    {
      PayerIsAnnounced(cfg, s, i);
    }
    forall i, d, e | i in s.db.invoices && d in s.db.queue && e in s.db.queue && ReceivedFor(s.db.queue[d], i) && ReceivedFor(s.db.queue[e], i)
      ensures d == e
    {
      var x := s.db.queue[d].event.slate;
      assert Receives(s.db.queue[d], x) && Receives(s.db.queue[e], x);
    }
  }

  lemma LossTellsTwice(cfg: Config, s: Sys, x: SlateId, i: InvoiceId)
    requires Holds(cfg, s) && ToldExactly(cfg, s) && cfg.webhook && Quiescent(s) && RaceLost(s, x, i)
    ensures !OneReceiptEach(s.db)
  {
    assert s.db.payments[x].invoice == Some(i) by {
      forall t | t in s.calls ensures !LinkPending(s.calls[t], x, i) {
        assert Owned(s.calls[t]) == None;
      }
    }
    assert Announceable(cfg, s, x);
    var d :| d in s.db.queue && Receives(s.db.queue[d], x);
    assert ReceiptHolds(s.db, s.db.queue[d].event);
    assert ReceivedFor(s.db.queue[d], i);
    if s.db.invoices[i].paidBy.Some? {
      PayerIsAnnounced(cfg, s, i);
      var e :| e in s.db.queue && ReceivedFor(s.db.queue[e], i) && Receives(s.db.queue[e], s.db.invoices[i].paidBy.value);
      assert d != e;
    }
  }

  lemma LossIsTold(cfg: Config, states: seq<Sys>, actions: seq<Action>, k: nat)
    requires ValidConfig(cfg) && cfg.webhook && Run(cfg, states, actions)
    requires Quiescent(states[|actions|])
    requires k < |actions| && LostFlip(states[k], actions[k])
    ensures !OneReceiptEach(states[|actions|].db)
  {
    var n := |actions|;
    var x, i := states[k].calls[actions[k].t].c.slate, states[k].calls[actions[k].t].id;
    ReachableHolds(cfg, states, actions, k);
    assert Step(cfg, states[k], actions[k], states[k + 1]);
    LosingLeavesATrace(cfg, states[k], actions[k], states[k + 1]);
    TraceLasts(cfg, states, actions, k + 1, n, x, i);
    ReachableHolds(cfg, states, actions, n);
    ReachableTold(cfg, states, actions, n);
    LossTellsTwice(cfg, states[n], x, i);
  }

  /** Exactly once, exactly when: at rest, every paid invoice has one
      `payment.received` and every other invoice none, if and only if no receive
      handler of the run lost the race to mark its invoice paid. */
  lemma ReceiptsAreSingleIffNoRaceWasLost(cfg: Config, states: seq<Sys>, actions: seq<Action>)
    requires ValidConfig(cfg) && cfg.webhook && Run(cfg, states, actions)
    requires Quiescent(states[|actions|])
    ensures OneReceiptEach(states[|actions|].db) <==> NoLostFlips(states, actions)
  {
    var n := |actions|;
    if NoLostFlips(states, actions) {
      ReachableHolds(cfg, states, actions, n);
      ReachableTold(cfg, states, actions, n);
      NoLossMeansSolePayers(cfg, states, actions, n);
      SolePayersTellOnce(cfg, states[n]);
    } else {
      var k :| 0 <= k < n && LostFlip(states[k], actions[k]);
      LossIsTold(cfg, states, actions, k);
    }
  }

  // --------------------------------------------------------- whole handlers

  /** The handler grain: once a handler, a poll pass or a sweep pass has begun,
      nothing else moves until it is done. */
  predicate Alone(s: Sys, a: Action) {
    && (forall t :: t in s.calls && s.calls[t] != Done ==> a == Move(t))
    && (s.poll != Resting ==> a == PollMoves)
    && (s.sweep != Idle ==> a == SweepMoves)
  }

  ghost predicate HandlerGrain(states: seq<Sys>, actions: seq<Action>)
    requires |states| >= |actions|
  {
    forall k {:trigger actions[k]} :: 0 <= k < |actions| ==> Alone(states[k], actions[k])
  }

  /** What a handler running alone has resolved is still open when it flips it. */
  ghost predicate ResolvedIsOpen(s: Sys) {
    forall t :: t in s.calls && (s.calls[t].Check? || s.calls[t].Flip?) ==> IsOpen(s.db, s.calls[t].id)
  }

  lemma {:induction false} AloneKeepsResolved(cfg: Config, s: Sys, a: Action, s': Sys)
    requires Step(cfg, s, a, s') && Alone(s, a) && ResolvedIsOpen(s)
    ensures ResolvedIsOpen(s')
  {
    forall t | t in s'.calls && (s'.calls[t].Check? || s'.calls[t].Flip?)
      ensures IsOpen(s'.db, s'.calls[t].id)
    {
      assert a == Move(t);
    }
  }

  lemma ResolvedAt(cfg: Config, states: seq<Sys>, actions: seq<Action>, k: nat)
    requires Run(cfg, states, actions) && HandlerGrain(states, actions) && k < |actions| && ResolvedIsOpen(states[k])
    ensures ResolvedIsOpen(states[k + 1])
  {
    assert Step(cfg, states[k], actions[k], states[k + 1]) && Alone(states[k], actions[k]);
    AloneKeepsResolved(cfg, states[k], actions[k], states[k + 1]);
  }

  lemma {:induction false} HandlerGrainResolves(cfg: Config, states: seq<Sys>, actions: seq<Action>, k: nat)
    requires Run(cfg, states, actions) && HandlerGrain(states, actions) && k < |states|
    ensures ResolvedIsOpen(states[k])
  {
    if k > 0 {
      HandlerGrainResolves(cfg, states, actions, k - 1);
      ResolvedAt(cfg, states, actions, k - 1);
    }
  }

  /** With whole handlers as steps no race is ever lost, so every paid invoice is
      announced exactly once whenever the server is at rest. */
  lemma HandlerGrainTellsOnce(cfg: Config, states: seq<Sys>, actions: seq<Action>)
    requires ValidConfig(cfg) && cfg.webhook && Run(cfg, states, actions) && HandlerGrain(states, actions)
    requires Quiescent(states[|actions|])
    ensures OneReceiptEach(states[|actions|].db)
  {
    forall k | 0 <= k < |actions| ensures !LostFlip(states[k], actions[k]) {
      HandlerGrainResolves(cfg, states, actions, k);
    }
    ReceiptsAreSingleIffNoRaceWasLost(cfg, states, actions);
  }
}
