/** One `payment.received`, and only then `payment.confirmed`: when the two come in
    that order. */
module Order {
  import opened Common
  import opened Tables
  import opened Interleaving
  import opened Safety
  import opened SafetyTasks
  import opened Runs
  import opened Told
  import opened Races
  import opened Readings

  ghost predicate HasReceipt(db: Db, i: InvoiceId) {
    exists d :: d in db.queue && ReceivedFor(db.queue[d], i)
  }

  ghost predicate HasConfirmation(db: Db, i: InvoiceId) {
    exists d :: d in db.queue && Confirms(db.queue[d], i)
  }

  /** No invoice's confirmation has been queued without a receipt before it. */
  ghost predicate ReceiptsFirst(states: seq<Sys>) {
    forall k, i :: 0 <= k < |states| && HasConfirmation(states[k].db, i) ==> HasReceipt(states[k].db, i)
  }

  /** A payment that is announced once its handler is done. */
  predicate ToBeTold(s: Sys, x: SlateId, i: InvoiceId) {
    && x in s.db.payments && s.db.payments[x].invoice == Some(i)
    && (x in s.wallet.received || PaysForItsInvoice(s.db, x))
  }

  /** The poll queues a confirmation while the handler of every payment that will
      announce that invoice is still in flight. */
  ghost predicate Hasty(s: Sys, a: Action) {
    a.PollMoves? && s.poll.Telling? && forall x :: ToBeTold(s, x, s.poll.invoice) ==> InFlight(s.calls, x)
  }

  /** An invoice has a receipt iff a payment linked to it has been announced. */
  lemma ReceiptIffToldPayment(cfg: Config, s: Sys, i: InvoiceId)
    requires cfg.webhook && ToldExactly(cfg, s)
    ensures HasReceipt(s.db, i) <==> exists x :: ToBeTold(s, x, i) && !InFlight(s.calls, x)
  {
    if HasReceipt(s.db, i) {
      var d :| d in s.db.queue && ReceivedFor(s.db.queue[d], i);
      assert ReceiptHolds(s.db, s.db.queue[d].event);
      assert Receives(s.db.queue[d], s.db.queue[d].event.slate);
      assert Announceable(cfg, s, s.db.queue[d].event.slate);
    }
    if x :| ToBeTold(s, x, i) && !InFlight(s.calls, x) {
      assert Announceable(cfg, s, x);
      var d :| d in s.db.queue && Receives(s.db.queue[d], x);
      assert ReceiptHolds(s.db, s.db.queue[d].event);
      assert ReceivedFor(s.db.queue[d], i);
    }
  }

  lemma ReceiptStays(a: Db, b: Db, i: InvoiceId)
    requires Evolves(a, b) && HasReceipt(a, i)
    ensures HasReceipt(b, i)
  {
    var d :| d in a.queue && ReceivedFor(a.queue[d], i);
    assert ReceivedFor(b.queue[d], i);
  }

  lemma StatementConfirmsNothing(cfg: Config, db: Db, h: Handler, db': Db, h': Handler, d: EventId)
    requires HandlerStep(cfg, db, h, db', h') && d in db'.queue && db'.queue[d].event.kind == PaymentConfirmed
    ensures d in db.queue && db.queue[d].event == db'.queue[d].event
  {
  }

  /** Only the poll's last statement confirms, and only its own invoice. */
  lemma ConfirmationsComeFromThePoll(cfg: Config, s: Sys, a: Action, s': Sys, i: InvoiceId)
    requires PollHolds(cfg, s.db, s.poll) && Step(cfg, s, a, s')
    requires HasConfirmation(s'.db, i) && !HasConfirmation(s.db, i)
    ensures a.PollMoves? && s.poll.Telling? && s.poll.invoice == i
  {
    var d :| d in s'.db.queue && Confirms(s'.db.queue[d], i);
    assert d in s.db.queue ==> !Confirms(s.db.queue[d], i);
    if a.Move? {
      StatementConfirmsNothing(cfg, s.db, s.calls[a.t], s'.db, s'.calls[a.t], d);
    } else if a.PollMoves? && s.poll.Telling? {
      var e :| e !in s.db.queue && s'.db == Enqueue(s.db, e, s.poll.event);
    }
  }

  /** A hasty step leaves a confirmation without a receipt. */
  lemma HasteShows(cfg: Config, s: Sys, a: Action, s': Sys)
    requires cfg.webhook && Holds(cfg, s) && ToldExactly(cfg, s) && Step(cfg, s, a, s') && Hasty(s, a)
    ensures HasConfirmation(s'.db, s.poll.invoice) && !HasReceipt(s'.db, s.poll.invoice)
  {
    var i := s.poll.invoice;
    ReceiptIffToldPayment(cfg, s, i);
    var e :| e !in s.db.queue && s'.db == Enqueue(s.db, e, s.poll.event);
    assert Confirms(s'.db.queue[e], i);
    forall d | d in s'.db.queue ensures !ReceivedFor(s'.db.queue[d], i) {
      assert d in s.db.queue ==> !ReceivedFor(s.db.queue[d], i);
    }
  }

  lemma HasteBreaksOrder(cfg: Config, states: seq<Sys>, actions: seq<Action>, k: nat)
    requires ValidConfig(cfg) && cfg.webhook && Run(cfg, states, actions) && k < |actions| && Hasty(states[k], actions[k])
    ensures !ReceiptsFirst(states)
  {
    ReachableHolds(cfg, states, actions, k);
    ReachableTold(cfg, states, actions, k);
    assert Step(cfg, states[k], actions[k], states[k + 1]);
    HasteShows(cfg, states[k], actions[k], states[k + 1]);
  }

  lemma UnhastyAt(cfg: Config, states: seq<Sys>, actions: seq<Action>, k: nat, i: InvoiceId)
    requires ValidConfig(cfg) && cfg.webhook && Run(cfg, states, actions) && k < |actions| && !Hasty(states[k], actions[k])
    requires HasConfirmation(states[k + 1].db, i) && !HasConfirmation(states[k].db, i)
    ensures HasReceipt(states[k].db, i)
  {
    ReachableHolds(cfg, states, actions, k);
    ReachableTold(cfg, states, actions, k);
    assert Step(cfg, states[k], actions[k], states[k + 1]);
    ConfirmationsComeFromThePoll(cfg, states[k], actions[k], states[k + 1], i);
    ReceiptIffToldPayment(cfg, states[k], i);
  }

  lemma UnhastyKeepsOrder(cfg: Config, states: seq<Sys>, actions: seq<Action>, k: nat, i: InvoiceId)
    requires ValidConfig(cfg) && cfg.webhook && Run(cfg, states, actions) && k < |actions| && !Hasty(states[k], actions[k])
    requires HasConfirmation(states[k + 1].db, i) && (HasConfirmation(states[k].db, i) ==> HasReceipt(states[k].db, i))
    ensures HasReceipt(states[k + 1].db, i)
  {
    if !HasConfirmation(states[k].db, i) {
      UnhastyAt(cfg, states, actions, k, i);
    }
    EvolvesAt(cfg, states, actions, k);
    ReceiptStays(states[k].db, states[k + 1].db, i);
  }

  lemma NothingConfirmedAtFirst(s: Sys, i: InvoiceId)
    requires Init(s)
    ensures !HasConfirmation(s.db, i)
  {
  }

  lemma {:induction false} NoHasteKeepsOrder(cfg: Config, states: seq<Sys>, actions: seq<Action>, k: nat, i: InvoiceId)
    requires ValidConfig(cfg) && cfg.webhook && Run(cfg, states, actions) && k < |states|
    requires forall j :: 0 <= j < |actions| ==> !Hasty(states[j], actions[j])
    ensures HasConfirmation(states[k].db, i) ==> HasReceipt(states[k].db, i)
  {
    if k == 0 {
      NothingConfirmedAtFirst(states[0], i);
    } else {
      NoHasteKeepsOrder(cfg, states, actions, k - 1, i);
      if HasConfirmation(states[k].db, i) {
        UnhastyKeepsOrder(cfg, states, actions, k - 1, i);
      }
    }
  }

  /** At statement grain every confirmation comes after a receipt for its invoice if
      and only if no confirmation is queued while all handlers that will announce
      that invoice are still in flight. */
  lemma ReceiptsComeFirstIffNoHaste(cfg: Config, states: seq<Sys>, actions: seq<Action>)
    requires ValidConfig(cfg) && cfg.webhook && Run(cfg, states, actions)
    ensures ReceiptsFirst(states) <==> forall k :: 0 <= k < |actions| ==> !Hasty(states[k], actions[k])
  {
    if forall k :: 0 <= k < |actions| ==> !Hasty(states[k], actions[k]) {
      forall k, i | 0 <= k < |states| && HasConfirmation(states[k].db, i) ensures HasReceipt(states[k].db, i) {
        NoHasteKeepsOrder(cfg, states, actions, k, i);
      }
    } else {
      var k :| 0 <= k < |actions| && Hasty(states[k], actions[k]);
      HasteBreaksOrder(cfg, states, actions, k);
    }
  }

  /** With every handler done, the payer of the invoice being confirmed has been
      announced. */
  lemma PayerIsToBeTold(cfg: Config, s: Sys)
    requires Holds(cfg, s) && s.poll.Telling? && forall t :: t in s.calls ==> s.calls[t] == Done
    ensures exists x :: ToBeTold(s, x, s.poll.invoice) && !InFlight(s.calls, x)
  {
    var i := s.poll.invoice;
    assert PayerLinks(s.db, s.calls, i);
    assert ToBeTold(s, s.db.invoices[i].paidBy.value, i);
  }

  /** With whole handlers as steps the poll never runs beside a handler, so each
      paid invoice's receipt comes before its confirmation. */
  lemma HandlerGrainReceiptsComeFirst(cfg: Config, states: seq<Sys>, actions: seq<Action>)
    requires ValidConfig(cfg) && cfg.webhook && Run(cfg, states, actions) && HandlerGrain(states, actions)
    ensures ReceiptsFirst(states)
  {
    forall k | 0 <= k < |actions| ensures !Hasty(states[k], actions[k]) {
      assert Alone(states[k], actions[k]);
      ReachableHolds(cfg, states, actions, k);
      if actions[k].PollMoves? && states[k].poll.Telling? {
        PayerIsToBeTold(cfg, states[k]);
      }
    }
    ReceiptsComeFirstIffNoHaste(cfg, states, actions);
  }

  // ----------------------------------------------------- what a node can report

  /** A received slate's payer gets the reply that completes the transaction only
      once its handler has returned, so no node reports it deep before that. */
  ghost predicate Plausible(cfg: Config, s: Sys, a: Action, s': Sys) {
    a.PollMoves? && s.poll.Working? && s'.poll.Recording? && AsI64(s'.poll.depth) >= cfg.required
    && s'.poll.item.slate in s.wallet.received ==>
      !InFlight(s.calls, s'.poll.item.slate)
  }

  ghost predicate PlausibleReports(cfg: Config, states: seq<Sys>, actions: seq<Action>)
    requires |states| > |actions|
  {
    forall k {:trigger actions[k]} :: 0 <= k < |actions| ==> Plausible(cfg, states[k], actions[k], states[k + 1])
  }

  /** The slate the poll has a deep reading of in hand. */
  function InHand(cfg: Config, p: Poll): Option<SlateId> {
    match p
    case Resting => None
    case Working(_) => None
    case Recording(item, depth, _) => if AsI64(depth) >= cfg.required then Some(item.slate) else None
    case _ => Some(p.slate)
  }

  /** It is a slate the wallet knows, and if it was received, its handler is done. */
  ghost predicate HandIsFree(cfg: Config, s: Sys) {
    var x := InHand(cfg, s.poll);
    x.Some? ==>
      && x.value in s.wallet.received + s.wallet.issued
      && (x.value in s.wallet.received ==> !InFlight(s.calls, x.value))
  }

  lemma MoveKeepsOwner(cfg: Config, db: Db, w: Wallet, h: Handler, db': Db, h': Handler)
    requires HandlerHolds(db, w, h) && HandlerStep(cfg, db, h, db', h')
    ensures h'.Done? || Owned(h') == Owned(h)
  {
  }

  /** A step leaves the table of handlers alone, starts one for a slate that was
      not received before, or moves one on. */
  lemma StepTouchesOneHandler(cfg: Config, s: Sys, a: Action, s': Sys, x: SlateId)
    requires WalletHolds(s) && Step(cfg, s, a, s') && x in s.wallet.received
    ensures if a.Issue? || a.Receive? || a.Finalize?
            then a.t !in s.calls && a.t in s'.calls && s'.calls == s.calls[a.t := s'.calls[a.t]] && Owned(s'.calls[a.t]) != Some(x)
            else a.Move? || s'.calls == s.calls
  {
  }

  /** No handler starts, or starts over, for a received slate. */
  lemma FreeStaysFree(cfg: Config, s: Sys, a: Action, s': Sys, x: SlateId)
    requires HandlersHold(s) && WalletHolds(s) && Step(cfg, s, a, s') && x in s.wallet.received && !InFlight(s.calls, x)
    ensures !InFlight(s'.calls, x)
  {
    StepTouchesOneHandler(cfg, s, a, s', x);
    if a.Move? {
      MoveKeepsOwner(cfg, s.db, s.wallet, s.calls[a.t], s'.db, s'.calls[a.t]);
    }
    if a.Issue? || a.Receive? || a.Finalize? || a.Move? {
      SameFlights(s.calls, a.t, s'.calls[a.t], x);
    }
  }

  lemma KnownStaysKnown(cfg: Config, s: Sys, a: Action, s': Sys, x: SlateId)
    requires Step(cfg, s, a, s') && x in s.wallet.received + s.wallet.issued
    ensures x in s'.wallet.received + s'.wallet.issued
    ensures x in s'.wallet.received ==> x in s.wallet.received
  {
  }

  /** What the poll has in hand it had before, or has just read off its list. */
  lemma HandComesFromTheList(cfg: Config, s: Sys, a: Action, s': Sys)
    requires Step(cfg, s, a, s') && InHand(cfg, s'.poll).Some? && InHand(cfg, s'.poll) != InHand(cfg, s.poll)
    ensures a.PollMoves? && s.poll.Working? && s'.poll.Recording? && AsI64(s'.poll.depth) >= cfg.required
    ensures s'.poll.item in Held(s.poll)
  {
  }

  lemma StepKeepsHandFree(cfg: Config, s: Sys, a: Action, s': Sys, wasted: set<SlateId>)
    requires HandlersHold(s) && WalletHolds(s) && Accounted(cfg, s, wasted) && Step(cfg, s, a, s')
    requires HandIsFree(cfg, s) && Plausible(cfg, s, a, s')
    ensures HandIsFree(cfg, s')
  {
    if InHand(cfg, s'.poll).Some? {
      var x := InHand(cfg, s'.poll).value;
      if InHand(cfg, s'.poll) != InHand(cfg, s.poll) {
        HandComesFromTheList(cfg, s, a, s');
        assert Begun(s, s'.poll.item.slate);
      }
      KnownStaysKnown(cfg, s, a, s', x);
      if x in s.wallet.received {
        FreeStaysFree(cfg, s, a, s', x);
      }
    }
  }

  lemma HandFreeAt(cfg: Config, states: seq<Sys>, actions: seq<Action>, k: nat)
    requires ValidConfig(cfg) && Run(cfg, states, actions) && PlausibleReports(cfg, states, actions) && k < |actions|
    requires HandIsFree(cfg, states[k])
    ensures HandIsFree(cfg, states[k + 1])
  {
    ReachableHolds(cfg, states, actions, k);
    ReachableAccount(cfg, states, actions, k);
    assert Step(cfg, states[k], actions[k], states[k + 1]) && Plausible(cfg, states[k], actions[k], states[k + 1]);
    StepKeepsHandFree(cfg, states[k], actions[k], states[k + 1], WastedIn(cfg, states, actions, k));
  }

  lemma {:induction false} ReachableHandFree(cfg: Config, states: seq<Sys>, actions: seq<Action>, k: nat)
    requires ValidConfig(cfg) && Run(cfg, states, actions) && PlausibleReports(cfg, states, actions) && k < |states|
    ensures HandIsFree(cfg, states[k])
  {
    if k > 0 {
      ReachableHandFree(cfg, states, actions, k - 1);
      HandFreeAt(cfg, states, actions, k - 1);
    }
  }

  lemma ReceivedHandWasTold(cfg: Config, s: Sys)
    requires cfg.webhook && ToldExactly(cfg, s) && s.poll.Telling? && Deep(cfg, s.db, s.poll.slate, s.poll.invoice)
    requires s.poll.slate in s.wallet.received && !InFlight(s.calls, s.poll.slate)
    ensures ToBeTold(s, s.poll.slate, s.poll.invoice)
    ensures exists d :: d in s.db.queue && Receives(s.db.queue[d], s.poll.slate) && ReceivedFor(s.db.queue[d], s.poll.invoice)
  {
    assert Announceable(cfg, s, s.poll.slate);
    var d :| d in s.db.queue && Receives(s.db.queue[d], s.poll.slate);
    assert ReceiptHolds(s.db, s.db.queue[d].event);
    assert ReceivedFor(s.db.queue[d], s.poll.invoice);
  }

  /** On the receive rails an invoice is never confirmed ahead of its receipt: when
      the poll queues the confirmation a received slate brought about, that very
      slate has been announced for the invoice. So under plausible reports a hasty
      step can only come from an issued slate, on the settle rail. */
  lemma HasteIsOnTheSettleRail(cfg: Config, states: seq<Sys>, actions: seq<Action>, k: nat)
    requires ValidConfig(cfg) && cfg.webhook && Run(cfg, states, actions) && PlausibleReports(cfg, states, actions)
    requires k < |actions| && states[k].poll.Telling?
    ensures var s := states[k];
            s.poll.slate in s.wallet.received ==>
              exists d :: d in s.db.queue && Receives(s.db.queue[d], s.poll.slate) && ReceivedFor(s.db.queue[d], s.poll.invoice)
    ensures Hasty(states[k], actions[k]) ==>
              states[k].poll.slate in states[k].wallet.issued && states[k].poll.slate !in states[k].wallet.received
  {
    var s := states[k];
    ReachableHolds(cfg, states, actions, k);
    ReachableTold(cfg, states, actions, k);
    ReachableHandFree(cfg, states, actions, k);
    if s.poll.slate in s.wallet.received {
      ReceivedHandWasTold(cfg, s);
    }
  }
}
