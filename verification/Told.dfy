/** The conservation law of `payment.received` at statement grain: which slates
    have been announced to the store, as an exact function of the tables and of
    the handlers still in flight. */
module Told {
  import opened Common
  import opened Tables
  import opened Interleaving
  import opened Safety
  import opened SafetyProofs
  import opened SafetyTasks
  import opened Runs

  predicate Receives(d: Delivery, x: SlateId) {
    d.event.kind == PaymentReceived && d.event.slate == x
  }

  ghost predicate HasEvent(db: Db, x: SlateId) {
    exists d :: d in db.queue && Receives(db.queue[d], x)
  }

  ghost predicate InFlight(calls: map<nat, Handler>, x: SlateId) {
    exists t :: t in calls && Owned(calls[t]) == Some(x)
  }

  /** Whether the invoice this payment is linked to names it as its payer. */
  predicate PaysForItsInvoice(db: Db, x: SlateId) {
    && x in db.payments && db.payments[x].invoice.Some? && db.payments[x].invoice.value in db.invoices
    && db.invoices[db.payments[x].invoice.value].paidBy == Some(x)
  }

  /** A finished payment is announced when it was received plainly, whatever it
      matched, or when it is a settlement that paid its invoice. */
  ghost predicate Announceable(cfg: Config, s: Sys, x: SlateId) {
    && cfg.webhook && x in s.db.payments && !InFlight(s.calls, x)
    && (x in s.wallet.received || PaysForItsInvoice(s.db, x))
  }

  /** The body of a `payment.received` event agrees with the tables. */
  predicate ReceiptHolds(db: Db, e: Event) {
    e.kind == PaymentReceived ==>
      && e.slate in db.payments
      && db.payments[e.slate].invoice == e.invoice && db.payments[e.slate].amount == AsI64(e.amount)
      && e.orderRef == RefOf(db, e.invoice)
  }

  predicate Telling?(h: Handler) {
    h.Touch? || h.ReadRef? || h.Notify? || h.Announce?
  }

  ghost predicate ToldExactly(cfg: Config, s: Sys) {
    && (forall x :: HasEvent(s.db, x) <==> Announceable(cfg, s, x))
    && (forall d, e, x :: d in s.db.queue && e in s.db.queue && Receives(s.db.queue[d], x) && Receives(s.db.queue[e], x) ==> d == e)
    && (forall d :: d in s.db.queue ==> ReceiptHolds(s.db, s.db.queue[d].event))
    && (forall t :: t in s.calls && Telling?(s.calls[t]) ==> cfg.webhook)
  }

  /** No `payment.received` event is new. */
  ghost predicate NothingHeard(a: Db, b: Db) {
    forall e :: e in b.queue && b.queue[e].event.kind == PaymentReceived ==>
      e in a.queue && b.queue[e].event == a.queue[e].event
  }

  lemma EventsStay(a: Db, b: Db, x: SlateId)
    requires Evolves(a, b)
    requires forall e :: e in b.queue && Receives(b.queue[e], x) ==> e in a.queue && b.queue[e].event == a.queue[e].event
    ensures HasEvent(a, x) <==> HasEvent(b, x)
  {
    if HasEvent(a, x) {
      var d :| d in a.queue && Receives(a.queue[d], x);
      assert Receives(b.queue[d], x);
    }
    if HasEvent(b, x) {
      var d :| d in b.queue && Receives(b.queue[d], x);
      assert Receives(a.queue[d], x);
    }
  }

  /** Nothing about slate `x` changes across a step for another slate. */
  lemma OthersUntouched(cfg: Config, s: Sys, s': Sys, own: Option<SlateId>, x: SlateId)
    requires Evolves(s.db, s'.db) && LeavesAlone(s.db, s'.db, own) && Some(x) != own
    requires AmountsBind(s.db) && PayersRecorded(s.db)
    requires InFlight(s.calls, x) <==> InFlight(s'.calls, x)
    requires x in s.db.payments ==> (x in s.wallet.received <==> x in s'.wallet.received)
    ensures Announceable(cfg, s, x) <==> Announceable(cfg, s', x)
  {
    if x in s.db.payments && s.db.payments[x].invoice.Some? {
      assert LinkBinds(s.db, x, s.db.payments[x].invoice.value);
    }
  }

  lemma ReceiptsStay(a: Db, b: Db, own: Option<SlateId>, e: Event)
    requires ReceiptHolds(a, e) && Evolves(a, b) && LeavesAlone(a, b, own)
    requires own.Some? && own.value == e.slate && e.kind == PaymentReceived ==>
               e.slate in b.payments && b.payments[e.slate].invoice == a.payments[e.slate].invoice
               && b.payments[e.slate].amount == a.payments[e.slate].amount
    requires AmountsBind(a)
    ensures ReceiptHolds(b, e)
  {
    if e.kind == PaymentReceived && e.invoice.Some? {
      assert LinkBinds(a, e.slate, e.invoice.value);
    }
  }

  /** Steps other than a slate-owning handler's: nothing is announced, and no
      slate that has a payment row changes hands. */
  lemma QuietStepKeepsTold(cfg: Config, s: Sys, s': Sys)
    requires AmountsBind(s.db) && PayersRecorded(s.db) && ToldExactly(cfg, s)
    requires Evolves(s.db, s'.db) && LeavesAlone(s.db, s'.db, None) && NothingHeard(s.db, s'.db)
    requires forall x :: x in s.db.payments ==> (InFlight(s.calls, x) <==> InFlight(s'.calls, x))
    requires forall x :: x in s.db.payments ==> (x in s.wallet.received <==> x in s'.wallet.received)
    requires forall t :: t in s'.calls && Telling?(s'.calls[t]) ==> t in s.calls && s.calls[t] == s'.calls[t]
    ensures ToldExactly(cfg, s')
  {
    forall x ensures HasEvent(s'.db, x) <==> Announceable(cfg, s', x) {
      EventsStay(s.db, s'.db, x);
      if x in s.db.payments {
        OthersUntouched(cfg, s, s', None, x);
      }
    }
    forall d | d in s'.db.queue ensures ReceiptHolds(s'.db, s'.db.queue[d].event) {
      if d in s.db.queue {
        ReceiptsStay(s.db, s'.db, None, s.db.queue[d].event);
      }
    }
    forall d, e, x | d in s'.db.queue && e in s'.db.queue && Receives(s'.db.queue[d], x) && Receives(s'.db.queue[e], x)
      ensures d == e
    {
      assert Receives(s.db.queue[d], x) && Receives(s.db.queue[e], x);
    }
  }

  lemma StillInFlight(s: Sys, s': Sys, t: nat, y: SlateId)
    requires HandlersHold(s) && t in s.calls && t in s'.calls && s'.calls == s.calls[t := s'.calls[t]]
    requires Owned(s.calls[t]).Some?
    requires s'.calls[t].Done? || Owned(s'.calls[t]) == Owned(s.calls[t])
    ensures Some(y) != Owned(s.calls[t]) ==> (InFlight(s.calls, y) <==> InFlight(s'.calls, y))
    ensures Some(y) == Owned(s.calls[t]) ==> InFlight(s.calls, y) && (InFlight(s'.calls, y) <==> !s'.calls[t].Done?)
  {
    if Some(y) != Owned(s.calls[t]) {
      if InFlight(s.calls, y) {
        var u :| u in s.calls && Owned(s.calls[u]) == Some(y);
        assert u in s'.calls && Owned(s'.calls[u]) == Some(y);
      }
      if InFlight(s'.calls, y) {
        var u :| u in s'.calls && Owned(s'.calls[u]) == Some(y);
        assert u in s.calls && Owned(s.calls[u]) == Some(y);
      }
    }
  }

  /** Only the last step of a handler announces, and only its own slate. */
  lemma StatementTells(cfg: Config, db: Db, w: Wallet, h: Handler, db': Db, h': Handler)
    requires HandlerHolds(db, w, h) && HandlerStep(cfg, db, h, db', h') && !h.Attach?
    ensures !(h.Notify? || h.Announce?) ==> NothingHeard(db, db')
    ensures h.Notify? || h.Announce? ==>
              exists d :: d !in db.queue && d in db'.queue && Receives(db'.queue[d], Owned(h).value)
                && ReceiptHolds(db', db'.queue[d].event)
                && db' == db.(queue := db.queue[d := db'.queue[d]])
    ensures Telling?(h') ==> cfg.webhook || Telling?(h)
  {
    if h.Notify? {
      var e :| e !in db.queue && db' == Enqueue(db, e, ReceivedEvent(h.c, h.hit, h.orderRef));
      assert Receives(db'.queue[e], h.c.slate);
    } else if h.Announce? {
      var e :| e !in db.queue && db' == Enqueue(db, e, SettledEvent(h.f, h.id, h.amount, h.orderRef));
      assert Receives(db'.queue[e], h.f.slate);
    }
  }

  /** When a handler finishes, its slate is announceable exactly if its last
      step announced it. */
  lemma FinishTells(cfg: Config, db: Db, w: Wallet, h: Handler, db': Db, h': Handler)
    requires HandlerHolds(db, w, h) && HandlerStep(cfg, db, h, db', h') && !h.Attach? && h'.Done?
    requires w.received !! w.issued && (Telling?(h) ==> cfg.webhook)
    ensures var x := Owned(h).value;
            (h.Notify? || h.Announce?) <==> (cfg.webhook && x in db'.payments && (x in w.received || PaysForItsInvoice(db', x)))
  {
  }

  lemma MoveIsGentle(cfg: Config, s: Sys, t: nat, s': Sys)
    requires Holds(cfg, s) && ValidConfig(cfg) && Step(cfg, s, Move(t), s') && !s.calls[t].Attach?
    ensures Owned(s.calls[t]).Some? && (s'.calls[t].Done? || Owned(s'.calls[t]) == Owned(s.calls[t]))
    ensures InFlight(s.calls, Owned(s.calls[t]).value)
    ensures Evolves(s.db, s'.db) && LeavesAlone(s.db, s'.db, Owned(s.calls[t]))
  {
    var h, h' := s.calls[t], s'.calls[t];
    assert HandlerHolds(s.db, s.wallet, h);
    StatementAdvances(cfg, s.db, s.wallet, h, s'.db, h');
    StatementIsGentle(cfg, s.db, s.wallet, h, s'.db, h');
    StillInFlight(s, s', t, Owned(h).value);
  }

  lemma MoveKeepsTelling(cfg: Config, s: Sys, t: nat, s': Sys)
    requires HandlersHold(s) && Step(cfg, s, Move(t), s') && !s.calls[t].Attach?
    requires forall u :: u in s.calls && Telling?(s.calls[u]) ==> cfg.webhook
    ensures forall u :: u in s'.calls && Telling?(s'.calls[u]) ==> cfg.webhook
  {
    assert HandlerHolds(s.db, s.wallet, s.calls[t]);
    StatementTells(cfg, s.db, s.wallet, s.calls[t], s'.db, s'.calls[t]);
  }

  lemma MoveTellsExactly(cfg: Config, s: Sys, t: nat, s': Sys)
    requires HandlersHold(s) && WalletHolds(s) && AmountsBind(s.db) && PayersRecorded(s.db) && ToldExactly(cfg, s)
    requires Step(cfg, s, Move(t), s') && !s.calls[t].Attach?
    requires Owned(s.calls[t]).Some? && (s'.calls[t].Done? || Owned(s'.calls[t]) == Owned(s.calls[t]))
    requires Evolves(s.db, s'.db) && LeavesAlone(s.db, s'.db, Owned(s.calls[t]))
    ensures forall x :: HasEvent(s'.db, x) <==> Announceable(cfg, s', x)
  {
    var h, h' := s.calls[t], s'.calls[t];
    assert HandlerHolds(s.db, s.wallet, h);
    StatementTells(cfg, s.db, s.wallet, h, s'.db, h');
    forall x ensures HasEvent(s'.db, x) <==> Announceable(cfg, s', x) {
      StillInFlight(s, s', t, x);
      if Some(x) == Owned(h) {
        assert !HasEvent(s.db, x);
        if h'.Done? {
          FinishTells(cfg, s.db, s.wallet, h, s'.db, h');
        }
        if !(h.Notify? || h.Announce?) {
          EventsStay(s.db, s'.db, x);
        }
      } else {
        OthersUntouched(cfg, s, s', Owned(h), x);
        EventsStay(s.db, s'.db, x);
      }
    }
  }

  lemma MoveKeepsReceipts(cfg: Config, s: Sys, t: nat, s': Sys)
    requires HandlersHold(s) && WalletHolds(s) && AmountsBind(s.db) && PayersRecorded(s.db) && ToldExactly(cfg, s)
    requires Step(cfg, s, Move(t), s') && !s.calls[t].Attach?
    requires Owned(s.calls[t]).Some? && InFlight(s.calls, Owned(s.calls[t]).value)
    requires Evolves(s.db, s'.db) && LeavesAlone(s.db, s'.db, Owned(s.calls[t]))
    ensures forall d :: d in s'.db.queue ==> ReceiptHolds(s'.db, s'.db.queue[d].event)
    ensures forall d, e, x :: d in s'.db.queue && e in s'.db.queue && Receives(s'.db.queue[d], x) && Receives(s'.db.queue[e], x) ==> d == e
  {
    var h := s.calls[t];
    assert HandlerHolds(s.db, s.wallet, h);
    StatementTells(cfg, s.db, s.wallet, h, s'.db, s'.calls[t]);
    assert !HasEvent(s.db, Owned(h).value);
    forall d | d in s'.db.queue ensures ReceiptHolds(s'.db, s'.db.queue[d].event) {
      if d in s.db.queue {
        assert !Receives(s.db.queue[d], Owned(h).value);
        ReceiptsStay(s.db, s'.db, Owned(h), s.db.queue[d].event);
      }
    }
    forall d, e, x | d in s'.db.queue && e in s'.db.queue && Receives(s'.db.queue[d], x) && Receives(s'.db.queue[e], x)
      ensures d == e
    {
      assert d in s.db.queue ==> Receives(s.db.queue[d], x);
      assert e in s.db.queue ==> Receives(s.db.queue[e], x);
    }
  }

  lemma MoveKeepsTold(cfg: Config, s: Sys, t: nat, s': Sys)
    requires Holds(cfg, s) && ToldExactly(cfg, s) && ValidConfig(cfg)
    requires Step(cfg, s, Move(t), s') && !s.calls[t].Attach?
    ensures ToldExactly(cfg, s')
  {
    MoveIsGentle(cfg, s, t, s');
    MoveKeepsTelling(cfg, s, t, s');
    MoveTellsExactly(cfg, s, t, s');
    MoveKeepsReceipts(cfg, s, t, s');
  }

  lemma PollIsUnheard(cfg: Config, db: Db, p: Poll, db': Db, p': Poll)
    requires PollHolds(cfg, db, p) && PollStep(cfg, db, p, db', p')
    ensures LeavesAlone(db, db', None) && NothingHeard(db, db')
  {
    if p.Telling? {
      var e :| e !in db.queue && db' == Enqueue(db, e, p.event);
    }
  }

  lemma QuietIsUnheard(cfg: Config, s: Sys, a: Action, s': Sys)
    requires AmountsBind(s.db) && PayersRecorded(s.db) && Step(cfg, s, a, s') && Quiet(a)
    ensures LeavesAlone(s.db, s'.db, None) && NothingHeard(s.db, s'.db)
  {
    QuietGentle(cfg, s, a, s');
  }

  lemma PollAndOthersAreUnheard(cfg: Config, s: Sys, a: Action, s': Sys)
    requires AmountsBind(s.db) && PayersRecorded(s.db) && PollHolds(cfg, s.db, s.poll) && Step(cfg, s, a, s')
    requires a.PollMoves? || a.SweepMoves? || Quiet(a)
    ensures LeavesAlone(s.db, s'.db, None) && NothingHeard(s.db, s'.db)
  {
    if a.PollMoves? {
      PollIsUnheard(cfg, s.db, s.poll, s'.db, s'.poll);
    } else if Quiet(a) {
      QuietIsUnheard(cfg, s, a, s');
    }
  }

  /** Adding or finishing a handler that owns no recorded slate. */
  lemma SameFlights(calls: map<nat, Handler>, t: nat, h: Handler, x: SlateId)
    requires Owned(h) != Some(x) && (t in calls ==> Owned(calls[t]) != Some(x))
    ensures InFlight(calls, x) <==> InFlight(calls[t := h], x)
  {
    var calls' := calls[t := h];
    if InFlight(calls, x) {
      var u :| u in calls && Owned(calls[u]) == Some(x);
      assert u in calls' && Owned(calls'[u]) == Some(x);
    }
  }

  /** A handler that starts works for a slate without a payment row. */
  lemma StartChangesNoFlight(cfg: Config, s: Sys, a: Action, s': Sys)
    requires Holds(cfg, s) && Step(cfg, s, a, s') && (a.Issue? || a.Receive? || a.Finalize?)
    ensures s'.db == s.db
    ensures forall x :: x in s.db.payments ==>
              (InFlight(s.calls, x) <==> InFlight(s'.calls, x)) && (x in s.wallet.received <==> x in s'.wallet.received)
  {
    forall x | x in s.db.payments ensures InFlight(s.calls, x) <==> InFlight(s'.calls, x) {
      SameFlights(s.calls, a.t, s'.calls[a.t], x);
    }
  }

  lemma StartKeepsTold(cfg: Config, s: Sys, a: Action, s': Sys)
    requires Holds(cfg, s) && ToldExactly(cfg, s) && Step(cfg, s, a, s') && (a.Issue? || a.Receive? || a.Finalize?)
    ensures ToldExactly(cfg, s')
  {
    StartChangesNoFlight(cfg, s, a, s');
    ReadGentle(cfg, s.db, None);
    QuietStepKeepsTold(cfg, s, s');
  }

  lemma AttachKeepsTold(cfg: Config, s: Sys, t: nat, s': Sys)
    requires AmountsBind(s.db) && PayersRecorded(s.db) && ToldExactly(cfg, s)
    requires t in s.calls && s.calls[t].Attach?
    requires s' == s.(db := s.db.(invoices := s'.db.invoices), calls := s.calls[t := Done])
    requires Evolves(s.db, s'.db)
    requires forall i :: i in s'.db.invoices ==> i in s.db.invoices && s'.db.invoices[i].paidBy == s.db.invoices[i].paidBy
    ensures ToldExactly(cfg, s')
  {
    forall x ensures InFlight(s.calls, x) <==> InFlight(s'.calls, x) {
      SameFlights(s.calls, t, Done, x);
    }
    QuietStepKeepsTold(cfg, s, s');
  }

  lemma TaskKeepsTold(cfg: Config, s: Sys, a: Action, s': Sys)
    requires Holds(cfg, s) && ToldExactly(cfg, s) && Step(cfg, s, a, s')
    requires a.PollMoves? || a.SweepMoves? || Quiet(a)
    requires Evolves(s.db, s'.db)
    ensures ToldExactly(cfg, s')
  {
    PollAndOthersAreUnheard(cfg, s, a, s');
    QuietStepKeepsTold(cfg, s, s');
  }

  lemma AttachShape(cfg: Config, s: Sys, t: nat, s': Sys)
    requires Step(cfg, s, Move(t), s') && s.calls[t].Attach?
    ensures s' == s.(db := s.db.(invoices := s'.db.invoices), calls := s.calls[t := Done])
    ensures forall i :: i in s'.db.invoices ==> i in s.db.invoices && s'.db.invoices[i].paidBy == s.db.invoices[i].paidBy
  {
  }

  lemma AnyMoveKeepsTold(cfg: Config, s: Sys, t: nat, s': Sys)
    requires Holds(cfg, s) && ToldExactly(cfg, s) && ValidConfig(cfg) && Step(cfg, s, Move(t), s')
    ensures ToldExactly(cfg, s')
  {
    if s.calls[t].Attach? {
      AttachKeeps(cfg, s, t, s');
      AttachShape(cfg, s, t, s');
      AttachKeepsTold(cfg, s, t, s');
    } else {
      MoveKeepsTold(cfg, s, t, s');
    }
  }

  lemma AnyTaskKeepsTold(cfg: Config, s: Sys, a: Action, s': Sys)
    requires Holds(cfg, s) && ToldExactly(cfg, s) && ValidConfig(cfg) && Step(cfg, s, a, s')
    requires a.PollMoves? || a.SweepMoves? || Quiet(a)
    ensures ToldExactly(cfg, s')
  {
    StepKeeps(cfg, s, a, s');
    TaskKeepsTold(cfg, s, a, s');
  }

  lemma StepKeepsTold(cfg: Config, s: Sys, a: Action, s': Sys)
    requires Holds(cfg, s) && ToldExactly(cfg, s) && ValidConfig(cfg) && Step(cfg, s, a, s')
    ensures ToldExactly(cfg, s')
  {
    if a.Move? {
      AnyMoveKeepsTold(cfg, s, a.t, s');
    } else if a.Issue? || a.Receive? || a.Finalize? {
      StartKeepsTold(cfg, s, a, s');
    } else {
      AnyTaskKeepsTold(cfg, s, a, s');
    }
  }

  lemma {:induction false} ReachableTold(cfg: Config, states: seq<Sys>, actions: seq<Action>, k: nat)
    requires ValidConfig(cfg) && Run(cfg, states, actions) && k < |states|
    ensures ToldExactly(cfg, states[k])
  {
    if k > 0 {
      ReachableTold(cfg, states, actions, k - 1);
      ReachableHolds(cfg, states, actions, k - 1);
      assert Step(cfg, states[k - 1], actions[k - 1], states[k]);
      StepKeepsTold(cfg, states[k - 1], actions[k - 1], states[k]);
    }
  }
}
