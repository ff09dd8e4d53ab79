/** Who is credited: over whole runs every queued event names the user its payment
    row is credited to, and a receipt the user and amount of a payment received. */
module Credit {
  import opened Common
  import opened Tables
  import opened Interleaving
  import opened Safety
  import opened SafetyTasks
  import opened Runs
  import opened Told
  import opened Modes

  predicate NamesItsUser(db: Db, e: Event) {
    e.slate in db.payments && db.payments[e.slate].user == e.user
  }

  /** The row has the user its handler is about to tell. */
  predicate HandlerCredits(db: Db, h: Handler) {
    match h
    case Touch(c, _) => c.slate in db.payments && db.payments[c.slate].user == c.user
    case ReadRef(c, _) => c.slate in db.payments && db.payments[c.slate].user == c.user
    case Notify(c, _, _) => c.slate in db.payments && db.payments[c.slate].user == c.user
    case Settle(f, _, _, _) => f.slate in db.payments && db.payments[f.slate].user == None
    case Announce(f, _, _, _) => f.slate in db.payments && db.payments[f.slate].user == None
    case _ => true
  }

  ghost predicate Credits(s: Sys) {
    && (forall d :: d in s.db.queue ==> NamesItsUser(s.db, s.db.queue[d].event))
    && (forall t :: t in s.calls ==> HandlerCredits(s.db, s.calls[t]))
    && (s.poll.Telling? ==> NamesItsUser(s.db, s.poll.event))
  }

  /** A row keeps its user. */
  predicate UserStays(a: Db, b: Db, x: SlateId) {
    x in a.payments && x in b.payments && b.payments[x].user == a.payments[x].user
  }

  /** A statement changes the user of no row but its own, and of that only while it
      is not linked. */
  lemma StatementKeepsUsers(cfg: Config, db: Db, w: Wallet, h: Handler, db': Db, h': Handler, x: SlateId)
    requires HandlerHolds(db, w, h) && HandlerStep(cfg, db, h, db', h') && x in db.payments
    requires Owned(h) != Some(x) || db.payments[x].invoice.Some? || h.Touch? || h.ReadRef? || h.Notify?
    ensures UserStays(db, db', x)
  {
  }

  lemma StatementCredits(cfg: Config, db: Db, w: Wallet, h: Handler, db': Db, h': Handler)
    requires HandlerHolds(db, w, h) && HandlerStep(cfg, db, h, db', h') && HandlerCredits(db, h)
    ensures HandlerCredits(db', h')
    ensures forall d :: d in db'.queue && (d in db.queue ==> db'.queue[d] != db.queue[d]) ==> NamesItsUser(db', db'.queue[d].event)
  {
  }

  /** Nor does a step of any other actor. */
  lemma TasksKeepUsers(cfg: Config, s: Sys, a: Action, s': Sys, x: SlateId)
    requires Step(cfg, s, a, s') && !a.Move? && x in s.db.payments
    ensures UserStays(s.db, s'.db, x)
  {
  }

  /** The row of a queued event is not the row a handler is linking or undoing. */
  lemma EventRowIsSettled(cfg: Config, s: Sys, t: nat, e: Event)
    requires Holds(cfg, s) && ToldExactly(cfg, s) && t in s.calls && e.slate in s.db.payments
    requires (e.kind == PaymentReceived && HasEvent(s.db, e.slate)) || (e.kind == PaymentConfirmed && EventHolds(cfg, s.db, e))
    ensures Owned(s.calls[t]) != Some(e.slate) || s.db.payments[e.slate].invoice.Some?
  {
  }

  lemma EventKeepsUser(cfg: Config, s: Sys, a: Action, s': Sys, e: Event)
    requires Holds(cfg, s) && ToldExactly(cfg, s) && Step(cfg, s, a, s') && NamesItsUser(s.db, e)
    requires (e.kind == PaymentReceived && HasEvent(s.db, e.slate)) || (e.kind == PaymentConfirmed && EventHolds(cfg, s.db, e))
    ensures NamesItsUser(s'.db, e)
  {
    if a.Move? {
      EventRowIsSettled(cfg, s, a.t, e);
      assert HandlerHolds(s.db, s.wallet, s.calls[a.t]);
      StatementKeepsUsers(cfg, s.db, s.wallet, s.calls[a.t], s'.db, s'.calls[a.t], e.slate);
    } else {
      TasksKeepUsers(cfg, s, a, s', e.slate);
    }
  }

  lemma HandlersKeepCredits(cfg: Config, s: Sys, a: Action, s': Sys, t: nat)
    requires HandlersHold(s) && Step(cfg, s, a, s') && t in s'.calls
    requires t in s.calls ==> HandlerCredits(s.db, s.calls[t])
    ensures HandlerCredits(s'.db, s'.calls[t])
  {
    if a.Move? {
      assert HandlerHolds(s.db, s.wallet, s.calls[a.t]);
      if a.t == t {
        StatementCredits(cfg, s.db, s.wallet, s.calls[t], s'.db, s'.calls[t]);
      } else if Owned(s.calls[t]).Some? && Owned(s.calls[t]).value in s.db.payments {
        StatementKeepsUsers(cfg, s.db, s.wallet, s.calls[a.t], s'.db, s'.calls[a.t], Owned(s.calls[t]).value);
      }
    } else if t in s.calls && Owned(s.calls[t]).Some? && Owned(s.calls[t]).value in s.db.payments {
      TasksKeepUsers(cfg, s, a, s', Owned(s.calls[t]).value);
    }
  }

  /** An event queued in a step is a handler's or the poll's. */
  lemma NewEvent(cfg: Config, s: Sys, a: Action, s': Sys, d: EventId)
    requires Step(cfg, s, a, s') && d in s'.db.queue && (d in s.db.queue ==> s'.db.queue[d].event != s.db.queue[d].event)
    ensures || (a.PollMoves? && s.poll.Telling? && s'.db.queue[d].event == s.poll.event && d !in s.db.queue)
            || (a.Move? && s.calls[a.t].Notify? && d !in s.db.queue
                && s'.db.queue[d].event == ReceivedEvent(s.calls[a.t].c, s.calls[a.t].hit, s.calls[a.t].orderRef))
            || (a.Move? && s.calls[a.t].Announce? && d !in s.db.queue && s'.db.queue[d].event.user == None
                && s'.db.queue[d].event.slate == s.calls[a.t].f.slate && s'.db.queue[d].event.kind == PaymentReceived)
  {
  }

  lemma EventsKeepCredits(cfg: Config, s: Sys, a: Action, s': Sys, d: EventId)
    requires Holds(cfg, s) && ToldExactly(cfg, s) && Credits(s) && Step(cfg, s, a, s') && d in s'.db.queue
    ensures NamesItsUser(s'.db, s'.db.queue[d].event)
  {
    if d in s.db.queue && s'.db.queue[d].event == s.db.queue[d].event {
      var e := s.db.queue[d].event;
      assert e.kind == PaymentReceived ==> Receives(s.db.queue[d], e.slate);
      EventKeepsUser(cfg, s, a, s', e);
    } else {
      NewEvent(cfg, s, a, s', d);
      if a.Move? {
        assert HandlerHolds(s.db, s.wallet, s.calls[a.t]);
        StatementCredits(cfg, s.db, s.wallet, s.calls[a.t], s'.db, s'.calls[a.t]);
      } else {
        TasksKeepUsers(cfg, s, a, s', s.poll.event.slate);
      }
    }
  }

  lemma PollKeepsCredits(cfg: Config, s: Sys, a: Action, s': Sys)
    requires Holds(cfg, s) && ToldExactly(cfg, s) && Credits(s) && Step(cfg, s, a, s') && s'.poll.Telling?
    ensures NamesItsUser(s'.db, s'.poll.event)
  {
    if s'.poll == s.poll {
      EventKeepsUser(cfg, s, a, s', s.poll.event);
    }
  }

  lemma {:induction false} ReachableCredits(cfg: Config, states: seq<Sys>, actions: seq<Action>, k: nat)
    requires ValidConfig(cfg) && Run(cfg, states, actions) && k < |states|
    ensures Credits(states[k])
  {
    if k > 0 {
      var s, a, s' := states[k - 1], actions[k - 1], states[k];
      ReachableCredits(cfg, states, actions, k - 1);
      ReachableHolds(cfg, states, actions, k - 1);
      ReachableTold(cfg, states, actions, k - 1);
      assert Step(cfg, s, a, s');
      forall d | d in s'.db.queue ensures NamesItsUser(s'.db, s'.db.queue[d].event) {
        EventsKeepCredits(cfg, s, a, s', d);
      }
      forall t | t in s'.calls ensures HandlerCredits(s'.db, s'.calls[t]) {
        HandlersKeepCredits(cfg, s, a, s', t);
      }
      if s'.poll.Telling? {
        PollKeepsCredits(cfg, s, a, s');
      }
    }
  }

  /** A receipt tells of a payment received before, with its amount and user, or of a
      slate issued here, with no user. */
  ghost predicate TellsWhatCame(actions: seq<Action>, k: nat, w: Wallet, e: Event) {
    || (e.slate in w.issued && e.user == None)
    || exists h :: 0 <= h < k && h < |actions| && actions[h].Receive?
         && actions[h].c.slate == e.slate && actions[h].c.amount == e.amount && actions[h].c.user == e.user
  }

  ghost predicate TellsWhatWasHeard(p: Past, w: Wallet, e: Event) {
    || (e.slate in w.issued && e.user == None)
    || exists c :: p.heard(c) && c.slate == e.slate && c.amount == e.amount && c.user == e.user
  }

  lemma NewReceiptTells(cfg: Config, p: Past, s: Sys, a: Action, s': Sys, d: EventId)
    requires HandlersHold(s) && AllThrough(p, s) && Step(cfg, s, a, s')
    requires s.poll.Telling? ==> s.poll.event.kind == PaymentConfirmed
    requires d in s'.db.queue && s'.db.queue[d].event.kind == PaymentReceived
    requires d in s.db.queue ==> s'.db.queue[d].event != s.db.queue[d].event
    ensures TellsWhatWasHeard(p, s.wallet, s'.db.queue[d].event)
  {
    NewEvent(cfg, s, a, s', d);
    if a.Move? {
      assert HandlerHolds(s.db, s.wallet, s.calls[a.t]) && HandlerFits(p, s.calls[a.t]);
    }
  }

  lemma HeardIsReceived(states: seq<Sys>, actions: seq<Action>, k: nat, w: Wallet, e: Event)
    requires TellsWhatWasHeard(PastAt(states, actions, k), w, e)
    ensures TellsWhatCame(actions, k, w, e)
  {
    if !(e.slate in w.issued && e.user == None) {
      var c :| PastAt(states, actions, k).heard(c) && c.slate == e.slate && c.amount == e.amount && c.user == e.user;
      assert Heard(actions, k, c);
    }
  }

  lemma StillTells(cfg: Config, s: Sys, a: Action, s': Sys, actions: seq<Action>, k: nat, e: Event)
    requires Step(cfg, s, a, s') && TellsWhatCame(actions, k, s.wallet, e)
    ensures TellsWhatCame(actions, k + 1, s'.wallet, e)
  {
  }

  /** Credit goes to the right user: whatever is queued names the user of its payment's
      row, and a receipt the user, and amount, of the payment that came in. */
  lemma {:induction false} CreditIsTrue(cfg: Config, states: seq<Sys>, actions: seq<Action>, k: nat, d: EventId)
    requires ValidConfig(cfg) && Run(cfg, states, actions) && k < |states| && d in states[k].db.queue
    ensures var db, e := states[k].db, states[k].db.queue[d].event;
            && e.slate in db.payments && db.payments[e.slate].user == e.user
            && (e.kind == PaymentReceived ==> TellsWhatCame(actions, k, states[k].wallet, e))
  {
    ReachableCredits(cfg, states, actions, k);
    assert NamesItsUser(states[k].db, states[k].db.queue[d].event);
    if k > 0 && states[k].db.queue[d].event.kind == PaymentReceived {
      assert Step(cfg, states[k - 1], actions[k - 1], states[k]);
      var e := states[k].db.queue[d].event;
      if d in states[k - 1].db.queue && states[k - 1].db.queue[d].event == e {
        CreditIsTrue(cfg, states, actions, k - 1, d);
      } else {
        ReachableHolds(cfg, states, actions, k - 1);
        ReachableThrough(cfg, states, actions, k - 1);
        NewReceiptTells(cfg, PastAt(states, actions, k - 1), states[k - 1], actions[k - 1], states[k], d);
        HeardIsReceived(states, actions, k - 1, states[k - 1].wallet, e);
      }
      StillTells(cfg, states[k - 1], actions[k - 1], states[k], actions, k - 1, e);
    }
  }
}
