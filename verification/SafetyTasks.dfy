/** The invariant across the background tasks and the environment's steps. */
module SafetyTasks {
  import opened Common
  import opened Tables
  import opened Interleaving
  import opened Safety
  import opened SafetyProofs

  /** All handlers, across a step that no handler takes. */
  lemma CallsStable(s: Sys, s': Sys)
    requires HandlersHold(s) && s'.calls == s.calls
    requires Evolves(s.db, s'.db) && LeavesAlone(s.db, s'.db, None) && SlatesKept(s.db, s'.db)
    requires s.wallet.received <= s'.wallet.received && s.wallet.issued <= s'.wallet.issued
    requires s'.wallet.live * s.wallet.issued <= s.wallet.live
    ensures HandlersHold(s')
  {
    forall t | t in s'.calls ensures HandlerHolds(s'.db, s'.wallet, s'.calls[t]) {
      HandlerStable(s.db, s'.db, s.wallet, s'.wallet, s.calls[t], None);
    }
  }

  lemma PayersStable(s: Sys, s': Sys)
    requires PayersLinkBack(s)
    requires Evolves(s.db, s'.db) && LeavesAlone(s.db, s'.db, None)
    requires forall t :: t in s.calls ==> t in s'.calls && s'.calls[t] == s.calls[t]
    ensures PayersLinkBack(s')
  {
    forall i | i in s'.db.invoices && s'.db.invoices[i].paidBy.Some?
      ensures PayerLinks(s'.db, s'.calls, i)
    {
      var x := s'.db.invoices[i].paidBy.value;
      assert PayerLinks(s.db, s.calls, i);
      if s.db.payments[x].invoice != Some(i) {
        var t :| t in s.calls && LinkPending(s.calls[t], x, i);
        assert LinkPending(s'.calls[t], x, i);
      }
    }
  }

  lemma DepthsStable(cfg: Config, a: Db, b: Db)
    requires ConfirmedIsDeep(cfg, a)
    requires forall i :: i in b.invoices && b.invoices[i].status == Confirmed ==>
               i in a.invoices && a.invoices[i].status == Confirmed
    requires forall x, i :: Deep(cfg, a, x, i) ==> Deep(cfg, b, x, i)
    ensures ConfirmedIsDeep(cfg, b)
  {
    forall i | i in b.invoices && b.invoices[i].status == Confirmed
      ensures exists y :: Deep(cfg, b, y, i)
    {
      var y :| Deep(cfg, a, y, i);
      assert Deep(cfg, b, y, i);
    }
  }

  // ---------------------------------------------------------------- the poll

  /** A poll step holds once its tables, its work list and its debts do. */
  lemma PollAssembles(cfg: Config, s: Sys, s': Sys)
    requires Holds(cfg, s) && s' == s.(db := s'.db, poll := s'.poll)
    requires Evolves(s.db, s'.db) && LeavesAlone(s.db, s'.db, None) && SlatesKept(s.db, s'.db)
    requires DbHolds(cfg, s'.db) && PollHolds(cfg, s'.db, s'.poll) && ConfirmationsTold(cfg, s'.db, s'.poll)
    ensures Holds(cfg, s')
  {
    CallsStable(s, s');
    PayersStable(s, s');
  }

  lemma DepthKeepsTables(cfg: Config, db: Db, x: SlateId, n: i64)
    requires DbHolds(cfg, db)
    requires x in db.payments ==> db.payments[x].confirmations < cfg.required
    ensures var b := RecordDepth(db, x, n);
            DbHolds(cfg, b) && Evolves(db, b) && LeavesAlone(db, b, None) && SlatesKept(db, b)
  {
    var b := RecordDepth(db, x, n);
    assert Evolves(db, b) && LeavesAlone(db, b, None);
    DepthsStable(cfg, db, b);
    forall e | e in b.queue ensures EventHolds(cfg, b, b.queue[e].event) {
      assert EventHolds(cfg, db, db.queue[e].event);
    }
  }

  lemma RecordingKeepsWork(cfg: Config, db: Db, p: Poll, db': Db, p': Poll)
    requires PollHolds(cfg, db, p) && p.Recording? && PollStep(cfg, db, p, db', p')
    requires ConfirmationsTold(cfg, db, p)
    ensures PollHolds(cfg, db', p') && ConfirmationsTold(cfg, db', p')
  {
    assert WorkHolds(cfg, db', p.work);
  }

  lemma RecordingKeeps(cfg: Config, s: Sys, s': Sys)
    requires Holds(cfg, s) && Step(cfg, s, PollMoves, s') && s.poll.Recording?
    ensures Holds(cfg, s') && Evolves(s.db, s'.db)
  {
    DepthKeepsTables(cfg, s.db, s.poll.item.slate, AsI64(s.poll.depth));
    RecordingKeepsWork(cfg, s.db, s.poll, s'.db, s'.poll);
    PollAssembles(cfg, s, s');
  }

  lemma ConfirmEvolves(cfg: Config, db: Db, id: InvoiceId)
    ensures var b := MarkConfirmed(db, id); Evolves(db, b) && LeavesAlone(db, b, None) && SlatesKept(db, b)
  {
  }

  lemma ConfirmKeepsEvents(cfg: Config, db: Db, id: InvoiceId)
    requires EventsHold(cfg, db)
    ensures EventsHold(cfg, MarkConfirmed(db, id))
  {
    var b := MarkConfirmed(db, id);
    forall e | e in b.queue ensures EventHolds(cfg, b, b.queue[e].event) {
      assert EventHolds(cfg, db, db.queue[e].event);
    }
  }

  lemma ConfirmKeepsTables(cfg: Config, db: Db, x: SlateId, id: InvoiceId)
    requires DbHolds(cfg, db) && Deep(cfg, db, x, id)
    ensures DbHolds(cfg, MarkConfirmed(db, id))
  {
    var b := MarkConfirmed(db, id);
    ConfirmEvolves(cfg, db, id);
    forall i | i in b.invoices && b.invoices[i].status == Confirmed
      ensures exists y :: Deep(cfg, b, y, i)
    {
      if i == id {
        assert Deep(cfg, b, x, i);
      } else {
        var y :| Deep(cfg, db, y, i);
        assert Deep(cfg, b, y, i);
      }
    }
    ConfirmKeepsEvents(cfg, db, id);
  }

  /** Before the transition no event can have announced the invoice; after it,
      the poll owes exactly one. */
  lemma ConfirmingTells(cfg: Config, db: Db, p: Poll, db': Db, p': Poll)
    requires EventsHold(cfg, db) && ConfirmationsTold(cfg, db, p)
    requires p.Confirming? && PollStep(cfg, db, p, db', p')
    ensures ConfirmationsTold(cfg, db', p')
  {
    var id := p.invoice;
    if IsPaid(db, id) {
      forall d | d in db.queue ensures !Confirms(db.queue[d], id) {
        assert EventHolds(cfg, db, db.queue[d].event);
      }
    }
    forall i | cfg.webhook && i in db'.invoices && db'.invoices[i].status == Confirmed && Untold(p') != Some(i)
      ensures exists d :: d in db'.queue && Confirms(db'.queue[d], i)
    {
      assert i in db.invoices && db.invoices[i].status == Confirmed && Untold(p) != Some(i);
      var d :| d in db.queue && Confirms(db.queue[d], i);
      assert Confirms(db'.queue[d], i);
    }
  }

  lemma ConfirmingKeeps(cfg: Config, s: Sys, s': Sys)
    requires Holds(cfg, s) && Step(cfg, s, PollMoves, s') && s.poll.Confirming?
    ensures Holds(cfg, s') && Evolves(s.db, s'.db)
  {
    ConfirmEvolves(cfg, s.db, s.poll.invoice);
    ConfirmKeepsTables(cfg, s.db, s.poll.slate, s.poll.invoice);
    ConfirmingTells(cfg, s.db, s.poll, s'.db, s'.poll);
    assert WorkHolds(cfg, s'.db, s.poll.work);
    PollAssembles(cfg, s, s');
  }

  /** Queueing the announcement that was owed. */
  lemma TellingKeepsQueue(cfg: Config, db: Db, p: Poll, db': Db, p': Poll)
    requires DbHolds(cfg, db) && PollHolds(cfg, db, p) && ConfirmationsTold(cfg, db, p)
    requires p.Telling? && PollStep(cfg, db, p, db', p')
    ensures EventsHold(cfg, db') && ConfirmationsTold(cfg, db', p')
    ensures Evolves(db, db')
  {
    var e :| e !in db.queue && db' == Enqueue(db, e, p.event);
    assert Confirms(db'.queue[e], p.invoice);
    forall d | d in db'.queue ensures EventHolds(cfg, db', db'.queue[d].event) {
      assert d != e ==> EventHolds(cfg, db, db.queue[d].event);
    }
    forall c, d, i | c in db'.queue && d in db'.queue && Confirms(db'.queue[c], i) && Confirms(db'.queue[d], i)
      ensures c == d
    {
      assert c != e ==> Confirms(db.queue[c], i);
      assert d != e ==> Confirms(db.queue[d], i);
    }
    forall i | cfg.webhook && i in db'.invoices && db'.invoices[i].status == Confirmed
      ensures exists d :: d in db'.queue && Confirms(db'.queue[d], i)
    {
      if i != p.invoice {
        var d :| d in db.queue && Confirms(db.queue[d], i);
        assert Confirms(db'.queue[d], i);
      }
    }
  }

  lemma TellingKeepsRows(cfg: Config, db: Db, p: Poll, db': Db, p': Poll)
    requires DbHolds(cfg, db) && PollHolds(cfg, db, p)
    requires p.Telling? && PollStep(cfg, db, p, db', p')
    ensures AmountsBind(db') && PayersRecorded(db') && ConfirmedIsDeep(cfg, db') && PollHolds(cfg, db', p')
    ensures LeavesAlone(db, db', None) && SlatesKept(db, db')
  {
    assert Evolves(db, db');
    DepthsStable(cfg, db, db');
    assert WorkHolds(cfg, db', p.work);
  }

  lemma TellingKeeps(cfg: Config, s: Sys, s': Sys)
    requires Holds(cfg, s) && Step(cfg, s, PollMoves, s') && s.poll.Telling?
    ensures Holds(cfg, s') && Evolves(s.db, s'.db)
  {
    TellingKeepsQueue(cfg, s.db, s.poll, s'.db, s'.poll);
    TellingKeepsRows(cfg, s.db, s.poll, s'.db, s'.poll);
    PollAssembles(cfg, s, s');
  }

  lemma PollReadKeepsWork(cfg: Config, db: Db, p: Poll, p': Poll)
    requires PollHolds(cfg, db, p) && PollStep(cfg, db, p, db, p')
    requires p.Resting? || p.Working? || p.Loading?
    ensures PollHolds(cfg, db, p')
    ensures Untold(p') == Untold(p)
  {
    match p
    case Resting =>
    case Working(work) => assert work != [] ==> WorkHolds(cfg, db, work[1..]);
    case Loading(x, i, work) =>
  }

  /** Resting, Working and Loading only read. */
  lemma PollReadKeeps(cfg: Config, s: Sys, s': Sys)
    requires Holds(cfg, s) && Step(cfg, s, PollMoves, s')
    requires s.poll.Resting? || s.poll.Working? || s.poll.Loading?
    ensures Holds(cfg, s') && Evolves(s.db, s'.db)
  {
    PollReadKeepsWork(cfg, s.db, s.poll, s'.poll);
    PollAssembles(cfg, s, s');
  }

  lemma PollKeeps(cfg: Config, s: Sys, s': Sys)
    requires Holds(cfg, s) && Step(cfg, s, PollMoves, s')
    ensures Holds(cfg, s') && Evolves(s.db, s'.db)
  {
    match s.poll
    case Recording(_, _, _) => RecordingKeeps(cfg, s, s');
    case Confirming(_, _, _) => ConfirmingKeeps(cfg, s, s');
    case Telling(_, _, _, _) => TellingKeeps(cfg, s, s');
    case _ => PollReadKeeps(cfg, s, s');
  }

  // ----------------------------------------------------- steps of other actors

  /** Steps that write no payment row on anyone's behalf, move neither poll nor
      sweep, and start at most one handler. */
  lemma EnvironmentAssembles(cfg: Config, s: Sys, s': Sys)
    requires Holds(cfg, s)
    requires s'.poll == s.poll && s'.sweep == s.sweep
    requires Gentle(cfg, s.db, s'.db, None) && PayersRecorded(s'.db)
    requires s'.wallet.live * s.wallet.issued <= s.wallet.live
    requires forall t :: t in s.calls ==> t in s'.calls && s'.calls[t] == s.calls[t]
    requires HandlersHold(s') && WalletHolds(s')
    ensures Holds(cfg, s')
  {
    BystandersHold(cfg, s, s', None);
    PayersStable(s, s');
  }

  /** Statements that at most expire open rows. */
  ghost predicate OnlyExpires(a: Db, b: Db) {
    && b == a.(invoices := b.invoices)
    && b.invoices.Keys == a.invoices.Keys
    && forall i :: i in a.invoices ==>
         b.invoices[i] == a.invoices[i] || (a.invoices[i].status == Open && b.invoices[i] == a.invoices[i].(status := Expired))
  }

  lemma OnlyExpiresGentle(cfg: Config, a: Db, b: Db)
    requires OnlyExpires(a, b)
    ensures Gentle(cfg, a, b, None) && SlatesKept(a, b)
  {
  }

  lemma OnlyExpiresPayers(a: Db, b: Db)
    requires OnlyExpires(a, b) && PayersRecorded(a)
    ensures PayersRecorded(b)
  {
  }

  lemma CreateGentle(cfg: Config, db: Db, id: InvoiceId, inv: Invoice)
    requires AmountsBind(db) && PayersRecorded(db) && FreshInvoice(db, id, inv)
    ensures var b := InsertInvoice(db, id, inv);
            Gentle(cfg, db, b, None) && PayersRecorded(b) && SlatesKept(db, b)
  {
  }

  /** Statements that touch neither an invoice nor a link, an amount, a depth or
      an event body. */
  ghost predicate OnlyBookkeeping(a: Db, b: Db) {
    && a.now <= b.now && b.invoices == a.invoices
    && b.payments.Keys == a.payments.Keys && b.queue.Keys == a.queue.Keys
    && (forall x :: x in a.payments ==>
         && b.payments[x].invoice == a.payments[x].invoice && b.payments[x].amount == a.payments[x].amount
         && b.payments[x].confirmations == a.payments[x].confirmations)
    && (forall e :: e in a.queue ==> b.queue[e].event == a.queue[e].event)
  }

  lemma OnlyBookkeepingGentle(cfg: Config, a: Db, b: Db)
    requires OnlyBookkeeping(a, b)
    ensures Gentle(cfg, a, b, None) && SlatesKept(a, b)
  {
  }

  predicate Quiet(a: Action) {
    a.Tick? || a.Create? || a.ReadInvoice? || a.ListInvoices? || a.Reply? || a.Attempt? || a.LoseContext?
  }

  /** Ticks, creation, reads and listings, replies and delivery attempts. */
  lemma QuietGentle(cfg: Config, s: Sys, a: Action, s': Sys)
    requires AmountsBind(s.db) && PayersRecorded(s.db) && Step(cfg, s, a, s') && Quiet(a)
    ensures Gentle(cfg, s.db, s'.db, None) && PayersRecorded(s'.db) && SlatesKept(s.db, s'.db)
    ensures s'.db.payments.Keys == s.db.payments.Keys
  {
    if a.Create? {
      CreateGentle(cfg, s.db, a.id, a.inv);
    } else if a.ReadInvoice? || a.ListInvoices? {
      OnlyExpiresGentle(cfg, s.db, s'.db);
      OnlyExpiresPayers(s.db, s'.db);
    } else {
      OnlyBookkeepingGentle(cfg, s.db, s'.db);
    }
  }

  lemma QuietKeeps(cfg: Config, s: Sys, a: Action, s': Sys)
    requires Holds(cfg, s) && Step(cfg, s, a, s') && Quiet(a)
    ensures Holds(cfg, s') && Evolves(s.db, s'.db)
  {
    QuietGentle(cfg, s, a, s');
    CallsStable(s, s');
    PayersStable(s, s');
    EnvironmentAssembles(cfg, s, s');
  }

  /** A new handler starts beside the others. */
  ghost predicate Spawns(s: Sys, t: nat, h: Handler, s': Sys) {
    && t !in s.calls
    && s' == s.(calls := s.calls[t := h], wallet := s'.wallet)
    && HandlerHolds(s'.db, s'.wallet, h)
    && (Owned(h).Some? ==> forall u :: u in s.calls ==> Owned(s.calls[u]) != Owned(h))
    && (h.Attach? ==> forall u :: u in s.calls && s.calls[u].Attach? ==> s.calls[u].id != h.id && s.calls[u].slate != h.slate)
    && s.wallet.received <= s'.wallet.received && s.wallet.issued <= s'.wallet.issued
    && s'.wallet.live * s.wallet.issued <= s.wallet.live && s'.wallet.live <= s'.wallet.issued
    && s'.wallet.received !! s'.wallet.issued && s'.wallet.live !! s.db.payments.Keys
  }

  lemma SpawnKeepsCalls(s: Sys, t: nat, h: Handler, s': Sys)
    requires HandlersHold(s) && Spawns(s, t, h, s')
    ensures HandlersHold(s')
  {
    forall u | u in s'.calls ensures HandlerHolds(s'.db, s'.wallet, s'.calls[u]) {
      if u != t {
        HandlerStable(s.db, s'.db, s.wallet, s'.wallet, s.calls[u], None);
      }
    }
  }

  lemma SpawnKeeps(cfg: Config, s: Sys, t: nat, h: Handler, s': Sys)
    requires Holds(cfg, s) && Spawns(s, t, h, s')
    ensures Holds(cfg, s')
  {
    ReadGentle(cfg, s.db, None);
    SpawnKeepsCalls(s, t, h, s');
    EnvironmentAssembles(cfg, s, s');
  }

  lemma StartSpawns(cfg: Config, s: Sys, a: Action, s': Sys)
    requires HandlersHold(s) && WalletHolds(s) && Step(cfg, s, a, s')
    requires a.Issue? || a.Receive? || a.Finalize?
    ensures Spawns(s, a.t, s'.calls[a.t], s')
  {
    forall u | u in s.calls && Owned(s.calls[u]).Some?
      ensures Owned(s.calls[u]).value in s.wallet.received + (s.wallet.issued - s.wallet.live)
    {
    }
    forall u | u in s.calls && s.calls[u].Attach? ensures s.calls[u].slate in s.wallet.issued {
      assert HandlerHolds(s.db, s.wallet, s.calls[u]);
    }
  }

  lemma StartKeeps(cfg: Config, s: Sys, a: Action, s': Sys)
    requires Holds(cfg, s) && Step(cfg, s, a, s')
    requires a.Issue? || a.Receive? || a.Finalize?
    ensures Holds(cfg, s') && Evolves(s.db, s'.db)
  {
    StartSpawns(cfg, s, a, s');
    SpawnKeeps(cfg, s, a.t, s'.calls[a.t], s');
  }

  // --------------------------------------------------------------- the sweep

  lemma SweepAdvances(db: Db, w: Wallet, p: Sweep, db': Db, w': Wallet, p': Sweep)
    requires SweepHolds(db, w, p) && SweepStep(db, w, p, db', w', p')
    ensures SweepHolds(db', w', p')
  {
  }

  lemma SweepTaskKeeps(cfg: Config, s: Sys, s': Sys)
    requires Holds(cfg, s) && Step(cfg, s, SweepMoves, s')
    ensures Holds(cfg, s') && Evolves(s.db, s'.db)
  {
    assert OnlyExpires(s.db, s'.db);
    OnlyExpiresGentle(cfg, s.db, s'.db);
    OnlyExpiresPayers(s.db, s'.db);
    CallsStable(s, s');
    PayersStable(s, s');
    BystandersHold(cfg, s, s'.(sweep := s.sweep), None);
    SweepAdvances(s.db, s.wallet, s.sweep, s'.db, s'.wallet, s'.sweep);
  }

  // ----------------------------------------------------------------- arming

  lemma AttachGentle(cfg: Config, db: Db, id: InvoiceId, x: SlateId)
    requires AmountsBind(db) && PayersRecorded(db)
    requires id in db.invoices && db.invoices[id].slate == None
    requires forall i :: i in db.invoices ==> db.invoices[i].slate != Some(x)
    ensures Gentle(cfg, db, AttachGrin1(db, id, x), None) && PayersRecorded(AttachGrin1(db, id, x))
  {
    var b := AttachGrin1(db, id, x);
    assert Evolves(db, b) && b.payments == db.payments && b.queue == db.queue;
  }

  lemma HandlerAfterAttach(db: Db, w: Wallet, h: Handler, id: InvoiceId, x: SlateId)
    requires HandlerHolds(db, w, h) && id in db.invoices && db.invoices[id].slate == None
    requires h.Attach? ==> h.id != id && h.slate != x
    ensures HandlerHolds(AttachGrin1(db, id, x), w, h)
  {
  }

  lemma CallsAfterAttach(s: Sys, t: nat, id: InvoiceId, x: SlateId)
    requires HandlersHold(s) && t in s.calls && s.calls[t] == Attach(id, x) && HandlerHolds(s.db, s.wallet, s.calls[t])
    ensures HandlersHold(s.(db := AttachGrin1(s.db, id, x), calls := s.calls[t := Done]))
  {
    forall u | u in s.calls && u != t ensures HandlerHolds(AttachGrin1(s.db, id, x), s.wallet, s.calls[u]) {
      assert HandlerHolds(s.db, s.wallet, s.calls[u]);
      HandlerAfterAttach(s.db, s.wallet, s.calls[u], id, x);
    }
  }

  lemma AttachKeepsCalls(cfg: Config, s: Sys, t: nat, s': Sys)
    requires HandlersHold(s) && Step(cfg, s, Move(t), s') && s.calls[t].Attach?
    ensures HandlersHold(s')
  {
    assert HandlerHolds(s.db, s.wallet, s.calls[t]);
    CallsAfterAttach(s, t, s.calls[t].id, s.calls[t].slate);
  }

  lemma WalletAfterAttach(s: Sys, s': Sys, id: InvoiceId, x: SlateId)
    requires WalletHolds(s) && x in s.wallet.issued
    requires s'.db == AttachGrin1(s.db, id, x) && s'.wallet == s.wallet
    ensures WalletHolds(s')
  {
  }

  lemma PayersAfterAttach(s: Sys, t: nat, s': Sys)
    requires PayersLinkBack(s)
    requires t in s.calls && s.calls[t].Attach? && s'.calls == s.calls[t := Done]
    requires Evolves(s.db, s'.db) && LeavesAlone(s.db, s'.db, None)
    ensures PayersLinkBack(s')
  {
    forall i | i in s'.db.invoices && s'.db.invoices[i].paidBy.Some?
      ensures PayerLinks(s'.db, s'.calls, i)
    {
      var x := s'.db.invoices[i].paidBy.value;
      assert PayerLinks(s.db, s.calls, i);
      if s.db.payments[x].invoice != Some(i) {
        var u :| u in s.calls && LinkPending(s.calls[u], x, i);
        assert LinkPending(s'.calls[u], x, i);
      }
    }
  }

  lemma AttachKeeps(cfg: Config, s: Sys, t: nat, s': Sys)
    requires Holds(cfg, s) && Step(cfg, s, Move(t), s') && s.calls[t].Attach?
    ensures Holds(cfg, s') && Evolves(s.db, s'.db)
  {
    var h := s.calls[t];
    assert HandlerHolds(s.db, s.wallet, h);
    AttachGentle(cfg, s.db, h.id, h.slate);
    AttachKeepsCalls(cfg, s, t, s');
    PayersAfterAttach(s, t, s');
    WalletAfterAttach(s, s', h.id, h.slate);
    BystandersHold(cfg, s, s', None);
  }

  // ------------------------------------------------------------- every step

  lemma InitHolds(cfg: Config, s: Sys)
    requires Init(s)
    ensures Holds(cfg, s)
  {
  }

  lemma StepKeeps(cfg: Config, s: Sys, a: Action, s': Sys)
    requires Holds(cfg, s) && ValidConfig(cfg) && Step(cfg, s, a, s')
    ensures Holds(cfg, s') && Evolves(s.db, s'.db)
  {
    if a.Move? {
      if s.calls[a.t].Attach? {
        AttachKeeps(cfg, s, a.t, s');
      } else {
        MoveKeeps(cfg, s, a.t, s');
      }
    } else if a.PollMoves? {
      PollKeeps(cfg, s, s');
    } else if a.SweepMoves? {
      SweepTaskKeeps(cfg, s, s');
    } else if a.Issue? || a.Receive? || a.Finalize? {
      StartKeeps(cfg, s, a, s');
    } else {
      QuietKeeps(cfg, s, a, s');
    }
  }
}
