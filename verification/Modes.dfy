/** Over whole runs at statement grain: an invoice is only ever paid through its own
    matching mode, or by the slate issued for it. */
module Modes {
  import opened Common
  import opened Tables
  import opened Interleaving
  import opened Safety
  import opened SafetyTasks
  import opened Runs
  import opened Resolution

  /** The received payment a handler works on. */
  function CallOf(h: Handler): Option<Call> {
    if h.Lookup? || h.Record? || h.Settle? || h.Announce? || h.Attach? || h.Done? then None else Some(h.c)
  }

  /** What is known of the past: which payments were received, and which invoices
      each of them has fitted at some moment. */
  datatype Past = Past(heard: Call -> bool, fitted: (Call, InvoiceId) -> bool)

  ghost predicate Through(p: Past, inv: Invoice, i: InvoiceId) {
    || inv.slate == inv.paidBy
    || exists c :: p.heard(c) && Some(c.slate) == inv.paidBy && p.fitted(c, i)
  }

  ghost predicate HandlerFits(p: Past, h: Handler) {
    && (CallOf(h).Some? ==> p.heard(CallOf(h).value))
    && (h.Check? || h.Flip? ==> p.fitted(h.c, h.id))
  }

  ghost predicate AllThrough(p: Past, s: Sys) {
    && (forall t :: t in s.calls ==> HandlerFits(p, s.calls[t]))
    && (forall i :: i in s.db.invoices && s.db.invoices[i].paidBy.Some? ==> Through(p, s.db.invoices[i], i))
  }

  /** The past grows: by a payment received, and by what fits now. */
  ghost predicate Grows(p: Past, s: Sys, a: Action, p': Past) {
    && (forall c :: p.heard(c) ==> p'.heard(c))
    && (a.Receive? ==> p'.heard(a.c))
    && (forall c, i :: p.fitted(c, i) ==> p'.fitted(c, i))
    && (forall c, i :: i in s.db.invoices && Fits(s.db.now, c, s.db.invoices[i]) ==> p'.fitted(c, i))
  }

  /** A query answers only what fits. */
  lemma AnswerFits(cfg: Config, db: Db, h: Handler, db': Db, h': Handler)
    requires HandlerStep(cfg, db, h, db', h') && h'.Check?
    ensures h'.id in db.invoices && Fits(db.now, h'.c, db.invoices[h'.id])
  {
    var qs := Questions(h.c);
    assert qs[0] == ByRecipient(h.c.recipient) && qs[|qs| - 1] == ByAmount(h.c.amount);
    assert h.c.memo.Some? ==> qs[1] == ByRef(h.c.memo.value);
    var q := if h.AskRecipient? then qs[0] else if h.AskRef? then qs[1] else qs[|qs| - 1];
    assert OldestHit(db, h.c.default, q, h'.id);
    QueryIsSuited(db, h.c.default, q);
  }

  lemma StatementKeepsFit(cfg: Config, p: Past, s: Sys, a: Action, p': Past, h: Handler, db': Db, h': Handler)
    requires HandlerFits(p, h) && HandlerStep(cfg, s.db, h, db', h') && Grows(p, s, a, p')
    ensures HandlerFits(p', h')
  {
    if h'.Check? {
      AnswerFits(cfg, s.db, h, db', h');
    }
  }

  lemma ThroughStays(p: Past, s: Sys, a: Action, p': Past, inv: Invoice, inv': Invoice, i: InvoiceId)
    requires Through(p, inv, i) && Grows(p, s, a, p')
    requires inv'.paidBy == inv.paidBy && inv.paidBy.Some? && (inv.slate.Some? ==> inv'.slate == inv.slate)
    ensures Through(p', inv', i)
  {
    if inv.slate != inv.paidBy {
      var c :| p.heard(c) && Some(c.slate) == inv.paidBy && p.fitted(c, i);
      assert p'.heard(c) && p'.fitted(c, i);
    }
  }

  /** Only two statements write a payer. */
  lemma PayerIsWritten(cfg: Config, db: Db, w: Wallet, h: Handler, db': Db, h': Handler, i: InvoiceId)
    requires HandlerHolds(db, w, h) && HandlerStep(cfg, db, h, db', h')
    requires i in db'.invoices && db'.invoices[i].paidBy.Some? && (i in db.invoices ==> db.invoices[i].paidBy != db'.invoices[i].paidBy)
    ensures || (h.Flip? && h.id == i && db'.invoices[i].paidBy == Some(h.c.slate))
            || (h.Settle? && h.id == i && db'.invoices[i].paidBy == db'.invoices[i].slate)
  {
  }

  lemma CallsKeepFit(cfg: Config, p: Past, s: Sys, a: Action, s': Sys, p': Past)
    requires Step(cfg, s, a, s') && AllThrough(p, s) && Grows(p, s, a, p')
    ensures forall t :: t in s'.calls ==> HandlerFits(p', s'.calls[t])
  {
    forall t | t in s'.calls ensures HandlerFits(p', s'.calls[t]) {
      if a.Move? && a.t == t {
        StatementKeepsFit(cfg, p, s, a, p', s.calls[t], s'.db, s'.calls[t]);
      } else if t in s.calls {
        assert HandlerFits(p, s.calls[t]);
      }
    }
  }

  lemma OnlyHandlersPay(cfg: Config, s: Sys, a: Action, s': Sys, i: InvoiceId)
    requires Step(cfg, s, a, s') && !a.Move? && i in s'.db.invoices && s'.db.invoices[i].paidBy.Some?
    ensures i in s.db.invoices && s.db.invoices[i].paidBy == s'.db.invoices[i].paidBy
  {
  }

  lemma PayerCameThrough(cfg: Config, p: Past, s: Sys, a: Action, s': Sys, p': Past, i: InvoiceId)
    requires HandlersHold(s) && Step(cfg, s, a, s') && AllThrough(p, s) && Grows(p, s, a, p') && Evolves(s.db, s'.db)
    requires i in s'.db.invoices && s'.db.invoices[i].paidBy.Some?
    ensures Through(p', s'.db.invoices[i], i)
  {
    if i in s.db.invoices && s.db.invoices[i].paidBy == s'.db.invoices[i].paidBy {
      ThroughStays(p, s, a, p', s.db.invoices[i], s'.db.invoices[i], i);
    } else {
      if !a.Move? {
        OnlyHandlersPay(cfg, s, a, s', i);
      }
      var h := s.calls[a.t];
      PayerIsWritten(cfg, s.db, s.wallet, h, s'.db, s'.calls[a.t], i);
      if h.Flip? {
        assert HandlerFits(p, h) && p'.heard(h.c);
      }
    }
  }

  // ----------------------------------------------------------------- whole runs

  ghost predicate Heard(actions: seq<Action>, k: nat, c: Call) {
    exists h :: 0 <= h < k && h < |actions| && actions[h].Receive? && actions[h].c == c
  }

  ghost predicate Fitted(states: seq<Sys>, k: nat, c: Call, i: InvoiceId) {
    exists j :: 0 <= j < k && j < |states| && i in states[j].db.invoices && Fits(states[j].db.now, c, states[j].db.invoices[i])
  }

  ghost function PastAt(states: seq<Sys>, actions: seq<Action>, k: nat): Past {
    Past(c => Heard(actions, k, c), (c, i) => Fitted(states, k, c, i))
  }

  lemma PastGrows(states: seq<Sys>, actions: seq<Action>, k: nat)
    requires k < |actions| <= |states|
    ensures Grows(PastAt(states, actions, k), states[k], actions[k], PastAt(states, actions, k + 1))
  {
  }

  lemma StepKeepsThrough(cfg: Config, p: Past, s: Sys, a: Action, s': Sys, p': Past)
    requires HandlersHold(s) && Step(cfg, s, a, s') && AllThrough(p, s) && Grows(p, s, a, p') && Evolves(s.db, s'.db)
    ensures AllThrough(p', s')
  {
    CallsKeepFit(cfg, p, s, a, s', p');
    forall i | i in s'.db.invoices && s'.db.invoices[i].paidBy.Some? ensures Through(p', s'.db.invoices[i], i) {
      PayerCameThrough(cfg, p, s, a, s', p', i);
    }
  }

  lemma ThroughAt(cfg: Config, states: seq<Sys>, actions: seq<Action>, k: nat)
    requires ValidConfig(cfg) && Run(cfg, states, actions) && k < |actions|
    requires AllThrough(PastAt(states, actions, k), states[k])
    ensures AllThrough(PastAt(states, actions, k + 1), states[k + 1])
  {
    ReachableHolds(cfg, states, actions, k);
    EvolvesAt(cfg, states, actions, k);
    PastGrows(states, actions, k);
    assert Step(cfg, states[k], actions[k], states[k + 1]);
    StepKeepsThrough(cfg, PastAt(states, actions, k), states[k], actions[k], states[k + 1], PastAt(states, actions, k + 1));
  }

  lemma InitThrough(p: Past, s: Sys)
    requires Init(s)
    ensures AllThrough(p, s)
  {
  }

  lemma {:induction false} ReachableThrough(cfg: Config, states: seq<Sys>, actions: seq<Action>, k: nat)
    requires ValidConfig(cfg) && Run(cfg, states, actions) && k < |states|
    ensures AllThrough(PastAt(states, actions, k), states[k])
  {
    if k == 0 {
      InitThrough(PastAt(states, actions, 0), states[0]);
    } else {
      ReachableThrough(cfg, states, actions, k - 1);
      ThroughAt(cfg, states, actions, k - 1);
    }
  }

  /** Whoever paid an invoice was issued for it, or was received before and fitted the
      invoice, open as it was, by the invoice's own mode at an earlier moment. */
  lemma PaidThroughItsOwnMode(cfg: Config, states: seq<Sys>, actions: seq<Action>, k: nat, i: InvoiceId)
    returns (h: nat, j: nat)
    requires ValidConfig(cfg) && Run(cfg, states, actions) && k < |states|
    requires i in states[k].db.invoices && states[k].db.invoices[i].paidBy.Some?
    requires states[k].db.invoices[i].slate != states[k].db.invoices[i].paidBy
    ensures h < k && actions[h].Receive? && Some(actions[h].c.slate) == states[k].db.invoices[i].paidBy
    ensures j < k && i in states[j].db.invoices && states[j].db.invoices[i].status == Open
    ensures var c, inv := actions[h].c, states[j].db.invoices[i];
            match (match inv.mode case None => c.default case Some(mode) => mode)
            case Derived => inv.recipient == c.recipient
            case Memo => c.memo.Some? && inv.orderRef == c.memo
            case Amount => inv.expected == Some(AsI64(c.amount)) && (inv.expiry.Some? ==> states[j].db.now < inv.expiry.value)
  {
    ReachableThrough(cfg, states, actions, k);
    var p := PastAt(states, actions, k);
    assert Through(p, states[k].db.invoices[i], i);
    var c :| p.heard(c) && Some(c.slate) == states[k].db.invoices[i].paidBy && p.fitted(c, i);
    assert Heard(actions, k, c) && Fitted(states, k, c, i);
    h :| 0 <= h < k && h < |actions| && actions[h].Receive? && actions[h].c == c;
    j :| 0 <= j < k && j < |states| && i in states[j].db.invoices && Fits(states[j].db.now, c, states[j].db.invoices[i]);
    FitsByItsOwnMode(states[j].db.now, c, states[j].db.invoices[i]);
  }
}
