/** Concrete runs in which the conditional promises fail: a deep reading wasted on a
    stale list entry, two payments announced for one invoice, and a confirmation queued
    before its receipt. Each is a run of the statement-grain system, step by step, so
    that the conditions stated elsewhere are seen to be needed. */
module Counterexamples {
  import opened Common
  import opened Tables
  import opened Interleaving
  import opened Safety
  import opened Told
  import opened Races
  import opened Readings
  import opened Order
  import opened Stranding

  const SHOP := Config(1, false)
  const HOOKED := Config(1, true)
  const EMPTY := Sys(Db(0, map[], map[], map[]), Wallet({}, {}, {}), map[], Resting, Idle)

  /** A derived-identity invoice that accepts any amount on identity "r", and what
      becomes of it when the first payer wins. */
  const INVOICE := Invoice(0, 0, None, None, None, Some(Derived), "r", Open, None, None)
  const OPEN: map<InvoiceId, Invoice> := map["i" := INVOICE]
  const PAID: map<InvoiceId, Invoice> := OPEN["i" := INVOICE.(status := Paid, paidBy := Some("x"))]
  const CONFIRMED: map<InvoiceId, Invoice> := PAID["i" := INVOICE.(status := Confirmed, paidBy := Some("x"))]

  const X := Call("x", 7, "k", "r", None, Derived, None)
  const Y := Call("y", 7, "k", "r", None, Derived, None)

  function Row(invoice: Option<InvoiceId>): Payment {
    Payment(7, Some("k"), invoice, None, 0, Received)
  }

  const X_IN: map<SlateId, Payment> := map["x" := Row(None)]
  const X_LINKED: map<SlateId, Payment> := X_IN["x" := Row(Some("i"))]
  const X_DEEP: map<SlateId, Payment> := X_LINKED["x" := Row(Some("i")).(confirmations := 1, status := OnChain)]

  function ShopTelling(
      invoices: map<InvoiceId, Invoice>, payments: map<SlateId, Payment>, received: set<SlateId>, calls: map<nat, Handler>, poll: Poll,
      queue: map<EventId, Delivery>): Sys
  {
    Sys(Db(0, invoices, payments, queue), Wallet(received, {}, {}), calls, poll, Idle)
  }

  /** The server with these rows, handlers and poll, and nothing queued. */
  function Shop(invoices: map<InvoiceId, Invoice>, payments: map<SlateId, Payment>, received: set<SlateId>, calls: map<nat, Handler>, poll: Poll): Sys {
    ShopTelling(invoices, payments, received, calls, poll, map[])
  }

  const X_KNOWN: set<SlateId> := {"x"}

  /** Both runs with one payer begin alike: the payment is received and recorded. */
  const S1 := Shop(OPEN, map[], {}, map[], Resting)
  const S2 := Shop(OPEN, map[], X_KNOWN, map[0 := Insert(X)], Resting)
  const S3 := Shop(OPEN, X_IN, X_KNOWN, map[0 := AskRecipient(X)], Resting)

  /** One handler moves, the others stay. */
  lemma MoveOf(cfg: Config, s: Sys, t: nat, s': Sys)
    requires t in s.calls && t in s'.calls && HandlerStep(cfg, s.db, s.calls[t], s'.db, s'.calls[t])
    requires s'.wallet == s.wallet && s'.poll == s.poll && s'.sweep == s.sweep
    requires s'.calls.Keys == s.calls.Keys && forall u :: u in s.calls && u != t ==> s'.calls[u] == s.calls[u]
    ensures Step(cfg, s, Move(t), s')
  {
    assert s'.calls == s.calls[t := s'.calls[t]];
  }

  lemma OnlyItemListed(cfg: Config, db: Db, item: WorkItem)
    requires cfg.required == 1 && item.slate in db.payments && db.payments.Keys == {item.slate}
    requires db.payments[item.slate].kernel == Some(item.kernel) && db.payments[item.slate].invoice == item.invoice
    requires db.payments[item.slate].confirmations == 0
    ensures WorkList(cfg, db, [item])
  {
    forall x | InWorkList(cfg, db, x) ensures exists k :: 0 <= k < |[item]| && [item][k].slate == x {
      assert [item][0].slate == x;
    }
  }

  // --------------------------------------------------- a stranded paid invoice

  const STALE := WorkItem("x", "k", None)

  /** Listed by the poll while still unlinked; linked; then recorded as deep from
      the stale list entry. */
  const S4 := Shop(OPEN, X_IN, X_KNOWN, map[0 := AskRecipient(X)], Working([STALE]))
  const S5 := Shop(OPEN, X_IN, X_KNOWN, map[0 := Check(X, "i")], Working([STALE]))
  const S6 := Shop(OPEN, X_IN, X_KNOWN, map[0 := Flip(X, "i")], Working([STALE]))
  const S7 := Shop(PAID, X_IN, X_KNOWN, map[0 := Link(X, Some("i"))], Working([STALE]))
  const S8 := Shop(PAID, X_LINKED, X_KNOWN, map[0 := Done], Working([STALE]))
  const S9 := Shop(PAID, X_LINKED, X_KNOWN, map[0 := Done], Recording(STALE, 1, []))
  const S10 := Shop(PAID, X_DEEP, X_KNOWN, map[0 := Done], Working([]))
  const S11 := Shop(PAID, X_DEEP, X_KNOWN, map[0 := Done], Resting)

  function StrandingAt(k: nat): Sys {
    match k
    case 0 => EMPTY
    case 1 => S1
    case 2 => S2
    case 3 => S3
    case 4 => S4
    case 5 => S5
    case 6 => S6
    case 7 => S7
    case 8 => S8
    case 9 => S9
    case 10 => S10
    case _ => S11
  }

  function StrandingActs(k: nat): Action {
    match k
    case 0 => Create("i", INVOICE)
    case 1 => Receive(0, X)
    case 2 => Move(0)
    case 3 => PollMoves
    case 4 => Move(0)
    case 5 => Move(0)
    case 6 => Move(0)
    case 7 => Move(0)
    case 8 => PollMoves
    case 9 => PollMoves
    case _ => PollMoves
  }

  const STRANDING: seq<Sys> := seq(12, k requires 0 <= k < 12 => StrandingAt(k))
  const STRANDING_ACTIONS: seq<Action> := seq(11, k requires 0 <= k < 11 => StrandingActs(k))

  lemma StrandingSteps1()
    ensures Step(SHOP, EMPTY, Create("i", INVOICE), S1)
    ensures Step(SHOP, S1, Receive(0, X), S2)
    ensures Step(SHOP, S2, Move(0), S3)
    ensures Step(SHOP, S3, PollMoves, S4)
  {
    MoveOf(SHOP, S2, 0, S3);
    OnlyItemListed(SHOP, S3.db, STALE);
  }

  lemma StrandingSteps2()
    ensures Step(SHOP, S4, Move(0), S5)
    ensures Step(SHOP, S5, Move(0), S6)
  {
    assert OldestHit(S4.db, Derived, ByRecipient("r"), "i");
    MoveOf(SHOP, S4, 0, S5);
    MoveOf(SHOP, S5, 0, S6);
  }

  lemma StrandingSteps3()
    ensures Step(SHOP, S6, Move(0), S7)
    ensures Step(SHOP, S7, Move(0), S8)
  {
    MoveOf(SHOP, S6, 0, S7);
    MoveOf(SHOP, S7, 0, S8);
  }

  lemma StrandingSteps4()
    ensures Step(SHOP, S8, PollMoves, S9)
    ensures Step(SHOP, S9, PollMoves, S10)
    ensures Step(SHOP, S10, PollMoves, S11)
  {
  }

  lemma StrandingSteps(k: nat)
    requires k < 11
    ensures Step(SHOP, StrandingAt(k), StrandingActs(k), StrandingAt(k + 1))
  {
    match k
    case 0 => StrandingSteps1();
    case 1 => StrandingSteps1();
    case 2 => StrandingSteps1();
    case 3 => StrandingSteps1();
    case 4 => StrandingSteps2();
    case 5 => StrandingSteps2();
    case 6 => StrandingSteps3();
    case 7 => StrandingSteps3();
    case 8 => StrandingSteps4();
    case 9 => StrandingSteps4();
    case 10 => StrandingSteps4();
  }

  lemma StrandingEnds()
    ensures Quiescent(S11) && S11.poll.Resting? && IsPaid(S11.db, "i") && S11.db.invoices["i"].paidBy == Some("x")
    ensures forall x :: LinkedTo(S11.db, x, "i") <==> x == "x"
    ensures Wasted(SHOP, S9, PollMoves, "x") && !QuietList(S3, PollMoves)
  {
    assert MidLink(S3.calls[0]);
  }

  /** A paid invoice can be stranded: everything is at rest, the invoice is paid,
      and no poll pass will ever list a payment of it again. The tenth step wasted
      the deep reading, from a list read while the handler was mid-link. */
  lemma AStaleListStrandsAPaidInvoice()
    ensures ValidConfig(SHOP) && Run(SHOP, STRANDING, STRANDING_ACTIONS)
    ensures Quiescent(S11) && S11.poll.Resting? && STRANDING[11] == S11
    ensures Stranded(SHOP, S11.db, "i") && S11.db.invoices["i"].paidBy == Some("x") && !InWorkList(SHOP, S11.db, "x")
    ensures Wasted(SHOP, STRANDING[9], STRANDING_ACTIONS[9], "x")
    ensures !QuietList(STRANDING[3], STRANDING_ACTIONS[3])
  {
    forall k {:trigger STRANDING_ACTIONS[k]} | 0 <= k < 11 ensures Step(SHOP, STRANDING[k], STRANDING_ACTIONS[k], STRANDING[k + 1]) {
      StrandingSteps(k);
    }
    assert STRANDING[3] == S3 && STRANDING[9] == S9 && STRANDING[11] == S11;
    StrandingEnds();
    LetGoIffAReadingWasWasted(SHOP, STRANDING, STRANDING_ACTIONS, 11, "i", "x");
  }

  // --------------------------------------------------------------- a lost race

  const XY_IN: map<SlateId, Payment> := X_IN["y" := Row(None)]
  const XY_HALF: map<SlateId, Payment> := XY_IN["x" := Row(Some("i"))]
  const XY_LINKED: map<SlateId, Payment> := XY_HALF["y" := Row(Some("i"))]
  const XY_KNOWN: set<SlateId> := X_KNOWN + {"y"}

  /** Both payers resolve the invoice while it is open; the first one flips it. */
  const ONE: map<EventId, Delivery> := map["d" := Delivery(ReceivedEvent(X, Some("i"), None), 0, false, 0)]
  const BOTH: map<EventId, Delivery> := ONE["e" := Delivery(ReceivedEvent(Y, Some("i"), None), 0, false, 0)]

  function Two(x: Handler, y: Handler): map<nat, Handler> {
    map[0 := x, 1 := y]
  }

  const T3 := Shop(OPEN, map[], XY_KNOWN, Two(Insert(X), Insert(Y)), Resting)
  const T4 := Shop(OPEN, X_IN, XY_KNOWN, Two(AskRecipient(X), Insert(Y)), Resting)
  const T5 := Shop(OPEN, XY_IN, XY_KNOWN, Two(AskRecipient(X), AskRecipient(Y)), Resting)
  const T6 := Shop(OPEN, XY_IN, XY_KNOWN, Two(Check(X, "i"), AskRecipient(Y)), Resting)
  const T7 := Shop(OPEN, XY_IN, XY_KNOWN, Two(Check(X, "i"), Check(Y, "i")), Resting)
  const T8 := Shop(OPEN, XY_IN, XY_KNOWN, Two(Flip(X, "i"), Check(Y, "i")), Resting)
  const T9 := Shop(OPEN, XY_IN, XY_KNOWN, Two(Flip(X, "i"), Flip(Y, "i")), Resting)
  const T10 := Shop(PAID, XY_IN, XY_KNOWN, Two(Link(X, Some("i")), Flip(Y, "i")), Resting)
  const T11 := Shop(PAID, XY_IN, XY_KNOWN, Two(Link(X, Some("i")), Link(Y, Some("i"))), Resting)
  const T12 := Shop(PAID, XY_HALF, XY_KNOWN, Two(Touch(X, "i"), Link(Y, Some("i"))), Resting)
  const T13 := Shop(PAID, XY_LINKED, XY_KNOWN, Two(Touch(X, "i"), Touch(Y, "i")), Resting)
  const T14 := Shop(PAID, XY_LINKED, XY_KNOWN, Two(ReadRef(X, "i"), Touch(Y, "i")), Resting)
  const T15 := Shop(PAID, XY_LINKED, XY_KNOWN, Two(Notify(X, Some("i"), None), Touch(Y, "i")), Resting)
  const T16 := ShopTelling(PAID, XY_LINKED, XY_KNOWN, Two(Done, Touch(Y, "i")), Resting, ONE)
  const T17 := ShopTelling(PAID, XY_LINKED, XY_KNOWN, Two(Done, ReadRef(Y, "i")), Resting, ONE)
  const T18 := ShopTelling(PAID, XY_LINKED, XY_KNOWN, Two(Done, Notify(Y, Some("i"), None)), Resting, ONE)
  const T19 := ShopTelling(PAID, XY_LINKED, XY_KNOWN, Two(Done, Done), Resting, BOTH)

  function RaceAt(k: nat): Sys {
    match k
    case 0 => EMPTY
    case 1 => S1
    case 2 => S2
    case 3 => T3
    case 4 => T4
    case 5 => T5
    case 6 => T6
    case 7 => T7
    case 8 => T8
    case 9 => T9
    case 10 => T10
    case 11 => T11
    case 12 => T12
    case 13 => T13
    case 14 => T14
    case 15 => T15
    case 16 => T16
    case 17 => T17
    case 18 => T18
    case _ => T19
  }

  function RaceActs(k: nat): Action {
    match k
    case 0 => Create("i", INVOICE)
    case 1 => Receive(0, X)
    case 2 => Receive(1, Y)
    case 3 => Move(0)
    case 4 => Move(1)
    case 5 => Move(0)
    case 6 => Move(1)
    case 7 => Move(0)
    case 8 => Move(1)
    case 9 => Move(0)
    case 10 => Move(1)
    case 11 => Move(0)
    case 12 => Move(1)
    case 13 => Move(0)
    case 14 => Move(0)
    case 15 => Move(0)
    case 16 => Move(1)
    case 17 => Move(1)
    case _ => Move(1)
  }

  const RACE: seq<Sys> := seq(20, k requires 0 <= k < 20 => RaceAt(k))
  const RACE_ACTIONS: seq<Action> := seq(19, k requires 0 <= k < 19 => RaceActs(k))

  lemma RaceSteps1()
    ensures Step(HOOKED, EMPTY, Create("i", INVOICE), S1)
    ensures Step(HOOKED, S1, Receive(0, X), S2)
    ensures Step(HOOKED, S2, Receive(1, Y), T3)
  {
    assert T3.calls == S2.calls[1 := Insert(Y)];
  }

  lemma RaceSteps2()
    ensures Step(HOOKED, T3, Move(0), T4)
    ensures Step(HOOKED, T4, Move(1), T5)
  {
    MoveOf(HOOKED, T3, 0, T4);
    MoveOf(HOOKED, T4, 1, T5);
  }

  lemma RaceSteps3()
    ensures Step(HOOKED, T5, Move(0), T6)
    ensures Step(HOOKED, T6, Move(1), T7)
  {
    assert OldestHit(T5.db, Derived, ByRecipient("r"), "i");
    MoveOf(HOOKED, T5, 0, T6);
    assert OldestHit(T6.db, Derived, ByRecipient("r"), "i");
    MoveOf(HOOKED, T6, 1, T7);
  }

  lemma RaceSteps4()
    ensures Step(HOOKED, T7, Move(0), T8)
    ensures Step(HOOKED, T8, Move(1), T9)
  {
    MoveOf(HOOKED, T7, 0, T8);
    MoveOf(HOOKED, T8, 1, T9);
  }

  lemma RaceSteps5()
    ensures Step(HOOKED, T9, Move(0), T10)
    ensures Step(HOOKED, T10, Move(1), T11)
  {
    MoveOf(HOOKED, T9, 0, T10);
    MoveOf(HOOKED, T10, 1, T11);
  }

  lemma RaceSteps6()
    ensures Step(HOOKED, T11, Move(0), T12)
    ensures Step(HOOKED, T12, Move(1), T13)
  {
    MoveOf(HOOKED, T11, 0, T12);
    MoveOf(HOOKED, T12, 1, T13);
  }

  lemma RaceSteps7()
    ensures Step(HOOKED, T13, Move(0), T14)
    ensures Step(HOOKED, T14, Move(0), T15)
  {
    MoveOf(HOOKED, T13, 0, T14);
    MoveOf(HOOKED, T14, 0, T15);
  }

  lemma RaceSteps8()
    ensures Step(HOOKED, T15, Move(0), T16)
  {
    assert T16.db == Enqueue(T15.db, "d", ReceivedEvent(X, Some("i"), None));
    MoveOf(HOOKED, T15, 0, T16);
  }

  lemma RaceSteps9()
    ensures Step(HOOKED, T16, Move(1), T17)
    ensures Step(HOOKED, T17, Move(1), T18)
  {
    MoveOf(HOOKED, T16, 1, T17);
    MoveOf(HOOKED, T17, 1, T18);
  }

  lemma RaceSteps10()
    ensures Step(HOOKED, T18, Move(1), T19)
  {
    assert T19.db == Enqueue(T18.db, "e", ReceivedEvent(Y, Some("i"), None));
    MoveOf(HOOKED, T18, 1, T19);
  }

  lemma RaceSteps(k: nat)
    requires k < 19
    ensures Step(HOOKED, RaceAt(k), RaceActs(k), RaceAt(k + 1))
  {
    match k
    case 0 => RaceSteps1();
    case 1 => RaceSteps1();
    case 2 => RaceSteps1();
    case 3 => RaceSteps2();
    case 4 => RaceSteps2();
    case 5 => RaceSteps3();
    case 6 => RaceSteps3();
    case 7 => RaceSteps4();
    case 8 => RaceSteps4();
    case 9 => RaceSteps5();
    case 10 => RaceSteps5();
    case 11 => RaceSteps6();
    case 12 => RaceSteps6();
    case 13 => RaceSteps7();
    case 14 => RaceSteps7();
    case 15 => RaceSteps8();
    case 16 => RaceSteps9();
    case 17 => RaceSteps9();
    case 18 => RaceSteps10();
  }

  lemma RaceEnds()
    ensures Quiescent(T19) && T19.db.invoices["i"].paidBy == Some("x")
    ensures "d" in T19.db.queue && ReceivedFor(T19.db.queue["d"], "i") && "e" in T19.db.queue && ReceivedFor(T19.db.queue["e"], "i")
    ensures LostFlip(T10, Move(1))
  {
  }

  /** Two payers of one invoice: the loser's mark_paid changes nothing, its handler
      links and announces its payment all the same, and at rest the store has two
      `payment.received` deliveries for one paid invoice. */
  lemma ALostRaceAnnouncesTwice()
    ensures ValidConfig(HOOKED) && Run(HOOKED, RACE, RACE_ACTIONS) && RACE[19] == T19
    ensures LostFlip(RACE[10], RACE_ACTIONS[10])
    ensures Quiescent(T19) && T19.db.invoices["i"].paidBy == Some("x")
    ensures "d" in T19.db.queue && ReceivedFor(T19.db.queue["d"], "i") && "e" in T19.db.queue && ReceivedFor(T19.db.queue["e"], "i")
    ensures !OneReceiptEach(T19.db)
  {
    forall k {:trigger RACE_ACTIONS[k]} | 0 <= k < 19 ensures Step(HOOKED, RACE[k], RACE_ACTIONS[k], RACE[k + 1]) {
      RaceSteps(k);
    }
    assert RACE[10] == T10 && RACE[19] == T19;
    RaceEnds();
    ReceiptsAreSingleIffNoRaceWasLost(HOOKED, RACE, RACE_ACTIONS);
  }

  // ------------------------------------------------ a confirmation before its receipt

  /** An invoice for exactly 7, armed with an issued slate, and the slate as it comes
      back: signed by the payer, its amount zeroed. */
  const PRICED := Invoice(0, 0, None, Some(7), None, Some(Amount), "", Open, None, None)
  const RETURNED := Finalized("x", 0, "k")
  const ASKED: map<InvoiceId, Invoice> := map["i" := PRICED]
  const ARMED: map<InvoiceId, Invoice> := ASKED["i" := PRICED.(slate := Some("x"))]
  const SETTLED: map<InvoiceId, Invoice> := ARMED["i" := PRICED.(slate := Some("x"), status := Paid, paidBy := Some("x"))]
  const FINAL: map<InvoiceId, Invoice> := SETTLED["i" := PRICED.(slate := Some("x"), status := Confirmed, paidBy := Some("x"))]
  const LINKED_ITEM := WorkItem("x", "k", Some("i"))
  const NEWS := Event(PaymentConfirmed, "x", 7, Some("i"), None, None)

  /** The server on this rail: the slate is issued, its context live or consumed. */
  function Till(
      invoices: map<InvoiceId, Invoice>, payments: map<SlateId, Payment>, live: set<SlateId>, calls: map<nat, Handler>, poll: Poll,
      queue: map<EventId, Delivery>): Sys
  {
    Sys(Db(0, invoices, payments, queue), Wallet({}, {"x"}, live), calls, poll, Idle)
  }

  const BOOKED: map<SlateId, Payment> := map["x" := Row(Some("i"))]
  const BOOKED_DEEP: map<SlateId, Payment> := BOOKED["x" := Row(Some("i")).(confirmations := 1, status := OnChain)]

  function Settling(h: Handler): map<nat, Handler> {
    map[0 := Done, 1 := h]
  }

  const PENDING: map<nat, Handler> := Settling(Announce(RETURNED, "i", 7, None))

  /** Finalizing posts the transaction, so it may be mined, and polled, before the
      handler that settles it has announced the payment. */
  const U1 := Sys(Db(0, ASKED, map[], map[]), Wallet({}, {}, {}), map[], Resting, Idle)
  const U2 := Till(ASKED, map[], {"x"}, map[0 := Attach("i", "x")], Resting, map[])
  const U3 := Till(ARMED, map[], {"x"}, map[0 := Done], Resting, map[])
  const U4 := Till(ARMED, map[], {}, Settling(Lookup(RETURNED)), Resting, map[])
  const U5 := Till(ARMED, map[], {}, Settling(Record(RETURNED, "i", 7, None)), Resting, map[])
  const U6 := Till(ARMED, BOOKED, {}, Settling(Settle(RETURNED, "i", 7, None)), Resting, map[])
  const U7 := Till(SETTLED, BOOKED, {}, PENDING, Resting, map[])
  const U8 := Till(SETTLED, BOOKED, {}, PENDING, Working([LINKED_ITEM]), map[])
  const U9 := Till(SETTLED, BOOKED, {}, PENDING, Recording(LINKED_ITEM, 1, []), map[])
  const U10 := Till(SETTLED, BOOKED_DEEP, {}, PENDING, Confirming("x", "i", []), map[])
  const U11 := Till(FINAL, BOOKED_DEEP, {}, PENDING, Loading("x", "i", []), map[])
  const U12 := Till(FINAL, BOOKED_DEEP, {}, PENDING, Telling("x", "i", NEWS, []), map[])
  const U13 := Till(FINAL, BOOKED_DEEP, {}, PENDING, Working([]), map["c" := Delivery(NEWS, 0, false, 0)])

  function HasteAt(k: nat): Sys {
    match k
    case 0 => EMPTY
    case 1 => U1
    case 2 => U2
    case 3 => U3
    case 4 => U4
    case 5 => U5
    case 6 => U6
    case 7 => U7
    case 8 => U8
    case 9 => U9
    case 10 => U10
    case 11 => U11
    case 12 => U12
    case _ => U13
  }

  function HasteActs(k: nat): Action {
    match k
    case 0 => Create("i", PRICED)
    case 1 => Issue(0, "i", "x")
    case 2 => Move(0)
    case 3 => Finalize(1, RETURNED)
    case 4 => Move(1)
    case 5 => Move(1)
    case 6 => Move(1)
    case 7 => PollMoves
    case 8 => PollMoves
    case 9 => PollMoves
    case 10 => PollMoves
    case 11 => PollMoves
    case _ => PollMoves
  }

  const HASTE: seq<Sys> := seq(14, k requires 0 <= k < 14 => HasteAt(k))
  const HASTE_ACTIONS: seq<Action> := seq(13, k requires 0 <= k < 13 => HasteActs(k))

  lemma HasteSteps1()
    ensures Step(HOOKED, EMPTY, Create("i", PRICED), U1)
    ensures Step(HOOKED, U1, Issue(0, "i", "x"), U2)
  {
    assert U2.calls == U1.calls[0 := Attach("i", "x")];
  }

  lemma HasteSteps2()
    ensures Step(HOOKED, U2, Move(0), U3)
    ensures Step(HOOKED, U3, Finalize(1, RETURNED), U4)
  {
    MoveOf(HOOKED, U2, 0, U3);
    assert U4.calls == U3.calls[1 := Lookup(RETURNED)];
  }

  lemma HasteSteps3()
    ensures Step(HOOKED, U4, Move(1), U5)
    ensures Step(HOOKED, U5, Move(1), U6)
  {
    assert ARMED["i"].slate == Some("x");
    MoveOf(HOOKED, U4, 1, U5);
    MoveOf(HOOKED, U5, 1, U6);
  }

  lemma HasteSteps4()
    ensures Step(HOOKED, U6, Move(1), U7)
  {
    MoveOf(HOOKED, U6, 1, U7);
  }

  lemma HasteSteps5()
    ensures Step(HOOKED, U7, PollMoves, U8)
    ensures Step(HOOKED, U8, PollMoves, U9)
    ensures Step(HOOKED, U9, PollMoves, U10)
  {
    OnlyItemListed(HOOKED, U7.db, LINKED_ITEM);
  }

  lemma HasteSteps6()
    ensures Step(HOOKED, U10, PollMoves, U11)
    ensures Step(HOOKED, U11, PollMoves, U12)
    ensures Step(HOOKED, U12, PollMoves, U13)
  {
    assert U13.db == Enqueue(U12.db, "c", NEWS);
  }

  lemma HasteSteps(k: nat)
    requires k < 13
    ensures Step(HOOKED, HasteAt(k), HasteActs(k), HasteAt(k + 1))
  {
    match k
    case 0 => HasteSteps1();
    case 1 => HasteSteps1();
    case 2 => HasteSteps2();
    case 3 => HasteSteps2();
    case 4 => HasteSteps3();
    case 5 => HasteSteps3();
    case 6 => HasteSteps4();
    case 7 => HasteSteps5();
    case 8 => HasteSteps5();
    case 9 => HasteSteps5();
    case 10 => HasteSteps6();
    case 11 => HasteSteps6();
    case 12 => HasteSteps6();
  }

  lemma HasteEnds()
    ensures "c" in U13.db.queue && Confirms(U13.db.queue["c"], "i") && !HasReceipt(U13.db, "i")
    ensures Hasty(U12, PollMoves) && U12.poll.slate in U12.wallet.issued
  {
    assert Owned(U12.calls[1]) == Some("x");
    assert InFlight(U12.calls, "x");
  }

  lemma NothingReceived(k: nat)
    requires k < 14
    ensures HasteAt(k).wallet.received == {}
  {
  }

  /** On the settle rail the poll can confirm an invoice, and queue the news, while
      the handler that settles the payment has yet to announce it. Nothing the node
      reports in this run is implausible: no slate was received at all. */
  lemma AConfirmationCanComeFirst()
    ensures ValidConfig(HOOKED) && Run(HOOKED, HASTE, HASTE_ACTIONS) && PlausibleReports(HOOKED, HASTE, HASTE_ACTIONS)
    ensures HASTE[12] == U12 && U12.poll.slate in U12.wallet.issued && Hasty(HASTE[12], HASTE_ACTIONS[12])
    ensures HASTE[13] == U13 && HasConfirmation(U13.db, "i") && !HasReceipt(U13.db, "i") && !ReceiptsFirst(HASTE)
  {
    forall k {:trigger HASTE_ACTIONS[k]} | 0 <= k < 13 ensures Step(HOOKED, HASTE[k], HASTE_ACTIONS[k], HASTE[k + 1]) {
      HasteSteps(k);
    }
    forall k {:trigger HASTE_ACTIONS[k]} | 0 <= k < 13 ensures Plausible(HOOKED, HASTE[k], HASTE_ACTIONS[k], HASTE[k + 1]) {
      NothingReceived(k);
    }
    assert HASTE[12] == U12 && HASTE[13] == U13;
    HasteEnds();
  }
}
