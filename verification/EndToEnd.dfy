/** The server and one store, over a network that loses, repeats and reorders
    webhooks: whatever was posted may be delivered at any later time, any number
    of times, or never. */
module EndToEnd {
  import opened Common
  import opened Tables
  import opened Interleaving
  import opened Safety
  import opened SafetyTasks
  import opened Store

  datatype World = World(sys: Sys, net: set<Message>, shop: Shop)

  datatype WorldEvent =
    | Server(a: Action)
    | Send(e: EventId)
    | Deliver(p: Post)
    | PollStatus(o: OrderId, answer: Option<Status>)
    | ExpireOrder(o: OrderId, answer: Option<Status>)
    | Checkout(o: OrderId, invoice: InvoiceId)
    | PlaceOrder(o: OrderId, viaGateway: bool)
    | ShopTick(now: int)

  /** A signature verifies only over a body the server really posted. */
  predicate Genuine(net: set<Message>, p: Post) {
    p.signed && p.body.Some? ==> p.body.value in net
  }

  /** What the status endpoint may answer about the invoice bound to an order. */
  predicate Answerable(db: Db, shop: Shop, o: OrderId, answer: Option<Status>) {
    answer.Some? && o in shop.orders ==>
      shop.orders[o].bound in db.invoices && db.invoices[shop.orders[o].bound].status == answer.value
  }

  ghost predicate WorldStep(cfg: Config, cast: string -> OrderId, w: World, e: WorldEvent, w': World) {
    match e
    case Server(a) =>
      Step(cfg, w.sys, a, w'.sys) && w' == w.(sys := w'.sys)
    case Send(id) =>
      id in w.sys.db.queue && w' == w.(net := w.net + {Message(id, w.sys.db.queue[id].event)})
    case Deliver(p) =>
      Genuine(w.net, p) && w' == w.(shop := AfterWebhook(w.shop, cast, p))
    case PollStatus(o, answer) =>
      Answerable(w.sys.db, w.shop, o, answer) && w' == w.(shop := AfterPoll(w.shop, o, answer))
    case ExpireOrder(o, answer) =>
      Answerable(w.sys.db, w.shop, o, answer) && w' == w.(shop := AfterExpiry(w.shop, o, answer))
    // WooCommerce takes payment only for an order that still needs it; the
    // answer of the create call names an invoice (a non-empty id)
    case Checkout(o, invoice) =>
      && o in w.shop.orders && !IsPaidUp(w.shop.orders[o]) && invoice != ""
      && w' == w.(shop := AfterCheckout(w.shop, o, invoice))
    case PlaceOrder(o, viaGateway) =>
      o !in w.shop.orders &&
      w' == w.(shop := w.shop.(orders := w.shop.orders[o := Order(viaGateway, "", Pending, 0, None)]))
    case ShopTick(now) =>
      w.shop.now <= now && w' == w.(shop := w.shop.(now := now))
  }

  predicate WorldInit(w: World) {
    Init(w.sys) && w.net == {} && w.shop.orders == map[] && w.shop.seen == map[]
  }

  ghost predicate WorldRun(cfg: Config, cast: string -> OrderId, worlds: seq<World>, events: seq<WorldEvent>) {
    && |worlds| == |events| + 1
    && WorldInit(worlds[0])
    && forall k {:trigger events[k]} :: 0 <= k < |events| ==> WorldStep(cfg, cast, worlds[k], events[k], worlds[k + 1])
  }

  /** A message in the network still matches the delivery it was posted from. */
  predicate MessageHolds(db: Db, m: Message) {
    m.id in db.queue && db.queue[m.id].event == m.event
  }

  /** Why an order is complete: one confirmed invoice, which is the invoice the
      order is bound to, or, for an order that never stored one, an invoice whose
      reference names the order. */
  predicate SettledRightly(cast: string -> OrderId, db: Db, id: OrderId, o: Order) {
    && o.settledBy.Some? && o.settledBy.value in db.invoices
    && db.invoices[o.settledBy.value].status == Confirmed
    && (o.bound != "" ==> o.settledBy.value == o.bound)
    && (o.bound == "" ==> cast(Text(db.invoices[o.settledBy.value].orderRef)) == id)
  }

  predicate OrderHolds(cast: string -> OrderId, db: Db, id: OrderId, o: Order) {
    if IsPaidUp(o) then o.completions == 1 && SettledRightly(cast, db, id, o)
    else o.completions == 0
  }

  ghost predicate WorldHolds(cfg: Config, cast: string -> OrderId, w: World) {
    && Holds(cfg, w.sys)
    && "" !in w.sys.db.invoices
    && (forall m :: m in w.net ==> MessageHolds(w.sys.db, m))
    && (forall o :: o in w.shop.orders ==> OrderHolds(cast, w.sys.db, o, w.shop.orders[o]))
  }

  lemma NoInvoiceIsNameless(cfg: Config, s: Sys, a: Action, s': Sys)
    requires Step(cfg, s, a, s') && "" !in s.db.invoices
    ensures "" !in s'.db.invoices
  {
  }

  lemma ServerKeepsWorld(cfg: Config, cast: string -> OrderId, w: World, a: Action, w': World)
    requires WorldHolds(cfg, cast, w) && ValidConfig(cfg) && WorldStep(cfg, cast, w, Server(a), w')
    ensures WorldHolds(cfg, cast, w')
  {
    StepKeeps(cfg, w.sys, a, w'.sys);
    NoInvoiceIsNameless(cfg, w.sys, a, w'.sys);
  }

  /** A genuine confirmation is true: its invoice is confirmed. */
  lemma DeliverKeepsOrders(cfg: Config, cast: string -> OrderId, w: World, p: Post)
    requires WorldHolds(cfg, cast, w) && Genuine(w.net, p)
    ensures forall o :: o in AfterWebhook(w.shop, cast, p).orders ==>
              OrderHolds(cast, w.sys.db, o, AfterWebhook(w.shop, cast, p).orders[o])
  {
    if Accepted(w.shop, p) {
      var m := p.body.value;
      assert MessageHolds(w.sys.db, m);
      assert EventHolds(cfg, w.sys.db, w.sys.db.queue[m.id].event);
    }
  }

  lemma WorldStepKeeps(cfg: Config, cast: string -> OrderId, w: World, e: WorldEvent, w': World)
    requires WorldHolds(cfg, cast, w) && ValidConfig(cfg) && WorldStep(cfg, cast, w, e, w')
    ensures WorldHolds(cfg, cast, w')
  {
    match e
    case Server(a) => ServerKeepsWorld(cfg, cast, w, a, w');
    case Deliver(p) => DeliverKeepsOrders(cfg, cast, w, p);
    case _ =>
  }

  lemma WorldInitHolds(cfg: Config, cast: string -> OrderId, w: World)
    requires WorldInit(w)
    ensures WorldHolds(cfg, cast, w)
  {
    InitHolds(cfg, w.sys);
  }

  lemma {:induction false} ReachableWorldHolds(cfg: Config, cast: string -> OrderId, worlds: seq<World>, events: seq<WorldEvent>, k: nat)
    requires ValidConfig(cfg) && WorldRun(cfg, cast, worlds, events) && k < |worlds|
    ensures WorldHolds(cfg, cast, worlds[k])
  {
    if k == 0 {
      WorldInitHolds(cfg, cast, worlds[0]);
    } else {
      ReachableWorldHolds(cfg, cast, worlds, events, k - 1);
      assert WorldStep(cfg, cast, worlds[k - 1], events[k - 1], worlds[k]);
      WorldStepKeeps(cfg, cast, worlds[k - 1], events[k - 1], worlds[k]);
    }
  }

  /** End to end: an order is completed at most once, and only for a confirmed
      invoice (the one bound to it, when one is bound) to which some payment x is
      linked that reached the required depth and carries the invoice's expected
      amount. */
  lemma OrderCompletesOnceForMoneyInDepth(cfg: Config, cast: string -> OrderId, worlds: seq<World>, events: seq<WorldEvent>, k: nat, o: OrderId)
    returns (x: SlateId)
    requires ValidConfig(cfg) && WorldRun(cfg, cast, worlds, events) && k < |worlds|
    requires o in worlds[k].shop.orders
    ensures var order, db := worlds[k].shop.orders[o], worlds[k].sys.db;
            && order.completions <= 1
            && (IsPaidUp(order) <==> order.completions == 1)
            && (order.completions == 1 ==>
                  && SettledRightly(cast, db, o, order)
                  && x in db.payments && db.payments[x].invoice == order.settledBy
                  && db.payments[x].confirmations >= cfg.required
                  && (db.invoices[order.settledBy.value].expected.Some? ==>
                        db.payments[x].amount == Clamp(db.invoices[order.settledBy.value].expected.value)))
  {
    ReachableWorldHolds(cfg, cast, worlds, events, k);
    var order, db := worlds[k].shop.orders[o], worlds[k].sys.db;
    x := "";
    if order.completions == 1 {
      var i := order.settledBy.value;
      x :| Deep(cfg, db, x, i);
      assert LinkBinds(db, x, i);
    }
  }

  // ------------------------------------------------------------------- progress

  lemma WorldStepEvolves(cfg: Config, cast: string -> OrderId, w: World, e: WorldEvent, w': World)
    requires WorldHolds(cfg, cast, w) && ValidConfig(cfg) && WorldStep(cfg, cast, w, e, w')
    ensures e.Server? ==> Evolves(w.sys.db, w'.sys.db)
    ensures !e.Server? ==> w'.sys == w.sys
  {
    if e.Server? {
      StepKeeps(cfg, w.sys, e.a, w'.sys);
    }
  }

  lemma StepKeepsConfirmed(cfg: Config, cast: string -> OrderId, worlds: seq<World>, events: seq<WorldEvent>, k: nat, i: InvoiceId)
    requires ValidConfig(cfg) && WorldRun(cfg, cast, worlds, events) && k < |events|
    requires i in worlds[k].sys.db.invoices && worlds[k].sys.db.invoices[i].status == Confirmed
    ensures i in worlds[k + 1].sys.db.invoices && worlds[k + 1].sys.db.invoices[i].status == Confirmed
  {
    ReachableWorldHolds(cfg, cast, worlds, events, k);
    assert WorldStep(cfg, cast, worlds[k], events[k], worlds[k + 1]);
    WorldStepEvolves(cfg, cast, worlds[k], events[k], worlds[k + 1]);
  }

  lemma {:induction false} ConfirmedStaysConfirmed(
      cfg: Config, cast: string -> OrderId, worlds: seq<World>, events: seq<WorldEvent>, j: nat, k: nat, i: InvoiceId)
    requires ValidConfig(cfg) && WorldRun(cfg, cast, worlds, events) && j <= k < |worlds|
    requires i in worlds[j].sys.db.invoices && worlds[j].sys.db.invoices[i].status == Confirmed
    ensures i in worlds[k].sys.db.invoices && worlds[k].sys.db.invoices[i].status == Confirmed
  {
    if j < k {
      ConfirmedStaysConfirmed(cfg, cast, worlds, events, j, k - 1, i);
      StepKeepsConfirmed(cfg, cast, worlds, events, k - 1, i);
    }
  }

  /** Once complete an order is never touched again. */
  lemma {:induction false} CompleteStays(
      cfg: Config, cast: string -> OrderId, worlds: seq<World>, events: seq<WorldEvent>, j: nat, k: nat, o: OrderId)
    requires WorldRun(cfg, cast, worlds, events) && j <= k < |worlds|
    requires o in worlds[j].shop.orders && IsPaidUp(worlds[j].shop.orders[o])
    ensures o in worlds[k].shop.orders && worlds[k].shop.orders[o] == worlds[j].shop.orders[o]
  {
    if j < k {
      CompleteStays(cfg, cast, worlds, events, j, k - 1, o);
      assert WorldStep(cfg, cast, worlds[k - 1], events[k - 1], worlds[k]);
      if events[k - 1].Deliver? {
        WebhookCompletesExactly(worlds[k - 1].shop, cast, events[k - 1].p, o);
      }
    }
  }

  /** An unpaid gateway order waiting for invoice i, which was created for it. */
  predicate Awaits(cast: string -> OrderId, w: World, o: OrderId, i: InvoiceId) {
    && o in w.shop.orders && w.shop.orders[o].viaGateway && !IsPaidUp(w.shop.orders[o]) && w.shop.orders[o].bound == i != ""
    && i in w.sys.db.invoices && Text(w.sys.db.invoices[i].orderRef) != "" && cast(Text(w.sys.db.invoices[i].orderRef)) == o
  }

  /** Checkout starts the wait for the invoice the server created for the order, and
      leaves every other order alone. */
  lemma CheckoutStartsTheWait(cfg: Config, cast: string -> OrderId, w: World, o: OrderId, i: InvoiceId, w': World)
    requires WorldStep(cfg, cast, w, Checkout(o, i), w') && w.shop.orders[o].viaGateway
    requires i in w.sys.db.invoices && Text(w.sys.db.invoices[i].orderRef) != "" && cast(Text(w.sys.db.invoices[i].orderRef)) == o
    ensures Awaits(cast, w', o, i) && w'.shop.orders[o].status == OnHold
    ensures forall other :: other in w.shop.orders && other != o ==>
              other in w'.shop.orders && w'.shop.orders[other] == w.shop.orders[other]
  {
  }

  /** An event that brings the store the news of i's confirmation: a delivery of it
      that is accepted (so not marked as seen), or an answered status poll, be it the
      last one, when the order's window ends. */
  predicate BringsNews(w: World, e: WorldEvent, o: OrderId, i: InvoiceId) {
    || (e.Deliver? && Accepted(w.shop, e.p) && e.p.body.value.event.kind == PaymentConfirmed && e.p.body.value.event.invoice == Some(i))
    || ((e.PollStatus? || e.ExpireOrder?) && e.o == o && e.answer.Some?)
  }

  /** A delivery in the network carries the order reference of its invoice. */
  lemma MessageNamesTheOrder(cfg: Config, cast: string -> OrderId, w: World, m: Message)
    requires WorldHolds(cfg, cast, w) && m in w.net && m.event.kind == PaymentConfirmed
    ensures m.event.invoice.Some? && m.event.invoice.value in w.sys.db.invoices
    ensures m.event.orderRef == w.sys.db.invoices[m.event.invoice.value].orderRef
  {
    assert MessageHolds(w.sys.db, m);
    assert EventHolds(cfg, w.sys.db, w.sys.db.queue[m.id].event);
  }

  lemma NewsCompletes(cfg: Config, cast: string -> OrderId, w: World, e: WorldEvent, w': World, o: OrderId, i: InvoiceId)
    requires WorldStep(cfg, cast, w, e, w') && Awaits(cast, w, o, i) && BringsNews(w, e, o, i)
    requires w.sys.db.invoices[i].status == Confirmed
    requires e.Deliver? ==> e.p.body.value.event.orderRef == w.sys.db.invoices[i].orderRef
    ensures o in w'.shop.orders && IsPaidUp(w'.shop.orders[o]) && w'.shop.orders[o].settledBy == Some(i)
  {
    if e.Deliver? {
      WebhookCompletesExactly(w.shop, cast, e.p, o);
    } else if e.PollStatus? {
      PollCompletesExactly(w.shop, o, e.answer);
    } else {
      WindowCompletesOrCancels(w.shop, o, e.answer);
    }
  }

  /** Progress: once the invoice an order awaits is confirmed, the next event that
      brings the store the news completes the order, for that invoice and for good. */
  lemma NewsOfAConfirmationCompletesTheOrder(
      cfg: Config, cast: string -> OrderId, worlds: seq<World>, events: seq<WorldEvent>, j: nat, k: nat, n: nat, o: OrderId, i: InvoiceId)
    requires ValidConfig(cfg) && WorldRun(cfg, cast, worlds, events) && j <= k < n < |worlds|
    requires i in worlds[j].sys.db.invoices && worlds[j].sys.db.invoices[i].status == Confirmed
    requires Awaits(cast, worlds[k], o, i) && BringsNews(worlds[k], events[k], o, i)
    ensures o in worlds[n].shop.orders && IsPaidUp(worlds[n].shop.orders[o]) && worlds[n].shop.orders[o].settledBy == Some(i)
  {
    ConfirmedStaysConfirmed(cfg, cast, worlds, events, j, k, i);
    ReachableWorldHolds(cfg, cast, worlds, events, k);
    assert WorldStep(cfg, cast, worlds[k], events[k], worlds[k + 1]);
    if events[k].Deliver? {
      MessageNamesTheOrder(cfg, cast, worlds[k], events[k].p.body.value);
    }
    NewsCompletes(cfg, cast, worlds[k], events[k], worlds[k + 1], o, i);
    CompleteStays(cfg, cast, worlds, events, k + 1, n, o);
  }

  /** And there is news to bring: with a webhook, the confirmation is in the server's
      queue, unless the poll is just about to put it there. */
  lemma NewsIsQueued(
      cfg: Config, cast: string -> OrderId, worlds: seq<World>, events: seq<WorldEvent>, k: nat, i: InvoiceId) returns (d: EventId)
    requires ValidConfig(cfg) && cfg.webhook && WorldRun(cfg, cast, worlds, events) && k < |worlds|
    requires i in worlds[k].sys.db.invoices && worlds[k].sys.db.invoices[i].status == Confirmed
    requires Untold(worlds[k].sys.poll) != Some(i)
    ensures d in worlds[k].sys.db.queue && Confirms(worlds[k].sys.db.queue[d], i)
    ensures worlds[k].sys.db.queue[d].event.orderRef == worlds[k].sys.db.invoices[i].orderRef
  {
    ReachableWorldHolds(cfg, cast, worlds, events, k);
    var db := worlds[k].sys.db;
    d :| d in db.queue && Confirms(db.queue[d], i);
    assert EventHolds(cfg, db, db.queue[d].event);
  }
}
