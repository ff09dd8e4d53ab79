/** The WooCommerce connector: the webhook receiver, the status poll and the
    expiry fallback, over the shop's orders and its dedupe transients. */
module Store {
  import opened Common
  import opened Tables

  type OrderId = int

  const WEEK_IN_SECONDS: int := 604800

  /** Paid covers WooCommerce's `processing` and `completed`. */
  datatype OrderStatus = Pending | OnHold | Cancelled | PaidUp

  /** `bound` is the stored invoice id, empty when none was stored. `settledBy`
      and `completions` record which invoice completed the order, and how often
      `payment_complete` ran. */
  datatype Order = Order(
    viaGateway: bool,
    bound: InvoiceId,
    status: OrderStatus,
    completions: nat,
    settledBy: Option<InvoiceId>)

  /** Transients map an event id to the second its marker lapses. */
  datatype Shop = Shop(now: int, secret: string, orders: map<OrderId, Order>, seen: map<EventId, int>)

  datatype Message = Message(id: EventId, event: Event)

  /** One HTTP request: whether its signature verifies, and its body if it
      decodes. */
  datatype Post = Post(signed: bool, body: Option<Message>)

  predicate IsPaidUp(o: Order) {
    o.status == PaidUp
  }

  predicate Deduped(s: Shop, id: EventId) {
    id in s.seen && s.seen[id] >= s.now
  }

  function Text(t: Option<string>): string {
    if t.Some? then t.value else ""
  }

  /** `payment_complete`: every unpaid status here is one WooCommerce accepts. */
  function Complete(s: Shop, o: OrderId, invoice: InvoiceId): Shop
    requires o in s.orders
  {
    var order := s.orders[o];
    if IsPaidUp(order) then s
    else s.(orders := s.orders[o := order.(status := PaidUp, completions := order.completions + 1, settledBy := Some(invoice))])
  }

  /** The order a message is about, once it has passed every check. */
  function Addressee(s: Shop, cast: string -> OrderId, e: Event): Option<OrderId> {
    var ref, invoice := Text(e.orderRef), Text(e.invoice);
    if ref == "" then None
    else
      var o := cast(ref);
      if o !in s.orders || !s.orders[o].viaGateway then None
      else
        var known := s.orders[o].bound;
        if known != "" && invoice != "" && known != invoice then None else Some(o)
  }

  function Mark(s: Shop, id: EventId): Shop {
    if id == "" then s else s.(seen := s.seen[id := s.now + WEEK_IN_SECONDS])
  }

  /** Whether a request gets as far as its event. */
  predicate Accepted(s: Shop, p: Post) {
    s.secret != "" && p.signed && p.body.Some? && (p.body.value.id == "" || !Deduped(s, p.body.value.id))
  }

  /** The receiver's effect on the shop. `cast` is PHP's `(int)` on a string. */
  function AfterWebhook(s: Shop, cast: string -> OrderId, p: Post): Shop {
    if !Accepted(s, p) then s
    else
      var e := p.body.value.event;
      var marked := Mark(s, p.body.value.id);
      var to := Addressee(s, cast, e);
      if e.kind == PaymentConfirmed && to.Some? then Complete(marked, to.value, Text(e.invoice)) else marked
  }

  /** The status poll: completes only on an answer of `confirmed`. */
  function AfterPoll(s: Shop, o: OrderId, answer: Option<Status>): Shop {
    if o !in s.orders || !s.orders[o].viaGateway || IsPaidUp(s.orders[o]) || s.orders[o].bound == "" then s
    else if answer == Some(Confirmed) then Complete(s, o, s.orders[o].bound)
    else s
  }

  /** The expiry fallback: one last poll, then cancel what is still waiting. */
  function AfterExpiry(s: Shop, o: OrderId, answer: Option<Status>): Shop {
    var s' := AfterPoll(s, o, answer);
    if o in s'.orders && s'.orders[o].viaGateway && (s'.orders[o].status == OnHold || s'.orders[o].status == Pending)
    then s'.(orders := s'.orders[o := s'.orders[o].(status := Cancelled)])
    else s'
  }

  /** Checkout stores the invoice it was given and puts the order on hold. */
  function AfterCheckout(s: Shop, o: OrderId, invoice: InvoiceId): Shop {
    if o in s.orders && s.orders[o].viaGateway
    then s.(orders := s.orders[o := s.orders[o].(bound := invoice, status := OnHold)])
    else s
  }

  // ----------------------------------------------------------- its behaviour

  /** A request is entitled to complete an order: signed under a configured secret,
      not seen within the week, announcing a confirmation, naming this unpaid
      gateway order, and carrying no invoice other than the one it is bound to. */
  predicate Entitles(s: Shop, cast: string -> OrderId, p: Post, o: OrderId)
    requires o in s.orders
  {
    && s.secret != "" && p.signed && p.body.Some?
    && var id, e := p.body.value.id, p.body.value.event;
       && (id == "" || id !in s.seen || s.seen[id] < s.now)
       && e.kind == PaymentConfirmed
       && e.orderRef.Some? && e.orderRef.value != "" && cast(e.orderRef.value) == o
       && s.orders[o].viaGateway && !IsPaidUp(s.orders[o])
       && (s.orders[o].bound == "" || Text(e.invoice) == "" || Some(s.orders[o].bound) == e.invoice)
  }

  /** A webhook completes exactly the orders it is entitled to complete and
      changes no other. */
  lemma WebhookCompletesExactly(s: Shop, cast: string -> OrderId, p: Post, o: OrderId)
    requires o in s.orders
    ensures o in AfterWebhook(s, cast, p).orders
    ensures var o' := AfterWebhook(s, cast, p).orders[o];
            if Entitles(s, cast, p, o)
            then o' == s.orders[o].(status := PaidUp, completions := s.orders[o].completions + 1,
                                    settledBy := Some(Text(p.body.value.event.invoice)))
            else o' == s.orders[o]
  {
  }

  /** Paid by one more completion, for the invoice the order is bound to. */
  predicate CompletedByPoll(o: Order, o': Order) {
    o' == o.(status := PaidUp, completions := o.completions + 1, settledBy := Some(o.bound))
  }

  /** The status poll completes the asked order exactly when it is an unpaid gateway
      order with an invoice and the answer is confirmed; it changes nothing else. */
  lemma PollCompletesExactly(s: Shop, o: OrderId, answer: Option<Status>)
    ensures var s' := AfterPoll(s, o, answer);
            && s' == s.(orders := s'.orders) && s'.orders.Keys == s.orders.Keys
            && forall i :: i in s.orders ==>
                 if i == o && s.orders[i].viaGateway && s.orders[i].status != PaidUp && s.orders[i].bound != "" && answer == Some(Confirmed)
                 then CompletedByPoll(s.orders[i], s'.orders[i])
                 else s'.orders[i] == s.orders[i]
  {
  }

  /** When an order's window ends: a confirmed invoice still completes it, any other
      unpaid gateway order is cancelled, and nothing else changes. */
  lemma WindowCompletesOrCancels(s: Shop, o: OrderId, answer: Option<Status>)
    ensures var s' := AfterExpiry(s, o, answer);
            && s' == s.(orders := s'.orders) && s'.orders.Keys == s.orders.Keys
            && forall i :: i in s.orders ==>
                 if i != o || !s.orders[i].viaGateway || s.orders[i].status == PaidUp then s'.orders[i] == s.orders[i]
                 else if s.orders[i].bound != "" && answer == Some(Confirmed) then CompletedByPoll(s.orders[i], s'.orders[i])
                 else s'.orders[i] == s.orders[i].(status := Cancelled)
  {
  }

  // --------------------------------------------------------------- shop runs

  /** What happens to a shop. Checkout binds only an order that still needs
      payment; the clock does not go back. */
  datatype ShopEvent =
    | Request(p: Post)
    | Status(o: OrderId, answer: Option<Tables.Status>)
    | Window(o: OrderId, answer: Option<Tables.Status>)
    | Bind(o: OrderId, invoice: InvoiceId)
    | Clock(now: int)

  function AfterEvent(s: Shop, cast: string -> OrderId, e: ShopEvent): Shop {
    match e
    case Request(p) => AfterWebhook(s, cast, p)
    case Status(o, answer) => AfterPoll(s, o, answer)
    case Window(o, answer) => AfterExpiry(s, o, answer)
    case Bind(o, invoice) => if o in s.orders && !IsPaidUp(s.orders[o]) then AfterCheckout(s, o, invoice) else s
    case Clock(now) => if s.now <= now then s.(now := now) else s
  }

  function AfterEvents(s: Shop, cast: string -> OrderId, es: seq<ShopEvent>): Shop {
    if es == [] then s else AfterEvent(AfterEvents(s, cast, es[..|es| - 1]), cast, es[|es| - 1])
  }

  /** What no event changes: a completed order, and, unless it is bound anew, what
      an order is and is bound to. */
  predicate OrderKept(a: Order, b: Order, rebound: bool) {
    && (IsPaidUp(a) ==> b == a)
    && b.viaGateway == a.viaGateway
    && (!rebound ==> b.bound == a.bound)
  }

  predicate Rebinds(es: seq<ShopEvent>, o: OrderId) {
    exists k :: 0 <= k < |es| && es[k].Bind? && es[k].o == o
  }

  lemma {:induction false} EventsKeepOrder(s: Shop, cast: string -> OrderId, es: seq<ShopEvent>, o: OrderId)
    requires o in s.orders
    ensures o in AfterEvents(s, cast, es).orders
    ensures OrderKept(s.orders[o], AfterEvents(s, cast, es).orders[o], Rebinds(es, o))
  {
    if es != [] {
      var n := |es| - 1;
      EventsKeepOrder(s, cast, es[..n], o);
      if Rebinds(es[..n], o) {
        var k :| 0 <= k < n && es[..n][k].Bind? && es[..n][k].o == o;
        assert es[k].Bind? && es[k].o == o;
      }
    }
  }

  /** Whatever happens in between, a replay leaves alone every order that was
      complete after the first delivery, and every order not bound anew since;
      and what it does to any other is exactly what it would do as a new request. */
  lemma ReplayIsHarmless(s: Shop, cast: string -> OrderId, p: Post, es: seq<ShopEvent>, o: OrderId)
    requires Accepted(s, p) && o in s.orders
    ensures var once := AfterWebhook(s, cast, p);
            var later := AfterEvents(once, cast, es);
            && o in once.orders && o in later.orders && o in AfterWebhook(later, cast, p).orders
            && (IsPaidUp(once.orders[o]) || !Rebinds(es, o) ==> AfterWebhook(later, cast, p).orders[o] == later.orders[o])
            && (AfterWebhook(later, cast, p).orders[o] != later.orders[o] <==> Entitles(later, cast, p, o))
  {
    var once := AfterWebhook(s, cast, p);
    WebhookCompletesExactly(s, cast, p, o);
    EventsKeepOrder(once, cast, es, o);
    WebhookCompletesExactly(AfterEvents(once, cast, es), cast, p, o);
  }

  lemma {:induction false} EventsKeepMarker(s: Shop, cast: string -> OrderId, es: seq<ShopEvent>, id: EventId, until: int)
    requires id in s.seen && until <= s.seen[id] && until <= s.now + 604800
    ensures var s' := AfterEvents(s, cast, es); s.now <= s'.now && id in s'.seen && until <= s'.seen[id]
  {
    if es != [] {
      EventsKeepMarker(s, cast, es[..|es| - 1], id, until);
    }
  }

  /** Within a week of an accepted request its replay is recognised outright and
      changes nothing, whatever else the shop receives meanwhile; a second later, if
      nothing did, it is a new request again. */
  lemma ReplayIsDedupedForAWeek(s: Shop, cast: string -> OrderId, p: Post, es: seq<ShopEvent>)
    requires Accepted(s, p) && p.body.value.id != ""
    ensures var later := AfterEvents(AfterWebhook(s, cast, p), cast, es);
            later.now <= s.now + 604800 ==> AfterWebhook(later, cast, p) == later
    ensures forall now :: now > s.now + 604800 ==> Accepted(AfterWebhook(s, cast, p).(now := now), p)
  {
    EventsKeepMarker(AfterWebhook(s, cast, p), cast, es, p.body.value.id, s.now + 604800);
  }

  /** The marker is set before the order is touched. Should the receiver die in
      between, the retries of that confirmation are all recognised as done, and it
      is the status poll that still completes the order, if an invoice is bound. */
  lemma MarkedButUnprocessedIsLeftToThePoll(s: Shop, cast: string -> OrderId, p: Post, o: OrderId)
    requires o in s.orders && Entitles(s, cast, p, o) && p.body.value.id != ""
    ensures var died := Mark(s, p.body.value.id);
            && AfterWebhook(died, cast, p) == died
            && (IsPaidUp(AfterPoll(died, o, Some(Confirmed)).orders[o]) <==> s.orders[o].bound != "")
  {
  }

  /** What the handlers change, step by step, on the shop's own records. */
  class Plugin {
    var now: int
    var secret: string
    var orders: map<OrderId, Order>
    var seen: map<EventId, int>

    ghost function State(): Shop
      reads this
    {
      Shop(now, secret, orders, seen)
    }

    /** `goblinpay_wc_handle_webhook`: the HTTP status, and the new records. */
    method HandleWebhook(cast: string -> OrderId, p: Post) returns (code: int)
      modifies this
      ensures State() == AfterWebhook(old(State()), cast, p)
      ensures code == if old(secret) == "" then 500 else if !p.signed then 401 else if p.body.None? then 400 else 200
      ensures forall o :: o in old(orders) && Entitles(old(State()), cast, p, o) ==> code == 200 && o in orders && IsPaidUp(orders[o])
    {
      if secret == "" { return 500; }
      if !p.signed { return 401; }
      if p.body.None? { return 400; }
      var id, e := p.body.value.id, p.body.value.event;
      if id != "" {
        if id in seen && seen[id] >= now { return 200; }
        seen := seen[id := now + WEEK_IN_SECONDS];
      }
      code := 200;
      var ref, invoice := Text(e.orderRef), Text(e.invoice);
      if ref == "" { return; }
      var o := cast(ref);
      if o !in orders || !orders[o].viaGateway { return; }
      var known := orders[o].bound;
      if known != "" && invoice != "" && known != invoice { return; }
      if e.kind == PaymentConfirmed && !IsPaidUp(orders[o]) {
        SettleOrder(o, invoice);
      }
    }

    /** `goblinpay_wc_settle_order`: complete an order once. */
    method SettleOrder(o: OrderId, invoice: InvoiceId)
      requires o in orders
      modifies this
      ensures State() == Complete(old(State()), o, invoice)
    {
      if IsPaidUp(orders[o]) { return; }
      orders := orders[o := orders[o].(status := PaidUp, completions := orders[o].completions + 1, settledBy := Some(invoice))];
    }

    /** `goblinpay_wc_poll_invoice`, given the server's answer, if any. */
    method PollInvoice(o: OrderId, answer: Option<Status>)
      modifies this
      ensures State() == AfterPoll(old(State()), o, answer)
    {
      if o !in orders || !orders[o].viaGateway || IsPaidUp(orders[o]) { return; }
      if orders[o].bound == "" || answer.None? { return; }
      if answer.value == Confirmed {
        SettleOrder(o, orders[o].bound);
      }
    }

    /** `goblinpay_wc_maybe_expire_order`: poll once more, then cancel. */
    method MaybeExpireOrder(o: OrderId, answer: Option<Status>)
      modifies this
      ensures State() == AfterExpiry(old(State()), o, answer)
    {
      PollInvoice(o, answer);
      if o !in orders || !orders[o].viaGateway { return; }
      if !IsPaidUp(orders[o]) && (orders[o].status == OnHold || orders[o].status == Pending) {
        orders := orders[o := orders[o].(status := Cancelled)];
      }
    }
  }
}
