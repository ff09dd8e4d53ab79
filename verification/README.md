# GoblinPay, verified

GoblinPay is a self-hosted payment server for Grin. A store asks it for an
invoice, a payer sends money over one of several rails (an encrypted Nostr
message, a pasted slatepack, a plain send, or the issued-invoice flow over an
onion service), and the server tells the store by webhook. Nothing in it is one
big algorithm: request handlers, a confirmation poll, an expiry sweep, a webhook
dispatcher and a key-rotation task all update the same few tables through small
guarded statements, and what the store relies on holds only of their composition.

This project models those actors in Dafny and proves what they promise together.

## The ledger

`Tables` gives the three tables (invoices, payments, queued deliveries) and every
SQL statement as a function. `Interleaving` is the system at statement grain: the
pool has one connection, which serialises single statements only, so a handler in
flight is a program counter plus what it has read, and any other actor may run
between two of its statements. The wallet is three sets (slates received, slates
issued, contexts still live).

- `Safety`, `SafetyProofs`, `SafetyTasks`: the invariant and the rely/guarantee
  proof that every step keeps it, whatever the interleaving.
- `Runs`: what that means over whole runs: amount binding on every rail, final
  payers, status histories, confirmations told once, slates finalized once, swept
  contexts gone for good.
- `Resolution`, `Modes`: which invoice a payment settles, told from the invoice's side
  (each answers one question only, that of its own matching mode), and over runs that
  none is ever paid through another mode.
- `Expiry`: nothing expires before its expiry, by whichever of the three ways, and
  what is read or swept does not stay open past it.
- `Credit`: every event names the user its payment is credited to, and a receipt the
  user and amount of the payment that came in.
- `Told`, `Races`: which slates have been announced by `payment.received`. At
  statement grain "exactly one announcement per paid invoice" is false, because
  `match_payment` ignores the result of `mark_paid`; it holds if and only if no
  handler lost that race. `Counterexamples` has the run where one does and one
  invoice is announced twice.
- `Order`: `payment.received` comes before `payment.confirmed` whenever handlers run
  whole; at statement grain, exactly when no confirmation is queued while all
  handlers that will announce the invoice are in flight. As a payer gets the reply
  to a received slate only when its handler has returned, that can go wrong on the
  settle rail alone, where the transaction is posted before it is settled;
  `Counterexamples` has the run.
- `Readings`, `Stranding`: the poll drops a payment once its depth is recorded, so a
  deep reading from a stale list entry is wasted. A payment of a paid invoice has
  left the work list if and only if that happened to it, and it cannot happen when
  no pass reads its list while a handler is between recording a payment and
  finishing to link it; `Counterexamples` has the run where it does and a paid
  invoice is never polled again.
- `Handlers`, `Passes`: whole handlers and whole task passes as single
  transitions, exactly what they change, and the proof that one left undisturbed
  at statement grain does just that.
- `Ledger` (module `Ledgers`): the same handlers and tasks as a class over mutable
  tables, each method proved against those transitions.
- `Discharge`, `PlainSend`: first-in-first-out matching by amount, and the gate of
  the plain-send panel against the amount match it must predict.
- `Store`, `EndToEnd`: the WooCommerce connector, and the theorem that spans
  everything: over a network that loses, repeats and reorders webhooks, an order
  completes at most once, for a confirmed invoice with money of the right amount at
  the required depth; and once its invoice is confirmed, the next news of that
  completes it.

## Around the ledger

- `Dispatch`, `Fairness`: the webhook queue: retry schedule, attempt ceiling, no
  starvation, bounded work.
- `Limiter`, `Ingest`, `Slatepack`: the guarded ingest pipeline: in-place limiters
  refine limiters with a full history; each message is received at most once;
  nothing is lost to a limit or a hiccup.
- `Derive`, `Endpubs`, `Directory`: derived identities, rotation with an overlap
  window, and the key directory.
- `Calendar`, `Text`, `Timestamps`: the two date computations are the inverse of
  the Gregorian day count and agree, and printed timestamps order as time, which
  is why the ledger model may use integer seconds where the database compares text.
- `Uri`, `EnvFile`, `Strings`: printers and their inverses.

Assumptions, stated where they are used: a slate id handed over by the wallet was
neither received nor issued before, and a context is consumed by finalize or cancel
and never comes back (Grin's own guards); random ids are fresh and not empty; the
clock does not go back; the required depth is at least one; a webhook signature
verifies only over a body the server posted.

## Model

| member | source | states |
|---|---|---|
| `SafetyTasks.StepKeeps` | crates/gp-core/src/db.rs:14-30 | any statement of any actor, interleaved with all others, keeps the whole ledger invariant and never rewrites what is final |
| `Runs.ReachableHolds` | crates/gp-core/src/db.rs:14-30 | the invariant holds in every state of every run |
| `Runs.LinkedPaymentPaysExactly` | crates/gp-core/src/matching.rs:96-135 | amount binding on every rail and interleaving: a linked payment carries the expected amount, max(e, 0), casts included |
| `Runs.PayerIsFinal` | crates/gp-core/src/invoice.rs:307-324 | the paying payment is written once, no payment pays two invoices, an expired invoice is never paid |
| `Runs.PayerLinksBack` | crates/gp-core/src/matching.rs:125-135 | the paying row exists and, once its handler is done, links back to the invoice |
| `Modes.PaidThroughItsOwnMode` | crates/gp-core/src/matching.rs:82-202 | over every run, whoever paid an invoice was issued for it, or was received before and at some earlier moment fitted it, open, by the invoice's own mode: sent to its key, naming its reference, or of its amount and not past its expiry |
| `Expiry.NothingExpiresEarly` | crates/gp-core/src/invoice.rs:459-479 | in every state of every run an expired invoice has an expiry and it has passed |
| `Expiry.ReadExpiresExactly` | crates/gp-core/src/invoice.rs:269-276 | read or listed, an open invoice expires exactly when its expiry has come, and nothing else about it changes |
| `Expiry.SweepTakesExactlyTheOverdue` | crates/gp-server/src/foreign.rs:53-85 | a sweep whose cancels all succeed expires exactly the armed open invoices past their expiry |
| `Credit.CreditIsTrue` | crates/gp-core/src/matching.rs:77-135 | over every run an event's user is the one its payment row is credited to, and a receipt has user and amount of a payment received before, or is of an issued slate and has no user |
| `Runs.ConfirmedIsPaidInDepth` | crates/gp-server/src/payments.rs:146-152 | a confirmed invoice has a linked payment at the required depth, of its expected amount |
| `Runs.ConfirmedIsToldOnce` | crates/gp-server/src/payments.rs:163-226 | one `payment.confirmed` per confirmed invoice (while being queued, none yet), none for any other |
| `Order.ReceiptsComeFirstIffNoHaste` | crates/gp-server/src/payments.rs:146-226 | at statement grain every `payment.confirmed` comes after a `payment.received` for its invoice iff none is queued while all handlers that will announce that invoice are in flight |
| `Order.HasteIsOnTheSettleRail` | crates/gp-server/src/foreign.rs:153-168 | a payer gets the reply to a received slate only when its handler has returned; if so no received slate is reported deep before that, a confirmation it brings about follows that slate's own receipt, and only an issued slate can be confirmed first |
| `Order.HandlerGrainReceiptsComeFirst` | crates/gp-server/src/record.rs:103-123 | with whole handlers as steps the receipt always comes first |
| `Runs.SweptContextIsGone` | crates/gp-server/src/foreign.rs:53-85 | an invoice the sweep expired has no live wallet context, then and ever after |
| `Runs.ContextStaysGone` | crates/gp-server/src/foreign.rs:65-81 | a finalized, cancelled or lost context never comes back to life |
| `Races.SlateSettlesOnce` | crates/gp-core/src/invoice.rs:309-324 | each slate settles at most once, on every rail: at most one step of a run marks an invoice paid by it, its row exists, and it is announced at most once |
| `Handlers.SettlingTwiceIsSettlingOnce` | crates/gp-server/src/foreign.rs:234-260 | settling the same slate again changes nothing, with or without the wallet's own guard: no row, no flip, no announcement |
| `Runs.StepMovesStatus` | crates/gp-core/src/invoice.rs:402-412 | one step moves an invoice along at most one edge of open, paid, confirmed or open, expired |
| `Runs.HistoryIsLifeCycle` | crates/gp-core/src/invoice.rs:459-479 | every invoice's history is a prefix of open, paid, confirmed or of open, expired |
| `Runs.PaymentStatusMoves` | crates/gp-server/src/payments.rs:120-140 | a payment's status changes only to replied, by its reply, or to on-chain, by a depth recorded for it |
| `Told.ReachableTold` | crates/gp-server/src/record.rs:103-123 | conservation: a finished payment is announced once, truthfully, exactly when it was received plainly or it paid its invoice |
| `Races.ReceiptsAreSingleIffNoRaceWasLost` | crates/gp-core/src/matching.rs:125-135 | at rest, each paid invoice has exactly one `payment.received` and no other invoice any, iff no handler's mark_paid came too late |
| `Races.HandlerGrainTellsOnce` | crates/gp-server/src/record.rs:34-126 | with whole handlers as steps that is always so |
| `Readings.LetGoIffAReadingWasWasted` | crates/gp-server/src/payments.rs:146-152 | exactly when the poll has let go of a payment of a paid invoice: when an earlier step recorded it deep from a list entry naming no paid invoice |
| `Readings.StrandedIffAllReadingsWereWasted` | crates/gp-server/src/payments.rs:94-152 | a paid invoice is stranded iff that happened to every payment linked to it |
| `Stranding.QuietReadingsAreNotWasted` | crates/gp-server/src/payments.rs:98-104 | no such reading happens when no pass reads its list while a handler is mid-link |
| `Stranding.PaidInvoiceIsPolled` | crates/gp-server/src/payments.rs:94-104 | so under that schedule every payment linked to a paid invoice, and its payer, stay in the work list |
| `Stranding.HandlerGrainIsQuiet` | crates/gp-server/src/foreign.rs:234-260 | whole handlers as steps meet the condition under which that holds |
| `Counterexamples.AStaleListStrandsAPaidInvoice` | crates/gp-server/src/payments.rs:98-152 | a concrete run wastes a reading and ends at rest with a paid invoice the poll will never see |
| `Counterexamples.ALostRaceAnnouncesTwice` | crates/gp-core/src/matching.rs:125-135 | a concrete run in which the second payer's mark_paid changes nothing, its payment is linked all the same, and at rest one invoice has two `payment.received` |
| `Counterexamples.AConfirmationCanComeFirst` | crates/gp-server/src/foreign.rs:204-275 | a concrete run on the settle rail, where the transaction is posted before it is settled: the invoice is confirmed, and the news queued, before its receipt is |
| `Handlers.PersistAloneIsAtomic` | crates/gp-server/src/record.rs:34-126 | undisturbed, the statements of receive, match and notify add up to one transition on an invoice the queries may answer |
| `Handlers.SettleAloneIsAtomic` | crates/gp-server/src/foreign.rs:213-275 | the same for settling a finalized invoice slate |
| `Handlers.PasteSettlesItsOwnInvoice` | crates/gp-server/src/checkout.rs:480-509 | a paste routed to finalize settles the invoice of its page and no other, and is rejected afterwards |
| `Handlers.PasteIsRoutedByState` | crates/gp-server/src/checkout.rs:480-509 | a payment is always received, a response finalized exactly when it answers the open invoice of its page, anything else rejected |
| `Handlers.SettlesAtTheInvoicesFigure` | crates/gp-server/src/foreign.rs:226-250 | a settled slate is booked at its invoice's figure, max(e, 0), or without one at what was paid, if below 2^63 |
| `Passes.PassDeepens` | crates/gp-server/src/payments.rs:120-140 | a poll pass records exactly the depths read |
| `Passes.PassConfirmsExactly` | crates/gp-server/src/payments.rs:146-152 | a poll pass confirms exactly the paid invoices it reached at depth and changes no other |
| `Passes.PassTellsExactly` | crates/gp-server/src/payments.rs:168-226 | a poll pass queues one confirmation per invoice it confirms, drawn by the first reading that reaches it, and nothing else |
| `Passes.DeepPayerConfirms` | crates/gp-server/src/payments.rs:98-152 | a pass that reads a payment linked to a paid invoice at depth confirms the invoice |
| `Passes.NextPassConfirms` | crates/gp-server/src/payments.rs:94-152 | progress: once the payer of a paid invoice is deep, the next pass that starts with no handler mid-link confirms the invoice |
| `Passes.PassAloneIsAtomic` | crates/gp-server/src/payments.rs:89-161 | undisturbed, the statements of a pass add up to one reading per work item |
| `Passes.SweepExpiresExactly` | crates/gp-server/src/foreign.rs:65-82 | a sweep expires exactly the open invoices it cancelled |
| `Passes.SweptContextsAreGone` | crates/gp-server/src/foreign.rs:68-82 | whatever a sweep expires has lost its context; a failed cancel leaves the invoice open and due again |
| `Ledgers.OldestHitExists` | crates/gp-core/src/matching.rs:152-202 | a resolution query answers none exactly when no row qualifies |
| `Ledgers.Ledger.Create` | crates/gp-core/src/invoice.rs:223-247 | inserts the row and keeps insertion order in step with creation time |
| `Ledgers.Ledger.MarkPaid` | crates/gp-core/src/invoice.rs:309-324 | flips exactly an open invoice, and says whether it did |
| `Ledgers.Ledger.MarkConfirmed` | crates/gp-core/src/invoice.rs:402-412 | flips exactly a paid invoice, and says whether it did |
| `Ledgers.Ledger.MarkExpired` | crates/gp-core/src/invoice.rs:461-467 | flips exactly an open invoice, and says whether it did |
| `Ledgers.Ledger.Get` | crates/gp-core/src/invoice.rs:269-276 | what it returns is never open past its expiry, and what it expires is past it |
| `Handlers.ArmedSlateFindsItsInvoice` | crates/gp-core/src/invoice.rs:326-359 | a slate armed on an invoice is afterwards found by exactly that invoice |
| `Ledgers.Ledger.Resolve` | crates/gp-core/src/matching.rs:152-202 | answers an oldest open invoice whose own mode asks just this question, or none when there is none |
| `Ledgers.Ledger.MatchPayment` | crates/gp-core/src/matching.rs:70-142 | settles on the oldest invoice that suits the first question any invoice suits, or on none; then the guard, the flip, the link, and the outcome reported |
| `Resolution.ResolvesToTheFirst` | crates/gp-core/src/matching.rs:82-97 | the three queries in turn settle on exactly the oldest invoice that suits the first question (key, memo, amount) any invoice suits |
| `Resolution.FitsByItsOwnMode` | crates/gp-core/src/matching.rs:152-202 | what fitting means, the mode written out: sent to its own key, naming its reference, or of exactly its amount and not past its expiry |
| `Resolution.SettlesOnlyWhatFits` | crates/gp-core/src/matching.rs:82-97 | a payment settles only on an invoice it fits, and on none only when it fits none |
| `Ledgers.Ledger.PersistAndMatch` | crates/gp-server/src/record.rs:34-126 | the whole receive transition; a rejected payment leaves the tables as they were |
| `Ledgers.Ledger.IssuedInvoice` | crates/gp-core/src/invoice.rs:350-359 | finds an invoice the slate was issued for, or says there is none |
| `Ledgers.Ledger.SettleFinalized` | crates/gp-server/src/foreign.rs:213-275 | the whole settle transition, at the invoice's own amount, told on the flip only |
| `Ledgers.Ledger.FinalizeInvoice` | crates/gp-server/src/payments.rs:168-226 | confirms and tells on the transition only |
| `Ledgers.Ledger.ConfirmPending` | crates/gp-server/src/payments.rs:89-161 | the poll loop performs the pass, confirming exactly the paid invoices reached |
| `Ledgers.Ledger.SweepExpired` | crates/gp-server/src/foreign.rs:53-85 | the sweep loop performs the sweep; everything it expired has lost its context |
| `Discharge.PaysTheOldest` | crates/gp-core/src/matching.rs:186-202 | one payment left to the amount match pays an oldest awaiting invoice and touches no other |
| `Discharge.OldestFirst` | crates/gp-core/src/matching.rs:186-202 | in any series of equal payments each pays an awaiting invoice no other is older than, and none only when none is left; ties in any order |
| `Discharge.FifoDischarge` | crates/gp-core/src/matching.rs:82-135 | n equal payments pay exactly the n oldest awaiting invoices, the k-th the k-th, and change no other invoice |
| `Discharge.PaysIffBelowTwoTo63` | crates/gp-core/src/matching.rs:104-123 | an amount match pays iff the amount is below 2^63; above, the signed column matches but the guard refuses and nothing stays |
| `PlainSend.ReachableInserted` | crates/gp-core/src/invoice.rs:380-384 | in every run insertion order is strict and agrees with creation time |
| `PlainSend.GatePassesTheEarliest` | crates/gp-core/src/invoice.rs:370-395 | an invoice passes iff it is on the native rail, its amount is positive and no open one of that amount was inserted earlier |
| `PlainSend.GatePassesExactlyOne` | crates/gp-core/src/invoice.rs:361-395 | of the open native-rail invoices of a positive amount exactly one passes |
| `PlainSend.GateAgreesWithMatch` | crates/gp-core/src/matching.rs:186-202 | when all open invoices of the amount are of that kind, the one shown is one the match may pay, and the only one iff no other was created in that second |
| `Store.WebhookCompletesExactly` | connectors/woocommerce/goblinpay-woocommerce.php:401-491 | a webhook completes exactly the orders it is entitled to complete and changes no other |
| `Store.PollCompletesExactly` | connectors/woocommerce/goblinpay-woocommerce.php:504-535 | the status poll completes the asked order exactly when it is an unpaid gateway order with an invoice and the answer is confirmed, and changes nothing else |
| `Store.WindowCompletesOrCancels` | connectors/woocommerce/goblinpay-woocommerce.php:539-548 | when a window ends, a confirmed invoice still completes its order, any other unpaid gateway order is cancelled, and nothing else changes |
| `Store.ReplayIsHarmless` | connectors/woocommerce/goblinpay-woocommerce.php:401-500 | whatever happens in between, a replay leaves alone every order completed before or not bound anew since, and affects another exactly as a new request would |
| `Store.ReplayIsDedupedForAWeek` | connectors/woocommerce/goblinpay-woocommerce.php:424-432 | for 604800 seconds a replay is recognised by its event id and changes nothing, whatever the shop receives meanwhile; a second later it is a new request again |
| `Store.MarkedButUnprocessedIsLeftToThePoll` | connectors/woocommerce/goblinpay-woocommerce.php:424-432 | the marker is set first: a confirmation cut short after it is not completed by retries, only by the status poll, and only for a bound order |
| `Store.Plugin.HandleWebhook` | connectors/woocommerce/goblinpay-woocommerce.php:401-491 | the receiver step by step: effect and HTTP status |
| `Store.Plugin.PollInvoice` | connectors/woocommerce/goblinpay-woocommerce.php:504-535 | completes only on an answer of confirmed |
| `Store.Plugin.MaybeExpireOrder` | connectors/woocommerce/goblinpay-woocommerce.php:539-548 | the fallback step by step: poll once more, then cancel what still waits |
| `EndToEnd.DeliverKeepsOrders` | connectors/woocommerce/goblinpay-woocommerce.php:448-453 | a genuine webhook, however late or repeated, completes an order only for its own confirmed invoice |
| `EndToEnd.OrderCompletesOnceForMoneyInDepth` | connectors/woocommerce/goblinpay-woocommerce.php:401-548 | over any run an order completes at most once, and only for a confirmed invoice (the bound one) with a linked payment of its amount at the required depth |
| `EndToEnd.NewsOfAConfirmationCompletesTheOrder` | connectors/woocommerce/goblinpay-woocommerce.php:401-548 | progress: once the invoice an order awaits is confirmed, the next accepted delivery of the news, or the next answered status poll, the last one at the end of the window included, completes the order for that invoice and for good |
| `EndToEnd.NewsIsQueued` | crates/gp-server/src/payments.rs:163-226 | and with a webhook the news is in the server's queue, naming the invoice's order reference |
| `EndToEnd.CheckoutStartsTheWait` | connectors/woocommerce/goblinpay-woocommerce.php:201-300 | checkout leaves the order on hold, awaiting the invoice the server created for it, and every other order alone |
| `Dispatch.BackoffIsExact` | crates/gp-core/src/webhook.rs:190-198 | the clamped shift and saturating product give exactly min(30 * 2^(n-1), 3600) for every n |
| `Dispatch.TotalIsUnderAWeek` | crates/gp-core/src/webhook.rs:51-56 | all eleven waits come to 18210 seconds |
| `Dispatch.RetrySchedule` | crates/gp-core/src/webhook.rs:234-283 | over any run: at most twelve attempts, none after a success, no retry before its backoff; the counters tell the truth |
| `Dispatch.FetchListsWhatIsOwed` | crates/gp-core/src/webhook.rs:234-247 | over any run a fetch lists, each once and the longest due first, only deliveries without a success, with fewer than twelve tries and the last backoff over, by the log alone, and all of them unless it is full at twenty |
| `Dispatch.EnqueueIsAnArrival` | crates/gp-core/src/webhook.rs:209-232 | what the ledger queues arrives at the dispatcher untried and due at once |
| `Dispatch.WaitsAtLeast` | crates/gp-core/src/webhook.rs:261-283 | between two attempts lie all the backoffs in between |
| `Dispatch.LastPostIsInsideTheWindow` | connectors/woocommerce/goblinpay-woocommerce.php:424-432 | every schedule's last attempt falls inside the receiver's one-week dedupe window iff lateness and answer time come to at most 53326 s a retry |
| `Dispatch.MarkIsAnAttempt` | crates/gp-core/src/webhook.rs:249-283 | recording a result is a step of the ledger model: it never rewrites a body |
| `Fairness.FetchServesOrShrinks` | crates/gp-core/src/webhook.rs:234-247 | a fetch takes a given due delivery or twenty from ahead of it |
| `Fairness.TriedWithinItsTurn` | crates/gp-server/src/webhookd.rs:42-78 | a delivery already due, not delivered and tried fewer than twelve times, with k such at or ahead of it, is tried within ceil(k / 20) passes, whatever arrives meanwhile |
| `Fairness.AttemptsRunOut` | crates/gp-core/src/webhook.rs:249-283 | every recorded attempt strictly lowers the attempts left; an arrival adds twelve |
| `Fairness.DrainedIsNotDue` | crates/gp-core/src/webhook.rs:261-283 | what a pass tried is not due again by the second the pass began |
| `Fairness.Dispatcher.Drain` | crates/gp-server/src/webhookd.rs:42-78 | the loop tries every delivery of the batch once and touches no other |
| `Calendar.CivilCountsBack` | crates/gp-core/src/webhook.rs:299-312 | for every integer the date is valid and its Gregorian day count is that integer |
| `Calendar.CountsBackToCivil` | crates/gp-core/src/webhook.rs:299-312 | and back, for every valid date |
| `Calendar.NextIsNextDay` | crates/gp-core/src/webhook.rs:299-312 | successive integers are successive calendar days |
| `Calendar.ImplementationsAgree` | crates/gp-server/src/payments.rs:366-376 | the truncating and the Euclidean computation agree on every integer |
| `Timestamps.PrintersAgree` | crates/gp-server/src/payments.rs:361-379 | the two timestamp printers agree on every instant |
| `Timestamps.StampReadsBack` | crates/gp-core/src/webhook.rs:287-312 | in the years 0 to 9999 a printed text reads back, field by field and separator by separator, to a valid date and time of day that are the instant |
| `Timestamps.EarlierYearsReadBack` | crates/gp-core/src/webhook.rs:287-312 | so does a year before 0, printed with a sign and three digits |
| `Timestamps.TextOrderIsTimeOrder` | crates/gp-core/src/webhook.rs:287-297 | in the years 0 to 9999 printed timestamps order, and are equal, as the instants are |
| `Limiter.AdmitRefines` | crates/gp-nostr/src/ingest.rs:311-319 | trimming in place decides like the full history |
| `Limiter.SenderRefines` | crates/gp-nostr/src/ingest.rs:311-324 | so does trimming with pruning of the map |
| `Limiter.PruneIsHarmless` | crates/gp-nostr/src/ingest.rs:320-322 | pruning forgets nothing either limiter could still count |
| `Limiter.AtMostCapInAnyWindow` | crates/gp-nostr/src/ingest.rs:26-34 | spaced accepts put at most the cap in any stretch of a window's length |
| `Limiter.AdmitsBelowTheLimit` | crates/gp-nostr/src/ingest.rs:310-337 | a sender is let through with fewer than 10 accepted times in the last 3600 s, an unwrap with fewer than 120 in the last 60 s |
| `Limiter.MemoryIsBounded` | crates/gp-nostr/src/ingest.rs:310-337 | no key keeps more times than its limit, and with more than 10000 keys only those with a time in the last hour stay |
| `Ingest.BuiltMessagesAreWelcome` | crates/gp-nostr/src/ingest.rs:60-75 | a message built around one well-delimited slatepack is received unless it is our own or already seen |
| `Ingest.OutcomesAreExact` | crates/gp-nostr/src/ingest.rs:172-300 | what each outcome means: received or failed exactly when the wallet is reached and says so |
| `Ingest.WalletIsReachedExactly` | crates/gp-nostr/src/ingest.rs:60-75 | the wallet is reached exactly by a gift wrap of at most 65536 bytes for us that opens to a direct message of at most 32768 from someone else with one slatepack, neither id seen, both limits admitting it |
| `Ingest.WalletGetsTheOnlyBlock` | crates/gp-nostr/src/ingest.rs:212-265 | in any state of the pipeline the wallet is handed exactly the one complete block of such a message, of at most 30720 bytes |
| `Ingest.MarksAreExact` | crates/gp-nostr/src/ingest.rs:172-300 | exactly what is marked: nothing that may be tried again, both ids of what was opened and settled, the wrap's alone otherwise |
| `Ingest.RateLimitedExactly` | crates/gp-nostr/src/ingest.rs:186-253 | the answer is rate-limited exactly when the unwrap ceiling is reached, or the message would be received and its sender's limit is |
| `Ingest.ReceivedOnce` | crates/gp-nostr/src/ingest.rs:266-284 | each wrap id and each rumor id is received at most once per run and never reaches the wallet again |
| `Ingest.MarkedNeverReaches` | crates/gp-nostr/src/ingest.rs:302-308 | a marked id never reaches the wallet |
| `Ingest.AcceptedMeansHandedOver` | crates/gp-nostr/src/ingest.rs:248-265 | a sender's accepted times are exactly those at which the wallet is handed a message of theirs |
| `Ingest.LimitersKeepTheirWord` | crates/gp-nostr/src/ingest.rs:310-337 | over any run, of the times the pipeline's own map lets through: at most 10 per sender in any 3600 s and 120 unwraps in any 60 s; and that map decides like the full list of them |
| `Ingest.RetryReachesWallet` | crates/gp-nostr/src/ingest.rs:248-253 | an unmarked payable wrap reaches the wallet after an hour's quiet, so a limit or hiccup loses nothing |
| `Ingest.Pipeline.AllowSender` | crates/gp-nostr/src/ingest.rs:310-324 | decides and updates the map as specified, pruning included |
| `Ingest.Pipeline.AllowGlobalUnwrap` | crates/gp-nostr/src/ingest.rs:326-337 | the same for the global window |
| `Ingest.Pipeline.HandleWrap` | crates/gp-nostr/src/ingest.rs:172-300 | the pipeline step by step |
| `Slatepack.ExtractsTheOnlyBlock` | crates/gp-nostr/src/protocol.rs:64-87 | extraction yields the first block exactly when the sizes fit and no complete block follows |
| `Slatepack.NoBlockNoArmor` | crates/gp-nostr/src/protocol.rs:72-73 | without a complete block nothing is extracted |
| `Slatepack.TwoBlocksAreRefused` | crates/gp-nostr/src/protocol.rs:75-81 | two complete blocks in a row are refused |
| `Slatepack.ExtractUndoesBuild` | crates/gp-nostr/src/protocol.rs:47-87 | a built message gives back its trimmed armor iff that is one well-delimited block within the limit |
| `Endpubs.TickRotatesExactlyTheDue` | crates/gp-core/src/endpub.rs:163-198 | a tick rotates exactly the users whose clock has run out, once each |
| `Endpubs.RotateDueKeepsComplete` | crates/gp-core/src/endpub.rs:141-198 | assigned epochs stay exactly 0 to the current one |
| `Endpubs.WatchesTheLastEpochs` | crates/gp-core/src/endpub.rs:200-214 | exactly the last min(overlap, epoch) + 1 epochs are watched |
| `Endpubs.OldEndpubsStillCredit` | crates/gp-core/src/endpub.rs:216-229 | every endpub ever assigned credits its own user and epoch and no other |
| `Endpubs.WatchedLongEnough` | crates/gp-core/src/endpub.rs:163-214 | under automatic rotation each endpub is watched at least (overlap + 1) intervals |
| `Endpubs.Registry.AssignEpoch` | crates/gp-core/src/endpub.rs:75-101 | idempotent assignment |
| `Endpubs.Registry.CreateUser` | crates/gp-core/src/endpub.rs:52-73 | a new user starts at epoch 0 under its own key; a taken id changes nothing |
| `Endpubs.Registry.Rotate` | crates/gp-core/src/endpub.rs:141-161 | advances one epoch and assigns its key |
| `Endpubs.Registry.RotateAllDue` | crates/gp-core/src/endpub.rs:163-198 | the loop performs the tick and counts the users rotated |
| `Derive.FirstPreimagesAreDistinct` | crates/gp-core/src/derive.rs:63-73 | first-attempt preimages differ over all invoice ids, tenants and epochs below 2^56 |
| `Derive.DomainsAreSeparate` | crates/gp-core/src/derive.rs:63-73 | an invoice and an endpub never hash the same bytes, at any counters |
| `Derive.PreimagesCollideIff` | crates/gp-core/src/derive.rs:30-50 | with the retry counter, two attempts hash the same bytes iff one is a tenant's first and the other a retry that splits into it |
| `Derive.AllPreimagesAreDistinct` | crates/gp-core/src/derive.rs:30-50 | so never for tenant ids without NUL bytes |
| `Derive.SecretsCollideIff` | crates/gp-core/src/derive.rs:30-50 | under a hash without collisions two identities derive the same secret iff the attempts they settle on do so |
| `Derive.NulBytesCanCollide` | crates/gp-core/src/derive.rs:41-46 | that can happen, in theory only: it takes NUL bytes in a tenant id, an epoch above 2^32 and a digest that is no valid scalar |
| `Derive.ChildSecret` | crates/gp-core/src/derive.rs:30-50 | rejection sampling returns the digest of the one first valid attempt |
| `Directory.WatchedKeysResolve` | crates/gp-server/src/directory.rs:51-71 | a key resolves iff it is watched, and then to the key pair with that public key, even across changes of the default mode |
| `Directory.OpenInvoicesCanBePaid` | crates/gp-server/src/directory.rs:51-121 | under one default mode the key of every open invoice, of whatever mode, is watched and resolves to itself |
| `Directory.KeysAreDistinctIffNoRetryOverlaps` | crates/gp-core/src/derive.rs:30-101 | over all retries, a hash and public key without collisions give all invoices and endpubs on record different keys iff no tenant's retry overlaps another's first attempt |
| `Directory.SeparateDomainsGiveDistinctKeys` | crates/gp-core/src/derive.rs:63-101 | so they differ when no tenant id holds a NUL byte, at any retry, and when every derivation succeeds at once, whatever the ids |
| `Directory.WatchedKeysAreUnambiguous` | crates/gp-server/src/directory.rs:78-121 | under one default mode the snapshot holds exactly the secret of the identity behind each key |
| `Directory.NoOtherKeyIsWatched` | crates/gp-server/src/directory.rs:78-121 | and no key but those of the open invoices paid to their own key, by their mode or the default, and of the watched endpubs |
| `Directory.DerivedKeyHitsOneInvoice` | crates/gp-core/src/matching.rs:152-167 | a payment to a derived invoice's key is matched to that invoice only |
| `Directory.KeyDirectory.Build` | crates/gp-server/src/directory.rs:78-121 | the two loops build such a snapshot |
| `Directory.KeyDirectory.Maintain` | crates/gp-server/src/directory.rs:133-149 | a maintenance tick rotates, then publishes a fresh snapshot |
| `Uri.ParseUndoesPrint` | crates/gp-core/src/webhook.rs:85-95 | the printed grin amount determines the nanogrin amount, and its decimals do not end in a zero |
| `Uri.DecodeUndoesEncode` | crates/gp-server/src/checkout.rs:239-253 | percent-decoding (section 2.1 of RFC 3986) undoes the encoder on all bytes |
| `Uri.EncodedIsPlain` | crates/gp-server/src/checkout.rs:239-253 | an encoded value holds unreserved characters (section 2.3 of RFC 3986, by their codes) and percent signs only, and a text of such characters is left as it is |
| `Uri.DecodeUndoesPayUri` | crates/gp-server/src/checkout.rs:203-237 | the pay-URI determines profile, positive amount and trimmed memo |
| `Uri.EncodeAll` | crates/gp-server/src/checkout.rs:242-253 | the encoder's loop |
| `Uri.BuildUri` | crates/gp-server/src/checkout.rs:217-237 | the builder's steps give a URI that decodes to what was meant |
| `EnvFile.ParseUndoesRender` | crates/gp-core/src/setup.rs:430-529 | reading the rendered file back gives every key once with its exact value, in all restart shapes, iff every answer is trimmed and newline-free |
| `EnvFile.LookupFindsEachValue` | crates/gp-server/src/setup.rs:941-953 | looked up by key, the file gives each setting exactly its value and no other key |
| `EnvFile.ListsReadBack` | crates/gp-core/src/config.rs:386-391 | the comma-separated lists, read as the server reads its relays, are the lists that were given |
| `EnvFile.ParsedSettingsAreClean` | crates/gp-core/src/setup.rs:317-338 | whatever the text, every key read is trimmed and not blank, every value trimmed |
| `EnvFile.RailIffAskedAndNoSecrets` | crates/gp-core/src/setup.rs:513-529 | `GP_GRIN1_RAIL=on` is there iff asked for; neither seed nor wallet password is a key |
| `EnvFile.ParseAll` | crates/gp-core/src/setup.rs:317-338 | the parser's loop |
| `EnvFile.RenderAll` | crates/gp-core/src/setup.rs:430-529 | the renderer's appends |

## Left out

- Cryptography (Grin slates, Nostr encryption, signatures, hashes, curve points): abstract; a slate is an id, an amount and a kernel, a derivation is a function assumed free of collisions where that matters.
- Database errors, logged and swallowed by the handlers, and crashes between two statements: every statement succeeds.
- Transport (relays, Tor, HTTP), pages, QR codes, setup prompts, fiat rates and the Medusa connector: nothing here depends on them.
- Which of several rows with equal sort keys a query returns: any of them may come back.
- Several confirmation polls or sweeps at once: each is one task, as the server spawns it.
- Promises the code does not make and the model therefore does not prove: lazy expiry does not cancel a wallet context, a confirmed invoice's own payer need not be the deep payment, and a payment's status is not monotone since marking it replied is unguarded. The `slate:` marker of the ingest pipeline is written and never read.
- Order notes and the transaction id of the connector, and how PHP casts an order reference to an integer: the cast is a parameter. A store takes payment only for an order that still needs it.
- Connector handlers at statement grain: each runs as one step, so that at most one of a webhook and a status poll running side by side completes an order is the work of WooCommerce's own `payment_complete`, which is not part of this model.
- Ordering between a store's record of an invoice and the server's: a checkout may bind any invoice id.
- TriedWithinItsTurn: assumes the delivery fell due strictly before the first of the passes, because a delivery queued in the same second may be sorted ahead of it.
- LastPostIsInsideTheWindow: speaks of bounds on how late a retry is sent and how long an answer takes; the source gives none for a dispatcher that is not running.
- HasteIsOnTheSettleRail: takes it as given that a received slate is reported deep only after its handler has returned. The reply a restart sends for a payment whose handler was cut short is outside the model, as crashes are.
- CivilCountsBack: integers are unbounded; the overflow of the 64-bit sum near the ends of its range is not modelled.
- TextOrderIsTimeOrder: stated of the server's own printers; that the database prints its current time in the same format is assumed.
- ReceivedOnce: wraps are handled one after the other, as the ingest loop does.
- HandleWrap: a sender is never the reserved key of the global window, since it is a public key in hex.
- ChildSecret: is given that some counter yields a valid scalar; the source panics otherwise.
- ListsReadBack: the server also folds the currencies to lower case, which is not modelled.
- WatchedLongEnough: covers runs without forced rotation and without changes of the user's interval.
- Rotation at statement grain: a user row and its new endpub row are written in one step here.
- ExtractUndoesBuild: white space trimmed is ASCII white space; the wider Unicode classes are not modelled.
- DecodeUndoesPayUri: the memo is trimmed of ASCII white space only.
- ParseUndoesRender: the wording of comment lines is a parameter, any text without newlines.
- FifoDischarge: assumes distinct creation seconds among the awaiting invoices and no expiry among them meanwhile; `Discharge.OldestFirst` drops the first assumption.
