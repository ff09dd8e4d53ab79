/** The webhook dispatcher: due batches, retries with exponential backoff, and
    the attempt ceiling, while new deliveries keep arriving. */
module Dispatch {
  import opened Common
  import opened Tables
  import opened Interleaving

  const BACKOFF_BASE: int := 30
  const BACKOFF_CAP: int := 3600
  const MAX_ATTEMPTS: int := 12
  const BATCH: nat := 20

  // ------------------------------------------------------------------ backoff

  function Min(a: int, b: int): int {
    if a <= b then a else b
  }

  function Pow2(n: nat): (p: nat)
    ensures p >= 1
  {
    if n == 0 then 1 else 2 * Pow2(n - 1)
  }

  /** Rust's `saturating_mul` on `i64`. */
  function SaturatingMul(a: int, b: int): i64 {
    if a * b >= TWO_63 then TWO_63 - 1 else if a * b < -TWO_63 then -TWO_63 else a * b
  }

  function BackoffSecs(attempts: int): int {
    if attempts <= 0 then 0
    else Min(SaturatingMul(BACKOFF_BASE, Pow2(Min(attempts - 1, 20))), BACKOFF_CAP)
  }

  lemma {:induction false} Pow2Grows(a: nat, b: nat)
    requires a <= b
    ensures Pow2(a) <= Pow2(b)
  {
    if a < b { Pow2Grows(a, b - 1); }
  }

  lemma SmallPowers()
    ensures Pow2(1) == 2 && Pow2(2) == 4 && Pow2(3) == 8 && Pow2(4) == 16 && Pow2(5) == 32 && Pow2(6) == 64
    ensures Pow2(7) == 128 && Pow2(20) == 0x10_0000
  {
    assert Pow2(10) == 1024 by { assert Pow2(5) == 32; }
    assert Pow2(15) == 32768;
  }

  /** The clamped shift and the saturating product never show: the delay is
      exactly min(30 * 2^(attempts - 1), 3600) for every attempt count. */
  lemma BackoffIsExact(attempts: int)
    requires attempts >= 1
    ensures BackoffSecs(attempts) == Min(30 * Pow2(attempts - 1), 3600)
    ensures 30 <= BackoffSecs(attempts) <= 3600
  {
    SmallPowers();
    if attempts - 1 > 20 {
      Pow2Grows(20, attempts - 1);
    } else {
      Pow2Grows(attempts - 1, 20);
    }
  }

  /** All the waiting scheduled by the first n failures. */
  function TotalBackoff(n: nat): (t: nat)
  {
    if n == 0 then 0 else TotalBackoff(n - 1) + if BackoffSecs(n) >= 0 then BackoffSecs(n) else 0
  }

  lemma {:induction false} TotalGrows(a: nat, b: nat)
    requires a <= b
    ensures TotalBackoff(a) <= TotalBackoff(b)
  {
    if a < b { TotalGrows(a, b - 1); }
  }

  /** The eleven waits between twelve attempts come to 18210 seconds. */
  lemma TotalIsUnderAWeek(n: nat)
    requires n < MAX_ATTEMPTS
    ensures TotalBackoff(n) <= TotalBackoff(11) == 18210 < 604800
  {
    SmallPowers();
    assert BackoffSecs(1) == 30 && BackoffSecs(2) == 60 && BackoffSecs(3) == 120 && BackoffSecs(4) == 240;
    assert BackoffSecs(5) == 480 && BackoffSecs(6) == 960 && BackoffSecs(7) == 1920;
    forall k | 8 <= k ensures BackoffSecs(k) == 3600 {
      BackoffIsExact(k);
      Pow2Grows(7, k - 1);
    }
    assert TotalBackoff(4) == 450;
    assert TotalBackoff(7) == 3810;
    assert TotalBackoff(11) == 18210;
    TotalGrows(n, 11);
  }

  // --------------------------------------------------------- queue statements

  predicate Retryable(d: Delivery) {
    !d.delivered && d.attempts < MAX_ATTEMPTS
  }

  predicate DueNow(q: map<EventId, Delivery>, now: int, e: EventId) {
    e in q && Retryable(q[e]) && q[e].next <= now
  }

  /** `ORDER BY next_attempt_at LIMIT 20`, ties in any order. */
  ghost predicate DueBatch(q: map<EventId, Delivery>, now: int, batch: seq<EventId>) {
    && |batch| <= BATCH
    && (forall k :: 0 <= k < |batch| ==> DueNow(q, now, batch[k]))
    && (forall j, k :: 0 <= j < k < |batch| ==> batch[j] != batch[k] && q[batch[j]].next <= q[batch[k]].next)
    && (forall e :: DueNow(q, now, e) && e !in batch ==>
         |batch| == BATCH && forall k :: 0 <= k < |batch| ==> q[batch[k]].next <= q[e].next)
  }

  function Tried(d: Delivery, ok: bool, now: int): Delivery {
    if ok then d.(delivered := true, attempts := d.attempts + 1)
    else d.(attempts := d.attempts + 1, next := now + BackoffSecs(d.attempts + 1))
  }

  // ------------------------------------------------------------ the dispatcher

  /** One POST: when it was sent, when its result was recorded, and the result. */
  datatype Try = Try(sent: int, marked: int, ok: bool)

  datatype Flight = Flight(id: EventId, sent: int)

  /** `batch` is what is left of the current pass, `log` every POST ever made. */
  datatype Worker = Worker(
    now: int,
    queue: map<EventId, Delivery>,
    batch: seq<EventId>,
    inflight: Option<Flight>,
    log: map<EventId, seq<Try>>)

  datatype Act =
    | Wait(now: int)
    | Arrive(id: EventId, event: Event)
    | Fetch(batch: seq<EventId>)
    | Send
    | Mark(ok: bool)

  ghost predicate WorkerStep(w: Worker, a: Act, w': Worker) {
    match a
    case Wait(now) =>
      w.now <= now && w' == w.(now := now)
    case Arrive(id, event) =>
      && id !in w.queue
      && w' == w.(queue := w.queue[id := Delivery(event, 0, false, w.now)], log := w.log[id := []])
    case Fetch(batch) =>
      w.batch == [] && w.inflight.None? && DueBatch(w.queue, w.now, batch) && w' == w.(batch := batch)
    case Send =>
      && w.batch != [] && w.inflight.None?
      && w' == w.(batch := w.batch[1..], inflight := Some(Flight(w.batch[0], w.now)))
    case Mark(ok) =>
      w.inflight.Some? &&
      var f := w.inflight.value;
      && f.id in w.queue && f.id in w.log
      && w' == w.(queue := w.queue[f.id := Tried(w.queue[f.id], ok, w.now)],
                  log := w.log[f.id := w.log[f.id] + [Try(f.sent, w.now, ok)]],
                  inflight := None)
  }

  predicate WorkerInit(w: Worker) {
    w.queue == map[] && w.log == map[] && w.batch == [] && w.inflight.None?
  }

  ghost predicate WorkerRun(ws: seq<Worker>, acts: seq<Act>) {
    && |ws| == |acts| + 1
    && WorkerInit(ws[0])
    && forall k {:trigger acts[k]} :: 0 <= k < |acts| ==> WorkerStep(ws[k], acts[k], ws[k + 1])
  }

  // --------------------------------------------------------- the retry schedule

  /** The schedule one delivery has kept: at most twelve attempts, none after a
      success, each retry no earlier than its backoff after the failure. */
  ghost predicate Scheduled(l: seq<Try>) {
    && |l| <= MAX_ATTEMPTS
    && (forall k :: 0 <= k < |l| ==> l[k].sent <= l[k].marked)
    && (forall k :: 0 <= k < |l| - 1 ==> !l[k].ok)
    && (forall k :: 0 <= k < |l| - 1 ==> l[k].marked + BackoffSecs(k + 1) <= l[k + 1].sent)
  }

  ghost predicate RowHolds(now: int, d: Delivery, l: seq<Try>) {
    && Scheduled(l)
    && d.attempts == |l|
    && (d.delivered <==> l != [] && l[|l| - 1].ok)
    && (l == [] ==> d.next <= now)
    && (l != [] ==> l[|l| - 1].marked <= now)
    && (l != [] && !d.delivered ==> d.next == l[|l| - 1].marked + BackoffSecs(|l|))
  }

  predicate InFlight(q: map<EventId, Delivery>, now: int, f: Flight) {
    f.id in q && Retryable(q[f.id]) && q[f.id].next <= f.sent <= now
  }

  ghost predicate WorkerHolds(w: Worker) {
    && w.log.Keys == w.queue.Keys
    && (forall e :: e in w.queue ==> RowHolds(w.now, w.queue[e], w.log[e]))
    && (forall k :: 0 <= k < |w.batch| ==> DueNow(w.queue, w.now, w.batch[k]))
    && (forall j, k :: 0 <= j < k < |w.batch| ==> w.batch[j] != w.batch[k])
    && (w.inflight.Some? ==> w.inflight.value.id !in w.batch && InFlight(w.queue, w.now, w.inflight.value))
  }

  lemma TryKeepsRow(now: int, d: Delivery, l: seq<Try>, sent: int, ok: bool)
    requires RowHolds(now, d, l) && Retryable(d) && d.next <= sent <= now
    ensures RowHolds(now, Tried(d, ok, now), l + [Try(sent, now, ok)])
  {
  }

  lemma MarkKeepsWorker(w: Worker, ok: bool, w': Worker)
    requires WorkerHolds(w) && WorkerStep(w, Mark(ok), w')
    ensures WorkerHolds(w')
  {
    var f := w.inflight.value;
    TryKeepsRow(w.now, w.queue[f.id], w.log[f.id], f.sent, ok);
  }

  lemma StepKeepsWorker(w: Worker, a: Act, w': Worker)
    requires WorkerHolds(w) && WorkerStep(w, a, w')
    ensures WorkerHolds(w')
  {
    match a
    case Mark(ok) => MarkKeepsWorker(w, ok, w');
    case _ =>
  }

  lemma {:induction false} ReachableWorkerHolds(ws: seq<Worker>, acts: seq<Act>, k: nat)
    requires WorkerRun(ws, acts) && k < |ws|
    ensures WorkerHolds(ws[k])
  {
    if k > 0 {
      ReachableWorkerHolds(ws, acts, k - 1);
      assert WorkerStep(ws[k - 1], acts[k - 1], ws[k]);
      StepKeepsWorker(ws[k - 1], acts[k - 1], ws[k]);
    }
  }

  /** Over any run every delivery keeps the retry schedule, and its counters say
      exactly how often it was posted and whether the last POST succeeded. */
  lemma RetrySchedule(ws: seq<Worker>, acts: seq<Act>, k: nat, e: EventId)
    requires WorkerRun(ws, acts) && k < |ws| && e in ws[k].queue
    ensures e in ws[k].log && Scheduled(ws[k].log[e])
    ensures ws[k].queue[e].attempts == |ws[k].log[e]|
    ensures ws[k].queue[e].delivered <==> exists j :: 0 <= j < |ws[k].log[e]| && ws[k].log[e][j].ok
  {
    ReachableWorkerHolds(ws, acts, k);
    assert RowHolds(ws[k].now, ws[k].queue[e], ws[k].log[e]);
  }

  /** What the log alone says is owed: no success, fewer than twelve tries, and the
      backoff after the last of them over; an untried delivery is owed at once. */
  predicate Owed(now: int, l: seq<Try>) {
    && (forall j :: 0 <= j < |l| ==> !l[j].ok)
    && |l| < 12
    && (l != [] ==> l[|l| - 1].marked + BackoffSecs(|l|) <= now)
  }

  /** A fetch lists exactly what is owed: nothing else, each once, the longest due
      first, and all of it unless the batch is full at twenty. */
  lemma FetchListsWhatIsOwed(ws: seq<Worker>, acts: seq<Act>, k: nat, e: EventId, batch: seq<EventId>)
    requires WorkerRun(ws, acts) && k < |ws| && DueBatch(ws[k].queue, ws[k].now, batch)
    ensures |batch| <= 20
    ensures forall i, j :: 0 <= i < j < |batch| ==>
              && batch[i] != batch[j] && batch[i] in ws[k].queue && batch[j] in ws[k].queue
              && ws[k].queue[batch[i]].next <= ws[k].queue[batch[j]].next
    ensures e in batch ==> e in ws[k].log && Owed(ws[k].now, ws[k].log[e])
    ensures e in ws[k].log && Owed(ws[k].now, ws[k].log[e]) && |batch| < 20 ==> e in batch
  {
    ReachableWorkerHolds(ws, acts, k);
    if e in ws[k].queue {
      assert RowHolds(ws[k].now, ws[k].queue[e], ws[k].log[e]);
    }
  }

  /** Retries never come early: between two attempts lie at least all the backoffs
      in between. */
  lemma {:induction false} WaitsAtLeast(l: seq<Try>, j: nat, k: nat)
    requires Scheduled(l) && j <= k < |l|
    ensures l[j].sent + TotalBackoff(k) - TotalBackoff(j) <= l[k].sent
  {
    if j < k {
      WaitsAtLeast(l, j, k - 1);
      BackoffIsExact(k);
    }
  }

  /** A dispatcher that sends each retry at most `late` seconds after it falls due
      and waits at most `slow` seconds for an answer. */
  predicate Punctual(l: seq<Try>, late: nat, slow: nat) {
    && (forall k :: 0 <= k < |l| ==> l[k].marked <= l[k].sent + slow)
    && (forall k :: 0 <= k < |l| - 1 ==> l[k + 1].sent <= l[k].marked + BackoffSecs(k + 1) + late)
  }

  lemma {:induction false} WaitsAtMost(l: seq<Try>, late: nat, slow: nat, k: nat)
    requires Scheduled(l) && Punctual(l, late, slow) && k < |l|
    ensures l[k].sent <= l[0].sent + TotalBackoff(k) + k * (late + slow)
  {
    if k > 0 {
      WaitsAtMost(l, late, slow, k - 1);
      BackoffIsExact(k);
      assert k * (late + slow) == (k - 1) * (late + slow) + (late + slow);
    }
  }

  lemma ScaleUp(a: nat, b: nat, c: nat)
    requires a <= b
    ensures a * c <= b * c
  {
  }

  /** A delivery is posted for the last time within 18210 seconds of the first, plus
      its lateness. */
  lemma LastPostComesSoon(l: seq<Try>, late: nat, slow: nat, k: nat)
    requires Scheduled(l) && Punctual(l, late, slow) && k < |l|
    ensures l[k].sent <= l[0].sent + 18210 + 11 * (late + slow)
  {
    WaitsAtMost(l, late, slow, k);
    TotalIsUnderAWeek(k);
    ScaleUp(k, 11, late + slow);
  }

  /** The latest schedule the bounds allow: every retry as late, every answer as slow
      as can be. */
  function LatestAt(k: nat, late: nat, slow: nat): int {
    TotalBackoff(k) + k * (late + slow)
  }

  lemma LatestSchedule(late: nat, slow: nat) returns (l: seq<Try>)
    ensures |l| == MAX_ATTEMPTS && Scheduled(l) && Punctual(l, late, slow)
    ensures l[11].sent == l[0].sent + 18210 + 11 * (late + slow)
  {
    l := seq(12, k requires 0 <= k < 12 => Try(LatestAt(k, late, slow), LatestAt(k, late, slow) + slow, false));
    forall k | 0 <= k < 11 ensures LatestAt(k + 1, late, slow) == LatestAt(k, late, slow) + BackoffSecs(k + 1) + late + slow {
      BackoffIsExact(k + 1);
      assert (k + 1) * (late + slow) == k * (late + slow) + (late + slow);
    }
    TotalIsUnderAWeek(11);
  }

  /** Every POST of every schedule within these bounds falls inside the receiver's
      one-week dedupe window if and only if lateness and answer time come to at most
      53326 seconds a retry. */
  lemma LastPostIsInsideTheWindow(late: nat, slow: nat)
    ensures (forall l: seq<Try>, k :: Scheduled(l) && Punctual(l, late, slow) && 0 <= k < |l| ==> l[k].sent - l[0].sent < 604800) <==>
            late + slow <= 53326
  {
    if late + slow <= 53326 {
      forall l: seq<Try>, k | Scheduled(l) && Punctual(l, late, slow) && 0 <= k < |l| ensures l[k].sent - l[0].sent < 604800 {
        LastPostComesSoon(l, late, slow, k);
      }
    } else {
      var l := LatestSchedule(late, slow);
      assert 0 <= 11 < |l| && l[11].sent - l[0].sent >= 604800;
    }
  }

  /** What the ledger queues arrives here, untried and owed at once. */
  lemma EnqueueIsAnArrival(db: Db, w: Worker, e: EventId, event: Event)
    requires w.queue == db.queue && w.now == db.now && e !in db.queue
    ensures var queue := Enqueue(db, e, event).queue;
            WorkerStep(w, Arrive(e, event), w.(queue := queue, log := w.log[e := []])) && DueNow(queue, db.now, e)
  {
  }

  /** Marking a result is a queue step of the ledger model: it rewrites the retry
      bookkeeping and never the body. */
  lemma MarkIsAnAttempt(cfg: Config, s: Sys, w: Worker, ok: bool, w': Worker)
    requires w.queue == s.db.queue && WorkerStep(w, Mark(ok), w')
    ensures var e := w.inflight.value.id;
            && e in w'.queue
            && Step(cfg, s, Attempt(e, w'.queue[e]), s.(db := s.db.(queue := w'.queue)))
  {
  }
}
