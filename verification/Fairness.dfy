/** No starvation and no endless work in the dispatcher. */
module Fairness {
  import opened Common
  import opened Tables
  import opened Dispatch
  import opened Sets

  // ------------------------------------------------------------- no starvation

  /** Not delivered yet, and tried fewer than twelve times. */
  predicate Unfinished(d: Delivery) {
    !d.delivered && d.attempts < 12
  }

  /** Deliveries that would be fetched no later than one due at `at`, and are not
      yet part of the pass under way. */
  ghost function Ahead(w: Worker, at: int): set<EventId> {
    set x | x in w.queue && Unfinished(w.queue[x]) && w.queue[x].next <= at
            && x !in w.batch && (w.inflight.Some? ==> x != w.inflight.value.id)
  }

  /** e has not been tried since its count was n, and is not about to be. */
  predicate Waiting(w: Worker, e: EventId, n: int, at: int) {
    && e in w.queue && Unfinished(w.queue[e]) && w.queue[e].attempts == n && w.queue[e].next == at
    && e !in w.batch && (w.inflight.Some? ==> e != w.inflight.value.id)
  }

  /** The batch under way (or its request in flight) contains e. */
  predicate Taken(w: Worker, e: EventId, n: int, at: int) {
    && e in w.queue && Unfinished(w.queue[e]) && w.queue[e].attempts == n && w.queue[e].next == at
    && (e in w.batch || (w.inflight.Some? && e == w.inflight.value.id))
  }

  predicate Served(w: Worker, e: EventId, n: int) {
    e in w.queue && w.queue[e].attempts > n
  }

  /** Steps other than a fetch never put anything ahead of e: arrivals and retries
      are scheduled after every delivery that is already due. */
  lemma OthersStayBehind(w: Worker, a: Act, w': Worker, e: EventId, n: int, at: int)
    requires WorkerHolds(w) && WorkerStep(w, a, w') && !a.Fetch? && at < w.now
    requires Waiting(w, e, n, at)
    ensures Waiting(w', e, n, at) && Ahead(w', at) <= Ahead(w, at) && at < w'.now
  {
    if a.Mark? {
      BackoffIsExact(w.queue[w.inflight.value.id].attempts + 1);
    }
  }

  lemma {:induction false} DistinctCount(batch: seq<EventId>)
    requires forall j, k :: 0 <= j < k < |batch| ==> batch[j] != batch[k]
    ensures |set x | x in batch| == |batch|
  {
    if batch != [] {
      var n := |batch| - 1;
      DistinctCount(batch[..n]);
      assert (set x | x in batch) == (set x | x in batch[..n]) + {batch[n]};
    }
  }

  /** A fetch either takes e or takes twenty deliveries from ahead of it. */
  lemma FetchServesOrShrinks(w: Worker, batch: seq<EventId>, w': Worker, e: EventId, n: int, at: int)
    requires WorkerHolds(w) && WorkerStep(w, Fetch(batch), w') && at < w.now
    requires Waiting(w, e, n, at)
    ensures Taken(w', e, n, at) || (Waiting(w', e, n, at) && |Ahead(w', at)| == |Ahead(w, at)| - BATCH)
  {
    if e !in batch {
      var taken := set x | x in batch;
      DistinctCount(batch);
      assert DueNow(w.queue, w.now, e);
      assert taken <= Ahead(w, at);
      assert Ahead(w', at) == Ahead(w, at) - taken;
    }
  }

  /** e, once taken, is tried before the next fetch. */
  lemma TakenIsServed(w: Worker, a: Act, w': Worker, e: EventId, n: int, at: int)
    requires WorkerHolds(w) && WorkerStep(w, a, w') && Taken(w, e, n, at)
    ensures !a.Fetch?
    ensures Taken(w', e, n, at) || Served(w', e, n)
  {
  }

  lemma ServedStays(w: Worker, a: Act, w': Worker, e: EventId, n: int)
    requires WorkerStep(w, a, w') && Served(w, e, n)
    ensures Served(w', e, n)
  {
  }

  /** Passes begun in a stretch of a run. */
  function Passes(acts: seq<Act>): nat {
    if acts == [] then 0 else Passes(acts[..|acts| - 1]) + if acts[|acts| - 1].Fetch? then 1 else 0
  }

  /** A stretch of a run: any consecutive states of it. */
  ghost predicate Stretch(ws: seq<Worker>, acts: seq<Act>) {
    && |ws| == |acts| + 1 && WorkerHolds(ws[0])
    && forall k {:trigger acts[k]} :: 0 <= k < |acts| ==> WorkerStep(ws[k], acts[k], ws[k + 1])
  }

  lemma {:induction false} StretchHolds(ws: seq<Worker>, acts: seq<Act>)
    requires Stretch(ws, acts)
    ensures WorkerHolds(ws[|acts|])
  {
    if acts != [] {
      var m := |acts| - 1;
      StretchHolds(ws[..m + 1], acts[..m]);
      assert WorkerStep(ws[m], acts[m], ws[m + 1]);
      StepKeepsWorker(ws[m], acts[m], ws[m + 1]);
    }
  }

  /** While e is passed over, every pass takes twenty deliveries from ahead of it. */
  lemma {:induction false} PassedOverAtMost(ws: seq<Worker>, acts: seq<Act>, e: EventId, n: int, at: int)
    requires Stretch(ws, acts) && Waiting(ws[0], e, n, at) && at < ws[0].now
    ensures var w := ws[|acts|];
            || Served(w, e, n)
            || Taken(w, e, n, at)
            || (Waiting(w, e, n, at) && at < w.now && |Ahead(w, at)| + BATCH * Passes(acts) <= |Ahead(ws[0], at)|)
  {
    if acts != [] {
      var m := |acts| - 1;
      PassedOverAtMost(ws[..m + 1], acts[..m], e, n, at);
      StretchHolds(ws[..m + 1], acts[..m]);
      var w, w' := ws[m], ws[m + 1];
      if Served(w, e, n) {
        ServedStays(w, acts[m], w', e, n);
      } else if Taken(w, e, n, at) {
        TakenIsServed(w, acts[m], w', e, n, at);
      } else if acts[m].Fetch? {
        FetchServesOrShrinks(w, acts[m].batch, w', e, n, at);
      } else {
        OthersStayBehind(w, acts[m], w', e, n, at);
        Smaller(Ahead(w', at), Ahead(w, at));
      }
    }
  }

  /** No starvation: a delivery already due, with k deliveries at or ahead of it
      (itself included), is tried within ceil(k / 20) passes; once that many have
      begun and the last of them has ended, its attempt count has grown. */
  lemma TriedWithinItsTurn(ws: seq<Worker>, acts: seq<Act>, e: EventId)
    requires Stretch(ws, acts) && e in ws[0].queue && Waiting(ws[0], e, ws[0].queue[e].attempts, ws[0].queue[e].next)
    requires ws[0].queue[e].next < ws[0].now
    requires BATCH * Passes(acts) >= |Ahead(ws[0], ws[0].queue[e].next)|
    requires ws[|acts|].batch == [] && ws[|acts|].inflight.None?
    ensures Served(ws[|acts|], e, ws[0].queue[e].attempts)
  {
    var n, at := ws[0].queue[e].attempts, ws[0].queue[e].next;
    PassedOverAtMost(ws, acts, e, n, at);
    var w := ws[|acts|];
    assert Waiting(w, e, n, at) ==> e in Ahead(w, at);
  }

  // ------------------------------------------------------------- bounded work

  function Left(d: Delivery): nat {
    if Unfinished(d) then 12 - d.attempts else 0
  }

  /** The attempts the queue can still make. */
  ghost function Remaining(q: map<EventId, Delivery>): nat {
    if q == map[] then 0
    else
      var e :| e in q;
      Left(q[e]) + Remaining(q - {e})
  }

  lemma {:induction false} RemainingWithout(q: map<EventId, Delivery>, e: EventId)
    requires e in q
    ensures Remaining(q) == Left(q[e]) + Remaining(q - {e})
    decreases |q|
  {
    var p :| p in q && Remaining(q) == Left(q[p]) + Remaining(q - {p});
    if p != e {
      RemainingWithout(q - {p}, e);
      RemainingWithout(q - {e}, p);
      assert q - {p} - {e} == q - {e} - {p};
    }
  }

  lemma RemainingAfterUpdate(q: map<EventId, Delivery>, e: EventId, d: Delivery)
    ensures Remaining(q[e := d]) == Remaining(q) + Left(d) - if e in q then Left(q[e]) else 0
  {
    RemainingWithout(q[e := d], e);
    assert q[e := d] - {e} == q - {e};
    if e in q {
      RemainingWithout(q, e);
    } else {
      assert q - {e} == q;
    }
  }

  /** Every recorded attempt uses up remaining attempts; only arrivals add any,
      twelve each. */
  lemma AttemptsRunOut(w: Worker, a: Act, w': Worker)
    requires WorkerHolds(w) && WorkerStep(w, a, w')
    ensures match a
            case Mark(_) => Remaining(w'.queue) < Remaining(w.queue)
            case Arrive(_, _) => Remaining(w'.queue) == Remaining(w.queue) + 12
            case _ => Remaining(w'.queue) == Remaining(w.queue)
  {
    match a
    case Mark(ok) =>
      var e := w.inflight.value.id;
      RemainingAfterUpdate(w.queue, e, Tried(w.queue[e], ok, w.now));
    case Arrive(e, event) =>
      RemainingAfterUpdate(w.queue, e, Delivery(event, 0, false, w.now));
    case _ =>
  }

  // ------------------------------------------------------- the pass as it runs

  /** What a whole pass does to the queue: every delivery of the batch is tried
      once, at the second its result came in, and nothing else changes. */
  ghost predicate Drained(q: map<EventId, Delivery>, batch: seq<EventId>, oks: seq<bool>, times: seq<int>, q': map<EventId, Delivery>)
    requires |oks| == |times| == |batch|
  {
    && q'.Keys == q.Keys
    && (forall k :: 0 <= k < |batch| ==> batch[k] in q && q'[batch[k]] == Tried(q[batch[k]], oks[k], times[k]))
    && (forall e :: e in q && e !in batch ==> q'[e] == q[e])
  }

  /** No delivery a pass has tried is due again by the second the pass began. */
  lemma DrainedIsNotDue(q: map<EventId, Delivery>, now: int, batch: seq<EventId>, oks: seq<bool>, times: seq<int>, q': map<EventId, Delivery>)
    requires |oks| == |times| == |batch| && Drained(q, batch, oks, times, q')
    requires forall k :: 0 <= k < |times| ==> now <= times[k]
    ensures forall k :: 0 <= k < |batch| ==> !DueNow(q', now, batch[k])
  {
    forall k | 0 <= k < |batch| ensures !DueNow(q', now, batch[k]) {
      BackoffIsExact(q[batch[k]].attempts + 1);
    }
  }

  /** One more delivery tried extends the pass. */
  lemma DrainNext(
      q: map<EventId, Delivery>, batch: seq<EventId>, oks: seq<bool>, times: seq<int>, mid: map<EventId, Delivery>, k: nat)
    requires |oks| == |times| == |batch| && k < |batch| && batch[k] in q && batch[k] !in batch[..k]
    requires Drained(q, batch[..k], oks[..k], times[..k], mid)
    ensures Drained(q, batch[..k + 1], oks[..k + 1], times[..k + 1], mid[batch[k] := Tried(mid[batch[k]], oks[k], times[k])])
  {
    assert batch[..k + 1] == batch[..k] + [batch[k]];
    assert mid[batch[k]] == q[batch[k]];
    forall j | 0 <= j < k ensures batch[j] != batch[k] {
      assert batch[..k][j] == batch[j];
    }
  }

  class Dispatcher {
    var now: int
    var queue: map<EventId, Delivery>

    /** `mark_delivered` and `mark_failed`, in one place. */
    method Record(id: EventId, ok: bool)
      requires id in queue
      modifies this`queue
      ensures queue == old(queue)[id := Tried(old(queue)[id], ok, now)]
    {
      var d := queue[id];
      if ok {
        queue := queue[id := d.(delivered := true, attempts := d.attempts + 1)];
      } else {
        var attempts := d.attempts + 1;
        queue := queue[id := d.(attempts := attempts, next := now + BackoffSecs(attempts))];
      }
    }

    /** `drain`: deliver every due webhook of the batch once. `oks` are the
        receiver's answers and `times` when they came in. */
    method Drain(batch: seq<EventId>, oks: seq<bool>, times: seq<int>)
      requires DueBatch(queue, now, batch) && |oks| == |times| == |batch|
      requires forall k :: 0 <= k < |times| ==> now <= times[k]
      modifies this
      ensures Drained(old(queue), batch, oks, times, queue)
      ensures forall k :: 0 <= k < |batch| ==> !DueNow(queue, old(now), batch[k])
    {
      ghost var before := queue;
      for k := 0 to |batch|
        invariant Drained(before, batch[..k], oks[..k], times[..k], queue)
      {
        assert batch[k] !in batch[..k];
        DrainNext(before, batch, oks, times, queue, k);
        now := times[k];
        Record(batch[k], oks[k]);
      }
      assert batch[..|batch|] == batch && oks[..|oks|] == oks && times[..|times|] == times;
      DrainedIsNotDue(before, old(now), batch, oks, times, queue);
    }
  }
}
