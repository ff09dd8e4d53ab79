/** The two sliding-window limiters of the ingest pipeline. They share one map of
    accepted times, trimmed in place and pruned when it grows; they decide like a
    limiter that remembers everything it ever accepted. */
module Limiter {
  import opened Sets

  const RATE_PER_SENDER_PER_HOUR: nat := 10
  const GLOBAL_UNWRAP_PER_MIN: nat := 120
  const RATE_MAP_CAP: nat := 10000
  const GLOBAL: string := [0 as char] + "global"
  const HOUR: int := 3600
  const MINUTE: int := 60

  type Rate = map<string, seq<int>>

  function Window(key: string): int {
    if key == GLOBAL then MINUTE else HOUR
  }

  function Cap(key: string): nat {
    if key == GLOBAL then GLOBAL_UNWRAP_PER_MIN else RATE_PER_SENDER_PER_HOUR
  }

  /** `retain(|t| now - t < window)`. */
  function Recent(times: seq<int>, now: int, window: int): (r: seq<int>)
    ensures |r| <= |times|
  {
    if times == [] then []
    else
      var rest := Recent(times[..|times| - 1], now, window);
      if now - times[|times| - 1] < window then rest + [times[|times| - 1]] else rest
  }

  function Times(m: Rate, key: string): seq<int> {
    if key in m then m[key] else []
  }

  // --------------------------------------------------------- the implementation

  predicate Admits(rate: Rate, key: string, now: int) {
    |Recent(Times(rate, key), now, Window(key))| < Cap(key)
  }

  /** The map after one request: trimmed, and with the new time if accepted. */
  function Admit(rate: Rate, key: string, now: int): Rate {
    var hits := Recent(Times(rate, key), now, Window(key));
    rate[key := if |hits| < Cap(key) then hits + [now] else hits]
  }

  predicate Fresh(times: seq<int>, now: int) {
    exists k :: 0 <= k < |times| && now - times[k] < HOUR
  }

  function Prune(rate: Rate, now: int): Rate {
    map key | key in rate && Fresh(rate[key], now) :: rate[key]
  }

  function AfterSender(rate: Rate, sender: string, now: int): Rate {
    var rate' := Admit(rate, sender, now);
    if Admits(rate, sender, now) && |rate'| > RATE_MAP_CAP then Prune(rate', now) else rate'
  }

  // ---------------------------------------------------------------- the history

  /** The plain limiter: it keeps every time it ever accepted. */
  function Remember(history: Rate, key: string, now: int): Rate {
    if Admits(history, key, now) then history[key := Times(history, key) + [now]] else history
  }

  /** Both see the same recent times, now and at any later moment. */
  ghost predicate Refines(rate: Rate, history: Rate, now: int) {
    forall key, later :: now <= later ==>
      Recent(Times(rate, key), later, Window(key)) == Recent(Times(history, key), later, Window(key))
  }

  lemma RecentOfPush(times: seq<int>, t: int, now: int, window: int)
    ensures Recent(times + [t], now, window) == Recent(times, now, window) + if now - t < window then [t] else []
  {
    assert (times + [t])[..|times|] == times;
  }

  lemma {:induction false} RecentOfRecent(times: seq<int>, now: int, later: int, window: int)
    requires now <= later
    ensures Recent(Recent(times, now, window), later, window) == Recent(times, later, window)
  {
    if times != [] {
      var init, t := times[..|times| - 1], times[|times| - 1];
      RecentOfRecent(init, now, later, window);
      if now - t < window {
        RecentOfPush(Recent(init, now, window), t, later, window);
      }
    }
  }

  lemma {:induction false} StaleIsNotRecent(times: seq<int>, now: int, window: int)
    requires window <= HOUR && !Fresh(times, now)
    ensures Recent(times, now, window) == []
  {
    if times != [] {
      var init := times[..|times| - 1];
      assert forall k :: 0 <= k < |init| ==> init[k] == times[k];
      StaleIsNotRecent(init, now, window);
    }
  }

  /** Pruning forgets nothing a limiter could still count. */
  lemma PruneIsHarmless(rate: Rate, now: int, key: string, later: int)
    requires now <= later
    ensures Recent(Times(Prune(rate, now), key), later, Window(key)) == Recent(Times(rate, key), later, Window(key))
  {
    if key in rate && !Fresh(rate[key], now) {
      StaleIsNotRecent(rate[key], later, Window(key));
    }
  }

  /** One request, decided alike by both, keeps them in step. */
  lemma AdmitRefines(rate: Rate, history: Rate, at: int, key: string, now: int)
    requires Refines(rate, history, at) && at <= now
    ensures Admits(rate, key, now) <==> Admits(history, key, now)
    ensures Refines(Admit(rate, key, now), Remember(history, key, now), now)
  {
    var w, hits := Window(key), Recent(Times(rate, key), now, Window(key));
    assert hits == Recent(Times(history, key), now, w);
    forall k, later | now <= later
      ensures Recent(Times(Admit(rate, key, now), k), later, Window(k)) ==
              Recent(Times(Remember(history, key, now), k), later, Window(k))
    {
      assert Recent(Times(rate, k), later, Window(k)) == Recent(Times(history, k), later, Window(k));
      if k == key {
        RecentOfRecent(Times(rate, key), now, later, w);
        RecentOfPush(hits, now, later, w);
        RecentOfPush(Times(history, key), now, later, w);
      }
    }
  }

  lemma SenderRefines(rate: Rate, history: Rate, at: int, sender: string, now: int)
    requires Refines(rate, history, at) && at <= now
    ensures Refines(AfterSender(rate, sender, now), Remember(history, sender, now), now)
  {
    AdmitRefines(rate, history, at, sender, now);
    var rate' := Admit(rate, sender, now);
    forall key, later | now <= later
      ensures Recent(Times(AfterSender(rate, sender, now), key), later, Window(key)) ==
              Recent(Times(Remember(history, sender, now), key), later, Window(key))
    {
      PruneIsHarmless(rate', now, key, later);
    }
  }

  // ----------------------------------------------------------------- its size

  /** What is remembered stays small: no more times than the limit for any key, and
      with more than 10000 keys only those with a time in the last hour. */
  lemma MemoryIsBounded(rate: Rate, sender: string, now: int)
    requires sender != GLOBAL && |Times(rate, sender)| <= 10 && |Times(rate, GLOBAL)| <= 120
    ensures var rate' := AfterSender(rate, sender, now);
            && |Times(rate', sender)| <= 10
            && (Admits(rate, sender, now) && |rate'| > 10000 ==>
                  forall key :: key in rate' ==> exists k :: 0 <= k < |rate'[key]| && now - rate'[key][k] < 3600)
    ensures |Times(Admit(rate, GLOBAL, now), GLOBAL)| <= 120
  {
  }

  // --------------------------------------------------------- what it guarantees

  /** Accepted times in order, and any `cap` + 1 of them spread over a window. */
  ghost predicate Spaced(times: seq<int>, now: int, window: int, cap: nat) {
    && (forall j, k :: 0 <= j <= k < |times| ==> times[j] <= times[k] <= now)
    && (forall k :: 0 <= k < |times| - cap ==> times[k + cap] - times[k] >= window)
  }

  lemma {:induction false} SuffixIsRecent(times: seq<int>, k: nat, now: int, window: int)
    requires k <= |times| && forall j :: k <= j < |times| ==> now - times[j] < window
    ensures |Recent(times, now, window)| >= |times| - k
  {
    if k < |times| {
      SuffixIsRecent(times[..|times| - 1], k, now, window);
    }
  }

  /** An accepted time is a whole window later than the one `cap` before it. */
  lemma AcceptKeepsSpacing(times: seq<int>, at: int, now: int, window: int, cap: nat)
    requires Spaced(times, at, window, cap) && at <= now && |Recent(times, now, window)| < cap
    ensures Spaced(times + [now], now, window, cap)
  {
    var n := |times|;
    if n >= cap && now - times[n - cap] < window {
      SuffixIsRecent(times, n - cap, now, window);
    }
  }

  lemma {:induction false} RecentCounts(times: seq<int>, now: int, window: int)
    ensures |Recent(times, now, window)| == |set k | 0 <= k < |times| && now - times[k] < window|
  {
    if times != [] {
      var n := |times| - 1;
      RecentCounts(times[..n], now, window);
      var before := set k | 0 <= k < n && now - times[..n][k] < window;
      assert (set k | 0 <= k < |times| && now - times[k] < window) == before + if now - times[n] < window then {n} else {};
    }
  }

  /** The limits in figures: a sender is let through with fewer than 10 accepted times
      in the last 3600 seconds, an unwrap with fewer than 120 in the last 60. */
  lemma AdmitsBelowTheLimit(rate: Rate, key: string, now: int)
    ensures Admits(rate, key, now) <==>
            var times := Times(rate, key);
            if key == "\0global" then |set k | 0 <= k < |times| && now - times[k] < 60| < 120
            else |set k | 0 <= k < |times| && now - times[k] < 3600| < 10
  {
    RecentCounts(Times(rate, key), now, Window(key));
  }

  ghost predicate AllSpaced(history: Rate, now: int) {
    forall key :: key in history ==> Spaced(history[key], now, Window(key), Cap(key))
  }

  lemma RememberKeepsSpacing(history: Rate, at: int, key: string, now: int)
    requires AllSpaced(history, at) && at <= now
    ensures AllSpaced(Remember(history, key, now), now)
  {
    var history' := Remember(history, key, now);
    forall k | k in history' ensures Spaced(history'[k], now, Window(k), Cap(k)) {
      if k == key && Admits(history, key, now) {
        AcceptKeepsSpacing(Times(history, key), at, now, Window(key), Cap(key));
      }
    }
  }

  /** Positions of the accepted times inside one window. */
  function Inside(times: seq<int>, from: int, window: int): set<int> {
    set k | 0 <= k < |times| && from <= times[k] < from + window
  }

  lemma FarApart(times: seq<int>, now: int, window: int, cap: nat)
    requires Spaced(times, now, window, cap)
    ensures forall j, k :: 0 <= j && j + cap <= k < |times| ==> times[k] - times[j] >= window
  {
    forall j, k | 0 <= j && j + cap <= k < |times| ensures times[k] - times[j] >= window {
      assert times[j + cap] - times[j] >= window && times[j + cap] <= times[k];
    }
  }

  ghost function Range(a: int, n: nat): (r: set<int>)
    ensures |r| == n && forall k :: k in r <==> a <= k < a + n
  {
    if n == 0 then {} else Range(a, n - 1) + {a + n - 1}
  }

  ghost predicate AtMostIn(times: seq<int>, window: int, cap: nat) {
    forall from :: |Inside(times, from, window)| <= cap
  }

  lemma AtMostCapFrom(times: seq<int>, now: int, window: int, cap: nat, from: int)
    requires Spaced(times, now, window, cap) && cap > 0
    ensures |Inside(times, from, window)| <= cap
  {
    FarApart(times, now, window, cap);
    var first := 0;
    while first < |times| && times[first] < from
      invariant 0 <= first <= |times|
      invariant forall k :: 0 <= k < first ==> times[k] < from
    {
      first := first + 1;
    }
    forall k | k in Inside(times, from, window) ensures k in Range(first, cap) {
    }
    Smaller(Inside(times, from, window), Range(first, cap));
  }

  /** At most `cap` accepts in any stretch as long as the window. */
  lemma AtMostCapInAnyWindow(times: seq<int>, now: int, window: int, cap: nat)
    requires Spaced(times, now, window, cap) && cap > 0
    ensures AtMostIn(times, window, cap)
  {
    forall from ensures |Inside(times, from, window)| <= cap {
      AtMostCapFrom(times, now, window, cap, from);
    }
  }
}
