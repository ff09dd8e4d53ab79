/** The guarded ingest pipeline: dedupe, rate limits, unwrap, policy, handoff. */
module Ingest {
  import opened Common
  import opened Limiter
  import Slatepack
  import Strings

  /** What unwrapping reveals. The cryptography is abstract: a wrap either opens
      to one seal-verified sender and rumor, or it does not open. */
  datatype Rumor = Rumor(id: string, sender: string, isDm: bool, size: nat, armored: bool)

  /** The rumor that carries a given content. */
  function Carrying(id: string, sender: string, isDm: bool, content: string): Rumor {
    Rumor(id, sender, isDm, |content|, Slatepack.ExtractSlatepack(content).Some?)
  }

  /** One incoming event. `forUs` says whether its address resolves to an identity
      held here. */
  datatype Wrap = Wrap(isGiftWrap: bool, id: string, size: nat, forUs: bool, inside: Option<Rumor>)

  /** What the wallet answers when it is handed a slatepack. */
  datatype Verdict = Accepts(slate: string) | AlreadyReceived | Refuses | Fails

  datatype Outcome = Received(slate: string) | Dropped | RateLimited | Failed

  /** The pipeline's memory. */
  datatype Guard = Guard(seen: set<string>, rate: Rate)

  /** When the two limiters read the clock, and the wallet's answer, if asked. */
  datatype Turn = Turn(unwrapAt: int, senderAt: int, verdict: Verdict)

  datatype Decision = AutoReceive | Drop

  function Decide(isSelf: bool, rumorIsDm: bool, hasSlatepack: bool, duplicate: bool): Decision {
    if duplicate || isSelf || !rumorIsDm || !hasSlatepack then Drop else AutoReceive
  }

  function DecisionOn(me: string, seen: set<string>, r: Rumor): Decision {
    Decide(r.sender == me,
           r.isDm && r.size <= Slatepack.MAX_RUMOR_CONTENT,
           r.armored,
           r.id in seen)
  }

  /** A message built around one well-delimited slatepack within the limit is
      received unless it is our own or was seen before. */
  lemma BuiltMessagesAreWelcome(me: string, seen: set<string>, id: string, sender: string, slatepack: string)
    requires Slatepack.FirstBlock(Strings.Trim(slatepack), 0, |Strings.Trim(slatepack)|)
    requires |Strings.Trim(slatepack)| <= Slatepack.MAX_SLATEPACK
    ensures var r := Carrying(id, sender, true, Slatepack.BuildPaymentContent(slatepack));
            DecisionOn(me, seen, r) == AutoReceive <==> sender != me && id !in seen
  {
    Slatepack.ExtractUndoesBuild(slatepack);
  }

  // --------------------------------------------------------------- one event

  /** The last leg: the sender's own limit, then the wallet. */
  function Offer(g: Guard, w: Wrap, r: Rumor, t: Turn): (Guard, Outcome) {
    var g' := g.(rate := AfterSender(g.rate, r.sender, t.senderAt));
    if !Admits(g.rate, r.sender, t.senderAt) then (g', RateLimited)
    else match t.verdict
      case Accepts(slate) => (g'.(seen := g'.seen + {w.id, r.id, "slate:" + slate}), Received(slate))
      case AlreadyReceived => (g'.(seen := g'.seen + {w.id, r.id}), Dropped)
      case Refuses => (g'.(seen := g'.seen + {w.id, r.id}), Dropped)
      case Fails => (g', Failed)
  }

  /** `handle_wrap` on the pipeline's memory. */
  function Handle(me: string, g: Guard, w: Wrap, t: Turn): (Guard, Outcome) {
    if !w.isGiftWrap then (g, Dropped)
    else if w.size > Slatepack.MAX_WRAP_CONTENT then (g.(seen := g.seen + {w.id}), Dropped)
    else if w.id in g.seen then (g, Dropped)
    else
      var g1 := g.(rate := Admit(g.rate, GLOBAL, t.unwrapAt));
      if !Admits(g.rate, GLOBAL, t.unwrapAt) then (g1, RateLimited)
      else if !w.forUs || w.inside.None? then (g1.(seen := g1.seen + {w.id}), Dropped)
      else
        var r := w.inside.value;
        if DecisionOn(me, g1.seen, r) == Drop then (g1.(seen := g1.seen + {w.id, r.id}), Dropped)
        else Offer(g1, w, r, t)
  }

  function After(me: string, g: Guard, w: Wrap, t: Turn): Guard {
    Handle(me, g, w, t).0
  }

  function OutcomeOf(me: string, g: Guard, w: Wrap, t: Turn): Outcome {
    Handle(me, g, w, t).1
  }

  /** A wrap worth handing to the wallet, whatever has been seen before. */
  predicate Payable(me: string, w: Wrap) {
    && w.isGiftWrap && w.size <= Slatepack.MAX_WRAP_CONTENT && w.forUs && w.inside.Some?
    && DecisionOn(me, {}, w.inside.value) == AutoReceive
  }

  /** The pipeline hands this wrap's slatepack to the wallet. */
  predicate ReachesWallet(me: string, g: Guard, w: Wrap, t: Turn) {
    && Payable(me, w) && w.id !in g.seen && w.inside.value.id !in g.seen
    && Admits(g.rate, GLOBAL, t.unwrapAt)
    && Admits(Admit(g.rate, GLOBAL, t.unwrapAt), w.inside.value.sender, t.senderAt)
  }

  /** The outcome says exactly what happened. */
  lemma OutcomesAreExact(me: string, g: Guard, w: Wrap, t: Turn)
    ensures OutcomeOf(me, g, w, t).Received? <==> ReachesWallet(me, g, w, t) && t.verdict.Accepts?
    ensures OutcomeOf(me, g, w, t).Failed? <==> ReachesWallet(me, g, w, t) && t.verdict.Fails?
    ensures g.seen <= After(me, g, w, t).seen
    ensures OutcomeOf(me, g, w, t).RateLimited? || OutcomeOf(me, g, w, t).Failed? ==> After(me, g, w, t).seen == g.seen
    ensures OutcomeOf(me, g, w, t).Received? ==>
              w.inside.Some? && {w.id, w.inside.value.id} <= After(me, g, w, t).seen
    ensures OutcomeOf(me, g, w, t).Dropped? && w.isGiftWrap ==> w.id in After(me, g, w, t).seen
  {
  }

  /** When the wallet is reached, in the message's own terms: a gift wrap within its
      limit that is addressed to us and opens, holding a direct message within its own
      limit, from someone else, with exactly one slatepack; neither id seen before;
      and both limits let it through. */
  lemma WalletIsReachedExactly(me: string, g: Guard, w: Wrap, t: Turn)
    ensures ReachesWallet(me, g, w, t) <==>
            && w.isGiftWrap && w.size <= 65536 && w.forUs && w.inside.Some?
            && w.id !in g.seen && w.inside.value.id !in g.seen
            && w.inside.value.isDm && w.inside.value.armored && w.inside.value.size <= 32768 && w.inside.value.sender != me
            && Admits(g.rate, GLOBAL, t.unwrapAt)
            && Admits(Admit(g.rate, GLOBAL, t.unwrapAt), w.inside.value.sender, t.senderAt)
  {
  }

  /** The pipeline gets as far as opening this wrap. */
  predicate Opens(g: Guard, w: Wrap, t: Turn) {
    w.isGiftWrap && w.size <= 65536 && w.id !in g.seen && Admits(g.rate, GLOBAL, t.unwrapAt) && w.forUs && w.inside.Some?
  }

  /** What an arrival marks: nothing that may be tried again, both ids of what was
      opened and settled, the wrap's alone otherwise. */
  function Marked(g: Guard, w: Wrap, t: Turn, outcome: Outcome): set<string> {
    if !w.isGiftWrap || outcome.RateLimited? || outcome.Failed? then {}
    else if !Opens(g, w, t) then {w.id}
    else {w.id, w.inside.value.id} + if outcome.Received? then {"slate:" + outcome.slate} else {}
  }

  lemma OfferMarks(g: Guard, w: Wrap, r: Rumor, t: Turn)
    ensures var outcome := Offer(g, w, r, t).1;
            Offer(g, w, r, t).0.seen == g.seen +
              (if outcome.RateLimited? || outcome.Failed? then {}
               else {w.id, r.id} + if outcome.Received? then {"slate:" + outcome.slate} else {})
  {
  }

  lemma MarksAreExact(me: string, g: Guard, w: Wrap, t: Turn)
    ensures forall key :: key in After(me, g, w, t).seen <==> key in g.seen || key in Marked(g, w, t, OutcomeOf(me, g, w, t))
  {
    if Opens(g, w, t) {
      OfferMarks(g.(rate := Admit(g.rate, GLOBAL, t.unwrapAt)), w, w.inside.value, t);
    }
  }

  /** And exactly when the answer is that a limit is reached. */
  lemma RateLimitedExactly(me: string, g: Guard, w: Wrap, t: Turn)
    ensures OutcomeOf(me, g, w, t).RateLimited? <==>
            && w.isGiftWrap && w.size <= 65536 && w.id !in g.seen
            && (!Admits(g.rate, GLOBAL, t.unwrapAt)
                || (Opens(g, w, t) && w.inside.value.isDm && w.inside.value.armored && w.inside.value.size <= 32768
                    && w.inside.value.sender != me && w.inside.value.id !in g.seen
                    && !Admits(Admit(g.rate, GLOBAL, t.unwrapAt), w.inside.value.sender, t.senderAt)))
  {
  }

  /** Whatever the pipeline remembers, what it hands the wallet comes from a message
      with exactly one complete block of armor, both within their limits, and is that
      block. */
  lemma WalletGetsTheOnlyBlock(me: string, g: Guard, w: Wrap, t: Turn, content: string) returns (s: nat, e: nat)
    requires ReachesWallet(me, g, w, t)
    requires w.inside.value == Carrying(w.inside.value.id, w.inside.value.sender, w.inside.value.isDm, content)
    ensures s + 28 <= e <= |content| <= 32768 && e - s <= 30720
    ensures content[s..s + 15] == "BEGINSLATEPACK." && content[e - 13..e] == "ENDSLATEPACK."
    ensures Slatepack.FirstBlock(content, s, e) && !Slatepack.BlockFrom(content, e)
    ensures Slatepack.ExtractSlatepack(content) == Some(content[s..e])
  {
    Slatepack.SpanIsFirstBlock(content);
    s, e := Slatepack.Span(content).value.0, Slatepack.Span(content).value.1;
    Slatepack.ExtractsTheOnlyBlock(content, s, e);
    Slatepack.BlockIsMarked(content, s, e);
  }

  // ----------------------------------------------------------------- whole runs

  datatype Arrival = Arrival(wrap: Wrap, turn: Turn)

  /** A run: the pipeline's memory before each arrival, and after the last. */
  ghost predicate PipelineRun(me: string, gs: seq<Guard>, xs: seq<Arrival>) {
    && |gs| == |xs| + 1 && gs[0] == Guard({}, map[])
    && forall k {:trigger xs[k]} :: 0 <= k < |xs| ==> gs[k + 1] == After(me, gs[k], xs[k].wrap, xs[k].turn)
  }

  lemma {:induction false} MarksStay(me: string, gs: seq<Guard>, xs: seq<Arrival>, j: nat, k: nat)
    requires PipelineRun(me, gs, xs) && j <= k < |gs|
    ensures gs[j].seen <= gs[k].seen
  {
    if j < k {
      MarksStay(me, gs, xs, j, k - 1);
      assert gs[k] == After(me, gs[k - 1], xs[k - 1].wrap, xs[k - 1].turn);
      OutcomesAreExact(me, gs[k - 1], xs[k - 1].wrap, xs[k - 1].turn);
    }
  }

  predicate ReceivedAt(me: string, gs: seq<Guard>, xs: seq<Arrival>, k: nat)
    requires |gs| > |xs| > k
  {
    OutcomeOf(me, gs[k], xs[k].wrap, xs[k].turn).Received?
  }

  lemma MarkedIsRefused(me: string, g: Guard, w: Wrap, t: Turn)
    ensures w.id in g.seen || (w.inside.Some? && w.inside.value.id in g.seen) ==>
              !ReachesWallet(me, g, w, t) && !OutcomeOf(me, g, w, t).Received?
  {
    OutcomesAreExact(me, g, w, t);
  }

  /** Each wrap id and each rumor id is received at most once, and neither ever
      reaches the wallet again, in whatever wrapping it arrives. */
  lemma ReceivedOnce(me: string, gs: seq<Guard>, xs: seq<Arrival>, j: nat, k: nat)
    requires PipelineRun(me, gs, xs) && j < k < |xs|
    requires ReceivedAt(me, gs, xs, j)
    ensures xs[j].wrap.inside.Some?
    ensures xs[k].wrap.id == xs[j].wrap.id
            || (xs[k].wrap.inside.Some? && xs[k].wrap.inside.value.id == xs[j].wrap.inside.value.id) ==>
              !ReachesWallet(me, gs[k], xs[k].wrap, xs[k].turn) && !ReceivedAt(me, gs, xs, k)
  {
    OutcomesAreExact(me, gs[j], xs[j].wrap, xs[j].turn);
    assert gs[j + 1] == After(me, gs[j], xs[j].wrap, xs[j].turn);
    MarksStay(me, gs, xs, j + 1, k);
    MarkedIsRefused(me, gs[k], xs[k].wrap, xs[k].turn);
  }

  /** A marked id never reaches the wallet again. */
  lemma MarkedNeverReaches(me: string, gs: seq<Guard>, xs: seq<Arrival>, j: nat, k: nat)
    requires PipelineRun(me, gs, xs) && j <= k < |xs|
    requires xs[k].wrap.id in gs[j].seen || (xs[k].wrap.inside.Some? && xs[k].wrap.inside.value.id in gs[j].seen)
    ensures !ReachesWallet(me, gs[k], xs[k].wrap, xs[k].turn)
  {
    MarksStay(me, gs, xs, j, k);
  }

  // -------------------------------------------------- the limiters in the pipeline

  /** The clock of the run: readings never go back. */
  ghost predicate Clocked(xs: seq<Arrival>) {
    && (forall k {:trigger xs[k]} :: 0 <= k < |xs| ==> xs[k].turn.unwrapAt <= xs[k].turn.senderAt)
    && (forall j, k :: 0 <= j < k < |xs| ==> xs[j].turn.senderAt <= xs[k].turn.unwrapAt)
  }

  /** The policy drops what this wrap holds. */
  predicate Unwanted(me: string, seen: set<string>, w: Wrap) {
    w.inside.Some? && DecisionOn(me, seen, w.inside.value) == Drop
  }

  /** What a limiter that never forgets would remember after one arrival. */
  function Remembered(history: Rate, seen: set<string>, w: Wrap, t: Turn, unwanted: bool): Rate {
    if !w.isGiftWrap || w.size > Slatepack.MAX_WRAP_CONTENT || w.id in seen then history
    else
      var h := Remember(history, GLOBAL, t.unwrapAt);
      if !Admits(history, GLOBAL, t.unwrapAt) || !w.forUs || w.inside.None? || unwanted then h
      else Remember(h, w.inside.value.sender, t.senderAt)
  }

  /** What the pipeline itself remembers after the same arrival. */
  function RateAfter(rate: Rate, seen: set<string>, w: Wrap, t: Turn, unwanted: bool): Rate {
    if !w.isGiftWrap || w.size > Slatepack.MAX_WRAP_CONTENT || w.id in seen then rate
    else
      var r := Admit(rate, GLOBAL, t.unwrapAt);
      if !Admits(rate, GLOBAL, t.unwrapAt) || !w.forUs || w.inside.None? || unwanted then r
      else AfterSender(r, w.inside.value.sender, t.senderAt)
  }

  lemma OfferSetsRate(g: Guard, w: Wrap, r: Rumor, t: Turn)
    ensures Offer(g, w, r, t).0.rate == AfterSender(g.rate, r.sender, t.senderAt)
  {
  }

  lemma RateAfterIsAfter(me: string, g: Guard, w: Wrap, t: Turn)
    ensures After(me, g, w, t).rate == RateAfter(g.rate, g.seen, w, t, Unwanted(me, g.seen, w))
  {
    var g1 := g.(rate := Admit(g.rate, GLOBAL, t.unwrapAt));
    if w.inside.Some? {
      OfferSetsRate(g1, w, w.inside.value, t);
    }
  }

  ghost predicate InStep(rate: Rate, history: Rate, now: int) {
    Refines(rate, history, now) && AllSpaced(history, now)
  }

  lemma LaterInStep(rate: Rate, history: Rate, at: int, later: int)
    requires InStep(rate, history, at) && at <= later
    ensures InStep(rate, history, later)
  {
  }

  lemma UnwrapKeepsStep(rate: Rate, history: Rate, at: int, now: int)
    requires InStep(rate, history, at) && at <= now
    ensures Admits(rate, GLOBAL, now) <==> Admits(history, GLOBAL, now)
    ensures InStep(Admit(rate, GLOBAL, now), Remember(history, GLOBAL, now), now)
  {
    AdmitRefines(rate, history, at, GLOBAL, now);
    RememberKeepsSpacing(history, at, GLOBAL, now);
  }

  lemma SenderKeepsStep(rate: Rate, history: Rate, at: int, sender: string, now: int)
    requires InStep(rate, history, at) && at <= now
    ensures InStep(AfterSender(rate, sender, now), Remember(history, sender, now), now)
  {
    SenderRefines(rate, history, at, sender, now);
    RememberKeepsSpacing(history, at, sender, now);
  }

  lemma RatesKeepStep(rate: Rate, history: Rate, at: int, seen: set<string>, w: Wrap, t: Turn, unwanted: bool)
    requires InStep(rate, history, at) && at <= t.unwrapAt <= t.senderAt
    ensures InStep(RateAfter(rate, seen, w, t, unwanted), Remembered(history, seen, w, t, unwanted), t.senderAt)
  {
    if !w.isGiftWrap || w.size > Slatepack.MAX_WRAP_CONTENT || w.id in seen {
      LaterInStep(rate, history, at, t.senderAt);
      return;
    }
    UnwrapKeepsStep(rate, history, at, t.unwrapAt);
    var r, h := Admit(rate, GLOBAL, t.unwrapAt), Remember(history, GLOBAL, t.unwrapAt);
    if !Admits(rate, GLOBAL, t.unwrapAt) || !w.forUs || w.inside.None? || unwanted {
      LaterInStep(r, h, t.unwrapAt, t.senderAt);
    } else {
      SenderKeepsStep(r, h, t.unwrapAt, w.inside.value.sender, t.senderAt);
    }
  }

  /** One arrival keeps the trimmed, pruned map in step with the full history. */
  lemma ArrivalKeepsStep(me: string, g: Guard, history: Rate, at: int, w: Wrap, t: Turn)
    requires InStep(g.rate, history, at) && at <= t.unwrapAt <= t.senderAt
    ensures InStep(After(me, g, w, t).rate, Remembered(history, g.seen, w, t, Unwanted(me, g.seen, w)), t.senderAt)
  {
    RateAfterIsAfter(me, g, w, t);
    RatesKeepStep(g.rate, history, at, g.seen, w, t, Unwanted(me, g.seen, w));
  }

  /** A list of times with one more for a key, if `ok`. */
  function Note(times: Rate, key: string, now: int, ok: bool): Rate {
    if ok then times[key := Times(times, key) + [now]] else times
  }

  /** The times at which this arrival is let through, as the pipeline's own map
      decides, added to those before it. */
  function Accepted(times: Rate, rate: Rate, seen: set<string>, w: Wrap, t: Turn, unwanted: bool): Rate {
    if !w.isGiftWrap || w.size > Slatepack.MAX_WRAP_CONTENT || w.id in seen then times
    else
      var unwraps := Note(times, GLOBAL, t.unwrapAt, Admits(rate, GLOBAL, t.unwrapAt));
      if !Admits(rate, GLOBAL, t.unwrapAt) || !w.forUs || w.inside.None? || unwanted then unwraps
      else Note(unwraps, w.inside.value.sender, t.senderAt, Admits(Admit(rate, GLOBAL, t.unwrapAt), w.inside.value.sender, t.senderAt))
  }

  /** A sender's list grows exactly when the wallet is handed a message of theirs. */
  lemma AcceptedMeansHandedOver(me: string, times: Rate, g: Guard, w: Wrap, t: Turn, sender: string)
    requires sender != GLOBAL
    ensures Times(Accepted(times, g.rate, g.seen, w, t, Unwanted(me, g.seen, w)), sender) ==
            Times(times, sender) + if ReachesWallet(me, g, w, t) && w.inside.value.sender == sender then [t.senderAt] else []
  {
  }

  /** The pipeline's map and a limiter with full memory let the same through. */
  lemma AcceptedIsRemembered(rate: Rate, history: Rate, at: int, seen: set<string>, w: Wrap, t: Turn, unwanted: bool)
    requires Refines(rate, history, at) && at <= t.unwrapAt <= t.senderAt
    ensures Accepted(history, rate, seen, w, t, unwanted) == Remembered(history, seen, w, t, unwanted)
  {
    if !w.isGiftWrap || w.size > Slatepack.MAX_WRAP_CONTENT || w.id in seen { return; }
    AdmitRefines(rate, history, at, GLOBAL, t.unwrapAt);
    if !Admits(rate, GLOBAL, t.unwrapAt) || !w.forUs || w.inside.None? || unwanted { return; }
    AdmitRefines(Admit(rate, GLOBAL, t.unwrapAt), Remember(history, GLOBAL, t.unwrapAt), t.unwrapAt, w.inside.value.sender, t.senderAt);
  }

  /** All the times let through in a run, by key. */
  function AcceptedTimes(me: string, gs: seq<Guard>, xs: seq<Arrival>): Rate
    requires |gs| >= |xs|
  {
    if xs == [] then map[]
    else
      var n := |xs| - 1;
      Accepted(AcceptedTimes(me, gs[..n], xs[..n]), gs[n].rate, gs[n].seen, xs[n].wrap, xs[n].turn, Unwanted(me, gs[n].seen, xs[n].wrap))
  }

  lemma RunPrefix(me: string, gs: seq<Guard>, xs: seq<Arrival>)
    requires PipelineRun(me, gs, xs) && Clocked(xs) && |xs| > 1
    ensures PipelineRun(me, gs[..|xs|], xs[..|xs| - 1]) && Clocked(xs[..|xs| - 1])
  {
    var n := |xs| - 1;
    forall k | 0 <= k < n ensures gs[..n + 1][k + 1] == After(me, gs[..n + 1][k], xs[..n][k].wrap, xs[..n][k].turn) {
      assert gs[k + 1] == After(me, gs[k], xs[k].wrap, xs[k].turn);
    }
  }

  lemma {:induction false} TimesReadPrefix(me: string, gs: seq<Guard>, hs: seq<Guard>, xs: seq<Arrival>)
    requires |gs| >= |xs| && |hs| >= |xs| && gs[..|xs|] == hs[..|xs|]
    ensures AcceptedTimes(me, gs, xs) == AcceptedTimes(me, hs, xs)
  {
    if xs != [] {
      var n := |xs| - 1;
      assert gs[..n] == gs[..n + 1][..n] && hs[..n] == hs[..n + 1][..n];
      assert gs[n] == gs[..n + 1][n] && hs[n] == hs[..n + 1][n];
    }
  }

  /** Over any run: at most 10 messages of a sender are let through in any 3600
      seconds, and at most 120 unwraps in any 60 seconds; and the pipeline's map,
      trimmed and pruned, decides like the full list of those times. */
  lemma {:induction false} LimitersKeepTheirWord(me: string, gs: seq<Guard>, xs: seq<Arrival>)
    requires PipelineRun(me, gs, xs) && Clocked(xs) && xs != []
    ensures InStep(gs[|xs|].rate, AcceptedTimes(me, gs, xs), xs[|xs| - 1].turn.senderAt)
    ensures var times := AcceptedTimes(me, gs, xs);
            forall key :: key in times ==>
              if key == GLOBAL then AtMostIn(times[key], 60, 120) else AtMostIn(times[key], 3600, 10)
  {
    var n := |xs| - 1;
    var before := AcceptedTimes(me, gs[..n], xs[..n]);
    var at := if n == 0 then xs[0].turn.unwrapAt else xs[n - 1].turn.senderAt;
    assert gs[n + 1] == After(me, gs[n], xs[n].wrap, xs[n].turn);
    if n > 0 {
      RunPrefix(me, gs, xs);
      LimitersKeepTheirWord(me, gs[..n + 1], xs[..n]);
      TimesReadPrefix(me, gs[..n + 1], gs[..n], xs[..n]);
    }
    AcceptedIsRemembered(gs[n].rate, before, at, gs[n].seen, xs[n].wrap, xs[n].turn, Unwanted(me, gs[n].seen, xs[n].wrap));
    ArrivalKeepsStep(me, gs[n], before, at, xs[n].wrap, xs[n].turn);
    var times := AcceptedTimes(me, gs, xs);
    forall key | key in times ensures AtMostIn(times[key], Window(key), Cap(key)) {
      AtMostCapInAnyWindow(times[key], xs[n].turn.senderAt, Window(key), Cap(key));
    }
  }

  lemma QuietAdmits(rate: Rate, history: Rate, at: int, key: string, now: int)
    requires InStep(rate, history, at) && at + HOUR <= now
    ensures Recent(Times(rate, key), now, Window(key)) == []
  {
    assert Recent(Times(rate, key), now, Window(key)) == Recent(Times(history, key), now, Window(key));
    if key in history {
      assert Spaced(history[key], at, Window(key), Cap(key));
      StaleIsNotRecent(history[key], now, Window(key));
    }
  }

  /** Nothing is lost to a limit or a hiccup: after an hour's quiet, a payable
      wrap that is not marked reaches the wallet. */
  lemma RetryReachesWallet(me: string, g: Guard, history: Rate, at: int, w: Wrap, t: Turn)
    requires InStep(g.rate, history, at) && at + HOUR <= t.unwrapAt <= t.senderAt
    requires Payable(me, w) && w.id !in g.seen && w.inside.value.id !in g.seen && w.inside.value.sender != GLOBAL
    ensures ReachesWallet(me, g, w, t)
    ensures t.verdict.Accepts? ==> OutcomeOf(me, g, w, t) == Received(t.verdict.slate)
  {
    QuietAdmits(g.rate, history, at, GLOBAL, t.unwrapAt);
    QuietAdmits(g.rate, history, at, w.inside.value.sender, t.senderAt);
  }

  // ------------------------------------------------------- the pipeline as it runs

  class Pipeline {
    const me: string
    var seen: set<string>
    var rate: map<string, seq<int>>

    constructor (me: string)
      ensures this.me == me && Memory() == Guard({}, map[])
    {
      this.me := me;
      seen, rate := {}, map[];
    }

    function Memory(): Guard
      reads this
    {
      Guard(seen, rate)
    }

    /** `hits.retain(|t| now - *t < window)`. */
    method Retain(times: seq<int>, now: int, window: int) returns (hits: seq<int>)
      ensures hits == Recent(times, now, window)
    {
      hits := [];
      for k := 0 to |times|
        invariant hits == Recent(times[..k], now, window)
      {
        assert times[..k + 1][..k] == times[..k];
        if now - times[k] < window {
          hits := hits + [times[k]];
        }
      }
      assert times[..|times|] == times;
    }

    method AllowSender(sender: string, now: int) returns (ok: bool)
      requires sender != GLOBAL
      modifies this`rate
      ensures ok <==> Admits(old(rate), sender, now)
      ensures rate == AfterSender(old(rate), sender, now)
    {
      var hits := Retain(if sender in rate then rate[sender] else [], now, 3600);
      rate := rate[sender := hits];
      if |hits| >= RATE_PER_SENDER_PER_HOUR {
        return false;
      }
      rate := rate[sender := hits + [now]];
      assert rate == Admit(old(rate), sender, now);
      if |rate| > RATE_MAP_CAP {
        Forget(now);
      }
      return true;
    }

    /** Drop the senders with no recent time left. */
    method Forget(now: int)
      modifies this`rate
      ensures rate == Prune(old(rate), now)
    {
      rate := map key | key in rate && Fresh(rate[key], now) :: rate[key];
    }

    method AllowGlobalUnwrap(now: int) returns (ok: bool)
      modifies this`rate
      ensures ok <==> Admits(old(rate), GLOBAL, now)
      ensures rate == Admit(old(rate), GLOBAL, now)
    {
      var hits := Retain(if GLOBAL in rate then rate[GLOBAL] else [], now, 60);
      rate := rate[GLOBAL := hits];
      if |hits| >= GLOBAL_UNWRAP_PER_MIN {
        return false;
      }
      rate := rate[GLOBAL := hits + [now]];
      return true;
    }

    method Mark(key: string)
      modifies this`seen
      ensures seen == old(seen) + {key}
    {
      seen := seen + {key};
    }

    /** `handle_wrap`, step for step. A sender is a public key in hex, never the
        reserved key of the global window. */
    method HandleWrap(w: Wrap, t: Turn) returns (outcome: Outcome)
      requires w.inside.Some? ==> w.inside.value.sender != GLOBAL
      modifies this
      ensures Memory() == After(me, old(Memory()), w, t)
      ensures outcome == OutcomeOf(me, old(Memory()), w, t)
    {
      if !w.isGiftWrap { return Dropped; }
      if w.size > Slatepack.MAX_WRAP_CONTENT {
        Mark(w.id);
        return Dropped;
      }
      if w.id in seen { return Dropped; }
      var mayUnwrap := AllowGlobalUnwrap(t.unwrapAt);
      if !mayUnwrap { return RateLimited; }
      if !w.forUs || w.inside.None? {
        Mark(w.id);
        return Dropped;
      }
      var r := w.inside.value;
      if DecisionOn(me, seen, r) == Drop {
        Mark(w.id);
        Mark(r.id);
        return Dropped;
      }
      outcome := HandOver(w, r, t);
    }

    /** The last leg of `handle_wrap`. */
    method HandOver(w: Wrap, r: Rumor, t: Turn) returns (outcome: Outcome)
      requires r.sender != GLOBAL
      modifies this
      ensures Memory() == Offer(old(Memory()), w, r, t).0
      ensures outcome == Offer(old(Memory()), w, r, t).1
    {
      var mayReceive := AllowSender(r.sender, t.senderAt);
      if !mayReceive { return RateLimited; }
      if t.verdict.Fails? { return Failed; }
      Mark(w.id);
      Mark(r.id);
      if t.verdict.Accepts? {
        Mark("slate:" + t.verdict.slate);
        return Received(t.verdict.slate);
      }
      return Dropped;
    }
  }
}
