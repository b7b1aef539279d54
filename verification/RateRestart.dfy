/**
 Expired counters and restarts leave no trace: a limiter that dropped its expired windows,
 or was saved and loaded, decides like the original from then on, whatever it is asked.
 */
module RateRestart {

  import opened Wrappers
  import opened RateWindows

  /** What callers can do; limits may differ from call to call. */
  datatype Op =
    | Wait(secs: nat)
    | Ask(owner: RateKey, limits: seq<WindowLimit>, weight: nat)
    | Charge(owner: RateKey, limits: seq<WindowLimit>, weight: nat)
    | Pay(owner: RateKey, limits: seq<WindowLimit>, tokens: nat, costs: nat)
    | Sweep
    | Clear(keyHash: string)
    | Switch(owner: RateKey, stale: seq<nat>)

  /** The part of a decision that callers act on: which window and dimension rejected, if any.
      The advised retry delay is not part of it. */
  datatype Answer = Yes | No(secs: nat, dim: Dimension, limit: nat)

  function AnswerOf(v: Verdict): Answer {
    match v
    case Allow => Yes
    case Reject(secs, dim, limit, _) => No(secs, dim, limit)
  }

  function After(t: Table, now: nat, op: Op): Table {
    match op
    case Wait(_) => t
    case Ask(_, _, _) => t
    case Charge(owner, limits, weight) => Commit(t, owner, limits, weight, now)
    case Pay(owner, limits, tokens, costs) => Settle(t, owner, limits, tokens, costs, now)
    case Sweep => Cleanup(t, now)
    case Clear(keyHash) => ClearKey(t, keyHash)
    case Switch(owner, stale) => ClearWindows(t, owner, stale)
  }

  function Clock(now: nat, op: Op): nat {
    if op.Wait? then now + op.secs else now
  }

  /** All answers given over a sequence of operations. */
  function Answers(t: Table, now: nat, ops: seq<Op>): seq<Answer>
    decreases |ops|
  {
    if ops == [] then []
    else
      (if ops[0].Ask? then [AnswerOf(Peek(t, ops[0].owner, ops[0].limits, ops[0].weight, now))] else [])
      + Answers(After(t, now, ops[0]), Clock(now, ops[0]), ops[1..])
  }

  /** Two tables show the same live counters. */
  ghost predicate Alike(a: Table, b: Table, now: nat) {
    forall k: WindowKey :: View(a, k, now) == View(b, k, now)
  }

  lemma {:induction false} AlikePeek(a: Table, b: Table, now: nat, owner: RateKey, limits: seq<WindowLimit>,
      weight: nat)
    requires Alike(a, b, now)
    ensures AnswerOf(Peek(a, owner, limits, weight, now)) == AnswerOf(Peek(b, owner, limits, weight, now))
  {
    if limits != [] {
      assert View(a, WindowKey(owner, limits[0].secs), now) == View(b, WindowKey(owner, limits[0].secs), now);
      AlikePeek(a, b, now, owner, limits[1..], weight);
    }
  }

  lemma AlikeAfter(a: Table, b: Table, now: nat, op: Op)
    requires Alike(a, b, now) && WellKeyed(a) && WellKeyed(b)
    ensures WellKeyed(After(a, now, op)) && WellKeyed(After(b, now, op))
    ensures Alike(After(a, now, op), After(b, now, op), Clock(now, op))
  {
    var a', b' := After(a, now, op), After(b, now, op);
    forall k: WindowKey ensures View(a', k, Clock(now, op)) == View(b', k, Clock(now, op)) {
      assert View(a, k, now) == View(b, k, now);
      match op
      case Charge(owner, limits, weight) =>
        CommitView(a, owner, limits, weight, now, k);
        CommitView(b, owner, limits, weight, now, k);
      case Pay(owner, limits, tokens, costs) =>
        SettleView(a, owner, limits, tokens, costs, now, k);
        SettleView(b, owner, limits, tokens, costs, now, k);
      case Wait(secs) =>
        LaterView(a, k, now, now + secs);
        LaterView(b, k, now, now + secs);
      case _ =>
    }
  }

  lemma {:induction false} AlikeForever(a: Table, b: Table, now: nat, ops: seq<Op>)
    requires Alike(a, b, now) && WellKeyed(a) && WellKeyed(b)
    ensures Answers(a, now, ops) == Answers(b, now, ops)
    decreases |ops|
  {
    if ops != [] {
      if ops[0].Ask? {
        AlikePeek(a, b, now, ops[0].owner, ops[0].limits, ops[0].weight);
      }
      AlikeAfter(a, b, now, ops[0]);
      AlikeForever(After(a, now, ops[0]), After(b, now, ops[0]), Clock(now, ops[0]), ops[1..]);
    }
  }

  /** Sweeping expired counters changes no later decision. */
  lemma SweepIsInvisible(t: Table, now: nat, ops: seq<Op>)
    requires WellKeyed(t)
    ensures Answers(Cleanup(t, now), now, ops) == Answers(t, now, ops)
  {
    AlikeForever(Cleanup(t, now), t, now, ops);
  }

  /** Saving at one time and loading at a later one gives back the same limiter. */
  lemma RestartIsInvisible(t: Table, saved: nat, now: nat, ops: seq<Op>)
    requires WellKeyed(t) && saved <= now
    ensures Answers(Restart(t, saved, now), now, ops) == Answers(t, now, ops)
  {
    var r := Restart(t, saved, now);
    forall k: WindowKey ensures View(r, k, now) == View(t, k, now) {
      LaterView(t, k, saved, now);
    }
    AlikeForever(r, t, now, ops);
  }

  // ----- the retry delay

  /** A request that this entry rejects even when nothing has been counted. */
  predicate NeverFits(w: WindowLimit, weight: nat) {
    || (w.counts.Some? && weight > w.counts.value)
    || w.tokens == Some(0)
    || w.costs == Some(0)
  }

  /** An expired counter lingers where an entry rejects a request it can never let through. */
  predicate Misleads(t: Table, owner: RateKey, w: WindowLimit, weight: nat, now: nat) {
    var k := WindowKey(owner, w.secs);
    k in t && Expired(t[k], now) && w.secs > 0 && NeverFits(w, weight)
  }

  /** Per limit entry, sweeping changes the verdict, retry delay included, if and only if an expired
      counter lingers and the request can never fit: it is then told to wait for a whole window
      instead of not at all. */
  lemma JudgeAfterSweepIff(t: Table, owner: RateKey, w: WindowLimit, weight: nat, now: nat)
    requires WellKeyed(t)
    ensures Judge(Cleanup(t, now), owner, w, weight, now) == Judge(t, owner, w, weight, now)
            <==> !Misleads(t, owner, w, weight, now)
    ensures AnswerOf(Judge(Cleanup(t, now), owner, w, weight, now)) == AnswerOf(Judge(t, owner, w, weight, now))
    ensures Misleads(t, owner, w, weight, now) ==>
              Judge(t, owner, w, weight, now).Reject? && Judge(t, owner, w, weight, now).retryAfter == 0 &&
              Judge(Cleanup(t, now), owner, w, weight, now).retryAfter == w.secs
  {
  }

  /** The limit entry that decides a rejection. */
  function Deciding(t: Table, owner: RateKey, limits: seq<WindowLimit>, weight: nat, now: nat): Option<WindowLimit> {
    if limits == [] then None
    else if Judge(t, owner, limits[0], weight, now).Reject? then Some(limits[0])
    else Deciding(t, owner, limits[1..], weight, now)
  }

  /** Sweeping changes the full decision on a request if and only if the entry that decides it
      misleads; in particular it changes nothing when no limit is out of the request's reach. */
  lemma {:induction false} PeekAfterSweepIff(t: Table, owner: RateKey, limits: seq<WindowLimit>, weight: nat, now: nat)
    requires WellKeyed(t)
    ensures Peek(Cleanup(t, now), owner, limits, weight, now) == Peek(t, owner, limits, weight, now)
            <==> !(Deciding(t, owner, limits, weight, now).Some? &&
                   Misleads(t, owner, Deciding(t, owner, limits, weight, now).value, weight, now))
    ensures (forall w :: w in limits ==> !NeverFits(w, weight)) ==>
              Peek(Cleanup(t, now), owner, limits, weight, now) == Peek(t, owner, limits, weight, now)
  {
    if limits != [] {
      JudgeAfterSweepIff(t, owner, limits[0], weight, now);
      PeekAfterSweepIff(t, owner, limits[1..], weight, now);
      assert limits[0] in limits && forall w :: w in limits[1..] ==> w in limits;
    }
  }

  /** It does happen: a request heavier than its limit. */
  lemma RetryDelayDiffers(owner: RateKey)
    ensures var t: Table := map[WindowKey(owner, 60) := Counter(1, 0, 0, 0, 60)];
            var heavy := [WindowLimit(Some(1), None, None, 60)];
            && Peek(t, owner, heavy, 2, 100) == Reject(60, Counts, 1, 0)
            && Peek(Cleanup(t, 100), owner, heavy, 2, 100) == Reject(60, Counts, 1, 60)
  {
  }

  // ----- what the advised delay is worth

  /** A request that could fit an empty window is let through by the entry that rejected it, if nothing is
      charged meanwhile, exactly once the advised delay has passed. */
  lemma RetryDelayIsExact(t: Table, owner: RateKey, w: WindowLimit, weight: nat, now: nat, wait: nat)
    requires WellKeyed(t) && (forall k :: k in t ==> t[k].start <= now)
    requires (w.counts.Some? ==> weight <= w.counts.value)
    requires (w.tokens.Some? ==> w.tokens.value > 0) && (w.costs.Some? ==> w.costs.value > 0)
    requires Judge(t, owner, w, weight, now).Reject?
    ensures Judge(t, owner, w, weight, now + wait).Allow? <==> Judge(t, owner, w, weight, now).retryAfter <= wait
  {}
}
