/**
 What a rejection names, what clearing and sweeping leave behind, and how the requests under way
 add up.
 */
module RateEffects {

  import opened Wrappers
  import opened RateWindows
  import opened RateRuns
  import opened RateLaws

  // ----- what a rejection names

  /** In this dimension the entry is over: a request no longer fits its counts limit, or its tokens or
      its costs limit is reached. */
  predicate Over(w: WindowLimit, counts: nat, tokens: nat, costs: nat, d: Dimension, weight: nat) {
    match d
    case Counts => w.counts.Some? && counts + weight > w.counts.value
    case Tokens => w.tokens.Some? && tokens >= w.tokens.value
    case Costs => w.costs.Some? && costs >= w.costs.value
  }

  /** The same for the live counter of the entry. */
  predicate OverIn(t: Table, owner: RateKey, w: WindowLimit, d: Dimension, weight: nat, now: nat) {
    var k := WindowKey(owner, w.secs);
    if k in t && w.secs > 0 && now < t[k].start + w.secs then Over(w, t[k].counts, t[k].tokens, t[k].costs, d, weight)
    else Over(w, 0, 0, 0, d, weight)
  }

  /** The verdict names this entry's window and its first dimension that is over, with its limit. */
  predicate Names(t: Table, owner: RateKey, w: WindowLimit, weight: nat, now: nat, v: Verdict) {
    && v.Reject? && v.secs == w.secs && OverIn(t, owner, w, v.dim, weight, now)
    && (v.dim.Counts? ==> Some(v.limit) == w.counts)
    && (v.dim.Tokens? ==> Some(v.limit) == w.tokens && !OverIn(t, owner, w, Counts, weight, now))
    && (v.dim.Costs? ==> Some(v.limit) == w.costs && !OverIn(t, owner, w, Counts, weight, now)
                         && !OverIn(t, owner, w, Tokens, weight, now))
  }

  ghost predicate NotOver(t: Table, owner: RateKey, w: WindowLimit, weight: nat, now: nat) {
    forall d :: !OverIn(t, owner, w, d, weight, now)
  }

  lemma JudgeNames(t: Table, owner: RateKey, w: WindowLimit, weight: nat, now: nat)
    requires WellKeyed(t)
    ensures var v := Judge(t, owner, w, weight, now);
            if v.Reject? then Names(t, owner, w, weight, now, v) else NotOver(t, owner, w, weight, now)
  {
    var c := View(t, WindowKey(owner, w.secs), now);
    assert forall d :: Rejects(c, w, d, weight) <==> OverIn(t, owner, w, d, weight, now);
  }

  /** A rejection names the first entry that is over in some dimension, and of its dimensions the first of
      requests, tokens and costs that is over; a request is allowed only when no entry is. */
  lemma {:induction false} RejectionNamesTheFirst(
    t: Table, owner: RateKey, limits: seq<WindowLimit>, weight: nat, now: nat) returns (i: nat)
    requires WellKeyed(t)
    ensures i <= |limits| && (Peek(t, owner, limits, weight, now).Reject? <==> i < |limits|)
    ensures forall j :: 0 <= j < i ==> NotOver(t, owner, limits[j], weight, now)
    ensures i < |limits| ==> Names(t, owner, limits[i], weight, now, Peek(t, owner, limits, weight, now))
  {
    if limits == [] {
      i := 0;
    } else {
      JudgeNames(t, owner, limits[0], weight, now);
      if Judge(t, owner, limits[0], weight, now).Reject? {
        i := 0;
      } else {
        i := RejectionNamesTheFirst(t, owner, limits[1..], weight, now);
        assert forall j :: 0 < j < |limits| ==> limits[j] == limits[1..][j - 1];
        i := i + 1;
      }
    }
  }

  // ----- clearing

  /** All that was charged to this owner after the first `n` steps. */
  function ChargedAfter(plan: Plan, steps: seq<Step>, n: nat, owner: RateKey, d: Dimension): nat {
    if |steps| <= n then 0
    else
      ChargedAfter(plan, steps[..|steps| - 1], n, owner, d)
      + Charged(Exec(plan, steps[..|steps| - 1]), steps[|steps| - 1], owner, d)
  }

  ghost predicate AtMost(s: Limiter, k: WindowKey, d: Dimension, n: nat) {
    RowsKeyed(s) && (k in s.table ==> Used(Some(s.table[k]), d) <= n)
  }

  lemma StepAtMost(plan: Plan, s: Limiter, step: Step, k: WindowKey, d: Dimension, n: nat)
    requires AtMost(s, k, d, n) && Takes(plan, k, d) && !step.Reboot?
    ensures AtMost(Apply(plan, s, step), k, d, n + Charged(s, step, k.owner, d))
  {
    StepKeepsKeyed(plan, s, step);
    if !Clears(step, k) { StepTakes(plan, s, step, k, d); }
  }

  lemma ClearedIsGone(plan: Plan, s: Limiter, step: Step, k: WindowKey, d: Dimension)
    requires RowsKeyed(s) && Clears(step, k)
    ensures AtMost(Apply(plan, s, step), k, d, 0)
  {
    StepKeepsKeyed(plan, s, step);
  }

  lemma OneMoreCharge(plan: Plan, steps: seq<Step>, n: nat, owner: RateKey, d: Dimension)
    requires n < |steps|
    ensures ChargedAfter(plan, steps, n, owner, d) ==
            ChargedAfter(plan, steps[..|steps| - 1], n, owner, d)
            + Charged(Exec(plan, steps[..|steps| - 1]), steps[|steps| - 1], owner, d)
  {}

  /** A window cleared by its key, or by a schedule switch, is forgotten: until the next restart its counter
      holds no more than what is charged after the clear. */
  lemma {:induction false} ClearForgets(plan: Plan, steps: seq<Step>, n: nat, k: WindowKey, d: Dimension, s: Limiter)
    requires Takes(plan, k, d) && 0 < n <= |steps| && Clears(steps[n - 1], k) && s == Exec(plan, steps)
    requires forall i :: n <= i < |steps| ==> !steps[i].Reboot?
    ensures AtMost(s, k, d, ChargedAfter(plan, steps, n, k.owner, d))
    decreases |steps|
  {
    var front, last := steps[..|steps| - 1], steps[|steps| - 1];
    var m := Exec(plan, front);
    if |steps| == n {
      RunIsPast(plan, front, k);
      ClearedIsGone(plan, m, last, k, d);
    } else {
      ClearForgets(plan, front, n, k, d, m);
      StepAtMost(plan, m, last, k, d, ChargedAfter(plan, front, n, k.owner, d));
      OneMoreCharge(plan, steps, n, k.owner, d);
    }
  }

  // ----- sweeping

  /** A sweep leaves exactly the counters whose window is still running. */
  lemma SweepLeavesTheLive(plan: Plan, s: Limiter, k: WindowKey)
    requires RowsKeyed(s)
    ensures var e := Apply(plan, s, Sweep);
            && (k in e.table <==> k in s.table && k.secs > 0 && s.now < s.table[k].start + k.secs)
            && (k in e.table ==> e.table[k] == s.table[k])
  {}

  // ----- the requests under way

  /** What a step adds to this owner's requests under way, or takes off them. */
  function Change(plan: Plan, s: Limiter, step: Step, owner: RateKey): int {
    match step
    case Ask(o, weight) => if o == owner && Peek(s.table, o, plan(o), weight, s.now).Allow? then 1 else 0
    case Pay(i, _, _) => if i < |s.open| && s.open[i].owner == owner && s.open[i].committed then -1 else 0
    case GiveUp(i) => if i < |s.open| && s.open[i].owner == owner then -1 else 0
    case _ => 0
  }

  /** Those allowed since the last restart that have neither settled nor been given up. */
  function UnderWay(plan: Plan, steps: seq<Step>, owner: RateKey): int {
    if steps == [] || steps[|steps| - 1].Reboot? then 0
    else
      var s := Exec(plan, steps[..|steps| - 1]);
      UnderWay(plan, steps[..|steps| - 1], owner) + Change(plan, s, steps[|steps| - 1], owner)
  }

  lemma AskChanges(plan: Plan, s: Limiter, o: RateKey, weight: nat, owner: RateKey)
    ensures Sum(Apply(plan, s, Ask(o, weight)).open, OpenOne(owner)) ==
            Sum(s.open, OpenOne(owner)) + Change(plan, s, Ask(o, weight), owner)
  {
    SumPush(s.open, Open(o, weight, false), OpenOne(owner));
  }

  lemma ChargeChanges(plan: Plan, s: Limiter, i: nat, owner: RateKey)
    ensures Sum(Apply(plan, s, Charge(i)).open, OpenOne(owner)) == Sum(s.open, OpenOne(owner))
  {
    if i < |s.open| { SumUpdate(s.open, i, s.open[i].(committed := true), OpenOne(owner)); }
  }

  lemma EndChanges(plan: Plan, s: Limiter, i: nat, tokens: nat, costs: nat, owner: RateKey)
    ensures Sum(Apply(plan, s, Pay(i, tokens, costs)).open, OpenOne(owner)) ==
            Sum(s.open, OpenOne(owner)) + Change(plan, s, Pay(i, tokens, costs), owner)
    ensures Sum(Apply(plan, s, GiveUp(i)).open, OpenOne(owner)) ==
            Sum(s.open, OpenOne(owner)) + Change(plan, s, GiveUp(i), owner)
  {
    if i < |s.open| { SumDrop(s.open, i, OpenOne(owner)); }
  }

  lemma StepChanges(plan: Plan, s: Limiter, step: Step, owner: RateKey)
    ensures Sum(Apply(plan, s, step).open, OpenOne(owner)) ==
            if step.Reboot? then 0 else Sum(s.open, OpenOne(owner)) + Change(plan, s, step, owner)
  {
    match step
    case Ask(o, weight) => AskChanges(plan, s, o, weight, owner);
    case Charge(i) => ChargeChanges(plan, s, i, owner);
    case Pay(i, tokens, costs) => EndChanges(plan, s, i, tokens, costs, owner);
    case GiveUp(i) => EndChanges(plan, s, i, 0, 0, owner);
    case _ =>
  }

  /** Every request that is allowed ends once, by settling or by being given up. */
  lemma {:induction false} RequestsBalance(plan: Plan, steps: seq<Step>, owner: RateKey)
    ensures Sum(Exec(plan, steps).open, OpenOne(owner)) == UnderWay(plan, steps, owner)
    decreases |steps|
  {
    if steps != [] {
      var before := steps[..|steps| - 1];
      RequestsBalance(plan, before, owner);
      StepChanges(plan, Exec(plan, before), steps[|steps| - 1], owner);
    }
  }
}
