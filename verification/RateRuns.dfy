/**
 Runs of the limiter: any number of requests peek, commit and settle concurrently while
 windows expire, are cleaned up, cleared (all of a key or single ones) or restored.  How far the counters can pass the
 limits, and how much weight any stretch of time can admit.
 */
module RateRuns {

  import opened Wrappers
  import opened RateWindows

  /** A request that was allowed and has neither settled nor been given up. */
  datatype Open = Open(owner: RateKey, weight: nat, committed: bool)

  /** `batch` is what the last snapshot took and has not yet written, `saved` the rows in the
      database. */
  datatype Limiter = Limiter(table: Table, now: nat, open: seq<Open>, batch: Table, saved: Table)

  /** `Switch` is the clearing of single windows when a schedule slot begins or ends. */
  datatype Step =
    | Tick(secs: nat)
    | Ask(owner: RateKey, weight: nat)
    | Charge(i: nat)
    | Pay(i: nat, tokens: nat, costs: nat)
    | GiveUp(i: nat)
    | Sweep
    | Clear(keyHash: string)
    | Switch(owner: RateKey, stale: seq<nat>)
    | Snap
    | SaveRow(k: WindowKey)
    | DeleteRows(keyHash: string)
    | Reboot

  /** The limits of every owner, fixed for the run. */
  type Plan = RateKey -> seq<WindowLimit>

  const START := Limiter(map[], 0, [], map[], map[])

  function Drop(open: seq<Open>, i: nat): seq<Open>
    requires i < |open|
  {
    open[..i] + open[i + 1..]
  }

  /** One step; a step that is not possible in this state changes nothing. */
  function Apply(plan: Plan, s: Limiter, step: Step): Limiter {
    match step
    case Tick(secs) => s.(now := s.now + secs)
    case Ask(owner, weight) =>
      if Peek(s.table, owner, plan(owner), weight, s.now).Allow?
      then s.(open := s.open + [Open(owner, weight, false)]) else s
    case Charge(i) =>
      if i < |s.open| && !s.open[i].committed then
        var r := s.open[i];
        s.(table := Commit(s.table, r.owner, plan(r.owner), r.weight, s.now),
            open := s.open[i := r.(committed := true)])
      else s
    case Pay(i, tokens, costs) =>
      if i < |s.open| && s.open[i].committed then
        var r := s.open[i];
        s.(table := Settle(s.table, r.owner, plan(r.owner), tokens, costs, s.now), open := Drop(s.open, i))
      else s
    case GiveUp(i) => if i < |s.open| then s.(open := Drop(s.open, i)) else s
    case Sweep => s.(table := Cleanup(s.table, s.now))
    case Clear(keyHash) => s.(table := ClearKey(s.table, keyHash))
    case Switch(owner, stale) => s.(table := ClearWindows(s.table, owner, stale))
    case Snap => s.(batch := Cleanup(s.table, s.now))
    case SaveRow(k) => if k in s.batch then s.(saved := s.saved[k := s.batch[k]], batch := s.batch - {k}) else s
    case DeleteRows(keyHash) => s.(saved := ClearKey(s.saved, keyHash))
    case Reboot => Limiter(Cleanup(s.saved, s.now), s.now, [], map[], s.saved)
  }

  function Exec(plan: Plan, steps: seq<Step>): Limiter {
    if steps == [] then START else Apply(plan, Exec(plan, steps[..|steps| - 1]), steps[|steps| - 1])
  }

  lemma TimeGrows(plan: Plan, s: Limiter, step: Step)
    ensures s.now <= Apply(plan, s, step).now
  {}

  // ----- sums over open requests

  function Sum(open: seq<Open>, f: Open -> nat): nat {
    if open == [] then 0 else f(open[0]) + Sum(open[1..], f)
  }

  lemma {:induction false} SumAppend(a: seq<Open>, b: seq<Open>, f: Open -> nat)
    ensures Sum(a + b, f) == Sum(a, f) + Sum(b, f)
  {
    if a == [] {
      assert a + b == b;
    } else {
      assert (a + b)[1..] == a[1..] + b;
      SumAppend(a[1..], b, f);
    }
  }

  lemma SumDrop(open: seq<Open>, i: nat, f: Open -> nat)
    requires i < |open|
    ensures Sum(open, f) == Sum(Drop(open, i), f) + f(open[i])
  {
    assert open == open[..i] + ([open[i]] + open[i + 1..]);
    SumAppend(open[..i], [open[i]] + open[i + 1..], f);
    SumAppend([open[i]], open[i + 1..], f);
    SumAppend(open[..i], open[i + 1..], f);
  }

  lemma SumUpdate(open: seq<Open>, i: nat, r: Open, f: Open -> nat)
    requires i < |open|
    ensures Sum(open[i := r], f) + f(open[i]) == Sum(open, f) + f(r)
  {
    SumDrop(open, i, f);
    SumDrop(open[i := r], i, f);
    assert Drop(open[i := r], i) == Drop(open, i);
  }

  lemma SumPush(open: seq<Open>, r: Open, f: Open -> nat)
    ensures Sum(open + [r], f) == Sum(open, f) + f(r)
  {
    SumAppend(open, [r], f);
    assert [r][1..] == [];
  }

  /** Weight allowed for this owner but not yet counted. */
  function Uncounted(owner: RateKey): Open -> nat {
    (r: Open) => if r.owner == owner && !r.committed then r.weight else 0
  }

  function UncountedOne(owner: RateKey): Open -> nat {
    (r: Open) => if r.owner == owner && !r.committed then 1 else 0
  }

  function OpenOne(owner: RateKey): Open -> nat {
    (r: Open) => if r.owner == owner then 1 else 0
  }

  /** At most `c` requests of the owner lie between their peek and their commit, none heavier
      than `maxWeight`. */
  ghost predicate Modest(s: Limiter, owner: RateKey, c: nat, maxWeight: nat) {
    && Sum(s.open, UncountedOne(owner)) <= c
    && forall i :: 0 <= i < |s.open| && s.open[i].owner == owner ==> s.open[i].weight <= maxWeight
  }

  ghost predicate ModestRun(plan: Plan, steps: seq<Step>, owner: RateKey, c: nat, maxWeight: nat) {
    && Modest(Exec(plan, steps), owner, c, maxWeight)
    && (steps != [] ==> ModestRun(plan, steps[..|steps| - 1], owner, c, maxWeight))
  }

  lemma {:induction false} UncountedBound(open: seq<Open>, owner: RateKey, maxWeight: nat)
    requires forall i :: 0 <= i < |open| && open[i].owner == owner ==> open[i].weight <= maxWeight
    ensures Sum(open, Uncounted(owner)) <= Sum(open, UncountedOne(owner)) * maxWeight
  {
    if open != [] {
      assert forall i :: 0 <= i < |open[1..]| ==> open[1..][i] == open[i + 1];
      UncountedBound(open[1..], owner, maxWeight);
    }
  }

  lemma TimesGrows(n: nat, m: nat, w: nat)
    requires n <= m
    ensures n * w <= m * w
  {
  }

  // ----- counts overshoot

  ghost predicate RowsKeyed(s: Limiter) { WellKeyed(s.table) && WellKeyed(s.batch) && WellKeyed(s.saved) }

  /** Counted and still uncounted weight together stay below `bound`, and so does every row that
      a restart may bring back. */
  ghost predicate CountsOk(s: Limiter, k: WindowKey, bound: nat) {
    && RowsKeyed(s)
    && Used(View(s.table, k, s.now), Counts) + Sum(s.open, Uncounted(k.owner)) <= bound
    && Used(Get(s.batch, k), Counts) <= bound && Used(Get(s.saved, k), Counts) <= bound
  }

  ghost predicate Limits(plan: Plan, k: WindowKey, d: Dimension, limit: nat) {
    exists w :: w in plan(k.owner) && w.secs == k.secs && Limit(w, d) == Some(limit)
  }

  /** An allowed peek found room in every window the owner is limited by. */
  lemma AllowedFits(plan: Plan, s: Limiter, weight: nat, k: WindowKey, d: Dimension, limit: nat)
    requires Limits(plan, k, d, limit) && Peek(s.table, k.owner, plan(k.owner), weight, s.now).Allow?
    ensures d.Counts? ==> Used(View(s.table, k, s.now), d) + weight <= limit
    ensures !d.Counts? ==> Used(View(s.table, k, s.now), d) < limit
  {
    PeekAllows(s.table, k.owner, plan(k.owner), weight, s.now);
    var w :| w in plan(k.owner) && w.secs == k.secs && Limit(w, d) == Some(limit);
    assert k == WindowKey(k.owner, w.secs);
    assert !Rejects(View(s.table, WindowKey(k.owner, w.secs), s.now), w, d, weight);
  }

  lemma OthersUncounted(open: seq<Open>, r: Open, c: nat, maxWeight: nat)
    requires c > 0 && !r.committed && Sum(open + [r], UncountedOne(r.owner)) <= c
    requires forall i :: 0 <= i < |open| && open[i].owner == r.owner ==> open[i].weight <= maxWeight
    ensures Sum(open, Uncounted(r.owner)) <= (c - 1) * maxWeight
  {
    var n := Sum(open, UncountedOne(r.owner));
    assert n <= c - 1 by { SumPush(open, r, UncountedOne(r.owner)); }
    assert Sum(open, Uncounted(r.owner)) <= n * maxWeight by { UncountedBound(open, r.owner, maxWeight); }
    TimesGrows(n, c - 1, maxWeight);
  }

  lemma AskKeepsCounts(plan: Plan, s: Limiter, owner: RateKey, weight: nat, k: WindowKey, limit: nat, c: nat,
      maxWeight: nat)
    requires c > 0 && CountsOk(s, k, limit + (c - 1) * maxWeight) && Limits(plan, k, Counts, limit)
    requires Modest(Apply(plan, s, Ask(owner, weight)), k.owner, c, maxWeight)
    ensures CountsOk(Apply(plan, s, Ask(owner, weight)), k, limit + (c - 1) * maxWeight)
  {
    var s' := Apply(plan, s, Ask(owner, weight));
    var r := Open(owner, weight, false);
    SumPush(s.open, r, Uncounted(k.owner));
    if s' != s && owner == k.owner {
      AllowedFits(plan, s, weight, k, Counts, limit);
      assert forall i :: 0 <= i < |s.open| ==> s'.open[i] == s.open[i];
      OthersUncounted(s.open, r, c, maxWeight);
    }
  }

  /** The steps of requests under way. */
  predicate OfRequest(step: Step) { step.Charge? || step.Pay? || step.GiveUp? }

  lemma StorageKeepsCounts(plan: Plan, s: Limiter, step: Step, k: WindowKey, bound: nat)
    requires CountsOk(s, k, bound) && !step.Ask? && !OfRequest(step)
    ensures CountsOk(Apply(plan, s, step), k, bound)
  {
    if step.Sweep? || step.Clear? || step.Switch? { FewerKeepCounts(plan, s, step, k, bound); }
  }

  lemma FewerKeepCounts(plan: Plan, s: Limiter, step: Step, k: WindowKey, bound: nat)
    requires CountsOk(s, k, bound) && (step.Sweep? || step.Clear? || step.Switch?)
    ensures CountsOk(Apply(plan, s, step), k, bound)
  {
    var t := Apply(plan, s, step).table;
    assert View(t, k, s.now) == View(s.table, k, s.now) || View(t, k, s.now).None?;
  }

  lemma RequestKeepsCounts(plan: Plan, s: Limiter, step: Step, k: WindowKey, bound: nat)
    requires CountsOk(s, k, bound) && OfRequest(step)
    ensures CountsOk(Apply(plan, s, step), k, bound)
  {
    match step
    case Charge(i) =>
      if i < |s.open| && !s.open[i].committed {
        var r := s.open[i];
        CommitView(s.table, r.owner, plan(r.owner), r.weight, s.now, k);
        SumUpdate(s.open, i, r.(committed := true), Uncounted(k.owner));
      }
    case Pay(i, tokens, costs) =>
      if i < |s.open| && s.open[i].committed {
        var r := s.open[i];
        SettleView(s.table, r.owner, plan(r.owner), tokens, costs, s.now, k);
        SumDrop(s.open, i, Uncounted(k.owner));
      }
    case GiveUp(i) => if i < |s.open| { SumDrop(s.open, i, Uncounted(k.owner)); }
    case _ =>
  }

  lemma {:induction false} RunKeepsCounts(plan: Plan, steps: seq<Step>, k: WindowKey, limit: nat, c: nat,
      maxWeight: nat)
    requires c > 0 && Limits(plan, k, Counts, limit) && ModestRun(plan, steps, k.owner, c, maxWeight)
    ensures CountsOk(Exec(plan, steps), k, limit + (c - 1) * maxWeight)
  {
    TimesGrows(0, c - 1, maxWeight);
    if steps != [] {
      var before, last := steps[..|steps| - 1], steps[|steps| - 1];
      RunKeepsCounts(plan, before, k, limit, c, maxWeight);
      var s := Exec(plan, before);
      var bound := limit + (c - 1) * maxWeight;
      if last.Ask? {
        AskKeepsCounts(plan, s, last.owner, last.weight, k, limit, c, maxWeight);
      } else if OfRequest(last) {
        RequestKeepsCounts(plan, s, last, k, bound);
      } else {
        StorageKeepsCounts(plan, s, last, k, bound);
      }
    }
  }

  /** However peeks, commits, settlements, expiries, clean-ups, clears, saves and restarts
      interleave, a restart loading whatever rows were last written, a live counter passes a counts
      limit by at most the weight of the other `c - 1` requests that may be between peek and
      commit; one at a time, never. */
  lemma CountsOvershoot(plan: Plan, steps: seq<Step>, k: WindowKey, limit: nat, c: nat, maxWeight: nat)
    requires c > 0 && Limits(plan, k, Counts, limit) && ModestRun(plan, steps, k.owner, c, maxWeight)
    ensures var s := Exec(plan, steps);
            Used(View(s.table, k, s.now), Counts) <= limit + (c - 1) * maxWeight
  {
    RunKeepsCounts(plan, steps, k, limit, c, maxWeight);
  }

  // ----- tokens and costs overshoot

  /** At most `c` requests of the owner are between their peek and their settlement. */
  ghost predicate FewOpen(s: Limiter, owner: RateKey, c: nat) {
    Sum(s.open, OpenOne(owner)) <= c
  }

  /** What a step settles for this owner. */
  function UsageOf(s: Limiter, step: Step, owner: RateKey, d: Dimension): nat {
    match step
    case Pay(i, tokens, costs) =>
      if i < |s.open| && s.open[i].owner == owner
      then (match d case Counts => 0 case Tokens => tokens case Costs => costs) else 0
    case _ => 0
  }

  ghost predicate FrugalRun(plan: Plan, steps: seq<Step>, owner: RateKey, d: Dimension, c: nat, maxUsage: nat) {
    && FewOpen(Exec(plan, steps), owner, c)
    && (steps != [] ==> UsageOf(Exec(plan, steps[..|steps| - 1]), steps[|steps| - 1], owner, d) <= maxUsage
                        && FrugalRun(plan, steps[..|steps| - 1], owner, d, c, maxUsage))
  }

  /** The most an open request of this owner can still add. */
  function Expected(owner: RateKey, maxUsage: nat): Open -> nat {
    (r: Open) => if r.owner == owner then maxUsage else 0
  }

  lemma {:induction false} ExpectedBound(open: seq<Open>, owner: RateKey, maxUsage: nat)
    ensures Sum(open, Expected(owner, maxUsage)) == Sum(open, OpenOne(owner)) * maxUsage
  {
    if open != [] {
      ExpectedBound(open[1..], owner, maxUsage);
    }
  }

  /** A row a restart may bring back is empty or within the bound. */
  predicate RowOk(c: Option<Counter>, d: Dimension, bound: int) { Used(c, d) == 0 || Used(c, d) <= bound }

  ghost predicate UsageOk(s: Limiter, k: WindowKey, d: Dimension, bound: int, maxUsage: nat) {
    && RowsKeyed(s)
    && RowOk(Get(s.batch, k), d, bound) && RowOk(Get(s.saved, k), d, bound)
    && var used, due := Used(View(s.table, k, s.now), d), Sum(s.open, Expected(k.owner, maxUsage));
       (used == 0 && Sum(s.open, OpenOne(k.owner)) == 0) || used + due <= bound
  }

  lemma AskKeepsUsage(plan: Plan, s: Limiter, owner: RateKey, weight: nat, k: WindowKey, d: Dimension, limit: nat,
      c: nat, maxUsage: nat)
    requires !d.Counts? && UsageOk(s, k, d, limit - 1 + c * maxUsage, maxUsage) && Limits(plan, k, d, limit)
    requires FewOpen(Apply(plan, s, Ask(owner, weight)), k.owner, c)
    ensures UsageOk(Apply(plan, s, Ask(owner, weight)), k, d, limit - 1 + c * maxUsage, maxUsage)
  {
    var s' := Apply(plan, s, Ask(owner, weight));
    var r := Open(owner, weight, false);
    SumPush(s.open, r, OpenOne(k.owner));
    SumPush(s.open, r, Expected(k.owner, maxUsage));
    if s' != s && owner == k.owner {
      AllowedFits(plan, s, weight, k, d, limit);
      ExpectedBound(s'.open, owner, maxUsage);
      TimesGrows(Sum(s'.open, OpenOne(owner)), c, maxUsage);
    }
  }

  lemma StorageKeepsUsage(plan: Plan, s: Limiter, step: Step, k: WindowKey, d: Dimension, bound: int, maxUsage: nat)
    requires UsageOk(s, k, d, bound, maxUsage) && !step.Ask? && !OfRequest(step)
    ensures UsageOk(Apply(plan, s, step), k, d, bound, maxUsage)
  {
    match step
    case Reboot => RebootKeepsUsage(plan, s, k, d, bound, maxUsage);
    case Snap => SnapKeepsUsage(plan, s, k, d, bound, maxUsage);
    case Tick(secs) => LaterView(s.table, k, s.now, s.now + secs);
    case SaveRow(_) => RowsKeepUsage(plan, s, step, k, d, bound, maxUsage);
    case DeleteRows(_) => RowsKeepUsage(plan, s, step, k, d, bound, maxUsage);
    case _ => FewerKeepUsage(plan, s, step, k, d, bound, maxUsage);
  }

  /** Clean-ups and clears only take windows away. */
  lemma FewerKeepUsage(plan: Plan, s: Limiter, step: Step, k: WindowKey, d: Dimension, bound: int, maxUsage: nat)
    requires UsageOk(s, k, d, bound, maxUsage) && (step.Sweep? || step.Clear? || step.Switch?)
    ensures UsageOk(Apply(plan, s, step), k, d, bound, maxUsage)
  {
    var t := Apply(plan, s, step).table;
    assert View(t, k, s.now) == View(s.table, k, s.now) || View(t, k, s.now).None?;
  }

  lemma RowsKeepUsage(plan: Plan, s: Limiter, step: Step, k: WindowKey, d: Dimension, bound: int, maxUsage: nat)
    requires UsageOk(s, k, d, bound, maxUsage) && (step.SaveRow? || step.DeleteRows?)
    ensures UsageOk(Apply(plan, s, step), k, d, bound, maxUsage)
  {}

  lemma RebootKeepsUsage(plan: Plan, s: Limiter, k: WindowKey, d: Dimension, bound: int, maxUsage: nat)
    requires UsageOk(s, k, d, bound, maxUsage)
    ensures UsageOk(Apply(plan, s, Reboot), k, d, bound, maxUsage)
  {}

  lemma SnapKeepsUsage(plan: Plan, s: Limiter, k: WindowKey, d: Dimension, bound: int, maxUsage: nat)
    requires UsageOk(s, k, d, bound, maxUsage)
    ensures UsageOk(Apply(plan, s, Snap), k, d, bound, maxUsage)
  {}

  lemma RequestKeepsUsage(plan: Plan, s: Limiter, step: Step, k: WindowKey, d: Dimension, bound: int, maxUsage: nat)
    requires !d.Counts? && UsageOk(s, k, d, bound, maxUsage) && OfRequest(step)
             && UsageOf(s, step, k.owner, d) <= maxUsage
    ensures UsageOk(Apply(plan, s, step), k, d, bound, maxUsage)
  {
    match step
    case Charge(i) =>
      if i < |s.open| && !s.open[i].committed {
        var r := s.open[i];
        CommitView(s.table, r.owner, plan(r.owner), r.weight, s.now, k);
        SumUpdate(s.open, i, r.(committed := true), OpenOne(k.owner));
        SumUpdate(s.open, i, r.(committed := true), Expected(k.owner, maxUsage));
      }
    case Pay(i, tokens, costs) =>
      if i < |s.open| && s.open[i].committed {
        var r := s.open[i];
        SettleView(s.table, r.owner, plan(r.owner), tokens, costs, s.now, k);
        SumDrop(s.open, i, OpenOne(k.owner));
        SumDrop(s.open, i, Expected(k.owner, maxUsage));
      }
    case GiveUp(i) =>
      if i < |s.open| {
        SumDrop(s.open, i, OpenOne(k.owner));
        SumDrop(s.open, i, Expected(k.owner, maxUsage));
      }
    case _ =>
  }

  lemma {:induction false} RunKeepsUsage(plan: Plan, steps: seq<Step>, k: WindowKey, d: Dimension, limit: nat,
      c: nat, maxUsage: nat)
    requires !d.Counts? && Limits(plan, k, d, limit) && FrugalRun(plan, steps, k.owner, d, c, maxUsage)
    ensures UsageOk(Exec(plan, steps), k, d, limit - 1 + c * maxUsage, maxUsage)
  {
    if steps != [] {
      var before, last := steps[..|steps| - 1], steps[|steps| - 1];
      RunKeepsUsage(plan, before, k, d, limit, c, maxUsage);
      var s := Exec(plan, before);
      var bound := limit - 1 + c * maxUsage;
      if last.Ask? {
        AskKeepsUsage(plan, s, last.owner, last.weight, k, d, limit, c, maxUsage);
      } else if OfRequest(last) {
        RequestKeepsUsage(plan, s, last, k, d, bound, maxUsage);
      } else {
        StorageKeepsUsage(plan, s, last, k, d, bound, maxUsage);
      }
    }
  }

  /** Tokens and costs are checked after the fact, so the requests already let in may still pass
      the limit: a live counter is empty or at most one below the limit plus the usage of the
      `c` requests that can be open at once. */
  lemma UsageOvershoot(plan: Plan, steps: seq<Step>, k: WindowKey, d: Dimension, limit: nat, c: nat, maxUsage: nat)
    requires !d.Counts? && Limits(plan, k, d, limit) && FrugalRun(plan, steps, k.owner, d, c, maxUsage)
    ensures var s := Exec(plan, steps);
            var used := Used(View(s.table, k, s.now), d);
            used == 0 || used <= limit - 1 + c * maxUsage
  {
    RunKeepsUsage(plan, steps, k, d, limit, c, maxUsage);
  }
}
