/**
 What a counter holds, exactly: all that was charged to its owner since its window started,
 read off the steps of the run, dimension by dimension.
 */
module RateLaws {

  import opened Wrappers
  import opened RateWindows
  import opened RateRuns

  /** What a step charges this owner: a request's weight when it is counted, its tokens and its costs when
      it settles. */
  function Charged(s: Limiter, step: Step, owner: RateKey, d: Dimension): nat {
    match step
    case Charge(i) =>
      if i < |s.open| && !s.open[i].committed && s.open[i].owner == owner && d == Counts then s.open[i].weight else 0
    case Pay(i, tokens, costs) =>
      if i < |s.open| && s.open[i].committed && s.open[i].owner == owner
      then if d == Tokens then tokens else if d == Costs then costs else 0
      else 0
    case _ => 0
  }

  /** The owner's windows of this length count in this dimension: any limit of that length will do for
      tokens and costs, one with a counts limit for counts. */
  ghost predicate Takes(plan: Plan, k: WindowKey, d: Dimension) {
    k.secs > 0 && exists w :: w in plan(k.owner) && w.secs == k.secs && (d.Counts? ==> w.counts.Some?)
  }

  lemma TakesSecs(plan: Plan, k: WindowKey, d: Dimension)
    requires Takes(plan, k, d)
    ensures k.secs in AllSecs(plan(k.owner)) && (d.Counts? ==> k.secs in CountSecs(plan(k.owner)))
  {}

  /** The step clears this very window. */
  predicate Clears(step: Step, k: WindowKey) {
    (step.Clear? && step.keyHash == k.owner.keyHash) || (step.Switch? && step.owner == k.owner && k.secs in step.stale)
  }

  /** All that was charged from second `start` on. */
  function Since(plan: Plan, steps: seq<Step>, k: WindowKey, d: Dimension, start: nat): nat {
    if steps == [] then 0
    else
      var s := Exec(plan, steps[..|steps| - 1]);
      Since(plan, steps[..|steps| - 1], k, d, start)
      + if start <= s.now then Charged(s, steps[|steps| - 1], k.owner, d) else 0
  }

  /** All that was charged to this owner at times in `[from, to)`. */
  function ChargedIn(plan: Plan, steps: seq<Step>, owner: RateKey, d: Dimension, from: nat, to: nat): nat {
    if steps == [] then 0
    else
      var s := Exec(plan, steps[..|steps| - 1]);
      ChargedIn(plan, steps[..|steps| - 1], owner, d, from, to)
      + if from <= s.now < to then Charged(s, steps[|steps| - 1], owner, d) else 0
  }

  /** Neither a clear of the window nor a restart from second `start` on. */
  ghost predicate Untouched(plan: Plan, steps: seq<Step>, k: WindowKey, start: nat) {
    steps != [] ==>
      && Untouched(plan, steps[..|steps| - 1], k, start)
      && (start <= Exec(plan, steps[..|steps| - 1]).now ==>
          !Clears(steps[|steps| - 1], k) && !steps[|steps| - 1].Reboot?)
  }

  // ----- one step

  predicate RowPast(row: Option<Counter>, now: nat) { row.Some? ==> row.value.start <= now }

  /** Counters and rows started in the past. */
  predicate AllPast(s: Limiter, k: WindowKey) {
    RowPast(Get(s.table, k), s.now) && RowPast(Get(s.batch, k), s.now) && RowPast(Get(s.saved, k), s.now)
  }

  /** From `s` to `e` the counter takes `amount` in dimension `d`: a live one adds it, and a new one starts
      with it when there is no live one. */
  ghost predicate TakesIn(s: Limiter, e: Limiter, k: WindowKey, d: Dimension, amount: nat) {
    && (k in e.table ==>
          || (k in s.table && e.table[k].start == s.table[k].start
              && Used(Some(e.table[k]), d) == Used(Some(s.table[k]), d) + amount)
          || (View(s.table, k, s.now).None? && e.table[k].start == s.now && Used(Some(e.table[k]), d) == amount))
    && (amount > 0 || View(s.table, k, s.now).Some? ==> View(e.table, k, s.now).Some?)
  }

  lemma CommittedCounter(t: Table, owner: RateKey, limits: seq<WindowLimit>, weight: nat, now: nat, k: WindowKey)
    ensures Get(Commit(t, owner, limits, weight, now), k) ==
            if k.owner == owner && k.secs in CountSecs(limits) then Some(BumpCounts(Get(t, k), k.secs, weight, now))
            else Get(t, k)
  {
    assert k == WindowKey(k.owner, k.secs);
  }

  lemma SettledCounter(
    t: Table, owner: RateKey, limits: seq<WindowLimit>, tokens: nat, costs: nat, now: nat, k: WindowKey)
    ensures Get(Settle(t, owner, limits, tokens, costs, now), k) ==
            if k.owner == owner && k.secs in AllSecs(limits) && (tokens > 0 || costs > 0)
            then Some(BumpUsage(Get(t, k), k.secs, tokens, costs, now)) else Get(t, k)
  {
    assert k == WindowKey(k.owner, k.secs);
  }

  /** The same for the counter alone. */
  predicate CounterTakesIn(c: Option<Counter>, e: Option<Counter>, now: nat, d: Dimension, amount: nat) {
    var live := c.Some? && !Expired(c.value, now);
    && (e.Some? ==>
          || (c.Some? && e.value.start == c.value.start && Used(e, d) == Used(c, d) + amount)
          || (!live && e.value.start == now && Used(e, d) == amount))
    && (amount > 0 || live ==> e.Some? && !Expired(e.value, now))
  }

  lemma BumpsTakeIn(c: Option<Counter>, secs: nat, now: nat, weight: nat, tokens: nat, costs: nat, d: Dimension)
    requires secs > 0 && (c.Some? ==> c.value.secs == secs)
    ensures CounterTakesIn(c, Some(BumpCounts(c, secs, weight, now)), now, d, if d == Counts then weight else 0)
    ensures CounterTakesIn(c, Some(BumpUsage(c, secs, tokens, costs, now)), now, d,
                           if d == Tokens then tokens else if d == Costs then costs else 0)
  {}

  lemma TakesInIff(s: Limiter, e: Limiter, k: WindowKey, d: Dimension, amount: nat)
    requires RowsKeyed(s) && CounterTakesIn(Get(s.table, k), Get(e.table, k), s.now, d, amount)
    ensures TakesIn(s, e, k, d, amount)
  {}

  lemma ChargeTakes(plan: Plan, s: Limiter, i: nat, k: WindowKey, d: Dimension)
    requires RowsKeyed(s) && Takes(plan, k, d)
    ensures TakesIn(s, Apply(plan, s, Charge(i)), k, d, Charged(s, Charge(i), k.owner, d))
  {
    TakesSecs(plan, k, d);
    if i < |s.open| && !s.open[i].committed {
      var r := s.open[i];
      CommittedCounter(s.table, r.owner, plan(r.owner), r.weight, s.now, k);
      BumpsTakeIn(Get(s.table, k), k.secs, s.now, r.weight, 0, 0, d);
    }
    TakesInIff(s, Apply(plan, s, Charge(i)), k, d, Charged(s, Charge(i), k.owner, d));
  }

  lemma PayTakes(plan: Plan, s: Limiter, i: nat, tokens: nat, costs: nat, k: WindowKey, d: Dimension)
    requires RowsKeyed(s) && Takes(plan, k, d)
    ensures TakesIn(s, Apply(plan, s, Pay(i, tokens, costs)), k, d, Charged(s, Pay(i, tokens, costs), k.owner, d))
  {
    TakesSecs(plan, k, d);
    if i < |s.open| && s.open[i].committed {
      var r := s.open[i];
      SettledCounter(s.table, r.owner, plan(r.owner), tokens, costs, s.now, k);
      BumpsTakeIn(Get(s.table, k), k.secs, s.now, 0, tokens, costs, d);
    }
    TakesInIff(s, Apply(plan, s, Pay(i, tokens, costs)), k, d, Charged(s, Pay(i, tokens, costs), k.owner, d));
  }

  lemma StepTakes(plan: Plan, s: Limiter, step: Step, k: WindowKey, d: Dimension)
    requires RowsKeyed(s) && Takes(plan, k, d) && !Clears(step, k) && !step.Reboot?
    ensures TakesIn(s, Apply(plan, s, step), k, d, Charged(s, step, k.owner, d))
  {
    match step
    case Charge(i) => ChargeTakes(plan, s, i, k, d);
    case Pay(i, tokens, costs) => PayTakes(plan, s, i, tokens, costs, k, d);
    case _ =>
  }

  /** A counter keeps its start or starts now. */
  lemma StartsNow(plan: Plan, s: Limiter, step: Step, k: WindowKey)
    requires !step.Reboot?
    ensures var t := Apply(plan, s, step).table;
            k in t ==> (k in s.table && t[k].start == s.table[k].start) || t[k].start == s.now
  {}

  /** The rows of a window change only by a snapshot of the counter and by writing and deleting. */
  lemma RowsAfter(plan: Plan, s: Limiter, step: Step, k: WindowKey)
    requires !step.Reboot?
    ensures var e := Apply(plan, s, step);
            && (Get(e.batch, k).Some? ==>
                  Get(e.batch, k) == Get(s.batch, k) || (step.Snap? && Get(e.batch, k) == Get(s.table, k)))
            && (Get(e.saved, k).Some? ==> Get(e.saved, k) == Get(s.saved, k) || Get(e.saved, k) == Get(s.batch, k))
  {}

  lemma StepKeepsPast(plan: Plan, s: Limiter, step: Step, k: WindowKey)
    requires AllPast(s, k)
    ensures AllPast(Apply(plan, s, step), k)
  {
    TimeGrows(plan, s, step);
    if !step.Reboot? {
      StartsNow(plan, s, step, k);
      RowsAfter(plan, s, step, k);
    }
  }

  lemma StepKeepsKeyed(plan: Plan, s: Limiter, step: Step)
    requires RowsKeyed(s)
    ensures RowsKeyed(Apply(plan, s, step))
  {}

  lemma {:induction false} RunIsPast(plan: Plan, steps: seq<Step>, k: WindowKey)
    ensures AllPast(Exec(plan, steps), k) && RowsKeyed(Exec(plan, steps))
    decreases |steps|
  {
    if steps != [] {
      RunIsPast(plan, steps[..|steps| - 1], k);
      StepKeepsPast(plan, Exec(plan, steps[..|steps| - 1]), steps[|steps| - 1], k);
      StepKeepsKeyed(plan, Exec(plan, steps[..|steps| - 1]), steps[|steps| - 1]);
    }
  }

  // ----- whole runs

  /** The counter holds what was charged since it started; and whoever was charged in this very second has
      a live counter. */
  ghost predicate Holds(plan: Plan, steps: seq<Step>, s: Limiter, k: WindowKey, d: Dimension) {
    && (k in s.table && Untouched(plan, steps, k, s.table[k].start) ==>
          Used(Some(s.table[k]), d) == Since(plan, steps, k, d, s.table[k].start))
    && (Untouched(plan, steps, k, s.now) && Since(plan, steps, k, d, s.now) > 0 ==> View(s.table, k, s.now).Some?)
  }

  lemma {:induction false} NothingYetNow(plan: Plan, steps: seq<Step>, k: WindowKey, d: Dimension, start: nat)
    requires Exec(plan, steps).now < start
    ensures Since(plan, steps, k, d, start) == 0 && Untouched(plan, steps, k, start)
    decreases |steps|
  {
    if steps != [] {
      TimeGrows(plan, Exec(plan, steps[..|steps| - 1]), steps[|steps| - 1]);
      NothingYetNow(plan, steps[..|steps| - 1], k, d, start);
    }
  }

  lemma SinceSnoc(plan: Plan, before: seq<Step>, last: Step, steps: seq<Step>, s: Limiter, k: WindowKey,
      d: Dimension, start: nat)
    requires steps != [] && before == steps[..|steps| - 1] && last == steps[|steps| - 1] && s == Exec(plan, before)
    requires start <= s.now
    ensures Since(plan, steps, k, d, start) == Since(plan, before, k, d, start) + Charged(s, last, k.owner, d)
    ensures Untouched(plan, steps, k, start) <==> Untouched(plan, before, k, start) && !Clears(last, k) && !last.Reboot?
  {}

  /** The first half for one more step. */
  lemma CounterHolds(plan: Plan, before: seq<Step>, last: Step, steps: seq<Step>, s: Limiter, e: Limiter,
      k: WindowKey, d: Dimension)
    requires steps != [] && before == steps[..|steps| - 1] && last == steps[|steps| - 1] && s == Exec(plan, before)
    requires e == Apply(plan, s, last) && RowsKeyed(s) && AllPast(s, k) && AllPast(e, k) && Takes(plan, k, d)
    requires Holds(plan, before, s, k, d)
    requires k in e.table && Untouched(plan, steps, k, e.table[k].start)
    ensures Used(Some(e.table[k]), d) == Since(plan, steps, k, d, e.table[k].start)
  {
    var start := e.table[k].start;
    if last.Tick? {
      SinceSnoc(plan, before, last, steps, s, k, d, start);
    } else {
      SinceSnoc(plan, before, last, steps, s, k, d, start);
      StepTakes(plan, s, last, k, d);
    }
  }

  lemma ChargedIsLive(plan: Plan, before: seq<Step>, last: Step, steps: seq<Step>, s: Limiter, e: Limiter,
      k: WindowKey, d: Dimension)
    requires steps != [] && before == steps[..|steps| - 1] && last == steps[|steps| - 1] && s == Exec(plan, before)
    requires e == Apply(plan, s, last) && RowsKeyed(s) && Takes(plan, k, d) && Holds(plan, before, s, k, d)
    requires Untouched(plan, steps, k, e.now) && Since(plan, steps, k, d, e.now) > 0
    ensures View(e.table, k, e.now).Some?
  {
    TimeGrows(plan, s, last);
    if s.now < e.now {
      NothingYetNow(plan, before, k, d, e.now);
    } else {
      SinceSnoc(plan, before, last, steps, s, k, d, e.now);
      StepTakes(plan, s, last, k, d);
    }
  }

  lemma {:induction false} RunHolds(plan: Plan, steps: seq<Step>, k: WindowKey, d: Dimension)
    requires Takes(plan, k, d)
    ensures Holds(plan, steps, Exec(plan, steps), k, d)
    decreases |steps|
  {
    if steps != [] {
      var before, last := steps[..|steps| - 1], steps[|steps| - 1];
      var s, e := Exec(plan, before), Exec(plan, steps);
      RunHolds(plan, before, k, d);
      RunIsPast(plan, before, k);
      RunIsPast(plan, steps, k);
      if k in e.table && Untouched(plan, steps, k, e.table[k].start) {
        CounterHolds(plan, before, last, steps, s, e, k, d);
      }
      if Untouched(plan, steps, k, e.now) && Since(plan, steps, k, d, e.now) > 0 {
        ChargedIsLive(plan, before, last, steps, s, e, k, d);
      }
    }
  }

  /** In every run, however requests, expiries, clean-ups and saves interleave, a counter holds the weights
      counted, the tokens settled and the costs settled for its owner since its window started, unless
      the window was cleared or the process restarted since. */
  lemma CounterIsExact(plan: Plan, steps: seq<Step>, k: WindowKey)
    requires k in Exec(plan, steps).table && Untouched(plan, steps, k, Exec(plan, steps).table[k].start)
    ensures var c := Exec(plan, steps).table[k];
            && (Takes(plan, k, Counts) ==> c.counts == Since(plan, steps, k, Counts, c.start))
            && (Takes(plan, k, Tokens) ==> c.tokens == Since(plan, steps, k, Tokens, c.start))
            && (Takes(plan, k, Costs) ==> c.costs == Since(plan, steps, k, Costs, c.start))
  {
    if Takes(plan, k, Counts) { RunHolds(plan, steps, k, Counts); }
    if Takes(plan, k, Tokens) { RunHolds(plan, steps, k, Tokens); }
    if Takes(plan, k, Costs) { RunHolds(plan, steps, k, Costs); }
  }

  // ----- what a peek decides

  /** What the log holds for the live window, if there is one. */
  ghost function Live(plan: Plan, steps: seq<Step>, k: WindowKey, d: Dimension): nat {
    var s := Exec(plan, steps);
    if View(s.table, k, s.now).Some? then Since(plan, steps, k, d, s.table[k].start) else 0
  }

  lemma LiveIsUsed(plan: Plan, steps: seq<Step>, k: WindowKey, d: Dimension)
    requires Takes(plan, k, d)
    requires var s := Exec(plan, steps); View(s.table, k, s.now).Some? ==> Untouched(plan, steps, k, s.table[k].start)
    ensures var s := Exec(plan, steps); Used(View(s.table, k, s.now), d) == Live(plan, steps, k, d)
  {
    RunHolds(plan, steps, k, d);
  }

  /** The window of this limit entry has not been cleared, nor the process restarted, since it started. */
  ghost predicate Undisturbed(plan: Plan, steps: seq<Step>, k: WindowKey) {
    var s := Exec(plan, steps);
    k.secs > 0 && (View(s.table, k, s.now).Some? ==> Untouched(plan, steps, k, s.table[k].start))
  }

  /** The request fits every dimension that this entry limits, by what the log holds for its window. */
  ghost predicate FitsLog(plan: Plan, steps: seq<Step>, owner: RateKey, w: WindowLimit, weight: nat) {
    var k := WindowKey(owner, w.secs);
    && (w.counts.Some? ==> Live(plan, steps, k, Counts) + weight <= w.counts.value)
    && (w.tokens.Some? ==> Live(plan, steps, k, Tokens) < w.tokens.value)
    && (w.costs.Some? ==> Live(plan, steps, k, Costs) < w.costs.value)
  }

  ghost predicate NoneRejects(s: Limiter, owner: RateKey, w: WindowLimit, weight: nat) {
    forall d :: !Rejects(View(s.table, WindowKey(owner, w.secs), s.now), w, d, weight)
  }

  lemma EntryFitsIff(plan: Plan, steps: seq<Step>, owner: RateKey, w: WindowLimit, weight: nat)
    requires w in plan(owner) && Undisturbed(plan, steps, WindowKey(owner, w.secs))
    ensures NoneRejects(Exec(plan, steps), owner, w, weight) <==> FitsLog(plan, steps, owner, w, weight)
  {
    var s, k := Exec(plan, steps), WindowKey(owner, w.secs);
    if w.counts.Some? { LiveIsUsed(plan, steps, k, Counts); }
    LiveIsUsed(plan, steps, k, Tokens);
    LiveIsUsed(plan, steps, k, Costs);
    var c := View(s.table, k, s.now);
    assert NoneRejects(s, owner, w, weight) <==>
      !Rejects(c, w, Counts, weight) && !Rejects(c, w, Tokens, weight) && !Rejects(c, w, Costs, weight);
  }

  /** In every run a request is allowed if and only if, in every limit entry, the weights counted in its live
      window leave room for its own, and the tokens and costs settled in it are below their limits. */
  lemma PeekReadsTheLog(plan: Plan, steps: seq<Step>, owner: RateKey, weight: nat)
    requires forall w :: w in plan(owner) ==> Undisturbed(plan, steps, WindowKey(owner, w.secs))
    ensures var s := Exec(plan, steps);
            Peek(s.table, owner, plan(owner), weight, s.now).Allow? <==>
            forall w :: w in plan(owner) ==> FitsLog(plan, steps, owner, w, weight)
  {
    var s := Exec(plan, steps);
    PeekAllows(s.table, owner, plan(owner), weight, s.now);
    assert Peek(s.table, owner, plan(owner), weight, s.now).Allow? <==>
      forall w :: w in plan(owner) ==> NoneRejects(s, owner, w, weight);
    forall w | w in plan(owner) ensures NoneRejects(s, owner, w, weight) <==> FitsLog(plan, steps, owner, w, weight) {
      EntryFitsIff(plan, steps, owner, w, weight);
    }
  }
}
