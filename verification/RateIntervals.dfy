/**
 Windows are fixed, not sliding, so a burst can straddle two of them; but windows start at
 least a window length apart, whoever starts them, and that bounds what is charged in any
 interval of that length: weights as they are counted, tokens and costs as they are settled.
 A restart of the process forgets what was not yet saved, and each one in the interval may
 let a window's worth more through.
 */
module RateIntervals {

  import opened Wrappers
  import opened RateWindows
  import opened RateRuns
  import opened RateLaws

  /** What was charged, when, and the start of the window it fell in. */
  datatype Admission = Admission(time: nat, weight: nat, epoch: nat)

  /** What one step adds to the charges of the owner of `k`. */
  function Admits(plan: Plan, s: Limiter, step: Step, k: WindowKey, d: Dimension): seq<Admission> {
    var t, amount := Apply(plan, s, step).table, Charged(s, step, k.owner, d);
    if amount == 0 then [] else [Admission(s.now, amount, if k in t then t[k].start else s.now)]
  }

  function Admitted(plan: Plan, steps: seq<Step>, k: WindowKey, d: Dimension): seq<Admission> {
    if steps == [] then []
    else
      var before := steps[..|steps| - 1];
      Admitted(plan, before, k, d) + Admits(plan, Exec(plan, before), steps[|steps| - 1], k, d)
  }

  /** The same since the process was last restarted. */
  function Recent(plan: Plan, steps: seq<Step>, k: WindowKey, d: Dimension): seq<Admission> {
    if steps == [] || steps[|steps| - 1].Reboot? then []
    else
      var before := steps[..|steps| - 1];
      Recent(plan, before, k, d) + Admits(plan, Exec(plan, before), steps[|steps| - 1], k, d)
  }

  function EpochSum(log: seq<Admission>, epoch: nat): nat {
    if log == [] then 0
    else EpochSum(log[..|log| - 1], epoch) + if log[|log| - 1].epoch == epoch then log[|log| - 1].weight else 0
  }

  /** Weight admitted at times in `[from, to)`. */
  function IntervalSum(log: seq<Admission>, from: nat, to: nat): nat {
    if log == [] then 0
    else IntervalSum(log[..|log| - 1], from, to)
         + if from <= log[|log| - 1].time < to then log[|log| - 1].weight else 0
  }

  // ----- epochs along a run

  /** Every window that admitted anything lies wholly before `bound`. */
  ghost predicate EpochsBefore(log: seq<Admission>, secs: nat, bound: nat) {
    forall i :: 0 <= i < |log| ==> log[i].epoch + secs <= bound
  }

  ghost predicate EpochsApart(log: seq<Admission>, secs: nat) {
    forall i, j :: 0 <= i < j < |log| ==> log[i].epoch == log[j].epoch || log[i].epoch + secs <= log[j].epoch
  }

  ghost predicate InsideEpochs(log: seq<Admission>, secs: nat, now: nat) {
    forall i :: 0 <= i < |log| ==> log[i].epoch <= log[i].time <= now && log[i].time < log[i].epoch + secs
  }

  ghost predicate EpochTotals(log: seq<Admission>, bound: nat) {
    forall e: nat :: EpochSum(log, e) <= bound
  }

  /** The counter holds at least the admissions of its own window; all others are long over. */
  ghost predicate CounterMatches(s: Limiter, log: seq<Admission>, k: WindowKey, d: Dimension) {
    if k in s.table then
      var c := s.table[k];
      && c.secs == k.secs && c.start <= s.now
      && (forall i :: 0 <= i < |log| ==> log[i].epoch == c.start || log[i].epoch + k.secs <= c.start)
      && Used(Some(c), d) >= EpochSum(log, c.start)
    else
      EpochsBefore(log, k.secs, s.now)
  }

  ghost predicate EpochsOk(s: Limiter, log: seq<Admission>, k: WindowKey, d: Dimension, bound: nat) {
    && AllPast(s, k)
    && EpochsApart(log, k.secs) && InsideEpochs(log, k.secs, s.now)
    && EpochTotals(log, bound) && CounterMatches(s, log, k, d)
  }

  lemma {:induction false} NewEpochIsEmpty(log: seq<Admission>, secs: nat, e: nat)
    requires secs > 0 && EpochsBefore(log, secs, e)
    ensures EpochSum(log, e) == 0
  {
    if log != [] {
      NewEpochIsEmpty(log[..|log| - 1], secs, e);
    }
  }

  /** When no counter is live, every admitting window is over. */
  lemma NoneLive(s: Limiter, log: seq<Admission>, k: WindowKey, d: Dimension)
    requires CounterMatches(s, log, k, d) && View(s.table, k, s.now).None?
    ensures EpochsBefore(log, k.secs, s.now)
  {
  }

  ghost predicate NoClears(steps: seq<Step>, k: WindowKey) {
    forall i :: 0 <= i < |steps| ==> !Clears(steps[i], k)
  }

  /** Adding to a log what falls in the counter's window. */
  lemma {:induction false} EpochSnoc(log: seq<Admission>, more: seq<Admission>, e: nat)
    requires |more| <= 1
    ensures EpochSum(log + more, e) == EpochSum(log, e) +
            if |more| == 1 && more[0].epoch == e then more[0].weight else 0
  {
    if |more| == 1 { assert (log + more)[..|log|] == log; } else { assert log + more == log; }
  }

  /** Where the charge of a step falls: in the window of the counter that took it. */
  lemma AdmitsWhere(plan: Plan, s: Limiter, step: Step, k: WindowKey, d: Dimension)
    requires RowsKeyed(s) && Takes(plan, k, d) && !Clears(step, k) && !step.Reboot?
    ensures var e, more := Apply(plan, s, step), Admits(plan, s, step, k, d);
            && |more| <= 1
            && (|more| == 1 ==> k in e.table && !Expired(e.table[k], s.now)
                                && more == [Admission(s.now, Charged(s, step, k.owner, d), e.table[k].start)])
            && (|more| == 0 ==> Charged(s, step, k.owner, d) == 0)
  {
    StepTakes(plan, s, step, k, d);
  }

  /** The sum over the counter's window after a step. */
  lemma StepMatches(plan: Plan, s: Limiter, step: Step, log: seq<Admission>, k: WindowKey, d: Dimension, bound: nat)
    requires EpochsOk(s, log, k, d, bound) && RowsKeyed(s) && Takes(plan, k, d) && !Clears(step, k) && !step.Reboot?
    ensures var e := Apply(plan, s, step);
            && CounterMatches(e, log + Admits(plan, s, step, k, d), k, d)
            && (k in e.table ==> forall i :: 0 <= i < |log| ==>
                  log[i].epoch == e.table[k].start || log[i].epoch + k.secs <= e.table[k].start)
  {
    var e, more := Apply(plan, s, step), Admits(plan, s, step, k, d);
    StepTakes(plan, s, step, k, d);
    StepKeepsPast(plan, s, step, k);
    StepKeepsKeyed(plan, s, step);
    AdmitsWhere(plan, s, step, k, d);
    if View(s.table, k, s.now).None? { NoneLive(s, log, k, d); }
    if k in e.table {
      var start := e.table[k].start;
      EpochSnoc(log, more, start);
      if View(s.table, k, s.now).None? && start == s.now { NewEpochIsEmpty(log, k.secs, s.now); }
    } else {
      assert more == [] && log + more == log;
    }
  }

  lemma StepKeepsEpochs(plan: Plan, s: Limiter, step: Step, log: seq<Admission>, k: WindowKey, d: Dimension, bound: nat)
    requires EpochsOk(s, log, k, d, bound) && RowsKeyed(s) && Takes(plan, k, d) && !Clears(step, k) && !step.Reboot?
    requires Used(View(Apply(plan, s, step).table, k, Apply(plan, s, step).now), d) <= bound
    ensures EpochsOk(Apply(plan, s, step), log + Admits(plan, s, step, k, d), k, d, bound)
  {
    var e, more := Apply(plan, s, step), Admits(plan, s, step, k, d);
    StepMatches(plan, s, step, log, k, d, bound);
    StepKeepsPast(plan, s, step, k);
    AdmitsWhere(plan, s, step, k, d);
    TimeGrows(plan, s, step);
    forall x: nat ensures EpochSum(log + more, x) <= bound {
      EpochSnoc(log, more, x);
      assert EpochSum(log, x) <= bound;
      if |more| == 1 && x == more[0].epoch { ChargeStopsTime(plan, s, step, k, d); }
    }
  }

  lemma ChargeStopsTime(plan: Plan, s: Limiter, step: Step, k: WindowKey, d: Dimension)
    requires Charged(s, step, k.owner, d) > 0
    ensures Apply(plan, s, step).now == s.now
  {}

  /** After a restart the log since then is empty, and so trivially in order. */
  lemma RebootStartsAfresh(plan: Plan, s: Limiter, k: WindowKey, d: Dimension, bound: nat)
    requires AllPast(s, k) && WellKeyed(s.saved)
    ensures EpochsOk(Apply(plan, s, Reboot), [], k, d, bound)
  {}

  /** The live counter is within the bound throughout. */
  ghost predicate Bounded(plan: Plan, steps: seq<Step>, k: WindowKey, d: Dimension, b: nat) {
    && Used(View(Exec(plan, steps).table, k, Exec(plan, steps).now), d) <= b
    && (steps != [] ==> Bounded(plan, steps[..|steps| - 1], k, d, b))
  }

  lemma {:induction false} RunKeepsEpochs(plan: Plan, steps: seq<Step>, k: WindowKey, d: Dimension, b: nat)
    requires Takes(plan, k, d) && Bounded(plan, steps, k, d, b) && NoClears(steps, k)
    ensures EpochsOk(Exec(plan, steps), Recent(plan, steps, k, d), k, d, b)
    decreases |steps|
  {
    if steps != [] {
      var before, last := steps[..|steps| - 1], steps[|steps| - 1];
      RunKeepsEpochs(plan, before, k, d, b);
      RunIsPast(plan, before, k);
      var s, log := Exec(plan, before), Recent(plan, before, k, d);
      if last.Reboot? {
        RebootStartsAfresh(plan, s, k, d, b);
      } else {
        StepKeepsEpochs(plan, s, last, log, k, d, b);
      }
    }
  }

  // ----- rows a restart may bring back

  /** A row is no later than the counter, and no window of the log overlaps it from before. */
  ghost predicate RowBehind(row: Option<Counter>, s: Limiter, log: seq<Admission>, k: WindowKey) {
    row.Some? ==>
      && (k in s.table ==> row.value.start <= s.table[k].start)
      && forall i :: 0 <= i < |log| ==> row.value.start <= log[i].epoch || log[i].epoch + k.secs <= row.value.start
  }

  ghost predicate RowsBehind(s: Limiter, log: seq<Admission>, k: WindowKey) {
    RowBehind(Get(s.batch, k), s, log, k) && RowBehind(Get(s.saved, k), s, log, k)
  }

  lemma RowStaysBehind(
    plan: Plan, s: Limiter, step: Step, row: Option<Counter>, log: seq<Admission>, k: WindowKey, d: Dimension)
    requires !step.Reboot? && RowBehind(row, s, log, k) && (row.Some? ==> row.value.start <= s.now)
    ensures RowBehind(row, Apply(plan, s, step), log + Admits(plan, s, step, k, d), k)
  {
    StartsNow(plan, s, step, k);
  }

  lemma StepKeepsRows(plan: Plan, s: Limiter, step: Step, log: seq<Admission>, k: WindowKey, d: Dimension, bound: nat)
    requires EpochsOk(s, log, k, d, bound) && RowsBehind(s, log, k) && !step.Reboot?
    ensures RowsBehind(Apply(plan, s, step), log + Admits(plan, s, step, k, d), k)
  {
    RowsAfter(plan, s, step, k);
    RowStaysBehind(plan, s, step, Get(s.batch, k), log, k, d);
    RowStaysBehind(plan, s, step, Get(s.saved, k), log, k, d);
    if step.Snap? { RowStaysBehind(plan, s, step, Get(s.table, k), log, k, d); }
  }

  lemma RebootKeepsRows(plan: Plan, s: Limiter, k: WindowKey)
    ensures RowsBehind(Apply(plan, s, Reboot), [], k)
  {}

  // ----- from epochs to arbitrary intervals

  /** How often the process was restarted at times in `[from, to)`. */
  function Reboots(plan: Plan, steps: seq<Step>, from: nat, to: nat): nat {
    if steps == [] then 0
    else
      var before := steps[..|steps| - 1];
      Reboots(plan, before, from, to) +
      if steps[|steps| - 1].Reboot? && from <= Exec(plan, before).now < to then 1 else 0
  }

  lemma IntervalSnoc(log: seq<Admission>, more: seq<Admission>, from: nat, to: nat)
    requires |more| <= 1
    ensures IntervalSum(log + more, from, to) ==
            IntervalSum(log, from, to) + if |more| == 1 && from <= more[0].time < to then more[0].weight else 0
  {
    if |more| == 1 { assert (log + more)[..|log|] == log; } else { assert log + more == log; }
  }

  ghost predicate Past(log: seq<Admission>, now: nat) { forall i :: 0 <= i < |log| ==> log[i].time <= now }

  lemma {:induction false} AdmittedIsPast(plan: Plan, steps: seq<Step>, k: WindowKey, d: Dimension)
    ensures Past(Admitted(plan, steps, k, d), Exec(plan, steps).now)
    decreases |steps|
  {
    if steps != [] {
      var before := steps[..|steps| - 1];
      AdmittedIsPast(plan, before, k, d);
      TimeGrows(plan, Exec(plan, before), steps[|steps| - 1]);
    }
  }

  lemma {:induction false} PastIsOutside(log: seq<Admission>, now: nat, from: nat, to: nat)
    requires Past(log, now) && now < from
    ensures IntervalSum(log, from, to) == 0
    decreases |log|
  {
    if log != [] { PastIsOutside(log[..|log| - 1], now, from, to); }
  }

  /** Weight admitted at times in `[from, to)` in windows begun before `from`, or in the others. */
  function PartSum(log: seq<Admission>, from: nat, to: nat, early: bool): nat {
    if log == [] then 0
    else
      var a := log[|log| - 1];
      PartSum(log[..|log| - 1], from, to, early) + if FallsIn(a, from, to, early) then a.weight else 0
  }

  predicate FallsIn(a: Admission, from: nat, to: nat, early: bool) { from <= a.time < to && early == (a.epoch < from) }

  lemma PartSnoc(log: seq<Admission>, more: seq<Admission>, from: nat, to: nat, early: bool)
    requires |more| <= 1
    ensures PartSum(log + more, from, to, early) ==
            PartSum(log, from, to, early)
            + if |more| == 1 && FallsIn(more[0], from, to, early) then more[0].weight else 0
  {
    if |more| == 1 { assert (log + more)[..|log|] == log; } else { assert log + more == log; }
  }

  lemma {:induction false} OneEpoch(log: seq<Admission>, from: nat, to: nat, early: bool, e: nat)
    requires forall i :: 0 <= i < |log| && FallsIn(log[i], from, to, early) ==> log[i].epoch == e
    ensures PartSum(log, from, to, early) <= EpochSum(log, e)
  {
    if log != [] {
      assert FallsIn(log[|log| - 1], from, to, early) ==> log[|log| - 1].epoch == e;
      OneEpoch(log[..|log| - 1], from, to, early, e);
    }
  }

  /** Since a restart, the interval meets at most one window begun before it and one begun in it. */
  lemma PartBound(log: seq<Admission>, secs: nat, now: nat, bound: nat, from: nat, early: bool)
    requires EpochsApart(log, secs) && InsideEpochs(log, secs, now) && EpochTotals(log, bound)
    ensures PartSum(log, from, from + secs, early) <= bound
  {
    var e := 0;
    if i :| 0 <= i < |log| && FallsIn(log[i], from, from + secs, early) {
      e := log[i].epoch;
      forall j | 0 <= j < |log| && FallsIn(log[j], from, from + secs, early) ensures log[j].epoch == e {
        assert i < j || j <= i;
      }
    }
    OneEpoch(log, from, from + secs, early, e);
    assert EpochSum(log, e) <= bound;
  }

  lemma {:induction false} PartWitness(log: seq<Admission>, from: nat, to: nat, early: bool) returns (i: nat)
    requires PartSum(log, from, to, early) > 0
    ensures i < |log| && FallsIn(log[i], from, to, early)
  {
    i := |log| - 1;
    if !FallsIn(log[i], from, to, early) { i := PartWitness(log[..|log| - 1], from, to, early); }
  }

  /** No window begun before `from` can be brought back any more. */
  predicate RowOver(row: Option<Counter>, now: nat, from: nat) {
    row.Some? ==> from <= row.value.start || row.value.start + row.value.secs <= now
  }

  predicate OldOver(s: Limiter, k: WindowKey, from: nat) {
    from <= s.now && RowOver(Get(s.table, k), s.now, from) && RowOver(Get(s.batch, k), s.now, from)
        && RowOver(Get(s.saved, k), s.now, from)
  }

  lemma StepKeepsOver(plan: Plan, s: Limiter, step: Step, k: WindowKey, from: nat)
    requires OldOver(s, k, from) && RowsKeyed(s)
    ensures OldOver(Apply(plan, s, step), k, from)
  {
    if !step.Reboot? {
      RowsAfter(plan, s, step, k);
      CounterStaysOver(plan, s, step, k, from);
    }
  }

  lemma CounterStaysOver(plan: Plan, s: Limiter, step: Step, k: WindowKey, from: nat)
    requires OldOver(s, k, from) && WellKeyed(s.table) && !step.Reboot?
    ensures RowOver(Get(Apply(plan, s, step).table, k), Apply(plan, s, step).now, from)
  {
    StartsNow(plan, s, step, k);
    SecsStay(plan, s, step, k);
  }

  lemma SecsStay(plan: Plan, s: Limiter, step: Step, k: WindowKey)
    requires WellKeyed(s.table) && !step.Reboot?
    ensures k in Apply(plan, s, step).table ==> Apply(plan, s, step).table[k].secs == k.secs
  {}

  /** Once both kinds of windows have admitted something, those begun before are over. */
  lemma BothMeansOver(s: Limiter, log: seq<Admission>, k: WindowKey, d: Dimension, bound: nat, from: nat)
    requires EpochsOk(s, log, k, d, bound) && RowsBehind(s, log, k) && RowsKeyed(s)
    requires PartSum(log, from, from + k.secs, true) > 0 && PartSum(log, from, from + k.secs, false) > 0
    ensures RowOver(Get(s.saved, k), s.now, from) && from <= s.now
  {
    var i := PartWitness(log, from, from + k.secs, true);
    var j := PartWitness(log, from, from + k.secs, false);
    assert i < j || j < i;
  }

  // ----- the account of an interval

  /** The weight a step admits inside the interval, in windows begun before it or in others. */
  function Inside(plan: Plan, s: Limiter, step: Step, k: WindowKey, d: Dimension, from: nat, to: nat,
      early: bool): nat {
    var more := Admits(plan, s, step, k, d);
    if more != [] && FallsIn(more[0], from, to, early) then more[0].weight else 0
  }

  lemma InsideIsNow(plan: Plan, s: Limiter, step: Step, k: WindowKey, d: Dimension, from: nat, to: nat, early: bool)
    ensures Inside(plan, s, step, k, d, from, to, early) > 0 ==> from <= s.now < to
  {}

  lemma SumAfter(plan: Plan, s: Limiter, step: Step, log: seq<Admission>, k: WindowKey, d: Dimension, from: nat,
      to: nat)
    ensures IntervalSum(log + Admits(plan, s, step, k, d), from, to) == IntervalSum(log, from, to)
            + Inside(plan, s, step, k, d, from, to, true) + Inside(plan, s, step, k, d, from, to, false)
  {
    IntervalSnoc(log, Admits(plan, s, step, k, d), from, to);
  }

  lemma PartAfter(plan: Plan, s: Limiter, step: Step, log: seq<Admission>, k: WindowKey, d: Dimension, from: nat,
      to: nat, early: bool)
    ensures PartSum(log + Admits(plan, s, step, k, d), from, to, early) ==
            PartSum(log, from, to, early) + Inside(plan, s, step, k, d, from, to, early)
  {
    PartSnoc(log, Admits(plan, s, step, k, d), from, to, early);
  }

  /** A sum over the interval against `n` restarts in it. Each stretch between restarts has at most
      `b` from windows begun before the interval and `b` from others, of which the current one has
      used `o` and `w`; a stretch that had both is the last with any of the former. */
  predicate Fair(sum: nat, n: nat, o: nat, w: nat, b: nat, during: bool, over: bool) {
    && sum <= n * b + 2 * b
    && (during ==> sum <= n * b + o + w || (over && o == 0 && sum <= n * b + b + w))
  }

  lemma FairAdmission(sum: nat, n: nat, o: nat, w: nat, b: nat, during: bool, over: bool, x: nat, y: nat,
      during': bool, over': bool)
    requires Fair(sum, n, o, w, b, during, over) && o + x <= b && w + y <= b
    requires (x + y > 0 ==> during) && (over ==> x == 0 && over') && (during' ==> during)
    ensures Fair(sum + x + y, n, o + x, w + y, b, during', over')
  {}

  lemma FairReboot(sum: nat, n: nat, n': nat, o: nat, w: nat, b: nat, begun: bool, during: bool, over: bool,
      over': bool)
    requires Fair(sum, n, o, w, b, during, over) && o <= b && w <= b
    requires n' == (if begun && during then n + 1 else n) && (!begun ==> sum == 0)
    requires (over ==> over' && begun) && (begun && during && o > 0 && w > 0 ==> over')
    ensures Fair(sum, n', 0, 0, b, during, over')
  {
    TimesGrows(0, n, b);
    assert (n + 1) * b == n * b + b;
  }

  /** A run so far: its state, the admissions since the last restart, all of them, and the restarts in
      the interval. */
  datatype Tally = Tally(s: Limiter, log: seq<Admission>, all: seq<Admission>, restarts: nat)

  function Tallied(plan: Plan, t: Tally, step: Step, k: WindowKey, d: Dimension, from: nat, to: nat): Tally {
    var e, more := Apply(plan, t.s, step), Admits(plan, t.s, step, k, d);
    Tally(e, if step.Reboot? then [] else t.log + more, t.all + more,
          if step.Reboot? && from <= t.s.now < to then t.restarts + 1 else t.restarts)
  }

  function TallyOf(plan: Plan, steps: seq<Step>, k: WindowKey, d: Dimension, from: nat, to: nat): Tally {
    if steps == [] then Tally(START, [], [], 0)
    else Tallied(plan, TallyOf(plan, steps[..|steps| - 1], k, d, from, to), steps[|steps| - 1], k, d, from, to)
  }

  lemma {:induction false} TallyRun(plan: Plan, steps: seq<Step>, k: WindowKey, d: Dimension, from: nat, to: nat)
    ensures TallyOf(plan, steps, k, d, from, to).s == Exec(plan, steps)
    ensures TallyOf(plan, steps, k, d, from, to).log == Recent(plan, steps, k, d)
    decreases |steps|
  {
    if steps != [] { TallyRun(plan, steps[..|steps| - 1], k, d, from, to); }
  }

  lemma {:induction false} TallyAll(plan: Plan, steps: seq<Step>, k: WindowKey, d: Dimension, from: nat, to: nat)
    ensures TallyOf(plan, steps, k, d, from, to).all == Admitted(plan, steps, k, d)
    decreases |steps|
  {
    if steps != [] {
      TallyAll(plan, steps[..|steps| - 1], k, d, from, to);
      TallyRun(plan, steps[..|steps| - 1], k, d, from, to);
    }
  }

  lemma {:induction false} TallyRestarts(plan: Plan, steps: seq<Step>, k: WindowKey, d: Dimension, from: nat, to: nat)
    ensures TallyOf(plan, steps, k, d, from, to).restarts == Reboots(plan, steps, from, to)
    decreases |steps|
  {
    if steps != [] {
      TallyRestarts(plan, steps[..|steps| - 1], k, d, from, to);
      TallyRun(plan, steps[..|steps| - 1], k, d, from, to);
    }
  }

  ghost predicate Account(t: Tally, k: WindowKey, from: nat, to: nat, b: nat) {
    Fair(IntervalSum(t.all, from, to), t.restarts, PartSum(t.log, from, to, true), PartSum(t.log, from, to, false), b,
         t.s.now < to, OldOver(t.s, k, from))
  }

  /** What a run keeps besides: windows in order, rows behind, and both parts within the bound. */
  ghost predicate InOrder(s: Limiter, log: seq<Admission>, k: WindowKey, d: Dimension, from: nat, to: nat, b: nat) {
    && to == from + k.secs
    && EpochsOk(s, log, k, d, b) && RowsBehind(s, log, k) && RowsKeyed(s)
    && PartSum(log, from, to, true) <= b && PartSum(log, from, to, false) <= b
  }

  /** After the windows begun before `from` are over, what is admitted falls in others. */
  lemma OverAdmitsNew(plan: Plan, s: Limiter, step: Step, log: seq<Admission>, k: WindowKey, d: Dimension, from: nat,
      b: nat)
    requires OldOver(s, k, from) && RowsKeyed(s) && !step.Reboot?
    requires EpochsOk(Apply(plan, s, step), log + Admits(plan, s, step, k, d), k, d, b)
    ensures Inside(plan, s, step, k, d, from, from + k.secs, true) == 0
  {
    var more := Admits(plan, s, step, k, d);
    if more != [] {
      StepKeepsOver(plan, s, step, k, from);
      SecsStay(plan, s, step, k);
      assert (log + more)[|log|] == more[0];
    }
  }

  /** What a step adds to the account. */
  lemma StepSums(plan: Plan, t: Tally, step: Step, k: WindowKey, d: Dimension, from: nat, to: nat)
    requires !step.Reboot?
    ensures var e, s := Tallied(plan, t, step, k, d, from, to), t.s;
            var x, y := Inside(plan, s, step, k, d, from, to, true), Inside(plan, s, step, k, d, from, to, false);
            && IntervalSum(e.all, from, to) == IntervalSum(t.all, from, to) + x + y
            && PartSum(e.log, from, to, true) == PartSum(t.log, from, to, true) + x
            && PartSum(e.log, from, to, false) == PartSum(t.log, from, to, false) + y
            && (x + y > 0 ==> s.now < to)
  {
    SumAfter(plan, t.s, step, t.all, k, d, from, to);
    PartAfter(plan, t.s, step, t.log, k, d, from, to, true);
    PartAfter(plan, t.s, step, t.log, k, d, from, to, false);
    InsideIsNow(plan, t.s, step, k, d, from, to, true);
    InsideIsNow(plan, t.s, step, k, d, from, to, false);
  }

  lemma StepAccount(plan: Plan, t: Tally, e: Tally, step: Step, k: WindowKey, d: Dimension, from: nat, to: nat, b: nat)
    requires e == Tallied(plan, t, step, k, d, from, to) && !step.Reboot? && Account(t, k, from, to, b)
    requires InOrder(t.s, t.log, k, d, from, to, b) && InOrder(e.s, e.log, k, d, from, to, b)
    ensures Account(e, k, from, to, b)
  {
    StepSums(plan, t, step, k, d, from, to);
    TimeGrows(plan, t.s, step);
    if OldOver(t.s, k, from) {
      StepKeepsOver(plan, t.s, step, k, from);
      OverAdmitsNew(plan, t.s, step, t.log, k, d, from, b);
    }
    FairAdmission(IntervalSum(t.all, from, to), t.restarts, PartSum(t.log, from, to, true),
        PartSum(t.log, from, to, false), b,
                  t.s.now < to, OldOver(t.s, k, from), Inside(plan, t.s, step, k, d, from, to, true),
                  Inside(plan, t.s, step, k, d, from, to, false), e.s.now < to, OldOver(e.s, k, from));
  }

  lemma RebootAccount(plan: Plan, t: Tally, e: Tally, k: WindowKey, d: Dimension, from: nat, to: nat, b: nat)
    requires e == Tallied(plan, t, Reboot, k, d, from, to) && Account(t, k, from, to, b)
             && InOrder(t.s, t.log, k, d, from, to, b)
    requires t.s.now < from ==> IntervalSum(t.all, from, to) == 0
    ensures Account(e, k, from, to, b)
  {
    var o, w := PartSum(t.log, from, to, true), PartSum(t.log, from, to, false);
    assert Admits(plan, t.s, Reboot, k, d) == [] && e.all == t.all;
    if OldOver(t.s, k, from) { StepKeepsOver(plan, t.s, Reboot, k, from); }
    if o > 0 && w > 0 { BothMeansOver(t.s, t.log, k, d, b, from); }
    FairReboot(IntervalSum(t.all, from, to), t.restarts, e.restarts, o, w, b, from <= t.s.now, t.s.now < to,
               OldOver(t.s, k, from), OldOver(e.s, k, from));
  }

  lemma NothingYet(plan: Plan, steps: seq<Step>, k: WindowKey, d: Dimension, from: nat, to: nat)
    ensures var t := TallyOf(plan, steps, k, d, from, to); t.s.now < from ==> IntervalSum(t.all, from, to) == 0
  {
    TallyRun(plan, steps, k, d, from, to);
    TallyAll(plan, steps, k, d, from, to);
    AdmittedIsPast(plan, steps, k, d);
    if Exec(plan, steps).now < from { PastIsOutside(Admitted(plan, steps, k, d), Exec(plan, steps).now, from, to); }
  }

  lemma {:induction false} RunKeepsRows(plan: Plan, steps: seq<Step>, k: WindowKey, d: Dimension, b: nat)
    requires Takes(plan, k, d) && Bounded(plan, steps, k, d, b) && NoClears(steps, k)
    ensures RowsBehind(Exec(plan, steps), Recent(plan, steps, k, d), k)
    decreases |steps|
  {
    if steps != [] {
      var before, last := steps[..|steps| - 1], steps[|steps| - 1];
      RunKeepsRows(plan, before, k, d, b);
      RunKeepsEpochs(plan, before, k, d, b);
      if last.Reboot? {
        RebootKeepsRows(plan, Exec(plan, before), k);
      } else {
        StepKeepsRows(plan, Exec(plan, before), last, Recent(plan, before, k, d), k, d, b);
      }
    }
  }

  lemma PartsAreBounded(s: Limiter, log: seq<Admission>, k: WindowKey, d: Dimension, from: nat, to: nat, b: nat)
    requires EpochsOk(s, log, k, d, b) && RowsBehind(s, log, k) && RowsKeyed(s) && to == from + k.secs
    ensures InOrder(s, log, k, d, from, to, b)
  {
    PartBound(log, k.secs, s.now, b, from, true);
    PartBound(log, k.secs, s.now, b, from, false);
  }

  lemma RunIsInOrder(plan: Plan, steps: seq<Step>, k: WindowKey, d: Dimension, b: nat, from: nat, to: nat)
    requires Takes(plan, k, d) && Bounded(plan, steps, k, d, b) && NoClears(steps, k) && to == from + k.secs
    ensures var t := TallyOf(plan, steps, k, d, from, to); InOrder(t.s, t.log, k, d, from, to, b)
  {
    RunKeepsEpochs(plan, steps, k, d, b);
    RunIsPast(plan, steps, k);
    RunKeepsRows(plan, steps, k, d, b);
    TallyRun(plan, steps, k, d, from, to);
    PartsAreBounded(Exec(plan, steps), Recent(plan, steps, k, d), k, d, from, to, b);
  }

  lemma {:induction false} RunIsAccounted(
    plan: Plan, steps: seq<Step>, k: WindowKey, d: Dimension, b: nat, from: nat, to: nat)
    requires Takes(plan, k, d) && Bounded(plan, steps, k, d, b) && NoClears(steps, k) && to == from + k.secs
    ensures Account(TallyOf(plan, steps, k, d, from, to), k, from, to, b)
    decreases |steps|
  {
    if steps != [] {
      var before, last := steps[..|steps| - 1], steps[|steps| - 1];
      RunIsAccounted(plan, before, k, d, b, from, to);
      RunIsInOrder(plan, before, k, d, b, from, to);
      var t, e := TallyOf(plan, before, k, d, from, to), TallyOf(plan, steps, k, d, from, to);
      if last.Reboot? {
        NothingYet(plan, before, k, d, from, to);
        RebootAccount(plan, t, e, k, d, from, to, b);
      } else {
        RunIsInOrder(plan, steps, k, d, b, from, to);
        StepAccount(plan, t, e, last, k, d, from, to, b);
      }
    }
  }

  /** If a live counter never holds more than `b`, then whatever window length is laid over the run, at
      most what two windows may hold is charged in it, and one window's worth more for every restart. */
  lemma BoundedInterval(plan: Plan, steps: seq<Step>, k: WindowKey, d: Dimension, b: nat, from: nat, to: nat)
    requires Takes(plan, k, d) && Bounded(plan, steps, k, d, b) && NoClears(steps, k) && to == from + k.secs
    ensures ChargedIn(plan, steps, k.owner, d, from, to) <= (Reboots(plan, steps, from, to) + 2) * b
  {
    RunIsAccounted(plan, steps, k, d, b, from, to);
    var t := TallyOf(plan, steps, k, d, from, to);
    AccountBound(t, k, from, to, b);
    ChargedIsTallied(plan, steps, k, d, from, to);
    TallyRestarts(plan, steps, k, d, from, to);
    SameBound(IntervalSum(t.all, from, to), t.restarts, ChargedIn(plan, steps, k.owner, d, from, to),
              Reboots(plan, steps, from, to), b);
  }

  lemma ChargedIsTallied(plan: Plan, steps: seq<Step>, k: WindowKey, d: Dimension, from: nat, to: nat)
    ensures IntervalSum(TallyOf(plan, steps, k, d, from, to).all, from, to) ==
            ChargedIn(plan, steps, k.owner, d, from, to)
  {
    TallyAll(plan, steps, k, d, from, to);
    AdmittedIsCharged(plan, steps, k, d, from, to);
  }

  lemma SameBound(sum: nat, n: nat, sum': nat, n': nat, b: nat)
    requires sum == sum' && n == n' && sum <= (n + 2) * b
    ensures sum' <= (n' + 2) * b
  {}

  lemma {:induction false} AdmittedIsCharged(
    plan: Plan, steps: seq<Step>, k: WindowKey, d: Dimension, from: nat, to: nat)
    ensures IntervalSum(Admitted(plan, steps, k, d), from, to) == ChargedIn(plan, steps, k.owner, d, from, to)
    decreases |steps|
  {
    if steps != [] {
      var before, last := steps[..|steps| - 1], steps[|steps| - 1];
      AdmittedIsCharged(plan, before, k, d, from, to);
      IntervalSnoc(Admitted(plan, before, k, d), Admits(plan, Exec(plan, before), last, k, d), from, to);
    }
  }

  lemma {:induction false} CountsAreBounded(plan: Plan, steps: seq<Step>, k: WindowKey, limit: nat, c: nat, w: nat,
      b: nat)
    requires c > 0 && Limits(plan, k, Counts, limit) && ModestRun(plan, steps, k.owner, c, w)
    requires b == limit + (c - 1) * w
    ensures Bounded(plan, steps, k, Counts, b)
    decreases |steps|
  {
    CountsOvershoot(plan, steps, k, limit, c, w);
    if steps != [] { CountsAreBounded(plan, steps[..|steps| - 1], k, limit, c, w, b); }
  }

  lemma {:induction false} UsageIsBounded(
    plan: Plan, steps: seq<Step>, k: WindowKey, d: Dimension, limit: nat, c: nat, u: nat, b: nat)
    requires !d.Counts? && Limits(plan, k, d, limit) && FrugalRun(plan, steps, k.owner, d, c, u)
    requires limit - 1 + c * u <= b
    ensures Bounded(plan, steps, k, d, b)
    decreases |steps|
  {
    UsageOvershoot(plan, steps, k, d, limit, c, u);
    if steps != [] { UsageIsBounded(plan, steps[..|steps| - 1], k, d, limit, c, u, b); }
  }

  lemma LimitsTake(plan: Plan, k: WindowKey, d: Dimension, limit: nat)
    requires k.secs > 0 && Limits(plan, k, d, limit)
    ensures Takes(plan, k, d)
  {
    var w :| w in plan(k.owner) && w.secs == k.secs && Limit(w, d) == Some(limit);
  }

  lemma AnyInterval(
    plan: Plan, steps: seq<Step>, k: WindowKey, d: Dimension, limit: nat, b: nat, from: nat, to: nat)
    requires Limits(plan, k, d, limit) && Bounded(plan, steps, k, d, b) && NoClears(steps, k) && to == from + k.secs
    ensures ChargedIn(plan, steps, k.owner, d, from, to) <= (Reboots(plan, steps, from, to) + 2) * b
  {
    if from == to {
      NoneInNoTime(plan, steps, k.owner, d, from);
      TimesGrows(0, Reboots(plan, steps, from, to) + 2, b);
    } else {
      LimitsTake(plan, k, d, limit);
      BoundedInterval(plan, steps, k, d, b, from, to);
    }
  }

  lemma {:induction false} NoneInNoTime(plan: Plan, steps: seq<Step>, owner: RateKey, d: Dimension, from: nat)
    ensures ChargedIn(plan, steps, owner, d, from, from) == 0
    decreases |steps|
  {
    if steps != [] { NoneInNoTime(plan, steps[..|steps| - 1], owner, d, from); }
  }

  /** Any interval one window long admits at most what two windows may hold, and one window more for
      every restart of the process in it. With requests served one at a time (`c == 1`) and no
      restart that is twice the limit. Settlements and clean-ups, which start windows too, do not
      weaken this, nor do clears of any other window. */
  lemma AnyIntervalBound(plan: Plan, steps: seq<Step>, k: WindowKey, limit: nat, c: nat, maxWeight: nat, from: nat)
    requires c > 0 && Limits(plan, k, Counts, limit)
    requires ModestRun(plan, steps, k.owner, c, maxWeight) && NoClears(steps, k)
    ensures ChargedIn(plan, steps, k.owner, Counts, from, from + k.secs) <=
            (Reboots(plan, steps, from, from + k.secs) + 2) * (limit + (c - 1) * maxWeight)
  {
    TimesGrows(0, c - 1, maxWeight);
    CountsAreBounded(plan, steps, k, limit, c, maxWeight, limit + (c - 1) * maxWeight);
    AnyInterval(plan, steps, k, Counts, limit, limit + (c - 1) * maxWeight, from, from + k.secs);
  }

  /** The same for what is settled, tokens or costs: two windows' worth, each at most the limit and the
      usage of the requests that can be open at once, and one more for every restart. */
  lemma AnyIntervalUsage(
    plan: Plan, steps: seq<Step>, k: WindowKey, d: Dimension, limit: nat, c: nat, maxUsage: nat, from: nat)
    requires !d.Counts? && Limits(plan, k, d, limit)
    requires FrugalRun(plan, steps, k.owner, d, c, maxUsage) && NoClears(steps, k)
    ensures ChargedIn(plan, steps, k.owner, d, from, from + k.secs) <=
            (Reboots(plan, steps, from, from + k.secs) + 2) * Overshoot(limit, c, maxUsage)
  {
    UsageIsBounded(plan, steps, k, d, limit, c, maxUsage, Overshoot(limit, c, maxUsage));
    AnyInterval(plan, steps, k, d, limit, Overshoot(limit, c, maxUsage), from, from + k.secs);
  }

  /** The most a live counter of tokens or costs can hold. */
  function Overshoot(limit: nat, c: nat, maxUsage: nat): nat {
    TimesGrows(0, c, maxUsage);
    if limit + c * maxUsage == 0 then 0 else limit + c * maxUsage - 1
  }

  lemma AccountBound(t: Tally, k: WindowKey, from: nat, to: nat, b: nat)
    requires Account(t, k, from, to, b)
    ensures IntervalSum(t.all, from, to) <= (t.restarts + 2) * b
  {
    TwoMore(t.restarts, b);
  }

  lemma TwoMore(n: nat, b: nat)
    ensures (n + 2) * b == n * b + 2 * b
  {}
}
