/**
 The bound on what an interval admits is reached, whatever the number of restarts in it.
 */
module RateExamples {

  import opened Wrappers
  import opened RateWindows
  import opened RateRuns
  import opened RateLaws
  import opened RateIntervals

  const OWNER := RateKey("k", "m")
  const KEY := WindowKey(OWNER, 60)

  /** One request a minute. */
  function OnePerMinute(): Plan { (_: RateKey) => [WindowLimit(Some(1), None, None, 60)] }

  /** A run so far: its state, the weight it admitted from second 61 up to 121 and the restarts then;
      requests are served one at a time and nothing is cleared. */
  ghost predicate RunIs(steps: seq<Step>, s: Limiter, sum: nat, restarts: nat) {
    && Exec(OnePerMinute(), steps) == s
    && ChargedIn(OnePerMinute(), steps, OWNER, Counts, 61, 121) == sum
    && Reboots(OnePerMinute(), steps, 61, 121) == restarts
    && ModestRun(OnePerMinute(), steps, OWNER, 1, 1) && NoClears(steps, KEY)
  }

  /** The weight a step counts in the interval. */
  function Weight(s: Limiter, step: Step): nat {
    if 61 <= s.now < 121 then Charged(s, step, OWNER, Counts) else 0
  }

  lemma Next(front: seq<Step>, step: Step, s: Limiter, e: Limiter, sum: nat, restarts: nat) returns (steps: seq<Step>)
    requires RunIs(front, s, sum, restarts) && e == Apply(OnePerMinute(), s, step)
    requires Modest(e, OWNER, 1, 1) && !Clears(step, KEY)
    ensures RunIs(steps, e, sum + Weight(s, step),
                  if step.Reboot? && 61 <= s.now < 121 then restarts + 1 else restarts)
  {
    steps := front + [step];
    assert steps[..|front|] == front;
  }

  function Asked(committed: bool): Open { Open(OWNER, 1, committed) }

  lemma SumOf(open: seq<Open>)
    requires |open| <= 2
    ensures Sum(open, UncountedOne(OWNER)) == (if |open| > 0 then UncountedOne(OWNER)(open[0]) else 0)
                                              + (if |open| > 1 then UncountedOne(OWNER)(open[1]) else 0)
  {
    if |open| == 1 { assert open[1..] == []; }
    if |open| == 2 { assert open[1..] == [open[1]] && open[1..][1..] == []; }
  }

  /** A request is asked for and counted, in a window that is not used up. */
  lemma Serve(front: seq<Step>, s: Limiter, sum: nat, restarts: nat) returns (steps: seq<Step>, e: Limiter)
    requires RunIs(front, s, sum, restarts) && WellKeyed(s.table) && Used(View(s.table, KEY, s.now), Counts) == 0
    requires s.open == [] || s.open == [Asked(true)]
    ensures RunIs(steps, e, sum + if 61 <= s.now < 121 then 1 else 0, restarts)
    ensures e.open == s.open + [Asked(true)] && e.now == s.now && e.saved == s.saved && WellKeyed(e.table)
    ensures KEY in e.table && e.table[KEY] == BumpCounts(View(s.table, KEY, s.now), 60, 1, s.now)
  {
    var a := s.(open := s.open + [Asked(false)]);
    steps := AskNext(front, s, a, sum, restarts);
    steps, e := CountNext(steps, a, |s.open|, sum, restarts);
    assert a.open[|s.open| := Asked(true)] == s.open + [Asked(true)];
  }

  lemma AskNext(front: seq<Step>, s: Limiter, a: Limiter, sum: nat, restarts: nat) returns (steps: seq<Step>)
    requires RunIs(front, s, sum, restarts) && Used(View(s.table, KEY, s.now), Counts) == 0
    requires (s.open == [] || s.open == [Asked(true)]) && a == s.(open := s.open + [Asked(false)])
    ensures RunIs(steps, a, sum, restarts)
  {
    Allowed(s);
    SumOf(a.open);
    steps := Next(front, Ask(OWNER, 1), s, a, sum, restarts);
  }

  lemma CountNext(front: seq<Step>, a: Limiter, i: nat, sum: nat, restarts: nat) returns (steps: seq<Step>, e: Limiter)
    requires RunIs(front, a, sum, restarts) && WellKeyed(a.table)
    requires i < |a.open| <= 2 && a.open[i] == Asked(false)
             && (forall j :: 0 <= j < |a.open| && j != i ==> a.open[j] == Asked(true))
    ensures RunIs(steps, e, sum + if 61 <= a.now < 121 then 1 else 0, restarts)
    ensures e.open == a.open[i := Asked(true)] && e.now == a.now && e.saved == a.saved && WellKeyed(e.table)
    ensures KEY in e.table && e.table[KEY] == BumpCounts(View(a.table, KEY, a.now), 60, 1, a.now)
  {
    e := CountedOne(a, i);
    SumOf(e.open);
    steps := Next(front, Charge(i), a, e, sum, restarts);
  }

  lemma Allowed(s: Limiter)
    requires Used(View(s.table, KEY, s.now), Counts) == 0
    ensures Peek(s.table, OWNER, OnePerMinute()(OWNER), 1, s.now).Allow?
  {
    assert OnePerMinute()(OWNER)[1..] == [];
  }

  lemma CountedOne(a: Limiter, i: nat) returns (e: Limiter)
    requires i < |a.open| && a.open[i] == Asked(false) && WellKeyed(a.table)
    ensures e == Apply(OnePerMinute(), a, Charge(i))
    ensures e.open == a.open[i := Asked(true)] && e.now == a.now && e.saved == a.saved && WellKeyed(e.table)
    ensures KEY in e.table && e.table[KEY] == BumpCounts(View(a.table, KEY, a.now), 60, 1, a.now)
  {
    var limits := OnePerMinute()(OWNER);
    e := Apply(OnePerMinute(), a, Charge(i));
    assert limits[0] in limits;
    assert 60 in CountSecs(limits) && KEY in Cells(OWNER, CountSecs(limits));
    CommitView(a.table, OWNER, limits, 1, a.now, KEY);
  }

  /** A settlement of the only open request. */
  lemma Settled(s: Limiter) returns (e: Limiter)
    requires s.open == [Asked(true)] && WellKeyed(s.table)
    ensures e == Apply(OnePerMinute(), s, Pay(0, 1, 0))
    ensures e.open == [] && e.now == s.now && e.saved == s.saved && WellKeyed(e.table)
    ensures KEY in e.table && e.table[KEY] == BumpUsage(View(s.table, KEY, s.now), 60, 1, 0, s.now)
  {
    var limits := OnePerMinute()(OWNER);
    e := Apply(OnePerMinute(), s, Pay(0, 1, 0));
    assert limits[0] in limits;
    assert 60 in AllSecs(limits) && KEY in Cells(OWNER, AllSecs(limits));
    SettleView(s.table, OWNER, limits, 1, 0, s.now, KEY);
    assert s.open[..0] + s.open[1..] == [];
  }

  lemma Wait(front: seq<Step>, s: Limiter, sum: nat, restarts: nat, secs: nat) returns (steps: seq<Step>)
    requires RunIs(front, s, sum, restarts) && Modest(s, OWNER, 1, 1)
    ensures RunIs(steps, s.(now := s.now + secs), sum, restarts)
  {
    steps := Next(front, Tick(secs), s, s.(now := s.now + secs), sum, restarts);
  }

  /** Up to second 120: a request counted at 0 and settled at 60 starts a window with room in it, which
      admits one at 61; the next window admits one at 120. */
  lemma TwoWindows() returns (steps: seq<Step>, s: Limiter)
    ensures RunIs(steps, s, 2, 0) && s.now == 120 && s.saved == map[]
  {
    steps, s := EarlyWindow();
    SumOf(s.open);
    steps := Wait(steps, s, 1, 0, 59);
    s := s.(now := 120);
    steps, s := Serve(steps, s, 1, 0);
  }

  lemma EarlyWindow() returns (steps: seq<Step>, s: Limiter)
    ensures RunIs(steps, s, 1, 0) && s.now == 61 && s.open == [Asked(true)] && s.saved == map[] && WellKeyed(s.table)
    ensures KEY in s.table && s.table[KEY] == Counter(1, 1, 0, 60, 60)
  {
    steps, s := SettledLate();
    SumOf(s.open);
    steps := Wait(steps, s, 0, 0, 1);
    s := s.(now := 61);
    steps, s := Serve(steps, s, 0, 0);
  }

  lemma SettledLate() returns (steps: seq<Step>, s: Limiter)
    ensures RunIs(steps, s, 0, 0) && s.now == 60 && s.open == [] && s.saved == map[] && WellKeyed(s.table)
    ensures KEY in s.table && s.table[KEY] == Counter(0, 1, 0, 60, 60)
  {
    steps, s := Serve([], START, 0, 0);
    SumOf(s.open);
    steps := Wait(steps, s, 0, 0, 60);
    s := s.(now := 60);
    var e := Settled(s);
    steps := Next(steps, Pay(0, 1, 0), s, e, 0, 0);
    s := e;
  }

  /** For any number of restarts there is a run, with requests served one at a time and a limit of one,
      that admits two more than that in one interval: the bound is reached. */
  lemma IntervalBoundIsReached(n: nat) returns (steps: seq<Step>)
    ensures ModestRun(OnePerMinute(), steps, OWNER, 1, 1) && NoClears(steps, KEY)
    ensures Limits(OnePerMinute(), KEY, Counts, 1) && Reboots(OnePerMinute(), steps, 61, 121) == n
    ensures ChargedIn(OnePerMinute(), steps, OWNER, Counts, 61, 121) == (n + 2) * 1
  {
    var s;
    steps, s := Reached(n);
    var w := WindowLimit(Some(1), None, None, 60);
    assert w in OnePerMinute()(OWNER) && w.secs == KEY.secs && Limit(w, Counts) == Some(1);
  }

  lemma {:induction false} Reached(n: nat) returns (steps: seq<Step>, s: Limiter)
    ensures RunIs(steps, s, n + 2, n) && s.now == 120 && s.saved == map[]
  {
    if n == 0 {
      steps, s := TwoWindows();
    } else {
      steps, s := Reached(n - 1);
      var e := Limiter(map[], 120, [], map[], map[]);
      assert Cleanup(s.saved, 120) == map[];
      steps := Next(steps, Reboot, s, e, n + 1, n - 1);
      steps, s := Serve(steps, e, n + 1, n);
    }
  }
}
