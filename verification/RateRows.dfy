/**
 Counters across restarts: what a restart brings back is what the last snapshot took and wrote,
 whatever ran in between.
 */
module RateRows {

  import opened Wrappers
  import opened RateWindows
  import opened RateRuns

  /** The window of this counter is still running. */
  predicate Running(c: Counter, now: nat) { now < c.start + c.secs }

  /** Nothing in `steps` from number `n` on takes another snapshot, writes this row or restarts. */
  predicate LeavesBatch(steps: seq<Step>, n: nat, k: WindowKey) {
    forall i :: n <= i < |steps| ==> !steps[i].Snap? && !steps[i].Reboot? && steps[i] != SaveRow(k)
  }

  /** Nothing from number `n` on writes this row or deletes the rows of its key. */
  predicate LeavesRow(steps: seq<Step>, n: nat, k: WindowKey) {
    forall i :: n <= i < |steps| ==> steps[i] != SaveRow(k) && steps[i] != DeleteRows(k.owner.keyHash)
  }

  /** A snapshot takes the running counters. */
  lemma SnapTakes(plan: Plan, s: Limiter, k: WindowKey)
    requires k in s.table && Running(s.table[k], s.now) && s.table[k].start <= s.now
    ensures Get(Apply(plan, s, Snap).batch, k) == Some(s.table[k])
  {}

  lemma BatchStays(plan: Plan, s: Limiter, step: Step, k: WindowKey)
    requires !step.Snap? && !step.Reboot? && step != SaveRow(k)
    ensures Get(Apply(plan, s, step).batch, k) == Get(s.batch, k)
  {}

  lemma RowStays(plan: Plan, s: Limiter, step: Step, k: WindowKey)
    requires step != SaveRow(k) && step != DeleteRows(k.owner.keyHash)
    ensures Get(Apply(plan, s, step).saved, k) == Get(s.saved, k)
  {}

  lemma SaveWrites(plan: Plan, s: Limiter, k: WindowKey)
    requires k in s.batch
    ensures Get(Apply(plan, s, SaveRow(k)).saved, k) == Get(s.batch, k)
  {}

  lemma DeleteForgets(plan: Plan, s: Limiter, k: WindowKey)
    ensures k !in Apply(plan, s, DeleteRows(k.owner.keyHash)).saved
  {}

  lemma {:induction false} BatchWaits(plan: Plan, steps: seq<Step>, n: nat, k: WindowKey)
    requires n <= |steps| && LeavesBatch(steps, n, k)
    ensures Get(Exec(plan, steps).batch, k) == Get(Exec(plan, steps[..n]).batch, k)
    decreases |steps|
  {
    if n < |steps| {
      var front := steps[..|steps| - 1];
      BatchWaits(plan, front, n, k);
      assert front[..n] == steps[..n];
      BatchStays(plan, Exec(plan, front), steps[|steps| - 1], k);
    } else {
      assert steps[..n] == steps;
    }
  }

  lemma {:induction false} RowWaits(plan: Plan, steps: seq<Step>, n: nat, k: WindowKey)
    requires n <= |steps| && LeavesRow(steps, n, k)
    ensures Get(Exec(plan, steps).saved, k) == Get(Exec(plan, steps[..n]).saved, k)
    decreases |steps|
  {
    if n < |steps| {
      var front := steps[..|steps| - 1];
      RowWaits(plan, front, n, k);
      assert front[..n] == steps[..n];
      RowStays(plan, Exec(plan, front), steps[|steps| - 1], k);
    } else {
      assert steps[..n] == steps;
    }
  }

  /** A restart loads the saved rows whose window is still running, and nothing else; no request survives it. */
  lemma RebootLoads(plan: Plan, s: Limiter, k: WindowKey)
    requires k in s.saved ==> s.saved[k].start <= s.now
    ensures var e := Apply(plan, s, Reboot);
            && Get(e.table, k) == (if k in s.saved && Running(s.saved[k], s.now) then Some(s.saved[k]) else None)
            && e.open == [] && e.batch == map[] && e.now == s.now
  {}

  lemma ExecAt(plan: Plan, steps: seq<Step>, n: nat)
    requires n < |steps|
    ensures Exec(plan, steps[..n + 1]) == Apply(plan, Exec(plan, steps[..n]), steps[n])
  {
    assert steps[..n + 1][..n] == steps[..n];
  }

  /** After step number `n` has put the row into the batch it is still there at step `m`. */
  lemma StaysInBatch(plan: Plan, steps: seq<Step>, n: nat, m: nat, k: WindowKey, at: Limiter)
    requires n < m < |steps| && steps[n] == Snap && LeavesBatch(steps[..m], n + 1, k)
    requires at == Exec(plan, steps[..n]) && k in at.table && Running(at.table[k], at.now)
             && at.table[k].start <= at.now
    ensures Get(Exec(plan, steps[..m]).batch, k) == Some(at.table[k])
  {
    SnapTakes(plan, at, k);
    ExecAt(plan, steps, n);
    BatchWaits(plan, steps[..m], n + 1, k);
    assert steps[..m][..n + 1] == steps[..n + 1];
  }

  /** A row written at step `m` is still saved at the end. */
  lemma StaysSaved(plan: Plan, steps: seq<Step>, m: nat, k: WindowKey, c: Counter)
    requires m < |steps| && steps[m] == SaveRow(k) && LeavesRow(steps, m + 1, k)
    requires Get(Exec(plan, steps[..m]).batch, k) == Some(c)
    ensures Get(Exec(plan, steps).saved, k) == Some(c)
  {
    SaveWrites(plan, Exec(plan, steps[..m]), k);
    ExecAt(plan, steps, m);
    RowWaits(plan, steps, m + 1, k);
  }

  /** In every run: a counter running when snapshot number `n` is taken, whose row is written as step number
      `m` and left alone from then on, comes back at a restart as it was when the snapshot was taken, if its
      window is still running then, whatever was charged, cleared or swept in between. */
  lemma SavedCountersComeBack(
    plan: Plan, steps: seq<Step>, n: nat, m: nat, k: WindowKey, at: Limiter, s: Limiter)
    requires n < m < |steps| && steps[n] == Snap && steps[m] == SaveRow(k)
    requires LeavesBatch(steps[..m], n + 1, k) && LeavesRow(steps, m + 1, k)
    requires at == Exec(plan, steps[..n]) && k in at.table && at.table[k].start <= at.now
    requires Running(at.table[k], at.now) && s == Exec(plan, steps) && at.table[k].start <= s.now
    ensures Get(Apply(plan, s, Reboot).table, k) ==
            if Running(at.table[k], s.now) then Some(at.table[k]) else None
  {
    StaysInBatch(plan, steps, n, m, k, at);
    StaysSaved(plan, steps, m, k, at.table[k]);
    RebootLoads(plan, s, k);
  }

  lemma RebootLoadsNoOther(plan: Plan, s: Limiter, k: WindowKey)
    requires k !in s.saved
    ensures k !in Apply(plan, s, Reboot).table
  {}

  /** A window whose rows were deleted, and not written again, does not come back. */
  lemma DeletedStaysAway(plan: Plan, steps: seq<Step>, n: nat, k: WindowKey, s: Limiter)
    requires n < |steps| && steps[n] == DeleteRows(k.owner.keyHash) && s == Exec(plan, steps)
    requires forall i :: n < i < |steps| ==> steps[i] != SaveRow(k)
    ensures k !in Apply(plan, s, Reboot).table
  {
    NotWritten(plan, steps, n, k);
    RebootLoadsNoOther(plan, s, k);
  }

  lemma StaysUnwritten(plan: Plan, s: Limiter, step: Step, k: WindowKey)
    requires k !in s.saved && step != SaveRow(k)
    ensures k !in Apply(plan, s, step).saved
  {}

  lemma {:induction false} NotWritten(plan: Plan, steps: seq<Step>, n: nat, k: WindowKey)
    requires n < |steps| && steps[n] == DeleteRows(k.owner.keyHash)
    requires forall i :: n < i < |steps| ==> steps[i] != SaveRow(k)
    ensures k !in Exec(plan, steps).saved
    decreases |steps|
  {
    var front := steps[..|steps| - 1];
    if n == |steps| - 1 {
      DeleteForgets(plan, Exec(plan, front), k);
    } else {
      NotWritten(plan, front, n, k);
      StaysUnwritten(plan, Exec(plan, front), steps[|steps| - 1], k);
    }
  }
}
