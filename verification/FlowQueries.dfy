/**
 A status query that looks at one slot after another while everything else goes on: what it
 shows was so when it looked, and it shows every request it could have known of that is still
 queued when it ends.
 */
module FlowQueries {

  import opened FlowIndex
  import opened FlowIndexRuns

  function Shown(job: Job): seq<Status> { if job.Trim? then [] else job.shown }

  function Todo(job: Job): seq<Ref> { if job.Reading? then job.todo else [] }

  /** Of the first `n` references in `list` each is shown or gone, and nothing else is shown, nor
      anything twice. */
  ghost predicate Dealt(w: World, list: seq<Ref>, n: nat, shown: seq<Status>) {
    && n <= |list|
    && (forall j :: 0 <= j < n ==> Lists(shown, list[j]) || Gone(w, list[j]))
    && (forall i :: 0 <= i < |shown| ==> shown[i].ref in list[..n])
    && NoneTwice(shown)
  }

  /** The query has dealt with all of `list` but what it has still to look at. */
  ghost predicate Progress(w: World, list: seq<Ref>, job: Job) {
    && !job.Trim?
    && |Todo(job)| <= |list| && Todo(job) == list[|list| - |Todo(job)|..]
    && Dealt(w, list, |list| - |Todo(job)|, Shown(job))
  }

  lemma ListsSnoc(shown: seq<Status>, st: Status, r: Ref)
    ensures Lists(shown + [st], r) <==> Lists(shown, r) || st.ref == r
  {
    var all := shown + [st];
    if Lists(shown, r) {
      var i :| 0 <= i < |shown| && shown[i].ref == r;
      assert all[i].ref == r;
    }
    if st.ref == r { assert all[|shown|].ref == r; }
    if Lists(all, r) {
      var i :| 0 <= i < |all| && all[i].ref == r;
      if i < |shown| { assert shown[i].ref == r; }
    }
  }

  lemma DealtShown(w: World, list: seq<Ref>, n: nat, shown: seq<Status>, st: Status)
    requires Distinct(list) && n < |list| && Dealt(w, list, n, shown) && st.ref == list[n]
    ensures Dealt(w, list, n + 1, shown + [st])
  {
    var all := shown + [st];
    assert list[..n + 1] == list[..n] + [list[n]];
    forall j | 0 <= j < n + 1 ensures Lists(all, list[j]) || Gone(w, list[j]) { ListsSnoc(shown, st, list[j]); }
    assert list[n] !in list[..n];
  }

  lemma DealtGone(w: World, list: seq<Ref>, n: nat, shown: seq<Status>)
    requires n < |list| && Dealt(w, list, n, shown) && Gone(w, list[n])
    ensures Dealt(w, list, n + 1, shown)
  {
    assert list[..n + 1] == list[..n] + [list[n]];
  }

  /** Looking at the next reference. */
  lemma ReadProgress(w: World, list: seq<Ref>, job: Job)
    requires WorldInv(w) && JobOk(w, job) && Distinct(list) && Progress(w, list, job) && job.Reading? && job.todo != []
    ensures Progress(w, list, ReadNext(Slots(w), job))
  {
    var n, r := |list| - |job.todo|, job.todo[0];
    assert r == list[n] && job.todo[1..] == list[n + 1..];
    assert Belongs(w, r, job.key);
    QueuedIsEntry(w, r);
    if Queued(Slots(w), r) {
      DealtShown(w, list, n, job.shown, StatusOf(Slots(w), r));
    } else {
      DealtGone(w, list, n, job.shown);
    }
  }

  /** Whatever else runs, progress is not undone. */
  lemma DealtStays(w: World, step: WorldStep, list: seq<Ref>, n: nat, shown: seq<Status>)
    requires WorldInv(w) && Dealt(w, list, n, shown)
    ensures Dealt(ApplyWorld(w, step), list, n, shown)
  {
    forall r | Gone(w, r) ensures Gone(ApplyWorld(w, step), r) { RefStays(w, step, r, ""); }
  }

  /** The job after a step: the next look of a query, or the same answer and the same left to look at. */
  lemma JobAfter(w: World, step: WorldStep, i: nat)
    requires i < |w.jobs| && !w.jobs[i].Trim?
    ensures var job, w' := w.jobs[i], ApplyWorld(w, step);
            && i < |w'.jobs| && !w'.jobs[i].Trim? && w'.jobs[i].key == job.key
            && if step == Work(i) && job.Reading? && job.todo != [] then w'.jobs[i] == ReadNext(Slots(w), job)
               else Todo(w'.jobs[i]) == Todo(job) && Shown(w'.jobs[i]) == Shown(job)
  {}

  lemma StepProgress(w: World, step: WorldStep, list: seq<Ref>, i: nat)
    requires WorldInv(w) && i < |w.jobs| && Distinct(list) && Progress(w, list, w.jobs[i])
    ensures i < |ApplyWorld(w, step).jobs| && Progress(ApplyWorld(w, step), list, ApplyWorld(w, step).jobs[i])
  {
    var job := w.jobs[i];
    JobAfter(w, step, i);
    var next := ApplyWorld(w, step).jobs[i];
    if step == Work(i) && job.Reading? && job.todo != [] {
      assert JobOk(w, job);
      ReadProgress(w, list, job);
    }
    DealtStays(w, step, list, |list| - |Todo(next)|, Shown(next));
  }

  function StateAt(steps: seq<WorldStep>, m: nat): World
    requires m <= |steps|
  {
    ExecWorld(EMPTY, steps[..m])
  }

  /** The status is that of a queued request of `k`. */
  ghost predicate TrueOf(w: World, st: Status, k: string) { OwnedAndQueued(w, st.ref, k) && ShowsRequest(w, st) }

  /** It was so at some moment after the first `n` steps. */
  ghost predicate Witnessed(steps: seq<WorldStep>, n: nat, st: Status, k: string) {
    exists m :: n <= m <= |steps| && TrueOf(StateAt(steps, m), st, k)
  }

  lemma WitnessedLater(front: seq<WorldStep>, steps: seq<WorldStep>, n: nat, st: Status, k: string)
    requires Witnessed(front, n, st, k) && front <= steps
    ensures Witnessed(steps, n, st, k)
  {
    var m :| n <= m <= |front| && TrueOf(StateAt(front, m), st, k);
    assert steps[..m] == front[..m];
    assert TrueOf(StateAt(steps, m), st, k);
  }

  ghost predicate AllWitnessed(steps: seq<WorldStep>, n: nat, answer: seq<Status>, k: string) {
    forall j :: 0 <= j < |answer| ==> Witnessed(steps, n, answer[j], k)
  }

  ghost predicate NoneTwice(answer: seq<Status>) {
    forall i, j :: 0 <= i < j < |answer| ==> answer[i].ref != answer[j].ref
  }

  /** What a step of the query adds to the answer is true in the state it looks at. */
  lemma AddsTruth(w: World, step: WorldStep, i: nat, j: nat)
    requires WorldInv(w) && i < |w.jobs| && !w.jobs[i].Trim?
    requires var next := ApplyWorld(w, step).jobs; i < |next| && |Shown(w.jobs[i])| <= j < |Shown(next[i])|
    ensures TrueOf(w, Shown(ApplyWorld(w, step).jobs[i])[j], w.jobs[i].key)
  {
    var job := w.jobs[i];
    JobAfter(w, step, i);
    assert JobOk(w, job);
    StatusShows(w, job.todo[0], job.key);
  }

  lemma StepWitnesses(front: seq<WorldStep>, step: WorldStep, steps: seq<WorldStep>, n: nat, i: nat, w: World)
    requires w == ExecWorld(EMPTY, front) && steps == front + [step] && n <= |front|
    requires WorldInv(w) && i < |w.jobs| && !w.jobs[i].Trim? && AllWitnessed(front, n, Shown(w.jobs[i]), w.jobs[i].key)
    ensures i < |ApplyWorld(w, step).jobs| && AllWitnessed(steps, n, Shown(ApplyWorld(w, step).jobs[i]), w.jobs[i].key)
  {
    JobAfter(w, step, i);
    var job, next := w.jobs[i], ApplyWorld(w, step).jobs[i];
    forall j | 0 <= j < |Shown(next)| ensures Witnessed(steps, n, Shown(next)[j], job.key) {
      if j < |Shown(job)| {
        WitnessedLater(front, steps, n, Shown(job)[j], job.key);
      } else {
        AddsTruth(w, step, i, j);
        assert steps[..|front|] == front;
        assert TrueOf(StateAt(steps, |front|), Shown(next)[j], job.key);
      }
    }
  }

  /** The state of a query begun after `before`, after further steps. */
  ghost predicate QueryState(before: seq<WorldStep>, w0: World, steps: seq<WorldStep>, w: World, k: string) {
    && |w0.jobs| < |w.jobs| && w.jobs[|w0.jobs|].key == k
    && Progress(w, Refs(w0.index, k), w.jobs[|w0.jobs|])
    && AllWitnessed(steps, |before|, Shown(w.jobs[|w0.jobs|]), k)
  }

  lemma QueryBegins(before: seq<WorldStep>, w0: World, steps: seq<WorldStep>, k: string)
    ensures QueryState(before, w0, steps, ApplyWorld(w0, Query(k)), k)
  {
    var w := ApplyWorld(w0, Query(k));
    var job, list := w.jobs[|w0.jobs|], Refs(w0.index, k);
    assert Todo(job) == list && Shown(job) == [];
    assert list[0..] == list;
  }

  /** The run goes on from `before` with a query for `k`. */
  predicate BeginsQuery(before: seq<WorldStep>, steps: seq<WorldStep>, k: string) {
    before <= steps && |before| < |steps| && steps[|before|] == Query(k)
  }

  lemma {:induction false} QueryGoesOn(before: seq<WorldStep>, w0: World, steps: seq<WorldStep>, k: string)
    requires w0 == ExecWorld(EMPTY, before) && BeginsQuery(before, steps, k)
    ensures QueryState(before, w0, steps, ExecWorld(EMPTY, steps), k)
    decreases |steps|
  {
    var front, last := steps[..|steps| - 1], steps[|steps| - 1];
    if |front| == |before| {
      assert front == before;
      QueryBegins(before, w0, steps, k);
    } else {
      assert BeginsQuery(before, front, k);
      QueryGoesOn(before, w0, front, k);
      assert steps == front + [last];
      QueryNext(before, w0, front, last, steps, ExecWorld(EMPTY, front), k);
    }
  }

  lemma QueryNext(
    before: seq<WorldStep>, w0: World, front: seq<WorldStep>, last: WorldStep, steps: seq<WorldStep>, w: World,
        k: string)
    requires w0 == ExecWorld(EMPTY, before) && w == ExecWorld(EMPTY, front) && steps == front + [last]
    requires QueryState(before, w0, front, w, k) && |before| <= |front|
    ensures QueryState(before, w0, steps, ApplyWorld(w, last), k)
  {
    WorldRunKeepsInv(before);
    WorldRunKeepsInv(front);
    assert KeySound(w0, k);
    StepProgress(w, last, Refs(w0.index, k), |w0.jobs|);
    StepWitnesses(front, last, steps, |before|, |w0.jobs|, w);
    JobAfter(w, last, |w0.jobs|);
  }

  /** The query begun after `before` has looked everywhere. */
  predicate HasLooked(w0: World, w: World) { |w0.jobs| < |w.jobs| && Todo(w.jobs[|w0.jobs|]) == [] }

  /** Its answer, once it has. */
  function AnswerOf(w0: World, w: World): seq<Status>
    requires HasLooked(w0, w)
  {
    Shown(w.jobs[|w0.jobs|])
  }

  /** Whatever runs while a query looks at one slot after another, its answer names no request twice,
      and each entry was true of a queued request of the key when the query looked at it. */
  lemma QueryTellsTheTruth(before: seq<WorldStep>, w0: World, steps: seq<WorldStep>, w: World, k: string)
    requires w0 == ExecWorld(EMPTY, before) && BeginsQuery(before, steps, k) && w == ExecWorld(EMPTY, steps)
    requires HasLooked(w0, w)
    ensures NoneTwice(AnswerOf(w0, w)) && AllWitnessed(steps, |before|, AnswerOf(w0, w), k)
  {
    QueryGoesOn(before, w0, steps, k);
  }

  /** And every request that had registered before the query began, was not hidden by a removal of the
      key and is still queued when the query has looked everywhere, is in the answer. */
  lemma QueryMissesNothing(before: seq<WorldStep>, w0: World, steps: seq<WorldStep>, w: World, k: string, r: Ref)
    requires w0 == ExecWorld(EMPTY, before) && BeginsQuery(before, steps, k) && w == ExecWorld(EMPTY, steps)
    requires HasLooked(w0, w)
    requires Belongs(w0, r, k) && !Removed(before, r, k) && OwnedAndQueued(w, r, k)
    ensures Lists(AnswerOf(w0, w), r)
  {
    KnownRequest(before, w0, steps, w, k, r);
    QueryDeals(before, w0, steps, w, k);
    KnownIsListed(w0, w, r, k);
  }

  lemma QueryDeals(before: seq<WorldStep>, w0: World, steps: seq<WorldStep>, w: World, k: string)
    requires w0 == ExecWorld(EMPTY, before) && BeginsQuery(before, steps, k) && w == ExecWorld(EMPTY, steps)
    requires HasLooked(w0, w)
    ensures Dealt(w, Refs(w0.index, k), |Refs(w0.index, k)|, AnswerOf(w0, w))
  {
    QueryGoesOn(before, w0, steps, k);
  }

  /** A request queued at the end that had registered before was queued then, and in the index. */
  lemma KnownRequest(before: seq<WorldStep>, w0: World, steps: seq<WorldStep>, w: World, k: string, r: Ref)
    requires w0 == ExecWorld(EMPTY, before) && before <= steps && w == ExecWorld(EMPTY, steps)
    requires Belongs(w0, r, k) && !Removed(before, r, k) && OwnedAndQueued(w, r, k)
    ensures r in Refs(w0.index, k)
  {
    WasQueued(before, w0, steps, w, r, k);
    IndexedIff(before, r, k);
  }

  lemma KnownIsListed(w0: World, w: World, r: Ref, k: string)
    requires HasLooked(w0, w) && Dealt(w, Refs(w0.index, k), |Refs(w0.index, k)|, AnswerOf(w0, w))
    requires r in Refs(w0.index, k) && OwnedAndQueued(w, r, k)
    ensures Lists(AnswerOf(w0, w), r)
  {
    QueuedIsNotGone(w, r, k);
    var list := Refs(w0.index, k);
    var j :| 0 <= j < |list| && list[j] == r;
    assert list[j] == r;
  }

  lemma {:induction false} BelongsLater(before: seq<WorldStep>, w0: World, steps: seq<WorldStep>, w: World, r: Ref,
      k: string)
    requires w0 == ExecWorld(EMPTY, before) && before <= steps && w == ExecWorld(EMPTY, steps)
    requires Belongs(w0, r, k)
    ensures Belongs(w, r, k)
    decreases |steps|
  {
    if |steps| == |before| {
      assert steps == before;
    } else {
      var front := steps[..|steps| - 1];
      var m := ExecWorld(EMPTY, front);
      BelongsLater(before, w0, front, m, r, k);
      WorldRunKeepsInv(front);
      RefStays(m, steps[|steps| - 1], r, k);
    }
  }

  lemma WasQueuedBefore(w: World, step: WorldStep, r: Ref, k: string)
    requires WorldInv(w) && Belongs(w, r, k) && OwnedAndQueued(ApplyWorld(w, step), r, k)
    ensures OwnedAndQueued(w, r, k)
  {
    QueuedBefore(w, step, r, k);
  }

  lemma {:induction false} WasQueued(before: seq<WorldStep>, w0: World, steps: seq<WorldStep>, w: World, r: Ref,
      k: string)
    requires w0 == ExecWorld(EMPTY, before) && before <= steps && w == ExecWorld(EMPTY, steps)
    requires Belongs(w0, r, k) && OwnedAndQueued(w, r, k)
    ensures OwnedAndQueued(w0, r, k)
    decreases |steps|
  {
    if |steps| == |before| {
      assert steps == before;
    } else {
      var front := steps[..|steps| - 1];
      var m := ExecWorld(EMPTY, front);
      BelongsLater(before, w0, front, m, r, k);
      WorldRunKeepsInv(front);
      WasQueuedBefore(m, steps[|steps| - 1], r, k);
      WasQueued(before, w0, front, m, r, k);
    }
  }
}
