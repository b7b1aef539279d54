/**
 What keeps the by-key index small: a query takes out every reference to a request that was gone
 when it began, and no key keeps an empty list once all removals are through.
 */
module FlowUpkeep {

  import opened FlowSlots
  import opened FlowIndex
  import opened FlowIndexRuns
  import opened FlowQueries

  // ----- a query cleans up behind itself

  /** What becomes of a reference that was gone when query `i` began: still to be looked at, found stale,
      or out of the list. */
  ghost predicate OnItsWayOut(w: World, i: nat, r: Ref, k: string) {
    && i < |w.jobs| && !w.jobs[i].Trim? && w.jobs[i].key == k && Gone(w, r)
    && if w.jobs[i].Reading? then r in w.jobs[i].todo || r in w.jobs[i].stale else r !in Refs(w.index, k)
  }

  /** A reference to a request that is gone never comes back. */
  lemma StaysOut(w: World, step: WorldStep, r: Ref, k: string)
    requires WorldInv(w) && Gone(w, r) && r !in Refs(w.index, k)
    ensures r !in Refs(ApplyWorld(w, step).index, k)
  {
    StepRefs(w, step, k, r);
  }

  lemma ReadsNextOut(slots: map<string, Slot>, job: Job, r: Ref)
    requires job.Reading? && job.todo != [] && !Queued(slots, r) && (r in job.todo || r in job.stale)
    ensures var next := ReadNext(slots, job);
            next.Reading? && next.key == job.key && (r in next.todo || r in next.stale)
  {
    assert job.todo == [job.todo[0]] + job.todo[1..];
  }

  lemma ReadsOut(w: World, i: nat, r: Ref, k: string)
    requires WorldInv(w) && OnItsWayOut(w, i, r, k) && w.jobs[i].Reading?
    ensures OnItsWayOut(ApplyWorld(w, Work(i)), i, r, k)
  {
    var job := w.jobs[i];
    if job.todo != [] {
      QueuedIsEntry(w, r);
      ReadsNextOut(Slots(w), job, r);
    } else {
      TrimStaleFacts(w.index, k, job.stale, k);
    }
  }

  lemma StepsOut(w: World, step: WorldStep, i: nat, r: Ref, k: string)
    requires WorldInv(w) && OnItsWayOut(w, i, r, k)
    ensures OnItsWayOut(ApplyWorld(w, step), i, r, k)
  {
    RefStays(w, step, r, k);
    if w.jobs[i].Reading? && step == Work(i) {
      ReadsOut(w, i, r, k);
    } else {
      if !w.jobs[i].Reading? { StaysOut(w, step, r, k); }
      JobGoesOn(w, step, i);
    }
  }

  /** A job that is not worked on stays as it is; one past its reading stays past it. */
  lemma JobGoesOn(w: World, step: WorldStep, i: nat)
    requires i < |w.jobs| && !w.jobs[i].Trim? && !(w.jobs[i].Reading? && step == Work(i))
    ensures var jobs := ApplyWorld(w, step).jobs;
            && i < |jobs| && !jobs[i].Trim? && jobs[i].key == w.jobs[i].key
            && if w.jobs[i].Reading? then jobs[i] == w.jobs[i] else !jobs[i].Reading?
  {}

  lemma StartsOut(w: World, r: Ref, k: string)
    requires WorldInv(w) && r in Refs(w.index, k) && Gone(w, r)
    ensures OnItsWayOut(ApplyWorld(w, Query(k)), |w.jobs|, r, k)
  {
    RefStays(w, Query(k), r, k);
  }

  lemma GoesOn(before: seq<WorldStep>, steps: seq<WorldStep>, k: string)
    requires BeginsQuery(before, steps, k)
    ensures var front, last := steps[..|steps| - 1], steps[|steps| - 1];
            && ExecWorld(EMPTY, steps) == ApplyWorld(ExecWorld(EMPTY, front), last)
            && if |front| == |before| then front == before && last == Query(k) else BeginsQuery(before, front, k)
  {
    assert |steps| - 1 == |before| ==> steps[..|steps| - 1] == before;
  }

  lemma {:induction false} GoesOut(
    before: seq<WorldStep>, w0: World, steps: seq<WorldStep>, w: World, r: Ref, k: string)
    requires w0 == ExecWorld(EMPTY, before) && BeginsQuery(before, steps, k) && w == ExecWorld(EMPTY, steps)
    requires WorldInv(w0) && r in Refs(w0.index, k) && Gone(w0, r)
    ensures OnItsWayOut(w, |w0.jobs|, r, k)
    decreases |steps|
  {
    var front, last := steps[..|steps| - 1], steps[|steps| - 1];
    GoesOn(before, steps, k);
    if |front| == |before| {
      StartsOut(w0, r, k);
    } else {
      var m := ExecWorld(EMPTY, front);
      GoesOut(before, w0, front, m, r, k);
      WorldRunKeepsInv(front);
      StepsOut(m, last, |w0.jobs|, r, k);
    }
  }

  /** Whatever runs meanwhile, once a query has cleaned up, no request that was gone when it began is in
      the list of its key. */
  lemma QueryCleansUp(before: seq<WorldStep>, w0: World, steps: seq<WorldStep>, w: World, r: Ref, k: string)
    requires w0 == ExecWorld(EMPTY, before) && BeginsQuery(before, steps, k) && w == ExecWorld(EMPTY, steps)
    requires |w0.jobs| < |w.jobs| && !w.jobs[|w0.jobs|].Reading?
    requires Gone(w0, r)
    ensures r !in Refs(w.index, k)
  {
    if r in Refs(w0.index, k) {
      WorldRunKeepsInv(before);
      GoesOut(before, w0, steps, w, r, k);
    } else {
      NeverBack(before, w0, steps, r, k);
    }
  }

  lemma {:induction false} NeverBack(before: seq<WorldStep>, w0: World, steps: seq<WorldStep>, r: Ref, k: string)
    requires w0 == ExecWorld(EMPTY, before) && before <= steps && Gone(w0, r) && r !in Refs(w0.index, k)
    ensures Gone(ExecWorld(EMPTY, steps), r) && r !in Refs(ExecWorld(EMPTY, steps).index, k)
    decreases |steps|
  {
    if |steps| == |before| {
      assert steps == before;
    } else {
      var front, last := steps[..|steps| - 1], steps[|steps| - 1];
      NeverBack(before, w0, front, r, k);
      WorldRunKeepsInv(front);
      RefStays(ExecWorld(EMPTY, front), last, r, k);
      StaysOut(ExecWorld(EMPTY, front), last, r, k);
    }
  }

  // ----- only who takes out the last reference removes the key

  lemma {:induction false} AbsentKeepsAll(refs: seq<Ref>, drop: Ref)
    requires drop !in refs
    ensures Keep(refs, drop) == refs
  {
    if refs != [] {
      assert refs == [refs[0]] + refs[1..];
      AbsentKeepsAll(refs[1..], drop);
    }
  }

  lemma PresentShrinks(refs: seq<Ref>, drop: Ref)
    requires drop in refs
    ensures |Keep(refs, drop)| < |refs|
  {
    KeepFacts(refs, drop);
  }

  /** A removal goes on to remove the key if and only if its own reference was the last in the list. */
  lemma LastOneOutRemoves(w: World, i: nat)
    requires i < |w.jobs| && w.jobs[i].Trim?
    ensures var job, w' := w.jobs[i], ApplyWorld(w, Work(i));
            && w'.jobs[i].key == job.key && (w'.jobs[i].Vacate? || w'.jobs[i].Finished?)
            && (w'.jobs[i].Vacate? <==>
                  job.ref in Refs(w.index, job.key) && Refs(w'.index, job.key) == [])
            && (job.ref !in Refs(w.index, job.key) ==> w'.index == w.index)
  {
    var refs, ref := Refs(w.index, w.jobs[i].key), w.jobs[i].ref;
    if ref in refs { PresentShrinks(refs, ref); } else { AbsentKeepsAll(refs, ref); }
  }

  // ----- no key keeps an empty list

  /** An empty list is about to be removed. */
  predicate SeenTo(w: World, k: string) { k in w.index && w.index[k] == [] ==> Vacating(w, k) }

  /** Only the removal of the key itself takes a pending removal away. */
  lemma StillVacating(w: World, step: WorldStep, k: string)
    requires Vacating(w, k) && !Vacates(w, step, k)
    ensures Vacating(ApplyWorld(w, step), k)
  {
    var i :| 0 <= i < |w.jobs| && w.jobs[i].Vacate? && w.jobs[i].key == k;
    assert ApplyWorld(w, step).jobs[i] == w.jobs[i];
  }

  /** A step that leaves the list empty where it was not starts a removal. */
  lemma NewlyEmpty(w: World, step: WorldStep, k: string)
    requires k in ApplyWorld(w, step).index && ApplyWorld(w, step).index[k] == []
    requires k in w.index ==> w.index[k] != []
    ensures Vacating(ApplyWorld(w, step), k)
  {
    var w' := ApplyWorld(w, step);
    if step.Work? && step.i < |w.jobs| {
      if w.jobs[step.i].Trim? && w.jobs[step.i].key == k {
        assert w'.jobs[step.i].Vacate? && w'.jobs[step.i].key == k;
      } else if w.jobs[step.i].Reading? && w.jobs[step.i].todo == [] && w.jobs[step.i].key == k {
        assert w'.jobs[step.i].Vacate? && w'.jobs[step.i].key == k;
      }
    }
  }

  lemma StepSeesTo(w: World, step: WorldStep, k: string)
    requires SeenTo(w, k)
    ensures SeenTo(ApplyWorld(w, step), k)
  {
    var w' := ApplyWorld(w, step);
    if k in w'.index && w'.index[k] == [] {
      if k in w.index && w.index[k] == [] {
        if !Vacates(w, step, k) { StillVacating(w, step, k); }
      } else {
        NewlyEmpty(w, step, k);
      }
    }
  }

  lemma {:induction false} EmptyIsSeenTo(steps: seq<WorldStep>, k: string)
    ensures SeenTo(ExecWorld(EMPTY, steps), k)
    decreases |steps|
  {
    if steps != [] {
      EmptyIsSeenTo(steps[..|steps| - 1], k);
      StepSeesTo(ExecWorld(EMPTY, steps[..|steps| - 1]), steps[|steps| - 1], k);
    }
  }

  /** In every run, when no removal is under way, every key in the index has a request. */
  lemma NoEmptyKeys(steps: seq<WorldStep>, k: string)
    requires k in ExecWorld(EMPTY, steps).index
    requires forall i :: 0 <= i < |ExecWorld(EMPTY, steps).jobs| ==> !ExecWorld(EMPTY, steps).jobs[i].Vacate?
    ensures exists r :: r in Refs(ExecWorld(EMPTY, steps).index, k) && Belongs(ExecWorld(EMPTY, steps), r, k)
  {
    var w := ExecWorld(EMPTY, steps);
    EmptyIsSeenTo(steps, k);
    WorldRunKeepsInv(steps);
    assert KeySound(w, k);
    assert w.index[k][0] in Refs(w.index, k);
  }
}
