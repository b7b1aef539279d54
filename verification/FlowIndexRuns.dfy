/**
 What every run keeps of the by-key index, and what a status query is worth: a queued request
 is found through the index if and only if no removal of its key ran since it registered.
 */
module FlowIndexRuns {

  import opened Wrappers
  import opened FlowSlots
  import opened FlowOrder
  import opened FlowSystem
  import opened FlowTheorems
  import opened FlowIndex

  /** This client has registered its request under `k`. */
  predicate Belongs(w: World, r: Ref, k: string) {
    && r.dep in w.deps
    && r.id in w.deps[r.dep].clients
    && w.deps[r.dep].clients[r.id].key == Some(k)
    && !w.deps[r.dep].clients[r.id].phase.Enqueued?
  }

  /** What a scan of every queue by owner would find for this key. */
  predicate OwnedAndQueued(w: World, r: Ref, k: string) {
    Belongs(w, r, k) && Entry(w.deps[r.dep], r.id).Some?
  }

  /** A registered request whose entry has left its queue. */
  predicate Gone(w: World, r: Ref) {
    && r.dep in w.deps
    && r.id in w.deps[r.dep].clients
    && !w.deps[r.dep].clients[r.id].phase.Enqueued?
    && Entry(w.deps[r.dep], r.id).None?
  }

  /** The index holds nothing under `k` but requests of `k`, each once. */
  ghost predicate KeySound(w: World, k: string) {
    Distinct(Refs(w.index, k)) && forall r :: r in Refs(w.index, k) ==> Belongs(w, r, k)
  }

  /** It holds every queued request of `k`. */
  ghost predicate KeyComplete(w: World, k: string) {
    forall r: Ref :: OwnedAndQueued(w, r, k) ==> r in Refs(w.index, k)
  }

  /** A job drops only references to requests that are gone, and a query reads its own key's. */
  ghost predicate JobOk(w: World, job: Job) {
    match job
    case Trim(_, ref) => Gone(w, ref)
    case Reading(key, todo, _, stale) =>
      (forall r :: r in todo ==> Belongs(w, r, key)) && (forall r :: r in stale ==> Gone(w, r))
    case _ => true
  }

  ghost predicate WorldInv(w: World) {
    && (forall d :: d in w.deps ==> Inv(w.deps[d]))
    && (forall k :: KeySound(w, k))
    && (forall i :: 0 <= i < |w.jobs| ==> JobOk(w, w.jobs[i]))
  }

  // ----- clients along a step

  /** A client keeps its key and queue, never returns to the first phase, and never regains an
      entry; it leaves the first phase by registering; new clients start there. */
  lemma PrepareClient(s: Sys, step: Step, id: nat)
    requires Inv(s)
    ensures var s' := Prepare(s, step).sys;
            && (id in s.clients ==>
                  && id in s'.clients && s'.clients[id].key == s.clients[id].key
                      && s'.clients[id].vip == s.clients[id].vip
                  && (s'.clients[id].phase.Enqueued? <==> s.clients[id].phase.Enqueued? && step != Register(id))
                  && (Entry(s', id).Some? ==> Entry(s, id).Some?))
            && (id !in s.clients && id in s'.clients ==> s'.clients[id].phase.Enqueued?)
  {
    if id in s.clients {
      if IsAbout(step, id) { PrepareOwn(s, step, id); } else { OthersUntouched(s, step, id); }
    }
  }

  lemma PrepareOwn(s: Sys, step: Step, id: nat)
    requires Inv(s) && id in s.clients && IsAbout(step, id)
    ensures var s' := Prepare(s, step).sys;
            && id in s'.clients && s'.clients[id].key == s.clients[id].key && s'.clients[id].vip == s.clients[id].vip
            && (s'.clients[id].phase.Enqueued? <==> s.clients[id].phase.Enqueued? && step != Register(id))
            && (Entry(s', id).Some? ==> Entry(s, id).Some?)
  {
    if IsExit(step) { WithoutFacts(s.slot.Queue(s.clients[id].vip), id, 0, s.slot.nextId); }
  }

  lemma StepClient(s: Sys, step: Step, id: nat)
    requires Inv(s)
    ensures var s' := Apply(s, step).0;
            && (id in s.clients ==>
                  && id in s'.clients && s'.clients[id].key == s.clients[id].key
                  && (s'.clients[id].phase.Enqueued? <==> s.clients[id].phase.Enqueued? && step != Register(id))
                  && (Entry(s', id).Some? ==> Entry(s, id).Some?))
            && (id !in s.clients && id in s'.clients ==> s'.clients[id].phase.Enqueued?)
  {
    PrepareClient(s, step, id);
    PrepareKeepsInv(s, step);
    FinishClient(Prepare(s, step), id);
  }

  lemma FinishClient(p: Prep, id: nat)
    requires Inv(p.sys)
    ensures var s' := Finish(p).0;
            && s'.clients == p.sys.clients
            && (id in s'.clients && Entry(s', id).Some? ==> Entry(p.sys, id).Some?)
  {
    if p.dispatch {
      RunDispatchKeepsInv(p.sys);
      DispatchOwnership(p.sys, id);
    }
  }

  /** A removal starts only once the entry is gone for good. */
  lemma UnindexedIsGone(s: Sys, step: Step, id: nat)
    requires Inv(s) && Unindexes(s, step, id)
    ensures id in Apply(s, step).0.clients && Entry(Apply(s, step).0, id).None?
  {
    StepKeepsInv(s, step);
    UnindexedIsDone(s, step, id);
    var s' := Apply(s, step).0;
    assert ClientOk(s'.clients[id].phase, Entry(s', id), id in s'.sent);
  }

  lemma UnindexedIsDone(s: Sys, step: Step, id: nat)
    requires Inv(s) && Unindexes(s, step, id)
    ensures id in Apply(s, step).0.clients && Apply(s, step).0.clients[id].phase.Done?
  {
    PrepareKeepsInv(s, step);
    FinishClient(Prepare(s, step), id);
  }

  /** Registered requests stay registered, and gone ones gone. */
  lemma RefStays(w: World, step: WorldStep, r: Ref, k: string)
    requires forall d :: d in w.deps ==> Inv(w.deps[d])
    ensures Belongs(w, r, k) ==> Belongs(ApplyWorld(w, step), r, k)
    ensures Gone(w, r) ==> Gone(ApplyWorld(w, step), r)
  {
    if step.At? && step.dep == r.dep && step.dep in w.deps { StepClient(w.deps[step.dep], step.step, r.id); }
  }

  /** The step that writes this request into the index. */
  predicate Registers(w: World, step: WorldStep, r: Ref, k: string) {
    && step == At(r.dep, Register(r.id)) && r.dep in w.deps
    && In(w.deps[r.dep], r.id, Enqueued) && w.deps[r.dep].clients[r.id].key == Some(k)
  }

  /** No step brings a request into the queues of a key but its registration. */
  lemma QueuedBefore(w: World, step: WorldStep, r: Ref, k: string)
    requires forall d :: d in w.deps ==> Inv(w.deps[d])
    requires OwnedAndQueued(ApplyWorld(w, step), r, k)
    ensures OwnedAndQueued(w, r, k) || Registers(w, step, r, k)
  {
    if step.At? && step.dep == r.dep && step.dep in w.deps { StepClient(w.deps[step.dep], step.step, r.id); }
  }

  // ----- references along a step

  /** The step removes the key itself. */
  predicate Vacates(w: World, step: WorldStep, k: string) {
    step.Work? && step.i < |w.jobs| && w.jobs[step.i].Vacate? && w.jobs[step.i].key == k
  }

  lemma TrimRefFacts(index: Index, key: string, ref: Ref, k: string)
    ensures var index' := TrimRef(index, key, ref).0;
            && (forall r :: r in Refs(index', k) <==> r in Refs(index, k) && !(k == key && r == ref))
            && (Distinct(Refs(index, k)) ==> Distinct(Refs(index', k)))
  {
    KeepFacts(Refs(index, k), ref);
  }

  lemma TrimStaleFacts(index: Index, key: string, stale: seq<Ref>, k: string)
    ensures var index' := TrimStale(index, key, stale).0;
            && (forall r :: r in Refs(index', k) <==> r in Refs(index, k) && !(k == key && r in stale))
            && (Distinct(Refs(index, k)) ==> Distinct(Refs(index', k)))
  {
    SiftFacts(Refs(index, k), stale);
  }

  /** What a step leaves under a key: a removal of the key leaves nothing; any other step adds what
      registers and drops nothing but gone requests. */
  lemma StepRefs(w: World, step: WorldStep, k: string, r: Ref)
    requires WorldInv(w)
    ensures var w' := ApplyWorld(w, step);
            && (r in Refs(w'.index, k) ==> r in Refs(w.index, k) || Registers(w, step, r, k))
            && (Vacates(w, step, k) ==> r !in Refs(w'.index, k))
            && (!Vacates(w, step, k) && (Registers(w, step, r, k) || (r in Refs(w.index, k) && !Gone(w, r))) ==>
                  r in Refs(w'.index, k))
  {
    if step.At? && step.dep in w.deps {
      AtRefs(w, step.dep, step.step, k, r);
    } else if step.Work? && step.i < |w.jobs| {
      WorkRefs(w, step.i, k, r);
    }
  }

  lemma AtRefs(w: World, d: string, st: Step, k: string, r: Ref)
    requires d in w.deps
    ensures r in Refs(IndexAfter(w.index, d, w.deps[d], st), k) <==>
            r in Refs(w.index, k) || Registers(w, At(d, st), r, k)
  {
    var s := w.deps[d];
    if st.Register? && In(s, st.id, Enqueued) { AddRefFacts(w.index, s.clients[st.id].key, Ref(d, st.id), k); }
  }

  lemma WorkRefs(w: World, i: nat, k: string, r: Ref)
    requires WorldInv(w) && i < |w.jobs|
    ensures var w' := WorkOn(w, i);
            && (r in Refs(w'.index, k) ==> r in Refs(w.index, k))
            && (Vacates(w, Work(i), k) ==> r !in Refs(w'.index, k))
            && (!Vacates(w, Work(i), k) && r in Refs(w.index, k) && !Gone(w, r) ==> r in Refs(w'.index, k))
  {
    assert JobOk(w, w.jobs[i]);
    match w.jobs[i]
    case Trim(key, ref) => TrimRefFacts(w.index, key, ref, k);
    case Reading(key, _, _, stale) => TrimStaleFacts(w.index, key, stale, k);
    case _ =>
  }

  lemma StepDistinct(w: World, step: WorldStep, k: string)
    requires WorldInv(w)
    ensures Distinct(Refs(ApplyWorld(w, step).index, k))
  {
    assert KeySound(w, k);
    if step.At? && step.dep in w.deps {
      var s := w.deps[step.dep];
      if step.step.Register? && In(s, step.step.id, Enqueued) {
        var r := Ref(step.dep, step.step.id);
        assert !Belongs(w, r, k);
        AddRefFacts(w.index, s.clients[step.step.id].key, r, k);
      }
    } else if step.Work? && step.i < |w.jobs| {
      match w.jobs[step.i]
      case Trim(key, ref) => TrimRefFacts(w.index, key, ref, k);
      case Reading(key, _, _, stale) => TrimStaleFacts(w.index, key, stale, k);
      case _ =>
    }
  }

  lemma StepSound(w: World, step: WorldStep, k: string)
    requires WorldInv(w)
    ensures KeySound(ApplyWorld(w, step), k)
  {
    var w' := ApplyWorld(w, step);
    StepDistinct(w, step, k);
    forall r | r in Refs(w'.index, k) ensures Belongs(w', r, k) {
      StepRefs(w, step, k, r);
      if Registers(w, step, r, k) { StepClient(w.deps[r.dep], step.step, r.id); } else {
        assert KeySound(w, k);
        RefStays(w, step, r, k);
      }
    }
  }

  lemma QueuedIsEntry(w: World, r: Ref)
    requires r.dep in w.deps && Inv(w.deps[r.dep])
    ensures Queued(Slots(w), r) <==> r.id in w.deps[r.dep].clients && Entry(w.deps[r.dep], r.id).Some?
    ensures Queued(Slots(w), r) ==> (Find(w.deps[r.dep].slot.vip, r.id).Some? <==> w.deps[r.dep].clients[r.id].vip)
  {
    var s := w.deps[r.dep];
    assert Find(s.slot.Queue(true), r.id).Some? ==> r.id in s.clients && s.clients[r.id].vip;
    assert Find(s.slot.Queue(false), r.id).Some? ==> r.id in s.clients && !s.clients[r.id].vip;
  }

  // ----- jobs along a step

  lemma JobStays(w: World, step: WorldStep, job: Job)
    requires WorldInv(w) && JobOk(w, job)
    ensures JobOk(ApplyWorld(w, step), job)
  {
    var w' := ApplyWorld(w, step);
    match job
    case Trim(key, ref) => RefStays(w, step, ref, key);
    case Reading(key, todo, _, stale) =>
      forall r | r in todo ensures Belongs(w', r, key) { RefStays(w, step, r, key); }
      forall r | r in stale ensures Gone(w', r) { RefStays(w, step, r, key); }
    case _ =>
  }

  /** A query that finds no entry has met a gone request. */
  lemma ReadKeepsJob(w: World, job: Job)
    requires WorldInv(w) && job.Reading? && job.todo != [] && JobOk(w, job)
    ensures JobOk(w, ReadNext(Slots(w), job))
  {
    var r := job.todo[0];
    assert Belongs(w, r, job.key);
    QueuedIsEntry(w, r);
    assert forall x :: x in job.todo[1..] ==> x in job.todo;
  }

  lemma NewJobOk(w: World, d: string, st: Step)
    requires WorldInv(w) && d in w.deps && (st.Forget? || st.Cleanup? || st.Unregister?)
             && Unindexes(w.deps[d], st, st.id)
    ensures Gone(ApplyWorld(w, At(d, st)), Ref(d, st.id))
  {
    UnindexedIsGone(w.deps[d], st, st.id);
    StepClient(w.deps[d], st, st.id);
  }

  lemma StepJob(w: World, step: WorldStep, j: nat)
    requires WorldInv(w) && j < |ApplyWorld(w, step).jobs|
    ensures JobOk(ApplyWorld(w, step), ApplyWorld(w, step).jobs[j])
  {
    var w' := ApplyWorld(w, step);
    if j < |w.jobs| && w'.jobs[j] == w.jobs[j] {
      assert JobOk(w, w.jobs[j]);
      JobStays(w, step, w.jobs[j]);
    } else if step.At? {
      NewJobOk(w, step.dep, step.step);
    } else if step.Query? {
      assert KeySound(w, step.key);
    } else if w.jobs[j].Reading? && w.jobs[j].todo != [] {
      ReadKeepsJob(w, w.jobs[j]);
      JobStays(w, step, ReadNext(Slots(w), w.jobs[j]));
    }
  }

  lemma WorldStepKeepsInv(w: World, step: WorldStep)
    requires WorldInv(w)
    ensures WorldInv(ApplyWorld(w, step))
  {
    var w' := ApplyWorld(w, step);
    if step.At? && step.dep in w.deps { StepKeepsInv(w.deps[step.dep], step.step); }
    if step.Create? { InitIsSteady(step.maxInflight, step.maxContext); }
    forall k ensures KeySound(w', k) { StepSound(w, step, k); }
    forall j | 0 <= j < |w'.jobs| ensures JobOk(w', w'.jobs[j]) { StepJob(w, step, j); }
  }

  /** In every run the index holds under a key only requests of that key, each once, and every
      reference about to be dropped is one to a request that is gone. */
  lemma {:induction false} WorldRunKeepsInv(steps: seq<WorldStep>)
    ensures WorldInv(ExecWorld(EMPTY, steps))
    decreases |steps|
  {
    if steps != [] {
      WorldRunKeepsInv(steps[..|steps| - 1]);
      WorldStepKeepsInv(ExecWorld(EMPTY, steps[..|steps| - 1]), steps[|steps| - 1]);
    }
  }

  // ----- which requests the index holds, exactly

  /** A removal of the key finds a request that is still queued. */
  ghost predicate Hides(w: World, step: WorldStep, k: string) {
    Vacates(w, step, k) && exists r :: r in Refs(w.index, k) && OwnedAndQueued(w, r, k)
  }

  /** From a complete index, a step leaves it complete if and only if it does not remove the key over a
      queued request. */
  lemma StepCompleteIff(w: World, step: WorldStep, k: string)
    requires WorldInv(w) && KeyComplete(w, k)
    ensures KeyComplete(ApplyWorld(w, step), k) <==> !Hides(w, step, k)
  {
    if Hides(w, step, k) {
      var r :| r in Refs(w.index, k) && OwnedAndQueued(w, r, k);
      HiddenStaysQueued(w, step, k, r);
    } else {
      forall r: Ref | OwnedAndQueued(ApplyWorld(w, step), r, k) ensures r in Refs(ApplyWorld(w, step).index, k) {
        QueuedBefore(w, step, r, k);
        StepRefs(w, step, k, r);
      }
    }
  }

  lemma HiddenStaysQueued(w: World, step: WorldStep, k: string, r: Ref)
    requires WorldInv(w) && Vacates(w, step, k) && OwnedAndQueued(w, r, k)
    ensures OwnedAndQueued(ApplyWorld(w, step), r, k) && r !in Refs(ApplyWorld(w, step).index, k)
  {
    StepRefs(w, step, k, r);
  }

  ghost predicate CompleteThroughout(steps: seq<WorldStep>, k: string) {
    (steps != [] ==> CompleteThroughout(steps[..|steps| - 1], k)) && KeyComplete(ExecWorld(EMPTY, steps), k)
  }

  ghost predicate HidesNothing(steps: seq<WorldStep>, k: string) {
    steps != [] ==>
      HidesNothing(steps[..|steps| - 1], k) && !Hides(ExecWorld(EMPTY, steps[..|steps| - 1]), steps[|steps| - 1], k)
  }

  /** Throughout a run the index holds every queued request of a key if and only if no removal of the
      key finds one that is still queued. */
  lemma {:induction false} CompleteThroughoutIff(steps: seq<WorldStep>, k: string)
    ensures CompleteThroughout(steps, k) <==> HidesNothing(steps, k)
    decreases |steps|
  {
    if steps != [] {
      var front := steps[..|steps| - 1];
      CompleteThroughoutIff(front, k);
      WorldRunKeepsInv(front);
      if CompleteThroughout(front, k) { StepCompleteIff(ExecWorld(EMPTY, front), steps[|steps| - 1], k); }
    }
  }

  /** A removal of the key ran after this request registered. */
  ghost predicate Removed(steps: seq<WorldStep>, r: Ref, k: string) {
    steps != [] &&
    var front := steps[..|steps| - 1];
    || Removed(front, r, k)
    || (Belongs(ExecWorld(EMPTY, front), r, k) && Vacates(ExecWorld(EMPTY, front), steps[|steps| - 1], k))
  }

  lemma {:induction false} RemovedBelongs(steps: seq<WorldStep>, r: Ref, k: string)
    requires Removed(steps, r, k)
    ensures Belongs(ExecWorld(EMPTY, steps), r, k)
    decreases |steps|
  {
    var front := steps[..|steps| - 1];
    WorldRunKeepsInv(front);
    if Removed(front, r, k) { RemovedBelongs(front, r, k); }
    RefStays(ExecWorld(EMPTY, front), steps[|steps| - 1], r, k);
  }

  lemma QueuedIsNotGone(w: World, r: Ref, k: string)
    requires OwnedAndQueued(w, r, k)
    ensures !Gone(w, r)
  {}

  /** In every run, a queued request is in the index if and only if no removal of its key ran since it
      registered. */
  lemma {:induction false} IndexedIff(steps: seq<WorldStep>, r: Ref, k: string)
    requires OwnedAndQueued(ExecWorld(EMPTY, steps), r, k)
    ensures r in Refs(ExecWorld(EMPTY, steps).index, k) <==> !Removed(steps, r, k)
    decreases |steps|
  {
    if steps != [] {
      var front, last := steps[..|steps| - 1], steps[|steps| - 1];
      var w := ExecWorld(EMPTY, front);
      WorldRunKeepsInv(front);
      QueuedBefore(w, last, r, k);
      StepRefs(w, last, k, r);
      if OwnedAndQueued(w, r, k) {
        IndexedIff(front, r, k);
        QueuedIsNotGone(w, r, k);
      } else if Removed(front, r, k) {
        RemovedBelongs(front, r, k);
      }
    }
  }

  // ----- status queries

  ghost predicate ShowsRequest(w: World, st: Status) {
    && st.ref.dep in w.deps && st.ref.id in w.deps[st.ref.dep].clients
    && var s := w.deps[st.ref.dep];
    && st.vip == s.clients[st.ref.id].vip
    && st.stage == if Running(Entry(s, st.ref.id)) then Processing(Inflight(s.slot))
                   else AheadOfMe(Position(s.slot, st.ref.id, st.vip))
  }

  lemma StatusShows(w: World, r: Ref, k: string)
    requires WorldInv(w) && Belongs(w, r, k) && Queued(Slots(w), r)
    ensures OwnedAndQueued(w, r, k) && ShowsRequest(w, StatusOf(Slots(w), r)) && StatusOf(Slots(w), r).ref == r
  {
    QueuedIsEntry(w, r);
  }

  /** Every entry of the answer is a queued request of the key. */
  lemma AnswerIsSound(w: World, k: string, answer: seq<Status>, i: nat)
    requires WorldInv(w) && answer == Lookup(Slots(w), Refs(w.index, k)) && i < |answer|
    ensures answer[i].ref in Refs(w.index, k) && OwnedAndQueued(w, answer[i].ref, k) && ShowsRequest(w, answer[i])
  {
    LookupAt(Slots(w), Refs(w.index, k), i);
    assert KeySound(w, k);
    StatusShows(w, answer[i].ref, k);
  }

  ghost predicate Lists(answer: seq<Status>, r: Ref) { exists i :: 0 <= i < |answer| && answer[i].ref == r }

  lemma AnswerListsIff(w: World, k: string, answer: seq<Status>, r: Ref)
    requires WorldInv(w) && answer == Lookup(Slots(w), Refs(w.index, k))
    ensures Lists(answer, r) <==> OwnedAndQueued(w, r, k) && r in Refs(w.index, k)
  {
    if Lists(answer, r) {
      var i :| 0 <= i < |answer| && answer[i].ref == r;
      AnswerIsSound(w, k, answer, i);
    }
    if OwnedAndQueued(w, r, k) && r in Refs(w.index, k) {
      QueuedIsEntry(w, r);
      var i := LookupFinds(Slots(w), Refs(w.index, k), r);
    }
  }

  /** In every run without slot removal, what a query reads at one moment is exactly what a scan of
      all queues by owner finds, less the requests whose key was removed after they registered: each
      once, with its true queue, its position or the load beside it. (A request whose acquire has not
      yet reached the index is not shown.) */
  lemma QueryIsExact(steps: seq<WorldStep>, k: string)
    ensures var w := ExecWorld(EMPTY, steps);
            var answer := Lookup(Slots(w), Refs(w.index, k));
            && (forall r: Ref :: Lists(answer, r) <==> OwnedAndQueued(w, r, k) && !Removed(steps, r, k))
            && (forall i, j :: 0 <= i < j < |answer| ==> answer[i].ref != answer[j].ref)
            && (forall i :: 0 <= i < |answer| ==> ShowsRequest(w, answer[i]))
  {
    WorldRunKeepsInv(steps);
    var w := ExecWorld(EMPTY, steps);
    var answer := Lookup(Slots(w), Refs(w.index, k));
    forall r: Ref ensures Lists(answer, r) <==> OwnedAndQueued(w, r, k) && !Removed(steps, r, k) {
      AnswerListsIff(w, k, answer, r);
      if OwnedAndQueued(w, r, k) { IndexedIff(steps, r, k); }
    }
    assert KeySound(w, k);
    forall i, j | 0 <= i < j < |answer| ensures answer[i].ref != answer[j].ref {
      LookupDistinct(Slots(w), Refs(w.index, k), i, j);
    }
    forall i | 0 <= i < |answer| ensures ShowsRequest(w, answer[i]) { AnswerIsSound(w, k, answer, i); }
  }

  // ----- when nothing is hidden

  /** Some removal of the key is between finding the list empty and removing the key. */
  predicate Vacating(w: World, k: string) { exists i :: 0 <= i < |w.jobs| && w.jobs[i].Vacate? && w.jobs[i].key == k }

  /** No request of the key registers meanwhile. */
  ghost predicate Waits(w: World, step: WorldStep, k: string) {
    Vacating(w, k) ==> forall r :: !Registers(w, step, r, k)
  }

  ghost predicate WaitingRun(steps: seq<WorldStep>, k: string) {
    steps != [] ==>
      WaitingRun(steps[..|steps| - 1], k) && Waits(ExecWorld(EMPTY, steps[..|steps| - 1]), steps[|steps| - 1], k)
  }

  /** While a removal of the key is pending, its list is free of queued requests. */
  ghost predicate Vacant(w: World, k: string) {
    Vacating(w, k) ==> forall r :: r in Refs(w.index, k) ==> !OwnedAndQueued(w, r, k)
  }

  /** A removal becomes pending only over an empty list. */
  lemma NewVacancy(w: World, step: WorldStep, k: string)
    requires !Vacating(w, k) && Vacating(ApplyWorld(w, step), k)
    ensures Refs(ApplyWorld(w, step).index, k) == []
  {
    var w' := ApplyWorld(w, step);
    var i :| 0 <= i < |w'.jobs| && w'.jobs[i].Vacate? && w'.jobs[i].key == k;
    assert i < |w.jobs| && w'.jobs[i] != w.jobs[i];
  }

  lemma StepKeepsVacant(w: World, step: WorldStep, k: string)
    requires WorldInv(w) && Vacant(w, k) && Waits(w, step, k)
    ensures Vacant(ApplyWorld(w, step), k)
  {
    var w' := ApplyWorld(w, step);
    if Vacating(w', k) {
      if !Vacating(w, k) {
        NewVacancy(w, step, k);
      } else {
        forall r | r in Refs(w'.index, k) ensures !OwnedAndQueued(w', r, k) {
          StepRefs(w, step, k, r);
          if OwnedAndQueued(w', r, k) { QueuedBefore(w, step, r, k); }
        }
      }
    }
  }

  lemma {:induction false} WaitingHidesNothing(steps: seq<WorldStep>, k: string)
    requires WaitingRun(steps, k)
    ensures HidesNothing(steps, k) && Vacant(ExecWorld(EMPTY, steps), k)
    decreases |steps|
  {
    if steps != [] {
      var front, last := steps[..|steps| - 1], steps[|steps| - 1];
      var w := ExecWorld(EMPTY, front);
      WaitingHidesNothing(front, k);
      WorldRunKeepsInv(front);
      StepKeepsVacant(w, last, k);
      if Vacates(w, last, k) { assert Vacating(w, k); }
    }
  }

  /** So if no request of a key registers while a removal of that key is pending, a query finds every
      queued request of the key. */
  lemma QueryIsComplete(steps: seq<WorldStep>, k: string, r: Ref)
    requires WaitingRun(steps, k) && OwnedAndQueued(ExecWorld(EMPTY, steps), r, k)
    ensures var w := ExecWorld(EMPTY, steps); Lists(Lookup(Slots(w), Refs(w.index, k)), r)
  {
    var w := ExecWorld(EMPTY, steps);
    WaitingHidesNothing(steps, k);
    CompleteThroughoutIff(steps, k);
    WorldRunKeepsInv(steps);
    AnswerListsIff(w, k, Lookup(Slots(w), Refs(w.index, k)), r);
  }

  /** But one that registers while a removal is pending is hidden by it, although it stays queued. */
  lemma LateRemovalHides(w: World, r: Ref, k: string, i: nat)
    requires WorldInv(w) && Registers(w, At(r.dep, Register(r.id)), r, k)
    requires i < |w.jobs| && w.jobs[i].Vacate? && w.jobs[i].key == k
    ensures var w' := ApplyWorld(ApplyWorld(w, At(r.dep, Register(r.id))), Work(i));
            OwnedAndQueued(w', r, k) && Lookup(Slots(w'), Refs(w'.index, k)) == []
  {
    var s := w.deps[r.dep];
    var m := ApplyWorld(w, At(r.dep, Register(r.id)));
    assert ClientOk(s.clients[r.id].phase, Entry(s, r.id), r.id in s.sent);
    assert m.jobs == w.jobs;
    assert Belongs(m, r, k) && Entry(m.deps[r.dep], r.id) == Entry(s, r.id);
  }
}
