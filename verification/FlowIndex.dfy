/**
 The reverse index from key hash to active requests, over all deployments: how acquire and
 release keep it, and how a status query reads and cleans it, critical section by critical
 section. Removing a reference and removing the key it leaves empty are two sections, and a
 query looks at one slot after another; anything may run in between.
 */
module FlowIndex {

  import opened Wrappers
  import opened FlowSlots
  import opened FlowOrder
  import opened FlowSystem

  datatype Ref = Ref(dep: string, id: nat)

  type Index = map<string, seq<Ref>>

  /** What a user sees of one request; wait and processing times are left to the clock. */
  datatype Status = Status(ref: Ref, vip: bool, stage: Stage)

  datatype Stage =
    | AheadOfMe(ahead: nat)
    | Processing(parallel: nat)

  // ----- index operations

  function Refs(index: Index, key: string): seq<Ref> {
    if key in index then index[key] else []
  }

  function Keep(refs: seq<Ref>, drop: Ref): seq<Ref> {
    if refs == [] then []
    else if refs[0] == drop then Keep(refs[1..], drop)
    else [refs[0]] + Keep(refs[1..], drop)
  }

  function Sift(refs: seq<Ref>, drops: seq<Ref>): seq<Ref>
    decreases |drops|
  {
    if drops == [] then refs else Sift(Keep(refs, drops[0]), drops[1..])
  }

  function AddRef(index: Index, key: Option<string>, ref: Ref): Index {
    if key.None? then index else index[key.value := Refs(index, key.value) + [ref]]
  }

  /** The first section of a removal: the reference goes; was it the last one? */
  function TrimRef(index: Index, key: string, ref: Ref): (Index, bool) {
    if key !in index then (index, false)
    else
      var kept := Keep(index[key], ref);
      (index[key := kept], |kept| < |index[key]| && kept == [])
  }

  /** The first section of a query's cleaning: the stale references go; is the list empty? */
  function TrimStale(index: Index, key: string, stale: seq<Ref>): (Index, bool) {
    if stale == [] || key !in index then (index, false)
    else
      var kept := Sift(index[key], stale);
      (index[key := kept], kept == [])
  }

  // ----- queries

  predicate Queued(slots: map<string, Slot>, ref: Ref) {
    && ref.dep in slots
    && (Find(slots[ref.dep].vip, ref.id).Some? || Find(slots[ref.dep].normal, ref.id).Some?)
  }

  function StatusOf(slots: map<string, Slot>, ref: Ref): Status
    requires Queued(slots, ref)
  {
    var slot := slots[ref.dep];
    var vip := Find(slot.vip, ref.id).Some?;
    Status(ref, vip, if Running(Find(slot.Queue(vip), ref.id)) then Processing(Inflight(slot))
                     else AheadOfMe(Position(slot, ref.id, vip)))
  }

  /** The answer to a query: the status of every reference that is still queued. */
  function Lookup(slots: map<string, Slot>, refs: seq<Ref>): seq<Status> {
    if refs == [] then []
    else if Queued(slots, refs[0]) then [StatusOf(slots, refs[0])] + Lookup(slots, refs[1..])
    else Lookup(slots, refs[1..])
  }

  /** The references a query finds no entry for. */
  function Stale(slots: map<string, Slot>, refs: seq<Ref>): seq<Ref> {
    if refs == [] then []
    else if Queued(slots, refs[0]) then Stale(slots, refs[1..])
    else [refs[0]] + Stale(slots, refs[1..])
  }

  // ----- all deployments together

  /** What is left to do of a call on the index. `Trim` is a removal before its first section,
      `Reading` a query that has still to look at `todo`, `Vacate` either of them between finding the
      list empty and removing the key. */
  datatype Job =
    | Trim(key: string, ref: Ref)
    | Reading(key: string, todo: seq<Ref>, shown: seq<Status>, stale: seq<Ref>)
    | Vacate(key: string, shown: seq<Status>)
    | Finished(key: string, shown: seq<Status>)

  datatype World = World(deps: map<string, Sys>, index: Index, jobs: seq<Job>)

  datatype WorldStep =
    | At(dep: string, step: Step)
    | Create(dep: string, maxInflight: nat, maxContext: nat)
    | Query(key: string)
    | Work(i: nat)

  function Slots(w: World): map<string, Slot> {
    map d | d in w.deps :: w.deps[d].slot
  }

  /** The step ends with a call that removes this client's reference. */
  predicate Unindexes(s: Sys, step: Step, id: nat) {
    || (step == Forget(id) && In(s, id, TimedOut))
    || (step == Cleanup(id) && In(s, id, Cancelling))
    || (step == Unregister(id) && In(s, id, Released))
  }

  function IndexAfter(index: Index, dep: string, s: Sys, step: Step): Index {
    if step.Register? && In(s, step.id, Enqueued) then AddRef(index, s.clients[step.id].key, Ref(dep, step.id))
    else index
  }

  function JobsAfter(jobs: seq<Job>, dep: string, s: Sys, step: Step): seq<Job> {
    if (step.Forget? || step.Cleanup? || step.Unregister?) && Unindexes(s, step, step.id)
        && s.clients[step.id].key.Some?
    then jobs + [Trim(s.clients[step.id].key.value, Ref(dep, step.id))] else jobs
  }

  /** A query looks at its next reference. */
  function ReadNext(slots: map<string, Slot>, job: Job): Job
    requires job.Reading? && job.todo != []
  {
    var r := job.todo[0];
    if Queued(slots, r) then job.(todo := job.todo[1..], shown := job.shown + [StatusOf(slots, r)])
    else job.(todo := job.todo[1..], stale := job.stale + [r])
  }

  function Emptied(key: string, shown: seq<Status>, empty: bool): Job {
    if empty then Vacate(key, shown) else Finished(key, shown)
  }

  /** The next section of one job. */
  function WorkOn(w: World, i: nat): World
    requires i < |w.jobs|
  {
    match w.jobs[i]
    case Trim(key, ref) =>
      var (index, empty) := TrimRef(w.index, key, ref);
      w.(index := index, jobs := w.jobs[i := Emptied(key, [], empty)])
    case Reading(key, todo, shown, stale) =>
      if todo != [] then w.(jobs := w.jobs[i := ReadNext(Slots(w), w.jobs[i])])
      else
        var (index, empty) := TrimStale(w.index, key, stale);
        w.(index := index, jobs := w.jobs[i := Emptied(key, shown, empty)])
    case Vacate(key, shown) => w.(index := w.index - {key}, jobs := w.jobs[i := Finished(key, shown)])
    case Finished(_, _) => w
  }

  function ApplyWorld(w: World, step: WorldStep): World {
    match step
    case At(d, st) =>
      if d !in w.deps then w
      else
        var s := w.deps[d];
        World(w.deps[d := Apply(s, st).0], IndexAfter(w.index, d, s, st), JobsAfter(w.jobs, d, s, st))
    case Create(d, maxInflight, maxContext) =>
      if d in w.deps then w else w.(deps := w.deps[d := Init(maxInflight, maxContext)])
    case Query(key) =>
      w.(jobs := w.jobs + [if key in w.index then Reading(key, w.index[key], [], []) else Finished(key, [])])
    case Work(i) => if i < |w.jobs| then WorkOn(w, i) else w
  }

  function ExecWorld(w: World, steps: seq<WorldStep>): World {
    if steps == [] then w else ApplyWorld(ExecWorld(w, steps[..|steps| - 1]), steps[|steps| - 1])
  }

  const EMPTY := World(map[], map[], [])

  // ----- facts about the operations

  ghost predicate Distinct(refs: seq<Ref>) {
    forall i, j :: 0 <= i < j < |refs| ==> refs[i] != refs[j]
  }

  lemma {:induction false} KeepFacts(refs: seq<Ref>, drop: Ref)
    ensures forall r :: r in Keep(refs, drop) <==> r in refs && r != drop
    ensures |Keep(refs, drop)| <= |refs|
    ensures |Keep(refs, drop)| == |refs| ==> Keep(refs, drop) == refs
    ensures Distinct(refs) ==> Distinct(Keep(refs, drop))
  {
    if refs != [] {
      KeepFacts(refs[1..], drop);
      assert refs == [refs[0]] + refs[1..];
      if Distinct(refs) {
        assert refs[0] !in refs[1..];
        assert Distinct(refs[1..]);
      }
    }
  }

  lemma {:induction false} SiftFacts(refs: seq<Ref>, drops: seq<Ref>)
    ensures forall r :: r in Sift(refs, drops) <==> r in refs && r !in drops
    ensures Distinct(refs) ==> Distinct(Sift(refs, drops))
    decreases |drops|
  {
    if drops != [] {
      KeepFacts(refs, drops[0]);
      SiftFacts(Keep(refs, drops[0]), drops[1..]);
      assert drops == [drops[0]] + drops[1..];
    }
  }

  lemma {:induction false} LookupAt(slots: map<string, Slot>, refs: seq<Ref>, i: nat)
    requires i < |Lookup(slots, refs)|
    ensures var st := Lookup(slots, refs)[i]; st.ref in refs && Queued(slots, st.ref) && st == StatusOf(slots, st.ref)
  {
    if refs != [] {
      var rest := refs[1..];
      if Queued(slots, refs[0]) {
        if i > 0 { LookupAt(slots, rest, i - 1); }
      } else {
        LookupAt(slots, rest, i);
      }
    }
  }

  lemma {:induction false} LookupFinds(slots: map<string, Slot>, refs: seq<Ref>, r: Ref) returns (i: nat)
    requires r in refs && Queued(slots, r)
    ensures i < |Lookup(slots, refs)| && Lookup(slots, refs)[i].ref == r
  {
    if refs[0] == r {
      i := 0;
    } else {
      i := LookupFinds(slots, refs[1..], r);
      i := if Queued(slots, refs[0]) then i + 1 else i;
    }
  }

  lemma {:induction false} LookupDistinct(slots: map<string, Slot>, refs: seq<Ref>, i: nat, j: nat)
    requires Distinct(refs) && i < j < |Lookup(slots, refs)|
    ensures Lookup(slots, refs)[i].ref != Lookup(slots, refs)[j].ref
  {
    var rest := refs[1..];
    assert refs == [refs[0]] + rest;
    assert refs[0] !in rest && Distinct(rest);
    if !Queued(slots, refs[0]) {
      LookupDistinct(slots, rest, i, j);
    } else if i > 0 {
      LookupDistinct(slots, rest, i - 1, j - 1);
    } else {
      LookupAt(slots, rest, j - 1);
    }
  }

  lemma AddRefFacts(index: Index, key: Option<string>, ref: Ref, k: string)
    ensures forall r :: r in Refs(AddRef(index, key, ref), k)
              <==> r in Refs(index, k) || (key == Some(k) && r == ref)
    ensures Distinct(Refs(index, k)) && (key == Some(k) ==> ref !in Refs(index, k)) ==>
            Distinct(Refs(AddRef(index, key, ref), k))
  {
  }

  // ----- the index as the source keeps it

  /** Moving the next reference from the rest to what is already collected. */
  lemma ReadStep(slots: map<string, Slot>, list: seq<Ref>, i: nat, results: seq<Status>, stale: seq<Ref>)
    requires i < |list|
    ensures Queued(slots, list[i]) ==>
              && results + Lookup(slots, list[i..]) ==
                  results + [StatusOf(slots, list[i])] + Lookup(slots, list[i + 1..])
              && Stale(slots, list[i..]) == Stale(slots, list[i + 1..])
    ensures !Queued(slots, list[i]) ==>
              && Lookup(slots, list[i..]) == Lookup(slots, list[i + 1..])
              && stale + Stale(slots, list[i..]) == stale + [list[i]] + Stale(slots, list[i + 1..])
  {
    assert list[i..][1..] == list[i + 1..];
    if Queued(slots, list[i]) {
      assert results + ([StatusOf(slots, list[i])] + Lookup(slots, list[i + 1..]))
             == results + [StatusOf(slots, list[i])] + Lookup(slots, list[i + 1..]);
    } else {
      assert stale + ([list[i]] + Stale(slots, list[i + 1..])) == stale + [list[i]] + Stale(slots, list[i + 1..]);
    }
  }

  /** The answer to a query and the references to clean, from slots that do not change meanwhile. */
  method ReadAll(slots: map<string, Slot>, list: seq<Ref>) returns (results: seq<Status>, stale: seq<Ref>)
    ensures results == Lookup(slots, list) && stale == Stale(slots, list)
  {
    results, stale := [], [];
    for i := 0 to |list|
      invariant results + Lookup(slots, list[i..]) == Lookup(slots, list)
      invariant stale + Stale(slots, list[i..]) == Stale(slots, list)
    {
      ReadStep(slots, list, i, results, stale);
      if Queued(slots, list[i]) {
        results := results + [StatusOf(slots, list[i])];
      } else {
        stale := stale + [list[i]];
      }
    }
    assert list[|list|..] == [];
  }

  method Retain(list: seq<Ref>, drop: Ref) returns (kept: seq<Ref>)
    ensures kept == Keep(list, drop)
  {
    kept := [];
    for i := 0 to |list|
      invariant kept + Keep(list[i..], drop) == Keep(list, drop)
    {
      assert list[i..][1..] == list[i + 1..];
      if list[i] != drop {
        assert kept + ([list[i]] + Keep(list[i + 1..], drop)) == kept + [list[i]] + Keep(list[i + 1..], drop);
        kept := kept + [list[i]];
      }
    }
    assert list[|list|..] == [];
  }

  /** Each method is one critical section. */
  class KeyIndex {
    var refs: Index

    constructor ()
      ensures refs == map[]
    {
      refs := map[];
    }

    method Add(key: Option<string>, ref: Ref)
      modifies this
      ensures refs == AddRef(old(refs), key, ref)
    {
      if key.Some? {
        var list := if key.value in refs then refs[key.value] else [];
        refs := refs[key.value := list + [ref]];
      }
    }

    method Trim(key: string, ref: Ref) returns (emptied: bool)
      modifies this
      ensures (refs, emptied) == TrimRef(old(refs), key, ref)
    {
      if key !in refs {
        return false;
      }
      var before := |refs[key]|;
      var kept := Retain(refs[key], ref);
      refs := refs[key := kept];
      if |kept| == before {
        return false;
      }
      KeepFacts(old(refs)[key], ref);
      emptied := kept == [];
    }

    method CleanUp(key: string, stale: seq<Ref>) returns (emptied: bool)
      modifies this
      ensures (refs, emptied) == TrimStale(old(refs), key, stale)
    {
      if stale == [] || key !in refs {
        return false;
      }
      var list := refs[key];
      for i := 0 to |stale|
        invariant refs == old(refs)
        invariant Sift(list, stale[i..]) == Sift(old(refs)[key], stale)
      {
        assert stale[i..][1..] == stale[i + 1..];
        list := Retain(list, stale[i]);
      }
      assert stale[|stale|..] == [];
      refs := refs[key := list];
      emptied := list == [];
    }

    method RemoveKey(key: string)
      modifies this
      ensures refs == old(refs) - {key}
    {
      refs := refs - {key};
    }
  }
}
