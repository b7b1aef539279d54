/**
  * Concurrency slots: acquires that add first and undo if they went over, guards that
  * subtract when dropped, and the sweep that forgets counters at zero, interleaved step by
  * step. The map holds, per id, a reference to a shared 32-bit counter; an acquire keeps the
  * map entry locked until it is done, a guard only holds its counter.
  */
module ConcurrencySlots {

  const U32: nat := 0x1_0000_0000

  /** Where an acquire is between two atomic steps. */
  datatype Stage = Entered | Added(prev: nat) | Undoing

  /** One acquire in progress: it holds the entry lock of its id. */
  datatype Acquire = Acquire(limit: nat, counter: nat, stage: Stage)

  /** A guard knows its counter; the id it was acquired for is kept for the statements. */
  datatype Guard = Guard(id: string, counter: nat)

  /** `refs` maps an id to its counter, `value` holds every counter ever made. */
  datatype Store = Store(
    refs: map<string, nat>,
    value: map<nat, nat>,
    guards: seq<Guard>,
    busy: map<string, Acquire>,
    made: nat)

  const Idle: Store := Store(map[], map[], [], map[], 0)

  datatype Step =
    | Enter(id: string, limit: nat)
    | Add(id: string)
    | Decide(id: string)
    | Undo(id: string)
    | DropGuard(i: nat)
    | Sweep(id: string)

  /** Adding to and subtracting from a 32-bit counter, which wraps around. */
  function Up(v: nat): nat { if v == U32 - 1 then 0 else v + 1 }
  function Down(v: nat): nat { if v == 0 then U32 - 1 else v - 1 }

  /** What a 32-bit counter shows for a number up to 2^32. */
  function Shown(n: nat): nat { if n == U32 then 0 else n }

  lemma ShownSmall(n: nat)
    requires n < U32
    ensures Shown(n) == n
  {}

  lemma ShownMoves(n: nat)
    requires n <= U32
    ensures n < U32 ==> Up(Shown(n)) == Shown(n + 1)
    ensures n > 0 ==> Down(Shown(n)) == Shown(n - 1)
  {}

  function Get(value: map<nat, nat>, c: nat): nat { if c in value then value[c] else 0 }

  function Drop(gs: seq<Guard>, i: nat): seq<Guard>
    requires i < |gs|
  {
    gs[..i] + gs[i + 1..]
  }

  /** One atomic step; a step that is not possible in this state changes nothing. */
  function Apply(s: Store, step: Step): Store {
    match step
    case Enter(id, limit) =>
      if id in s.busy then s
      else if id in s.refs then s.(busy := s.busy[id := Acquire(limit, s.refs[id], Entered)])
      else
        s.(refs := s.refs[id := s.made], value := s.value[s.made := 0],
           busy := s.busy[id := Acquire(limit, s.made, Entered)], made := s.made + 1)
    case Add(id) =>
      if id in s.busy && s.busy[id].stage.Entered? then
        var a := s.busy[id];
        var v := Get(s.value, a.counter);
        s.(value := s.value[a.counter := Up(v)], busy := s.busy[id := a.(stage := Added(v))])
      else s
    case Decide(id) =>
      if id in s.busy && s.busy[id].stage.Added? then
        var a := s.busy[id];
        if a.stage.prev >= a.limit then s.(busy := s.busy[id := a.(stage := Undoing)])
        else s.(guards := s.guards + [Guard(id, a.counter)], busy := s.busy - {id})
      else s
    case Undo(id) =>
      if id in s.busy && s.busy[id].stage.Undoing? then
        var c := s.busy[id].counter;
        s.(value := s.value[c := Down(Get(s.value, c))], busy := s.busy - {id})
      else s
    case DropGuard(i) =>
      if i < |s.guards| then
        var c := s.guards[i].counter;
        s.(value := s.value[c := Down(Get(s.value, c))], guards := Drop(s.guards, i))
      else s
    case Sweep(id) =>
      if id !in s.busy && id in s.refs && Get(s.value, s.refs[id]) == 0
      then s.(refs := s.refs - {id})
      else s
  }

  function Run(steps: seq<Step>): Store {
    if steps == [] then Idle else Apply(Run(steps[..|steps| - 1]), steps[|steps| - 1])
  }

  // ---- Counting live guards ----------------------------------------------------------------

  function Live(gs: seq<Guard>, id: string): nat {
    if gs == [] then 0
    else Live(gs[..|gs| - 1], id) + if gs[|gs| - 1].id == id then 1 else 0
  }

  lemma LiveSnoc(gs: seq<Guard>, g: Guard, id: string)
    ensures Live(gs + [g], id) == Live(gs, id) + if g.id == id then 1 else 0
  {
    assert (gs + [g])[..|gs|] == gs;
  }

  lemma {:induction false} LiveDrop(gs: seq<Guard>, i: nat, id: string)
    requires i < |gs|
    ensures Live(Drop(gs, i), id) == Live(gs, id) - if gs[i].id == id then 1 else 0
    decreases |gs|
  {
    var n := |gs| - 1;
    if i == n {
      assert Drop(gs, i) == gs[..n];
    } else {
      LiveDrop(gs[..n], i, id);
      assert Drop(gs, i) == Drop(gs[..n], i) + [gs[n]];
      LiveSnoc(Drop(gs[..n], i), gs[n], id);
    }
  }

  // ---- The invariant -------------------------------------------------------------------------

  /** An acquire that has added and not yet turned into a guard or undone. */
  function Pending(s: Store, id: string): nat {
    if id in s.busy && !s.busy[id].stage.Entered? then 1 else 0
  }

  /** The largest limit any acquire on `id` was given. */
  function LargestLimit(steps: seq<Step>, id: string): nat {
    if steps == [] then 0
    else
      var m, x := LargestLimit(steps[..|steps| - 1], id), steps[|steps| - 1];
      if x.Enter? && x.id == id && x.limit > m then x.limit else m
  }

  ghost predicate Wired(s: Store) {
    (forall id :: id in s.refs ==> s.refs[id] < s.made && s.refs[id] in s.value) &&
    (forall a, b :: a in s.refs && b in s.refs && a != b ==> s.refs[a] != s.refs[b]) &&
    (forall id :: id in s.busy ==> id in s.refs && s.busy[id].counter == s.refs[id]) &&
    (forall i :: 0 <= i < |s.guards| ==>
       s.guards[i].id in s.refs && s.refs[s.guards[i].id] == s.guards[i].counter)
  }

  /** The mapped counter counts the live guards and the pending acquire; limits hold. */
  ghost predicate Counted(s: Store, id: string, max: nat) {
    (id in s.refs ==> Get(s.value, s.refs[id]) == Shown(Live(s.guards, id) + Pending(s, id))) &&
    Live(s.guards, id) <= max &&
    (id in s.busy ==> s.busy[id].limit <= max) &&
    (id in s.busy && s.busy[id].stage.Added? ==> Live(s.guards, id) <= s.busy[id].stage.prev)
  }

  ghost predicate Inv(s: Store, steps: seq<Step>) {
    Wired(s) && forall id :: Counted(s, id, LargestLimit(steps, id))
  }

  /** Limits are 32-bit numbers. */
  predicate LimitsFit(steps: seq<Step>) {
    forall i :: 0 <= i < |steps| && steps[i].Enter? ==> steps[i].limit < U32
  }

  lemma {:induction false} LargestFits(steps: seq<Step>, id: string)
    requires LimitsFit(steps)
    ensures LargestLimit(steps, id) < U32
    decreases |steps|
  {
    if steps != [] { LargestFits(steps[..|steps| - 1], id); }
  }

  lemma {:induction false} LiveIsZero(s: Store, gs: seq<Guard>, id: string)
    requires forall i :: 0 <= i < |gs| ==> gs[i].id in s.refs
    requires id !in s.refs
    ensures Live(gs, id) == 0
    decreases |gs|
  {
    if gs != [] { LiveIsZero(s, gs[..|gs| - 1], id); }
  }

  lemma {:induction false} LiveOfMember(gs: seq<Guard>, i: nat)
    requires i < |gs|
    ensures Live(gs, gs[i].id) >= 1
    decreases |gs|
  {
    if i < |gs| - 1 { LiveOfMember(gs[..|gs| - 1], i); }
  }

  /** A new counter starts at zero and leaves all others alone. */
  lemma EnterReads(s: Store, id: string, limit: nat, other: string)
    requires Wired(s)
    ensures var e := Apply(s, Enter(id, limit));
            && e.guards == s.guards && Pending(e, other) == Pending(s, other)
            && (other in s.refs ==> other in e.refs && Get(e.value, e.refs[other]) == Get(s.value, s.refs[other]))
            && (other !in s.refs && other in e.refs ==> Get(e.value, e.refs[other]) == 0 && Pending(e, other) == 0)
  {}

  lemma EnterBusy(s: Store, id: string, limit: nat, other: string)
    ensures var e := Apply(s, Enter(id, limit));
            other in e.busy ==> (other in s.busy && e.busy[other] == s.busy[other]) ||
                                (other == id && e.busy[other].limit == limit && e.busy[other].stage.Entered?)
  {}

  lemma EnterKeeps(s: Store, id: string, limit: nat, other: string, max: nat, max': nat)
    requires Wired(s) && Counted(s, other, max)
    requires max <= max' && (other == id ==> limit <= max')
    ensures Counted(Apply(s, Enter(id, limit)), other, max')
  {
    EnterReads(s, id, limit, other);
    EnterBusy(s, id, limit, other);
    if other !in s.refs { LiveIsZero(s, s.guards, other); }
  }

  lemma AddKeeps(s: Store, id: string, other: string, max: nat)
    requires Wired(s) && Counted(s, other, max) && max < U32
    ensures Counted(Apply(s, Add(id)), other, max)
  {
    ShownMoves(Live(s.guards, other) + Pending(s, other));
    ShownSmall(Live(s.guards, other));
  }

  lemma DecideSpares(s: Store, id: string, other: string)
    requires other != id && id in s.busy && s.busy[id].stage.Added?
    ensures var e := Apply(s, Decide(id));
            && e.refs == s.refs && e.value == s.value && Live(e.guards, other) == Live(s.guards, other)
            && (other in e.busy <==> other in s.busy) && (other in s.busy ==> e.busy[other] == s.busy[other])
  {
    LiveSnoc(s.guards, Guard(id, s.busy[id].counter), other);
  }

  /** The acquire's own counter: a pending addition becomes a guard, or will be undone. */
  lemma DecideOwn(s: Store, id: string)
    requires id in s.busy && s.busy[id].stage.Added?
    ensures var e, a := Apply(s, Decide(id)), s.busy[id];
            && e.refs == s.refs && e.value == s.value
            && Live(e.guards, id) + Pending(e, id) == Live(s.guards, id) + Pending(s, id)
            && Live(e.guards, id) == Live(s.guards, id) + (if a.stage.prev >= a.limit then 0 else 1)
            && (id in e.busy ==> e.busy[id] == a.(stage := Undoing))
  {
    LiveSnoc(s.guards, Guard(id, s.busy[id].counter), id);
  }

  lemma DecideKeeps(s: Store, id: string, other: string, max: nat)
    requires Counted(s, other, max)
    ensures Counted(Apply(s, Decide(id)), other, max)
  {
    if id in s.busy && s.busy[id].stage.Added? {
      if other == id { DecideOwn(s, id); } else { DecideSpares(s, id, other); }
    }
  }

  lemma UndoKeeps(s: Store, id: string, other: string, max: nat)
    requires Wired(s) && Counted(s, other, max) && max < U32
    ensures Counted(Apply(s, Undo(id)), other, max)
  {
    ShownMoves(Live(s.guards, other) + Pending(s, other));
  }

  lemma DropKeeps(s: Store, i: nat, other: string, max: nat)
    requires Wired(s) && Counted(s, other, max) && max < U32
    ensures Counted(Apply(s, DropGuard(i)), other, max)
  {
    if i < |s.guards| {
      LiveDrop(s.guards, i, other);
      LiveOfMember(s.guards, i);
      ShownMoves(Live(s.guards, other) + Pending(s, other));
    }
  }

  lemma SweepKeeps(s: Store, id: string, other: string, max: nat)
    requires Wired(s) && Counted(s, other, max)
    ensures Counted(Apply(s, Sweep(id)), other, max)
  {}

  lemma {:induction false} NoneLive(gs: seq<Guard>, id: string)
    requires Live(gs, id) == 0
    ensures forall i :: 0 <= i < |gs| ==> gs[i].id != id
    decreases |gs|
  {
    if gs != [] { NoneLive(gs[..|gs| - 1], id); }
  }

  /** A counter that shows zero with no acquire under way has no guard left. */
  lemma ZeroMeansNone(s: Store, id: string)
    requires id in s.refs && id !in s.busy && Live(s.guards, id) < U32
    requires Get(s.value, s.refs[id]) == Shown(Live(s.guards, id) + Pending(s, id)) == 0
    ensures forall i :: 0 <= i < |s.guards| ==> s.guards[i].id != id
  {
    ShownSmall(Live(s.guards, id));
    NoneLive(s.guards, id);
  }

  lemma SweepKeepsWired(s: Store, id: string)
    requires Wired(s)
    requires id in s.refs ==> Get(s.value, s.refs[id]) == Shown(Live(s.guards, id) + Pending(s, id))
    requires Live(s.guards, id) < U32
    ensures Wired(Apply(s, Sweep(id)))
  {
    if id !in s.busy && id in s.refs && Get(s.value, s.refs[id]) == 0 { ZeroMeansNone(s, id); }
  }

  lemma DropKeepsWired(s: Store, i: nat)
    requires Wired(s)
    ensures Wired(Apply(s, DropGuard(i)))
  {
    if i < |s.guards| {
      var gs := Drop(s.guards, i);
      forall j | 0 <= j < |gs| ensures gs[j] in s.guards {
        assert gs[j] == if j < i then s.guards[j] else s.guards[j + 1];
      }
    }
  }

  lemma EnterKeepsWired(s: Store, id: string, limit: nat)
    requires Wired(s)
    ensures Wired(Apply(s, Enter(id, limit)))
  {
    if id !in s.busy && id !in s.refs {
      var refs := s.refs[id := s.made];
      forall a, b | a in refs && b in refs && a != b ensures refs[a] != refs[b] {}
    }
  }

  lemma CountingKeepsWired(s: Store, step: Step)
    requires Wired(s) && (step.Add? || step.Undo?)
    ensures Wired(Apply(s, step))
  {}

  lemma DecideKeepsWired(s: Store, id: string)
    requires Wired(s)
    ensures Wired(Apply(s, Decide(id)))
  {}

  lemma StepKeepsWired(s: Store, step: Step)
    requires Wired(s)
    requires forall id :: id in s.refs ==>
               Get(s.value, s.refs[id]) == Shown(Live(s.guards, id) + Pending(s, id))
    requires forall id :: Live(s.guards, id) < U32
    ensures Wired(Apply(s, step))
  {
    match step
    case Enter(id, limit) => EnterKeepsWired(s, id, limit);
    case Add(id) => CountingKeepsWired(s, step);
    case Decide(id) => DecideKeepsWired(s, id);
    case Undo(id) => CountingKeepsWired(s, step);
    case DropGuard(i) => DropKeepsWired(s, i);
    case Sweep(id) => SweepKeepsWired(s, id);
  }

  lemma StepKeepsCounted(s: Store, steps: seq<Step>, step: Step, id: string)
    requires Inv(s, steps) && LimitsFit(steps)
    ensures Counted(Apply(s, step), id, LargestLimit(steps + [step], id))
  {
    assert (steps + [step])[..|steps|] == steps;
    LargestFits(steps, id);
    var max := LargestLimit(steps, id);
    assert Counted(s, id, max);
    match step
    case Enter(i, limit) => EnterKeeps(s, i, limit, id, max, LargestLimit(steps + [step], id));
    case Add(i) => AddKeeps(s, i, id, max);
    case Decide(i) => DecideKeeps(s, i, id, max);
    case Undo(i) => UndoKeeps(s, i, id, max);
    case DropGuard(i) => DropKeeps(s, i, id, max);
    case Sweep(i) => SweepKeeps(s, i, id, max);
  }

  lemma {:induction false} RunKeepsInv(steps: seq<Step>)
    requires LimitsFit(steps)
    ensures Inv(Run(steps), steps)
    decreases |steps|
  {
    if steps != [] {
      var front, last := steps[..|steps| - 1], steps[|steps| - 1];
      RunKeepsInv(front);
      var s := Run(front);
      assert steps == front + [last];
      forall id | id in s.refs
        ensures Get(s.value, s.refs[id]) == Shown(Live(s.guards, id) + Pending(s, id))
      {
        assert Counted(s, id, LargestLimit(front, id));
      }
      forall id ensures Live(s.guards, id) < U32 {
        assert Counted(s, id, LargestLimit(front, id));
        LargestFits(front, id);
      }
      StepKeepsWired(s, last);
      forall id ensures Counted(Run(steps), id, LargestLimit(steps, id)) {
        StepKeepsCounted(s, front, last, id);
      }
    }
  }

  // ---- Main results ----------------------------------------------------------------------------

  /** In every reachable state the limit holds and the counter is exact, except that it wraps
      while an acquire that will be undone sits on top of 2^32 - 1 live guards. */
  lemma SlotsNeverExceedLimit(steps: seq<Step>, id: string)
    requires LimitsFit(steps)
    ensures Exact(Run(steps), id, LargestLimit(steps, id))
  {
    RunKeepsInv(steps);
    LargestFits(steps, id);
    assert Counted(Run(steps), id, LargestLimit(steps, id));
    CountedIsExact(Run(steps), id, LargestLimit(steps, id));
  }

  /** At most `max` live guards, and the mapped counter shows them and the pending acquire. */
  predicate Exact(s: Store, id: string, max: nat) {
    var live, pending := Live(s.guards, id), Pending(s, id);
    live <= max &&
    (id in s.refs ==>
       Get(s.value, s.refs[id]) == live + pending ||
       (Get(s.value, s.refs[id]) == 0 && live == U32 - 1 == max && pending == 1))
  }

  lemma CountedIsExact(s: Store, id: string, max: nat)
    requires Counted(s, id, max) && max < U32
    ensures Exact(s, id, max)
  {
    WrapsAtTheTop(Live(s.guards, id), Pending(s, id), max);
  }

  lemma WrapsAtTheTop(live: nat, pending: nat, max: nat)
    requires live <= max < U32 && pending <= 1
    ensures Shown(live + pending) != live + pending ==> live == U32 - 1 == max && pending == 1
  {}

  /** No live guard ever subtracts from a counter the map has forgotten or replaced: its id is still
      mapped to it, and a sweep passes it over. */
  lemma GuardsStayMapped(steps: seq<Step>, i: nat)
    requires LimitsFit(steps) && i < |Run(steps).guards|
    ensures var s := Run(steps);
            s.guards[i].id in s.refs && s.refs[s.guards[i].id] == s.guards[i].counter &&
            Apply(s, Sweep(s.guards[i].id)) == s
  {
    RunKeepsInv(steps);
    LiveOfMember(Run(steps).guards, i);
    LargestFits(steps, Run(steps).guards[i].id);
    ShownSmall(Live(Run(steps).guards, Run(steps).guards[i].id));
    assert Counted(Run(steps), Run(steps).guards[i].id, LargestLimit(steps, Run(steps).guards[i].id));
  }

  /**
    * An acquire sees exactly the live guards of its id when it adds, so run alone it is
    * refused if and only if they have reached its limit.
    */
  lemma AcquireIsExact(steps: seq<Step>, id: string, limit: nat)
    requires LimitsFit(steps) && id !in Run(steps).busy
    ensures var t := Apply(Apply(Apply(Run(steps), Enter(id, limit)), Add(id)), Decide(id));
            var live := Live(Run(steps).guards, id);
            if live < limit
            then id !in t.busy && Live(t.guards, id) == live + 1
            else id in t.busy && t.busy[id].stage == Undoing && Live(t.guards, id) == live
  {
    RunKeepsInv(steps);
    assert Counted(Run(steps), id, LargestLimit(steps, id));
    LargestFits(steps, id);
    AddSeesLive(Run(steps), id, limit, LargestLimit(steps, id));
    DecideIsExact(Apply(Apply(Run(steps), Enter(id, limit)), Add(id)), id);
  }

  lemma DecideIsExact(s: Store, id: string)
    requires id in s.busy && s.busy[id].stage.Added?
    ensures var t := Apply(s, Decide(id));
            if s.busy[id].stage.prev < s.busy[id].limit
            then id !in t.busy && Live(t.guards, id) == Live(s.guards, id) + 1
            else id in t.busy && t.busy[id].stage == Undoing && t.guards == s.guards
  {
    LiveSnoc(s.guards, Guard(id, s.busy[id].counter), id);
  }

  lemma AddSeesLive(s: Store, id: string, limit: nat, max: nat)
    requires Wired(s) && Counted(s, id, max) && max < U32 && id !in s.busy
    ensures var t := Apply(Apply(s, Enter(id, limit)), Add(id));
            t.guards == s.guards && id in t.busy && t.busy[id].limit == limit &&
            t.busy[id].stage == Added(Live(s.guards, id))
  {
    if id !in s.refs { LiveIsZero(s, s.guards, id); }
    ShownSmall(Live(s.guards, id));
  }

  // ---- What ends an acquire and a guard --------------------------------------------------------

  lemma LimitsFitSnoc(steps: seq<Step>, step: Step)
    requires LimitsFit(steps) && (step.Enter? ==> step.limit < U32)
    ensures LimitsFit(steps + [step]) && Run(steps + [step]) == Apply(Run(steps), step)
  {
    assert (steps + [step])[..|steps|] == steps;
  }

  /** A refused acquire leaves no trace once it has undone its addition: the id is free for the next
      acquire, and its counter shows the live guards alone. */
  lemma RefusalLeavesNoTrace(steps: seq<Step>, id: string)
    requires LimitsFit(steps) && id in Run(steps).busy && Run(steps).busy[id].stage.Undoing?
    ensures var s, t := Run(steps), Apply(Run(steps), Undo(id));
            && id !in t.busy && t.guards == s.guards
            && id in t.refs && Get(t.value, t.refs[id]) == Live(s.guards, id)
  {
    RunKeepsInv(steps);
    LimitsFitSnoc(steps, Undo(id));
    SlotsNeverExceedLimit(steps + [Undo(id)], id);
  }

  /** A dropped guard gives back exactly one slot of its own id. */
  lemma DropFreesOne(steps: seq<Step>, i: nat, id: string)
    requires i < |Run(steps).guards|
    ensures var s, t := Run(steps), Apply(Run(steps), DropGuard(i));
            && |t.guards| == |s.guards| - 1
            && Live(t.guards, id) == Live(s.guards, id) - if s.guards[i].id == id then 1 else 0
  {
    LiveDrop(Run(steps).guards, i, id);
  }

  /** So an acquire run alone after a guard is dropped gets the freed slot, even at the limit. */
  lemma FreedSlotIsTaken(steps: seq<Step>, i: nat, id: string, limit: nat)
    requires LimitsFit(steps) && i < |Run(steps).guards| && id == Run(steps).guards[i].id
    requires id !in Run(steps).busy && Live(Run(steps).guards, id) <= limit
    ensures var s := Apply(Run(steps), DropGuard(i));
            var t := Apply(Apply(Apply(s, Enter(id, limit)), Add(id)), Decide(id));
            id !in t.busy && Live(t.guards, id) == Live(Run(steps).guards, id)
  {
    LiveOfMember(Run(steps).guards, i);
    DropFreesOne(steps, i, id);
    LimitsFitSnoc(steps, DropGuard(i));
    AcquireIsExact(steps + [DropGuard(i)], id, limit);
  }

  /** A sweep forgets an id at rest exactly when it has no live guard. */
  lemma SweepForgetsIdle(steps: seq<Step>, id: string)
    requires LimitsFit(steps) && id !in Run(steps).busy
    ensures id in Apply(Run(steps), Sweep(id)).refs <==> Live(Run(steps).guards, id) > 0
  {
    var s := Run(steps);
    RunKeepsInv(steps);
    assert Counted(s, id, LargestLimit(steps, id));
    LargestFits(steps, id);
    ShownSmall(Live(s.guards, id));
    if id !in s.refs { LiveIsZero(s, s.guards, id); }
  }
}
