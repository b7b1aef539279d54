/**
 Runs that show where the flow-control promises stop: a guard without an entry, a waiter
 stranded by a lowered budget, and a request that its key's status query does not show.
 */
module FlowExamples {

  import opened Wrappers
  import opened FlowSlots
  import opened FlowDispatch
  import opened FlowSystem
  import opened FlowTheorems
  import opened FlowIndex
  import opened FlowIndexRuns

  lemma ExecThen(s: Sys, steps: seq<Step>, last: Step)
    ensures Exec(s, steps + [last]).0 == Apply(Exec(s, steps).0, last).0
  {
    assert (steps + [last])[..|steps|] == steps;
  }

  function Sitting(id: nat, ctx: nat): Request { Request(id, ctx, false, true) }

  function Flying(id: nat, ctx: nat): Request { Request(id, ctx, true, false) }

  function Normals(q: seq<Request>, nextId: nat, maxInflight: nat, maxContext: nat): Slot {
    Slot(maxInflight, maxContext, [], q, nextId)
  }

  /** A lone waiter that fits is granted if its client is alive and discarded if not. */
  lemma LoneWaiter(id: nat, ctx: nat, nextId: nat, maxContext: nat, live: set<nat>)
    requires maxContext == 0 || ctx <= maxContext
    ensures var r := Dispatch(Normals([Sitting(id, ctx)], nextId, 1, maxContext), live);
            if id in live then
              r == (Normals([Flying(id, ctx)], nextId, 1, maxContext), [Grant(id, false)]) && Delivered(r.1) == {id}
            else
              r == (Normals([], nextId, 1, maxContext), [Drop(id, false)]) && Delivered(r.1) == {}
  {
    var s := Normals([Sitting(id, ctx)], nextId, 1, maxContext);
    assert s.normal[1..] == [];
    OnceShrinks(s, live);
    assert ScanQueue(s.normal[1..], false, 0, maxContext, live) == Scan([], false, []);
    assert UsedContext(s) == 0 && Inflight(s) == 0;
    var o := DispatchOnce(s, live);
    if id !in live {
      assert o.events == [Drop(id, false)] && o.slot == Normals([], nextId, 1, maxContext);
    } else {
      var t := Normals([Flying(id, ctx)], nextId, 1, maxContext);
      assert ScanQueue(s.normal, false, 0, maxContext, live).queue == t.normal;
      assert t.normal[1..] == [];
      assert Inflight(t) == 1;
      FullSlot(t, live);
      assert o.events == [Grant(id, false)] && o.slot == t;
      assert o.events + [] == o.events;
      assert [Grant(id, false)][0].Grant?;
    }
  }

  /** A full slot grants nothing. */
  lemma FullSlot(s: Slot, live: set<nat>)
    requires Full(s)
    ensures Dispatch(s, live) == (s, [])
  {
  }

  function Anon(p: Phase): Client { Client(false, None, p) }

  lemma TwoSteps(s: Sys, a: Step, b: Step)
    ensures Exec(s, [a, b]).0 == Apply(Apply(s, a).0, b).0
  {
    assert [a, b][..1] == [a] && [a][..0] == [];
    assert Exec(s, []) == (s, []);
    assert Exec(s, [a]).0 == Apply(s, a).0;
  }

  lemma ThreeSteps(s: Sys, a: Step, b: Step, c: Step)
    ensures Exec(s, [a, b, c]).0 == Apply(Apply(Apply(s, a).0, b).0, c).0
  {
    TwoSteps(s, a, b);
    assert [a, b, c][..2] == [a, b];
  }

  lemma {:induction false} ExecJoins(s: Sys, first: seq<Step>, rest: seq<Step>)
    ensures Exec(s, first + rest).0 == Exec(Exec(s, first).0, rest).0
  {
    if rest == [] {
      assert first + rest == first;
    } else {
      var n := |rest| - 1;
      assert (first + rest)[..|first| + n] == first + rest[..n];
      ExecJoins(s, first, rest[..n]);
    }
  }

  /** Enqueueing into an empty slot: the grant is sent at once. */
  lemma LoneComer(s: Sys, id: nat, key: Option<string>)
    requires s.slot == Normals([], id, 1, s.slot.maxContext) && Live(s) == {} && id !in s.clients
    ensures Apply(s, Enqueue(0, false, key)).0
            == Sys(Normals([Flying(id, 0)], id + 1, 1, s.slot.maxContext),
                s.clients[id := Client(false, key, Enqueued)], s.sent + {id})
  {
    var p := Push(s, 0, false, key);
    assert p.slot == Normals([Sitting(id, 0)], id + 1, 1, s.slot.maxContext);
    assert Live(p) == {id};
    LoneWaiter(id, 0, id + 1, s.slot.maxContext, {id});
  }

  /** Enqueueing into an empty slot, awaiting and receiving the grant. */
  lemma FirstComer(s: Sys, id: nat)
    requires s.slot == Normals([], id, 1, s.slot.maxContext) && Live(s) == {} && id !in s.clients
    ensures Exec(s, [Enqueue(0, false, None), Register(id), Receive(id)]).0
            == Sys(Normals([Flying(id, 0)], id + 1, 1, s.slot.maxContext), s.clients[id := Anon(Guarded)],
                s.sent + {id})
  {
    LoneComer(s, id, None);
    var s1 := Apply(s, Enqueue(0, false, None)).0;
    var s3 := s1.(clients := s.clients[id := Anon(Guarded)]);
    assert Apply(Apply(s1, Register(id)).0, Receive(id)).0.clients == s3.clients;
    ThreeSteps(s, Enqueue(0, false, None), Register(id), Receive(id));
  }

  /** Enqueueing behind request 0 and running into the timeout, up to the death of the receiver. */
  lemma LateComer(s: Sys)
    requires s == Sys(Normals([Flying(0, 0)], 1, 1, 0), map[0 := Anon(Guarded)], {0})
    ensures Exec(s, [Enqueue(0, false, None), Register(1), Expire(1)]).0
            == Sys(Normals([Flying(0, 0), Sitting(1, 0)], 2, 1, 0), map[0 := Anon(Guarded), 1 := Anon(Expired)], {0})
  {
    var p := Push(s, 0, false, None);
    var two := Normals([Flying(0, 0), Sitting(1, 0)], 2, 1, 0);
    assert p.slot == two;
    assert Inflight(two) >= 1;
    FullSlot(two, Live(p));
    var s1 := Sys(two, map[0 := Anon(Guarded), 1 := Anon(Enqueued)], {0});
    assert Apply(s, Enqueue(0, false, None)).0 == s1;
    ThreeSteps(s, Enqueue(0, false, None), Register(1), Expire(1));
  }

  /** Releasing request 0 makes the dispatcher discard request 1, whose receiver is gone. */
  lemma ReleaseDropsLateComer(s: Sys)
    requires s == Sys(Normals([Flying(0, 0), Sitting(1, 0)], 2, 1, 0), map[0 := Anon(Guarded), 1 := Anon(Expired)], {0})
    ensures Exec(s, [Release(0)]).0 == Sys(Normals([], 2, 1, 0), map[0 := Anon(Released), 1 := Anon(Expired)], {0})
  {
    var l := Leave(s, 0, Released);
    assert s.slot.normal[1..] == [Sitting(1, 0)];
    assert l.slot == Normals([Sitting(1, 0)], 2, 1, 0);
    assert Live(l) == {};
    LoneWaiter(1, 0, 2, 0, {});
    assert [Release(0)][..0] == [];
  }

  const OVERRUN: seq<Step> :=
    [Enqueue(0, false, None), Register(0), Receive(0)]
    + [Enqueue(0, false, None), Register(1), Expire(1)]
    + [Release(0)]
    + [Enqueue(0, false, None), Register(2), Receive(2)]
    + [TimeoutCheck(1)]

  /** Request 1 looks for its entry, finds none, and takes itself for dispatched. */
  lemma VanishedCountsAsGranted(s: Sys)
    requires s == Sys(Normals([Flying(2, 0)], 3, 1, 0),
                      map[0 := Anon(Released), 1 := Anon(Expired), 2 := Anon(Guarded)], {0, 2})
    ensures Apply(s, TimeoutCheck(1)).0
            == Sys(Normals([Flying(2, 0)], 3, 1, 0),
                   map[0 := Anon(Released), 1 := Anon(Guarded), 2 := Anon(Guarded)], {0, 2})
  {
    assert s.slot.normal[1..] == [];
    assert Find(s.slot.normal, 1).None?;
    assert s.clients[1 := Anon(Guarded)] == map[0 := Anon(Released), 1 := Anon(Guarded), 2 := Anon(Guarded)];
  }

  lemma OverrunEnds()
    ensures Exec(Init(1, 0), OVERRUN).0
            == Sys(Normals([Flying(2, 0)], 3, 1, 0),
                   map[0 := Anon(Released), 1 := Anon(Guarded), 2 := Anon(Guarded)], {0, 2})
  {
    var s := Init(1, 0);
    var a, b := [Enqueue(0, false, None), Register(0), Receive(0)], [Enqueue(0, false, None), Register(1), Expire(1)];
    var c, d := [Release(0)], [Enqueue(0, false, None), Register(2), Receive(2)];
    var s1 := Sys(Normals([Flying(0, 0)], 1, 1, 0), map[0 := Anon(Guarded)], {0});
    var s3 := Sys(Normals([], 2, 1, 0), map[0 := Anon(Released), 1 := Anon(Expired)], {0});
    var s4 := Sys(Normals([Flying(2, 0)], 3, 1, 0), s3.clients[2 := Anon(Guarded)], {0, 2});
    assert Exec(s, a).0 == s1 by { FirstComer(s, 0); }
    assert Exec(s, a + b + c).0 == s3 by {
      LateComer(s1);
      ExecJoins(s, a, b);
      ReleaseDropsLateComer(Exec(s1, b).0);
      ExecJoins(s, a + b, c);
    }
    assert Exec(s, a + b + c + d).0 == s4 by {
      assert Live(s3) == {};
      FirstComer(s3, 2);
      ExecJoins(s, a + b + c, d);
    }
    VanishedCountsAsGranted(s4);
    ExecThen(s, a + b + c + d, TimeoutCheck(1));
  }

  /** The timeout branch treats a vanished entry as dispatched: with a limit of one, request 1
      loses its entry to a failed send after its timer fired, request 2 takes the only place,
      and then both hold a guard. */
  lemma UnbackedGuardExceedsLimit()
    ensures LimitsFixed(OVERRUN)
    ensures var s := Exec(Init(1, 0), OVERRUN).0;
            In(s, 1, Guarded) && In(s, 2, Guarded) && Entry(s, 1).None? && Inflight(s.slot) == 1
  {
    OverrunEnds();
    var s := Exec(Init(1, 0), OVERRUN).0;
    assert s.slot.normal[1..] == [];
  }

  const STRANDED: seq<Step> :=
    [Enqueue(0, false, None), Register(0), Receive(0)] + [Enqueue(10, false, None), SetLimits(1, 5)] + [Release(0)]

  /** A budget lowered below a queued request strands it: the slot ends idle with a waiter that
      no later dispatch can grant, although it fitted when it was accepted. */
  lemma LoweredBudgetStrands(live: set<nat>)
    ensures var slot := Exec(Init(1, 20), STRANDED).0.slot;
            Inflight(slot) == 0 && Waiters(slot) == 1 && !HasGrant(Dispatch(slot, live).1)
  {
    StrandedEnds();
    var slot := Normals([Sitting(1, 10)], 2, 1, 5);
    assert slot.normal[1..] == [];
    IdleProgress(slot, live);
  }

  lemma StrandedEnds()
    ensures Exec(Init(1, 20), STRANDED).0.slot == Normals([Sitting(1, 10)], 2, 1, 5)
  {
    var s := Init(1, 20);
    var a, b := [Enqueue(0, false, None), Register(0), Receive(0)], [Enqueue(10, false, None), SetLimits(1, 5)];
    FirstComer(s, 0);
    var s1 := Sys(Normals([Flying(0, 0)], 1, 1, 20), map[0 := Anon(Guarded)], {0});
    assert Exec(s, a).0 == s1;
    SqueezedComer(s1);
    ExecJoins(s, a, b);
    var s2 := Exec(s1, b).0;
    ExecThen(s, a + b, Release(0));
    ReleaseStrands(s2);
  }

  lemma SqueezedComer(s: Sys)
    requires s == Sys(Normals([Flying(0, 0)], 1, 1, 20), map[0 := Anon(Guarded)], {0})
    ensures var e := Exec(s, [Enqueue(10, false, None), SetLimits(1, 5)]).0;
            e.slot == Normals([Flying(0, 0), Sitting(1, 10)], 2, 1, 5) && In(e, 0, Guarded) && !e.clients[0].vip
  {
    var p := Push(s, 10, false, None);
    var two := Normals([Flying(0, 0), Sitting(1, 10)], 2, 1, 20);
    assert p.slot == two;
    assert Inflight(two) >= 1;
    FullSlot(two, Live(p));
    TwoSteps(s, Enqueue(10, false, None), SetLimits(1, 5));
  }

  lemma ReleaseStrands(s: Sys)
    requires s.slot == Normals([Flying(0, 0), Sitting(1, 10)], 2, 1, 5) && In(s, 0, Guarded) && !s.clients[0].vip
    ensures Apply(s, Release(0)).0.slot == Normals([Sitting(1, 10)], 2, 1, 5)
  {
    var l := Leave(s, 0, Released);
    var one := Normals([Sitting(1, 10)], 2, 1, 5);
    assert s.slot.normal[1..] == one.normal;
    assert l.slot == one;
    assert one.normal[1..] == [];
    assert UsedContext(one) == 0;
    assert ScanQueue(one.normal[1..], false, 0, 5, Live(l)) == Scan([], false, []);
    assert ScanQueue(one.normal, false, 0, 5, Live(l)).queue == one.normal;
    OnceShrinks(one, Live(l));
    assert DispatchOnce(one, Live(l)).slot == one;
  }

  // ----- a request hidden from its key's status query

  lemma WorldThen(steps: seq<WorldStep>, last: WorldStep)
    ensures ExecWorld(EMPTY, steps + [last]) == ApplyWorld(ExecWorld(EMPTY, steps), last)
  {
    assert (steps + [last])[..|steps|] == steps;
  }

  function One(d: string, s: Sys, index: Index, jobs: seq<Job>): World { World(map[d := s], index, jobs) }

  lemma OneStep(d: string, s: Sys, index: Index, jobs: seq<Job>, step: Step)
    ensures ApplyWorld(One(d, s, index, jobs), At(d, step)) ==
            One(d, Apply(s, step).0, IndexAfter(index, d, s, step), JobsAfter(jobs, d, s, step))
  {
    assert map[d := s][d := Apply(s, step).0] == map[d := Apply(s, step).0];
  }

  /** A slot whose only client, of key `k`, is in this phase; its entry is there while `held`. */
  function Solo(k: string, phase: Phase, held: bool): Sys {
    Sys(Normals(if held then [Flying(0, 0)] else [], 1, 1, 0), map[0 := Client(false, Some(k), phase)], {0})
  }

  lemma SoloComes(k: string)
    ensures Apply(Init(1, 0), Enqueue(0, false, Some(k))).0 == Solo(k, Enqueued, true)
  {
    LoneComer(Init(1, 0), 0, Some(k));
    assert Init(1, 0).sent + {0} == {0};
  }

  lemma SoloMoves(k: string, held: bool, p: Phase, q: Phase)
    ensures Move(Solo(k, p, held), 0, q) == Solo(k, q, held)
  {
    assert map[0 := Client(false, Some(k), p)][0 := Client(false, Some(k), q)] == map[0 := Client(false, Some(k), q)];
  }

  lemma EmptySlot(s: Slot, live: set<nat>)
    requires s == Normals([], s.nextId, s.maxInflight, 0)
    ensures Dispatch(s, live) == (s, [])
  {
    assert ScanQueue([], true, 0, 0, live) == Scan([], false, [])
        && ScanQueue([], false, 0, 0, live) == Scan([], false, []);
    assert UsedContext(s) == 0;
  }

  lemma SoloGoes(k: string)
    ensures Apply(Solo(k, Guarded, true), Release(0)).0 == Solo(k, Released, false)
  {
    var s := Solo(k, Guarded, true);
    var l := Leave(s, 0, Released);
    assert s.slot.normal[1..] == [];
    SoloMoves(k, true, Guarded, Released);
    assert l == Solo(k, Released, false);
    EmptySlot(l.slot, Live(l));
    assert Delivered([]) == {} && l.sent + {} == l.sent;
  }

  /** Request 0 of a key is released and its list emptied; request 1 of the key registers; then the
      pending removal of the key takes its reference along. Request 1 is running, and a query by the
      key shows nothing. */
  lemma LateRemovalHidesRequest(d: string, k: string) returns (steps: seq<WorldStep>)
    ensures var w := ExecWorld(EMPTY, steps);
            OwnedAndQueued(w, Ref(d, 1), k) && Lookup(Slots(w), Refs(w.index, k)) == []
  {
    steps := UpToVacancy(d, k);
    var w := ExecWorld(EMPTY, steps);
    WorldRunKeepsInv(steps);
    WorldThen(steps, At(d, Register(1)));
    WorldThen(steps + [At(d, Register(1))], Work(0));
    LateRemovalHides(w, Ref(d, 1), k, 0);
    steps := steps + [At(d, Register(1))] + [Work(0)];
  }

  /** The run up to where the list is empty and request 1 about to register. */
  lemma UpToVacancy(d: string, k: string) returns (steps: seq<WorldStep>)
    ensures var w := ExecWorld(EMPTY, steps);
            w.jobs == [Vacate(k, [])] && d in w.deps && In(w.deps[d], 1, Enqueued)
                && w.deps[d].clients[1].key == Some(k)
  {
    steps := UpToRelease(d, k);
    var ref := Ref(d, 0);
    var done := Solo(k, Done, false);
    assert Keep([ref], ref) == [] by { assert [ref][1..] == []; }
    WorldThen(steps, Work(0));
    steps := steps + [Work(0)];
    assert ExecWorld(EMPTY, steps) == One(d, done, map[k := []], [Vacate(k, [])]);
    LoneComer(done, 1, Some(k));
    OneStep(d, done, map[k := []], [Vacate(k, [])], Enqueue(0, false, Some(k)));
    WorldThen(steps, At(d, Enqueue(0, false, Some(k))));
    steps := steps + [At(d, Enqueue(0, false, Some(k)))];
  }

  /** Request 0 of key `k` comes and goes, up to the removal of its reference. */
  lemma UpToRelease(d: string, k: string) returns (steps: seq<WorldStep>)
    ensures ExecWorld(EMPTY, steps) == One(d, Solo(k, Done, false), map[k := [Ref(d, 0)]], [Trim(k, Ref(d, 0))])
  {
    var index: Index := map[k := [Ref(d, 0)]];
    steps := UpToGuard(d, k);
    SoloGoes(k);
    steps := Next(d, Solo(k, Guarded, true), index, [], steps, Release(0));
    SoloMoves(k, false, Released, Done);
    steps := Next(d, Solo(k, Released, false), index, [], steps, Unregister(0));
  }

  lemma UpToGuard(d: string, k: string) returns (steps: seq<WorldStep>)
    ensures ExecWorld(EMPTY, steps) == One(d, Solo(k, Guarded, true), map[k := [Ref(d, 0)]], [])
  {
    var index: Index := map[k := [Ref(d, 0)]];
    steps := Opened(d);
    SoloComes(k);
    steps := Next(d, Init(1, 0), map[], [], steps, Enqueue(0, false, Some(k)));
    steps := FromEnqueued(d, k, steps);
    SoloMoves(k, true, Pending, Guarded);
    steps := Next(d, Solo(k, Pending, true), index, [], steps, Receive(0));
  }

  lemma FromEnqueued(d: string, k: string, before: seq<WorldStep>) returns (steps: seq<WorldStep>)
    requires ExecWorld(EMPTY, before) == One(d, Solo(k, Enqueued, true), map[], [])
    ensures ExecWorld(EMPTY, steps) == One(d, Solo(k, Pending, true), map[k := [Ref(d, 0)]], [])
  {
    SoloMoves(k, true, Enqueued, Pending);
    steps := Next(d, Solo(k, Enqueued, true), map[], [], before, Register(0));
    FirstRef(k, Ref(d, 0));
  }

  lemma FirstRef(k: string, r: Ref)
    ensures AddRef(map[], Some(k), r) == map[k := [r]]
  {
    assert Refs(map[], k) + [r] == [r];
  }

  lemma Opened(d: string) returns (steps: seq<WorldStep>)
    ensures ExecWorld(EMPTY, steps) == One(d, Init(1, 0), map[], [])
  {
    steps := [Create(d, 1, 0)];
    assert steps[..0] == [];
    assert ExecWorld(EMPTY, []) == EMPTY;
    assert EMPTY.deps[d := Init(1, 0)] == map[d := Init(1, 0)];
  }

  lemma Next(d: string, s: Sys, index: Index, jobs: seq<Job>, front: seq<WorldStep>, step: Step)
      returns (steps: seq<WorldStep>)
    requires ExecWorld(EMPTY, front) == One(d, s, index, jobs)
    ensures ExecWorld(EMPTY, steps) ==
            One(d, Apply(s, step).0, IndexAfter(index, d, s, step), JobsAfter(jobs, d, s, step))
  {
    OneStep(d, s, index, jobs, step);
    WorldThen(front, At(d, step));
    steps := front + [At(d, step)];
  }
}
