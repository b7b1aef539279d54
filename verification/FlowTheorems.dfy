/**
 What holds in every run of a flow-control slot: capacity, absence of stalls, ownership of
 guards, first-come-first-served order and the meaning of the reported position.
 */
module FlowTheorems {

  import opened Wrappers
  import opened FlowSlots
  import opened FlowDispatch
  import opened FlowOrder
  import opened FlowSystem

  // ----- load bookkeeping

  lemma LeaveLoad(s: Slot, id: nat, vip: bool)
    requires Find(s.Queue(vip), id).Some?
    ensures var e := Find(s.Queue(vip), id).value;
            && Inflight(LeaveSlot(s, id, vip)) + RunningOne(e) == Inflight(s)
            && UsedContext(LeaveSlot(s, id, vip)) + RunningCtx(e) == UsedContext(s)
  {
    WithoutTotal(s.Queue(vip), id, RunningOne);
    WithoutTotal(s.Queue(vip), id, RunningCtx);
  }

  lemma PushLoad(s: Slot, ctx: nat, vip: bool)
    ensures Inflight(PushSlot(s, ctx, vip)) == Inflight(s) && UsedContext(PushSlot(s, ctx, vip)) == UsedContext(s)
  {
    var r := Request(s.nextId, ctx, false, true);
    TotalAppend(s.Queue(vip), [r], RunningOne);
    TotalAppend(s.Queue(vip), [r], RunningCtx);
    assert Total([r], RunningOne) == 0 && Total([r], RunningCtx) == 0;
  }

  lemma {:induction false} WithoutNoneFits(q: seq<Request>, id: nat, used: nat, maxContext: nat)
    requires NoneFits(q, used, maxContext)
    ensures NoneFits(Without(q, id), used, maxContext)
  {
    if q != [] {
      assert forall i :: 0 <= i < |q[1..]| ==> q[1..][i] == q[i + 1];
      WithoutNoneFits(q[1..], id, used, maxContext);
    }
  }

  // ----- capacity and absence of stalls

  /** Nobody in the queues is larger than the whole budget. */
  ghost predicate SizesFit(s: Slot) {
    s.maxContext > 0 ==>
      forall v: bool, id: nat :: Find(s.Queue(v), id).Some? ==> Find(s.Queue(v), id).value.ctx <= s.maxContext
  }

  ghost predicate Steady(s: Slot) { Within(s) && AtRest(s) && SizesFit(s) }

  lemma PushSteady(s: Slot, ctx: nat, vip: bool)
    requires Good(s) && Within(s) && SizesFit(s) && !Oversized(s, ctx)
    ensures Within(PushSlot(s, ctx, vip)) && SizesFit(PushSlot(s, ctx, vip))
  {
    PushLoad(s, ctx, vip);
    var s' := PushSlot(s, ctx, vip);
    forall v: bool, id: nat | s.maxContext > 0 && Find(s'.Queue(v), id).Some?
      ensures Find(s'.Queue(v), id).value.ctx <= s.maxContext
    {
      PushFind(s, ctx, vip, v, id);
    }
  }

  lemma LeaveSteady(s: Slot, id: nat, vip: bool)
    requires Good(s) && Steady(s) && Find(s.Queue(vip), id).Some?
    ensures var s' := LeaveSlot(s, id, vip);
            && Within(s') && SizesFit(s')
            && (Waiting(Find(s.Queue(vip), id)) ==> AtRest(s'))
  {
    LeaveLoad(s, id, vip);
    LeaveIsGood(s, id, vip);
    if !Full(s) {
      WithoutNoneFits(s.Queue(vip), id, UsedContext(s), s.maxContext);
    }
  }

  lemma PrepareSteady(s: Sys, step: Step)
    requires Inv(s) && Steady(s.slot) && !step.SetLimits?
    ensures var p := Prepare(s, step);
            && Within(p.sys.slot) && SizesFit(p.sys.slot) && (!p.dispatch ==> AtRest(p.sys.slot))
            && p.sys.slot.maxInflight == s.slot.maxInflight && p.sys.slot.maxContext == s.slot.maxContext
  {
    PrepareSlot(s, step);
    if step.Enqueue? && !Oversized(s.slot, step.ctx) {
      PushSteady(s.slot, step.ctx, step.vip);
    } else if IsExit(step) && step.id in s.clients && Entry(s, step.id).Some? {
      LeaveSteady(s.slot, step.id, s.clients[step.id].vip);
    }
  }

  /** With fixed limits every step leaves the slot within them, with nothing grantable left. */
  lemma StepKeepsSteady(s: Sys, step: Step)
    requires Inv(s) && Steady(s.slot) && !step.SetLimits?
    ensures Steady(Apply(s, step).0.slot)
    ensures Apply(s, step).0.slot.maxInflight == s.slot.maxInflight
    ensures Apply(s, step).0.slot.maxContext == s.slot.maxContext
  {
    PrepareSteady(s, step);
    PrepareKeepsInv(s, step);
    var p := Prepare(s, step);
    if p.dispatch {
      DispatchLimits(p.sys.slot, Live(p.sys));
      DispatchEffect(p.sys.slot, Live(p.sys));
      var s' := Apply(s, step).0.slot;
      forall v: bool, id: nat | s'.maxContext > 0 && Find(s'.Queue(v), id).Some?
        ensures Find(s'.Queue(v), id).value.ctx <= s'.maxContext
      {
        assert EntryEffect(Find(p.sys.slot.Queue(v), id), Find(s'.Queue(v), id), id, v,
                           Dispatch(p.sys.slot, Live(p.sys)).1, Live(p.sys));
      }
    }
  }

  lemma {:induction false} LoadNeedsRunning(q: seq<Request>)
    ensures Total(q, RunningCtx) > 0 ==> Total(q, RunningOne) > 0
  {
    if q != [] { LoadNeedsRunning(q[1..]); }
  }

  lemma {:induction false} SomeWaiter(q: seq<Request>) returns (i: nat)
    requires Total(q, WaitingOne) > 0
    ensures i < |q| && !q[i].dispatched
  {
    if !q[0].dispatched {
      i := 0;
    } else {
      i := SomeWaiter(q[1..]);
      i := i + 1;
    }
  }

  /** A waiter in a steady slot is held back by something that is in flight. */
  lemma SteadyNeverStalls(s: Slot)
    requires Good(s) && Steady(s) && Waiters(s) > 0
    ensures Inflight(s) > 0
  {
    if !Full(s) {
      var v := Total(s.vip, WaitingOne) > 0;
      var i := SomeWaiter(s.Queue(v));
      MemberIsFound(s.Queue(v), i);
      assert Find(s.Queue(v), s.Queue(v)[i].id) == Some(s.Queue(v)[i]);
      LoadNeedsRunning(s.vip);
      LoadNeedsRunning(s.normal);
    }
  }

  ghost predicate LimitsFixed(steps: seq<Step>) {
    forall i :: 0 <= i < |steps| ==> !steps[i].SetLimits?
  }

  lemma InitIsSteady(maxInflight: nat, maxContext: nat)
    ensures Inv(Init(maxInflight, maxContext)) && Steady(Init(maxInflight, maxContext).slot)
  {
  }

  lemma {:induction false} RunIsSteady(s: Sys, steps: seq<Step>)
    requires Inv(s) && Steady(s.slot) && LimitsFixed(steps)
    ensures Steady(Exec(s, steps).0.slot)
    ensures Exec(s, steps).0.slot.maxInflight == s.slot.maxInflight
    ensures Exec(s, steps).0.slot.maxContext == s.slot.maxContext
  {
    if steps != [] {
      var before := steps[..|steps| - 1];
      RunIsSteady(s, before);
      RunKeepsInv(s, before);
      StepKeepsSteady(Exec(s, before).0, steps[|steps| - 1]);
    }
  }

  /** Capacity: with fixed limits, any interleaving of enqueues, grants, releases, timeouts,
      cancellations, receiver deaths and periodic dispatches stays within both limits, and
      requests never wait while the slot is idle. */
  lemma CapacityInEveryRun(maxInflight: nat, maxContext: nat, steps: seq<Step>)
    requires LimitsFixed(steps)
    ensures var slot := Exec(Init(maxInflight, maxContext), steps).0.slot;
            && (maxInflight > 0 ==> Inflight(slot) <= maxInflight)
            && (maxContext > 0 ==> UsedContext(slot) <= maxContext)
            && (Waiters(slot) > 0 ==> Inflight(slot) > 0)
            && AtRest(slot)
  {
    var s := Init(maxInflight, maxContext);
    InitIsSteady(maxInflight, maxContext);
    RunIsSteady(s, steps);
    RunKeepsInv(s, steps);
    if Waiters(Exec(s, steps).0.slot) > 0 {
      SteadyNeverStalls(Exec(s, steps).0.slot);
    }
  }

  /** Limits may be changed at any time: a step that grants anything still ends within the
      limits then in force, so nothing is granted while the slot is over a lowered limit. */
  lemma GrantsEndWithinLimits(s: Sys, step: Step)
    requires HasGrant(Apply(s, step).1)
    ensures Within(Apply(s, step).0.slot) && AtRest(Apply(s, step).0.slot)
  {
    var p := Prepare(s, step);
    var k :| 0 <= k < |Apply(s, step).1| && Apply(s, step).1[k].Grant?;
    assert k >= |p.quit|;
    var events := RunDispatch(p.sys).1;
    assert events[k - |p.quit|].Grant?;
    DispatchLimits(p.sys.slot, Live(p.sys));
  }

  // ----- when the promise that every waiter eventually fits breaks

  lemma IdleGrant(s: Slot, live: set<nat>) returns (v: bool, i: nat)
    requires Good(s) && Inflight(s) == 0 && DispatchOnce(s, live).granted
    ensures i < |s.Queue(v)| && s.Queue(v)[i].id in live && Fits(s.Queue(v)[i], 0, s.maxContext)
  {
    OnceLimits(s, live);
    IdleMeansWaiting(s.vip);
    IdleMeansWaiting(s.normal);
    v := ScanQueue(s.vip, true, 0, s.maxContext, live).granted;
    i := GrantedScan(s.Queue(v), v, 0, s.maxContext, live);
  }

  /** An idle slot makes progress exactly when some waiter with a live client fits the budget
      in force now. */
  lemma IdleProgress(s: Slot, live: set<nat>)
    requires Good(s) && Inflight(s) == 0
    ensures HasGrant(Dispatch(s, live).1) <==>
            exists v: bool, i: nat :: i < |s.Queue(v)| && s.Queue(v)[i].id in live
                && Fits(s.Queue(v)[i], 0, s.maxContext)
  {
    OnceLimits(s, live);
    DispatchUnfold(s, live);
    IdleMeansWaiting(s.vip);
    IdleMeansWaiting(s.normal);
    var o := DispatchOnce(s, live);
    if o.granted {
      var k :| 0 <= k < |o.events| && o.events[k].Grant?;
      assert Dispatch(s, live).1[k].Grant?;
      var v, i := IdleGrant(s, live);
    } else {
      UngrantedScan(s.vip, true, 0, s.maxContext, live);
      UngrantedScan(s.normal, false, 0, s.maxContext, live);
      assert NoLiveFits(s.Queue(true), 0, s.maxContext, live) && NoLiveFits(s.Queue(false), 0, s.maxContext, live);
    }
  }

  lemma {:induction false} IdleMeansWaiting(q: seq<Request>)
    requires Total(q, RunningOne) == 0
    ensures Total(q, RunningCtx) == 0 && forall i :: 0 <= i < |q| ==> !q[i].dispatched
  {
    if q != [] { IdleMeansWaiting(q[1..]); }
  }

  lemma {:induction false} GrantedScan(q: seq<Request>, v: bool, used: nat, maxContext: nat, live: set<nat>)
      returns (i: nat)
    requires ScanQueue(q, v, used, maxContext, live).granted
    ensures i < |q| && q[i].id in live && Fits(q[i], used, maxContext)
  {
    if !q[0].dispatched && q[0].grant && Fits(q[0], used, maxContext) && q[0].id in live {
      i := 0;
    } else {
      i := GrantedScan(q[1..], v, used, maxContext, live);
      i := i + 1;
    }
  }

  // ----- first come, first served over whole runs

  ghost predicate NoBudget(s: Sys, steps: seq<Step>) {
    && s.slot.maxContext == 0
    && forall i :: 0 <= i < |steps| && steps[i].SetLimits? ==> steps[i].maxContext == 0
  }

  lemma PrepareKeepsNoBudget(s: Sys, step: Step)
    requires s.slot.maxContext == 0 && (step.SetLimits? ==> step.maxContext == 0)
    ensures Prepare(s, step).sys.slot.maxContext == 0
  {
  }

  lemma StepKeepsNoBudget(s: Sys, step: Step)
    requires s.slot.maxContext == 0 && (step.SetLimits? ==> step.maxContext == 0)
    ensures Apply(s, step).0.slot.maxContext == 0
  {
    var p := Prepare(s, step);
    PrepareKeepsNoBudget(s, step);
    DispatchLimits(p.sys.slot, Live(p.sys));
  }

  lemma {:induction false} NoBudgetStays(s: Sys, steps: seq<Step>)
    requires NoBudget(s, steps)
    ensures Exec(s, steps).0.slot.maxContext == 0
  {
    if steps != [] {
      var before := steps[..|steps| - 1];
      NoBudgetStays(s, before);
      StepKeepsNoBudget(Exec(s, before).0, steps[|steps| - 1]);
    }
  }

  /** Where a step can add or remove entries before it dispatches. */
  lemma PrepareQueues(s: Sys, step: Step, v: bool, x: nat)
    requires Inv(s)
    ensures var s' := Prepare(s, step).sys.slot;
            && s.slot.nextId <= s'.nextId
            && (x < s.slot.nextId && Find(s'.Queue(v), x).Some? ==> Find(s'.Queue(v), x) == Find(s.slot.Queue(v), x))
            && (x >= s.slot.nextId && Find(s'.Queue(v), x).Some? ==> step.Enqueue? && x == s.slot.nextId)
  {
    PrepareSlot(s, step);
    FindIsMember(s.slot.Queue(v), x);
    var s' := Prepare(s, step).sys.slot;
    if step.Enqueue? && s' != s.slot {
      PushFind(s.slot, step.ctx, step.vip, v, x);
    } else if IsExit(step) && s' != s.slot {
      LeaveIsGood(s.slot, step.id, s.clients[step.id].vip);
    }
  }

  ghost predicate LogIsFifo(log: seq<Event>, s: Slot) {
    && GrantsIncrease(log)
    && GrantsBeforeWaiters(log, s)
    && (forall i :: 0 <= i < |log| ==> log[i].id < s.nextId)
  }

  lemma PrepareKeepsFifo(s: Sys, step: Step, log: seq<Event>)
    requires Inv(s) && LogIsFifo(log, s.slot)
    ensures var p := Prepare(s, step); LogIsFifo(log + p.quit, p.sys.slot)
  {
    var p := Prepare(s, step);
    var all := log + p.quit;
    assert |p.quit| <= 1 && (forall i :: 0 <= i < |p.quit| ==> p.quit[i].Quit? && p.quit[i].id < s.slot.nextId);
    PrepareQueues(s, step, true, 0);
    forall i | 0 <= i < |all| && all[i].Grant? ensures WaitersAbove(p.sys.slot.Queue(all[i].vip), all[i].id) {
      var v := all[i].vip;
      forall id | Waiting(Find(p.sys.slot.Queue(v), id)) ensures all[i].id < id {
        PrepareQueues(s, step, v, id);
      }
    }
  }

  lemma RunDispatchKeepsFifo(s: Sys, log: seq<Event>)
    requires Inv(s) && s.slot.maxContext == 0 && LogIsFifo(log, s.slot)
    ensures LogIsFifo(log + RunDispatch(s).1, RunDispatch(s).0.slot)
  {
    var (s', events) := RunDispatch(s);
    DispatchIsFifo(s.slot, Live(s));
    DispatchEffect(s.slot, Live(s));
    AppendGrants(log, events, s.slot, s'.slot, Live(s));
    DispatchNeverQuits(s.slot, Live(s));
    EventIdsBelow(s, events, s'.slot);
  }

  lemma EventIdsBelow(s: Sys, events: seq<Event>, s': Slot)
    requires Inv(s) && SlotEffect(s.slot, s', events, Live(s))
    requires forall i :: 0 <= i < |events| ==> !events[i].Quit?
    ensures forall i :: 0 <= i < |events| ==> events[i].id < s.slot.nextId
  {
    forall i | 0 <= i < |events| ensures events[i].id < s.slot.nextId {
      var e := events[i];
      assert EntryEffect(Find(s.slot.Queue(e.vip), e.id), Find(s'.Queue(e.vip), e.id), e.id, e.vip, events, Live(s));
      assert e == Grant(e.id, e.vip) || e == Drop(e.id, e.vip);
      assert Find(s.slot.Queue(e.vip), e.id).Some?;
    }
  }

  lemma {:induction false} DispatchNeverQuits(s: Slot, live: set<nat>)
    ensures forall i :: 0 <= i < |Dispatch(s, live).1| ==> !Dispatch(s, live).1[i].Quit?
    decreases Waiters(s)
  {
    OnceShrinks(s, live);
    OnceShape(s, live);
    DispatchUnfold(s, live);
    var o := DispatchOnce(s, live);
    if o.granted {
      DispatchNeverQuits(o.slot, live);
    }
  }

  lemma FinishKeepsFifo(p: Prep, log: seq<Event>)
    requires Inv(p.sys) && p.sys.slot.maxContext == 0 && LogIsFifo(log + p.quit, p.sys.slot)
    ensures LogIsFifo(log + Finish(p).1, Finish(p).0.slot)
  {
    if p.dispatch {
      RunDispatchKeepsFifo(p.sys, log + p.quit);
      assert log + p.quit + RunDispatch(p.sys).1 == log + (p.quit + RunDispatch(p.sys).1);
    }
  }

  lemma StepKeepsFifo(s: Sys, step: Step, log: seq<Event>)
    requires Inv(s) && s.slot.maxContext == 0 && (step.SetLimits? ==> step.maxContext == 0)
    requires LogIsFifo(log, s.slot)
    ensures LogIsFifo(log + Apply(s, step).1, Apply(s, step).0.slot)
  {
    PrepareKeepsFifo(s, step, log);
    PrepareKeepsInv(s, step);
    PrepareKeepsNoBudget(s, step);
    FinishKeepsFifo(Prepare(s, step), log);
  }

  lemma {:induction false} RunIsFifo(s: Sys, steps: seq<Step>)
    requires Inv(s) && NoBudget(s, steps)
    ensures LogIsFifo(Exec(s, steps).1, Exec(s, steps).0.slot)
  {
    if steps != [] {
      var before := steps[..|steps| - 1];
      RunIsFifo(s, before);
      RunKeepsInv(s, before);
      NoBudgetStays(s, before);
      StepKeepsFifo(Exec(s, before).0, steps[|steps| - 1], Exec(s, before).1);
    }
  }

  /** Without a context budget each queue is served strictly in arrival order over the whole
      run, however clients time out, cancel or release in between. */
  lemma GrantsInArrivalOrder(maxInflight: nat, steps: seq<Step>)
    requires NoBudget(Init(maxInflight, 0), steps)
    ensures GrantsIncrease(Exec(Init(maxInflight, 0), steps).1)
  {
    RunIsFifo(Init(maxInflight, 0), steps);
  }

  // ----- the reported position

  lemma LeavePosition(s: Slot, id: nat, v: bool, x: nat, vip: bool)
    requires Find(s.Queue(v), id).Some?
    ensures var e := Find(s.Queue(v), id);
            Position(s, x, vip) == Position(LeaveSlot(s, id, v), x, vip)
                                   + if Waiting(e) && IsAhead(Quit(id, v), x, vip) then 1 else 0
  {
    FindIsMember(s.Queue(v), id);
    WithoutTotal(s.Queue(v), id, AheadOne(x));
    WithoutTotal(s.Queue(v), id, WaitingOne);
  }

  lemma PushPosition(s: Slot, ctx: nat, v: bool, x: nat, vip: bool)
    requires x < s.nextId
    ensures Position(PushSlot(s, ctx, v), x, vip) == Position(s, x, vip) + if v && !vip then 1 else 0
  {
    var r := Request(s.nextId, ctx, false, true);
    TotalAppend(s.Queue(v), [r], AheadOne(x));
    TotalAppend(s.Queue(v), [r], WaitingOne);
    assert Total([r], AheadOne(x)) == 0 && Total([r], WaitingOne) == 1;
  }

  /** A VIP arrival passes every waiting normal request. */
  function Overtaking(step: Step, vip: bool): nat {
    if step.Enqueue? && step.vip && !vip then 1 else 0
  }

  function Overtakers(steps: seq<Step>, vip: bool): nat {
    if steps == [] then 0
    else Overtakers(steps[..|steps| - 1], vip) + Overtaking(steps[|steps| - 1], vip)
  }

  lemma PreparePosition(s: Sys, step: Step, x: nat, vip: bool)
    requires Inv(s) && x < s.slot.nextId && s.slot.maxContext == 0
    ensures var p := Prepare(s, step);
            Position(s.slot, x, vip) + Overtaking(step, vip) ==
                Position(p.sys.slot, x, vip) + AheadEvents(p.quit, x, vip)
  {
    PrepareSlot(s, step);
    var p := Prepare(s, step);
    if step.Enqueue? {
      PushPosition(s.slot, step.ctx, step.vip, x, vip);
    } else if IsExit(step) && step.id in s.clients && Entry(s, step.id).Some? {
      LeavePosition(s.slot, step.id, s.clients[step.id].vip, x, vip);
    }
  }

  lemma StepPosition(s: Sys, step: Step, x: nat, vip: bool)
    requires Inv(s) && x < s.slot.nextId && s.slot.maxContext == 0
    ensures Position(s.slot, x, vip) + Overtaking(step, vip)
            == Position(Apply(s, step).0.slot, x, vip) + AheadEvents(Apply(s, step).1, x, vip)
    ensures s.slot.nextId <= Apply(s, step).0.slot.nextId
  {
    PreparePosition(s, step, x, vip);
    PrepareKeepsInv(s, step);
    PrepareQueues(s, step, vip, x);
    FinishPosition(Prepare(s, step), x, vip);
  }

  lemma FinishPosition(p: Prep, x: nat, vip: bool)
    requires Inv(p.sys)
    ensures Position(p.sys.slot, x, vip) + AheadEvents(p.quit, x, vip)
            == Position(Finish(p).0.slot, x, vip) + AheadEvents(Finish(p).1, x, vip)
    ensures Finish(p).0.slot.nextId == p.sys.slot.nextId
  {
    if p.dispatch {
      DispatchConserves(p.sys.slot, Live(p.sys), x, vip);
      DispatchLimits(p.sys.slot, Live(p.sys));
      AheadEventsAppend(p.quit, RunDispatch(p.sys).1, x, vip);
    }
  }

  /** Over any run without a budget, a request's position plus the VIP arrivals that pass it is
      what is left of it plus everyone ahead who was granted or left. */
  lemma {:induction false} PositionIsConserved(s: Sys, steps: seq<Step>, x: nat, vip: bool)
    requires Inv(s) && NoBudget(s, steps) && x < s.slot.nextId
    ensures Position(s.slot, x, vip) + Overtakers(steps, vip)
            == Position(Exec(s, steps).0.slot, x, vip) + AheadEvents(Exec(s, steps).1, x, vip)
    ensures s.slot.nextId <= Exec(s, steps).0.slot.nextId
  {
    if steps != [] {
      var before := steps[..|steps| - 1];
      PositionIsConserved(s, before, x, vip);
      RunKeepsInv(s, before);
      NoBudgetStays(s, before);
      var (m, log) := Exec(s, before);
      StepPosition(m, steps[|steps| - 1], x, vip);
      AheadEventsAppend(log, Apply(m, steps[|steps| - 1]).1, x, vip);
    }
  }

  /** A request that waits after a step waited before it, and the step granted only ahead of it. */
  lemma StepWhileWaiting(s: Sys, step: Step, x: nat, vip: bool)
    requires Inv(s) && x < s.slot.nextId && s.slot.maxContext == 0 && (step.SetLimits? ==> step.maxContext == 0)
    requires Waiting(Find(Apply(s, step).0.slot.Queue(vip), x))
    ensures Waiting(Find(s.slot.Queue(vip), x))
    ensures GrantsAllAhead(Apply(s, step).1, x, vip)
  {
    PrepareQueues(s, step, vip, x);
    PrepareKeepsInv(s, step);
    PrepareKeepsNoBudget(s, step);
    PrepareSlot(s, step);
    FinishWhileWaiting(Prepare(s, step), x, vip);
  }

  lemma FinishWhileWaiting(p: Prep, x: nat, vip: bool)
    requires Inv(p.sys) && p.sys.slot.maxContext == 0 && Waiting(Find(Finish(p).0.slot.Queue(vip), x))
    requires forall i :: 0 <= i < |p.quit| ==> p.quit[i].Quit?
    ensures Waiting(Find(p.sys.slot.Queue(vip), x))
    ensures GrantsAllAhead(Finish(p).1, x, vip)
  {
    if p.dispatch {
      DispatchEffect(p.sys.slot, Live(p.sys));
      var (s', events) := Dispatch(p.sys.slot, Live(p.sys));
      assert EntryEffect(Find(p.sys.slot.Queue(vip), x), Find(s'.Queue(vip), x), x, vip, events, Live(p.sys));
      assert events[..|events|] == events;
      assert Untouched(events, x, vip);
      GrantsAreAhead(p.sys.slot, Live(p.sys), x, vip, |events|);
    }
  }

  lemma {:induction false} RunWhileWaiting(s: Sys, steps: seq<Step>, x: nat, vip: bool)
    requires Inv(s) && NoBudget(s, steps) && x < s.slot.nextId
    requires Waiting(Find(Exec(s, steps).0.slot.Queue(vip), x))
    ensures GrantsAllAhead(Exec(s, steps).1, x, vip)
  {
    if steps != [] {
      var before := steps[..|steps| - 1];
      RunKeepsInv(s, before);
      NoBudgetStays(s, before);
      PositionIsConserved(s, before, x, vip);
      StepWhileWaiting(Exec(s, before).0, steps[|steps| - 1], x, vip);
      RunWhileWaiting(s, before, x, vip);
    }
  }

  function GrantCount(events: seq<Event>): nat {
    if events == [] then 0 else (if events[0].Grant? then 1 else 0) + GrantCount(events[1..])
  }

  /** Requests ahead of `x` that gave up their place without a grant. */
  function LossesAhead(events: seq<Event>, x: nat, vip: bool): nat {
    if events == [] then 0
    else (if !events[0].Grant? && IsAhead(events[0], x, vip) then 1 else 0) + LossesAhead(events[1..], x, vip)
  }

  lemma {:induction false} AheadSplits(events: seq<Event>, x: nat, vip: bool)
    requires GrantsAllAhead(events, x, vip)
    ensures AheadEvents(events, x, vip) == GrantCount(events) + LossesAhead(events, x, vip)
  {
    if events != [] {
      assert forall i :: 0 <= i < |events[1..]| ==> events[1..][i] == events[i + 1];
      AheadSplits(events[1..], x, vip);
    }
  }

  /** The exact meaning of `position_for`. Request `x` waits through `steps` and is granted as
      event `k` of the next step. Then the grants made before its own, plus the requests ahead
      that timed out, cancelled or died, number exactly its initial position plus the VIP
      arrivals that passed it (none pass a VIP request). */
  lemma GrantsBeforeAreThePosition(s: Sys, steps: seq<Step>, last: Step, x: nat, vip: bool, k: nat)
    requires Inv(s) && NoBudget(s, steps + [last]) && Waiting(Find(s.slot.Queue(vip), x))
    requires Waiting(Find(Exec(s, steps).0.slot.Queue(vip), x))
    requires k < |Apply(Exec(s, steps).0, last).1| && Apply(Exec(s, steps).0, last).1[k] == Grant(x, vip)
    ensures var before := Exec(s, steps).1 + Apply(Exec(s, steps).0, last).1[..k];
            && GrantsAllAhead(before, x, vip)
            && GrantCount(before) + LossesAhead(before, x, vip)
               == Position(s.slot, x, vip) + Overtakers(steps + [last], vip)
  {
    FindIsMember(s.slot.Queue(vip), x);
    assert forall i :: 0 <= i < |steps| ==> (steps + [last])[i] == steps[i];
    assert (steps + [last])[|steps|] == last;
    assert (steps + [last])[..|steps|] == steps;
    RunKeepsInv(s, steps);
    NoBudgetStays(s, steps);
    PositionIsConserved(s, steps, x, vip);
    RunWhileWaiting(s, steps, x, vip);
    var (m, log) := Exec(s, steps);
    var now := Apply(m, last).1[..k];
    LastStepPosition(m, last, x, vip, k);
    AheadEventsAppend(log, now, x, vip);
    AheadSplits(log + now, x, vip);
  }

  lemma LastStepPosition(s: Sys, step: Step, x: nat, vip: bool, k: nat)
    requires Inv(s) && x < s.slot.nextId && s.slot.maxContext == 0 && (step.SetLimits? ==> step.maxContext == 0)
    requires k < |Apply(s, step).1| && Apply(s, step).1[k] == Grant(x, vip)
    ensures Position(s.slot, x, vip) + Overtaking(step, vip) == AheadEvents(Apply(s, step).1[..k], x, vip)
    ensures GrantsAllAhead(Apply(s, step).1[..k], x, vip)
  {
    PreparePosition(s, step, x, vip);
    PrepareKeepsInv(s, step);
    PrepareKeepsNoBudget(s, step);
    PrepareSlot(s, step);
    FinishGrantPosition(Prepare(s, step), x, vip, k);
  }

  lemma FinishGrantPosition(p: Prep, x: nat, vip: bool, k: nat)
    requires Inv(p.sys) && p.sys.slot.maxContext == 0
    requires forall i :: 0 <= i < |p.quit| ==> p.quit[i].Quit?
    requires k < |Finish(p).1| && Finish(p).1[k] == Grant(x, vip)
    ensures Position(p.sys.slot, x, vip) + AheadEvents(p.quit, x, vip) == AheadEvents(Finish(p).1[..k], x, vip)
    ensures GrantsAllAhead(Finish(p).1[..k], x, vip)
  {
    assert k >= |p.quit| && p.dispatch;
    var j := k - |p.quit|;
    var events := Dispatch(p.sys.slot, Live(p.sys)).1;
    assert Finish(p).1[..k] == p.quit + events[..j];
    DispatchGrantPosition(p.sys.slot, Live(p.sys), x, vip, j);
    AheadEventsAppend(p.quit, events[..j], x, vip);
  }

  lemma DispatchGrantPosition(s: Slot, live: set<nat>, x: nat, vip: bool, j: nat)
    requires Good(s) && s.maxContext == 0
    requires j < |Dispatch(s, live).1| && Dispatch(s, live).1[j] == Grant(x, vip)
    ensures Position(s, x, vip) == AheadEvents(Dispatch(s, live).1[..j], x, vip)
    ensures GrantsAllAhead(Dispatch(s, live).1[..j], x, vip)
  {
    PositionIsExact(s, live, j, Grant(x, vip));
    GrantComesOnce(s, live, x, vip, j);
    GrantsAreAhead(s, live, x, vip, j);
  }

  lemma GrantComesOnce(s: Slot, live: set<nat>, x: nat, vip: bool, j: nat)
    requires Good(s) && s.maxContext == 0
    requires j < |Dispatch(s, live).1| && Dispatch(s, live).1[j] == Grant(x, vip)
    ensures Waiting(Find(s.Queue(vip), x)) && Untouched(Dispatch(s, live).1[..j], x, vip)
  {
    DispatchEffect(s, live);
    DispatchIsFifo(s, live);
    var (s', events) := Dispatch(s, live);
    assert EntryEffect(Find(s.Queue(vip), x), Find(s'.Queue(vip), x), x, vip, events, live);
    assert Grant(x, vip) in events;
    forall i | 0 <= i < j ensures events[..j][i] != Grant(x, vip) && events[..j][i] != Drop(x, vip) {
      assert events[..j][i] == events[i] && events[i] in events;
    }
  }

  // ----- guards

  /** A client that is past its wait but has not finished, and has no entry. */
  predicate Bare(s: Sys, id: nat) {
    && id in s.clients && Entry(s, id).None?
    && (s.clients[id].phase.Expired? || s.clients[id].phase.Cancelling? || s.clients[id].phase.Guarded?)
  }

  /** Such clients lost their entry to a failed send. */
  ghost predicate LossesAreLogged(s: Sys, log: seq<Event>) {
    forall id: nat :: Bare(s, id) ==> Drop(id, s.clients[id].vip) in log
  }

  predicate IsAbout(step: Step, id: nat) {
    !step.Enqueue? && !step.Periodic? && !step.SetLimits? && step.id == id
  }

  lemma OthersUntouched(s: Sys, step: Step, id: nat)
    requires id in s.clients && id < s.slot.nextId && !IsAbout(step, id)
    ensures var s' := Prepare(s, step).sys;
            id in s'.clients && s'.clients[id] == s.clients[id] && Entry(s', id) == Entry(s, id)
  {
    if step.Enqueue? {
      FindPush(s.slot.Queue(s.clients[id].vip), Request(s.slot.nextId, step.ctx, false, true), id);
    } else if IsExit(step) {
      WithoutFind(s.slot.Queue(s.clients[id].vip), step.id, id);
    }
  }

  lemma PrepareBares(s: Sys, step: Step, id: nat)
    requires Inv(s) && Bare(Prepare(s, step).sys, id)
    ensures Bare(s, id) && s.clients[id].vip == Prepare(s, step).sys.clients[id].vip
  {
    if id in s.clients {
      assert ClientOk(s.clients[id].phase, Entry(s, id), id in s.sent);
      if !IsAbout(step, id) {
        OthersUntouched(s, step, id);
      }
    }
  }

  lemma PrepareKeepsLosses(s: Sys, step: Step, log: seq<Event>)
    requires Inv(s) && LossesAreLogged(s, log)
    ensures LossesAreLogged(Prepare(s, step).sys, log)
  {
    var s' := Prepare(s, step).sys;
    forall id: nat | Bare(s', id) ensures Drop(id, s'.clients[id].vip) in log {
      PrepareBares(s, step, id);
    }
  }

  lemma FinishKeepsLosses(p: Prep, log: seq<Event>)
    requires Inv(p.sys) && LossesAreLogged(p.sys, log)
    ensures LossesAreLogged(Finish(p).0, log + Finish(p).1)
  {
    if p.dispatch {
      RunDispatchKeepsInv(p.sys);
      var (s', events) := RunDispatch(p.sys);
      forall id: nat | Bare(s', id) ensures Drop(id, s'.clients[id].vip) in log + Finish(p).1
      {
        var v := s'.clients[id].vip;
        assert EntryEffect(Find(p.sys.slot.Queue(v), id), Find(s'.slot.Queue(v), id), id, v, events, Live(p.sys));
      }
    }
  }

  lemma {:induction false} RunLogsLosses(s: Sys, steps: seq<Step>)
    requires Inv(s) && LossesAreLogged(s, [])
    ensures LossesAreLogged(Exec(s, steps).0, Exec(s, steps).1)
  {
    if steps != [] {
      var before, last := steps[..|steps| - 1], steps[|steps| - 1];
      RunLogsLosses(s, before);
      RunKeepsInv(s, before);
      var (m, log) := Exec(s, before);
      PrepareKeepsLosses(m, last, log);
      PrepareKeepsInv(m, last);
      FinishKeepsLosses(Prepare(m, last), log);
    }
  }

  /** A request whose send failed is gone for good. */
  ghost predicate DroppedAreGone(s: Sys, log: seq<Event>) {
    forall id: nat, v: bool :: Drop(id, v) in log ==> id < s.slot.nextId && Find(s.slot.Queue(v), id).None?
  }

  lemma PrepareKeepsGone(s: Sys, step: Step, log: seq<Event>)
    requires Inv(s) && DroppedAreGone(s, log)
    ensures DroppedAreGone(Prepare(s, step).sys, log)
  {
    var s' := Prepare(s, step).sys;
    forall id: nat, v: bool | Drop(id, v) in log ensures id < s'.slot.nextId && Find(s'.slot.Queue(v), id).None? {
      PrepareQueues(s, step, v, id);
    }
  }

  lemma QuitIsNoDrop(s: Sys, step: Step)
    ensures forall i :: 0 <= i < |Prepare(s, step).quit| ==> Prepare(s, step).quit[i].Quit?
  {}

  lemma FinishKeepsGone(p: Prep, log: seq<Event>)
    requires Inv(p.sys) && DroppedAreGone(p.sys, log)
    requires forall i :: 0 <= i < |p.quit| ==> p.quit[i].Quit?
    ensures DroppedAreGone(Finish(p).0, log + Finish(p).1)
  {
    if p.dispatch {
      RunDispatchKeepsInv(p.sys);
      var (s', events) := RunDispatch(p.sys);
      forall id: nat, v: bool | Drop(id, v) in log + Finish(p).1
        ensures id < s'.slot.nextId && Find(s'.slot.Queue(v), id).None?
      {
        assert EntryEffect(Find(p.sys.slot.Queue(v), id), Find(s'.slot.Queue(v), id), id, v, events, Live(p.sys));
        FindIsMember(p.sys.slot.Queue(v), id);
      }
    }
  }

  lemma {:induction false} RunKeepsGone(s: Sys, steps: seq<Step>)
    requires Inv(s)
    ensures DroppedAreGone(Exec(s, steps).0, Exec(s, steps).1)
  {
    if steps != [] {
      var before, last := steps[..|steps| - 1], steps[|steps| - 1];
      RunKeepsGone(s, before);
      RunKeepsInv(s, before);
      var (m, log) := Exec(s, before);
      PrepareKeepsGone(m, last, log);
      PrepareKeepsInv(m, last);
      QuitIsNoDrop(m, last);
      FinishKeepsGone(Prepare(m, last), log);
    }
  }

  /** Ownership in every run, limit changes included: ids are unique across the queues, an entry
      is dispatched exactly when its sender was taken (so the branch that discards a waiting
      entry without a sender never runs), a client awaiting its grant always has an entry (so
      its sender is never dropped unsent), and a guard owns a running entry if and only if no
      failed send removed that entry before the timeout branch looked. */
  lemma GuardOwnership(maxInflight: nat, maxContext: nat, steps: seq<Step>)
    ensures var (s, log) := Exec(Init(maxInflight, maxContext), steps);
            && Good(s.slot)
            && (forall id: nat :: In(s, id, Pending) ==>
                Entry(s, id).Some? && (id in s.sent <==> Running(Entry(s, id))))
            && (forall id: nat :: In(s, id, Guarded) ==>
                  && (Running(Entry(s, id)) <==> Drop(id, s.clients[id].vip) !in log)
                  && (!Running(Entry(s, id)) ==> Entry(s, id).None? && id !in s.sent))
  {
    var s0 := Init(maxInflight, maxContext);
    InitIsSteady(maxInflight, maxContext);
    RunKeepsInv(s0, steps);
    RunLogsLosses(s0, steps);
    RunKeepsGone(s0, steps);
    var s := Exec(s0, steps).0;
    forall id: nat | In(s, id, Pending) || In(s, id, Guarded)
      ensures ClientOk(s.clients[id].phase, Entry(s, id), id in s.sent)
    {
    }
  }

  /** A guard that owns no entry. */
  predicate Unbacked(s: Sys, id: nat) { In(s, id, Guarded) && Entry(s, id).None? }

  lemma PrepareUnbacked(s: Sys, step: Step, id: nat)
    requires Inv(s) && id in s.clients
    ensures Unbacked(Prepare(s, step).sys, id) <==>
            (Unbacked(s, id) && step != Release(id))
                || (step == TimeoutCheck(id) && In(s, id, Expired) && Entry(s, id).None?)
  {
    assert ClientOk(s.clients[id].phase, Entry(s, id), id in s.sent);
    if !IsAbout(step, id) {
      OthersUntouched(s, step, id);
    }
  }

  lemma FinishUnbacked(p: Prep, id: nat)
    requires Inv(p.sys) && id in p.sys.clients
    ensures Unbacked(Finish(p).0, id) <==> Unbacked(p.sys, id)
  {
    if p.dispatch {
      RunDispatchKeepsInv(p.sys);
      var (s', events) := RunDispatch(p.sys);
      var v := p.sys.clients[id].vip;
      assert ClientOk(p.sys.clients[id].phase, Entry(p.sys, id), id in p.sys.sent);
      assert EntryEffect(Find(p.sys.slot.Queue(v), id), Find(s'.slot.Queue(v), id), id, v, events, Live(p.sys));
    }
  }

  /** Step by step: a guard without an entry comes from the timeout branch that finds no entry, from
      no other step, and goes with its release. */
  lemma UnbackedGuardIff(s: Sys, step: Step, id: nat)
    requires Inv(s) && id in s.clients
    ensures Unbacked(Apply(s, step).0, id) <==>
            (Unbacked(s, id) && step != Release(id))
                || (step == TimeoutCheck(id) && In(s, id, Expired) && Entry(s, id).None?)
  {
    PrepareKeepsInv(s, step);
    PrepareUnbacked(s, step, id);
    if id in Prepare(s, step).sys.clients { FinishUnbacked(Prepare(s, step), id); }
  }

  // ----- guards and capacity

  function RunningIds(q: seq<Request>): set<nat> {
    set r | r in q && r.dispatched :: r.id
  }

  lemma {:induction false} RunningIdsCount(q: seq<Request>)
    requires Sorted(q)
    ensures |RunningIds(q)| == Total(q, RunningOne)
    ensures forall id :: id in RunningIds(q) <==> Running(Find(q, id))
  {
    if q == [] {
      assert RunningIds(q) == {};
    } else {
      var tail := q[1..];
      assert q == [q[0]] + tail;
      RunningIdsCount(tail);
      HeadIsUnique(q);
      RunningIdsCons(q[0], tail);
      forall id ensures id in RunningIds(q) <==> Running(Find(q, id)) {
        assert Find(q, id) == if q[0].id == id then Some(q[0]) else Find(tail, id);
      }
    }
  }

  lemma RunningIdsCons(r: Request, tail: seq<Request>)
    ensures RunningIds([r] + tail) == RunningIds(tail) + (if r.dispatched then {r.id} else {})
  {
    var q := [r] + tail;
    forall i | 0 <= i < |tail| ensures q[i + 1] == tail[i] {}
    assert q[0] == r;
  }

  /** The clients that hold a guard backed by an entry. */
  function BackedGuards(s: Sys): set<nat> {
    set id | id in s.clients && s.clients[id].phase.Guarded? && Entry(s, id).Some?
  }

  lemma SubsetIsSmaller(a: set<nat>, b: set<nat>)
    requires a <= b
    ensures |a| <= |b|
  {
    if a != {} {
      var x :| x in a;
      SubsetIsSmaller(a - {x}, b - {x});
    }
  }

  lemma BackedGuardsAreRunning(s: Sys)
    requires Inv(s)
    ensures |BackedGuards(s)| <= Inflight(s.slot)
  {
    var vip, normal := RunningIds(s.slot.vip), RunningIds(s.slot.normal);
    RunningIdsCount(s.slot.vip);
    RunningIdsCount(s.slot.normal);
    assert vip !! normal;
    forall id | id in BackedGuards(s) ensures id in vip + normal {
      assert ClientOk(s.clients[id].phase, Entry(s, id), id in s.sent);
    }
    SubsetIsSmaller(BackedGuards(s), vip + normal);
    assert |vip + normal| == |vip| + |normal|;
  }

  /** Guards backed by an entry never outnumber the in-flight limit. */
  lemma BackedGuardsFit(maxInflight: nat, maxContext: nat, steps: seq<Step>)
    requires LimitsFixed(steps) && maxInflight > 0
    ensures |BackedGuards(Exec(Init(maxInflight, maxContext), steps).0)| <= maxInflight
  {
    CapacityInEveryRun(maxInflight, maxContext, steps);
    InitIsSteady(maxInflight, maxContext);
    RunKeepsInv(Init(maxInflight, maxContext), steps);
    BackedGuardsAreRunning(Exec(Init(maxInflight, maxContext), steps).0);
  }
}
