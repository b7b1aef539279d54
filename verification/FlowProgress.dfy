/**
 Progress whatever the history of the limits: every step that dispatches fills the slot, and
 it grants something exactly when there is room for a waiting request whose client is still
 there. Loads and limits are spelled out here, so that nothing rests on the dispatcher's own
 notion of what fits.
 */
module FlowProgress {

  import opened Wrappers
  import opened FlowSlots
  import opened FlowDispatch
  import opened FlowOrder
  import opened FlowSystem
  import opened FlowTheorems

  /** The slot is full, or every waiting entry would exceed the budget beside what is running. */
  ghost predicate Filled(s: Slot) {
    || (s.maxInflight > 0 && Inflight(s) >= s.maxInflight)
    || (forall v: bool, i: nat :: i < |s.Queue(v)| && !s.Queue(v)[i].dispatched ==>
          s.maxContext > 0 && UsedContext(s) + s.Queue(v)[i].ctx > s.maxContext)
  }

  /** Some waiting entry of a live client fits beside what is running, and the slot is not full. */
  ghost predicate HasRoom(s: Slot, live: set<nat>) {
    && (s.maxInflight == 0 || Inflight(s) < s.maxInflight)
    && exists v: bool, i: nat ::
         && i < |s.Queue(v)| && !s.Queue(v)[i].dispatched && s.Queue(v)[i].id in live
         && (s.maxContext == 0 || UsedContext(s) + s.Queue(v)[i].ctx <= s.maxContext)
  }

  lemma RestIsFilled(s: Slot)
    requires AtRest(s)
    ensures Filled(s)
  {
    if !Full(s) {
      forall v: bool, i: nat | i < |s.Queue(v)| && !s.Queue(v)[i].dispatched
        ensures s.maxContext > 0 && UsedContext(s) + s.Queue(v)[i].ctx > s.maxContext
      {
        assert NoneFits(s.Queue(v), UsedContext(s), s.maxContext);
      }
    }
  }

  lemma {:induction false} GrantedWaits(q: seq<Request>, v: bool, used: nat, maxContext: nat, live: set<nat>)
    returns (i: nat)
    requires ScanQueue(q, v, used, maxContext, live).granted
    ensures i < |q| && !q[i].dispatched && q[i].id in live && Fits(q[i], used, maxContext)
  {
    if !q[0].dispatched && q[0].grant && Fits(q[0], used, maxContext) && q[0].id in live {
      i := 0;
    } else {
      i := GrantedWaits(q[1..], v, used, maxContext, live);
      i := i + 1;
    }
  }

  lemma GrantNeedsRoom(s: Slot, live: set<nat>)
    requires DispatchOnce(s, live).granted
    ensures HasRoom(s, live)
  {
    var used := UsedContext(s);
    var v := ScanQueue(s.vip, true, used, s.maxContext, live).granted;
    var i := GrantedWaits(s.Queue(v), v, used, s.maxContext, live);
    assert s.Queue(v)[i].id in live;
  }

  lemma NoGrantNoRoom(s: Slot, live: set<nat>)
    requires Good(s) && !DispatchOnce(s, live).granted
    ensures !HasRoom(s, live)
  {
    if !Full(s) {
      UngrantedScan(s.vip, true, UsedContext(s), s.maxContext, live);
      UngrantedScan(s.normal, false, UsedContext(s), s.maxContext, live);
      assert NoLiveFits(s.Queue(true), UsedContext(s), s.maxContext, live);
      assert NoLiveFits(s.Queue(false), UsedContext(s), s.maxContext, live);
    }
  }

  /** A dispatch fills the slot from any state, and grants something exactly when there is room. */
  lemma DispatchFills(s: Slot, live: set<nat>)
    requires Good(s)
    ensures Filled(Dispatch(s, live).0)
    ensures HasGrant(Dispatch(s, live).1) <==> HasRoom(s, live)
  {
    DispatchLimits(s, live);
    RestIsFilled(Dispatch(s, live).0);
    DispatchUnfold(s, live);
    OnceLimits(s, live);
    var o := DispatchOnce(s, live);
    if o.granted {
      GrantNeedsRoom(s, live);
      var k :| 0 <= k < |o.events| && o.events[k].Grant?;
      assert Dispatch(s, live).1[k].Grant?;
    } else {
      NoGrantNoRoom(s, live);
    }
  }

  // ----- which request is granted

  /** This entry waits, its client is there and it fits. */
  predicate Grantable(s: Slot, r: Request, live: set<nat>) {
    && !r.dispatched && r.id in live
    && (s.maxContext == 0 || UsedContext(s) + r.ctx <= s.maxContext)
  }

  /** The request may be granted in this state, none before it in its queue may, and for a normal one
      no VIP request may. */
  ghost predicate FirstGrantable(s: Slot, id: nat, v: bool, live: set<nat>) {
    && (s.maxInflight == 0 || Inflight(s) < s.maxInflight)
    && (!v ==> forall i :: 0 <= i < |s.vip| ==> !Grantable(s, s.vip[i], live))
    && exists i: nat ::
         && i < |s.Queue(v)| && s.Queue(v)[i].id == id && Grantable(s, s.Queue(v)[i], live)
         && forall j :: 0 <= j < i ==> !Grantable(s, s.Queue(v)[j], live)
  }

  lemma {:induction false} ScanGrantsFirst(q: seq<Request>, v: bool, used: nat, maxContext: nat, live: set<nat>)
    returns (i: nat)
    requires Flags(q) && ScanQueue(q, v, used, maxContext, live).granted
    ensures var events := ScanQueue(q, v, used, maxContext, live).events;
            events != [] && i < |q| && events[|events| - 1] == Grant(q[i].id, v)
    ensures !q[i].dispatched && q[i].id in live && Fits(q[i], used, maxContext)
    ensures forall j :: 0 <= j < i && !q[j].dispatched && q[j].id in live ==> !Fits(q[j], used, maxContext)
  {
    if !q[0].dispatched && q[0].grant && Fits(q[0], used, maxContext) && q[0].id in live {
      i := 0;
    } else {
      i := ScanGrantsFirst(q[1..], v, used, maxContext, live);
      assert forall j :: 0 < j < |q| ==> q[j] == q[1..][j - 1];
      i := i + 1;
    }
  }

  lemma OnceGrantsFirst(s: Slot, live: set<nat>)
    requires Good(s) && DispatchOnce(s, live).granted
    ensures var e := DispatchOnce(s, live).events;
            e != [] && FirstGrantable(s, e[|e| - 1].id, e[|e| - 1].vip, live)
  {
    var used := UsedContext(s);
    var v := ScanQueue(s.vip, true, used, s.maxContext, live).granted;
    var i := ScanGrantsFirst(s.Queue(v), v, used, s.maxContext, live);
    if !v { UngrantedScan(s.vip, true, used, s.maxContext, live); }
    assert Grantable(s, s.Queue(v)[i], live);
    forall j | 0 <= j < i ensures !Grantable(s, s.Queue(v)[j], live) {}
  }

  /** Every grant, whatever the budget, is made in a slot state reached by the events before it, to the
      first request of its queue that may be granted there, VIP requests first. */
  lemma {:induction false} GrantIsFirst(s: Slot, live: set<nat>, k: nat) returns (m: Slot, j: nat)
    requires Good(s) && k < |Dispatch(s, live).1| && Dispatch(s, live).1[k].Grant?
    ensures j <= k && SlotEffect(s, m, Dispatch(s, live).1[..j], live)
    ensures forall i :: j <= i < k ==> Dispatch(s, live).1[i].Drop?
    ensures FirstGrantable(m, Dispatch(s, live).1[k].id, Dispatch(s, live).1[k].vip, live)
    decreases Waiters(s)
  {
    OnceGood(s, live);
    OnceShape(s, live);
    DispatchUnfold(s, live);
    var o := DispatchOnce(s, live);
    var events := Dispatch(s, live).1;
    if k < |o.events| {
      m, j := s, 0;
      assert k == |o.events| - 1;
      OnceGrantsFirst(s, live);
    } else {
      var rest := Dispatch(o.slot, live).1;
      m, j := GrantIsFirst(o.slot, live, k - |o.events|);
      OnceEffect(s, live);
      EffectCompose(s, o.slot, m, o.events, rest[..j], live);
      LaterEvents(o.events, rest, events, j, k);
      j := |o.events| + j;
    }
  }

  lemma LaterEvents(first: seq<Event>, rest: seq<Event>, events: seq<Event>, j: nat, k: nat)
    requires events == first + rest && |first| <= k < |events| && j <= k - |first|
    requires forall i :: j <= i < k - |first| ==> rest[i].Drop?
    ensures events[..|first| + j] == first + rest[..j]
    ensures forall i :: |first| + j <= i < k ==> events[i].Drop?
  {
    forall i | |first| + j <= i < k ensures events[i].Drop? { assert events[i] == rest[i - |first|]; }
  }

  // ----- the steps that dispatch

  /** The periodic dispatch fills the slot, also one whose limits were raised since the last dispatch. */
  lemma PeriodicFills(s: Sys)
    requires Inv(s)
    ensures Filled(Apply(s, Periodic).0.slot)
    ensures HasGrant(Apply(s, Periodic).1) <==> HasRoom(s.slot, Live(s))
  {
    DispatchFills(s.slot, Live(s));
    assert [] + Dispatch(s.slot, Live(s)).1 == Dispatch(s.slot, Live(s)).1;
  }

  /** A request larger than the whole budget is turned away and leaves no trace; any other is queued last
      in its queue, and the slot is filled. */
  lemma EnqueueFills(s: Sys, ctx: nat, vip: bool, key: Option<string>)
    requires Inv(s)
    ensures var step := Enqueue(ctx, vip, key);
            if s.slot.maxContext > 0 && ctx > s.slot.maxContext then Apply(s, step) == (s, [])
            else
              var id := s.slot.nextId;
              var queued := s.slot.WithQueue(vip, s.slot.Queue(vip) + [Request(id, ctx, false, true)]);
              && Filled(Apply(s, step).0.slot)
              && (HasGrant(Apply(s, step).1) <==> HasRoom(queued, Live(s) + {id}))
  {
    if !Oversized(s.slot, ctx) {
      var p := Push(s, ctx, vip, key);
      var queued := s.slot.WithQueue(vip, s.slot.Queue(vip) + [Request(s.slot.nextId, ctx, false, true)]);
      PushKeepsInv(s, ctx, vip, key);
      DispatchFills(p.slot, Live(p));
      assert [] + Dispatch(p.slot, Live(p)).1 == Dispatch(p.slot, Live(p)).1;
      assert Live(p) == Live(s) + {s.slot.nextId};
      SameRoom(p.slot, queued, Live(p));
    }
  }

  lemma SameRoom(a: Slot, b: Slot, live: set<nat>)
    requires a == b.(nextId := a.nextId)
    ensures HasRoom(a, live) <==> HasRoom(b, live)
  {
    assert forall v: bool :: a.Queue(v) == b.Queue(v);
  }

  /** The step takes an entry out of a queue and dispatches into the freed place. */
  predicate Frees(s: Sys, step: Step) {
    || (step.Release? && In(s, step.id, Guarded)) || (step.Cleanup? && In(s, step.id, Cancelling))
  }

  lemma LeaveFills(s: Sys, id: nat, phase: Phase, quit: seq<Event>)
    requires Inv(s) && id in s.clients && (phase.Released? || phase.Done?) && id !in Live(s)
    requires forall i :: 0 <= i < |quit| ==> quit[i].Quit?
    ensures var (e, events) := Finish(Prep(Leave(s, id, phase), quit, true));
            && Filled(e.slot)
            && (HasGrant(events) <==> HasRoom(LeaveSlot(s.slot, id, s.clients[id].vip), Live(s)))
  {
    var l := Leave(s, id, phase);
    LeaveKeepsInv(s, id, phase);
    DispatchFills(l.slot, Live(l));
    assert Live(l) == Live(s);
    QuitGrantsNothing(quit, Dispatch(l.slot, Live(l)).1);
  }

  /** A release, and the clean-up of a cancelled request, that finds its entry fills the slot. */
  lemma ExitFills(s: Sys, step: Step)
    requires Inv(s) && Frees(s, step) && Entry(s, step.id).Some?
    ensures var v := s.clients[step.id].vip;
            var freed := s.slot.WithQueue(v, Without(s.slot.Queue(v), step.id));
            && Filled(Apply(s, step).0.slot)
            && (HasGrant(Apply(s, step).1) <==> HasRoom(freed, Live(s)))
  {
    LeaveFills(s, step.id, if step.Release? then Released else Done, GiveUp(s, step.id));
  }

  lemma QuitGrantsNothing(quit: seq<Event>, events: seq<Event>)
    requires forall i :: 0 <= i < |quit| ==> quit[i].Quit?
    ensures HasGrant(quit + events) <==> HasGrant(events)
  {
    var all := quit + events;
    if HasGrant(all) {
      var k :| 0 <= k < |all| && all[k].Grant?;
      assert events[k - |quit|].Grant?;
    }
    if HasGrant(events) {
      var k :| 0 <= k < |events| && events[k].Grant?;
      assert all[|quit| + k].Grant?;
    }
  }

  // ----- over runs

  /** The limits last given to the slot. */
  function LimitsGiven(maxInflight: nat, maxContext: nat, steps: seq<Step>): (nat, nat) {
    if steps == [] then (maxInflight, maxContext)
    else
      var last := steps[|steps| - 1];
      if last.SetLimits? then (last.maxInflight, last.maxContext)
      else LimitsGiven(maxInflight, maxContext, steps[..|steps| - 1])
  }

  lemma StepKeepsLimits(s: Sys, step: Step)
    ensures var e := Apply(s, step).0.slot;
            if step.SetLimits? then e.maxInflight == step.maxInflight && e.maxContext == step.maxContext
            else e.maxInflight == s.slot.maxInflight && e.maxContext == s.slot.maxContext
  {
    var p := Prepare(s, step);
    DispatchLimits(p.sys.slot, Live(p.sys));
  }

  /** The limits in force are the ones last given, whatever else ran. */
  lemma {:induction false} LimitsInForce(maxInflight: nat, maxContext: nat, steps: seq<Step>)
    ensures var slot := Exec(Init(maxInflight, maxContext), steps).0.slot;
            (slot.maxInflight, slot.maxContext) == LimitsGiven(maxInflight, maxContext, steps)
    decreases |steps|
  {
    if steps != [] {
      var before := steps[..|steps| - 1];
      LimitsInForce(maxInflight, maxContext, before);
      StepKeepsLimits(Exec(Init(maxInflight, maxContext), before).0, steps[|steps| - 1]);
    }
  }

  /** So in every run, with the limits changed at any time, a periodic dispatch leaves nothing waiting that
      would fit the limits last given. */
  lemma PeriodicFillsInEveryRun(maxInflight: nat, maxContext: nat, steps: seq<Step>)
    ensures var slot := Exec(Init(maxInflight, maxContext), steps + [Periodic]).0.slot;
            && Filled(slot)
            && (slot.maxInflight, slot.maxContext) == LimitsGiven(maxInflight, maxContext, steps)
  {
    var s := Init(maxInflight, maxContext);
    assert (steps + [Periodic])[..|steps|] == steps;
    InitIsSteady(maxInflight, maxContext);
    RunKeepsInv(s, steps);
    PeriodicFills(Exec(s, steps).0);
    LimitsInForce(maxInflight, maxContext, steps + [Periodic]);
  }

  // ----- what a run knows of its requests

  /** The request was asked for like this. */
  datatype Asked = Asked(ctx: nat, vip: bool, key: Option<string>)

  /** The requests accepted so far, in the order of their ids. */
  function Accepted(maxInflight: nat, maxContext: nat, steps: seq<Step>): seq<Asked> {
    if steps == [] then []
    else
      var before, last := steps[..|steps| - 1], steps[|steps| - 1];
      var budget := LimitsGiven(maxInflight, maxContext, before).1;
      Accepted(maxInflight, maxContext, before) +
      if last.Enqueue? && (budget == 0 || last.ctx <= budget) then [Asked(last.ctx, last.vip, last.key)] else []
  }

  /** Client and entry of request `id` are what was asked for. */
  ghost predicate AsAsked(s: Sys, asked: seq<Asked>, id: nat) {
    id in s.clients && id < |asked| ==>
      && s.clients[id].vip == asked[id].vip && s.clients[id].key == asked[id].key
      && (Entry(s, id).Some? ==> Entry(s, id).value.ctx == asked[id].ctx)
  }

  lemma PushAsAsked(s: Sys, ctx: nat, vip: bool, key: Option<string>, asked: seq<Asked>, id: nat)
    requires Inv(s) && AsAsked(s, asked, id) && |asked| == s.slot.nextId
    ensures AsAsked(Push(s, ctx, vip, key), asked + [Asked(ctx, vip, key)], id)
  {
    var e := Push(s, ctx, vip, key);
    if id in e.clients { PushFind(s.slot, ctx, vip, e.clients[id].vip, id); }
  }

  lemma LeaveAsAsked(s: Sys, x: nat, phase: Phase, asked: seq<Asked>, id: nat)
    requires Inv(s) && AsAsked(s, asked, id) && x in s.clients
    ensures AsAsked(Leave(s, x, phase), asked, id) && Leave(s, x, phase).slot.nextId == s.slot.nextId
  {
    LeaveIsGood(s.slot, x, s.clients[x].vip);
  }

  lemma MoveAsAsked(s: Sys, x: nat, phase: Phase, asked: seq<Asked>, id: nat)
    requires AsAsked(s, asked, id) && x in s.clients
    ensures AsAsked(Move(s, x, phase), asked, id)
  {}

  lemma ExitAsAsked(s: Sys, step: Step, asked: seq<Asked>, id: nat)
    requires Inv(s) && AsAsked(s, asked, id) && IsExit(step)
    ensures AsAsked(Prepare(s, step).sys, asked, id) && Prepare(s, step).sys.slot.nextId == s.slot.nextId
  {
    var p, x := Prepare(s, step), step.id;
    if p.sys != s {
      var phase := p.sys.clients[x].phase;
      LeaveAsAsked(s, x, phase, asked, id);
      MoveAsAsked(s, x, phase, asked, id);
      assert p.sys == Leave(s, x, phase) || p.sys == Move(s, x, phase);
    }
  }

  lemma PrepareAsAsked(s: Sys, step: Step, asked: seq<Asked>, more: seq<Asked>, id: nat)
    requires Inv(s) && AsAsked(s, asked, id) && |asked| == s.slot.nextId
    requires more == if step.Enqueue? && !(s.slot.maxContext > 0 && step.ctx > s.slot.maxContext)
                     then [Asked(step.ctx, step.vip, step.key)] else []
    ensures AsAsked(Prepare(s, step).sys, asked + more, id)
    ensures |asked + more| == Prepare(s, step).sys.slot.nextId
  {
    if step.Enqueue? && more != [] {
      PushAsAsked(s, step.ctx, step.vip, step.key, asked, id);
    } else {
      assert asked + more == asked;
      if IsExit(step) { ExitAsAsked(s, step, asked, id); }
    }
  }

  lemma FinishAsAsked(p: Prep, asked: seq<Asked>, id: nat)
    requires Inv(p.sys) && AsAsked(p.sys, asked, id)
    ensures AsAsked(Finish(p).0, asked, id) && Finish(p).0.slot.nextId == p.sys.slot.nextId
  {
    var s, e := p.sys, Finish(p).0;
    DispatchEffect(s.slot, Live(s));
    if p.dispatch && id in s.clients {
      var v := s.clients[id].vip;
      var events := Dispatch(s.slot, Live(s)).1;
      assert EntryEffect(Find(s.slot.Queue(v), id), Find(e.slot.Queue(v), id), id, v, events, Live(s));
    }
  }

  /** In every run ids are given in the order of acceptance, and every queued request has the context, the
      queue and the key it asked for. */
  lemma {:induction false} RequestsAreAsAsked(maxInflight: nat, maxContext: nat, steps: seq<Step>, id: nat)
    ensures var s := Exec(Init(maxInflight, maxContext), steps).0;
            && s.slot.nextId == |Accepted(maxInflight, maxContext, steps)|
            && AsAsked(s, Accepted(maxInflight, maxContext, steps), id)
    decreases |steps|
  {
    var init := Init(maxInflight, maxContext);
    if steps != [] {
      var before, last := steps[..|steps| - 1], steps[|steps| - 1];
      var s := Exec(init, before).0;
      RequestsAreAsAsked(maxInflight, maxContext, before, id);
      InitIsSteady(maxInflight, maxContext);
      RunKeepsInv(init, before);
      LimitsInForce(maxInflight, maxContext, before);
      var asked := Accepted(maxInflight, maxContext, before);
      var more := if last.Enqueue? && !(s.slot.maxContext > 0 && last.ctx > s.slot.maxContext)
                  then [Asked(last.ctx, last.vip, last.key)] else [];
      PrepareAsAsked(s, last, asked, more, id);
      PrepareKeepsInv(s, last);
      FinishAsAsked(Prepare(s, last), asked + more, id);
    }
  }
}
