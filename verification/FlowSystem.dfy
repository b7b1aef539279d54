/**
 A slot together with the clients that use it.  Every acquire call is a small state
 machine; each step below is one critical section of the source (or the death of a
 oneshot receiver), and runs interleave the steps of any number of clients.
 */
module FlowSystem {

  import opened Wrappers
  import opened FlowSlots
  import opened FlowDispatch

  /** Where one acquire call stands. The receiver lives in the first two phases only. */
  datatype Phase =
    | Enqueued    // entry pushed, reverse index not yet written
    | Pending     // awaiting the grant
    | Expired     // timer fired: receiver dropped, lock not yet taken
    | Cancelling  // future dropped: receiver dropped, cleanup not yet run
    | Guarded     // holds a guard
    | TimedOut    // entry removed by the timeout branch, index reference still there
    | Released    // guard's entry removed, index reference still there
    | Done

  datatype Client = Client(vip: bool, key: Option<string>, phase: Phase)

  /** `sent` holds the requests whose grant was delivered to a live receiver. */
  datatype Sys = Sys(slot: Slot, clients: map<nat, Client>, sent: set<nat>)

  function Live(s: Sys): set<nat> {
    set id | id in s.clients && (s.clients[id].phase.Enqueued? || s.clients[id].phase.Pending?)
  }

  function Entry(s: Sys, id: nat): Option<Request>
    requires id in s.clients
  {
    Find(s.slot.Queue(s.clients[id].vip), id)
  }

  datatype Step =
    | Enqueue(ctx: nat, vip: bool, key: Option<string>)
    | Register(id: nat)
    | Receive(id: nat)
    | Expire(id: nat)
    | Cancel(id: nat)
    | TimeoutCheck(id: nat)
    | Forget(id: nat)
    | Cleanup(id: nat)
    | Release(id: nat)
    | Unregister(id: nat)
    | Periodic
    | SetLimits(maxInflight: nat, maxContext: nat)

  function Init(maxInflight: nat, maxContext: nat): Sys {
    Sys(Slot(maxInflight, maxContext, [], [], 0), map[], {})
  }

  // ----- the steps

  /** Removes the first entry with this id. */
  function Without(q: seq<Request>, id: nat): seq<Request> {
    if q == [] then []
    else if q[0].id == id then q[1..]
    else [q[0]] + Without(q[1..], id)
  }

  predicate In(s: Sys, id: nat, phase: Phase) {
    id in s.clients && s.clients[id].phase == phase
  }

  function Move(s: Sys, id: nat, phase: Phase): Sys
    requires id in s.clients
  {
    s.(clients := s.clients[id := s.clients[id].(phase := phase)])
  }

  function LeaveSlot(s: Slot, id: nat, vip: bool): Slot {
    s.WithQueue(vip, Without(s.Queue(vip), id))
  }

  function Leave(s: Sys, id: nat, phase: Phase): Sys
    requires id in s.clients
  {
    Move(s, id, phase).(slot := LeaveSlot(s.slot, id, s.clients[id].vip))
  }

  function Delivered(events: seq<Event>): set<nat> {
    set k | 0 <= k < |events| && events[k].Grant? :: events[k].id
  }

  function RunDispatch(s: Sys): (Sys, seq<Event>) {
    var (slot, events) := Dispatch(s.slot, Live(s));
    (s.(slot := slot, sent := s.sent + Delivered(events)), events)
  }

  predicate Oversized(slot: Slot, ctx: nat) { slot.maxContext > 0 && ctx > slot.maxContext }

  function PushSlot(s: Slot, ctx: nat, vip: bool): Slot {
    s.WithQueue(vip, s.Queue(vip) + [Request(s.nextId, ctx, false, true)]).(nextId := s.nextId + 1)
  }

  function Push(s: Sys, ctx: nat, vip: bool, key: Option<string>): Sys {
    s.(slot := PushSlot(s.slot, ctx, vip), clients := s.clients[s.slot.nextId := Client(vip, key, Enqueued)])
  }

  /** What a step does before it hands over to the dispatcher, if it does. */
  datatype Prep = Prep(sys: Sys, quit: seq<Event>, dispatch: bool)

  /** A client takes its own entry out; giving up a place in the line is an event. */
  function GiveUp(s: Sys, id: nat): seq<Event>
    requires id in s.clients
  {
    if Waiting(Entry(s, id)) then [Quit(id, s.clients[id].vip)] else []
  }

  /** A step that is not possible in this state changes nothing. */
  function Prepare(s: Sys, step: Step): Prep {
    match step
    case Enqueue(ctx, vip, key) =>
      if Oversized(s.slot, ctx) then Prep(s, [], false) else Prep(Push(s, ctx, vip, key), [], true)
    case Register(id) =>
      Prep(if In(s, id, Enqueued) then Move(s, id, Pending) else s, [], false)
    case Receive(id) =>
      Prep(if In(s, id, Pending) && id in s.sent then Move(s, id, Guarded) else s, [], false)
    case Expire(id) =>
      Prep(if In(s, id, Pending) then Move(s, id, Expired) else s, [], false)
    case Cancel(id) =>
      Prep(if In(s, id, Pending) then Move(s, id, Cancelling) else s, [], false)
    case TimeoutCheck(id) =>
      if !In(s, id, Expired) then Prep(s, [], false)
      else if Waiting(Entry(s, id)) then Prep(Leave(s, id, TimedOut), GiveUp(s, id), false)
      else Prep(Move(s, id, Guarded), [], false)
    case Forget(id) =>
      Prep(if In(s, id, TimedOut) then Move(s, id, Done) else s, [], false)
    case Cleanup(id) =>
      if !In(s, id, Cancelling) then Prep(s, [], false)
      else if Entry(s, id).None? then Prep(Move(s, id, Done), [], false)
      else Prep(Leave(s, id, Done), GiveUp(s, id), true)
    case Release(id) =>
      if !In(s, id, Guarded) then Prep(s, [], false)
      else if Entry(s, id).None? then Prep(Move(s, id, Released), [], false)
      else Prep(Leave(s, id, Released), GiveUp(s, id), true)
    case Unregister(id) =>
      Prep(if In(s, id, Released) then Move(s, id, Done) else s, [], false)
    case Periodic => Prep(s, [], true)
    case SetLimits(maxInflight, maxContext) =>
      Prep(s.(slot := s.slot.(maxInflight := maxInflight, maxContext := maxContext)), [], false)
  }

  function Finish(p: Prep): (Sys, seq<Event>) {
    if p.dispatch then
      var (e, events) := RunDispatch(p.sys);
      (e, p.quit + events)
    else
      (p.sys, p.quit)
  }

  function Apply(s: Sys, step: Step): (Sys, seq<Event>) {
    Finish(Prepare(s, step))
  }

  /** The four things a step can do to the queues before it dispatches. */
  lemma PrepareSlot(s: Sys, step: Step)
    ensures var p := Prepare(s, step);
            || (p.sys.slot == s.slot && p.quit == [])
            || (step.SetLimits? && p.sys.slot ==
                s.slot.(maxInflight := step.maxInflight, maxContext := step.maxContext) && p.quit == [])
            || (step.Enqueue? && p.sys.slot == PushSlot(s.slot, step.ctx, step.vip) && p.quit == [] && p.dispatch
                && !Oversized(s.slot, step.ctx))
            || (IsExit(step) && step.id in s.clients && Entry(s, step.id).Some?
                && p.sys.slot == LeaveSlot(s.slot, step.id, s.clients[step.id].vip) && p.quit == GiveUp(s, step.id)
                && (!p.dispatch ==> Waiting(Entry(s, step.id))))
  {
  }

  predicate IsExit(step: Step) { step.TimeoutCheck? || step.Cleanup? || step.Release? }

  /** A whole run and the log of everything the dispatcher did. */
  function Exec(s: Sys, steps: seq<Step>): (Sys, seq<Event>) {
    if steps == [] then (s, [])
    else
      var (m, log) := Exec(s, steps[..|steps| - 1]);
      var (e, events) := Apply(m, steps[|steps| - 1]);
      (e, log + events)
  }

  // ----- queue surgery

  lemma {:induction false} WithoutFacts(q: seq<Request>, id: nat, low: nat, bound: nat)
    requires GoodQueue(q, bound) && Above(q, low)
    ensures GoodQueue(Without(q, id), bound) && Above(Without(q, id), low)
    ensures forall x :: Find(Without(q, id), x) == if x == id then None else Find(q, x)
  {
    if q != [] {
      var tail := q[1..];
      assert forall j :: 0 <= j < |tail| ==> tail[j] == q[j + 1];
      HeadIsUnique(q);
      if q[0].id != id {
        WithoutFacts(tail, id, q[0].id + 1, bound);
        ConsIsGood(q[0], Without(tail, id), low, bound);
        assert ([q[0]] + Without(tail, id))[1..] == Without(tail, id);
      }
    }
  }

  lemma {:induction false} WithoutTotal(q: seq<Request>, id: nat, f: Request -> nat)
    requires Find(q, id).Some?
    ensures Total(Without(q, id), f) + f(Find(q, id).value) == Total(q, f)
  {
    if q[0].id != id {
      WithoutTotal(q[1..], id, f);
      assert ([q[0]] + Without(q[1..], id))[1..] == Without(q[1..], id);
    }
  }

  lemma {:induction false} FindPush(q: seq<Request>, r: Request, x: nat)
    ensures Find(q + [r], x) == if Find(q, x).Some? then Find(q, x) else if x == r.id then Some(r) else None
  {
    if q == [] {
      assert q + [r] == [r];
      assert Find([r][1..], x) == None;
    } else {
      assert (q + [r])[1..] == q[1..] + [r];
      FindPush(q[1..], r, x);
    }
  }

  // ----- who owns what

  /** How a client's phase, its queue entry and its delivered grant go together. */
  ghost predicate ClientOk(phase: Phase, e: Option<Request>, sent: bool) {
    && (e.Some? ==> (Running(e) <==> sent))
    && match phase
       case Enqueued => e.Some?
       case Pending => e.Some?
       case Expired => e.None? ==> !sent
       case Cancelling => e.None? ==> !sent
       case Guarded => Running(e) || (e.None? && !sent)
       case TimedOut => e.None?
       case Released => e.None?
       case Done => e.None?
  }

  ghost predicate Inv(s: Sys) {
    && Good(s.slot)
    && (forall id: nat :: id in s.clients <==> id < s.slot.nextId)
    && (forall id: nat :: id in s.clients ==> ClientOk(s.clients[id].phase, Entry(s, id), id in s.sent))
    && (forall v: bool, id: nat :: Find(s.slot.Queue(v), id).Some? ==> id in s.clients && s.clients[id].vip == v)
    && (forall id: nat :: id in s.sent ==> id in s.clients)
  }

  lemma DeliveredIs(events: seq<Event>, id: nat)
    ensures id in Delivered(events) <==> Grant(id, true) in events || Grant(id, false) in events
  {
    if id in Delivered(events) {
      var k :| 0 <= k < |events| && events[k].Grant? && events[k].id == id;
      assert events[k] == Grant(id, true) || events[k] == Grant(id, false);
    }
  }

  /** From `s` to `s'` this id keeps what belongs together, and gains no entry. */
  ghost predicate OwnershipKept(s: Sys, s': Sys, id: nat)
    requires s'.clients == s.clients
  {
    && (id in s'.sent ==> id in s.clients)
    && (id in s.clients ==> ClientOk(s.clients[id].phase, Entry(s', id), id in s'.sent))
    && (forall v: bool :: Find(s'.slot.Queue(v), id).Some? ==> Find(s.slot.Queue(v), id).Some?)
  }

  lemma OwnershipKeepsInv(s: Sys, s': Sys)
    requires Inv(s) && Good(s'.slot) && s'.clients == s.clients && s'.slot.nextId == s.slot.nextId
    requires forall id: nat :: OwnershipKept(s, s', id)
    ensures Inv(s')
  {
    forall id: nat | id in s'.sent ensures id in s'.clients { assert OwnershipKept(s, s', id); }
    forall id: nat | id in s'.clients ensures ClientOk(s'.clients[id].phase, Entry(s', id), id in s'.sent) {
      assert OwnershipKept(s, s', id);
    }
    forall v: bool, id: nat | Find(s'.slot.Queue(v), id).Some? ensures id in s'.clients && s'.clients[id].vip == v {
      assert OwnershipKept(s, s', id);
      assert Find(s.slot.Queue(v), id).Some?;
    }
  }

  lemma DispatchOwnership(s: Sys, id: nat)
    requires Inv(s) && SlotEffect(s.slot, RunDispatch(s).0.slot, RunDispatch(s).1, Live(s))
    ensures OwnershipKept(s, RunDispatch(s).0, id)
  {
    var (s', events) := RunDispatch(s);
    assert EntryEffect(Find(s.slot.Queue(true), id), Find(s'.slot.Queue(true), id), id, true, events, Live(s));
    assert EntryEffect(Find(s.slot.Queue(false), id), Find(s'.slot.Queue(false), id), id, false, events, Live(s));
    DeliveredIs(events, id);
    assert Grant(id, true) in events ==> Find(s.slot.Queue(true), id).Some?;
    assert Grant(id, false) in events ==> Find(s.slot.Queue(false), id).Some?;
  }

  lemma RunDispatchKeepsInv(s: Sys)
    requires Inv(s)
    ensures Inv(RunDispatch(s).0)
    ensures SlotEffect(s.slot, RunDispatch(s).0.slot, RunDispatch(s).1, Live(s))
  {
    DispatchEffect(s.slot, Live(s));
    var s' := RunDispatch(s).0;
    forall id: nat ensures OwnershipKept(s, s', id) { DispatchOwnership(s, id); }
    OwnershipKeepsInv(s, s');
  }

  lemma {:induction false} WithoutFind(q: seq<Request>, id: nat, x: nat)
    requires x != id
    ensures Find(Without(q, id), x) == Find(q, x)
  {
    if q != [] && q[0].id != id {
      WithoutFind(q[1..], id, x);
      assert ([q[0]] + Without(q[1..], id))[1..] == Without(q[1..], id);
    }
  }

  lemma LeaveIsGood(s: Slot, id: nat, vip: bool)
    requires Good(s)
    ensures Good(LeaveSlot(s, id, vip))
    ensures forall v: bool, x: nat :: Find(LeaveSlot(s, id, vip).Queue(v), x)
              == if x == id && v == vip then None else Find(s.Queue(v), x)
  {
    WithoutFacts(s.Queue(vip), id, 0, s.nextId);
    var s' := LeaveSlot(s, id, vip);
    assert forall x :: Find(s'.vip, x).None? || Find(s'.normal, x).None?;
  }

  lemma LeaveKeepsInv(s: Sys, id: nat, phase: Phase)
    requires Inv(s) && id in s.clients && (phase.TimedOut? || phase.Released? || phase.Done?)
    ensures Inv(Leave(s, id, phase))
  {
    LeaveIsGood(s.slot, id, s.clients[id].vip);
    var s' := Leave(s, id, phase);
    forall x | x in s'.clients ensures ClientOk(s'.clients[x].phase, Entry(s', x), x in s'.sent) {
      assert ClientOk(s.clients[x].phase, Entry(s, x), x in s.sent);
    }
    forall v: bool, x: nat | Find(s'.slot.Queue(v), x).Some? ensures x in s'.clients && s'.clients[x].vip == v {
      assert Find(s.slot.Queue(v), x).Some?;
    }
  }

  lemma PushFind(s: Slot, ctx: nat, vip: bool, v: bool, x: nat)
    requires Good(s)
    ensures Find(PushSlot(s, ctx, vip).Queue(v), x)
              == if x == s.nextId && v == vip then Some(Request(x, ctx, false, true)) else Find(s.Queue(v), x)
  {
    FindIsMember(s.Queue(vip), s.nextId);
    FindPush(s.Queue(v), Request(s.nextId, ctx, false, true), x);
  }

  lemma SnocIsGood(q: seq<Request>, r: Request, bound: nat)
    requires GoodQueue(q, bound) && r.id == bound && r.dispatched == !r.grant
    ensures GoodQueue(q + [r], bound + 1)
  {
  }

  lemma PushIsGood(s: Slot, ctx: nat, vip: bool)
    requires Good(s)
    ensures Good(PushSlot(s, ctx, vip))
  {
    var s' := PushSlot(s, ctx, vip);
    SnocIsGood(s.Queue(vip), Request(s.nextId, ctx, false, true), s.nextId);
    FindIsMember(s.Queue(!vip), s.nextId);
    forall x ensures Find(s'.vip, x).None? || Find(s'.normal, x).None? {
      PushFind(s, ctx, vip, true, x);
      PushFind(s, ctx, vip, false, x);
    }
  }

  lemma PushKeepsInv(s: Sys, ctx: nat, vip: bool, key: Option<string>)
    requires Inv(s)
    ensures Inv(Push(s, ctx, vip, key))
  {
    PushIsGood(s.slot, ctx, vip);
    var s' := Push(s, ctx, vip, key);
    forall x | x in s'.clients ensures ClientOk(s'.clients[x].phase, Entry(s', x), x in s'.sent) {
      PushFind(s.slot, ctx, vip, s'.clients[x].vip, x);
      if x != s.slot.nextId {
        assert ClientOk(s.clients[x].phase, Entry(s, x), x in s.sent);
      }
    }
    forall v: bool, x: nat | Find(s'.slot.Queue(v), x).Some? ensures x in s'.clients && s'.clients[x].vip == v {
      PushFind(s.slot, ctx, vip, v, x);
    }
  }

  lemma MoveKeepsInv(s: Sys, id: nat, phase: Phase)
    requires Inv(s) && id in s.clients && ClientOk(phase, Entry(s, id), id in s.sent)
    ensures Inv(Move(s, id, phase))
  {
    var s' := Move(s, id, phase);
    forall x | x in s'.clients ensures ClientOk(s'.clients[x].phase, Entry(s', x), x in s'.sent) {
      assert ClientOk(s.clients[x].phase, Entry(s, x), x in s.sent);
    }
  }

  lemma SetLimitsKeepsInv(s: Sys, maxInflight: nat, maxContext: nat)
    requires Inv(s)
    ensures Inv(s.(slot := s.slot.(maxInflight := maxInflight, maxContext := maxContext)))
  {
    var s' := s.(slot := s.slot.(maxInflight := maxInflight, maxContext := maxContext));
    assert forall v: bool :: s'.slot.Queue(v) == s.slot.Queue(v);
    forall id | id in s'.clients ensures ClientOk(s'.clients[id].phase, Entry(s', id), id in s'.sent) {
      assert ClientOk(s.clients[id].phase, Entry(s, id), id in s.sent);
    }
  }

  lemma ExitKeepsInv(s: Sys, step: Step)
    requires Inv(s) && IsExit(step)
    ensures Inv(Prepare(s, step).sys)
  {
    var id := step.id;
    if step.TimeoutCheck? && In(s, id, Expired) {
      if Waiting(Entry(s, id)) { LeaveKeepsInv(s, id, TimedOut); } else { MoveKeepsInv(s, id, Guarded); }
    } else if step.Cleanup? && In(s, id, Cancelling) {
      if Entry(s, id).None? { MoveKeepsInv(s, id, Done); } else { LeaveKeepsInv(s, id, Done); }
    } else if step.Release? && In(s, id, Guarded) {
      if Entry(s, id).None? { MoveKeepsInv(s, id, Released); } else { LeaveKeepsInv(s, id, Released); }
    }
  }

  lemma PrepareKeepsInv(s: Sys, step: Step)
    requires Inv(s)
    ensures Inv(Prepare(s, step).sys)
  {
    match step
    case Enqueue(ctx, vip, key) => PushKeepsInv(s, ctx, vip, key);
    case TimeoutCheck(_) => ExitKeepsInv(s, step);
    case Cleanup(_) => ExitKeepsInv(s, step);
    case Release(_) => ExitKeepsInv(s, step);
    case Periodic =>
    case SetLimits(maxInflight, maxContext) => SetLimitsKeepsInv(s, maxInflight, maxContext);
    case _ => MovesKeepInv(s, step);
  }

  /** The steps that only move a client to its next phase. */
  lemma MovesKeepInv(s: Sys, step: Step)
    requires Inv(s)
    requires step.Register? || step.Receive? || step.Expire? || step.Cancel? || step.Forget? || step.Unregister?
    ensures Inv(Prepare(s, step).sys)
  {
    match step
    case Register(id) => if In(s, id, Enqueued) { MoveKeepsInv(s, id, Pending); }
    case Receive(id) => if In(s, id, Pending) && id in s.sent { MoveKeepsInv(s, id, Guarded); }
    case Expire(id) => if In(s, id, Pending) { MoveKeepsInv(s, id, Expired); }
    case Cancel(id) => if In(s, id, Pending) { MoveKeepsInv(s, id, Cancelling); }
    case Forget(id) => if In(s, id, TimedOut) { MoveKeepsInv(s, id, Done); }
    case Unregister(id) => if In(s, id, Released) { MoveKeepsInv(s, id, Done); }
  }

  lemma FinishKeepsInv(p: Prep)
    requires Inv(p.sys)
    ensures Inv(Finish(p).0)
  {
    RunDispatchKeepsInv(p.sys);
  }

  /** Every step keeps the agreement between clients, entries and delivered grants. */
  lemma StepKeepsInv(s: Sys, step: Step)
    requires Inv(s)
    ensures Inv(Apply(s, step).0)
  {
    PrepareKeepsInv(s, step);
    FinishKeepsInv(Prepare(s, step));
  }

  lemma {:induction false} RunKeepsInv(s: Sys, steps: seq<Step>)
    requires Inv(s)
    ensures Inv(Exec(s, steps).0)
  {
    if steps != [] {
      RunKeepsInv(s, steps[..|steps| - 1]);
      StepKeepsInv(Exec(s, steps[..|steps| - 1]).0, steps[|steps| - 1]);
    }
  }
}
