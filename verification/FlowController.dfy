/**
 The slot as the source writes it: fields changed in place under the slot lock, with the
 loops of the dispatcher.  `live` is the set of requests whose oneshot receiver is alive.
 */
module FlowController {

  import opened Wrappers
  import opened FlowSlots
  import opened FlowOrder
  import opened FlowSystem

  class FlowControlSlot {
    var maxInflight: nat
    var maxContext: nat
    var vipQueue: seq<Request>
    var normalQueue: seq<Request>
    var nextId: nat

    ghost function View(): Slot
      reads this
    {
      Slot(maxInflight, maxContext, vipQueue, normalQueue, nextId)
    }

    constructor (maxInflight: nat, maxContext: nat)
      ensures View() == Init(maxInflight, maxContext).slot
    {
      this.maxInflight := maxInflight;
      this.maxContext := maxContext;
      vipQueue := [];
      normalQueue := [];
      nextId := 0;
    }

    method SetLimits(maxInflight: nat, maxContext: nat)
      modifies this`maxInflight, this`maxContext
      ensures View() == old(View()).(maxInflight := maxInflight, maxContext := maxContext)
    {
      this.maxInflight := maxInflight;
      this.maxContext := maxContext;
    }

    method InflightStats() returns (count: nat, ctx: nat)
      ensures count == Inflight(View()) && ctx == UsedContext(View())
    {
      count, ctx := 0, 0;
      var chain := vipQueue + normalQueue;
      TotalAppend(vipQueue, normalQueue, RunningOne);
      TotalAppend(vipQueue, normalQueue, RunningCtx);
      for i := 0 to |chain|
        invariant count + Total(chain[i..], RunningOne) == Total(chain, RunningOne)
        invariant ctx + Total(chain[i..], RunningCtx) == Total(chain, RunningCtx)
      {
        if chain[i].dispatched {
          count := count + 1;
          ctx := ctx + chain[i].ctx;
        }
        assert chain[i..][1..] == chain[i + 1..];
      }
    }

    /** Grants the first waiting entry of one queue that fits, discarding dead ones on the way. */
    method TryDispatchFitting(live: set<nat>, usedCtx: nat, v: bool) returns (granted: bool, ghost events: seq<Event>)
      modifies this`vipQueue, this`normalQueue
      ensures var t := old(ScanQueue(View().Queue(v), v, usedCtx, maxContext, live));
              && View() == old(View()).WithQueue(v, t.queue)
              && granted == t.granted && events == t.events
    {
      var queue := if v then vipQueue else normalQueue;
      var idx := 0;
      granted, events := false, [];
      ghost var goal := ScanQueue(queue, v, usedCtx, maxContext, live);
      while idx < |queue|
        invariant idx <= |queue|
        invariant View() == old(View())
        invariant goal == Resume(queue, idx, events, v, usedCtx, maxContext, live)
        decreases |queue| - idx
      {
        var req := queue[idx];
        ResumeStep(queue, idx, events, v, usedCtx, maxContext, live);
        if req.dispatched {
          idx := idx + 1;
          continue;
        }
        if !req.grant {
          queue := queue[..idx] + queue[idx + 1..];
          continue;
        }
        if maxContext > 0 && usedCtx + req.ctx > maxContext {
          idx := idx + 1;
          continue;
        }
        if req.id !in live {
          events := events + [Drop(req.id, v)];
          queue := queue[..idx] + queue[idx + 1..];
          continue;
        }
        queue := queue[idx := req.(dispatched := true, grant := false)];
        events := events + [Grant(req.id, v)];
        granted := true;
        break;
      }
      if !granted {
        assert queue[idx..] == [] && queue[..idx] + [] == queue && events + [] == events;
      }
      assert goal == Scan(queue, granted, events);
      if v {
        vipQueue := queue;
      } else {
        normalQueue := queue;
      }
    }

    /** One turn of the loop: count what is in flight, then try the VIP queue before the other. */
    method DispatchTurn(live: set<nat>) returns (granted: bool, ghost events: seq<Event>)
      modifies this`vipQueue, this`normalQueue
      ensures Outcome(View(), granted, events) == old(DispatchOnce(View(), live))
    {
      var inflight, usedCtx := InflightStats();
      if maxInflight > 0 && inflight >= maxInflight {
        return false, [];
      }
      granted, events := TryDispatchFitting(live, usedCtx, true);
      if !granted {
        ghost var more;
        granted, more := TryDispatchFitting(live, usedCtx, false);
        events := events + more;
      }
    }

    /** Fills the available capacity; ends because every grant takes one waiter. */
    method DispatchWaiting(live: set<nat>) returns (ghost events: seq<Event>)
      modifies this`vipQueue, this`normalQueue
      ensures (View(), events) == old(Dispatch(View(), live))
    {
      ghost var start := View();
      var granted := true;
      events := [];
      assert events + Dispatch(start, live).1 == Dispatch(start, live).1;
      while granted
        invariant View() == start.(vip := vipQueue, normal := normalQueue)
        invariant Dispatch(start, live) == if granted then (Dispatch(View(), live).0, events + Dispatch(View(), live).1)
                                           else (View(), events)
        decreases granted, Waiters(View())
      {
        ghost var turn;
        TurnsCompose(View(), live, events);
        OnceShrinks(View(), live);
        granted, turn := DispatchTurn(live);
        events := events + turn;
      }
    }

    /** The place of a request, as counted by walking the queues up to it; `WalkIsPosition`
        relates it to the order of grants. */
    method PositionFor(id: nat, isVip: bool) returns (ahead: nat)
      ensures ahead == (if isVip then 0 else Total(vipQueue, WaitingOne)) + Walk(View().Queue(isVip), id)
      ensures Good(View()) && Find(View().Queue(isVip), id).Some? ==> ahead == Position(View(), id, isVip)
    {
      ahead := 0;
      if !isVip {
        for i := 0 to |vipQueue|
          invariant ahead + Total(vipQueue[i..], WaitingOne) == Total(vipQueue, WaitingOne)
        {
          assert vipQueue[i..][1..] == vipQueue[i + 1..];
          if !vipQueue[i].dispatched {
            ahead := ahead + 1;
          }
        }
      }
      var queue := if isVip then vipQueue else normalQueue;
      ghost var base := ahead;
      var i := 0;
      while i < |queue| && queue[i].id != id
        invariant 0 <= i <= |queue|
        invariant ahead + Walk(queue[i..], id) == base + Walk(queue, id)
      {
        assert queue[i..][1..] == queue[i + 1..];
        if !queue[i].dispatched {
          ahead := ahead + 1;
        }
        i := i + 1;
      }
      if Good(View()) {
        WalkIsPosition(queue, id);
      }
    }

    /** The first critical section of `acquire`: reject what can never fit, otherwise queue it
        and dispatch. The new receiver is alive during that dispatch. */
    method Enqueue(ctx: nat, isVip: bool, live: set<nat>) returns (id: Option<nat>, ghost events: seq<Event>)
      modifies this`vipQueue, this`normalQueue, this`nextId
      ensures id.None? <==> Oversized(old(View()), ctx)
      ensures id.None? ==> View() == old(View()) && events == []
      ensures id.Some? ==> id.value == old(nextId)
                           && (View(), events) == old(Dispatch(PushSlot(View(), ctx, isVip), live + {nextId}))
    {
      if maxContext > 0 && ctx > maxContext {
        return None, [];
      }
      var requestId := nextId;
      nextId := nextId + 1;
      var req := Request(requestId, ctx, false, true);
      if isVip {
        vipQueue := vipQueue + [req];
      } else {
        normalQueue := normalQueue + [req];
      }
      id := Some(requestId);
      events := DispatchWaiting(live + {requestId});
    }

    /** Index of the entry with this id, or the length of the queue. */
    method PositionOf(id: nat, isVip: bool) returns (idx: nat)
      ensures var q := View().Queue(isVip);
              && idx <= |q|
              && (idx == |q| <==> Find(q, id).None?)
              && (idx < |q| ==> Find(q, id) == Some(q[idx]) && Without(q, id) == q[..idx] + q[idx + 1..])
    {
      var queue := if isVip then vipQueue else normalQueue;
      idx := 0;
      while idx < |queue| && queue[idx].id != id
        invariant idx <= |queue|
        invariant forall j :: 0 <= j < idx ==> queue[j].id != id
      {
        idx := idx + 1;
      }
      FirstIndex(queue, idx, id);
    }

    /** The timeout branch: a running or vanished entry counts as dispatched, a waiting one is
        taken out without a dispatch. */
    method TimeoutCheck(id: nat, isVip: bool) returns (alreadyDispatched: bool)
      modifies this`vipQueue, this`normalQueue
      ensures alreadyDispatched <==> !Waiting(Find(old(View()).Queue(isVip), id))
      ensures View() == if alreadyDispatched then old(View()) else LeaveSlot(old(View()), id, isVip)
    {
      var idx := PositionOf(id, isVip);
      var queue := if isVip then vipQueue else normalQueue;
      if idx == |queue| || queue[idx].dispatched {
        return true;
      }
      queue := queue[..idx] + queue[idx + 1..];
      if isVip { vipQueue := queue; } else { normalQueue := queue; }
      alreadyDispatched := false;
    }

    /** Dropping a guard or a cancelled acquire: take the entry out and refill its place. */
    method Remove(id: nat, isVip: bool, live: set<nat>) returns (ghost events: seq<Event>)
      modifies this`vipQueue, this`normalQueue
      ensures if Find(old(View()).Queue(isVip), id).None? then View() == old(View()) && events == []
              else (View(), events) == old(Dispatch(LeaveSlot(View(), id, isVip), live))
    {
      var idx := PositionOf(id, isVip);
      var queue := if isVip then vipQueue else normalQueue;
      if idx == |queue| {
        return [];
      }
      queue := queue[..idx] + queue[idx + 1..];
      if isVip { vipQueue := queue; } else { normalQueue := queue; }
      events := DispatchWaiting(live);
    }
  }

  /** What a scan that stands at `idx` will end with. */
  ghost function Resume(q: seq<Request>, idx: nat, done: seq<Event>, v: bool, used: nat, maxContext: nat,
      live: set<nat>): Scan
    requires idx <= |q|
  {
    var t := ScanQueue(q[idx..], v, used, maxContext, live);
    Scan(q[..idx] + t.queue, t.granted, done + t.events)
  }

  lemma ResumeStep(q: seq<Request>, idx: nat, done: seq<Event>, v: bool, used: nat, maxContext: nat, live: set<nat>)
    requires idx < |q|
    ensures var r := q[idx];
            var cut := q[..idx] + q[idx + 1..];
            var now := Resume(q, idx, done, v, used, maxContext, live);
            if r.dispatched || (r.grant && !Fits(r, used, maxContext)) then
              now == Resume(q, idx + 1, done, v, used, maxContext, live)
            else if !r.grant then
              now == Resume(cut, idx, done, v, used, maxContext, live)
            else if r.id !in live then
              now == Resume(cut, idx, done + [Drop(r.id, v)], v, used, maxContext, live)
            else
              now == Scan(q[idx := r.(dispatched := true, grant := false)], true, done + [Grant(r.id, v)])
  {
    var r := q[idx];
    var t := ScanQueue(q[idx + 1..], v, used, maxContext, live);
    assert q[idx..][1..] == q[idx + 1..];
    if r.dispatched || (r.grant && !Fits(r, used, maxContext)) {
      assert q[..idx] + ([r] + t.queue) == q[..idx + 1] + t.queue;
    } else if r.grant && r.id in live {
      assert q[..idx] + ([r.(dispatched := true, grant := false)] + q[idx + 1..])
             == q[idx := r.(dispatched := true, grant := false)];
    } else {
      var cut := q[..idx] + q[idx + 1..];
      assert cut[idx..] == q[idx + 1..] && cut[..idx] == q[..idx];
      assert done + ([Drop(r.id, v)] + t.events) == done + [Drop(r.id, v)] + t.events;
    }
  }

  lemma TurnsCompose(s: Slot, live: set<nat>, done: seq<Event>)
    ensures var o := DispatchOnce(s, live);
            (Dispatch(s, live).0, done + Dispatch(s, live).1)
            == if o.granted then (Dispatch(o.slot, live).0, done + o.events + Dispatch(o.slot, live).1)
               else (o.slot, done + o.events)
  {
    OnceShrinks(s, live);
    var o := DispatchOnce(s, live);
    if o.granted {
      assert done + (o.events + Dispatch(o.slot, live).1) == done + o.events + Dispatch(o.slot, live).1;
    }
  }

  lemma {:induction false} FirstIndex(q: seq<Request>, idx: nat, id: nat)
    requires idx <= |q| && (forall j :: 0 <= j < idx ==> q[j].id != id) && (idx < |q| ==> q[idx].id == id)
    ensures idx == |q| <==> Find(q, id).None?
    ensures idx < |q| ==> Find(q, id) == Some(q[idx]) && Without(q, id) == q[..idx] + q[idx + 1..]
  {
    if idx == 0 {
      assert q != [] ==> q[..0] + q[1..] == q[1..];
    } else {
      var tail := q[1..];
      assert forall j :: 0 <= j < |tail| ==> tail[j] == q[j + 1];
      FirstIndex(tail, idx - 1, id);
      if idx < |q| {
        assert [q[0]] + (tail[..idx - 1] + tail[idx..]) == q[..idx] + q[idx + 1..];
      }
    }
  }

  /** Waiting entries met before the one with this id. */
  function Walk(q: seq<Request>, id: nat): nat {
    if q == [] || q[0].id == id then 0 else WaitingOne(q[0]) + Walk(q[1..], id)
  }

  lemma {:induction false} WalkIsPosition(q: seq<Request>, id: nat)
    requires Sorted(q)
    ensures Find(q, id).Some? ==> Walk(q, id) == Total(q, AheadOne(id))
    ensures Find(q, id).None? ==> Walk(q, id) == Total(q, WaitingOne)
  {
    if q != [] {
      assert forall i :: 0 <= i < |q[1..]| ==> q[1..][i] == q[i + 1];
      if q[0].id == id {
        NoneAhead(q, id);
      } else {
        WalkIsPosition(q[1..], id);
        FindIsMember(q[1..], id);
      }
    }
  }

  lemma {:induction false} NoneAhead(q: seq<Request>, x: nat)
    requires forall i :: 0 <= i < |q| ==> q[i].id >= x
    ensures Total(q, AheadOne(x)) == 0
  {
    if q != [] {
      NoneAhead(q[1..], x);
    }
  }
}
