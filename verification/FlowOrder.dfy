/**
 The order in which a dispatch grants: VIP before normal, first come first served when
 there is no context budget, and the exact accounting behind the reported position.
 */
module FlowOrder {

  import opened Wrappers
  import opened FlowSlots
  import opened FlowDispatch

  // ----- shape of the events of one turn

  /** Drops, then at most one grant at the very end. */
  ghost predicate TurnShape(events: seq<Event>, granted: bool) {
    && (forall k :: 0 <= k < |events| - 1 ==> events[k].Drop?)
    && (granted ==> events != [] && events[|events| - 1].Grant?)
    && (!granted ==> forall k :: 0 <= k < |events| ==> events[k].Drop?)
  }

  lemma {:induction false} ScanShape(q: seq<Request>, v: bool, used: nat, maxContext: nat, live: set<nat>)
    ensures var t := ScanQueue(q, v, used, maxContext, live); TurnShape(t.events, t.granted) && OnQueue(t.events, v)
  {
    if q != [] {
      ScanShape(q[1..], v, used, maxContext, live);
    }
  }

  lemma OnceShape(s: Slot, live: set<nat>)
    ensures var o := DispatchOnce(s, live); TurnShape(o.events, o.granted)
  {
    ScanShape(s.vip, true, UsedContext(s), s.maxContext, live);
    ScanShape(s.normal, false, UsedContext(s), s.maxContext, live);
  }

  lemma EffectCompose(s: Slot, m: Slot, e: Slot, first: seq<Event>, rest: seq<Event>, live: set<nat>)
    requires SlotEffect(s, m, first, live) && SlotEffect(m, e, rest, live)
    ensures SlotEffect(s, e, first + rest, live)
  {
    forall v: bool, id: nat
      ensures EntryEffect(Find(s.Queue(v), id), Find(e.Queue(v), id), id, v, first + rest, live)
    {
      assert EntryEffect(Find(s.Queue(v), id), Find(m.Queue(v), id), id, v, first, live);
      assert EntryEffect(Find(m.Queue(v), id), Find(e.Queue(v), id), id, v, rest, live);
    }
  }

  lemma OnceGood(s: Slot, live: set<nat>)
    requires Good(s)
    ensures var o := DispatchOnce(s, live);
            && Good(o.slot) && o.slot.maxContext == s.maxContext
            && (o.granted ==> Waiters(o.slot) < Waiters(s))
  {
    OnceEffect(s, live);
    OnceShrinks(s, live);
  }

  lemma DispatchUnfold(s: Slot, live: set<nat>)
    ensures var o := DispatchOnce(s, live);
            && Dispatch(s, live).0 == (if o.granted then Dispatch(o.slot, live).0 else o.slot)
            && Dispatch(s, live).1 == o.events + (if o.granted then Dispatch(o.slot, live).1 else [])
  {
    OnceShrinks(s, live);
  }

  // ----- VIP first

  ghost predicate NoLiveFits(q: seq<Request>, used: nat, maxContext: nat, live: set<nat>) {
    forall i :: 0 <= i < |q| && !q[i].dispatched && q[i].id in live ==> !Fits(q[i], used, maxContext)
  }

  lemma {:induction false} UngrantedScan(q: seq<Request>, v: bool, used: nat, maxContext: nat, live: set<nat>)
    requires Flags(q) && !ScanQueue(q, v, used, maxContext, live).granted
    ensures NoLiveFits(q, used, maxContext, live)
  {
    if q != [] {
      UngrantedScan(q[1..], v, used, maxContext, live);
      assert forall i :: 0 < i < |q| ==> q[i] == q[1..][i - 1];
    }
  }

  /** Every grant to a normal request is made from a slot state, reached by the events before
      it, that is not full and in which no waiting VIP request with a live client fits. */
  lemma {:induction false} NormalGrantMeansNoVipFits(s: Slot, live: set<nat>, k: nat) returns (m: Slot, j: nat)
    requires Good(s)
    requires k < |Dispatch(s, live).1| && Dispatch(s, live).1[k].Grant? && !Dispatch(s, live).1[k].vip
    ensures j <= k && SlotEffect(s, m, Dispatch(s, live).1[..j], live)
    ensures forall i :: j <= i < k ==> Dispatch(s, live).1[i].Drop?
    ensures !Full(m) && NoLiveFits(m.vip, UsedContext(m), m.maxContext, live)
    decreases Waiters(s)
  {
    OnceGood(s, live);
    OnceShape(s, live);
    DispatchUnfold(s, live);
    var o := DispatchOnce(s, live);
    var events := Dispatch(s, live).1;
    if k < |o.events| {
      m, j := s, 0;
      assert k == |o.events| - 1;
      ScanShape(s.vip, true, UsedContext(s), s.maxContext, live);
      UngrantedScan(s.vip, true, UsedContext(s), s.maxContext, live);
    } else {
      var rest := Dispatch(o.slot, live).1;
      var i := k - |o.events|;
      m, j := NormalGrantMeansNoVipFits(o.slot, live, i);
      OnceEffect(s, live);
      EffectCompose(s, o.slot, m, o.events, rest[..j], live);
      assert events[..|o.events| + j] == o.events + rest[..j];
      assert forall l :: j <= l < i ==> events[l + |o.events|] == rest[l];
      j := |o.events| + j;
    }
  }

  // ----- positions

  function AheadOne(x: nat): Request -> nat {
    (r: Request) => if !r.dispatched && r.id < x then 1 else 0
  }

  /** How many waiting requests the queues place before request `x`. */
  function Position(s: Slot, x: nat, vip: bool): nat {
    if vip then Total(s.vip, AheadOne(x))
    else Total(s.vip, WaitingOne) + Total(s.normal, AheadOne(x))
  }

  predicate IsAhead(e: Event, x: nat, vip: bool) {
    if vip then e.vip && e.id < x else e.vip || e.id < x
  }

  function AheadEvents(events: seq<Event>, x: nat, vip: bool): nat {
    if events == [] then 0
    else (if IsAhead(events[0], x, vip) then 1 else 0) + AheadEvents(events[1..], x, vip)
  }

  lemma {:induction false} AheadEventsAppend(a: seq<Event>, b: seq<Event>, x: nat, vip: bool)
    ensures AheadEvents(a + b, x, vip) == AheadEvents(a, x, vip) + AheadEvents(b, x, vip)
  {
    if a == [] {
      assert a + b == b;
    } else {
      assert (a + b)[1..] == a[1..] + b;
      AheadEventsAppend(a[1..], b, x, vip);
    }
  }

  /** A scan takes exactly one waiting entry per event: counting entries before `x` in its own
      queue, all VIP entries for a normal `x`, and no normal entry for a VIP `x`. */
  lemma {:induction false} ScanConservesOwn(q: seq<Request>, v: bool, used: nat, maxContext: nat, live: set<nat>,
      x: nat)
    requires Flags(q)
    ensures var t := ScanQueue(q, v, used, maxContext, live);
            Total(q, AheadOne(x)) == Total(t.queue, AheadOne(x)) + AheadEvents(t.events, x, v)
  {
    if q != [] {
      ScanConservesOwn(q[1..], v, used, maxContext, live, x);
      var t := ScanQueue(q[1..], v, used, maxContext, live);
      var r := q[0];
      if r.dispatched || !Fits(r, used, maxContext) {
        TotalCons(r, t.queue, AheadOne(x));
      } else if r.id !in live {
        AheadEventsAppend([Drop(r.id, v)], t.events, x, v);
      } else {
        TotalCons(r.(dispatched := true, grant := false), q[1..], AheadOne(x));
      }
    }
  }

  lemma {:induction false} ScanConservesVip(q: seq<Request>, used: nat, maxContext: nat, live: set<nat>, x: nat)
    requires Flags(q)
    ensures var t := ScanQueue(q, true, used, maxContext, live);
            Total(q, WaitingOne) == Total(t.queue, WaitingOne) + AheadEvents(t.events, x, false)
  {
    if q != [] {
      ScanConservesVip(q[1..], used, maxContext, live, x);
      var t := ScanQueue(q[1..], true, used, maxContext, live);
      var r := q[0];
      if r.dispatched || !Fits(r, used, maxContext) {
        TotalCons(r, t.queue, WaitingOne);
      } else if r.id !in live {
        AheadEventsAppend([Drop(r.id, true)], t.events, x, false);
      } else {
        TotalCons(r.(dispatched := true, grant := false), q[1..], WaitingOne);
      }
    }
  }

  lemma {:induction false} NormalNeverAheadOfVip(events: seq<Event>, x: nat)
    requires OnQueue(events, false)
    ensures AheadEvents(events, x, true) == 0
  {
    if events != [] {
      NormalNeverAheadOfVip(events[1..], x);
    }
  }

  lemma OnceConserves(s: Slot, live: set<nat>, x: nat, vip: bool)
    requires Good(s)
    ensures var o := DispatchOnce(s, live);
            Position(s, x, vip) == Position(o.slot, x, vip) + AheadEvents(o.events, x, vip)
  {
    if !Full(s) {
      var used := UsedContext(s);
      if vip {
        ScanConservesOwn(s.vip, true, used, s.maxContext, live, x);
        ScanShape(s.normal, false, used, s.maxContext, live);
        NormalNeverAheadOfVip(ScanQueue(s.normal, false, used, s.maxContext, live).events, x);
      } else {
        ScanConservesVip(s.vip, used, s.maxContext, live, x);
        ScanConservesOwn(s.normal, false, used, s.maxContext, live, x);
      }
      var t := ScanQueue(s.vip, true, used, s.maxContext, live);
      var u := ScanQueue(s.normal, false, used, s.maxContext, live);
      AheadEventsAppend(t.events, u.events, x, vip);
    }
  }

  /** Whatever the budget, a dispatch lowers a position by one for every event ahead of it. */
  lemma {:induction false} DispatchConserves(s: Slot, live: set<nat>, x: nat, vip: bool)
    requires Good(s)
    ensures var (s', events) := Dispatch(s, live);
            Position(s, x, vip) == Position(s', x, vip) + AheadEvents(events, x, vip)
    decreases Waiters(s)
  {
    OnceShrinks(s, live);
    OnceEffect(s, live);
    OnceConserves(s, live, x, vip);
    var o := DispatchOnce(s, live);
    if o.granted {
      DispatchConserves(o.slot, live, x, vip);
      AheadEventsAppend(o.events, Dispatch(o.slot, live).1, x, vip);
    }
  }

  // ----- first come, first served without a context budget

  ghost predicate WaitersAbove(q: seq<Request>, g: nat) {
    forall id :: Waiting(Find(q, id)) ==> g < id
  }

  lemma TailIsAbove(q: seq<Request>)
    requires q != [] && Sorted(q)
    ensures WaitersAbove(q[1..], q[0].id)
  {
    forall id | Waiting(Find(q[1..], id)) ensures q[0].id < id {
      FindIsMember(q[1..], id);
      var i :| 0 <= i < |q[1..]| && q[1..][i].id == id;
      assert q[i + 1].id == id;
    }
  }

  lemma {:induction false} ScanIsFifo(q: seq<Request>, v: bool, used: nat, live: set<nat>)
    requires Sorted(q) && Flags(q)
    ensures var t := ScanQueue(q, v, used, 0, live);
            && (t.granted ==> t.events != [] && WaitersAbove(t.queue, t.events[|t.events| - 1].id))
            && (!t.granted ==> forall id :: !Waiting(Find(t.queue, id)))
  {
    if q != [] {
      ScanIsFifo(q[1..], v, used, live);
      var t := ScanQueue(q[1..], v, used, 0, live);
      var r := q[0];
      if r.dispatched {
        assert ([r] + t.queue)[1..] == t.queue;
      } else if r.id in live {
        assert ([r.(dispatched := true, grant := false)] + q[1..])[1..] == q[1..];
        TailIsAbove(q);
      }
    }
  }

  lemma {:induction false} NoWaiterAhead(q: seq<Request>, x: nat)
    requires Sorted(q) && forall id :: Waiting(Find(q, id)) ==> x <= id
    ensures Total(q, AheadOne(x)) == 0
  {
    if q != [] {
      HeadIsUnique(q);
      assert Find(q, q[0].id) == Some(q[0]);
      forall id | Waiting(Find(q[1..], id)) ensures x <= id {
        assert id != q[0].id;
        assert Find(q, id) == Find(q[1..], id);
      }
      NoWaiterAhead(q[1..], x);
    }
  }

  lemma {:induction false} NoWaiterAtAll(q: seq<Request>)
    requires Sorted(q) && forall id :: !Waiting(Find(q, id))
    ensures Total(q, WaitingOne) == 0
  {
    if q != [] {
      HeadIsUnique(q);
      assert Find(q, q[0].id) == Some(q[0]);
      forall id ensures !Waiting(Find(q[1..], id)) {
        assert id == q[0].id || Find(q, id) == Find(q[1..], id);
      }
      NoWaiterAtAll(q[1..]);
    }
  }

  /** Without a budget a turn grants to the front of the line: everyone still waiting in that
      queue is behind, and a normal grant leaves no VIP waiting. */
  lemma OnceIsFifo(s: Slot, live: set<nat>)
    requires Good(s) && s.maxContext == 0 && DispatchOnce(s, live).granted
    ensures var o := DispatchOnce(s, live);
            && o.events != []
            && var g := o.events[|o.events| - 1];
            && g.Grant?
            && WaitersAbove(o.slot.Queue(g.vip), g.id)
            && (!g.vip ==> forall id :: !Waiting(Find(o.slot.vip, id)))
            && Position(o.slot, g.id, g.vip) == 0
  {
    var used := UsedContext(s);
    ScanShape(s.vip, true, used, 0, live);
    ScanShape(s.normal, false, used, 0, live);
    ScanIsFifo(s.vip, true, used, live);
    ScanIsFifo(s.normal, false, used, live);
    OnceEffect(s, live);
    var o := DispatchOnce(s, live);
    var g := o.events[|o.events| - 1];
    NoWaiterAhead(o.slot.Queue(g.vip), g.id);
    if !g.vip {
      NoWaiterAtAll(o.slot.vip);
    }
  }

  ghost predicate GrantsIncrease(events: seq<Event>) {
    forall i, j :: 0 <= i < j < |events| && events[i].Grant? && events[j].Grant? && events[i].vip == events[j].vip
                   ==> events[i].id < events[j].id
  }

  ghost predicate GrantsBeforeWaiters(events: seq<Event>, s: Slot) {
    forall i :: 0 <= i < |events| && events[i].Grant? ==> WaitersAbove(s.Queue(events[i].vip), events[i].id)
  }

  lemma OnceFifoLog(s: Slot, live: set<nat>)
    requires Good(s) && s.maxContext == 0
    ensures var o := DispatchOnce(s, live); GrantsIncrease(o.events) && GrantsBeforeWaiters(o.events, o.slot)
  {
    OnceShape(s, live);
    if DispatchOnce(s, live).granted {
      OnceIsFifo(s, live);
    }
  }

  lemma {:induction false} DispatchIsFifo(s: Slot, live: set<nat>)
    requires Good(s) && s.maxContext == 0
    ensures GrantsIncrease(Dispatch(s, live).1) && GrantsBeforeWaiters(Dispatch(s, live).1, Dispatch(s, live).0)
    decreases Waiters(s)
  {
    OnceGood(s, live);
    OnceFifoLog(s, live);
    DispatchUnfold(s, live);
    var o := DispatchOnce(s, live);
    if o.granted {
      DispatchIsFifo(o.slot, live);
      DispatchEffect(o.slot, live);
      AppendGrants(o.events, Dispatch(o.slot, live).1, o.slot, Dispatch(o.slot, live).0, live);
    } else {
      assert o.events + [] == o.events;
    }
  }

  /** Events of a later dispatch grant only requests that were still waiting, so they come
      after every earlier grant of the same queue. */
  lemma AppendGrants(first: seq<Event>, rest: seq<Event>, m: Slot, s': Slot, live: set<nat>)
    requires GrantsIncrease(first) && GrantsBeforeWaiters(first, m)
    requires GrantsIncrease(rest) && GrantsBeforeWaiters(rest, s')
    requires SlotEffect(m, s', rest, live)
    ensures GrantsIncrease(first + rest) && GrantsBeforeWaiters(first + rest, s')
  {
    var all := first + rest;
    forall i, j | 0 <= i < j < |all| && all[i].Grant? && all[j].Grant? && all[i].vip == all[j].vip
      ensures all[i].id < all[j].id
    {
      if i < |first| <= j {
        var g := all[j];
        assert g == rest[j - |first|];
        assert EntryEffect(Find(m.Queue(g.vip), g.id), Find(s'.Queue(g.vip), g.id), g.id, g.vip, rest, live);
        assert Grant(g.id, g.vip) in rest;
      }
    }
    forall i | 0 <= i < |all| && all[i].Grant? ensures WaitersAbove(s'.Queue(all[i].vip), all[i].id) {
      if i < |first| {
        var v := all[i].vip;
        forall id | Waiting(Find(s'.Queue(v), id)) ensures all[i].id < id {
          assert EntryEffect(Find(m.Queue(v), id), Find(s'.Queue(v), id), id, v, rest, live);
        }
      }
    }
  }

  ghost predicate Untouched(events: seq<Event>, x: nat, vip: bool) {
    forall i :: 0 <= i < |events| ==> events[i] != Grant(x, vip) && events[i] != Drop(x, vip)
  }

  ghost predicate GrantsAllAhead(events: seq<Event>, x: nat, vip: bool) {
    forall i :: 0 <= i < |events| && events[i].Grant? ==> IsAhead(events[i], x, vip)
  }

  lemma UntouchedSplit(a: seq<Event>, b: seq<Event>, x: nat, vip: bool)
    requires Untouched(a + b, x, vip)
    ensures Untouched(a, x, vip) && Untouched(b, x, vip)
  {
    assert forall i :: 0 <= i < |a| ==> a[i] == (a + b)[i];
    assert forall i :: 0 <= i < |b| ==> b[i] == (a + b)[|a| + i];
  }

  lemma OnceGrantsAhead(s: Slot, live: set<nat>, x: nat, vip: bool)
    requires Good(s) && s.maxContext == 0 && Waiting(Find(s.Queue(vip), x))
    requires Untouched(DispatchOnce(s, live).events, x, vip)
    ensures Waiting(Find(DispatchOnce(s, live).slot.Queue(vip), x))
    ensures GrantsAllAhead(DispatchOnce(s, live).events, x, vip)
  {
    OnceEffect(s, live);
    OnceShape(s, live);
    var o := DispatchOnce(s, live);
    assert EntryEffect(Find(s.Queue(vip), x), Find(o.slot.Queue(vip), x), x, vip, o.events, live);
    if o.granted {
      OnceIsFifo(s, live);
    }
  }

  /** While `x` waits, every grant goes to a request ahead of it. */
  lemma {:induction false} GrantsAreAhead(s: Slot, live: set<nat>, x: nat, vip: bool, k: nat)
    requires Good(s) && s.maxContext == 0 && Waiting(Find(s.Queue(vip), x))
    requires k <= |Dispatch(s, live).1| && Untouched(Dispatch(s, live).1[..k], x, vip)
    ensures GrantsAllAhead(Dispatch(s, live).1[..k], x, vip)
    decreases Waiters(s)
  {
    OnceGood(s, live);
    OnceShape(s, live);
    DispatchUnfold(s, live);
    var o := DispatchOnce(s, live);
    var events := Dispatch(s, live).1[..k];
    if k < |o.events| {
      assert events == o.events[..k];
    } else if o.granted {
      var tail := Dispatch(o.slot, live).1[..k - |o.events|];
      assert events == o.events + tail;
      UntouchedSplit(o.events, tail, x, vip);
      OnceGrantsAhead(s, live, x, vip);
      GrantsAreAhead(o.slot, live, x, vip, k - |o.events|);
      AheadJoins(o.events, tail, x, vip);
    } else {
      assert events == o.events;
      OnceGrantsAhead(s, live, x, vip);
    }
  }

  lemma AheadJoins(a: seq<Event>, b: seq<Event>, x: nat, vip: bool)
    requires GrantsAllAhead(a, x, vip) && GrantsAllAhead(b, x, vip)
    ensures GrantsAllAhead(a + b, x, vip)
  {
    forall i | 0 <= i < |a + b| && (a + b)[i].Grant? ensures IsAhead((a + b)[i], x, vip) {
      assert (a + b)[i] == if i < |a| then a[i] else b[i - |a|];
    }
  }

  lemma AheadEventsLast(events: seq<Event>)
    requires events != []
    ensures var g := events[|events| - 1];
            AheadEvents(events, g.id, g.vip) == AheadEvents(events[..|events| - 1], g.id, g.vip)
  {
    var g := events[|events| - 1];
    assert events == events[..|events| - 1] + [g];
    AheadEventsAppend(events[..|events| - 1], [g], g.id, g.vip);
  }

  lemma OncePosition(s: Slot, live: set<nat>)
    requires Good(s) && s.maxContext == 0 && DispatchOnce(s, live).granted
    ensures var events := DispatchOnce(s, live).events;
            && events != []
            && var g := events[|events| - 1];
            Position(s, g.id, g.vip) == AheadEvents(events[..|events| - 1], g.id, g.vip)
  {
    OnceIsFifo(s, live);
    var events := DispatchOnce(s, live).events;
    var g := events[|events| - 1];
    OnceConserves(s, live, g.id, g.vip);
    AheadEventsLast(events);
  }

  /** Without a budget, the events ahead of a grant are exactly the position before it. */
  lemma {:induction false} PositionIsExact(s: Slot, live: set<nat>, k: nat, g: Event)
    requires Good(s) && s.maxContext == 0
    requires k < |Dispatch(s, live).1| && Dispatch(s, live).1[k] == g && g.Grant?
    ensures Position(s, g.id, g.vip) == AheadEvents(Dispatch(s, live).1[..k], g.id, g.vip)
    decreases Waiters(s)
  {
    OnceGood(s, live);
    OnceShape(s, live);
    DispatchUnfold(s, live);
    var o := DispatchOnce(s, live);
    if k < |o.events| {
      OncePosition(s, live);
      assert Dispatch(s, live).1[..k] == o.events[..|o.events| - 1];
    } else {
      var j := k - |o.events|;
      PositionIsExact(o.slot, live, j, g);
      OnceConserves(s, live, g.id, g.vip);
      assert Dispatch(s, live).1[..k] == o.events + Dispatch(o.slot, live).1[..j];
      AheadEventsAppend(o.events, Dispatch(o.slot, live).1[..j], g.id, g.vip);
    }
  }
}
