/**
 What one run of the dispatcher does, stated without naming its loops: which entries
 change and why, that limits are respected, that nothing that fits is left behind, that
 VIP requests go first, and how far a waiting request is from its grant.
 */
module FlowDispatch {

  import opened Wrappers
  import opened FlowSlots

  // ----- effect of one scan

  lemma HeadIsUnique(q: seq<Request>)
    requires q != [] && Sorted(q)
    ensures Find(q[1..], q[0].id).None?
  {
    FindIsMember(q[1..], q[0].id);
    assert forall i :: 0 < i < |q| ==> q[i].id > q[0].id;
    assert forall i :: 0 <= i < |q[1..]| ==> q[1..][i] == q[i + 1];
  }

  /** Entries are touched only by events: a grant turns a live waiting entry into a running
      one, a drop removes a waiting entry whose receiver is gone, everything else stays. */
  ghost predicate EntryEffect(before: Option<Request>, after: Option<Request>, id: nat, v: bool,
                              events: seq<Event>, live: set<nat>)
  {
    if Grant(id, v) in events then
      Waiting(before) && id in live && Drop(id, v) !in events
      && after == Some(before.value.(dispatched := true, grant := false))
    else if Drop(id, v) in events then
      Waiting(before) && id !in live && after.None?
    else
      after == before
  }

  ghost predicate OnQueue(events: seq<Event>, v: bool) {
    forall k :: 0 <= k < |events| ==> events[k].vip == v
  }

  lemma {:induction false} ScanEffect(q: seq<Request>, v: bool, used: nat, maxContext: nat, live: set<nat>, id: nat)
    requires Sorted(q) && Flags(q)
    ensures var t := ScanQueue(q, v, used, maxContext, live);
            && EntryEffect(Find(q, id), Find(t.queue, id), id, v, t.events, live)
            && OnQueue(t.events, v)
  {
    if q != [] {
      ScanEffect(q[1..], v, used, maxContext, live, id);
      HeadIsUnique(q);
      var t := ScanQueue(q[1..], v, used, maxContext, live);
      var r := q[0];
      assert ([r] + t.queue)[1..] == t.queue;
      assert ([r.(dispatched := true, grant := false)] + q[1..])[1..] == q[1..];
      if r.id == id {
        assert Find(q[1..], id).None?;
        assert Grant(id, v) !in t.events && Drop(id, v) !in t.events;
      }
    }
  }

  ghost predicate Above(q: seq<Request>, low: nat) {
    forall i :: 0 <= i < |q| ==> q[i].id >= low
  }

  lemma ConsIsGood(r: Request, q: seq<Request>, low: nat, bound: nat)
    requires GoodQueue(q, bound) && Above(q, r.id + 1)
    requires low <= r.id < bound && r.dispatched == !r.grant
    ensures GoodQueue([r] + q, bound) && Above([r] + q, low)
  {
    var c := [r] + q;
    assert forall i :: 0 < i < |c| ==> c[i] == q[i - 1];
  }

  lemma {:induction false} ScanKeepsGood(q: seq<Request>, v: bool, used: nat, maxContext: nat, live: set<nat>,
      low: nat, bound: nat)
    requires GoodQueue(q, bound) && Above(q, low)
    ensures var t := ScanQueue(q, v, used, maxContext, live); GoodQueue(t.queue, bound) && Above(t.queue, low)
  {
    if q != [] {
      var tail := q[1..];
      assert forall j :: 0 <= j < |tail| ==> tail[j] == q[j + 1];
      assert GoodQueue(tail, bound) && Above(tail, q[0].id + 1);
      ScanKeepsGood(tail, v, used, maxContext, live, q[0].id + 1, bound);
      var t := ScanQueue(tail, v, used, maxContext, live);
      ConsIsGood(q[0], t.queue, low, bound);
      ConsIsGood(q[0].(dispatched := true, grant := false), tail, low, bound);
    }
  }

  /** The entry a scan grants, and how the load changes. */
  lemma {:induction false} ScanLoad(q: seq<Request>, v: bool, used: nat, maxContext: nat, live: set<nat>)
    ensures var t := ScanQueue(q, v, used, maxContext, live);
            && Total(t.queue, RunningOne) == Total(q, RunningOne) + (if t.granted then 1 else 0)
            && (!t.granted ==> Total(t.queue, RunningCtx) == Total(q, RunningCtx))
            && (t.granted && maxContext > 0 ==> used + Total(t.queue, RunningCtx) - Total(q, RunningCtx) <= maxContext)
            && (t.granted <==> exists k :: 0 <= k < |t.events| && t.events[k].Grant?)
  {
    if q != [] {
      ScanLoad(q[1..], v, used, maxContext, live);
      var t := ScanQueue(q[1..], v, used, maxContext, live);
      var r := q[0];
      assert ([r] + t.queue)[1..] == t.queue;
      assert ([r.(dispatched := true, grant := false)] + q[1..])[1..] == q[1..];
      if !r.dispatched && r.grant && Fits(r, used, maxContext) && r.id !in live {
        var e := [Drop(r.id, v)] + t.events;
        assert forall k :: 0 <= k < |t.events| ==> e[k + 1] == t.events[k];
      } else if !r.dispatched && r.grant && Fits(r, used, maxContext) {
        assert [Grant(r.id, v)][0].Grant?;
      }
    }
  }

  ghost predicate NoneFits(q: seq<Request>, used: nat, maxContext: nat) {
    forall i :: 0 <= i < |q| && !q[i].dispatched ==> !Fits(q[i], used, maxContext)
  }

  lemma {:induction false} ScanExhausts(q: seq<Request>, v: bool, used: nat, maxContext: nat, live: set<nat>)
    requires !ScanQueue(q, v, used, maxContext, live).granted
    ensures NoneFits(ScanQueue(q, v, used, maxContext, live).queue, used, maxContext)
  {
    if q != [] {
      ScanExhausts(q[1..], v, used, maxContext, live);
    }
  }

  // ----- effect of the whole loop

  ghost predicate SlotEffect(s: Slot, s': Slot, events: seq<Event>, live: set<nat>) {
    && s' == s.(vip := s'.vip, normal := s'.normal)
    && forall v: bool, id: nat :: EntryEffect(Find(s.Queue(v), id), Find(s'.Queue(v), id), id, v, events, live)
  }

  lemma DisjointAfter(s: Slot, s': Slot, events: seq<Event>, live: set<nat>)
    requires Good(s) && SlotEffect(s, s', events, live)
    ensures forall id :: Find(s'.vip, id).None? || Find(s'.normal, id).None?
  {
    forall id ensures Find(s'.vip, id).None? || Find(s'.normal, id).None? {
      assert EntryEffect(Find(s.Queue(true), id), Find(s'.Queue(true), id), id, true, events, live);
      assert EntryEffect(Find(s.Queue(false), id), Find(s'.Queue(false), id), id, false, events, live);
    }
  }

  lemma OnceEffect(s: Slot, live: set<nat>)
    requires Good(s)
    ensures var o := DispatchOnce(s, live); Good(o.slot) && SlotEffect(s, o.slot, o.events, live)
  {
    if !Full(s) {
      var used := UsedContext(s);
      var t := ScanQueue(s.vip, true, used, s.maxContext, live);
      var u := ScanQueue(s.normal, false, used, s.maxContext, live);
      ScanKeepsGood(s.vip, true, used, s.maxContext, live, 0, s.nextId);
      ScanKeepsGood(s.normal, false, used, s.maxContext, live, 0, s.nextId);
      var o := DispatchOnce(s, live);
      forall v: bool, id: nat
        ensures EntryEffect(Find(s.Queue(v), id), Find(o.slot.Queue(v), id), id, v, o.events, live)
      {
        ScanEffect(s.vip, true, used, s.maxContext, live, id);
        ScanEffect(s.normal, false, used, s.maxContext, live, id);
        assert Grant(id, v) in o.events <==>
            Grant(id, v) in (if v then t.events else if t.granted then [] else u.events);
        assert Drop(id, v) in o.events <==> Drop(id, v) in (if v then t.events else if t.granted then [] else u.events);
      }
      DisjointAfter(s, o.slot, o.events, live);
    }
  }

  lemma {:induction false} DispatchEffect(s: Slot, live: set<nat>)
    requires Good(s)
    ensures var (s', events) := Dispatch(s, live); Good(s') && SlotEffect(s, s', events, live)
    decreases Waiters(s)
  {
    OnceShrinks(s, live);
    OnceEffect(s, live);
    var o := DispatchOnce(s, live);
    if o.granted {
      DispatchEffect(o.slot, live);
      var (s', rest) := Dispatch(o.slot, live);
      forall v: bool, id: nat
        ensures EntryEffect(Find(s.Queue(v), id), Find(s'.Queue(v), id), id, v, o.events + rest, live)
      {
        assert EntryEffect(Find(s.Queue(v), id), Find(o.slot.Queue(v), id), id, v, o.events, live);
        assert EntryEffect(Find(o.slot.Queue(v), id), Find(s'.Queue(v), id), id, v, rest, live);
      }
    }
  }

  // ----- limits

  predicate Within(s: Slot) {
    && (s.maxInflight > 0 ==> Inflight(s) <= s.maxInflight)
    && (s.maxContext > 0 ==> UsedContext(s) <= s.maxContext)
  }

  /** Nothing more can be granted: the slot is full or every waiter overflows the budget. */
  ghost predicate AtRest(s: Slot) {
    || Full(s)
    || (NoneFits(s.vip, UsedContext(s), s.maxContext) && NoneFits(s.normal, UsedContext(s), s.maxContext))
  }

  ghost predicate HasGrant(events: seq<Event>) {
    exists k :: 0 <= k < |events| && events[k].Grant?
  }

  lemma OnceLimits(s: Slot, live: set<nat>)
    ensures var o := DispatchOnce(s, live);
            && (o.granted <==> HasGrant(o.events))
            && (o.granted ==> Within(o.slot))
            && (!o.granted ==>
                  Inflight(o.slot) == Inflight(s) && UsedContext(o.slot) == UsedContext(s) && AtRest(o.slot))
  {
    if !Full(s) {
      var used := UsedContext(s);
      ScanLoad(s.vip, true, used, s.maxContext, live);
      ScanLoad(s.normal, false, used, s.maxContext, live);
      var t := ScanQueue(s.vip, true, used, s.maxContext, live);
      var u := ScanQueue(s.normal, false, used, s.maxContext, live);
      if !t.granted {
        var e := t.events + u.events;
        assert forall k :: 0 <= k < |u.events| ==> e[|t.events| + k] == u.events[k];
        assert forall k :: 0 <= k < |e| && e[k].Grant? ==> k >= |t.events| && u.events[k - |t.events|].Grant?;
        ScanExhausts(s.vip, true, used, s.maxContext, live);
        if !u.granted {
          ScanExhausts(s.normal, false, used, s.maxContext, live);
        }
      }
    }
  }

  /** A dispatch that grants anything ends within both limits whatever the slot looked like
      before; one that grants nothing leaves the load as it was; either way it ends at rest. */
  lemma {:induction false} DispatchLimits(s: Slot, live: set<nat>)
    ensures var (s', events) := Dispatch(s, live);
            && AtRest(s')
            && (HasGrant(events) ==> Within(s'))
            && (!HasGrant(events) ==> Inflight(s') == Inflight(s) && UsedContext(s') == UsedContext(s))
            && s'.maxInflight == s.maxInflight && s'.maxContext == s.maxContext && s'.nextId == s.nextId
    decreases Waiters(s)
  {
    OnceShrinks(s, live);
    OnceLimits(s, live);
    var o := DispatchOnce(s, live);
    if o.granted {
      DispatchLimits(o.slot, live);
      var (s', rest) := Dispatch(o.slot, live);
      var k :| 0 <= k < |o.events| && o.events[k].Grant?;
      assert (o.events + rest)[k].Grant?;
    }
  }
}
