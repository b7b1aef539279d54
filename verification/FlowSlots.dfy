/**
 One flow-control slot: the two queues of a deployment and the greedy dispatcher that
 moves requests from waiting to in flight.  The queue is the only record of what is in
 flight, so every count here is a count over queue entries.
 */
module FlowSlots {

  import opened Wrappers

  /** A queue entry. `grant` tells whether the oneshot sender is still held. */
  datatype Request = Request(id: nat, ctx: nat, dispatched: bool, grant: bool)

  datatype Slot = Slot(maxInflight: nat, maxContext: nat, vip: seq<Request>, normal: seq<Request>, nextId: nat) {

    function Queue(v: bool): seq<Request> {
      if v then vip else normal
    }

    function WithQueue(v: bool, q: seq<Request>): Slot {
      if v then this.(vip := q) else this.(normal := q)
    }
  }

  /** How an entry stops waiting: its grant reached a live receiver, the send failed and the
      dispatcher discarded it, or its own client gave up (timeout or cancellation). */
  datatype Event =
    | Grant(id: nat, vip: bool)
    | Drop(id: nat, vip: bool)
    | Quit(id: nat, vip: bool)

  // ----- measures over queues

  function Total(q: seq<Request>, f: Request -> nat): nat {
    if q == [] then 0 else f(q[0]) + Total(q[1..], f)
  }

  lemma TotalCons(r: Request, q: seq<Request>, f: Request -> nat)
    ensures Total([r] + q, f) == f(r) + Total(q, f)
  {
    assert ([r] + q)[1..] == q;
  }

  lemma {:induction false} TotalAppend(a: seq<Request>, b: seq<Request>, f: Request -> nat)
    ensures Total(a + b, f) == Total(a, f) + Total(b, f)
  {
    if a == [] {
      assert a + b == b;
    } else {
      assert (a + b)[1..] == a[1..] + b;
      TotalAppend(a[1..], b, f);
    }
  }

  function RunningOne(r: Request): nat { if r.dispatched then 1 else 0 }

  function RunningCtx(r: Request): nat { if r.dispatched then r.ctx else 0 }

  function WaitingOne(r: Request): nat { if r.dispatched then 0 else 1 }

  function Inflight(s: Slot): nat { Total(s.vip, RunningOne) + Total(s.normal, RunningOne) }

  function UsedContext(s: Slot): nat { Total(s.vip, RunningCtx) + Total(s.normal, RunningCtx) }

  function Waiters(s: Slot): nat { Total(s.vip, WaitingOne) + Total(s.normal, WaitingOne) }

  /** The entry with the given id, if it is queued. */
  function Find(q: seq<Request>, id: nat): Option<Request> {
    if q == [] then None
    else if q[0].id == id then Some(q[0])
    else Find(q[1..], id)
  }

  predicate Waiting(e: Option<Request>) { e.Some? && !e.value.dispatched }

  predicate Running(e: Option<Request>) { e.Some? && e.value.dispatched }

  // ----- structural facts kept by every operation

  ghost predicate Sorted(q: seq<Request>) {
    forall i, j :: 0 <= i < j < |q| ==> q[i].id < q[j].id
  }

  /** An entry is dispatched exactly when its grant sender has been taken. */
  ghost predicate Flags(q: seq<Request>) {
    forall i :: 0 <= i < |q| ==> q[i].dispatched == !q[i].grant
  }

  ghost predicate Below(q: seq<Request>, bound: nat) {
    forall i :: 0 <= i < |q| ==> q[i].id < bound
  }

  ghost predicate GoodQueue(q: seq<Request>, bound: nat) {
    Sorted(q) && Flags(q) && Below(q, bound)
  }

  ghost predicate Good(s: Slot) {
    && GoodQueue(s.vip, s.nextId)
    && GoodQueue(s.normal, s.nextId)
    && (forall id :: Find(s.vip, id).None? || Find(s.normal, id).None?)
  }

  lemma {:induction false} FindIsMember(q: seq<Request>, id: nat)
    ensures Find(q, id).Some? ==> Find(q, id).value in q && Find(q, id).value.id == id
    ensures Find(q, id).None? ==> forall i :: 0 <= i < |q| ==> q[i].id != id
  {
    if q != [] && q[0].id != id {
      FindIsMember(q[1..], id);
      assert forall i :: 0 < i < |q| ==> q[i] == q[1..][i - 1];
    }
  }

  lemma {:induction false} MemberIsFound(q: seq<Request>, i: nat)
    requires i < |q| && Sorted(q)
    ensures Find(q, q[i].id) == Some(q[i])
  {
    if i > 0 {
      assert q[0].id < q[i].id;
      assert q[1..][i - 1] == q[i];
      assert Sorted(q[1..]);
      MemberIsFound(q[1..], i - 1);
    }
  }

  // ----- one scan of a queue

  predicate Fits(r: Request, used: nat, maxContext: nat) {
    maxContext == 0 || used + r.ctx <= maxContext
  }

  datatype Scan = Scan(queue: seq<Request>, granted: bool, events: seq<Event>)

  /** One scan of `try_dispatch_fitting`: skip what is running or does not fit, discard
      what lost its sender or its receiver, and grant the first entry that is left. */
  function ScanQueue(q: seq<Request>, v: bool, used: nat, maxContext: nat, live: set<nat>): Scan {
    if q == [] then Scan([], false, [])
    else
      var r := q[0];
      if r.dispatched then
        var t := ScanQueue(q[1..], v, used, maxContext, live);
        t.(queue := [r] + t.queue)
      else if !r.grant then
        ScanQueue(q[1..], v, used, maxContext, live)
      else if !Fits(r, used, maxContext) then
        var t := ScanQueue(q[1..], v, used, maxContext, live);
        t.(queue := [r] + t.queue)
      else if r.id !in live then
        var t := ScanQueue(q[1..], v, used, maxContext, live);
        t.(events := [Drop(r.id, v)] + t.events)
      else
        Scan([r.(dispatched := true, grant := false)] + q[1..], true, [Grant(r.id, v)])
  }

  lemma {:induction false} ScanShrinks(q: seq<Request>, v: bool, used: nat, maxContext: nat, live: set<nat>)
    ensures var t := ScanQueue(q, v, used, maxContext, live);
            Total(t.queue, WaitingOne) + (if t.granted then 1 else 0) <= Total(q, WaitingOne)
  {
    if q != [] {
      ScanShrinks(q[1..], v, used, maxContext, live);
      var t := ScanQueue(q[1..], v, used, maxContext, live);
      assert ([q[0]] + t.queue)[1..] == t.queue;
      assert ([q[0].(dispatched := true, grant := false)] + q[1..])[1..] == q[1..];
    }
  }

  // ----- the greedy loop

  predicate Full(s: Slot) { s.maxInflight > 0 && Inflight(s) >= s.maxInflight }

  datatype Outcome = Outcome(slot: Slot, granted: bool, events: seq<Event>)

  /** One turn of the dispatch loop: nothing when full, otherwise VIP first. */
  function DispatchOnce(s: Slot, live: set<nat>): Outcome {
    if Full(s) then Outcome(s, false, [])
    else
      var used := UsedContext(s);
      var t := ScanQueue(s.vip, true, used, s.maxContext, live);
      if t.granted then Outcome(s.(vip := t.queue), true, t.events)
      else
        var u := ScanQueue(s.normal, false, used, s.maxContext, live);
        Outcome(s.(vip := t.queue, normal := u.queue), u.granted, t.events + u.events)
  }

  lemma OnceShrinks(s: Slot, live: set<nat>)
    ensures var o := DispatchOnce(s, live);
            Waiters(o.slot) + (if o.granted then 1 else 0) <= Waiters(s)
  {
    ScanShrinks(s.vip, true, UsedContext(s), s.maxContext, live);
    ScanShrinks(s.normal, false, UsedContext(s), s.maxContext, live);
  }

  /** The whole loop; it ends because every further turn has one waiter less. */
  function Dispatch(s: Slot, live: set<nat>): (r: (Slot, seq<Event>))
    decreases Waiters(s)
  {
    OnceShrinks(s, live);
    var o := DispatchOnce(s, live);
    if !o.granted then (o.slot, o.events)
    else
      var rest := Dispatch(o.slot, live);
      (rest.0, o.events + rest.1)
  }
}
