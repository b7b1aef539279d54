/**
 The window counters of the rate limiter: three dimensions per counter, fixed windows that
 restart lazily when they are next touched, and the peek / commit / settle operations.
 Time is a parameter; every operation reads the clock once.
 */
module RateWindows {

  import opened Wrappers

  datatype RateKey = RateKey(keyHash: string, model: string)

  /** A counter is shared by every limit entry of one owner with the same window length. */
  datatype WindowKey = WindowKey(owner: RateKey, secs: nat)

  datatype Counter = Counter(counts: nat, tokens: nat, costs: nat, start: nat, secs: nat)

  /** One limit entry; a dimension that is `None` is not limited. Costs are in micros. */
  datatype WindowLimit = WindowLimit(counts: Option<nat>, tokens: Option<nat>, costs: Option<nat>, secs: nat)

  datatype Dimension = Counts | Tokens | Costs

  type Table = map<WindowKey, Counter>

  // ----- reading a counter

  function Elapsed(c: Counter, now: nat): nat {
    if now < c.start then 0 else now - c.start
  }

  predicate Expired(c: Counter, now: nat) { Elapsed(c, now) >= c.secs }

  function Get(t: Table, k: WindowKey): Option<Counter> {
    if k in t then Some(t[k]) else None
  }

  /** The counter as an operation at `now` sees it: an expired one is as good as none. */
  function View(t: Table, k: WindowKey, now: nat): Option<Counter> {
    if k in t && !Expired(t[k], now) then Some(t[k]) else None
  }

  function Used(c: Option<Counter>, d: Dimension): nat {
    match c
    case None => 0
    case Some(c) => (match d case Counts => c.counts case Tokens => c.tokens case Costs => c.costs)
  }

  // ----- peek

  function Limit(w: WindowLimit, d: Dimension): Option<nat> {
    match d
    case Counts => w.counts
    case Tokens => w.tokens
    case Costs => w.costs
  }

  /** Counts ask whether this request still fits; tokens and costs whether the limit was reached. */
  predicate Rejects(c: Option<Counter>, w: WindowLimit, d: Dimension, weight: nat) {
    && Limit(w, d).Some?
    && if d.Counts? then Used(c, d) + weight > Limit(w, d).value else Used(c, d) >= Limit(w, d).value
  }

  datatype Verdict =
    | Allow
    | Reject(secs: nat, dim: Dimension, limit: nat, retryAfter: nat)

  function RetryAfter(t: Table, k: WindowKey, now: nat): nat {
    var elapsed := if k in t then Elapsed(t[k], now) else 0;
    if k.secs < elapsed then 0 else k.secs - elapsed
  }

  function Judge(t: Table, owner: RateKey, w: WindowLimit, weight: nat, now: nat): Verdict {
    var k := WindowKey(owner, w.secs);
    var c := View(t, k, now);
    if Rejects(c, w, Counts, weight) then Reject(w.secs, Counts, w.counts.value, RetryAfter(t, k, now))
    else if Rejects(c, w, Tokens, weight) then Reject(w.secs, Tokens, w.tokens.value, RetryAfter(t, k, now))
    else if Rejects(c, w, Costs, weight) then Reject(w.secs, Costs, w.costs.value, RetryAfter(t, k, now))
    else Allow
  }

  /** The first limit entry that rejects decides. */
  function Peek(t: Table, owner: RateKey, limits: seq<WindowLimit>, weight: nat, now: nat): Verdict {
    if limits == [] then Allow
    else
      var v := Judge(t, owner, limits[0], weight, now);
      if v.Reject? then v else Peek(t, owner, limits[1..], weight, now)
  }

  lemma {:induction false} PeekAllows(t: Table, owner: RateKey, limits: seq<WindowLimit>, weight: nat, now: nat)
    ensures Peek(t, owner, limits, weight, now).Allow? <==>
            forall w, d :: w in limits ==> !Rejects(View(t, WindowKey(owner, w.secs), now), w, d, weight)
  {
    if limits != [] {
      PeekAllows(t, owner, limits[1..], weight, now);
      assert limits == [limits[0]] + limits[1..];
      var w := limits[0];
      var c := View(t, WindowKey(owner, w.secs), now);
      assert Judge(t, owner, w, weight, now).Allow? <==>
          !Rejects(c, w, Counts, weight) && !Rejects(c, w, Tokens, weight) && !Rejects(c, w, Costs, weight);
      if Peek(t, owner, limits, weight, now).Allow? {
        forall w, d | w in limits ensures !Rejects(View(t, WindowKey(owner, w.secs), now), w, d, weight) {
          if w in limits[1..] {}
        }
      } else if Judge(t, owner, w, weight, now).Allow? {
        var w', d :| w' in limits[1..] && Rejects(View(t, WindowKey(owner, w'.secs), now), w', d, weight);
        assert w' in limits;
      }
    }
  }

  // ----- commit and settle

  function AllSecs(limits: seq<WindowLimit>): set<nat> {
    set w | w in limits :: w.secs
  }

  function CountSecs(limits: seq<WindowLimit>): set<nat> {
    set w | w in limits && w.counts.Some? :: w.secs
  }

  function BumpCounts(c: Option<Counter>, secs: nat, weight: nat, now: nat): Counter {
    match c
    case None => Counter(weight, 0, 0, now, secs)
    case Some(c) => if Expired(c, now) then Counter(weight, 0, 0, now, c.secs) else c.(counts := c.counts + weight)
  }

  function BumpUsage(c: Option<Counter>, secs: nat, tokens: nat, costs: nat, now: nat): Counter {
    match c
    case None => Counter(0, tokens, costs, now, secs)
    case Some(c) => if Expired(c, now) then Counter(0, tokens, costs, now, c.secs)
                    else c.(tokens := c.tokens + tokens, costs := c.costs + costs)
  }

  function Cells(owner: RateKey, secs: set<nat>): set<WindowKey> {
    set s | s in secs :: WindowKey(owner, s)
  }

  function CommitSecs(t: Table, owner: RateKey, secs: set<nat>, weight: nat, now: nat): Table {
    map k | k in t.Keys + Cells(owner, secs) ::
      if k in Cells(owner, secs) then BumpCounts(Get(t, k), k.secs, weight, now) else t[k]
  }

  /** One commit: every distinct window length with a counts limit is bumped exactly once. */
  function Commit(t: Table, owner: RateKey, limits: seq<WindowLimit>, weight: nat, now: nat): Table {
    CommitSecs(t, owner, CountSecs(limits), weight, now)
  }

  function SettleSecs(t: Table, owner: RateKey, secs: set<nat>, tokens: nat, costs: nat, now: nat): Table {
    map k | k in t.Keys + Cells(owner, secs) ::
      if k in Cells(owner, secs) then BumpUsage(Get(t, k), k.secs, tokens, costs, now) else t[k]
  }

  /** One settlement: every distinct window length takes the usage exactly once. */
  function Settle(t: Table, owner: RateKey, limits: seq<WindowLimit>, tokens: nat, costs: nat, now: nat): Table {
    if tokens == 0 && costs == 0 then t else SettleSecs(t, owner, AllSecs(limits), tokens, costs, now)
  }

  lemma NoSecs(t: Table, owner: RateKey, weight: nat, tokens: nat, costs: nat, now: nat)
    ensures CommitSecs(t, owner, {}, weight, now) == t && SettleSecs(t, owner, {}, tokens, costs, now) == t
    ensures Cells(owner, {}) == {}
  {
  }

  /** Bumping window lengths one by one, each once, gives the whole commit or settlement. */
  lemma SecsOneByOne(t: Table, owner: RateKey, secs: set<nat>, s: nat, weight: nat, tokens: nat, costs: nat, now: nat)
    requires s !in secs
    ensures var k := WindowKey(owner, s);
            && Cells(owner, secs + {s}) == Cells(owner, secs) + {k}
            && Get(CommitSecs(t, owner, secs, weight, now), k) == Get(t, k)
            && CommitSecs(t, owner, secs + {s}, weight, now)
               == CommitSecs(t, owner, secs, weight, now)[k := BumpCounts(Get(t, k), s, weight, now)]
            && Get(SettleSecs(t, owner, secs, tokens, costs, now), k) == Get(t, k)
            && SettleSecs(t, owner, secs + {s}, tokens, costs, now)
               == SettleSecs(t, owner, secs, tokens, costs, now)[k := BumpUsage(Get(t, k), s, tokens, costs, now)]
  {
    var k := WindowKey(owner, s);
    assert k !in Cells(owner, secs);
    assert Cells(owner, secs + {s}) == Cells(owner, secs) + {k};
  }

  // ----- housekeeping

  function Cleanup(t: Table, now: nat): Table {
    map k | k in t && !Expired(t[k], now) :: t[k]
  }

  function ClearKey(t: Table, keyHash: string): Table {
    map k | k in t && k.owner.keyHash != keyHash :: t[k]
  }

  /** The windows of these lengths of one owner, as cleared when its schedule switches. */
  function ClearWindows(t: Table, owner: RateKey, secs: seq<nat>): Table {
    map k | k in t && !(k.owner == owner && k.secs in secs) :: t[k]
  }

  /** What persisting at `saved` and loading at `now` brings back. */
  function Restart(t: Table, saved: nat, now: nat): Table {
    Cleanup(Cleanup(t, saved), now)
  }

  /** Counters live under their own window length. */
  ghost predicate WellKeyed(t: Table) {
    forall k :: k in t ==> t[k].secs == k.secs
  }

  // ----- the effect of each operation on what later operations see

  lemma CommitView(t: Table, owner: RateKey, limits: seq<WindowLimit>, weight: nat, now: nat, k: WindowKey)
    requires WellKeyed(t)
    ensures var t' := Commit(t, owner, limits, weight, now);
            && WellKeyed(t')
            && View(t', k, now) == if k in Cells(owner, CountSecs(limits)) && k.secs > 0
                                   then Some(BumpCounts(View(t, k, now), k.secs, weight, now)) else View(t, k, now)
  {
  }

  lemma SettleView(t: Table, owner: RateKey, limits: seq<WindowLimit>, tokens: nat, costs: nat, now: nat, k: WindowKey)
    requires WellKeyed(t)
    ensures var t' := Settle(t, owner, limits, tokens, costs, now);
            && WellKeyed(t')
            && View(t', k, now) == if k in Cells(owner, AllSecs(limits)) && k.secs > 0 && (tokens > 0 || costs > 0)
                                   then Some(BumpUsage(View(t, k, now), k.secs, tokens, costs, now))
                                   else View(t, k, now)
  {
  }

  /** As time passes a counter can only drop out of sight. */
  lemma LaterView(t: Table, k: WindowKey, now: nat, later: nat)
    requires now <= later
    ensures View(t, k, later) == if View(t, k, now).Some? && !Expired(View(t, k, now).value, later)
                                 then View(t, k, now) else None
  {
  }
}
