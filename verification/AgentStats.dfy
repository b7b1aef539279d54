/**
  * The 60-minute ring buffer of agent statistics against the full event log: one bucket per
  * minute of the last hour, addressed by minute modulo 60 and cleared lazily.
  */
module AgentStats {

  const N: nat := 60

  /** Requests, input tokens and output tokens, each in total and for Anthropic clients. */
  datatype Bucket = Bucket(
    total: nat, anthropic: nat,
    inputTotal: nat, inputAnthropic: nat,
    outputTotal: nat, outputAnthropic: nat)

  function Zero(): Bucket { Bucket(0, 0, 0, 0, 0, 0) }

  function Plus(a: Bucket, b: Bucket): Bucket {
    Bucket(a.total + b.total, a.anthropic + b.anthropic,
           a.inputTotal + b.inputTotal, a.inputAnthropic + b.inputAnthropic,
           a.outputTotal + b.outputTotal, a.outputAnthropic + b.outputAnthropic)
  }

  function Requests(anthropic: bool): Bucket {
    Bucket(1, if anthropic then 1 else 0, 0, 0, 0, 0)
  }

  function Tokens(anthropic: bool, input: nat, output: nat): Bucket {
    Bucket(0, 0, input, if anthropic then input else 0, output, if anthropic then output else 0)
  }

  // ---- The ring ----------------------------------------------------------------------------

  datatype Ring = Ring(start: nat, buckets: seq<Bucket>)

  /** The first minute of the hour that ends with `minute`. */
  function Base(minute: nat): nat { if minute < N - 1 then 0 else minute - (N - 1) }

  function Zeros(n: nat): (bs: seq<Bucket>)
    ensures |bs| == n && forall i :: 0 <= i < n ==> bs[i] == Zero()
  {
    seq(n, _ => Zero())
  }

  function Cleared(bs: seq<Bucket>, from: nat, end: nat): (r: seq<Bucket>)
    requires |bs| == N
    ensures |r| == N
    decreases end
  {
    if end <= from then bs else Cleared(bs, from, end - 1)[(end - 1) % N := Zero()]
  }

  ghost predicate Sized(r: Ring) { |r.buckets| == N }

  function Advance(r: Ring, minute: nat): Ring
    requires |r.buckets| == N
  {
    var start := Base(minute);
    if start <= r.start then r
    else if start - r.start >= N then Ring(start, Zeros(N))
    else Ring(start, Cleared(r.buckets, r.start, start))
  }

  function Bump(r: Ring, minute: nat, amount: Bucket): Ring
    requires |r.buckets| == N
  {
    var a := Advance(r, minute);
    AdvanceSized(r, minute);
    a.(buckets := a.buckets[minute % N := Plus(a.buckets[minute % N], amount)])
  }

  lemma AdvanceSized(r: Ring, minute: nat)
    requires Sized(r)
    ensures Sized(Advance(r, minute))
  {}

  // ---- The tracker ---------------------------------------------------------------------------

  function Total(bs: seq<Bucket>): Bucket {
    if bs == [] then Zero() else Plus(Total(bs[..|bs| - 1]), bs[|bs| - 1])
  }

  class AgentStatsTracker {
    var startMinute: nat
    const buckets: array<Bucket>

    ghost predicate Valid()
      reads this
    {
      buckets.Length == N
    }

    ghost function View(): (r: Ring)
      requires Valid()
      reads this, buckets
      ensures Sized(r)
    {
      Ring(startMinute, buckets[..])
    }

    constructor (now: nat)
      ensures Valid() && fresh(buckets)
      ensures View() == Ring(Base(now), Zeros(N))
    {
      startMinute := if now < N - 1 then 0 else now - (N - 1);
      buckets := new Bucket[N](_ => Zero());
    }

    method AdvanceTo(target: nat)
      requires Valid()
      modifies this, buckets
      ensures Valid()
      ensures View() == Advance(old(View()), target)
    {
      var newStart := if target < N - 1 then 0 else target - (N - 1);
      if newStart <= startMinute {
        return;
      }
      ghost var was := buckets[..];
      if newStart - startMinute >= N {
        for i := 0 to N
          invariant startMinute == old(startMinute)
          invariant forall j :: 0 <= j < i ==> buckets[j] == Zero()
        {
          buckets[i] := Zero();
        }
        assert buckets[..] == Zeros(N);
      } else {
        for m := startMinute to newStart
          invariant startMinute == old(startMinute)
          invariant buckets[..] == Cleared(was, startMinute, m)
        {
          buckets[m % N] := Zero();
        }
      }
      startMinute := newStart;
    }

    method Record(now: nat, anthropic: bool)
      requires Valid()
      modifies this, buckets
      ensures Valid()
      ensures View() == Bump(old(View()), now, Requests(anthropic))
    {
      AdvanceTo(now);
      var slot := buckets[now % N];
      slot := slot.(total := slot.total + 1);
      if anthropic {
        slot := slot.(anthropic := slot.anthropic + 1);
      }
      buckets[now % N] := slot;
    }

    method RecordTokens(now: nat, anthropic: bool, input: nat, output: nat)
      requires Valid()
      modifies this, buckets
      ensures Valid()
      ensures View() == Bump(old(View()), now, Tokens(anthropic, input, output))
    {
      AdvanceTo(now);
      var slot := buckets[now % N];
      slot := slot.(inputTotal := slot.inputTotal + input,
                    outputTotal := slot.outputTotal + output);
      if anthropic {
        slot := slot.(inputAnthropic := slot.inputAnthropic + input,
                      outputAnthropic := slot.outputAnthropic + output);
      }
      buckets[now % N] := slot;
    }

    method Snapshot(now: nat) returns (events: seq<Bucket>, summary: Bucket)
      requires Valid()
      modifies this, buckets
      ensures Valid()
      ensures View() == Advance(old(View()), now)
      ensures events == Read(View(), now)
      ensures summary == Total(events)
    {
      AdvanceTo(now);
      var base := if now < N - 1 then 0 else now - (N - 1);
      events, summary := [], Zero();
      ghost var ring := View();
      ghost var hour := Read(ring, now);
      for i := 0 to N
        invariant View() == ring
        invariant events == hour[..i]
        invariant summary == Total(events)
      {
        var slot := buckets[(base + i) % N];
        assert slot == hour[i] by { assert ring.buckets[(base + i) % N] == slot; }
        TotalSnoc(events, slot);
        summary := Plus(summary, slot);
        events := events + [slot];
      }
      assert hour[..N] == hour;
    }
  }

  lemma TotalSnoc(bs: seq<Bucket>, b: Bucket)
    ensures Total(bs + [b]) == Plus(Total(bs), b)
  {
    assert (bs + [b])[..|bs|] == bs;
  }

  /** The hour that ends with `now`, oldest minute first. */
  function Read(r: Ring, now: nat): (bs: seq<Bucket>)
    requires |r.buckets| == N
    ensures |bs| == N
  {
    seq(N, i requires 0 <= i < N => r.buckets[(Base(now) + i) % N])
  }

  // ---- The log -------------------------------------------------------------------------------

  datatype Call =
    | Hit(minute: nat, amount: Bucket)
    | Look(minute: nat)

  function Do(r: Ring, c: Call): (r': Ring)
    requires |r.buckets| == N
    ensures |r'.buckets| == N
  {
    match c
    case Hit(m, amount) => Bump(r, m, amount)
    case Look(m) => AdvanceSized(r, m); Advance(r, m)
  }

  /** A tracker made at minute `first`, then called. */
  function Run(first: nat, calls: seq<Call>): (r: Ring)
    ensures |r.buckets| == N
  {
    if calls == [] then Ring(Base(first), Zeros(N))
    else Do(Run(first, calls[..|calls| - 1]), calls[|calls| - 1])
  }

  function Max(a: nat, b: nat): nat { if a < b then b else a }

  /** The latest minute the clock has shown. */
  function Top(first: nat, calls: seq<Call>): nat {
    if calls == [] then first
    else Max(Top(first, calls[..|calls| - 1]), calls[|calls| - 1].minute)
  }

  function AmountAt(c: Call, minute: nat): Bucket {
    if c.Hit? && c.minute == minute then c.amount else Zero()
  }

  function AmountWithin(c: Call, from: nat, to: nat): Bucket {
    if c.Hit? && from <= c.minute < to then c.amount else Zero()
  }

  /** What the full log holds for one minute. */
  function Logged(calls: seq<Call>, minute: nat): Bucket {
    if calls == [] then Zero()
    else Plus(Logged(calls[..|calls| - 1], minute), AmountAt(calls[|calls| - 1], minute))
  }

  /** What the full log holds for the minutes `from <= m < to`. */
  function LoggedWithin(calls: seq<Call>, from: nat, to: nat): Bucket {
    if calls == [] then Zero()
    else Plus(LoggedWithin(calls[..|calls| - 1], from, to),
              AmountWithin(calls[|calls| - 1], from, to))
  }

  lemma PlusZero(a: Bucket)
    ensures Plus(a, Zero()) == a
  {}

  lemma PlusSwaps(a: Bucket, b: Bucket, c: Bucket, d: Bucket)
    ensures Plus(Plus(a, b), Plus(c, d)) == Plus(Plus(a, c), Plus(b, d))
  {}

  lemma LoggedSnoc(calls: seq<Call>, c: Call, m: nat)
    ensures Logged(calls + [c], m) == Plus(Logged(calls, m), AmountAt(c, m))
    ensures AmountAt(c, m) == Zero() ==> Logged(calls + [c], m) == Logged(calls, m)
  {
    assert (calls + [c])[..|calls|] == calls;
    PlusZero(Logged(calls, m));
  }

  /** The clock never runs back a full hour; a non-decreasing clock is the usual case. */
  predicate Steady(first: nat, calls: seq<Call>) {
    calls == [] ||
    (Steady(first, calls[..|calls| - 1]) &&
     (calls[|calls| - 1].Hit? ==>
        Base(Top(first, calls[..|calls| - 1])) <= calls[|calls| - 1].minute))
  }

  // ---- Modular arithmetic ------------------------------------------------------------------------

  /** Two minutes less than an hour apart have different buckets. */
  lemma DifferentBuckets(a: nat, b: nat)
    requires a < b < a + N
    ensures a % N != b % N
  {}

  lemma NextLap(a: nat)
    ensures (a + N) % N == a % N
  {}

  lemma {:induction false} ClearedKeeps(bs: seq<Bucket>, from: nat, end: nat, m: nat)
    requires |bs| == N && from <= end <= m < from + N
    ensures Cleared(bs, from, end)[m % N] == bs[m % N]
    decreases end
  {
    if from < end {
      ClearedKeeps(bs, from, end - 1, m);
      DifferentBuckets(end - 1, m);
    }
  }

  lemma {:induction false} ClearedClears(bs: seq<Bucket>, from: nat, end: nat, m: nat)
    requires |bs| == N && from <= m < end
    ensures Cleared(bs, from, end)[m % N] == Zero()
    decreases end
  {
    if m < end - 1 { ClearedClears(bs, from, end - 1, m); }
  }

  // ---- The ring holds the last hour of the log -----------------------------------------------------

  ghost predicate Exact(r: Ring, top: nat, calls: seq<Call>) {
    Sized(r) && r.start == Base(top) &&
    (forall m :: r.start <= m < r.start + N ==> r.buckets[m % N] == Logged(calls, m)) &&
    (forall m: nat :: m > top ==> Logged(calls, m) == Zero())
  }

  lemma AdvanceKeepsExact(r: Ring, top: nat, calls: seq<Call>, minute: nat)
    requires Exact(r, top, calls)
    ensures Exact(Advance(r, minute), Max(top, minute), calls)
  {
    AdvanceSized(r, minute);
    var a, start := Advance(r, minute), Base(minute);
    if r.start < start {
      forall m | start <= m < start + N ensures a.buckets[m % N] == Logged(calls, m) {
        if start - r.start < N {
          if m < r.start + N {
            ClearedKeeps(r.buckets, r.start, start, m);
          } else {
            ClearedClears(r.buckets, r.start, start, m - N);
            NextLap(m - N);
          }
        }
      }
    }
  }

  lemma UpdateAt(bs: seq<Bucket>, minute: nat, x: Bucket, m: nat)
    requires |bs| == N && m < minute + N && minute < m + N
    ensures bs[minute % N := x][m % N] == if m == minute then x else bs[m % N]
  {
    if m < minute { DifferentBuckets(m, minute); }
    if minute < m { DifferentBuckets(minute, m); }
  }

  lemma BumpKeepsExact(r: Ring, top: nat, calls: seq<Call>, c: Call)
    requires Exact(r, top, calls) && c.Hit? && Base(top) <= c.minute
    ensures Exact(Do(r, c), Max(top, c.minute), calls + [c])
  {
    AdvanceKeepsExact(r, top, calls, c.minute);
    AddKeepsExact(Advance(r, c.minute), Max(top, c.minute), calls, c);
  }

  lemma AddKeepsExact(r: Ring, top: nat, calls: seq<Call>, c: Call)
    requires Exact(r, top, calls) && c.Hit? && Base(top) <= c.minute <= top
    ensures Exact(r.(buckets := r.buckets[c.minute % N := Plus(r.buckets[c.minute % N], c.amount)]),
                  top, calls + [c])
  {
    var x := Plus(r.buckets[c.minute % N], c.amount);
    var bs := r.buckets[c.minute % N := x];
    forall m | r.start <= m < r.start + N ensures bs[m % N] == Logged(calls + [c], m) {
      UpdateAt(r.buckets, c.minute, x, m);
      LoggedSnoc(calls, c, m);
    }
    forall m: nat | m > top ensures Logged(calls + [c], m) == Zero() {
      LoggedSnoc(calls, c, m);
    }
  }

  lemma LookKeepsExact(r: Ring, top: nat, calls: seq<Call>, c: Call)
    requires Exact(r, top, calls) && c.Look?
    ensures Exact(Do(r, c), Max(top, c.minute), calls + [c])
  {
    AdvanceKeepsExact(r, top, calls, c.minute);
    forall m: nat ensures Logged(calls + [c], m) == Logged(calls, m) {
      LoggedSnoc(calls, c, m);
    }
  }

  lemma {:induction false} RunIsExact(first: nat, calls: seq<Call>)
    requires Steady(first, calls)
    ensures Exact(Run(first, calls), Top(first, calls), calls)
    decreases |calls|
  {
    if calls != [] {
      var front, c := calls[..|calls| - 1], calls[|calls| - 1];
      RunIsExact(first, front);
      assert calls == front + [c];
      if c.Hit? {
        BumpKeepsExact(Run(first, front), Top(first, front), front, c);
      } else {
        LookKeepsExact(Run(first, front), Top(first, front), front, c);
      }
    }
  }

  /** Adding up the hour's buckets is adding up the hour's log. */
  lemma {:induction false} TotalIsWithin(bs: seq<Bucket>, calls: seq<Call>, base: nat)
    requires forall i :: 0 <= i < |bs| ==> bs[i] == Logged(calls, base + i)
    ensures Total(bs) == LoggedWithin(calls, base, base + |bs|)
    decreases |bs|
  {
    if bs == [] {
      WithinNone(calls, base);
    } else {
      TotalIsWithin(bs[..|bs| - 1], calls, base);
      WithinOneMore(calls, base, base + |bs| - 1);
    }
  }

  lemma {:induction false} WithinNone(calls: seq<Call>, m: nat)
    ensures LoggedWithin(calls, m, m) == Zero()
    decreases |calls|
  {
    if calls != [] {
      var front, c := calls[..|calls| - 1], calls[|calls| - 1];
      WithinNone(front, m);
      assert AmountWithin(c, m, m) == Zero();
      assert LoggedWithin(calls, m, m) == Plus(LoggedWithin(front, m, m), AmountWithin(c, m, m));
      PlusZero(Zero());
    }
  }

  lemma {:induction false} WithinOneMore(calls: seq<Call>, from: nat, to: nat)
    requires from <= to
    ensures LoggedWithin(calls, from, to + 1) == Plus(LoggedWithin(calls, from, to), Logged(calls, to))
    decreases |calls|
  {
    if calls != [] {
      var front, c := calls[..|calls| - 1], calls[|calls| - 1];
      WithinOneMore(front, from, to);
      var w, l, x, y := LoggedWithin(front, from, to), Logged(front, to),
                        AmountWithin(c, from, to), AmountAt(c, to);
      AmountOneMore(c, from, to);
      PlusSwaps(w, l, x, y);
      assert LoggedWithin(calls, from, to + 1) == Plus(Plus(w, l), Plus(x, y));
      assert LoggedWithin(calls, from, to) == Plus(w, x);
      assert Logged(calls, to) == Plus(l, y);
    }
  }

  lemma AmountOneMore(c: Call, from: nat, to: nat)
    requires from <= to
    ensures AmountWithin(c, from, to + 1) == Plus(AmountWithin(c, from, to), AmountAt(c, to))
  {}

  predicate ShareFits(b: Bucket) {
    b.anthropic <= b.total && b.inputAnthropic <= b.inputTotal && b.outputAnthropic <= b.outputTotal
  }

  lemma {:induction false} WithinShareFits(calls: seq<Call>, from: nat, to: nat)
    requires forall i :: 0 <= i < |calls| && calls[i].Hit? ==> ShareFits(calls[i].amount)
    ensures ShareFits(LoggedWithin(calls, from, to))
    decreases |calls|
  {
    if calls != [] { WithinShareFits(calls[..|calls| - 1], from, to); }
  }

  /** The ring a snapshot reads. */
  function Seen(first: nat, calls: seq<Call>, now: nat): (r: Ring)
    ensures |r.buckets| == N
  {
    Do(Run(first, calls), Look(now))
  }

  /** The latest minute the tracker knows of once a snapshot with this reading of the clock is made. */
  function Latest(first: nat, calls: seq<Call>, now: nat): nat { Max(Top(first, calls), now) }

  lemma SeenIsExact(first: nat, calls: seq<Call>, now: nat)
    requires Steady(first, calls)
    ensures Exact(Seen(first, calls, now), Latest(first, calls, now), calls)
  {
    RunIsExact(first, calls);
    AdvanceKeepsExact(Run(first, calls), Top(first, calls), calls, now);
  }

  /** The minute of the hour up to `top` that has the same bucket as `m`; `m` itself if it is one. */
  function Wrapped(top: nat, m: nat): nat { if Base(top) <= m then m else Base(top) + (m - Base(top)) % N }

  lemma WrappedShares(top: nat, m: nat)
    requires m < Base(top) + N
    ensures Base(top) <= Wrapped(top, m) < Base(top) + N && Wrapped(top, m) % N == m % N
  {}

  lemma ReadAt(r: Ring, top: nat, calls: seq<Call>, now: nat, i: nat)
    requires Exact(r, top, calls) && now <= top && i < N
    ensures Read(r, now)[i] == Logged(calls, Wrapped(top, Base(now) + i))
  {
    var m := Wrapped(top, Base(now) + i);
    WrappedShares(top, Base(now) + i);
    ReadCell(r, now, i);
    assert r.buckets[m % N] == Logged(calls, m);
  }

  lemma ReadCell(r: Ring, now: nat, i: nat)
    requires Sized(r) && i < N
    ensures Read(r, now)[i] == r.buckets[(Base(now) + i) % N]
  {}

  /** A snapshot, whatever its reading of the clock: its clock is read before the lock is taken, so
      records with a later minute may come first. Each bucket shows the exact sum of the full log
      for its minute if that is in the hour up to the latest minute known, and otherwise for the
      minute of that hour that has taken its bucket over. */
  lemma SnapshotShows(first: nat, calls: seq<Call>, now: nat)
    requires Steady(first, calls)
    ensures forall i :: 0 <= i < N ==>
              Read(Seen(first, calls, now), now)[i] == Logged(calls, Wrapped(Latest(first, calls, now), Base(now) + i))
  {
    SeenIsExact(first, calls, now);
    forall i | 0 <= i < N
      ensures Read(Seen(first, calls, now), now)[i] == Logged(calls, Wrapped(Latest(first, calls, now), Base(now) + i))
    {
      ReadAt(Seen(first, calls, now), Latest(first, calls, now), calls, now, i);
    }
  }

  /** The minute is one the snapshot shows and no longer in the latest hour. */
  predicate Overtaken(top: nat, now: nat, m: nat) { Base(now) <= m < Base(now) + N && m < Base(top) }

  /** Every bucket shows the minute it is labelled with. */
  ghost predicate AllTrue(bs: seq<Bucket>, calls: seq<Call>, now: nat) {
    |bs| == N && forall i :: 0 <= i < N ==> bs[i] == Logged(calls, Base(now) + i)
  }

  /** Every minute that has been overtaken holds what the minute in its place does. */
  ghost predicate NoneMissed(calls: seq<Call>, top: nat, now: nat) {
    forall m: nat :: Overtaken(top, now, m) ==> Logged(calls, m) == Logged(calls, Wrapped(top, m))
  }

  lemma AllTrueIff(bs: seq<Bucket>, calls: seq<Call>, top: nat, now: nat)
    requires |bs| == N && forall i :: 0 <= i < N ==> bs[i] == Logged(calls, Wrapped(top, Base(now) + i))
    ensures AllTrue(bs, calls, now) <==> NoneMissed(calls, top, now)
  {
    if AllTrue(bs, calls, now) {
      forall m: nat | Overtaken(top, now, m) ensures Logged(calls, m) == Logged(calls, Wrapped(top, m)) {
        var i := m - Base(now);
        assert bs[i] == Logged(calls, Base(now) + i);
      }
    }
    if NoneMissed(calls, top, now) {
      forall i | 0 <= i < N ensures bs[i] == Logged(calls, Base(now) + i) {
        assert Overtaken(top, now, Base(now) + i) || Base(top) <= Base(now) + i;
      }
    }
  }

  /** So the buckets are those of the minutes they are labelled with if and only if every minute that
      has been overtaken holds what the minute in its place does. */
  lemma SnapshotIsExactIff(first: nat, calls: seq<Call>, now: nat)
    requires Steady(first, calls)
    ensures AllTrue(Read(Seen(first, calls, now), now), calls, now) <==>
            NoneMissed(calls, Latest(first, calls, now), now)
  {
    SnapshotShows(first, calls, now);
    AllTrueIff(Read(Seen(first, calls, now), now), calls, Latest(first, calls, now), now);
  }

  /** When records of the next minute came first, the oldest bucket shows that newest minute. */
  lemma NewestShownAsOldest(first: nat, calls: seq<Call>, now: nat)
    requires Steady(first, calls) && Latest(first, calls, now) == now + 1 && now + 1 >= N
    ensures Read(Seen(first, calls, now), now)[0] == Logged(calls, now + 1)
  {
    SeenIsExact(first, calls, now);
    ReadAt(Seen(first, calls, now), now + 1, calls, now, 0);
    WrapsAround(now + 1);
  }

  /** So one request recorded while a snapshot is on its way is shown as sixty minutes old. */
  lemma LateSnapshotMisplaces(minute: nat, amount: Bucket, calls: seq<Call>, now: nat)
    requires minute >= N && calls == [Hit(minute, amount)] && now == minute - 1
    ensures Steady(now, calls) && Read(Seen(now, calls, now), now)[0] == amount && Logged(calls, Base(now)) == Zero()
  {
    OneHit(now, minute, amount);
    LoggedOne(minute, amount, minute);
    LoggedOne(minute, amount, Base(now));
    WrapsAround(minute);
    NewestShownAsOldest(now, calls, now);
  }

  lemma WrapsAround(minute: nat)
    requires minute >= N
    ensures Wrapped(minute, Base(minute - 1)) == minute && Base(minute - 1) != minute
  {}

  lemma OneHit(now: nat, minute: nat, amount: Bucket)
    requires now <= minute
    ensures Steady(now, [Hit(minute, amount)]) && Latest(now, [Hit(minute, amount)], now) == minute
  {
    assert [Hit(minute, amount)][..0] == [];
    assert Top(now, []) == now;
  }

  lemma LoggedOne(minute: nat, amount: Bucket, m: nat)
    ensures Logged([Hit(minute, amount)], m) == if m == minute then amount else Zero()
  {
    assert [Hit(minute, amount)][..0] == [];
    assert Logged([], m) == Zero();
    PlusZero(amount);
    PlusSwaps(Zero(), amount, Zero(), Zero());
  }

  // ---- The summary -----------------------------------------------------------------------------------

  lemma {:induction false} TotalJoins(a: seq<Bucket>, b: seq<Bucket>)
    ensures Total(a + b) == Plus(Total(a), Total(b))
    decreases |b|
  {
    if b == [] {
      assert a + b == a;
      PlusZero(Total(a));
    } else {
      var front, last := b[..|b| - 1], b[|b| - 1];
      assert a + b == (a + front) + [last] && b == front + [last];
      TotalSnoc(a + front, last);
      TotalSnoc(front, last);
      TotalJoins(a, front);
      PlusAssociates(Total(a), Total(front), last);
    }
  }

  lemma PlusAssociates(a: Bucket, b: Bucket, c: Bucket)
    ensures Plus(Plus(a, b), c) == Plus(a, Plus(b, c))
  {}

  lemma PlusCommutes(a: Bucket, b: Bucket)
    ensures Plus(a, b) == Plus(b, a)
  {}

  /** Where the reading starts does not matter to the sum. */
  lemma ReadIsRotation(r: Ring, now: nat)
    requires Sized(r)
    ensures Total(Read(r, now)) == Total(r.buckets)
  {
    var bs, k := r.buckets, Base(now) % N;
    forall i | 0 <= i < N ensures Read(r, now)[i] == (bs[k..] + bs[..k])[i] { Turn(Base(now), i); }
    assert Read(r, now) == bs[k..] + bs[..k];
    assert bs == bs[..k] + bs[k..];
    TotalJoins(bs[k..], bs[..k]);
    TotalJoins(bs[..k], bs[k..]);
    PlusCommutes(Total(bs[k..]), Total(bs[..k]));
  }

  lemma Turn(base: nat, i: nat)
    requires i < N
    ensures var k := base % N; (base + i) % N == if k + i < N then k + i else k + i - N
  {}

  /** The summary is the exact sum of the hour up to the latest minute known, whatever the reading of the
      clock. */
  lemma SummaryIsExact(first: nat, calls: seq<Call>, now: nat)
    requires Steady(first, calls)
    ensures var top := Latest(first, calls, now);
            Total(Read(Seen(first, calls, now), now)) == LoggedWithin(calls, Base(top), Base(top) + N)
  {
    var r, top := Seen(first, calls, now), Latest(first, calls, now);
    SeenIsExact(first, calls, now);
    ReadIsRotation(r, now);
    ReadIsRotation(r, top);
    ReadTotal(r, calls, top);
  }

  /** With a clock that is not behind, a snapshot shows, minute by minute, the exact sums of the full
      log, and its summary is the exact sum of the last hour. */
  lemma SnapshotIsExact(first: nat, calls: seq<Call>, now: nat)
    requires Steady(first, calls) && Top(first, calls) <= now
    ensures AllTrue(Read(Seen(first, calls, now), now), calls, now)
    ensures Total(Read(Seen(first, calls, now), now)) == LoggedWithin(calls, Base(now), Base(now) + N)
  {
    assert Latest(first, calls, now) == now;
    ShowsTruth(first, calls, now);
    SummaryIsExact(first, calls, now);
  }

  lemma ShowsTruth(first: nat, calls: seq<Call>, now: nat)
    requires Steady(first, calls) && Latest(first, calls, now) == now
    ensures AllTrue(Read(Seen(first, calls, now), now), calls, now)
  {
    SeenIsExact(first, calls, now);
    ReadIsLogged(Seen(first, calls, now), calls, now);
  }

  lemma ReadTotal(r: Ring, calls: seq<Call>, now: nat)
    requires Exact(r, now, calls)
    ensures Total(Read(r, now)) == LoggedWithin(calls, Base(now), Base(now) + N)
  {
    ReadIsLogged(r, calls, now);
    TotalIsWithin(Read(r, now), calls, Base(now));
  }

  lemma ReadIsLogged(r: Ring, calls: seq<Call>, now: nat)
    requires Exact(r, now, calls)
    ensures forall i :: 0 <= i < N ==> Read(r, now)[i] == Logged(calls, Base(now) + i)
  {}

  /** The Anthropic share never exceeds the total. */
  lemma SummaryShareFits(first: nat, calls: seq<Call>, now: nat)
    requires Steady(first, calls)
    requires forall i :: 0 <= i < |calls| && calls[i].Hit? ==> ShareFits(calls[i].amount)
    ensures ShareFits(Total(Read(Seen(first, calls, now), now)))
  {
    var top := Latest(first, calls, now);
    SummaryIsExact(first, calls, now);
    WithinShareFits(calls, Base(top), Base(top) + N);
  }

  // ---- A clock that runs back --------------------------------------------------------------------

  /** Some minute of the hour from `start` shares `minute`'s bucket. */
  lemma Alias(start: nat, minute: nat) returns (m: nat)
    ensures start <= m < start + N && m % N == minute % N
  {
    m := start + (minute - start) % N;
  }

  /** A request filed with a clock an hour or more behind lands in another minute's bucket. */
  lemma StaleHitMisfiles(r: Ring, top: nat, calls: seq<Call>, c: Call, m: nat)
    requires Exact(r, top, calls) && c.Hit? && c.minute < Base(top)
    requires r.start <= m < r.start + N && m % N == c.minute % N
    ensures Do(r, c).start == r.start
    ensures Do(r, c).buckets[m % N] == Plus(Logged(calls + [c], m), c.amount)
  {
    LateBump(r, c.minute, c.amount);
    LoggedSnoc(calls, c, m);
    assert AmountAt(c, m) == Zero();
    assert r.buckets[m % N] == Logged(calls, m);
  }

  lemma LateBump(r: Ring, minute: nat, amount: Bucket)
    requires Sized(r) && Base(minute) <= r.start
    ensures Bump(r, minute, amount).start == r.start
    ensures Bump(r, minute, amount).buckets[minute % N] == Plus(r.buckets[minute % N], amount)
  {}

  lemma PlusCancels(a: Bucket, b: Bucket)
    ensures Plus(a, b) == a <==> b == Zero()
  {}

  lemma EmptyHitKeepsExact(r: Ring, top: nat, calls: seq<Call>, c: Call)
    requires Exact(r, top, calls) && c.Hit? && c.minute < Base(top) && c.amount == Zero()
    ensures Exact(Do(r, c), top, calls + [c])
  {
    assert Advance(r, c.minute) == r;
    PlusZero(r.buckets[c.minute % N]);
    assert Do(r, c) == r;
    forall m: nat ensures Logged(calls + [c], m) == Logged(calls, m) {
      LoggedSnoc(calls, c, m);
    }
  }

  /** Recording keeps the ring exact precisely when the clock is less than an hour behind. */
  lemma HitIsExactIff(r: Ring, top: nat, calls: seq<Call>, c: Call)
    requires Exact(r, top, calls) && c.Hit?
    ensures Exact(Do(r, c), Max(top, c.minute), calls + [c]) <==>
            Base(top) <= c.minute || c.amount == Zero()
  {
    if Base(top) <= c.minute {
      BumpKeepsExact(r, top, calls, c);
    } else if c.amount == Zero() {
      EmptyHitKeepsExact(r, top, calls, c);
    } else {
      var m := Alias(Base(top), c.minute);
      StaleHitMisfiles(r, top, calls, c, m);
      PlusCancels(Logged(calls + [c], m), c.amount);
    }
  }
}
