/**
  * Chart bucketing: a time range cut into equal buckets from its start, the bucket of an
  * instant, and the choice of a bucket size for a custom range. Instants are whole seconds.
  */
module ChartBuckets {

  const MaxRangeSecs: int := 90 * 86400

  datatype TimeWindow = TimeWindow(from: int, to: int, bucketSecs: int)

  // ---- Buckets of a window -----------------------------------------------------------------

  /** The start of bucket number `k`. */
  function Start(w: TimeWindow, k: int): int { w.from + k * w.bucketSecs }

  /** Every bucket start in `[from, to)`, in order and evenly spaced from `from`. */
  ghost predicate Covers(w: TimeWindow, v: seq<int>) {
    (forall i :: 0 <= i < |v| ==> v[i] == Start(w, i) && v[i] < w.to) &&
    (|v| == 0 || v[|v| - 1] + w.bucketSecs >= w.to) &&
    (|v| == 0 ==> w.from >= w.to)
  }

  method ExpectedBuckets(w: TimeWindow) returns (v: seq<int>)
    requires w.bucketSecs > 0
    ensures Covers(w, v)
  {
    v := [];
    var ts := w.from;
    while ts < w.to
      invariant ts == Start(w, |v|)
      invariant forall i :: 0 <= i < |v| ==> v[i] == Start(w, i) && v[i] < w.to
      invariant v != [] ==> v[|v| - 1] + w.bucketSecs == ts
      invariant v == [] ==> ts == w.from
      decreases w.to - ts
    {
      NextStart(w, |v|);
      v := v + [ts];
      ts := ts + w.bucketSecs;
    }
  }

  lemma NextStart(w: TimeWindow, k: int)
    ensures Start(w, k + 1) == Start(w, k) + w.bucketSecs
  {}

  /** The bucket an instant falls into. */
  function BucketOf(w: TimeWindow, t: int): int
    requires w.bucketSecs > 0
  {
    w.from + ((t - w.from) / w.bucketSecs) * w.bucketSecs
  }

  lemma DivBounds(x: int, b: int)
    requires b > 0
    ensures (x / b) * b <= x < (x / b) * b + b
    ensures x >= 0 ==> x / b >= 0
  {}

  lemma {:induction false} StartsAscend(w: TimeWindow, i: int, j: int)
    requires w.bucketSecs > 0 && i < j
    ensures Start(w, i) + w.bucketSecs <= Start(w, j)
    decreases j - i
  {
    NextStart(w, j - 1);
    if i < j - 1 { StartsAscend(w, i, j - 1); }
  }

  /** Every instant of the window is in exactly one bucket, the one it falls into. */
  lemma EachInstantHasItsBucket(w: TimeWindow, v: seq<int>, t: int) returns (k: nat)
    requires w.bucketSecs > 0 && Covers(w, v) && w.from <= t < w.to
    ensures k < |v| && v[k] == BucketOf(w, t) && v[k] <= t < v[k] + w.bucketSecs
    ensures forall i :: 0 <= i < |v| && i != k ==> v[i] != v[k]
    ensures forall i :: 0 <= i < |v| && v[i] <= t < v[i] + w.bucketSecs ==> i == k
  {
    DivBounds(t - w.from, w.bucketSecs);
    k := (t - w.from) / w.bucketSecs;
    assert Start(w, k) == BucketOf(w, t);
    if k >= |v| {
      if k > |v| - 1 { StartsAscend(w, |v| - 1, k); }
      assert false;
    }
    forall i | 0 <= i < |v| && i != k
      ensures v[i] != v[k] && !(v[i] <= t < v[i] + w.bucketSecs)
    {
      if i < k { StartsAscend(w, i, k); } else { StartsAscend(w, k, i); }
    }
  }

  // ---- Conservation ------------------------------------------------------------------------

  /** How many rows fall into the bucket starting at `b`. */
  function CountIn(w: TimeWindow, rows: seq<int>, b: int): nat
    requires w.bucketSecs > 0
  {
    if rows == [] then 0
    else CountIn(w, rows[..|rows| - 1], b) + if BucketOf(w, rows[|rows| - 1]) == b then 1 else 0
  }

  /** The chart's bars added up. */
  function BarSum(w: TimeWindow, rows: seq<int>, v: seq<int>): nat
    requires w.bucketSecs > 0
  {
    if v == [] then 0
    else BarSum(w, rows, v[..|v| - 1]) + CountIn(w, rows, v[|v| - 1])
  }

  /** One more row adds one to the bars exactly when its bucket is among them. */
  lemma {:induction false} OneMoreRow(w: TimeWindow, rows: seq<int>, t: int, v: seq<int>)
    requires w.bucketSecs > 0
    requires forall i, j :: 0 <= i < j < |v| ==> v[i] != v[j]
    ensures BarSum(w, rows + [t], v) ==
            BarSum(w, rows, v) + if BucketOf(w, t) in v then 1 else 0
    decreases |v|
  {
    if v != [] {
      var front, last := v[..|v| - 1], v[|v| - 1];
      OneMoreRow(w, rows, t, front);
      assert (rows + [t])[..|rows|] == rows;
      assert v == front + [last];
      assert last !in front;
    }
  }

  lemma {:induction false} NoRows(w: TimeWindow, v: seq<int>)
    requires w.bucketSecs > 0
    ensures BarSum(w, [], v) == 0
    decreases |v|
  {
    if v != [] { NoRows(w, v[..|v| - 1]); }
  }

  /** The bars of a chart add up to its rows. */
  lemma {:induction false} BarsConserveRows(w: TimeWindow, rows: seq<int>, v: seq<int>)
    requires w.bucketSecs > 0 && Covers(w, v)
    requires forall i :: 0 <= i < |rows| ==> w.from <= rows[i] < w.to
    ensures BarSum(w, rows, v) == |rows|
    decreases |rows|
  {
    if rows == [] {
      NoRows(w, v);
    } else {
      var front, t := rows[..|rows| - 1], rows[|rows| - 1];
      BarsConserveRows(w, front, v);
      assert rows == front + [t];
      var k := EachInstantHasItsBucket(w, v, t);
      forall i, j | 0 <= i < j < |v| ensures v[i] != v[j] { StartsAscend(w, i, j); }
      OneMoreRow(w, front, t, v);
    }
  }

  // ---- Custom windows ------------------------------------------------------------------------

  function Nice(): (r: seq<int>)
    ensures |r| == 12 && r[0] == 60 && r[11] == 172800
    ensures forall i :: 0 <= i < |r| ==> r[i] >= 60
    ensures forall i, j :: 0 <= i < j < |r| ==> r[i] < r[j]
  {
    [60, 300, 600, 900, 1800, 3600, 7200, 14400, 21600, 43200, 86400, 172800]
  }

  function Target(duration: int): int {
    if duration / 48 < 60 then 60 else duration / 48
  }

  lemma NiceSizes()
    ensures Nice()[0] == 60 && Nice()[1] == 300 && Nice()[2] == 600 && Nice()[3] == 900
    ensures Nice()[4] == 1800 && Nice()[5] == 3600 && Nice()[6] == 7200 && Nice()[7] == 14400
    ensures Nice()[8] == 21600 && Nice()[9] == 43200 && Nice()[10] == 86400 && Nice()[11] == 172800
  {}

  /** The smallest nice size that is big enough; the last one when none is. */
  method PickBucketSecs(duration: int) returns (r: int)
    ensures r in Nice()
    ensures forall n :: n in Nice() && n >= Target(duration) ==> r <= n
    ensures Target(duration) <= 172800 ==> r >= Target(duration)
    ensures Target(duration) == 60 ==> r == 60
    ensures 60 < Target(duration) <= 300 ==> r == 300
    ensures 300 < Target(duration) <= 600 ==> r == 600
    ensures 600 < Target(duration) <= 900 ==> r == 900
    ensures 900 < Target(duration) <= 1800 ==> r == 1800
    ensures 1800 < Target(duration) <= 3600 ==> r == 3600
    ensures 3600 < Target(duration) <= 7200 ==> r == 7200
    ensures 7200 < Target(duration) <= 14400 ==> r == 14400
    ensures 14400 < Target(duration) <= 21600 ==> r == 21600
    ensures 21600 < Target(duration) <= 43200 ==> r == 43200
    ensures 43200 < Target(duration) <= 86400 ==> r == 86400
    ensures 86400 < Target(duration) ==> r == 172800
  {
    var target := if duration / 48 < 60 then 60 else duration / 48;
    var nice := Nice();
    NiceSizes();
    for i := 0 to |nice|
      invariant forall j :: 0 <= j < i ==> nice[j] < target
    {
      if nice[i] >= target {
        return nice[i];
      }
    }
    assert nice[11] < target;
    return 172800;
  }

  method BuildCustomWindow(from: int, to: int) returns (w: TimeWindow)
    requires from < to
    ensures w.to == to && from <= w.from < to
    ensures w.to - w.from <= MaxRangeSecs
    ensures w.from == from <==> to - from <= MaxRangeSecs
    ensures w.bucketSecs in Nice() && w.bucketSecs >= Target(w.to - w.from)
    ensures forall n :: n in Nice() && n >= Target(w.to - w.from) ==> w.bucketSecs <= n
  {
    var effectiveFrom := if to - from > MaxRangeSecs then to - MaxRangeSecs else from;
    var bucket := PickBucketSecs(to - effectiveFrom);
    w := TimeWindow(effectiveFrom, to, bucket);
  }

  /** A custom window never has more than 49 bars. */
  lemma AtMostFortyNineBars(w: TimeWindow, v: seq<int>)
    requires w.from < w.to && w.bucketSecs >= Target(w.to - w.from)
    requires Covers(w, v)
    ensures 1 <= |v| <= 49
  {
    FiftiethIsPast(w);
  }

  lemma FiftiethIsPast(w: TimeWindow)
    requires w.from < w.to && w.bucketSecs >= Target(w.to - w.from)
    ensures Start(w, 49) >= w.to
  {
    var b, d := w.bucketSecs, w.to - w.from;
    assert b >= 60 && b >= d / 48;
    assert d <= 48 * (d / 48) + 47;
  }

  /** The bound is reached: 48 minutes and a second take a 49th bar. */
  lemma FortyNinthBarHappens(w: TimeWindow, v: seq<int>)
    requires w == TimeWindow(0, 48 * 60 + 1, 60) && Covers(w, v)
    ensures w.bucketSecs == Target(w.to - w.from) && |v| == 49
  {
    assert Target(2881) == 60;
    AtMostFortyNineBars(w, v);
    assert v[|v| - 1] == Start(w, |v| - 1);
  }

  /** Within 90 days the list always has a big enough size: its fallback is never taken. */
  lemma FallbackUnreachable(duration: int)
    requires 0 < duration <= MaxRangeSecs
    ensures exists n :: n in Nice() && n >= Target(duration)
  {
    assert Nice()[11] in Nice();
  }
}
