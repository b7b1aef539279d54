/**
  * Rate-limit plans: time-of-day schedules and the limits in force at a given minute.
  * A slot's hours are the pair its text parses to, or nothing when it does not parse.
  */
module Plans {
  import opened Wrappers
  import opened RateWindows

  const DAY: nat := 1440

  datatype Hours = Hours(start: nat, end: nat)

  datatype Slot = Slot(
    hours: Option<Hours>,
    concurrency: Option<nat>,
    rpm: Option<nat>,
    tpm: Option<nat>,
    windows: seq<WindowLimit>)

  datatype Plan = Plan(
    concurrency: Option<nat>,
    rpm: Option<nat>,
    tpm: Option<nat>,
    windows: seq<WindowLimit>,
    schedule: seq<Slot>)

  // ---- Hours -----------------------------------------------------------------------------

  predicate ActiveHours(h: Hours, minute: nat) {
    if h.start <= h.end then h.start <= minute < h.end
    else minute >= h.start || minute < h.end
  }

  predicate Active(s: Slot, minute: nat) {
    s.hours.Some? && ActiveHours(s.hours.value, minute)
  }

  /** The within-day intervals of a slot: two when it crosses midnight. */
  function Expand(h: Hours): seq<Hours> {
    if h.start < h.end then [h]
    else if h.start == h.end then [Hours(0, DAY)]
    else [Hours(h.start, DAY), Hours(0, h.end)]
  }

  function Max(a: nat, b: nat): nat { if a < b then b else a }
  function Min(a: nat, b: nat): nat { if a < b then a else b }

  predicate Meet(a: Hours, b: Hours) {
    Max(a.start, b.start) < Min(a.end, b.end)
  }

  predicate Overlap(a: Hours, b: Hours) {
    exists i, j :: 0 <= i < |Expand(a)| && 0 <= j < |Expand(b)| && Meet(Expand(a)[i], Expand(b)[j])
  }

  predicate Conflict(schedule: seq<Slot>, i: nat, j: nat) {
    i < j < |schedule| && schedule[i].hours.Some? && schedule[j].hours.Some? &&
    Overlap(schedule[i].hours.value, schedule[j].hours.value)
  }

  // ---- Validation --------------------------------------------------------------------------

  datatype Validation = Valid | Overlapping(first: nat, second: nat)

  /** `(i, j)` is the first conflicting pair in reading order. */
  ghost predicate FirstConflict(schedule: seq<Slot>, i: nat, j: nat) {
    Conflict(schedule, i, j) &&
    forall a: nat, b: nat :: Conflict(schedule, a, b) ==> a > i || (a == i && b >= j)
  }

  method AnyMeet(a: Hours, b: Hours) returns (r: bool)
    ensures r == Overlap(a, b)
  {
    var xs, ys := Expand(a), Expand(b);
    for i := 0 to |xs|
      invariant forall k, l :: 0 <= k < i && 0 <= l < |ys| ==> !Meet(xs[k], ys[l])
    {
      for j := 0 to |ys|
        invariant forall l :: 0 <= l < j ==> !Meet(xs[i], ys[l])
      {
        if Meet(xs[i], ys[j]) {
          return true;
        }
      }
    }
    return false;
  }

  /** Slots that do not parse are skipped; positions are those of the schedule. */
  method ValidateScheduleOverlap(schedule: seq<Slot>) returns (r: Validation)
    ensures r.Valid? <==> forall i: nat, j: nat :: !Conflict(schedule, i, j)
    ensures r.Overlapping? ==> FirstConflict(schedule, r.first, r.second)
  {
    for i := 0 to |schedule|
      invariant forall a: nat, b: nat :: a < i ==> !Conflict(schedule, a, b)
    {
      if schedule[i].hours.Some? {
        for j := i + 1 to |schedule|
          invariant forall b: nat :: b < j ==> !Conflict(schedule, i, b)
        {
          if schedule[j].hours.Some? {
            var overlap := AnyMeet(schedule[i].hours.value, schedule[j].hours.value);
            if overlap {
              assert Conflict(schedule, i, j);
              return Overlapping(i, j);
            }
          }
        }
      }
    }
    return Valid;
  }

  // ---- What validation guarantees ------------------------------------------------------------

  lemma ActiveIsCovered(h: Hours, minute: nat) returns (i: nat)
    requires minute < DAY && ActiveHours(h, minute)
    ensures i < |Expand(h)| && Expand(h)[i].start <= minute < Expand(h)[i].end
  {
    if h.start < h.end || minute >= h.start {
      i := 0;
    } else {
      i := 1;
    }
  }

  /** Two slots active at one minute overlap, and so conflict. */
  lemma BothActiveOverlap(a: Hours, b: Hours, minute: nat)
    requires minute < DAY && ActiveHours(a, minute) && ActiveHours(b, minute)
    ensures Overlap(a, b)
  {
    var i := ActiveIsCovered(a, minute);
    var j := ActiveIsCovered(b, minute);
    assert Meet(Expand(a)[i], Expand(b)[j]);
  }

  lemma BothActiveConflict(schedule: seq<Slot>, minute: nat, i: nat, j: nat)
    requires i < j < |schedule| && minute < DAY
    requires Active(schedule[i], minute) && Active(schedule[j], minute)
    ensures Conflict(schedule, i, j)
  {
    BothActiveOverlap(schedule[i].hours.value, schedule[j].hours.value, minute);
  }

  ghost predicate Accepted(schedule: seq<Slot>) {
    forall i: nat, j: nat :: !Conflict(schedule, i, j)
  }

  /** In an accepted schedule at most one slot is active at every minute of the day. */
  lemma AtMostOneActive(schedule: seq<Slot>, minute: nat, i: nat, j: nat)
    requires Accepted(schedule) && minute < DAY
    requires i < |schedule| && j < |schedule|
    requires Active(schedule[i], minute) && Active(schedule[j], minute)
    ensures i == j
  {
    if i < j {
      BothActiveConflict(schedule, minute, i, j);
    } else if j < i {
      BothActiveConflict(schedule, minute, j, i);
    }
  }

  /** Hours that can be met within the day: not empty, and not starting past midnight. */
  predicate Reachable(h: Hours) {
    h.start != h.end && (h.start < DAY || h.start > h.end)
  }

  /**
    * A reported conflict is a real one exactly when both slots are reachable; otherwise no
    * minute of the day has both active.
    */
  lemma ConflictHasWitness(a: Hours, b: Hours)
    requires Overlap(a, b)
    ensures (exists m: nat :: m < DAY && ActiveHours(a, m) && ActiveHours(b, m)) <==>
            Reachable(a) && Reachable(b)
  {
    if Reachable(a) && Reachable(b) {
      var i, j :| 0 <= i < |Expand(a)| && 0 <= j < |Expand(b)| && Meet(Expand(a)[i], Expand(b)[j]);
      var m := Max(Expand(a)[i].start, Expand(b)[j].start);
      InRangeIsActive(a, i, m);
      InRangeIsActive(b, j, m);
      assert m < DAY by { LateStart(a, i); LateStart(b, j); }
    }
  }

  lemma InRangeIsActive(h: Hours, i: nat, m: nat)
    requires Reachable(h) && i < |Expand(h)|
    requires Expand(h)[i].start <= m < Expand(h)[i].end
    ensures ActiveHours(h, m)
  {}

  lemma LateStart(h: Hours, i: nat)
    requires Reachable(h) && i < |Expand(h)| && Expand(h)[i].start < Expand(h)[i].end
    ensures Expand(h)[i].start < DAY
  {}

  /** The hours reach into the day at all. */
  predicate MeetsDay(h: Hours) {
    h.start == h.end || (h.start < h.end && h.start < DAY) || (h.start > h.end && (h.start < DAY || h.end > 0))
  }

  /** Equal endpoints count as a full day when slots are compared, so that every slot that reaches
      into the day, across midnight or not, conflicts with them; yet they are never active. */
  lemma EqualEndpointsNeverActive(t: nat, h: Hours, m: nat)
    ensures Overlap(Hours(t, t), h) <==> MeetsDay(h)
    ensures !ActiveHours(Hours(t, t), m)
  {
    var day := Expand(Hours(t, t));
    assert day == [Hours(0, DAY)];
    if MeetsDay(h) {
      var j := if h.start > h.end && h.start >= DAY then 1 else 0;
      assert Meet(day[0], Expand(h)[j]);
    }
  }

  // ---- Effective limits ------------------------------------------------------------------------

  predicate HasCounts(ws: seq<WindowLimit>) {
    exists i :: 0 <= i < |ws| && ws[i].secs == 60 && ws[i].counts.Some?
  }

  predicate HasTokens(ws: seq<WindowLimit>) {
    exists i :: 0 <= i < |ws| && ws[i].secs == 60 && ws[i].tokens.Some?
  }

  /** The first 60-second entry, or the length. */
  function First60(ws: seq<WindowLimit>): (i: nat)
    ensures i <= |ws|
    ensures i < |ws| ==> ws[i].secs == 60
    ensures forall j :: 0 <= j < i ==> ws[j].secs != 60
  {
    if ws == [] || ws[0].secs == 60 then 0 else 1 + First60(ws[1..])
  }

  predicate NeedsShorthand(ws: seq<WindowLimit>, rpm: Option<nat>, tpm: Option<nat>) {
    (rpm.Some? && !HasCounts(ws)) || (tpm.Some? && !HasTokens(ws))
  }

  /** The entry that hosts the shorthand dimensions. */
  function Hosted(ws: seq<WindowLimit>, w: WindowLimit, rpm: Option<nat>, tpm: Option<nat>)
    : WindowLimit
  {
    WindowLimit(if HasCounts(ws) then w.counts else rpm,
                if HasTokens(ws) then w.tokens else tpm, w.costs, w.secs)
  }

  const Blank60: WindowLimit := WindowLimit(None, None, None, 60)

  function Merged(ws: seq<WindowLimit>, rpm: Option<nat>, tpm: Option<nat>): seq<WindowLimit> {
    if !NeedsShorthand(ws, rpm, tpm) then ws
    else
      var i := First60(ws);
      if i < |ws| then ws[i := Hosted(ws, ws[i], rpm, tpm)]
      else ws + [Hosted(ws, Blank60, rpm, tpm)]
  }

  method MergeShorthand(ws: seq<WindowLimit>, rpm: Option<nat>, tpm: Option<nat>)
    returns (r: seq<WindowLimit>)
    ensures r == Merged(ws, rpm, tpm)
  {
    var hasCounts, hasTokens := false, false;
    for i := 0 to |ws|
      invariant hasCounts <==> exists j :: 0 <= j < i && ws[j].secs == 60 && ws[j].counts.Some?
      invariant hasTokens <==> exists j :: 0 <= j < i && ws[j].secs == 60 && ws[j].tokens.Some?
    {
      hasCounts := hasCounts || (ws[i].secs == 60 && ws[i].counts.Some?);
      hasTokens := hasTokens || (ws[i].secs == 60 && ws[i].tokens.Some?);
    }
    r := ws;
    if !((rpm.Some? && !hasCounts) || (tpm.Some? && !hasTokens)) {
      return;
    }
    var idx := 0;
    while idx < |r| && r[idx].secs != 60
      invariant idx <= |r| && forall j :: 0 <= j < idx ==> r[j].secs != 60
    {
      idx := idx + 1;
    }
    if idx == |r| {
      r := r + [Blank60];
    }
    if !hasCounts {
      r := r[idx := r[idx].(counts := rpm)];
    }
    if !hasTokens {
      r := r[idx := r[idx].(tokens := tpm)];
    }
  }

  function SecsOf(ws: seq<WindowLimit>): seq<nat> {
    if ws == [] then [] else [ws[0].secs] + SecsOf(ws[1..])
  }

  function SlotSecs(schedule: seq<Slot>): seq<nat> {
    if schedule == [] then [] else SecsOf(schedule[0].windows) + SlotSecs(schedule[1..])
  }

  function Without(xs: seq<nat>, ys: seq<nat>): seq<nat> {
    if xs == [] then []
    else (if xs[0] in ys then [] else [xs[0]]) + Without(xs[1..], ys)
  }

  function FirstActive(schedule: seq<Slot>, minute: nat): Option<Slot> {
    if schedule == [] then None
    else if Active(schedule[0], minute) then Some(schedule[0])
    else FirstActive(schedule[1..], minute)
  }

  datatype Effective = Effective(
    concurrency: Option<nat>, windows: seq<WindowLimit>, stale: seq<nat>)

  /** A slot's fields override the plan's; unset ones fall back to it. */
  function UnderSlot(p: Plan, s: Slot): Effective {
    var windows := if s.windows == [] then p.windows else s.windows;
    var merged := Merged(windows, s.rpm.Or(p.rpm), s.tpm.Or(p.tpm));
    Effective(s.concurrency.Or(p.concurrency), merged, Without(SecsOf(p.windows), SecsOf(merged)))
  }

  function UnderNone(p: Plan): Effective {
    Effective(p.concurrency, Merged(p.windows, p.rpm, p.tpm),
              Without(SlotSecs(p.schedule), SecsOf(p.windows)))
  }

  function EffectiveLimits(p: Plan, minute: nat): Effective {
    match FirstActive(p.schedule, minute)
    case Some(s) => UnderSlot(p, s)
    case None => UnderNone(p)
  }

  lemma {:induction false} FirstActiveIs(schedule: seq<Slot>, minute: nat)
    ensures match FirstActive(schedule, minute)
            case Some(s) => s in schedule && Active(s, minute)
            case None => forall s :: s in schedule ==> !Active(s, minute)
  {
    if schedule != [] { FirstActiveIs(schedule[1..], minute); }
  }

  /** Limits in force do not depend on the order of an accepted schedule's slots. */
  lemma SlotOrderIsIrrelevant(p: Plan, q: Plan, minute: nat)
    requires q == p.(schedule := q.schedule)
    requires multiset(p.schedule) == multiset(q.schedule)
    requires Accepted(p.schedule) && minute < DAY
    ensures EffectiveLimits(p, minute).concurrency == EffectiveLimits(q, minute).concurrency
    ensures EffectiveLimits(p, minute).windows == EffectiveLimits(q, minute).windows
    ensures FirstActive(p.schedule, minute).Some? ==>
              EffectiveLimits(p, minute) == EffectiveLimits(q, minute)
  {
    FirstActiveIs(p.schedule, minute);
    FirstActiveIs(q.schedule, minute);
    forall s ensures s in p.schedule <==> s in q.schedule {
      assert s in multiset(p.schedule) <==> s in multiset(q.schedule);
    }
    if FirstActive(p.schedule, minute).Some? && FirstActive(q.schedule, minute).Some? {
      var s, t := FirstActive(p.schedule, minute).value, FirstActive(q.schedule, minute).value;
      var i :| 0 <= i < |p.schedule| && p.schedule[i] == s;
      var j :| 0 <= j < |p.schedule| && p.schedule[j] == t;
      AtMostOneActive(p.schedule, minute, i, j);
    }
  }

  // ---- Stale windows ---------------------------------------------------------------------------

  lemma {:induction false} WithoutIs(xs: seq<nat>, ys: seq<nat>, x: nat)
    ensures x in Without(xs, ys) <==> x in xs && x !in ys
  {
    if xs != [] { WithoutIs(xs[1..], ys, x); }
  }

  ghost predicate Disjoint(xs: seq<nat>, ys: seq<nat>) {
    forall x :: x in xs ==> x !in ys
  }

  /** With a slot active, no counter in force is cleared. */
  lemma StaleSparesActive(p: Plan, s: Slot)
    ensures Disjoint(UnderSlot(p, s).stale, SecsOf(UnderSlot(p, s).windows))
  {
    forall x ensures x in UnderSlot(p, s).stale ==> x !in SecsOf(UnderSlot(p, s).windows) {
      WithoutIs(SecsOf(p.windows), SecsOf(UnderSlot(p, s).windows), x);
    }
  }

  lemma {:induction false} SecsOfIs(ws: seq<WindowLimit>, x: nat)
    ensures x in SecsOf(ws) <==> exists i :: 0 <= i < |ws| && ws[i].secs == x
  {
    if ws != [] {
      SecsOfIs(ws[1..], x);
      if x in SecsOf(ws[1..]) {
        var i :| 0 <= i < |ws[1..]| && ws[1..][i].secs == x;
        assert ws[i + 1].secs == x;
      }
      if exists i :: 0 <= i < |ws| && ws[i].secs == x {
        var i :| 0 <= i < |ws| && ws[i].secs == x;
        assert i > 0 ==> ws[1..][i - 1].secs == x;
      }
    }
  }

  /** Merging adds 60 to the window lengths when the shorthand needs it, and nothing else. */
  lemma MergedSecs(ws: seq<WindowLimit>, rpm: Option<nat>, tpm: Option<nat>, x: nat)
    ensures x in SecsOf(Merged(ws, rpm, tpm)) <==>
            x in SecsOf(ws) || (x == 60 && NeedsShorthand(ws, rpm, tpm))
  {
    var m := Merged(ws, rpm, tpm);
    SecsOfIs(ws, x);
    SecsOfIs(m, x);
    if NeedsShorthand(ws, rpm, tpm) {
      var i := First60(ws);
      assert m[i].secs == 60;
      assert forall j :: 0 <= j < |ws| ==> m[j].secs == ws[j].secs;
    }
  }

  /**
    * With no slot active, counters in force are spared exactly when no slot has a 60-second
    * window that the base gets only from its shorthand.
    */
  lemma StaleSparesBaseIff(p: Plan)
    ensures Disjoint(UnderNone(p).stale, SecsOf(UnderNone(p).windows)) <==>
            !(60 in SlotSecs(p.schedule) && 60 !in SecsOf(p.windows) &&
              (p.rpm.Some? || p.tpm.Some?))
  {
    forall x
      ensures x in UnderNone(p).stale <==> x in SlotSecs(p.schedule) && x !in SecsOf(p.windows)
      ensures x in SecsOf(UnderNone(p).windows) <==>
              x in SecsOf(p.windows) || (x == 60 && NeedsShorthand(p.windows, p.rpm, p.tpm))
    {
      WithoutIs(SlotSecs(p.schedule), SecsOf(p.windows), x);
      MergedSecs(p.windows, p.rpm, p.tpm, x);
    }
    SecsOfIs(p.windows, 60);
  }

  /** A base limited by rpm alone loses its minute counter to a slot's explicit 60-second one. */
  lemma ShorthandCounterIsCleared(limit: nat)
    ensures var w := WindowLimit(Some(limit), None, None, 60);
            var p := Plan(None, Some(limit), None, [],
                          [Slot(Some(Hours(540, 1260)), None, None, None, [w])]);
            !Disjoint(EffectiveLimits(p, 0).stale, SecsOf(EffectiveLimits(p, 0).windows))
  {
    var w := WindowLimit(Some(limit), None, None, 60);
    var s := Slot(Some(Hours(540, 1260)), None, None, None, [w]);
    var p := Plan(None, Some(limit), None, [], [s]);
    assert !Active(s, 0);
    FirstActiveIs(p.schedule, 0);
    assert SecsOf([w]) == [60] by { assert [w][1..] == []; }
    assert SlotSecs([s]) == [60] by { assert [s][1..] == []; }
    assert 60 in SlotSecs(p.schedule);
    StaleSparesBaseIff(p);
  }
}
