/**
  * The limits in force at a minute of the day, limit by limit: what the active slot sets wins,
  * what it leaves open comes from the plan, and an explicit 60-second limit wins over a shorthand.
  */
module PlanLimits {
  import opened Wrappers
  import opened RateWindows
  import opened Plans
  import opened PlanShorthand

  // ---- Hours ---------------------------------------------------------------------------------

  /** Hours run clockwise from their start up to their end, across midnight or not. */
  lemma ActiveClockwise(h: Hours, minute: nat)
    requires h.start < DAY && h.end < DAY && minute < DAY
    ensures ActiveHours(h, minute) <==>
            (minute - h.start) % DAY < (h.end - h.start) % DAY
  {}

  // ---- Which slot decides --------------------------------------------------------------------

  /** Of an accepted schedule the active slot decides, wherever it stands. */
  lemma ActiveDecides(p: Plan, s: Slot, minute: nat)
    requires Accepted(p.schedule) && s in p.schedule && minute < DAY && Active(s, minute)
    ensures FirstActive(p.schedule, minute) == Some(s)
  {
    FirstActiveIs(p.schedule, minute);
    var t := FirstActive(p.schedule, minute).value;
    var i :| 0 <= i < |p.schedule| && p.schedule[i] == s;
    var j :| 0 <= j < |p.schedule| && p.schedule[j] == t;
    AtMostOneActive(p.schedule, minute, i, j);
  }

  lemma NoneDecides(p: Plan, minute: nat)
    requires forall s :: s in p.schedule ==> !Active(s, minute)
    ensures FirstActive(p.schedule, minute) == None
  {
    FirstActiveIs(p.schedule, minute);
  }

  // ---- Limits in force -----------------------------------------------------------------------

  /** Some entry of this length has the limit `v` on its requests, its tokens or its costs. */
  ghost predicate Has(ws: seq<WindowLimit>, secs: nat, d: Dimension, v: nat) {
    exists w :: w in ws && w.secs == secs &&
                ((d.Counts? && w.counts == Some(v)) || (d.Tokens? && w.tokens == Some(v)) ||
                 (d.Costs? && w.costs == Some(v)))
  }

  /** Some entry of this length limits requests; some entry of this length limits tokens. */
  predicate LimitsCounts(ws: seq<WindowLimit>, secs: nat) {
    exists w :: w in ws && w.secs == secs && w.counts.Some?
  }

  predicate LimitsTokens(ws: seq<WindowLimit>, secs: nat) {
    exists w :: w in ws && w.secs == secs && w.tokens.Some?
  }

  lemma HasIsLimits(ws: seq<WindowLimit>, secs: nat, d: Dimension, v: nat)
    ensures Has(ws, secs, d, v) <==> Limits(ws, secs, d, v)
  {}

  lemma MinuteIsLimited(ws: seq<WindowLimit>)
    ensures HasCounts(ws) <==> LimitsCounts(ws, 60)
    ensures HasTokens(ws) <==> LimitsTokens(ws, 60)
  {
    forall w | w in ws && w.secs == 60
      ensures w.counts.Some? ==> HasCounts(ws)
      ensures w.tokens.Some? ==> HasTokens(ws)
    {
      var i :| 0 <= i < |ws| && ws[i] == w;
    }
  }

  /** `v` is what `first` says, or, when it says nothing, what `second` says. */
  predicate FallsBack(first: Option<nat>, second: Option<nat>, v: nat) {
    first == Some(v) || (first == None && second == Some(v))
  }

  /** Merging keeps every limit, and adds the per-minute ones that no entry states. */
  lemma MergedHas(ws: seq<WindowLimit>, rpm: Option<nat>, tpm: Option<nat>,
                  secs: nat, d: Dimension, v: nat)
    ensures Has(Merged(ws, rpm, tpm), secs, d, v) <==>
            Has(ws, secs, d, v) ||
            (secs == 60 && d.Counts? && !LimitsCounts(ws, 60) && rpm == Some(v)) ||
            (secs == 60 && d.Tokens? && !LimitsTokens(ws, 60) && tpm == Some(v))
  {
    MergedLimits(ws, rpm, tpm, secs, d, v);
    HasIsLimits(ws, secs, d, v);
    HasIsLimits(Merged(ws, rpm, tpm), secs, d, v);
    MinuteIsLimited(ws);
    LimitsSnoc(ws, WindowLimit(if HasCounts(ws) then None else rpm,
                               if HasTokens(ws) then None else tpm, None, 60), secs, d, v);
  }

  /**
    * While a slot of an accepted schedule is active its limits are in force: its concurrency or else
    * the plan's; its windows or else, when it has none, the plan's; and for the minute, where those
    * windows do not limit requests or tokens, its shorthand or else the plan's.
    */
  lemma SlotLimitsInForce(p: Plan, s: Slot, minute: nat, secs: nat, d: Dimension, v: nat)
    requires Accepted(p.schedule) && s in p.schedule && minute < DAY && Active(s, minute)
    ensures EffectiveLimits(p, minute).concurrency == Some(v) <==>
            FallsBack(s.concurrency, p.concurrency, v)
    ensures var ws := if |s.windows| > 0 then s.windows else p.windows;
            Has(EffectiveLimits(p, minute).windows, secs, d, v) <==>
            Has(ws, secs, d, v) ||
            (secs == 60 && d.Counts? && !LimitsCounts(ws, 60) && FallsBack(s.rpm, p.rpm, v)) ||
            (secs == 60 && d.Tokens? && !LimitsTokens(ws, 60) && FallsBack(s.tpm, p.tpm, v))
  {
    ActiveDecides(p, s, minute);
    var ws := if |s.windows| > 0 then s.windows else p.windows;
    MergedHas(ws, s.rpm.Or(p.rpm), s.tpm.Or(p.tpm), secs, d, v);
  }

  /** While no slot is active the plan's own limits are in force. */
  lemma PlanLimitsInForce(p: Plan, minute: nat, secs: nat, d: Dimension, v: nat)
    requires forall s :: s in p.schedule ==> !Active(s, minute)
    ensures EffectiveLimits(p, minute).concurrency == p.concurrency
    ensures Has(EffectiveLimits(p, minute).windows, secs, d, v) <==>
            Has(p.windows, secs, d, v) ||
            (secs == 60 && d.Counts? && !LimitsCounts(p.windows, 60) && p.rpm == Some(v)) ||
            (secs == 60 && d.Tokens? && !LimitsTokens(p.windows, 60) && p.tpm == Some(v))
  {
    NoneDecides(p, minute);
    MergedHas(p.windows, p.rpm, p.tpm, secs, d, v);
  }

  // ---- Which counters a switch clears ----------------------------------------------------------

  /** Some entry has this length. */
  predicate OfLength(ws: seq<WindowLimit>, secs: nat) {
    exists w :: w in ws && w.secs == secs
  }

  lemma OfLengthIs(ws: seq<WindowLimit>, secs: nat)
    ensures secs in SecsOf(ws) <==> OfLength(ws, secs)
  {
    SecsOfIs(ws, secs);
    if OfLength(ws, secs) {
      var w :| w in ws && w.secs == secs;
      var i :| 0 <= i < |ws| && ws[i] == w;
    }
  }

  lemma {:induction false} SlotSecsIs(schedule: seq<Slot>, secs: nat)
    ensures secs in SlotSecs(schedule) <==> exists s :: s in schedule && OfLength(s.windows, secs)
  {
    if schedule != [] {
      OfLengthIs(schedule[0].windows, secs);
      SlotSecsIs(schedule[1..], secs);
      assert schedule == [schedule[0]] + schedule[1..];
      assert secs in SlotSecs(schedule) <==>
        OfLength(schedule[0].windows, secs) || secs in SlotSecs(schedule[1..]);
    }
  }

  /**
    * While a slot is active the counters cleared are those of the plan's windows whose length no
    * limit in force has.
    */
  lemma SlotStale(p: Plan, s: Slot, minute: nat, secs: nat)
    requires Accepted(p.schedule) && s in p.schedule && minute < DAY && Active(s, minute)
    ensures var e := EffectiveLimits(p, minute);
            secs in e.stale <==> OfLength(p.windows, secs) && !OfLength(e.windows, secs)
  {
    ActiveDecides(p, s, minute);
    var e := EffectiveLimits(p, minute);
    WithoutIs(SecsOf(p.windows), SecsOf(e.windows), secs);
    OfLengthIs(p.windows, secs);
    OfLengthIs(e.windows, secs);
  }

  /** While none is, they are those of any slot's windows whose length no window of the plan has. */
  lemma PlanStale(p: Plan, minute: nat, secs: nat)
    requires forall s :: s in p.schedule ==> !Active(s, minute)
    ensures secs in EffectiveLimits(p, minute).stale <==>
            (exists s :: s in p.schedule && OfLength(s.windows, secs)) && !OfLength(p.windows, secs)
  {
    NoneDecides(p, minute);
    WithoutIs(SlotSecs(p.schedule), SecsOf(p.windows), secs);
    SlotSecsIs(p.schedule, secs);
    OfLengthIs(p.windows, secs);
  }
}
