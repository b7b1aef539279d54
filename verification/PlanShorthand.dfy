/**
  * The per-minute shorthands mean what their explicit 60-second form means: merging is
  * idempotent, leaves explicit limits alone, and admits the same requests in every run.
  */
module PlanShorthand {
  import opened Wrappers
  import opened RateWindows
  import R = RateRuns
  import opened Plans

  // ---- Merging -----------------------------------------------------------------------------

  /** After merging, nothing is left to merge. */
  lemma MergeSatisfies(ws: seq<WindowLimit>, rpm: Option<nat>, tpm: Option<nat>)
    ensures !NeedsShorthand(Merged(ws, rpm, tpm), rpm, tpm)
  {
    if NeedsShorthand(ws, rpm, tpm) {
      var m, i := Merged(ws, rpm, tpm), First60(ws);
      assert m[i].secs == 60;
      if rpm.Some? {
        if HasCounts(ws) {
          var j :| 0 <= j < |ws| && ws[j].secs == 60 && ws[j].counts.Some?;
          assert m[j].secs == 60 && m[j].counts.Some?;
        } else {
          assert m[i].counts.Some?;
        }
      }
      if tpm.Some? {
        if HasTokens(ws) {
          var j :| 0 <= j < |ws| && ws[j].secs == 60 && ws[j].tokens.Some?;
          assert m[j].secs == 60 && m[j].tokens.Some?;
        } else {
          assert m[i].tokens.Some?;
        }
      }
    }
  }

  lemma MergeIsIdempotent(ws: seq<WindowLimit>, rpm: Option<nat>, tpm: Option<nat>)
    ensures Merged(Merged(ws, rpm, tpm), rpm, tpm) == Merged(ws, rpm, tpm)
  {
    MergeSatisfies(ws, rpm, tpm);
  }

  /** Every configured limit survives where it stood; only a missing one may be filled in. */
  lemma MergeKeepsExplicit(ws: seq<WindowLimit>, rpm: Option<nat>, tpm: Option<nat>, i: nat, d: Dimension)
    requires i < |ws|
    ensures i < |Merged(ws, rpm, tpm)| <= |ws| + 1
    ensures Merged(ws, rpm, tpm)[i].secs == ws[i].secs
    ensures Limit(ws[i], d).Some? ==> Limit(Merged(ws, rpm, tpm)[i], d) == Limit(ws[i], d)
    ensures ws[i].secs != 60 ==> Merged(ws, rpm, tpm)[i] == ws[i]
    ensures Limit(Merged(ws, rpm, tpm)[i], d) != Limit(ws[i], d) ==>
              (d.Counts? && !HasCounts(ws) && Limit(Merged(ws, rpm, tpm)[i], d) == rpm) ||
              (d.Tokens? && !HasTokens(ws) && Limit(Merged(ws, rpm, tpm)[i], d) == tpm)
  {}

  // ---- The same limits, told apart from how they are listed ----------------------------------

  ghost predicate Limits(ws: seq<WindowLimit>, secs: nat, d: Dimension, v: nat) {
    exists w :: w in ws && w.secs == secs && Limit(w, d) == Some(v)
  }

  /** The same limits on the same window lengths, however the entries group them. */
  ghost predicate SameLimits(a: seq<WindowLimit>, b: seq<WindowLimit>) {
    (forall secs: nat, d, v: nat :: Limits(a, secs, d, v) <==> Limits(b, secs, d, v)) &&
    AllSecs(a) == AllSecs(b)
  }

  predicate Over(c: Option<Counter>, d: Dimension, v: nat, weight: nat) {
    if d.Counts? then Used(c, d) + weight > v else Used(c, d) >= v
  }

  /** A peek allows exactly when no limit is over, whichever entry states it. */
  lemma AllowsByLimits(t: Table, owner: RateKey, ws: seq<WindowLimit>, weight: nat, now: nat)
    ensures Peek(t, owner, ws, weight, now).Allow? <==>
            forall secs: nat, d, v: nat :: Limits(ws, secs, d, v) ==>
              !Over(View(t, WindowKey(owner, secs), now), d, v, weight)
  {
    PeekAllows(t, owner, ws, weight, now);
    if Peek(t, owner, ws, weight, now).Allow? {
      forall secs: nat, d, v: nat | Limits(ws, secs, d, v)
        ensures !Over(View(t, WindowKey(owner, secs), now), d, v, weight)
      {
        var w :| w in ws && w.secs == secs && Limit(w, d) == Some(v);
        assert !Rejects(View(t, WindowKey(owner, w.secs), now), w, d, weight);
      }
    } else {
      var w, d :| w in ws && Rejects(View(t, WindowKey(owner, w.secs), now), w, d, weight);
      assert Limits(ws, w.secs, d, Limit(w, d).value);
    }
  }

  lemma SameAllows(t: Table, owner: RateKey, a: seq<WindowLimit>, b: seq<WindowLimit>,
                   weight: nat, now: nat)
    requires SameLimits(a, b)
    ensures Peek(t, owner, a, weight, now).Allow? <==> Peek(t, owner, b, weight, now).Allow?
  {
    AllowsByLimits(t, owner, a, weight, now);
    AllowsByLimits(t, owner, b, weight, now);
  }

  lemma SameCountSecs(a: seq<WindowLimit>, b: seq<WindowLimit>)
    requires SameLimits(a, b)
    ensures CountSecs(a) == CountSecs(b)
  {
    forall s ensures s in CountSecs(a) <==> s in CountSecs(b) {
      CountSecsByLimits(a, s);
      CountSecsByLimits(b, s);
    }
  }

  lemma CountSecsByLimits(ws: seq<WindowLimit>, s: nat)
    ensures s in CountSecs(ws) <==> exists v :: Limits(ws, s, Counts, v)
  {
    if s in CountSecs(ws) {
      var w :| w in ws && w.counts.Some? && w.secs == s;
      assert Limits(ws, s, Counts, w.counts.value);
    }
  }

  /** Two assignments of limits to owners that differ only in how the limits are listed. */
  ghost predicate SamePlans(p: R.Plan, q: R.Plan) {
    forall owner :: SameLimits(p(owner), q(owner))
  }

  lemma SameStep(p: R.Plan, q: R.Plan, s: R.Limiter, step: R.Step)
    requires SamePlans(p, q)
    ensures R.Apply(p, s, step) == R.Apply(q, s, step)
  {
    match step
    case Ask(owner, weight) =>
      SameAllows(s.table, owner, p(owner), q(owner), weight, s.now);
    case Charge(i) =>
      if i < |s.open| { SameCountSecs(p(s.open[i].owner), q(s.open[i].owner)); }
    case _ =>
  }

  /** They admit the same requests and leave the same counters in every run. */
  lemma {:induction false} SameInEveryRun(p: R.Plan, q: R.Plan, steps: seq<R.Step>)
    requires SamePlans(p, q)
    ensures R.Exec(p, steps) == R.Exec(q, steps)
    decreases |steps|
  {
    if steps != [] {
      SameInEveryRun(p, q, steps[..|steps| - 1]);
      SameStep(p, q, R.Exec(p, steps[..|steps| - 1]), steps[|steps| - 1]);
    }
  }

  // ---- Shorthand and explicit form -------------------------------------------------------------

  /** The shorthands as one more 60-second entry, each unless it is configured explicitly. */
  function Explicit(ws: seq<WindowLimit>, rpm: Option<nat>, tpm: Option<nat>): seq<WindowLimit> {
    if NeedsShorthand(ws, rpm, tpm) then
      ws + [WindowLimit(if HasCounts(ws) then None else rpm,
                        if HasTokens(ws) then None else tpm, None, 60)]
    else ws
  }

  /** What one more entry adds. */
  lemma LimitsSnoc(ws: seq<WindowLimit>, w: WindowLimit, secs: nat, d: Dimension, v: nat)
    ensures Limits(ws + [w], secs, d, v) <==>
            Limits(ws, secs, d, v) || (w.secs == secs && Limit(w, d) == Some(v))
  {
    assert w in ws + [w];
  }

  lemma LimitsUpdate(ws: seq<WindowLimit>, i: nat, w: WindowLimit, secs: nat, d: Dimension, v: nat)
    requires i < |ws| && w.secs == ws[i].secs
    requires Limit(ws[i], d).Some? ==> Limit(w, d) == Limit(ws[i], d)
    ensures Limits(ws[i := w], secs, d, v) <==>
            Limits(ws, secs, d, v) || (w.secs == secs && Limit(w, d) == Some(v))
  {
    var m := ws[i := w];
    assert m[i] in m;
    if Limits(ws, secs, d, v) {
      var x :| x in ws && x.secs == secs && Limit(x, d) == Some(v);
      var j :| 0 <= j < |ws| && ws[j] == x;
      assert m[j] in m;
    }
    if Limits(m, secs, d, v) {
      var x :| x in m && x.secs == secs && Limit(x, d) == Some(v);
      var j :| 0 <= j < |m| && m[j] == x;
      if j != i { assert ws[j] in ws; }
    }
  }

  lemma MergedLimits(ws: seq<WindowLimit>, rpm: Option<nat>, tpm: Option<nat>,
                     secs: nat, d: Dimension, v: nat)
    ensures Limits(Merged(ws, rpm, tpm), secs, d, v) <==> Limits(Explicit(ws, rpm, tpm), secs, d, v)
  {
    if NeedsShorthand(ws, rpm, tpm) {
      var i := First60(ws);
      var e := WindowLimit(if HasCounts(ws) then None else rpm,
                           if HasTokens(ws) then None else tpm, None, 60);
      LimitsSnoc(ws, e, secs, d, v);
      if i < |ws| {
        LimitsUpdate(ws, i, Hosted(ws, ws[i], rpm, tpm), secs, d, v);
        assert ws[i] in ws;
      } else {
        assert Hosted(ws, Blank60, rpm, tpm) == e;
      }
    }
  }

  lemma MergedAllSecs(ws: seq<WindowLimit>, rpm: Option<nat>, tpm: Option<nat>)
    ensures AllSecs(Merged(ws, rpm, tpm)) == AllSecs(Explicit(ws, rpm, tpm))
  {
    forall x ensures x in AllSecs(Merged(ws, rpm, tpm)) <==> x in AllSecs(Explicit(ws, rpm, tpm)) {
      MergedSecs(ws, rpm, tpm, x);
      SecsOfIs(ws, x);
      AllSecsIs(Merged(ws, rpm, tpm), x);
      AllSecsIs(ws, x);
      AllSecsIs(Explicit(ws, rpm, tpm), x);
      ExplicitSecs(ws, rpm, tpm, x);
    }
  }

  lemma AllSecsIs(ws: seq<WindowLimit>, x: nat)
    ensures x in AllSecs(ws) <==> x in SecsOf(ws)
  {
    SecsOfIs(ws, x);
  }

  lemma ExplicitSecs(ws: seq<WindowLimit>, rpm: Option<nat>, tpm: Option<nat>, x: nat)
    ensures x in SecsOf(Explicit(ws, rpm, tpm)) <==>
            x in SecsOf(ws) || (x == 60 && NeedsShorthand(ws, rpm, tpm))
  {
    var e := Explicit(ws, rpm, tpm);
    SecsOfIs(ws, x);
    SecsOfIs(e, x);
    if NeedsShorthand(ws, rpm, tpm) {
      assert e[|ws|].secs == 60;
      assert forall j :: 0 <= j < |ws| ==> e[j] == ws[j];
    }
  }

  lemma MergedSameAsExplicit(ws: seq<WindowLimit>, rpm: Option<nat>, tpm: Option<nat>)
    ensures SameLimits(Merged(ws, rpm, tpm), Explicit(ws, rpm, tpm))
  {
    forall secs: nat, d, v: nat
      ensures Limits(Merged(ws, rpm, tpm), secs, d, v) <==>
              Limits(Explicit(ws, rpm, tpm), secs, d, v)
    {
      MergedLimits(ws, rpm, tpm, secs, d, v);
    }
    MergedAllSecs(ws, rpm, tpm);
  }

  /**
    * Owners limited through the shorthands and owners limited through the explicit entries
    * see the same admissions and the same counters in every run.
    */
  lemma ShorthandMeansExplicit(
    p: R.Plan, q: R.Plan, windows: RateKey -> seq<WindowLimit>,
    rpm: RateKey -> Option<nat>, tpm: RateKey -> Option<nat>, steps: seq<R.Step>)
    requires forall o :: p(o) == Merged(windows(o), rpm(o), tpm(o))
    requires forall o :: q(o) == Explicit(windows(o), rpm(o), tpm(o))
    ensures R.Exec(p, steps) == R.Exec(q, steps)
  {
    forall o ensures SameLimits(p(o), q(o)) {
      MergedSameAsExplicit(windows(o), rpm(o), tpm(o));
    }
    SameInEveryRun(p, q, steps);
  }
}
