/**
 The limiter as the source keeps it: one object with window counters, permanent counters
 and dirty sets, changed in place by the methods below.
 */
module SlidingWindowLimiter {

  import opened RateWindows
  import L = Ledger
  import S = LedgerSums

  function Minus(a: nat, b: nat): nat { if a < b then 0 else a - b }

  class Limiter {
    var windows: Table
    var cumulative: L.Book
    var dirtyWindows: set<WindowKey>
    var dirtyCumulative: set<L.Cell>

    ghost function Memory(): L.Memory
      reads this
    {
      L.Memory(cumulative, dirtyCumulative)
    }

    /** What is held for this total; nothing yet is zero. */
    ghost function Total(scope: L.Scope, kind: L.Kind): int
      reads this
    {
      if L.Cell(scope, kind) in cumulative then cumulative[L.Cell(scope, kind)] else 0
    }

    constructor ()
      ensures windows == map[] && Memory() == L.Memory(map[], {}) && dirtyWindows == {}
    {
      windows := map[];
      cumulative := map[];
      dirtyWindows := {};
      dirtyCumulative := {};
    }

    /** Phase one: walk the limits and stop at the first that rejects; nothing is counted. */
    method PeekOnly(owner: RateKey, limits: seq<WindowLimit>, weight: nat, now: nat) returns (verdict: Verdict)
      ensures verdict == Peek(windows, owner, limits, weight, now)
      ensures verdict.Allow? <==>
              forall w, d :: w in limits ==> !Rejects(View(windows, WindowKey(owner, w.secs), now), w, d, weight)
    {
      PeekAllows(windows, owner, limits, weight, now);
      for i := 0 to |limits|
        invariant Peek(windows, owner, limits, weight, now) == Peek(windows, owner, limits[i..], weight, now)
      {
        assert limits[i..][1..] == limits[i + 1..];
        var w := limits[i];
        var k := WindowKey(owner, w.secs);
        var counts, tokens, costs := 0, 0, 0;
        var elapsed := 0;
        if k in windows {
          var c := windows[k];
          elapsed := Minus(now, c.start);
          if elapsed < c.secs {
            counts, tokens, costs := c.counts, c.tokens, c.costs;
          }
        }
        var retryAfter := Minus(w.secs, elapsed);
        if w.counts.Some? && counts + weight > w.counts.value {
          return Reject(w.secs, Counts, w.counts.value, retryAfter);
        }
        if w.tokens.Some? && tokens >= w.tokens.value {
          return Reject(w.secs, Tokens, w.tokens.value, retryAfter);
        }
        if w.costs.Some? && costs >= w.costs.value {
          return Reject(w.secs, Costs, w.costs.value, retryAfter);
        }
      }
      verdict := Allow;
    }

    method BumpCountsAt(k: WindowKey, weight: nat, now: nat)
      modifies this`windows, this`dirtyWindows
      ensures windows == old(windows)[k := BumpCounts(Get(old(windows), k), k.secs, weight, now)]
      ensures dirtyWindows == old(dirtyWindows) + {k}
    {
      if k in windows {
        var c := windows[k];
        if Minus(now, c.start) >= c.secs {
          windows := windows[k := Counter(weight, 0, 0, now, c.secs)];
        } else {
          windows := windows[k := c.(counts := c.counts + weight)];
        }
      } else {
        windows := windows[k := Counter(weight, 0, 0, now, k.secs)];
      }
      dirtyWindows := dirtyWindows + {k};
    }

    /** Phase two: one count per distinct window length that has a counts limit, however many
        limit entries share it. */
    method CommitCounts(owner: RateKey, limits: seq<WindowLimit>, weight: nat, now: nat)
      modifies this`windows, this`dirtyWindows
      ensures windows == Commit(old(windows), owner, limits, weight, now)
      ensures dirtyWindows == old(dirtyWindows) + Cells(owner, CountSecs(limits))
    {
      var secs := DistinctSecs(limits, true);
      NoSecs(windows, owner, weight, 0, 0, now);
      assert Elements(secs[..0]) == {};
      for i := 0 to |secs|
        invariant windows == CommitSecs(old(windows), owner, Elements(secs[..i]), weight, now)
        invariant dirtyWindows == old(dirtyWindows) + Cells(owner, Elements(secs[..i]))
      {
        NextElement(secs, i);
        SecsOneByOne(old(windows), owner, Elements(secs[..i]), secs[i], weight, 0, 0, now);
        BumpCountsAt(WindowKey(owner, secs[i]), weight, now);
      }
      assert secs[..|secs|] == secs;
    }

    method BumpUsageAt(k: WindowKey, tokens: nat, costs: nat, now: nat)
      modifies this`windows, this`dirtyWindows
      ensures tokens == 0 && costs == 0 ==> windows == old(windows) && dirtyWindows == old(dirtyWindows)
      ensures tokens > 0 || costs > 0 ==>
                && windows == old(windows)[k := BumpUsage(Get(old(windows), k), k.secs, tokens, costs, now)]
                && dirtyWindows == old(dirtyWindows) + {k}
    {
      if tokens == 0 && costs == 0 {
        return;
      }
      if k in windows {
        var c := windows[k];
        if Minus(now, c.start) >= c.secs {
          windows := windows[k := Counter(0, tokens, costs, now, c.secs)];
        } else {
          windows := windows[k := c.(tokens := c.tokens + tokens, costs := c.costs + costs)];
        }
      } else {
        windows := windows[k := Counter(0, tokens, costs, now, k.secs)];
      }
      dirtyWindows := dirtyWindows + {k};
    }

    method SettleWindows(owner: RateKey, limits: seq<WindowLimit>, tokens: nat, costs: nat, now: nat)
      modifies this`windows, this`dirtyWindows
      ensures windows == Settle(old(windows), owner, limits, tokens, costs, now)
      ensures dirtyWindows == old(dirtyWindows) + if tokens == 0 && costs == 0 then {}
              else Cells(owner, AllSecs(limits))
    {
      var secs := DistinctSecs(limits, false);
      if tokens == 0 && costs == 0 {
        return;
      }
      NoSecs(windows, owner, 0, tokens, costs, now);
      assert Elements(secs[..0]) == {};
      for i := 0 to |secs|
        invariant windows == SettleSecs(old(windows), owner, Elements(secs[..i]), tokens, costs, now)
        invariant dirtyWindows == old(dirtyWindows) + Cells(owner, Elements(secs[..i]))
      {
        NextElement(secs, i);
        SecsOneByOne(old(windows), owner, Elements(secs[..i]), secs[i], 0, tokens, costs, now);
        BumpUsageAt(WindowKey(owner, secs[i]), tokens, costs, now);
      }
      assert secs[..|secs|] == secs;
    }

    /** Adds a signed amount to one permanent counter. */
    method AddCumulative(c: L.Cell, delta: int)
      modifies this`cumulative, this`dirtyCumulative
      ensures Memory() == L.Add(old(Memory()), c, delta)
    {
      if delta == 0 {
        return;
      }
      var entry := if c in cumulative then cumulative[c] else 0;
      cumulative := cumulative[c := entry + delta];
      dirtyCumulative := dirtyCumulative + {c};
    }

    /** Phase three: roll the windows forward and add to the six permanent counters. */
    method SettleUsage(owner: RateKey, scope: L.Scope, limits: seq<WindowLimit>, u: L.Usage, now: nat)
      modifies this
      ensures windows ==
              Settle(old(windows), owner, limits, u.input + u.output, u.regular + u.cached + u.outputCost, now)
      ensures dirtyWindows == old(dirtyWindows) +
                if u.input + u.output == 0 && u.regular + u.cached + u.outputCost == 0 then {}
                else Cells(owner, AllSecs(limits))
      ensures Memory() == L.AddUsage(old(Memory()), scope, u)
      ensures Total(scope, L.InputTokens) == old(Total(scope, L.InputTokens)) + u.input
      ensures Total(scope, L.OutputTokens) == old(Total(scope, L.OutputTokens)) + u.output
      ensures Total(scope, L.TotalCost) == old(Total(scope, L.TotalCost)) + u.regular + u.cached + u.outputCost
      ensures Total(scope, L.RegularInput) == old(Total(scope, L.RegularInput)) + u.regular
      ensures Total(scope, L.CachedInput) == old(Total(scope, L.CachedInput)) + u.cached
      ensures Total(scope, L.OutputCost) == old(Total(scope, L.OutputCost)) + u.outputCost
    {
      var tokens, costs := u.input + u.output, u.regular + u.cached + u.outputCost;
      SettleWindows(owner, limits, tokens, costs, now);
      AddTotals(scope, u, costs);
    }

    method AddTotals(scope: L.Scope, u: L.Usage, costs: nat)
      requires costs == u.regular + u.cached + u.outputCost
      modifies this`cumulative, this`dirtyCumulative
      ensures Memory() == L.AddUsage(old(Memory()), scope, u)
      ensures Total(scope, L.InputTokens) == old(Total(scope, L.InputTokens)) + u.input
      ensures Total(scope, L.OutputTokens) == old(Total(scope, L.OutputTokens)) + u.output
      ensures Total(scope, L.TotalCost) == old(Total(scope, L.TotalCost)) + costs
      ensures Total(scope, L.RegularInput) == old(Total(scope, L.RegularInput)) + u.regular
      ensures Total(scope, L.CachedInput) == old(Total(scope, L.CachedInput)) + u.cached
      ensures Total(scope, L.OutputCost) == old(Total(scope, L.OutputCost)) + u.outputCost
    {
      ghost var m := Memory();
      SixAdditions(scope, u, costs);
      S.SixAdd(m, Memory(), scope, u, costs);
    }

    method SixAdditions(scope: L.Scope, u: L.Usage, costs: nat)
      modifies this`cumulative, this`dirtyCumulative
      ensures Memory() ==
              L.AddSix(old(Memory()), scope, u.input, u.output, costs, u.regular, u.cached, u.outputCost)
    {
      AddCumulative(L.Cell(scope, L.InputTokens), u.input);
      AddCumulative(L.Cell(scope, L.OutputTokens), u.output);
      AddCumulative(L.Cell(scope, L.TotalCost), costs);
      AddCumulative(L.Cell(scope, L.RegularInput), u.regular);
      AddCumulative(L.Cell(scope, L.CachedInput), u.cached);
      AddCumulative(L.Cell(scope, L.OutputCost), u.outputCost);
    }

    /** Zeroes the six counters of a scope and returns what they held. */
    method ResetCumulativeLocal(scope: L.Scope) returns (before: map<L.Kind, nat>)
      modifies this`cumulative, this`dirtyCumulative
      ensures Memory() == L.ResetAll(old(Memory()), scope)
      ensures forall kind: L.Kind ::
                var total := old(Total(scope, kind));
                kind in before && before[kind] == if total < 0 then 0 else total
    {
      before := map[];
      ghost var start := Memory();
      for n := 0 to |L.KINDS|
        invariant Memory() == L.ResetKinds(start, scope, n)
        invariant forall i :: 0 <= i < n ==>
                    var total := old(Total(scope, L.KINDS[i]));
                    L.KINDS[i] in before && before[L.KINDS[i]] == if total < 0 then 0 else total
      {
        var c := L.Cell(scope, L.KINDS[n]);
        L.ResetKindsReads(start, scope, n, n, c);
        var value := if c in cumulative then cumulative[c] else 0;
        before := before[L.KINDS[n] := if value < 0 then 0 else value];
        forall i | 0 <= i < n ensures L.KINDS[i] != L.KINDS[n] { L.KindsDistinct(i, n); }
        if c in cumulative {
          cumulative := cumulative[c := 0];
        }
        dirtyCumulative := dirtyCumulative + {c};
      }
      forall kind: L.Kind
        ensures kind in before
        ensures var total := old(Total(scope, kind)); before[kind] == if total < 0 then 0 else total
      {
        var i := L.KindIndex(kind);
      }
    }

    method CleanupExpired(now: nat) returns (removed: nat)
      modifies this`windows
      ensures windows == Cleanup(old(windows), now)
      ensures removed == |old(windows)| - |windows|
    {
      var before := |windows|;
      windows := map k | k in windows && Minus(now, windows[k].start) < windows[k].secs :: windows[k];
      FewerKeys(windows.Keys, old(windows).Keys);
      removed := before - |windows|;
    }

    method ClearForKey(keyHash: string) returns (removed: nat)
      modifies this`windows
      ensures windows == ClearKey(old(windows), keyHash)
      ensures removed == |old(windows)| - |windows|
      ensures removed == |set k | k in old(windows) && k.owner.keyHash == keyHash|
    {
      ghost var gone := set k | k in windows && k.owner.keyHash == keyHash;
      var before := |windows|;
      windows := map k | k in windows && k.owner.keyHash != keyHash :: windows[k];
      FewerKeys(windows.Keys, old(windows).Keys);
      assert old(windows).Keys == windows.Keys + gone;
      removed := before - |windows|;
    }

    /** Clears single windows of one owner, as when its schedule switches. */
    method ClearWindowsOf(owner: RateKey, secs: seq<nat>)
      modifies this`windows, this`dirtyWindows
      ensures windows == ClearWindows(old(windows), owner, secs)
      ensures dirtyWindows == old(dirtyWindows) + (old(windows).Keys - windows.Keys)
    {
      for i := 0 to |secs|
        invariant windows == ClearWindows(old(windows), owner, secs[..i])
        invariant dirtyWindows == old(dirtyWindows) + (old(windows).Keys - windows.Keys)
      {
        var k := WindowKey(owner, secs[i]);
        ClearNext(old(windows), owner, secs, i);
        if k in windows {
          windows := windows - {k};
          dirtyWindows := dirtyWindows + {k};
        }
      }
      assert secs[..|secs|] == secs;
    }

    /** The rows worth saving. */
    method Snapshot(now: nat) returns (rows: Table)
      ensures rows == Cleanup(windows, now)
    {
      rows := map k | k in windows && Minus(now, windows[k].start) < windows[k].secs :: windows[k];
    }

    method RestoreCounter(k: WindowKey, c: Counter, now: nat)
      modifies this`windows
      ensures windows == if Expired(c, now) then old(windows) else old(windows)[k := c]
    {
      if Minus(now, c.start) < c.secs {
        windows := windows[k := c];
      }
    }

    /** Loads saved rows, skipping those that expired meanwhile. */
    method RestoreAll(rows: Table, now: nat)
      modifies this`windows
      ensures windows == old(windows) + Cleanup(rows, now)
    {
      var todo := rows.Keys;
      while todo != {}
        invariant todo <= rows.Keys
        invariant windows == old(windows) + Cleanup(rows - todo, now)
        decreases |todo|
      {
        var k :| k in todo;
        RestoreNext(old(windows), rows, todo, k, now);
        RestoreCounter(k, rows[k], now);
        todo := todo - {k};
      }
      assert rows - {} == rows;
    }
  }

  lemma RestoreNext(t: Table, rows: Table, todo: set<WindowKey>, k: WindowKey, now: nat)
    requires k in todo && k in rows
    ensures var done := t + Cleanup(rows - todo, now);
            t + Cleanup(rows - (todo - {k}), now) == if Expired(rows[k], now) then done else done[k := rows[k]]
  {
    var less, more := Cleanup(rows - todo, now), Cleanup(rows - (todo - {k}), now);
    assert more == if Expired(rows[k], now) then less else less[k := rows[k]];
  }

  lemma ClearNext(t: Table, owner: RateKey, secs: seq<nat>, i: nat)
    requires i < |secs|
    ensures ClearWindows(t, owner, secs[..i + 1]) == ClearWindows(t, owner, secs[..i]) - {WindowKey(owner, secs[i])}
  {
    assert secs[..i + 1] == secs[..i] + [secs[i]];
  }

  ghost predicate Unique(s: seq<nat>) {
    forall a, b :: 0 <= a < b < |s| ==> s[a] != s[b]
  }

  lemma NextElement(s: seq<nat>, i: nat)
    requires Unique(s) && i < |s|
    ensures s[i] !in Elements(s[..i]) && Elements(s[..i + 1]) == Elements(s[..i]) + {s[i]}
  {
    assert s[..i + 1] == s[..i] + [s[i]];
  }

  /** The window lengths named by the limits, each once, in order of first appearance. */
  method DistinctSecs(limits: seq<WindowLimit>, countsOnly: bool) returns (secs: seq<nat>)
    ensures Unique(secs)
    ensures Elements(secs) == if countsOnly then CountSecs(limits) else AllSecs(limits)
  {
    secs := [];
    for i := 0 to |limits|
      invariant Unique(secs)
      invariant forall s :: s in secs <==> s in if countsOnly then CountSecs(limits[..i]) else AllSecs(limits[..i])
    {
      assert limits[..i + 1] == limits[..i] + [limits[i]];
      if (!countsOnly || limits[i].counts.Some?) && limits[i].secs !in secs {
        secs := secs + [limits[i].secs];
      }
    }
    assert limits[..|limits|] == limits;
  }

  function Elements(s: seq<nat>): set<nat> { set x | x in s }

  lemma FewerKeys(a: set<WindowKey>, b: set<WindowKey>)
    requires a <= b
    ensures |a| <= |b|
  {
    if a != {} {
      var x :| x in a;
      FewerKeys(a - {x}, b - {x});
    }
  }
}
