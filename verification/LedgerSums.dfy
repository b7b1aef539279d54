/**
 Which amount goes into which total, told from the fields of what is settled: one settlement,
 and whole runs in which a key or a team is only charged.
 */
module LedgerSums {

  import opened Wrappers
  import opened Ledger
  import opened LedgerSteps
  import opened LedgerLaws
  import opened LedgerForecast

  /** One settlement: input and output tokens, the total cost, and its three parts. */
  lemma SettlementAdds(m: Memory, scope: Scope, input: nat, output: nat, regular: nat, cached: nat, outputCost: nat)
    ensures var b, e := m.book, AddUsage(m, scope, Usage(input, output, regular, cached, outputCost)).book;
            && Read(e, Cell(scope, InputTokens)) == Read(b, Cell(scope, InputTokens)) + input
            && Read(e, Cell(scope, OutputTokens)) == Read(b, Cell(scope, OutputTokens)) + output
            && Read(e, Cell(scope, TotalCost)) == Read(b, Cell(scope, TotalCost)) + regular + cached + outputCost
            && Read(e, Cell(scope, RegularInput)) == Read(b, Cell(scope, RegularInput)) + regular
            && Read(e, Cell(scope, CachedInput)) == Read(b, Cell(scope, CachedInput)) + cached
            && Read(e, Cell(scope, OutputCost)) == Read(b, Cell(scope, OutputCost)) + outputCost
  {
    var u := Usage(input, output, regular, cached, outputCost);
    forall kind: Kind
      ensures Read(AddUsage(m, scope, u).book, Cell(scope, kind)) == Read(m.book, Cell(scope, kind)) + Amount(u, kind)
    {
      AddAllReads(m, scope, Amounts(u), Cell(scope, kind));
    }
  }

  /** The same for the six additions as the limiter makes them. */
  lemma SixAdd(m: Memory, e: Memory, scope: Scope, u: Usage, costs: nat)
    requires costs == u.regular + u.cached + u.outputCost
    requires e == AddSix(m, scope, u.input, u.output, costs, u.regular, u.cached, u.outputCost)
    ensures e == AddUsage(m, scope, u)
    ensures Read(e.book, Cell(scope, InputTokens)) == Read(m.book, Cell(scope, InputTokens)) + u.input
    ensures Read(e.book, Cell(scope, OutputTokens)) == Read(m.book, Cell(scope, OutputTokens)) + u.output
    ensures Read(e.book, Cell(scope, TotalCost)) == Read(m.book, Cell(scope, TotalCost)) + costs
    ensures Read(e.book, Cell(scope, RegularInput)) == Read(m.book, Cell(scope, RegularInput)) + u.regular
    ensures Read(e.book, Cell(scope, CachedInput)) == Read(m.book, Cell(scope, CachedInput)) + u.cached
    ensures Read(e.book, Cell(scope, OutputCost)) == Read(m.book, Cell(scope, OutputCost)) + u.outputCost
  {
    UsageOneByOne(m, scope, u);
    SettlementAdds(m, scope, u.input, u.output, u.regular, u.cached, u.outputCost);
  }

  /** Other scopes are not touched. */
  lemma SettlementSpares(m: Memory, scope: Scope, u: Usage, c: Cell)
    requires c.scope != scope
    ensures Read(AddUsage(m, scope, u).book, c) == Read(m.book, c)
  {
    AddAllReads(m, scope, Amounts(u), c);
  }

  // ----- runs in which a scope is only charged

  /** The call resets, overwrites or refunds nothing of this scope. */
  predicate OnlyCharges(r: Roster, step: Step, scope: Scope) {
    step.Start? ==>
      && !Resets(r, step.call, scope)
      && !(step.call.Recompute? && scope == TeamScope(step.call.team))
      && !(step.call.ClearKey? && step.call.refund.Some? && scope == TeamScope(step.call.refund.value))
  }

  ghost predicate AllOnlyCharge(r: Roster, steps: seq<Step>, scope: Scope) {
    forall i :: 0 <= i < |steps| ==> OnlyCharges(r, steps[i], scope)
  }

  /** One field of everything settled for the scope: for the key itself, or for any key of the team. */
  function Settled(r: Roster, steps: seq<Step>, scope: Scope, field: Usage -> nat): nat {
    if steps == [] then 0
    else
      var last := steps[|steps| - 1];
      Settled(r, steps[..|steps| - 1], scope, field)
      + if last.Start? && last.call.Settle?
           && (scope == KeyScope(last.call.key) || Some(scope) == TeamScopeOf(r, last.call.key))
        then field(last.call.usage) else 0
  }

  function TeamScopeOf(r: Roster, key: string): Option<Scope> {
    match r.teamOf(key)
    case None => None
    case Some(team) => Some(TeamScope(team))
  }

  predicate RefundsTo(op: Op, c: Cell) { op.Zero? && op.refund.Some? && RefundCell(op) == c }

  /** No call under way sets the total or will make it refund. */
  ghost predicate Spared(s: Accounts, c: Cell) {
    !Doomed(s.tasks, c) && forall i, j :: 0 <= i < |s.tasks| && 0 <= j < |s.tasks[i]| ==> !RefundsTo(s.tasks[i][j], c)
  }

  lemma {:induction false} ZeroOpsRefundTo(scope: Scope, refund: Option<string>, n: nat, c: Cell)
    requires n <= |KINDS| && (refund.Some? ==> c.scope != TeamScope(refund.value))
    ensures forall op :: op in ZeroOps(scope, refund, n) ==> !RefundsTo(op, c)
  {
    if n > 0 { ZeroOpsRefundTo(scope, refund, n - 1, c); }
  }

  lemma {:induction false} ClearEachRefundTo(keys: seq<string>, c: Cell)
    ensures forall op :: op in ClearEach(keys) ==> !RefundsTo(op, c)
    decreases |keys|
  {
    if keys != [] {
      ClearEachRefundTo(keys[..|keys| - 1], c);
      ZeroOpsRefundTo(KeyScope(keys[|keys| - 1]), None, |KINDS|, c);
    }
  }

  lemma {:induction false} AddOpsRefundTo(scope: Scope, amount: Kind -> int, n: nat, c: Cell)
    requires n <= |KINDS|
    ensures forall op :: op in AddOps(scope, amount, n) ==> !RefundsTo(op, c)
  {
    if n > 0 { AddOpsRefundTo(scope, amount, n - 1, c); }
  }

  lemma {:induction false} PutOpsRefundTo(scope: Scope, value: Kind -> int, n: nat, c: Cell)
    requires n <= |KINDS|
    ensures forall op :: op in PutOps(scope, value, n) + StoreOps(scope, value, n) ==> !RefundsTo(op, c)
  {
    if n > 0 { PutOpsRefundTo(scope, value, n - 1, c); }
  }

  lemma ProgramRefundsTo(r: Roster, s: Accounts, call: Call, c: Cell)
    requires OnlyCharges(r, Start(call), c.scope)
    ensures forall op :: op in Program(r, s, call) ==> !RefundsTo(op, c)
  {
    match call
    case Settle(key, u) =>
      AddOpsRefundTo(KeyScope(key), Amounts(u), |KINDS|, c);
      if r.teamOf(key).Some? { AddOpsRefundTo(TeamScope(r.teamOf(key).value), Amounts(u), |KINDS|, c); }
    case ClearKey(key, refund) => ZeroOpsRefundTo(KeyScope(key), refund, |KINDS|, c);
    case ResetTeam(team) =>
      ZeroOpsRefundTo(TeamScope(team), None, |KINDS|, c);
      ClearEachRefundTo(r.membersOf(team), c);
    case Recompute(team) => PutOpsRefundTo(TeamScope(team), RowSums(s.db, r.membersOf(team)), |KINDS|, c);
    case ClearAll =>
  }

  lemma BeginSpares(r: Roster, s: Accounts, call: Call, c: Cell)
    requires Spared(s, c) && OnlyCharges(r, Start(call), c.scope)
    ensures Spared(Begin(r, s, call), c)
  {
    var e := Begin(r, s, call);
    ProgramSets(r, s, call, c, 0);
    ProgramRefundsTo(r, s, call, c);
    forall i | 0 <= i < |e.tasks| ensures !HasSet(e.tasks[i], c) {
      if i < |s.tasks| { assert e.tasks[i] == s.tasks[i]; }
    }
    forall i, j | 0 <= i < |e.tasks| && 0 <= j < |e.tasks[i]| ensures !RefundsTo(e.tasks[i][j], c) {
      if i < |s.tasks| {
        assert e.tasks[i] == s.tasks[i];
      } else {
        assert e.tasks[i][j] in Program(r, s, call);
      }
    }
  }

  lemma TailStaysUnset(s: Accounts, i: nat, c: Cell)
    requires Runs(s, i) && !Doomed(s.tasks, c)
    ensures !Doomed(Perform(s, i).tasks, c)
  {
    var e := Perform(s, i);
    ExtrasSetNothing(s.mem, s.tasks[i][0], c);
    HasSetAppend(s.tasks[i][1..], Extras(s.mem, s.tasks[i][0]), c);
    HasSetCons(s.tasks[i], c);
    forall a | 0 <= a < |e.tasks| ensures !HasSet(e.tasks[a], c) {
      if a != i { assert e.tasks[a] == s.tasks[a]; }
    }
  }

  lemma PerformSpares(s: Accounts, i: nat, c: Cell)
    requires Runs(s, i) && Spared(s, c)
    ensures Spared(Perform(s, i), c)
    ensures Read(Perform(s, i).mem.book, c) + Pending(Perform(s, i).tasks, c) ==
            Read(s.mem.book, c) + Pending(s.tasks, c)
  {
    var e, op := Perform(s, i), s.tasks[i][0];
    TailStaysUnset(s, i, c);
    PerformTerms(s, i, c);
    assert !RefundsTo(op, c);
    assert !SetsCell(op, c) by { assert !HasSet(s.tasks[i], c); }
    forall a, b | 0 <= a < |e.tasks| && 0 <= b < |e.tasks[a]| ensures !RefundsTo(e.tasks[a][b], c) {
      if a == i && b < |s.tasks[i][1..]| {
        assert e.tasks[a][b] == s.tasks[i][b + 1];
      } else if a != i {
        assert e.tasks[a] == s.tasks[a];
      }
    }
  }

  /** The field a total is made of. */
  ghost predicate FieldOf(kind: Kind, field: Usage -> nat) { forall u :: field(u) == Amount(u, kind) }

  lemma StepCharges(r: Roster, s: Accounts, step: Step, c: Cell, field: Usage -> nat)
    requires Spared(s, c) && OnlyCharges(r, step, c.scope) && FieldOf(c.kind, field)
    ensures var e := Apply(r, s, step);
            && Spared(e, c)
            && Read(e.mem.book, c) + Pending(e.tasks, c) == Read(s.mem.book, c) + Pending(s.tasks, c)
               + if step.Start? && step.call.Settle?
                    && (c.scope == KeyScope(step.call.key) || Some(c.scope) == TeamScopeOf(r, step.call.key))
                 then field(step.call.usage) else 0
  {
    match step
    case Start(call) =>
      BeginSpares(r, s, call, c);
      BeginTerms(r, s, call, c);
      ProgramDeltas(r, s, call, c);
    case Advance(i) => if Runs(s, i) { PerformSpares(s, i, c); }
    case _ =>
  }

  lemma {:induction false} RunCharges(r: Roster, steps: seq<Step>, c: Cell, field: Usage -> nat)
    requires AllOnlyCharge(r, steps, c.scope) && FieldOf(c.kind, field)
    ensures var s := Exec(r, steps);
            Spared(s, c) && Read(s.mem.book, c) + Pending(s.tasks, c) == Settled(r, steps, c.scope, field)
    decreases |steps|
  {
    if steps != [] {
      var front, last := steps[..|steps| - 1], steps[|steps| - 1];
      assert OnlyCharges(r, last, c.scope);
      RunCharges(r, front, c, field);
      StepCharges(r, Exec(r, front), last, c, field);
    }
  }

  lemma AtRest(r: Roster, steps: seq<Step>, scope: Scope, kind: Kind, field: Usage -> nat)
    requires AllOnlyCharge(r, steps, scope) && Idle(Exec(r, steps)) && FieldOf(kind, field)
    ensures Read(Exec(r, steps).mem.book, Cell(scope, kind)) == Settled(r, steps, scope, field)
  {
    RunCharges(r, steps, Cell(scope, kind), field);
    IdlePendsNothing(Exec(r, steps).tasks, Cell(scope, kind));
  }

  /** In every run without a reset, an overwrite or a refund of a key or of a team, however its settlements
      interleave with each other and with the calls and clears of everybody else, once no call is under
      way each of its six totals is the sum of that field of all it settled. */
  lemma TotalsAreWhatWasSettled(r: Roster, steps: seq<Step>, scope: Scope)
    requires AllOnlyCharge(r, steps, scope) && Idle(Exec(r, steps))
    ensures var b := Exec(r, steps).mem.book;
            && Read(b, Cell(scope, InputTokens)) == Settled(r, steps, scope, (u: Usage) => u.input)
            && Read(b, Cell(scope, OutputTokens)) == Settled(r, steps, scope, (u: Usage) => u.output)
            && Read(b, Cell(scope, TotalCost)) ==
               Settled(r, steps, scope, (u: Usage) => u.regular + u.cached + u.outputCost)
            && Read(b, Cell(scope, RegularInput)) == Settled(r, steps, scope, (u: Usage) => u.regular)
            && Read(b, Cell(scope, CachedInput)) == Settled(r, steps, scope, (u: Usage) => u.cached)
            && Read(b, Cell(scope, OutputCost)) == Settled(r, steps, scope, (u: Usage) => u.outputCost)
  {
    AtRest(r, steps, scope, InputTokens, (u: Usage) => u.input);
    AtRest(r, steps, scope, OutputTokens, (u: Usage) => u.output);
    AtRest(r, steps, scope, TotalCost, (u: Usage) => u.regular + u.cached + u.outputCost);
    AtRest(r, steps, scope, RegularInput, (u: Usage) => u.regular);
    AtRest(r, steps, scope, CachedInput, (u: Usage) => u.cached);
    AtRest(r, steps, scope, OutputCost, (u: Usage) => u.outputCost);
  }

  // ----- negative totals count as zero

  /** A counter zeroed with a refund takes what it held off the same total of the team, unless it held
      nothing or was in debt. */
  lemma RefundTakes(m: Memory, c: Cell, team: string)
    ensures var held, t := Read(m.book, c), Cell(TeamScope(team), c.kind);
            Extras(m, Zero(c, Some(team))) == if held > 0 then [Bump(t, -held), Mark(t)] else []
  {}

  /** In the sum that a recomputation takes, each member counts with its own row of that total, or with
      nothing when the row is missing or negative. */
  lemma {:induction false} EachRowCounts(b: Book, keys: seq<string>, i: nat, kind: Kind)
    requires i < |keys|
    ensures var row := Read(b, Cell(KeyScope(keys[i]), kind));
            SumRows(b, keys, kind) ==
            SumRows(b, keys[..i] + keys[i + 1..], kind) + if row > 0 then row else 0
    ensures SumRows(b, [], kind) == 0
  {
    var others := keys[..i] + keys[i + 1..];
    if i == 0 {
      assert others == keys[1..];
    } else {
      EachRowCounts(b, keys[1..], i - 1, kind);
      assert others[1..] == keys[1..][..i - 1] + keys[1..][i..];
      assert others[0] == keys[0];
    }
  }
}
