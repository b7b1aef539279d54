/**
 Conservation, update by update: whatever was ever to be added to a counter is in it, still
 to come, or was removed by a reset or an overwrite.
 */
module LedgerLaws {

  import opened Wrappers
  import opened Ledger
  import opened LedgerSteps

  // ----- what is still to be added

  function Deltas(ops: seq<Op>, c: Cell): int {
    if ops == [] then 0
    else (if ops[0].Bump? && ops[0].cell == c then ops[0].delta else 0) + Deltas(ops[1..], c)
  }

  function Pending(tasks: seq<seq<Op>>, c: Cell): int {
    if tasks == [] then 0 else Deltas(tasks[0], c) + Pending(tasks[1..], c)
  }

  lemma {:induction false} DeltasAppend(a: seq<Op>, b: seq<Op>, c: Cell)
    ensures Deltas(a + b, c) == Deltas(a, c) + Deltas(b, c)
    decreases |a|
  {
    if a == [] {
      assert a + b == b;
    } else {
      assert (a + b)[1..] == a[1..] + b;
      DeltasAppend(a[1..], b, c);
    }
  }

  lemma {:induction false} PendingUpdate(tasks: seq<seq<Op>>, i: nat, ops: seq<Op>, c: Cell)
    requires i < |tasks|
    ensures Pending(tasks[i := ops], c) == Pending(tasks, c) - Deltas(tasks[i], c) + Deltas(ops, c)
    decreases |tasks|
  {
    if i == 0 {
      assert tasks[i := ops][1..] == tasks[1..];
    } else {
      assert tasks[i := ops][1..] == tasks[1..][i - 1 := ops];
      PendingUpdate(tasks[1..], i - 1, ops, c);
    }
  }

  lemma {:induction false} PendingSnoc(tasks: seq<seq<Op>>, ops: seq<Op>, c: Cell)
    ensures Pending(tasks + [ops], c) == Pending(tasks, c) + Deltas(ops, c)
    decreases |tasks|
  {
    if tasks == [] {
      assert [ops][1..] == [] && tasks + [ops] == [ops];
    } else {
      assert (tasks + [ops])[1..] == tasks[1..] + [ops];
      PendingSnoc(tasks[1..], ops, c);
    }
  }

  lemma {:induction false} IdlePendsNothing(tasks: seq<seq<Op>>, c: Cell)
    requires forall i :: 0 <= i < |tasks| ==> tasks[i] == []
    ensures Pending(tasks, c) == 0
    decreases |tasks|
  {
    if tasks != [] { IdlePendsNothing(tasks[1..], c); }
  }

  lemma {:induction false} ChargeReads(b: Book, ops: seq<Op>, c: Cell)
    ensures Read(Charge(b, ops), c) == Read(b, c) + Deltas(ops, c)
    decreases |ops|
  {
    if ops != [] { ChargeReads(b, ops[1..], c); }
  }

  lemma TakeReads(b: Book, m: Memory, op: Op, c: Cell)
    ensures Read(Take(b, m, op), c) == Read(b, c) + Removed(m, op, c)
  {}

  /** What an update returns to the team total `c` later on. */
  function ReturnedTo(m: Memory, op: Op, c: Cell): nat {
    if op.Zero? && op.refund.Some? && RefundCell(op) == c then Returned(m, op) else 0
  }

  lemma ExtrasDeltas(m: Memory, op: Op, c: Cell)
    ensures Deltas(Extras(m, op), c) == 0 - ReturnedTo(m, op, c)
  {
    if op.Zero? && op.refund.Some? { AddOpDeltas(RefundCell(op), 0 - Returned(m, op), c); }
  }

  // ----- the law of one counter

  ghost predicate CellLaw(s: Accounts, c: Cell) {
    Read(s.mem.book, c) + Pending(s.tasks, c) + Read(s.taken, c) == Read(s.charged, c)
  }

  /** How one update moves the terms of the law. */
  lemma PerformTerms(s: Accounts, i: nat, c: Cell)
    requires Runs(s, i)
    ensures var e, op := Perform(s, i), s.tasks[i][0];
            var added := if op.Bump? && op.cell == c then op.delta else 0;
            && Read(e.mem.book, c) == Read(s.mem.book, c) + added - Removed(s.mem, op, c)
            && Pending(e.tasks, c) == Pending(s.tasks, c) - added - ReturnedTo(s.mem, op, c)
            && Read(e.taken, c) == Read(s.taken, c) + Removed(s.mem, op, c)
            && Read(e.charged, c) == Read(s.charged, c) - ReturnedTo(s.mem, op, c)
  {
    var op, rest := s.tasks[i][0], s.tasks[i][1..];
    var more := Extras(s.mem, op);
    PendingUpdate(s.tasks, i, rest + more, c);
    DeltasAppend(rest, more, c);
    ExtrasDeltas(s.mem, op, c);
    ChargeReads(s.charged, more, c);
    TakeReads(s.taken, s.mem, op, c);
  }

  lemma BeginTerms(r: Roster, s: Accounts, call: Call, c: Cell)
    ensures var e := Begin(r, s, call);
            && e == s.(tasks := e.tasks, charged := e.charged)
            && Pending(e.tasks, c) == Pending(s.tasks, c) + Deltas(Program(r, s, call), c)
            && Read(e.charged, c) == Read(s.charged, c) + Deltas(Program(r, s, call), c)
  {
    PendingSnoc(s.tasks, Program(r, s, call), c);
    ChargeReads(s.charged, Program(r, s, call), c);
  }

  // ----- what each call adds

  lemma AddOpDeltas(x: Cell, delta: int, c: Cell)
    ensures Deltas(AddOp(x, delta), c) == if x == c then delta else 0
  {
    if delta != 0 {
      assert AddOp(x, delta)[1..] == [Mark(x)] && [Mark(x)][1..] == [];
      assert Deltas([Mark(x)], c) == 0;
    }
  }

  lemma {:induction false} AddOpsDeltas(scope: Scope, amount: Kind -> int, n: nat, i: nat, c: Cell)
    requires n <= |KINDS| && i < |KINDS| && c.kind == KINDS[i]
    ensures Deltas(AddOps(scope, amount, n), c) == if c.scope == scope && i < n then amount(c.kind) else 0
  {
    if n > 0 {
      AddOpsDeltas(scope, amount, n - 1, i, c);
      var x := Cell(scope, KINDS[n - 1]);
      AddOpDeltas(x, amount(KINDS[n - 1]), c);
      DeltasAppend(AddOps(scope, amount, n - 1), AddOp(x, amount(KINDS[n - 1])), c);
      if i < n - 1 { KindsDistinct(i, n - 1); }
      if n - 1 < i { KindsDistinct(n - 1, i); }
    }
  }

  predicate NoBumps(ops: seq<Op>) { forall i :: 0 <= i < |ops| ==> !ops[i].Bump? }

  lemma {:induction false} NoBumpsNoDeltas(ops: seq<Op>, c: Cell)
    requires NoBumps(ops)
    ensures Deltas(ops, c) == 0
    decreases |ops|
  {
    if ops != [] { NoBumpsNoDeltas(ops[1..], c); }
  }

  lemma {:induction false} ZeroOpsNoBumps(scope: Scope, refund: Option<string>, n: nat)
    requires n <= |KINDS|
    ensures NoBumps(ZeroOps(scope, refund, n))
  {
    if n > 0 { ZeroOpsNoBumps(scope, refund, n - 1); }
  }

  lemma {:induction false} PutOpsNoBumps(scope: Scope, value: Kind -> int, n: nat)
    requires n <= |KINDS|
    ensures NoBumps(PutOps(scope, value, n)) && NoBumps(StoreOps(scope, value, n))
  {
    if n > 0 { PutOpsNoBumps(scope, value, n - 1); }
  }

  lemma {:induction false} ClearEachNoBumps(keys: seq<string>)
    ensures NoBumps(ClearEach(keys))
    decreases |keys|
  {
    if keys != [] {
      ClearEachNoBumps(keys[..|keys| - 1]);
      ZeroOpsNoBumps(KeyScope(keys[|keys| - 1]), None, |KINDS|);
    }
  }

  lemma OnlySettlementsAdd(r: Roster, s: Accounts, call: Call)
    requires !call.Settle?
    ensures NoBumps(Program(r, s, call))
  {
    match call
    case ClearKey(key, refund) => ZeroOpsNoBumps(KeyScope(key), refund, |KINDS|);
    case ResetTeam(team) =>
      ZeroOpsNoBumps(TeamScope(team), None, |KINDS|);
      ClearEachNoBumps(r.membersOf(team));
    case Recompute(team) => PutOpsNoBumps(TeamScope(team), RowSums(s.db, r.membersOf(team)), |KINDS|);
    case _ =>
  }

  /** Does a settlement of this key charge this scope? */
  predicate Charges(r: Roster, key: string, scope: Scope) {
    scope == KeyScope(key) || (r.teamOf(key).Some? && scope == TeamScope(r.teamOf(key).value))
  }

  lemma ProgramDeltas(r: Roster, s: Accounts, call: Call, c: Cell)
    ensures Deltas(Program(r, s, call), c) ==
            if call.Settle? && Charges(r, call.key, c.scope) then Amount(call.usage, c.kind) else 0
  {
    if call.Settle? {
      var i := KindIndex(c.kind);
      var k, t := KeyScope(call.key), r.teamOf(call.key);
      var amount := Amounts(call.usage);
      AddOpsDeltas(k, amount, |KINDS|, i, c);
      if t.Some? {
        AddOpsDeltas(TeamScope(t.value), amount, |KINDS|, i, c);
        DeltasAppend(AddOps(k, amount, |KINDS|), AddOps(TeamScope(t.value), amount, |KINDS|), c);
      } else {
        assert AddOps(k, amount, |KINDS|) + [] == AddOps(k, amount, |KINDS|);
      }
    } else {
      OnlySettlementsAdd(r, s, call);
      NoBumpsNoDeltas(Program(r, s, call), c);
    }
  }

  // ----- what every run keeps

  /** Nothing is added in vain; key totals never go down except to zero; only teams are overwritten,
      and only keys are refunded. */
  predicate SoundOp(op: Op) {
    && (op.Bump? ==> op.delta != 0 && (op.cell.scope.KeyScope? ==> op.delta > 0))
    && (op.Put? ==> op.cell.scope.TeamScope?)
    && (op.Zero? && op.refund.Some? ==> op.cell.scope.KeyScope?)
  }

  predicate SoundOps(ops: seq<Op>) { forall i :: 0 <= i < |ops| ==> SoundOp(ops[i]) }

  ghost predicate KeyPositive(s: Accounts, c: Cell) { c.scope.KeyScope? ==> Read(s.mem.book, c) >= 0 }

  ghost predicate Inv(s: Accounts) {
    && (forall c :: CellLaw(s, c))
    && (forall c :: KeyPositive(s, c))
    && (forall i :: 0 <= i < |s.tasks| ==> SoundOps(s.tasks[i]))
  }

  lemma PerformKeepsInv(s: Accounts, i: nat)
    requires Inv(s) && Runs(s, i)
    ensures Inv(Perform(s, i))
  {
    forall c ensures CellLaw(Perform(s, i), c) && KeyPositive(Perform(s, i), c) {
      assert CellLaw(s, c) && KeyPositive(s, c);
      PerformTerms(s, i, c);
    }
  }

  // ----- starting a call

  lemma {:induction false} AddOpsSound(scope: Scope, u: Usage, n: nat)
    requires n <= |KINDS|
    ensures SoundOps(AddOps(scope, Amounts(u), n))
  {
    if n > 0 { AddOpsSound(scope, u, n - 1); }
  }

  lemma {:induction false} ZeroOpsSound(scope: Scope, refund: Option<string>, n: nat)
    requires n <= |KINDS| && (refund.Some? ==> scope.KeyScope?)
    ensures SoundOps(ZeroOps(scope, refund, n))
  {
    if n > 0 { ZeroOpsSound(scope, refund, n - 1); }
  }

  lemma {:induction false} PutOpsSound(team: string, value: Kind -> int, n: nat)
    requires n <= |KINDS|
    ensures SoundOps(PutOps(TeamScope(team), value, n)) && SoundOps(StoreOps(TeamScope(team), value, n))
  {
    if n > 0 { PutOpsSound(team, value, n - 1); }
  }

  lemma {:induction false} ClearEachSound(keys: seq<string>)
    ensures SoundOps(ClearEach(keys))
    decreases |keys|
  {
    if keys != [] {
      ClearEachSound(keys[..|keys| - 1]);
      ZeroOpsSound(KeyScope(keys[|keys| - 1]), None, |KINDS|);
    }
  }

  lemma ProgramIsSound(r: Roster, s: Accounts, call: Call)
    ensures SoundOps(Program(r, s, call))
  {
    match call
    case Settle(key, u) =>
      AddOpsSound(KeyScope(key), u, |KINDS|);
      if r.teamOf(key).Some? { AddOpsSound(TeamScope(r.teamOf(key).value), u, |KINDS|); }
    case ClearKey(key, refund) => ZeroOpsSound(KeyScope(key), refund, |KINDS|);
    case ResetTeam(team) =>
      ZeroOpsSound(TeamScope(team), None, |KINDS|);
      ClearEachSound(r.membersOf(team));
    case Recompute(team) => PutOpsSound(team, RowSums(s.db, r.membersOf(team)), |KINDS|);
    case ClearAll =>
  }

  lemma BeginKeepsInv(r: Roster, s: Accounts, call: Call)
    requires Inv(s)
    ensures Inv(Begin(r, s, call))
  {
    ProgramIsSound(r, s, call);
    forall c ensures CellLaw(Begin(r, s, call), c) && KeyPositive(Begin(r, s, call), c) {
      assert CellLaw(s, c) && KeyPositive(s, c);
      BeginTerms(r, s, call, c);
    }
  }

  lemma SyncKeepsInv(r: Roster, s: Accounts, step: Step)
    requires Inv(s) && !step.Start? && !step.Advance?
    ensures Inv(Apply(r, s, step))
  {
    forall c ensures CellLaw(Apply(r, s, step), c) && KeyPositive(Apply(r, s, step), c) {
      assert CellLaw(s, c) && KeyPositive(s, c);
    }
  }

  lemma StepKeepsInv(r: Roster, s: Accounts, step: Step)
    requires Inv(s)
    ensures Inv(Apply(r, s, step))
  {
    match step
    case Start(call) => BeginKeepsInv(r, s, call);
    case Advance(i) => if Runs(s, i) { PerformKeepsInv(s, i); }
    case _ => SyncKeepsInv(r, s, step);
  }

  lemma {:induction false} RunKeepsInv(r: Roster, steps: seq<Step>)
    ensures Inv(Exec(r, steps))
    decreases |steps|
  {
    if steps != [] {
      RunKeepsInv(r, steps[..|steps| - 1]);
      StepKeepsInv(r, Exec(r, steps[..|steps| - 1]), steps[|steps| - 1]);
    }
  }

  /** In every run and for every counter: what was charged is held, still to come, or was taken out. */
  lemma Conservation(r: Roster, steps: seq<Step>, c: Cell)
    ensures var s := Exec(r, steps);
            Read(s.mem.book, c) + Pending(s.tasks, c) + Read(s.taken, c) == Read(s.charged, c)
  {
    RunKeepsInv(r, steps);
    assert CellLaw(Exec(r, steps), c);
  }
}
