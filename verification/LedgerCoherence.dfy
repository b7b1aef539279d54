/**
 Write-back coherence: whether a total that differs from its database row is on its way
 there. Exactly the statements to the database and the two updates of a full clear can lose
 a total, each under a condition that can be read off the state they run in.
 */
module LedgerCoherence {

  import opened Wrappers
  import opened Ledger
  import opened LedgerSteps

  /** Some call under way will still mark this cell. */
  ghost predicate Promised(s: Accounts, c: Cell) {
    exists i :: 0 <= i < |s.tasks| && Mark(c) in s.tasks[i]
  }

  predicate Flying(s: Accounts, c: Cell) { s.flight.Some? && s.flight.value.cell == c }

  /** The cell is dirty, in the running sync, or will be marked. */
  ghost predicate Tracked(s: Accounts, c: Cell) {
    c in s.mem.dirty || c in s.work || Flying(s, c) || Promised(s, c)
  }

  /** A row that is being written is current or will be written again. */
  ghost predicate FlightOk(s: Accounts, c: Cell) {
    Flying(s, c) ==> s.flight.value.value == Read(s.mem.book, c) || c in s.mem.dirty || Promised(s, c)
  }

  /** A cell whose memory and database values differ is on its way to the database. */
  ghost predicate CoherentAt(s: Accounts, c: Cell) {
    (Read(s.mem.book, c) == Read(s.db, c) || Tracked(s, c)) && FlightOk(s, c)
  }

  ghost predicate Coherent(s: Accounts) { forall c :: CoherentAt(s, c) }

  // ----- every change is followed by its mark

  predicate Changes(op: Op) { op.Bump? || op.Zero? || op.Put? }

  predicate WellMarked(ops: seq<Op>) {
    ops != [] ==> (Changes(ops[0]) ==> Mark(ops[0].cell) in ops[1..]) && WellMarked(ops[1..])
  }

  ghost predicate AllMarked(s: Accounts) {
    forall i :: 0 <= i < |s.tasks| ==> WellMarked(s.tasks[i])
  }

  lemma {:induction false} WellMarkedAppend(a: seq<Op>, b: seq<Op>)
    requires WellMarked(a) && WellMarked(b)
    ensures WellMarked(a + b)
    decreases |a|
  {
    if a == [] {
      assert a + b == b;
    } else {
      assert (a + b)[1..] == a[1..] + b;
      WellMarkedAppend(a[1..], b);
    }
  }

  lemma PairIsMarked(op: Op, c: Cell)
    requires Changes(op) && op.cell == c
    ensures WellMarked([op, Mark(c)])
  {
    assert [op, Mark(c)][1..] == [Mark(c)] && [Mark(c)][1..] == [];
    assert WellMarked([Mark(c)]);
  }

  lemma AddOpIsMarked(c: Cell, delta: int)
    ensures WellMarked(AddOp(c, delta))
  {
    if delta != 0 { PairIsMarked(Bump(c, delta), c); }
  }

  lemma SingleIsMarked(op: Op)
    requires !Changes(op)
    ensures WellMarked([op])
  {
    assert [op][1..] == [];
  }

  lemma {:induction false} AddOpsMarked(scope: Scope, amount: Kind -> int, n: nat)
    requires n <= |KINDS|
    ensures WellMarked(AddOps(scope, amount, n))
  {
    if n > 0 {
      AddOpsMarked(scope, amount, n - 1);
      AddOpIsMarked(Cell(scope, KINDS[n - 1]), amount(KINDS[n - 1]));
      WellMarkedAppend(AddOps(scope, amount, n - 1), AddOp(Cell(scope, KINDS[n - 1]), amount(KINDS[n - 1])));
    }
  }

  lemma {:induction false} ZeroOpsMarked(scope: Scope, refund: Option<string>, n: nat)
    requires n <= |KINDS|
    ensures WellMarked(ZeroOps(scope, refund, n))
    ensures forall i :: 0 <= i < n ==> Mark(Cell(scope, KINDS[i])) in ZeroOps(scope, refund, n)
  {
    if n > 0 {
      var c := Cell(scope, KINDS[n - 1]);
      ZeroOpsMarked(scope, refund, n - 1);
      PairIsMarked(Zero(c, refund), c);
      WellMarkedAppend(ZeroOps(scope, refund, n - 1), [Zero(c, refund), Mark(c)]);
    }
  }

  lemma {:induction false} PutOpsMarked(scope: Scope, value: Kind -> int, n: nat)
    requires n <= |KINDS|
    ensures WellMarked(PutOps(scope, value, n))
    ensures forall i :: 0 <= i < n ==> Mark(Cell(scope, KINDS[i])) in PutOps(scope, value, n)
  {
    if n > 0 {
      var c := Cell(scope, KINDS[n - 1]);
      PutOpsMarked(scope, value, n - 1);
      PairIsMarked(Put(c, value(KINDS[n - 1])), c);
      WellMarkedAppend(PutOps(scope, value, n - 1), [Put(c, value(KINDS[n - 1])), Mark(c)]);
    }
  }

  lemma {:induction false} StoreOpsMarked(scope: Scope, value: Kind -> int, n: nat)
    requires n <= |KINDS|
    ensures WellMarked(StoreOps(scope, value, n))
    ensures forall op :: op in StoreOps(scope, value, n) ==> op.Store? && op.cell.scope == scope
  {
    if n > 0 {
      StoreOpsMarked(scope, value, n - 1);
      var op := Store(Cell(scope, KINDS[n - 1]), value(KINDS[n - 1]));
      SingleIsMarked(op);
      WellMarkedAppend(StoreOps(scope, value, n - 1), [op]);
    }
  }

  /** All cells of a scope are marked. */
  ghost predicate MarksScope(ops: seq<Op>, scope: Scope) {
    forall kind: Kind :: Mark(Cell(scope, kind)) in ops
  }

  lemma ClearOpsMarked(key: string, refund: Option<string>)
    ensures WellMarked(ClearOps(key, refund)) && MarksScope(ClearOps(key, refund), KeyScope(key))
  {
    ZeroOpsMarked(KeyScope(key), refund, |KINDS|);
    SingleIsMarked(Erase(KeyScope(key)));
    WellMarkedAppend(ZeroOps(KeyScope(key), refund, |KINDS|), [Erase(KeyScope(key))]);
    forall kind: Kind ensures Mark(Cell(KeyScope(key), kind)) in ClearOps(key, refund) {
      var i := KindIndex(kind);
    }
  }

  lemma {:induction false} ClearEachMarked(keys: seq<string>)
    ensures WellMarked(ClearEach(keys))
    ensures forall k :: k in keys ==> MarksScope(ClearEach(keys), KeyScope(k))
    decreases |keys|
  {
    if keys != [] {
      var front, k := keys[..|keys| - 1], keys[|keys| - 1];
      ClearEachMarked(front);
      ClearOpsMarked(k, None);
      WellMarkedAppend(ClearEach(front), ClearOps(k, None));
      forall x | x in keys ensures MarksScope(ClearEach(keys), KeyScope(x)) {
        assert x in front || x == k;
      }
    }
  }

  lemma ProgramIsMarked(r: Roster, s: Accounts, call: Call)
    ensures WellMarked(Program(r, s, call))
  {
    match call
    case Settle(key, u) =>
      AddOpsMarked(KeyScope(key), Amounts(u), |KINDS|);
      if r.teamOf(key).Some? {
        AddOpsMarked(TeamScope(r.teamOf(key).value), Amounts(u), |KINDS|);
        WellMarkedAppend(AddOps(KeyScope(key), Amounts(u), |KINDS|),
                         AddOps(TeamScope(r.teamOf(key).value), Amounts(u), |KINDS|));
      } else {
        assert AddOps(KeyScope(key), Amounts(u), |KINDS|) + [] == AddOps(KeyScope(key), Amounts(u), |KINDS|);
      }
    case ClearKey(key, refund) => ClearOpsMarked(key, refund);
    case ResetTeam(team) =>
      SingleIsMarked(Erase(TeamScope(team)));
      ZeroOpsMarked(TeamScope(team), None, |KINDS|);
      ClearEachMarked(r.membersOf(team));
      WellMarkedAppend([Erase(TeamScope(team))], ZeroOps(TeamScope(team), None, |KINDS|));
      WellMarkedAppend([Erase(TeamScope(team))] + ZeroOps(TeamScope(team), None, |KINDS|),
          ClearEach(r.membersOf(team)));
    case Recompute(team) =>
      var value := RowSums(s.db, r.membersOf(team));
      PutOpsMarked(TeamScope(team), value, |KINDS|);
      StoreOpsMarked(TeamScope(team), value, |KINDS|);
      WellMarkedAppend(PutOps(TeamScope(team), value, |KINDS|), StoreOps(TeamScope(team), value, |KINDS|));
    case ClearAll =>
      SingleIsMarked(Forget);
      SingleIsMarked(Unmark);
      WellMarkedAppend([Forget], [Unmark]);
      assert [Forget] + [Unmark] == [Forget, Unmark];
  }

  lemma PerformKeepsMarked(s: Accounts, i: nat)
    requires AllMarked(s) && Runs(s, i)
    ensures AllMarked(Perform(s, i))
  {
    var op, rest := s.tasks[i][0], s.tasks[i][1..];
    if op.Zero? && op.refund.Some? { AddOpIsMarked(RefundCell(op), 0 - Returned(s.mem, op)); }
    WellMarkedAppend(rest, Extras(s.mem, op));
  }

  lemma StepKeepsMarked(r: Roster, s: Accounts, step: Step)
    requires AllMarked(s)
    ensures AllMarked(Apply(r, s, step))
  {
    match step
    case Start(call) => ProgramIsMarked(r, s, call);
    case Advance(i) => if Runs(s, i) { PerformKeepsMarked(s, i); }
    case _ =>
  }

  lemma {:induction false} RunIsMarked(r: Roster, steps: seq<Step>)
    ensures AllMarked(Exec(r, steps))
    decreases |steps|
  {
    if steps != [] {
      RunIsMarked(r, steps[..|steps| - 1]);
      StepKeepsMarked(r, Exec(r, steps[..|steps| - 1]), steps[|steps| - 1]);
    }
  }

  // ----- what can lose a total, exactly

  /** The update loses track of `c`: a deletion while the total is not zero, or an upsert of a
      value that is not the total, when nothing will write the row again; a cleared book whose
      row is not zero, or a cleared dirty set whose cell needed its mark. */
  ghost predicate Loses(s: Accounts, op: Op, c: Cell) {
    match op
    case Erase(scope) => c.scope == scope && Read(s.mem.book, c) != 0 && !Tracked(s, c)
    case Store(x, value) => x == c && value != Read(s.mem.book, c) && !Tracked(s, c)
    case Forget =>
      || (Read(s.db, c) != 0 && !Tracked(s, c))
      || (Flying(s, c) && s.flight.value.value != 0 && c !in s.mem.dirty && !Promised(s, c))
    case Unmark =>
      || (Read(s.mem.book, c) != Read(s.db, c) && c !in s.work && !Flying(s, c) && !Promised(s, c))
      || (Flying(s, c) && s.flight.value.value != Read(s.mem.book, c) && !Promised(s, c))
    case _ => false
  }

  lemma PromisedAfter(s: Accounts, i: nat, c: Cell)
    requires Runs(s, i)
    ensures Promised(s, c) ==> Promised(Perform(s, i), c) || s.tasks[i][0] == Mark(c)
    ensures Promised(Perform(s, i), c) ==> Promised(s, c) || Mark(c) in Extras(s.mem, s.tasks[i][0])
    ensures Mark(c) in s.tasks[i][1..] ==> Promised(Perform(s, i), c)
  {
    var s' := Perform(s, i);
    if Promised(s, c) {
      var j :| 0 <= j < |s.tasks| && Mark(c) in s.tasks[j];
      if j != i { assert s'.tasks[j] == s.tasks[j]; }
      assert s.tasks[i] == [s.tasks[i][0]] + s.tasks[i][1..];
      if j == i && s.tasks[i][0] != Mark(c) { assert Mark(c) in s'.tasks[i]; }
    }
    if Promised(s', c) {
      var j :| 0 <= j < |s'.tasks| && Mark(c) in s'.tasks[j];
      if j != i { assert s'.tasks[j] == s.tasks[j]; }
    }
    if Mark(c) in s.tasks[i][1..] { assert Mark(c) in s'.tasks[i]; }
  }

  lemma OtherBookCells(m: Memory, op: Op, c: Cell)
    requires !op.Forget? && !(Changes(op) && op.cell == c)
    ensures Read(OnMemory(m, op).book, c) == Read(m.book, c)
  {}

  /** One update from a coherent state: coherence survives unless the update loses the cell. */
  lemma PerformCoherentIff(s: Accounts, i: nat, c: Cell)
    requires AllMarked(s) && Runs(s, i) && CoherentAt(s, c)
    ensures CoherentAt(Perform(s, i), c) <==> !Loses(s, s.tasks[i][0], c)
  {
    var op := s.tasks[i][0];
    PromisedAfter(s, i, c);
    assert WellMarked(s.tasks[i]);
    if !Changes(op) { assert Extras(s.mem, op) == []; }
    if !op.Forget? && !(Changes(op) && op.cell == c) { OtherBookCells(s.mem, op, c); }
  }

  lemma BeginKeepsCoherence(r: Roster, s: Accounts, call: Call, c: Cell)
    requires CoherentAt(s, c)
    ensures CoherentAt(Begin(r, s, call), c)
  {
    var s' := Begin(r, s, call);
    if Promised(s, c) {
      var j :| 0 <= j < |s.tasks| && Mark(c) in s.tasks[j];
      assert s'.tasks[j] == s.tasks[j];
    }
  }

  /** Nothing is waiting to be written. */
  predicate Flushed(s: Accounts) { s.mem.dirty == {} && s.work == {} && s.flight.None? }

  // ----- until a sync writes the row, nothing is lost

  /** The steps after which a cell may be no longer tracked. */
  predicate MayRelease(s: Accounts, step: Step, c: Cell) {
    || (step.SyncWrite? && Flying(s, c))
    || (step.Advance? && Runs(s, step.i) && s.tasks[step.i][0].Unmark?)
    || step.SyncAbort?
  }

  lemma PerformKeepsTracked(s: Accounts, i: nat, c: Cell)
    requires Runs(s, i) && Tracked(s, c) && !s.tasks[i][0].Unmark?
    ensures Tracked(Perform(s, i), c)
  {
    PromisedAfter(s, i, c);
  }

  /** No full clear among these updates. */
  predicate Partial(ops: seq<Op>) { forall i :: 0 <= i < |ops| ==> !ops[i].Forget? && !ops[i].Unmark? }

  lemma {:induction false} AddOpsPartial(scope: Scope, amount: Kind -> int, n: nat)
    requires n <= |KINDS|
    ensures Partial(AddOps(scope, amount, n))
  {
    if n > 0 { AddOpsPartial(scope, amount, n - 1); }
  }

  lemma {:induction false} ZeroOpsPartial(scope: Scope, refund: Option<string>, n: nat)
    requires n <= |KINDS|
    ensures Partial(ZeroOps(scope, refund, n))
  {
    if n > 0 { ZeroOpsPartial(scope, refund, n - 1); }
  }

  lemma {:induction false} PutOpsPartial(scope: Scope, value: Kind -> int, n: nat)
    requires n <= |KINDS|
    ensures Partial(PutOps(scope, value, n)) && Partial(StoreOps(scope, value, n))
  {
    if n > 0 { PutOpsPartial(scope, value, n - 1); }
  }

  lemma {:induction false} ClearEachPartial(keys: seq<string>)
    ensures Partial(ClearEach(keys))
    decreases |keys|
  {
    if keys != [] {
      ClearEachPartial(keys[..|keys| - 1]);
      ZeroOpsPartial(KeyScope(keys[|keys| - 1]), None, |KINDS|);
    }
  }

  lemma ProgramIsPartial(r: Roster, s: Accounts, call: Call)
    requires !call.ClearAll?
    ensures Partial(Program(r, s, call))
  {
    match call
    case Settle(key, u) =>
      AddOpsPartial(KeyScope(key), Amounts(u), |KINDS|);
      if r.teamOf(key).Some? { AddOpsPartial(TeamScope(r.teamOf(key).value), Amounts(u), |KINDS|); }
    case ClearKey(key, refund) => ZeroOpsPartial(KeyScope(key), refund, |KINDS|);
    case ResetTeam(team) =>
      ZeroOpsPartial(TeamScope(team), None, |KINDS|);
      ClearEachPartial(r.membersOf(team));
    case Recompute(team) => PutOpsPartial(TeamScope(team), RowSums(s.db, r.membersOf(team)), |KINDS|);
    case ClearAll =>
  }

  lemma BeginKeepsTracked(r: Roster, s: Accounts, call: Call, c: Cell)
    ensures Tracked(s, c) || Mark(c) in Program(r, s, call) ==> Tracked(Begin(r, s, call), c)
  {
    var s' := Begin(r, s, call);
    if Promised(s, c) {
      var j :| 0 <= j < |s.tasks| && Mark(c) in s.tasks[j];
      assert s'.tasks[j] == s.tasks[j];
    }
    assert s'.tasks[|s.tasks|] == Program(r, s, call);
  }

  lemma StepKeepsTracked(r: Roster, s: Accounts, step: Step, c: Cell)
    requires Tracked(s, c) && !MayRelease(s, step, c)
    ensures Tracked(Apply(r, s, step), c)
  {
    match step
    case Start(call) => BeginKeepsTracked(r, s, call, c);
    case Advance(i) => if Runs(s, i) { PerformKeepsTracked(s, i, c); }
    case SyncBegin => assert Promised(s, c) <==> Promised(Apply(r, s, step), c);
    case SyncRead(_) => assert Promised(s, c) <==> Promised(Apply(r, s, step), c);
    case SyncWrite => assert Promised(s, c) <==> Promised(Apply(r, s, step), c);
    case SyncAbort =>
  }

  /** No sync writes the row of `c` or is cut off, and nothing clears the marks, along these steps. */
  ghost predicate Unreleased(r: Roster, s: Accounts, steps: seq<Step>, c: Cell) {
    forall n :: 0 <= n < |steps| ==> !MayRelease(ExecFrom(r, s, steps[..n]), steps[n], c)
  }

  lemma {:induction false} TrackedUntilWritten(r: Roster, s: Accounts, steps: seq<Step>, c: Cell)
    requires Tracked(s, c) && Unreleased(r, s, steps, c)
    ensures Tracked(ExecFrom(r, s, steps), c)
    decreases |steps|
  {
    if steps != [] {
      var m := |steps| - 1;
      forall n | 0 <= n < m ensures !MayRelease(ExecFrom(r, s, steps[..m][..n]), steps[..m][n], c) {
        assert steps[..m][..n] == steps[..n];
      }
      TrackedUntilWritten(r, s, steps[..m], c);
      StepKeepsTracked(r, ExecFrom(r, s, steps[..m]), steps[m], c);
    }
  }

  /** A clear, a team reset or a recomputation loses nothing unless, after it started and before
      its statement reaches the database, a sync wrote that very row or was cut off. */
  lemma SafeUnlessSynced(r: Roster, s: Accounts, call: Call, steps: seq<Step>, c: Cell, value: int)
    requires Mark(c) in Program(r, s, call)
    requires Unreleased(r, Begin(r, s, call), steps, c)
    ensures var now := ExecFrom(r, Begin(r, s, call), steps);
            !Loses(now, Erase(c.scope), c) && !Loses(now, Store(c, value), c)
  {
    BeginKeepsTracked(r, s, call, c);
    TrackedUntilWritten(r, Begin(r, s, call), steps, c);
  }

  /** The deletion that opens a team reset is healed by the marks that follow it. */
  lemma TeamDeletionLosesNothing(s: Accounts, i: nat, scope: Scope, c: Cell)
    requires Runs(s, i) && s.tasks[i][0] == Erase(scope) && MarksScope(s.tasks[i], scope)
    ensures !Loses(s, Erase(scope), c)
  {
    if c.scope == scope { assert Mark(Cell(scope, c.kind)) in s.tasks[i]; }
  }

  // ----- undisturbed calls

  /** A statement of the list concerns the row of `c`. */
  ghost predicate Concerns(ops: seq<Op>, c: Cell) {
    exists i :: 0 <= i < |ops| && (ops[i] == Erase(c.scope) || (ops[i].Store? && ops[i].cell == c))
  }

  lemma {:induction false} FinishKeepsCoherence(s: Accounts, i: nat, c: Cell)
    requires AllMarked(s) && i < |s.tasks| && CoherentAt(s, c) && Partial(s.tasks[i])
    requires Concerns(s.tasks[i], c) ==> Tracked(s, c)
    ensures CoherentAt(Finish(s, i), c)
    decreases Weight(s.tasks[i])
  {
    if s.tasks[i] != [] {
      var s' := Perform(s, i);
      assert s.tasks[i] == [s.tasks[i][0]] + s.tasks[i][1..];
      ExtrasWeigh(s.mem, s.tasks[i][0], s.tasks[i][1..]);
      PerformCoherentIff(s, i, c);
      PerformKeepsMarked(s, i);
      if Concerns(s'.tasks[i], c) {
        var j :| 0 <= j < |s'.tasks[i]|
            && (s'.tasks[i][j] == Erase(c.scope) || (s'.tasks[i][j].Store? && s'.tasks[i][j].cell == c));
        assert j < |s.tasks[i][1..]|;
        assert s.tasks[i][j + 1] == s'.tasks[i][j];
        PerformKeepsTracked(s, i, c);
      }
      FinishKeepsCoherence(s', i, c);
    }
  }

  /** A row that a call deletes or overwrites is one it also marks. */
  lemma ConcernedIsMarked(r: Roster, s: Accounts, call: Call, c: Cell)
    requires Concerns(Program(r, s, call), c)
    ensures Mark(c) in Program(r, s, call)
  {
    var ops := Program(r, s, call);
    var i :| 0 <= i < |ops| && (ops[i] == Erase(c.scope) || (ops[i].Store? && ops[i].cell == c));
    assert ops[i] in ops;
    assert c == Cell(c.scope, c.kind);
    match call
    case Settle(key, u) =>
      NoStatements(KeyScope(key), Amounts(u), |KINDS|);
      if r.teamOf(key).Some? { NoStatements(TeamScope(r.teamOf(key).value), Amounts(u), |KINDS|); }
    case ClearKey(key, refund) =>
      ClearOpsMarked(key, refund);
      ZeroStatements(KeyScope(key), refund, |KINDS|);
    case ResetTeam(team) => ResetIsMarked(r, s, team, c, ops[i]);
    case Recompute(team) =>
      var value := RowSums(s.db, r.membersOf(team));
      PutStatements(TeamScope(team), value, |KINDS|);
      PutOpsMarked(TeamScope(team), value, |KINDS|);
      StoreOpsMarked(TeamScope(team), value, |KINDS|);
      var j := KindIndex(c.kind);
    case ClearAll =>
  }

  lemma ResetIsMarked(r: Roster, s: Accounts, team: string, c: Cell, op: Op)
    requires op in Program(r, s, ResetTeam(team)) && (op == Erase(c.scope) || (op.Store? && op.cell == c))
    ensures Mark(c) in Program(r, s, ResetTeam(team))
  {
    var keys := r.membersOf(team);
    ZeroStatements(TeamScope(team), None, |KINDS|);
    ZeroOpsMarked(TeamScope(team), None, |KINDS|);
    ClearEachMarked(keys);
    ClearEachStatements(keys);
    var j := KindIndex(c.kind);
    assert c == Cell(c.scope, c.kind);
    if op in ClearEach(keys) { assert MarksScope(ClearEach(keys), c.scope); }
  }

  predicate IsStatement(op: Op) { op.Erase? || op.Store? }

  lemma {:induction false} NoStatements(scope: Scope, amount: Kind -> int, n: nat)
    requires n <= |KINDS|
    ensures forall op :: op in AddOps(scope, amount, n) ==> !IsStatement(op)
  {
    if n > 0 { NoStatements(scope, amount, n - 1); }
  }

  lemma {:induction false} ZeroStatements(scope: Scope, refund: Option<string>, n: nat)
    requires n <= |KINDS|
    ensures forall op :: op in ZeroOps(scope, refund, n) ==> !IsStatement(op)
  {
    if n > 0 { ZeroStatements(scope, refund, n - 1); }
  }

  lemma {:induction false} PutStatements(scope: Scope, value: Kind -> int, n: nat)
    requires n <= |KINDS|
    ensures forall op :: op in PutOps(scope, value, n) ==> !IsStatement(op)
  {
    if n > 0 { PutStatements(scope, value, n - 1); }
  }

  lemma {:induction false} ClearEachStatements(keys: seq<string>)
    ensures forall op :: op in ClearEach(keys) && IsStatement(op) ==>
            op.Erase? && op.scope.KeyScope? && op.scope.hash in keys
    decreases |keys|
  {
    if keys != [] {
      ClearEachStatements(keys[..|keys| - 1]);
      ZeroStatements(KeyScope(keys[|keys| - 1]), None, |KINDS|);
      assert keys == keys[..|keys| - 1] + [keys[|keys| - 1]];
    }
  }

  /** A call that runs undisturbed loses nothing, unless it is a full clear. */
  lemma WholeKeepsCoherence(r: Roster, s: Accounts, call: Call, c: Cell)
    requires AllMarked(s) && CoherentAt(s, c) && !call.ClearAll?
    ensures CoherentAt(WholeCall(r, s, call), c)
  {
    var b := Begin(r, s, call);
    StepKeepsMarked(r, s, Start(call));
    BeginKeepsCoherence(r, s, call, c);
    BeginKeepsTracked(r, s, call, c);
    ProgramIsPartial(r, s, call);
    if Concerns(Program(r, s, call), c) { ConcernedIsMarked(r, s, call, c); }
    FinishKeepsCoherence(b, |s.tasks|, c);
  }

  /** The effect of a full clear. The running sync goes on with what it took and read. */
  lemma ClearAllEffect(r: Roster, s: Accounts)
    ensures var e := WholeCall(r, s, ClearAll);
            e.mem == Memory(map[], {}) && e.db == s.db && e.work == s.work && e.flight == s.flight &&
            e.tasks == s.tasks + [[]]
  {
    var b := Begin(r, s, ClearAll);
    var i := |s.tasks|;
    var p := Perform(b, i);
    assert b.tasks[i][1..] + [] == [Unmark];
    assert p.tasks[i] == [Unmark] && p.tasks[i][1..] + [] == [];
    var q := Perform(p, i);
    assert Finish(b, i) == Finish(p, i) == Finish(q, i) == q;
    assert q.tasks == s.tasks + [[]];
  }

  /** A full clear, run undisturbed from any state, leaves memory and database coherent if and only
      if every row is zero, still in the running sync or about to be marked by a call under way,
      and the row the sync has read, if any, is zero or about to be marked. */
  lemma ClearAllCoherentIff(r: Roster, s: Accounts, c: Cell)
    ensures CoherentAt(WholeCall(r, s, ClearAll), c) <==>
            (Read(s.db, c) == 0 || c in s.work || Flying(s, c) || Promised(s, c)) &&
            (Flying(s, c) ==> s.flight.value.value == 0 || Promised(s, c))
  {
    ClearAllEffect(r, s);
    PromisedWithIdle(s, WholeCall(r, s, ClearAll), c);
  }

  lemma PromisedWithIdle(s: Accounts, e: Accounts, c: Cell)
    requires e.tasks == s.tasks + [[]]
    ensures Promised(e, c) <==> Promised(s, c)
  {
    if Promised(s, c) {
      var j :| 0 <= j < |s.tasks| && Mark(c) in s.tasks[j];
      assert e.tasks[j] == s.tasks[j];
    }
    if Promised(e, c) {
      var j :| 0 <= j < |e.tasks| && Mark(c) in e.tasks[j];
      assert j < |s.tasks|;
      assert s.tasks[j] == e.tasks[j];
    }
  }

  // ----- whole runs

  /** The step loses track of `c`: it is an update that does, or the end of a cut-off sync, whose
      rows nothing else will write. */
  ghost predicate StepLoses(s: Accounts, step: Step, c: Cell) {
    match step
    case Advance(i) => Runs(s, i) && Loses(s, s.tasks[i][0], c)
    case SyncAbort => Read(s.mem.book, c) != Read(s.db, c) && c !in s.mem.dirty && !Promised(s, c)
    case _ => false
  }

  ghost predicate Harmless(s: Accounts, step: Step) { forall c :: !StepLoses(s, step, c) }

  lemma SyncKeepsCoherence(r: Roster, s: Accounts, step: Step, c: Cell)
    requires CoherentAt(s, c) && (step.SyncBegin? || step.SyncRead? || step.SyncWrite? || step.SyncAbort?)
    ensures CoherentAt(Apply(r, s, step), c) <==> !StepLoses(s, step, c)
  {
    assert Promised(s, c) <==> Promised(Apply(r, s, step), c);
  }

  lemma StepCoherentIff(r: Roster, s: Accounts, step: Step, c: Cell)
    requires AllMarked(s) && CoherentAt(s, c)
    ensures CoherentAt(Apply(r, s, step), c) <==> !StepLoses(s, step, c)
  {
    match step
    case Start(call) => BeginKeepsCoherence(r, s, call, c);
    case Advance(i) => if Runs(s, i) { PerformCoherentIff(s, i, c); }
    case _ => SyncKeepsCoherence(r, s, step, c);
  }

  /** Coherent after every step. */
  ghost predicate CoherentThroughout(r: Roster, steps: seq<Step>) {
    (steps != [] ==> CoherentThroughout(r, steps[..|steps| - 1])) && Coherent(Exec(r, steps))
  }

  ghost predicate LosesNothing(r: Roster, steps: seq<Step>) {
    steps != [] ==>
      && LosesNothing(r, steps[..|steps| - 1])
      && Harmless(Exec(r, steps[..|steps| - 1]), steps[|steps| - 1])
  }

  /** Write-back coherence with everything interleaved update by update: a run stays coherent
      throughout if and only if none of its steps loses a cell. */
  lemma {:induction false} WriteBackCoherenceIff(r: Roster, steps: seq<Step>)
    ensures CoherentThroughout(r, steps) <==> LosesNothing(r, steps)
    decreases |steps|
  {
    if steps != [] {
      var front, last := steps[..|steps| - 1], steps[|steps| - 1];
      WriteBackCoherenceIff(r, front);
      RunIsMarked(r, front);
      if Coherent(Exec(r, front)) { CoherenceOfStep(r, Exec(r, front), last); }
      LastCoherent(r, front);
    }
  }

  lemma LastCoherent(r: Roster, steps: seq<Step>)
    ensures CoherentThroughout(r, steps) ==> Coherent(Exec(r, steps))
  {}

  lemma CoherenceOfStep(r: Roster, s: Accounts, step: Step)
    requires AllMarked(s) && Coherent(s)
    ensures Coherent(Apply(r, s, step)) <==> Harmless(s, step)
  {
    forall c ensures CoherentAt(Apply(r, s, step), c) <==> !StepLoses(s, step, c) {
      StepCoherentIff(r, s, step, c);
    }
  }

  // ----- a sync run to its end

  /** Read and write these rows, one after the other. */
  function SyncRows(order: seq<Cell>): seq<Step> {
    if order == [] then [] else SyncRows(order[..|order| - 1]) + [SyncRead(order[|order| - 1]), SyncWrite]
  }

  function Elements(order: seq<Cell>): set<Cell> { set c | c in order }

  ghost predicate NoRepeats(order: seq<Cell>) {
    forall i, j :: 0 <= i < j < |order| ==> order[i] != order[j]
  }

  lemma ElementsSnoc(order: seq<Cell>)
    requires order != [] && NoRepeats(order)
    ensures var front, c := order[..|order| - 1], order[|order| - 1];
            NoRepeats(front) && c !in Elements(front) && Elements(order) == Elements(front) + {c}
  {
    var front, c := order[..|order| - 1], order[|order| - 1];
    assert order == front + [c];
  }

  lemma {:induction false} SyncRowsEmpty(r: Roster, s: Accounts, order: seq<Cell>, x: Cell)
    requires s.flight.None? && Elements(order) <= s.work && NoRepeats(order)
    ensures var e := ExecFrom(r, s, SyncRows(order));
            e == s.(db := e.db, work := s.work - Elements(order)) &&
            Read(e.db, x) == if x in Elements(order) then Read(s.mem.book, x) else Read(s.db, x)
    decreases |order|
  {
    if order != [] {
      var front, c := order[..|order| - 1], order[|order| - 1];
      ElementsSnoc(order);
      SyncRowsEmpty(r, s, front, x);
      ExecJoins(r, s, SyncRows(front), [SyncRead(c), SyncWrite]);
      SyncOneRow(r, ExecFrom(r, s, SyncRows(front)), c);
    }
  }

  lemma SyncOneRow(r: Roster, s: Accounts, c: Cell)
    requires c in s.work && s.flight.None?
    ensures ExecFrom(r, s, [SyncRead(c), SyncWrite]) ==
            s.(db := s.db[c := Read(s.mem.book, c)], work := s.work - {c})
  {
    assert [SyncRead(c), SyncWrite][..1] == [SyncRead(c)] && [SyncRead(c)][..0] == [];
    assert ExecFrom(r, s, [SyncRead(c)]) == Apply(r, s, SyncRead(c));
  }

  /** A sync that takes the dirty set and writes its rows, in any order and with nothing between,
      leaves nothing waiting; with no call under way, memory and database then agree everywhere. */
  lemma SyncCompletes(r: Roster, s: Accounts, order: seq<Cell>, c: Cell)
    requires CoherentAt(s, c) && Idle(s) && s.work == {} && s.flight.None?
    requires Elements(order) == s.mem.dirty && NoRepeats(order)
    ensures var e := ExecFrom(r, Apply(r, s, SyncBegin), SyncRows(order));
            Flushed(e) && e.mem.book == s.mem.book && Read(e.db, c) == Read(e.mem.book, c)
  {
    SyncRowsEmpty(r, Apply(r, s, SyncBegin), order, c);
    assert !Promised(s, c);
  }
}
