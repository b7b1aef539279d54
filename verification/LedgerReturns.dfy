/**
 What clears under way will return: a key counter that a call has still to zero with a
 refund, and no other call will take without one, is going to be taken off that team.
 */
module LedgerReturns {

  import opened Wrappers
  import opened Ledger
  import opened LedgerSteps
  import opened LedgerLaws
  import opened LedgerForecast

  /** Some call under way will zero this counter and have `team` refund it. */
  predicate Refunds(tasks: seq<seq<Op>>, c: Cell, team: string) {
    exists i :: 0 <= i < |tasks| && Zero(c, Some(team)) in tasks[i]
  }

  predicate Wipes(op: Op, c: Cell) { op == Zero(c, None) || op.Forget? }

  /** Some call under way will zero this counter and refund nobody. */
  predicate Wiped(tasks: seq<seq<Op>>, c: Cell) {
    exists i, j :: 0 <= i < |tasks| && 0 <= j < |tasks[i]| && Wipes(tasks[i][j], c)
  }

  predicate Counted(s: Accounts, c: Cell, team: string) { Refunds(s.tasks, c, team) && !Wiped(s.tasks, c) }

  /** What the team will give back for this counter, as things stand. */
  function ReturnOf(s: Accounts, c: Cell, team: string): nat {
    if Counted(s, c, team) then Positive(Read(s.mem.book, c)) else 0
  }

  function Returns(s: Accounts, keys: seq<string>, team: string, kind: Kind): nat {
    if keys == [] then 0 else ReturnOf(s, Cell(KeyScope(keys[0]), kind), team) + Returns(s, keys[1..], team, kind)
  }

  /** Where a team total is headed, refunds by its members included. */
  function TeamHeading(r: Roster, s: Accounts, team: string, kind: Kind): int {
    Heading(s, Cell(TeamScope(team), kind)) - Returns(s, r.membersOf(team), team, kind)
  }

  // ----- one update

  lemma RefundsTail(s: Accounts, i: nat, c: Cell, team: string)
    requires Runs(s, i) && s.tasks[i][0] != Zero(c, Some(team))
    ensures Refunds(Perform(s, i).tasks, c, team) <==> Refunds(s.tasks, c, team)
  {
    var e := Perform(s, i);
    assert s.tasks[i] == [s.tasks[i][0]] + s.tasks[i][1..];
    if Refunds(s.tasks, c, team) {
      var j :| 0 <= j < |s.tasks| && Zero(c, Some(team)) in s.tasks[j];
      assert Zero(c, Some(team)) in e.tasks[j];
    }
    if Refunds(e.tasks, c, team) {
      var j :| 0 <= j < |e.tasks| && Zero(c, Some(team)) in e.tasks[j];
      assert Zero(c, Some(team)) in s.tasks[j];
    }
  }

  lemma WipedTail(s: Accounts, i: nat, c: Cell)
    requires Runs(s, i) && !Wipes(s.tasks[i][0], c)
    ensures Wiped(Perform(s, i).tasks, c) <==> Wiped(s.tasks, c)
  {
    var e := Perform(s, i);
    var rest, more := s.tasks[i][1..], Extras(s.mem, s.tasks[i][0]);
    assert e.tasks[i] == rest + more;
    if Wiped(s.tasks, c) {
      var a, b :| 0 <= a < |s.tasks| && 0 <= b < |s.tasks[a]| && Wipes(s.tasks[a][b], c);
      if a == i { assert Wipes(e.tasks[i][b - 1], c); } else { assert Wipes(e.tasks[a][b], c); }
    }
    if Wiped(e.tasks, c) {
      var a, b :| 0 <= a < |e.tasks| && 0 <= b < |e.tasks[a]| && Wipes(e.tasks[a][b], c);
      if a == i {
        assert b < |rest|;
        assert Wipes(s.tasks[i][b + 1], c);
      } else {
        assert Wipes(s.tasks[a][b], c);
      }
    }
  }

  /** How one update moves what a team will give back for a key counter. */
  function ReturnShift(s: Accounts, i: nat, c: Cell, team: string): int
    requires Runs(s, i)
  {
    var op := s.tasks[i][0];
    if op.Zero? && op.cell == c then 0 - ReturnOf(s, c, team)
    else if op.Bump? && op.cell == c && Counted(s, c, team) then op.delta
    else 0
  }

  lemma PerformReturn(s: Accounts, i: nat, c: Cell, team: string)
    requires Runs(s, i) && AllSound(s) && KeyPositive(s, c) && c.scope.KeyScope?
    ensures ReturnOf(Perform(s, i), c, team) == ReturnOf(s, c, team) + ReturnShift(s, i, c, team)
  {
    var op := s.tasks[i][0];
    assert SoundOp(op);
    if SetsCell(op, c) {
      assert Read(Perform(s, i).mem.book, c) == 0;
      if op.Forget? { assert Wipes(s.tasks[i][0], c); }
    } else {
      RefundsTail(s, i, c, team);
      WipedTail(s, i, c);
    }
  }

  lemma {:induction false} PerformReturns(s: Accounts, i: nat, keys: seq<string>, team: string, kind: Kind)
    requires Runs(s, i) && AllSound(s) && Distinct(keys) && forall c :: KeyPositive(s, c)
    ensures var op := s.tasks[i][0];
            Returns(Perform(s, i), keys, team, kind) == Returns(s, keys, team, kind) +
            if (op.Zero? || op.Bump?) && op.cell.scope.KeyScope? && op.cell.scope.hash in keys && op.cell.kind == kind
            then ReturnShift(s, i, op.cell, team) else 0
    decreases |keys|
  {
    if keys != [] {
      var c, tail := Cell(KeyScope(keys[0]), kind), keys[1..];
      assert KeyPositive(s, c);
      PerformReturn(s, i, c, team);
      assert keys == [keys[0]] + tail;
      assert keys[0] !in tail && Distinct(tail);
      PerformReturns(s, i, tail, team, kind);
    }
  }

  /** The counter of this kind of a member of the team. */
  predicate OfMember(r: Roster, c: Cell, team: string, kind: Kind) {
    c.scope.KeyScope? && c.scope.hash in r.membersOf(team) && c.kind == kind
  }

  /** How one update moves where a team total is headed. */
  function TeamShift(r: Roster, s: Accounts, i: nat, team: string, kind: Kind): int
    requires Runs(s, i)
  {
    var op := s.tasks[i][0];
    Shift(s, i, Cell(TeamScope(team), kind)) -
    if (op.Zero? || op.Bump?) && OfMember(r, op.cell, team, kind) then ReturnShift(s, i, op.cell, team) else 0
  }

  lemma PerformTeamHeading(r: Roster, s: Accounts, i: nat, team: string, kind: Kind)
    requires RosterOk(r) && Inv(s) && Runs(s, i)
    ensures TeamHeading(r, Perform(s, i), team, kind) == TeamHeading(r, s, team, kind) + TeamShift(r, s, i, team, kind)
  {
    PerformHeading(s, i, Cell(TeamScope(team), kind));
    PerformReturns(s, i, r.membersOf(team), team, kind);
  }

  // ----- the start of a call

  lemma {:induction false} AddOpsZeroNothing(scope: Scope, amount: Kind -> int, n: nat)
    requires n <= |KINDS|
    ensures forall op :: op in AddOps(scope, amount, n) ==> !op.Zero? && !op.Forget?
  {
    if n > 0 { AddOpsZeroNothing(scope, amount, n - 1); }
  }

  lemma {:induction false} PutOpsZeroNothing(scope: Scope, value: Kind -> int, n: nat)
    requires n <= |KINDS|
    ensures forall op :: op in PutOps(scope, value, n) ==> !op.Zero? && !op.Forget?
    ensures forall op :: op in StoreOps(scope, value, n) ==> !op.Zero? && !op.Forget?
  {
    if n > 0 { PutOpsZeroNothing(scope, value, n - 1); }
  }

  lemma {:induction false} ZeroOpsRefund(scope: Scope, refund: Option<string>, n: nat)
    requires n <= |KINDS|
    ensures forall op :: op in ZeroOps(scope, refund, n) && op.Zero? ==> op.refund == refund && op.cell.scope == scope
    ensures forall op :: op in ZeroOps(scope, refund, n) ==> !op.Forget?
    ensures forall i :: 0 <= i < n ==> Zero(Cell(scope, KINDS[i]), refund) in ZeroOps(scope, refund, n)
  {
    if n > 0 { ZeroOpsRefund(scope, refund, n - 1); }
  }

  lemma {:induction false} ClearEachRefund(keys: seq<string>)
    ensures forall op :: op in ClearEach(keys) && op.Zero? ==>
            op.refund.None? && op.cell.scope.KeyScope? && op.cell.scope.hash in keys
    ensures forall op :: op in ClearEach(keys) ==> !op.Forget?
    ensures forall k, kind: Kind :: k in keys ==> Zero(Cell(KeyScope(k), kind), None) in ClearEach(keys)
    decreases |keys|
  {
    if keys != [] {
      var front, k := keys[..|keys| - 1], keys[|keys| - 1];
      ClearEachRefund(front);
      ZeroOpsRefund(KeyScope(k), None, |KINDS|);
      assert keys == front + [k];
      forall x, kind: Kind | x in keys ensures Zero(Cell(KeyScope(x), kind), None) in ClearEach(keys) {
        var i := KindIndex(kind);
        assert x in front || x == k;
      }
    }
  }

  /** The call wipes the counters of this key. */
  predicate WipesKey(r: Roster, call: Call, key: string) {
    Resets(r, call, KeyScope(key)) && !(call.ClearKey? && call.refund.Some?)
  }

  lemma ProgramReturns(r: Roster, s: Accounts, call: Call, key: string, kind: Kind, team: string)
    ensures Zero(Cell(KeyScope(key), kind), Some(team)) in Program(r, s, call) <==> call == ClearKey(key, Some(team))
    ensures (exists op :: op in Program(r, s, call) && Wipes(op, Cell(KeyScope(key), kind))) <==> WipesKey(r, call, key)
  {
    var c := Cell(KeyScope(key), kind);
    var i := KindIndex(kind);
    match call
    case Settle(k, u) =>
      AddOpsZeroNothing(KeyScope(k), Amounts(u), |KINDS|);
      if r.teamOf(k).Some? { AddOpsZeroNothing(TeamScope(r.teamOf(k).value), Amounts(u), |KINDS|); }
    case ClearKey(k, refund) =>
      ZeroOpsRefund(KeyScope(k), refund, |KINDS|);
      if k == key {
        assert Zero(c, refund) in ClearOps(k, refund);
        if refund.None? { assert Wipes(Zero(c, None), c); }
      }
    case ResetTeam(t) =>
      ZeroOpsRefund(TeamScope(t), None, |KINDS|);
      ClearEachRefund(r.membersOf(t));
      if key in r.membersOf(t) {
        assert Zero(c, None) in ClearEach(r.membersOf(t));
        assert Wipes(Zero(c, None), c);
      }
    case Recompute(t) => PutOpsZeroNothing(TeamScope(t), RowSums(s.db, r.membersOf(t)), |KINDS|);
    case ClearAll => assert Wipes(Forget, c) && Forget in Program(r, s, call);
  }

  lemma RefundsSnoc(tasks: seq<seq<Op>>, ops: seq<Op>, c: Cell, team: string)
    ensures Refunds(tasks + [ops], c, team) <==> Refunds(tasks, c, team) || Zero(c, Some(team)) in ops
  {
    var all := tasks + [ops];
    if Refunds(tasks, c, team) {
      var j :| 0 <= j < |tasks| && Zero(c, Some(team)) in tasks[j];
      assert all[j] == tasks[j];
    }
    assert all[|tasks|] == ops;
  }

  lemma WipedSnoc(tasks: seq<seq<Op>>, ops: seq<Op>, c: Cell)
    ensures Wiped(tasks + [ops], c) <==> Wiped(tasks, c) || exists op :: op in ops && Wipes(op, c)
  {
    var all := tasks + [ops];
    if Wiped(tasks, c) {
      var a, b :| 0 <= a < |tasks| && 0 <= b < |tasks[a]| && Wipes(tasks[a][b], c);
      assert Wipes(all[a][b], c);
    }
    if op :| op in ops && Wipes(op, c) {
      var b :| 0 <= b < |ops| && ops[b] == op;
      assert Wipes(all[|tasks|][b], c);
    }
    if Wiped(all, c) {
      var a, b :| 0 <= a < |all| && 0 <= b < |all[a]| && Wipes(all[a][b], c);
      if a < |tasks| { assert Wipes(tasks[a][b], c); } else { assert all[a][b] in ops; }
    }
  }

  /** What the team will give back for a key counter once this call has started. */
  function ReturnAfter(r: Roster, s: Accounts, call: Call, key: string, kind: Kind, team: string): nat {
    var c := Cell(KeyScope(key), kind);
    if (Refunds(s.tasks, c, team) || call == ClearKey(key, Some(team))) && !Wiped(s.tasks, c) && !WipesKey(r, call, key)
    then Positive(Read(s.mem.book, c)) else 0
  }

  lemma StartReturn(r: Roster, s: Accounts, call: Call, key: string, kind: Kind, team: string)
    ensures ReturnOf(Begin(r, s, call), Cell(KeyScope(key), kind), team) == ReturnAfter(r, s, call, key, kind, team)
  {
    var c := Cell(KeyScope(key), kind);
    ProgramReturns(r, s, call, key, kind, team);
    RefundsSnoc(s.tasks, Program(r, s, call), c, team);
    WipedSnoc(s.tasks, Program(r, s, call), c);
  }

  /** A call that clears no member leaves alone what the team will give back. */
  lemma {:induction false} StartReturnsSame(r: Roster, s: Accounts, call: Call, keys: seq<string>, team: string,
      kind: Kind)
    requires forall k :: k in keys ==>
             ReturnAfter(r, s, call, k, kind, team) == ReturnOf(s, Cell(KeyScope(k), kind), team)
    ensures Returns(Begin(r, s, call), keys, team, kind) == Returns(s, keys, team, kind)
    decreases |keys|
  {
    if keys != [] {
      assert keys[0] in keys;
      StartReturn(r, s, call, keys[0], kind, team);
      StartReturnsSame(r, s, call, keys[1..], team, kind);
    }
  }

  lemma {:induction false} StartReturnsNone(r: Roster, s: Accounts, call: Call, keys: seq<string>, team: string,
      kind: Kind)
    requires forall k :: k in keys ==> WipesKey(r, call, k)
    ensures Returns(Begin(r, s, call), keys, team, kind) == 0
    decreases |keys|
  {
    if keys != [] {
      assert keys[0] in keys;
      StartReturn(r, s, call, keys[0], kind, team);
      StartReturnsNone(r, s, call, keys[1..], team, kind);
    }
  }

  lemma {:induction false} StartReturnsOne(r: Roster, s: Accounts, key: string, refund: Option<string>,
      keys: seq<string>, team: string, kind: Kind)
    requires Distinct(keys)
    ensures var call := ClearKey(key, refund);
            Returns(Begin(r, s, call), keys, team, kind) == Returns(s, keys, team, kind) +
            if key in keys
            then ReturnAfter(r, s, call, key, kind, team) - ReturnOf(s, Cell(KeyScope(key), kind), team)
            else 0
    decreases |keys|
  {
    if keys != [] {
      var tail := keys[1..];
      assert keys == [keys[0]] + tail;
      assert keys[0] !in tail && Distinct(tail);
      StartReturn(r, s, ClearKey(key, refund), keys[0], kind, team);
      StartReturnsOne(r, s, key, refund, tail, team, kind);
    }
  }

  lemma {:induction false} SameReturns(s: Accounts, e: Accounts, keys: seq<string>, team: string, kind: Kind)
    requires e.tasks == s.tasks && e.mem.book == s.mem.book
    ensures Returns(e, keys, team, kind) == Returns(s, keys, team, kind)
  {
    if keys != [] { SameReturns(s, e, keys[1..], team, kind); }
  }

  lemma {:induction false} IdleReturns(s: Accounts, keys: seq<string>, team: string, kind: Kind)
    requires Idle(s)
    ensures Returns(s, keys, team, kind) == 0
  {
    if keys != [] { IdleReturns(s, keys[1..], team, kind); }
  }
}
