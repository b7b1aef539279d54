/**
 Teams whose calls take turns: when resets, clears and recomputations of a team and its
 members start only while nothing else of theirs is under way, and settlements only while
 none of those is, what is left of the exact conditions can be read off the calls as they
 start.
 */
module LedgerTurns {

  import opened Wrappers
  import opened Ledger
  import opened LedgerSteps
  import opened LedgerLaws
  import opened LedgerForecast
  import opened LedgerReturns
  import opened LedgerRuns
  import opened LedgerTeams
  import LedgerCoherence

  predicate Family(r: Roster, team: string, scope: Scope) {
    scope == TeamScope(team) || (scope.KeyScope? && scope.hash in r.membersOf(team))
  }

  /** The update sets a total of the team or of a member, or makes the team refund. */
  predicate SetsOf(r: Roster, op: Op, team: string) {
    || op.Forget?
    || ((op.Zero? || op.Put?) && Family(r, team, op.cell.scope))
    || (op.Zero? && op.refund == Some(team))
  }

  predicate Concerns(r: Roster, op: Op, team: string) {
    SetsOf(r, op, team) || (op.Bump? && Family(r, team, op.cell.scope))
  }

  predicate NoneSet(r: Roster, ops: seq<Op>, team: string) { forall j :: 0 <= j < |ops| ==> !SetsOf(r, ops[j], team) }

  predicate NoneConcern(r: Roster, ops: seq<Op>, team: string) {
    forall j :: 0 <= j < |ops| ==> !Concerns(r, ops[j], team)
  }

  /** No call under way resets, clears or recomputes the family. */
  predicate Free(r: Roster, s: Accounts, team: string) {
    forall i :: 0 <= i < |s.tasks| ==> NoneSet(r, s.tasks[i], team)
  }

  /** No call under way other than `i` concerns the family. */
  predicate Alone(r: Roster, s: Accounts, team: string, i: nat) {
    forall j :: 0 <= j < |s.tasks| && j != i ==> NoneConcern(r, s.tasks[j], team)
  }

  predicate Quiet(r: Roster, s: Accounts, team: string) {
    forall j :: 0 <= j < |s.tasks| ==> NoneConcern(r, s.tasks[j], team)
  }

  ghost predicate InFamilyTurn(r: Roster, s: Accounts, team: string) {
    Free(r, s, team) || exists i :: 0 <= i < |s.tasks| && Alone(r, s, team, i)
  }

  // ----- one call's own updates

  /** Within one call: sets of a counter agree, nothing is added to a counter still to be set, and
      either every zeroing is refunded by one team or none is. */
  ghost predicate Consistent(ops: seq<Op>) {
    && (forall a, b, c :: 0 <= a < |ops| && 0 <= b < |ops| && SetsCell(ops[a], c) && SetsCell(ops[b], c) ==>
        SetValue(ops[a]) == SetValue(ops[b]))
    && (forall a, b :: 0 <= a < |ops| && 0 <= b < |ops| && ops[a].Bump? ==> !SetsCell(ops[b], ops[a].cell))
    && (forall a, b :: 0 <= a < |ops| && 0 <= b < |ops| && ops[a].Zero? && ops[b].Zero? ==>
        ops[a].refund == ops[b].refund)
    && (forall a, b :: 0 <= a < |ops| && 0 <= b < |ops| && ops[a].Zero? && ops[a].refund.Some? ==>
        !ops[b].Put? && !ops[b].Forget?)
  }

  ghost predicate AllConsistent(s: Accounts) { forall i :: 0 <= i < |s.tasks| ==> Consistent(s.tasks[i]) }

  lemma TailConsistent(m: Memory, ops: seq<Op>)
    requires ops != [] && Consistent(ops) && SoundOps(ops)
    ensures Consistent(ops[1..] + Extras(m, ops[0]))
  {
    var rest, more := ops[1..], Extras(m, ops[0]);
    var all := rest + more;
    assert forall j :: 0 <= j < |rest| ==> all[j] == ops[j + 1];
    assert forall j :: |rest| <= j < |all| ==>
      || all[j].Mark?
      || (all[j] == Bump(RefundCell(ops[0]), 0 - Returned(m, ops[0])) && ops[0].Zero? && ops[0].refund.Some?);
    forall a, b | 0 <= a < |all| && 0 <= b < |all| && all[a].Bump? ensures !SetsCell(all[b], all[a].cell) {
      if b < |rest| {
        assert SoundOp(ops[b + 1]);
        if a >= |rest| { assert ops[0].Zero? && ops[0].refund.Some?; }
      }
    }
  }

  /** No update of the list sets anything. */
  lemma AddingIsConsistent(ops: seq<Op>)
    requires forall j :: 0 <= j < |ops| ==> ops[j].Bump? || ops[j].Mark?
    ensures Consistent(ops)
  {}

  /** A list of zeroings, marks and statements. */
  lemma ZeroingIsConsistent(ops: seq<Op>, refund: Option<string>)
    requires forall j :: 0 <= j < |ops| ==> (ops[j].Zero? && ops[j].refund == refund) || ops[j].Mark? || ops[j].Erase?
    ensures Consistent(ops)
  {}

  lemma {:induction false} AddOpsAdd(scope: Scope, amount: Kind -> int, n: nat)
    requires n <= |KINDS|
    ensures forall op :: op in AddOps(scope, amount, n) ==> op.Bump? || op.Mark?
  {
    if n > 0 { AddOpsAdd(scope, amount, n - 1); }
  }

  lemma {:induction false} ZeroOpsZero(scope: Scope, refund: Option<string>, n: nat)
    requires n <= |KINDS|
    ensures forall op :: op in ZeroOps(scope, refund, n) ==> (op.Zero? && op.refund == refund) || op.Mark?
  {
    if n > 0 { ZeroOpsZero(scope, refund, n - 1); }
  }

  lemma {:induction false} ClearEachZero(keys: seq<string>)
    ensures forall op :: op in ClearEach(keys) ==> (op.Zero? && op.refund.None?) || op.Mark? || op.Erase?
    decreases |keys|
  {
    if keys != [] {
      ClearEachZero(keys[..|keys| - 1]);
      ZeroOpsZero(KeyScope(keys[|keys| - 1]), None, |KINDS|);
    }
  }

  lemma {:induction false} PutOpsPut(team: string, value: Kind -> int, n: nat)
    requires n <= |KINDS|
    ensures forall op :: op in PutOps(TeamScope(team), value, n) ==>
            op.Mark? || (op.Put? && op.cell.scope == TeamScope(team) && op.value == value(op.cell.kind))
    ensures forall op :: op in StoreOps(TeamScope(team), value, n) ==> op.Store?
  {
    if n > 0 { PutOpsPut(team, value, n - 1); }
  }

  lemma PuttingIsConsistent(ops: seq<Op>, team: string, value: Kind -> int)
    requires forall j :: 0 <= j < |ops| ==>
             ops[j].Mark? || ops[j].Store? || (ops[j].Put? && ops[j].value == value(ops[j].cell.kind))
    ensures Consistent(ops)
  {}

  lemma SettleIsConsistent(r: Roster, s: Accounts, key: string, u: Usage)
    ensures Consistent(Program(r, s, Settle(key, u)))
  {
    var ops := Program(r, s, Settle(key, u));
    AddOpsAdd(KeyScope(key), Amounts(u), |KINDS|);
    if r.teamOf(key).Some? { AddOpsAdd(TeamScope(r.teamOf(key).value), Amounts(u), |KINDS|); }
    assert forall op :: op in ops ==> op.Bump? || op.Mark?;
    AddingIsConsistent(ops);
  }

  lemma ClearIsConsistent(key: string, refund: Option<string>)
    ensures Consistent(ClearOps(key, refund))
  {
    var ops := ClearOps(key, refund);
    ZeroOpsZero(KeyScope(key), refund, |KINDS|);
    assert forall op :: op in ops ==> (op.Zero? && op.refund == refund) || op.Mark? || op.Erase?;
    ZeroingIsConsistent(ops, refund);
  }

  lemma ResetIsConsistent(r: Roster, s: Accounts, team: string)
    ensures Consistent(Program(r, s, ResetTeam(team)))
  {
    var ops := Program(r, s, ResetTeam(team));
    ZeroOpsZero(TeamScope(team), None, |KINDS|);
    ClearEachZero(r.membersOf(team));
    assert forall op :: op in ops ==> (op.Zero? && op.refund == None) || op.Mark? || op.Erase?;
    ZeroingIsConsistent(ops, None);
  }

  lemma RecomputeIsConsistent(r: Roster, s: Accounts, team: string)
    ensures Consistent(Program(r, s, Recompute(team)))
  {
    var ops, value := Program(r, s, Recompute(team)), RowSums(s.db, r.membersOf(team));
    PutOpsPut(team, value, |KINDS|);
    assert forall op :: op in ops ==> op.Mark? || op.Store? || (op.Put? && op.value == value(op.cell.kind));
    PuttingIsConsistent(ops, team, value);
  }

  lemma ProgramIsConsistent(r: Roster, s: Accounts, call: Call)
    ensures Consistent(Program(r, s, call))
  {
    match call
    case Settle(key, u) => SettleIsConsistent(r, s, key, u);
    case ClearKey(key, refund) => ClearIsConsistent(key, refund);
    case ResetTeam(team) => ResetIsConsistent(r, s, team);
    case Recompute(team) => RecomputeIsConsistent(r, s, team);
    case ClearAll =>
  }

  lemma {:induction false} RunIsConsistent(r: Roster, steps: seq<Step>)
    ensures AllConsistent(Exec(r, steps))
    decreases |steps|
  {
    if steps != [] {
      var front, last := steps[..|steps| - 1], steps[|steps| - 1];
      RunIsConsistent(r, front);
      RunKeepsInv(r, front);
      var s := Exec(r, front);
      if last.Start? { ProgramIsConsistent(r, s, last.call); }
      if last.Advance? && Runs(s, last.i) { TailConsistent(s.mem, s.tasks[last.i]); }
    }
  }

  // ----- taking turns

  /** The call resets, clears or recomputes the family, or makes the team refund. */
  predicate Interferes(r: Roster, call: Call, team: string) {
    match call
    case Settle(_, _) => false
    case ClearKey(key, refund) => key in r.membersOf(team) || refund == Some(team)
    case ResetTeam(t) => t == team
    case Recompute(t) => t == team
    case ClearAll => true
  }

  /** Such a call starts while nothing concerns the family, a settlement of it while no such call is
      under way; and a refund comes from the key's own team. */
  predicate TakesFamilyTurns(r: Roster, s: Accounts, step: Step, team: string) {
    match step
    case Start(call) =>
      && (Interferes(r, call, team) ==> Quiet(r, s, team))
      && (call.Settle? && call.key in r.membersOf(team) ==> Free(r, s, team))
      && (call.ClearKey? && call.refund == Some(team) ==> call.key in r.membersOf(team))
    case _ => true
  }

  ghost predicate FamilyTurns(r: Roster, steps: seq<Step>, team: string) {
    steps != [] ==>
      FamilyTurns(r, steps[..|steps| - 1], team) &&
      TakesFamilyTurns(r, Exec(r, steps[..|steps| - 1]), steps[|steps| - 1], team)
  }

  lemma SettleConcerns(r: Roster, s: Accounts, key: string, u: Usage, team: string)
    requires RosterOk(r)
    ensures NoneSet(r, Program(r, s, Settle(key, u)), team)
    ensures key !in r.membersOf(team) ==> NoneConcern(r, Program(r, s, Settle(key, u)), team)
  {
    var ops := Program(r, s, Settle(key, u));
    AddOpsScope(KeyScope(key), Amounts(u), |KINDS|);
    if r.teamOf(key).Some? { AddOpsScope(TeamScope(r.teamOf(key).value), Amounts(u), |KINDS|); }
    assert key in r.membersOf(team) <==> r.teamOf(key) == Some(team);
    assert forall op :: op in ops ==> op.Mark? || (op.Bump? && Charges(r, key, op.cell.scope));
    assert forall j :: 0 <= j < |ops| ==> ops[j] in ops;
  }

  lemma ResetConcerns(r: Roster, s: Accounts, reset: string, team: string)
    requires RosterOk(r) && reset != team
    ensures NoneConcern(r, Program(r, s, ResetTeam(reset)), team)
  {
    var ops, keys := Program(r, s, ResetTeam(reset)), r.membersOf(reset);
    ZeroOpsRefund(TeamScope(reset), None, |KINDS|);
    ZeroOpsZero(TeamScope(reset), None, |KINDS|);
    ClearEachRefund(keys);
    ClearEachZero(keys);
    forall k | k in keys ensures k !in r.membersOf(team) { assert r.teamOf(k) == Some(reset); }
    assert forall op :: op in ops ==>
      || op.Mark? || op.Erase?
      || (op.Zero? && op.refund.None?
          && (op.cell.scope == TeamScope(reset) || (op.cell.scope.KeyScope? && op.cell.scope.hash in keys)));
  }

  lemma ClearConcerns(r: Roster, key: string, refund: Option<string>, team: string)
    requires key !in r.membersOf(team) && refund != Some(team)
    ensures NoneConcern(r, ClearOps(key, refund), team)
  {
    var ops := ClearOps(key, refund);
    ZeroOpsRefund(KeyScope(key), refund, |KINDS|);
    ZeroOpsZero(KeyScope(key), refund, |KINDS|);
    assert forall op :: op in ops ==>
        op.Mark? || op.Erase? || (op.Zero? && op.refund == refund && op.cell.scope == KeyScope(key));
  }

  lemma RecomputeConcerns(r: Roster, s: Accounts, other: string, team: string)
    requires other != team
    ensures NoneConcern(r, Program(r, s, Recompute(other)), team)
  {
    var ops := Program(r, s, Recompute(other));
    PutOpsPut(other, RowSums(s.db, r.membersOf(other)), |KINDS|);
    assert forall op :: op in ops ==> op.Mark? || op.Store? || (op.Put? && op.cell.scope == TeamScope(other));
    assert forall j :: 0 <= j < |ops| ==> ops[j] in ops;
  }

  lemma NoneConcernNoneSet(r: Roster, ops: seq<Op>, team: string)
    requires NoneConcern(r, ops, team)
    ensures NoneSet(r, ops, team)
  {
    forall j | 0 <= j < |ops| ensures !SetsOf(r, ops[j], team) { assert !Concerns(r, ops[j], team); }
  }

  lemma ProgramConcerns(r: Roster, s: Accounts, call: Call, team: string)
    requires RosterOk(r) && !Interferes(r, call, team)
    ensures NoneSet(r, Program(r, s, call), team)
    ensures !(call.Settle? && call.key in r.membersOf(team)) ==> NoneConcern(r, Program(r, s, call), team)
  {
    if call.Settle? {
      SettleConcerns(r, s, call.key, call.usage, team);
    } else {
      if call.ClearKey? {
        ClearConcerns(r, call.key, call.refund, team);
      } else if call.ResetTeam? {
        ResetConcerns(r, s, call.team, team);
      } else {
        RecomputeConcerns(r, s, call.team, team);
      }
      NoneConcernNoneSet(r, Program(r, s, call), team);
    }
  }

  lemma {:induction false} AddOpsScope(scope: Scope, amount: Kind -> int, n: nat)
    requires n <= |KINDS|
    ensures forall op :: op in AddOps(scope, amount, n) ==> op.Mark? || (op.Bump? && op.cell.scope == scope)
  {
    if n > 0 { AddOpsScope(scope, amount, n - 1); }
  }

  lemma TailConcerns(r: Roster, m: Memory, ops: seq<Op>, team: string)
    requires ops != []
    ensures NoneSet(r, ops, team) ==> NoneSet(r, ops[1..] + Extras(m, ops[0]), team)
    ensures NoneConcern(r, ops, team) ==> NoneConcern(r, ops[1..] + Extras(m, ops[0]), team)
  {
    var rest, more := ops[1..], Extras(m, ops[0]);
    assert forall j :: 0 <= j < |rest| ==> (rest + more)[j] == ops[j + 1];
    assert forall j :: |rest| <= j < |rest + more| ==> (rest + more)[j] in more;
    assert !SetsOf(r, ops[0], team) && more != [] ==> RefundCell(ops[0]).scope != TeamScope(team);
  }

  lemma StartKeepsFamilyTurn(r: Roster, s: Accounts, call: Call, team: string)
    requires RosterOk(r) && InFamilyTurn(r, s, team) && TakesFamilyTurns(r, s, Start(call), team)
    ensures InFamilyTurn(r, Begin(r, s, call), team)
  {
    var e := Begin(r, s, call);
    if Interferes(r, call, team) {
      assert Alone(r, e, team, |s.tasks|);
    } else {
      ProgramConcerns(r, s, call, team);
      if Free(r, s, team) {
        assert Free(r, e, team);
      } else {
        var i :| 0 <= i < |s.tasks| && Alone(r, s, team, i);
        assert Alone(r, e, team, i);
      }
    }
  }

  lemma UpdateKeepsFamilyTurn(r: Roster, s: Accounts, i: nat, team: string)
    requires InFamilyTurn(r, s, team) && Runs(s, i)
    ensures InFamilyTurn(r, Perform(s, i), team)
  {
    TailConcerns(r, s.mem, s.tasks[i], team);
    if Free(r, s, team) {
      assert Free(r, Perform(s, i), team);
    } else {
      var a :| 0 <= a < |s.tasks| && Alone(r, s, team, a);
      assert Alone(r, Perform(s, i), team, a);
    }
  }

  lemma {:induction false} RunTakesTurns(r: Roster, steps: seq<Step>, team: string)
    requires RosterOk(r) && FamilyTurns(r, steps, team)
    ensures InFamilyTurn(r, Exec(r, steps), team)
    decreases |steps|
  {
    if steps == [] {
      assert Free(r, START, team);
    } else {
      var front, last := steps[..|steps| - 1], steps[|steps| - 1];
      RunTakesTurns(r, front, team);
      match last
      case Start(call) => StartKeepsFamilyTurn(r, Exec(r, front), call, team);
      case Advance(i) => if Runs(Exec(r, front), i) { UpdateKeepsFamilyTurn(r, Exec(r, front), i, team); }
      case _ => SameTasksSameTurn(r, Exec(r, front), Exec(r, steps), team);
    }
  }

  lemma SameTasksSameTurn(r: Roster, s: Accounts, e: Accounts, team: string)
    requires InFamilyTurn(r, s, team) && e.tasks == s.tasks
    ensures InFamilyTurn(r, e, team)
  {
    if !Free(r, s, team) {
      var i :| 0 <= i < |s.tasks| && Alone(r, s, team, i);
      assert Alone(r, e, team, i);
    } else {
      assert Free(r, e, team);
    }
  }

  // ----- updates made in turn are safe

  lemma DoomedOutside(r: Roster, s: Accounts, team: string, c: Cell)
    requires Free(r, s, team) && Family(r, team, c.scope)
    ensures !Doomed(s.tasks, c)
  {
    forall a | 0 <= a < |s.tasks| ensures !HasSet(s.tasks[a], c) {
      assert NoneSet(r, s.tasks[a], team);
    }
  }

  /** With one call alone on the family, a counter it adds to is not to be set. */
  lemma AloneAddsUnset(r: Roster, s: Accounts, team: string, i: nat, c: Cell)
    requires AllConsistent(s) && Runs(s, i) && Alone(r, s, team, i) && s.tasks[i][0].Bump? && s.tasks[i][0].cell == c
    requires Family(r, team, c.scope)
    ensures !Doomed(s.tasks, c)
  {
    assert Consistent(s.tasks[i]);
    forall a | 0 <= a < |s.tasks| ensures !HasSet(s.tasks[a], c) {
      if a != i { assert NoneConcern(r, s.tasks[a], team); }
    }
  }

  /** With one call alone on the family, sets of a counter agree. */
  lemma AloneSetsAgree(r: Roster, s: Accounts, team: string, i: nat, c: Cell)
    requires AllConsistent(s) && Runs(s, i) && Alone(r, s, team, i) && SetsCell(s.tasks[i][0], c)
             && Family(r, team, c.scope)
    ensures Left(s, i, c) == Base(s, c)
  {
    var x := SetValue(s.tasks[i][0]);
    var tasks := s.tasks[i := s.tasks[i][1..]];
    assert Consistent(s.tasks[i]);
    forall a, b | 0 <= a < |s.tasks| && 0 <= b < |s.tasks[a]| && SetsCell(s.tasks[a][b], c)
        ensures SetValue(s.tasks[a][b]) == x {
      if a != i { assert NoneConcern(r, s.tasks[a], team); }
    }
    SetByAllValue(s.tasks, c, Read(s.mem.book, c), x);
    assert HasSet(s.tasks[i], c) && Doomed(s.tasks, c);
    forall a, b | 0 <= a < |tasks| && 0 <= b < |tasks[a]| && SetsCell(tasks[a][b], c)
        ensures SetValue(tasks[a][b]) == x {
      assert tasks[a][b] == if a == i then s.tasks[i][b + 1] else s.tasks[a][b];
    }
    SetByAllValue(tasks, c, x, x);
  }

  /** With one call alone on the family, its refunded zeroings are not wiped by any call, and its
      other zeroings are not refunded by any. */
  lemma AloneRefunds(r: Roster, s: Accounts, team: string, i: nat, c: Cell)
    requires AllConsistent(s) && Runs(s, i) && Alone(r, s, team, i)
    requires s.tasks[i][0].Zero? && s.tasks[i][0].cell == c && Family(r, team, c.scope)
    ensures s.tasks[i][0].refund == Some(team) <==> Counted(s, c, team)
  {
    var op := s.tasks[i][0];
    assert Consistent(s.tasks[i]) && op in s.tasks[i];
    forall a | 0 <= a < |s.tasks| && a != i ensures forall b :: 0 <= b < |s.tasks[a]| ==> !Touches(s.tasks[a][b], c) {
      assert NoneConcern(r, s.tasks[a], team);
    }
    forall b | 0 <= b < |s.tasks[i]| ensures Wipes(s.tasks[i][b], c) ==> op.refund.None? {}
    forall b | 0 <= b < |s.tasks[i]| ensures s.tasks[i][b] == Zero(c, Some(team)) ==> op.refund == Some(team) {}
    assert forall b, x, y :: 0 <= b < |s.tasks[i]| && s.tasks[i][b] == Zero(x, y) ==> Zero(x, y) in s.tasks[i];
    assert forall a :: 0 <= a < |s.tasks| && Zero(c, Some(team)) in s.tasks[a] ==>
        exists b :: 0 <= b < |s.tasks[a]| && Touches(s.tasks[a][b], c);
  }

  predicate Touches(op: Op, c: Cell) { Wipes(op, c) || (op.Zero? && op.cell == c) }

  /** An update that does not set anything of the family while nothing is to be set, or is made by the
      call that is alone on it, or does not concern it. */
  predicate Proper(r: Roster, s: Accounts, i: nat, team: string)
    requires Runs(s, i)
  {
    Free(r, s, team) || Alone(r, s, team, i) || !Concerns(r, s.tasks[i][0], team)
  }

  lemma TurnIsProper(r: Roster, s: Accounts, i: nat, team: string)
    requires InFamilyTurn(r, s, team) && Runs(s, i)
    ensures Proper(r, s, i, team)
  {
    if !Free(r, s, team) {
      var a :| 0 <= a < |s.tasks| && Alone(r, s, team, a);
      if a != i { assert NoneConcern(r, s.tasks[i], team); }
    }
  }

  /** A refund of the team comes from a member. */
  predicate OwnRefund(r: Roster, op: Op, team: string) {
    op.Zero? && op.refund == Some(team) ==> op.cell.scope.KeyScope? && op.cell.scope.hash in r.membersOf(team)
  }

  ghost predicate OwnRefunds(r: Roster, s: Accounts, team: string) {
    forall i, j :: 0 <= i < |s.tasks| && 0 <= j < |s.tasks[i]| ==> OwnRefund(r, s.tasks[i][j], team)
  }

  /** A call that sets something of the family is alone on it. */
  lemma ProperIsAlone(r: Roster, s: Accounts, i: nat, team: string)
    requires Runs(s, i) && Proper(r, s, i, team) && SetsOf(r, s.tasks[i][0], team)
    ensures Alone(r, s, team, i)
  {
    assert !NoneSet(r, s.tasks[i], team);
  }

  lemma ProperAdds(r: Roster, s: Accounts, i: nat, team: string)
    requires AllConsistent(s) && Runs(s, i) && Proper(r, s, i, team)
    requires s.tasks[i][0].Bump? && Family(r, team, s.tasks[i][0].cell.scope)
    ensures !Doomed(s.tasks, s.tasks[i][0].cell) && !Counted(s, s.tasks[i][0].cell, team)
  {
    var c := s.tasks[i][0].cell;
    if Free(r, s, team) { DoomedOutside(r, s, team, c); } else { AloneAddsUnset(r, s, team, i, c); }
    DoomedWhen(s, c, team);
  }

  lemma ProperRefunds(r: Roster, s: Accounts, i: nat, team: string)
    requires AllConsistent(s) && Runs(s, i) && Proper(r, s, i, team) && OwnRefunds(r, s, team)
    requires s.tasks[i][0].Zero? && s.tasks[i][0].cell.scope.KeyScope?
    ensures var op := s.tasks[i][0];
            op.refund == Some(team) <==> OfMember(r, op.cell, team, op.cell.kind) && Counted(s, op.cell, team)
  {
    var op := s.tasks[i][0];
    assert OwnRefund(r, op, team);
    if OfMember(r, op.cell, team, op.cell.kind) {
      ProperIsAlone(r, s, i, team);
      AloneRefunds(r, s, team, i, op.cell);
    }
  }

  /** In turn, every single update keeps both the split and the balance of the team. */
  lemma UpdateInTurnIsSafe(r: Roster, s: Accounts, i: nat, team: string, kind: Kind)
    requires AllConsistent(s) && InFamilyTurn(r, s, team) && OwnRefunds(r, s, team) && Runs(s, i)
    ensures UpdateSplits(r, s, i, team) && UpdateBalances(r, s, i, team, kind)
  {
    TurnIsProper(r, s, i, team);
    var op := s.tasks[i][0];
    if op.Bump? && Family(r, team, op.cell.scope) { ProperAdds(r, s, i, team); }
    if op.Zero? && op.cell.scope.KeyScope? { ProperRefunds(r, s, i, team); }
    forall k: Kind | SetsCell(op, Cell(TeamScope(team), k))
        ensures Left(s, i, Cell(TeamScope(team), k)) == Base(s, Cell(TeamScope(team), k)) {
      ProperIsAlone(r, s, i, team);
      AloneSetsAgree(r, s, team, i, Cell(TeamScope(team), k));
    }
  }

  // ----- refunds come from members

  lemma ProgramRefundsOwn(r: Roster, s: Accounts, call: Call, team: string, j: nat)
    requires call.ClearKey? && call.refund == Some(team) ==> call.key in r.membersOf(team)
    requires j < |Program(r, s, call)|
    ensures OwnRefund(r, Program(r, s, call)[j], team)
  {
    var op := Program(r, s, call)[j];
    assert op in Program(r, s, call);
    match call
    case Settle(k, u) =>
      AddOpsZeroNothing(KeyScope(k), Amounts(u), |KINDS|);
      if r.teamOf(k).Some? { AddOpsZeroNothing(TeamScope(r.teamOf(k).value), Amounts(u), |KINDS|); }
    case ClearKey(k, refund) => ZeroOpsRefund(KeyScope(k), refund, |KINDS|);
    case ResetTeam(t) =>
      ZeroOpsRefund(TeamScope(t), None, |KINDS|);
      ClearEachRefund(r.membersOf(t));
    case Recompute(t) => PutOpsZeroNothing(TeamScope(t), RowSums(s.db, r.membersOf(t)), |KINDS|);
    case ClearAll =>
  }

  lemma StepKeepsOwnRefunds(r: Roster, s: Accounts, step: Step, team: string)
    requires OwnRefunds(r, s, team) && TakesFamilyTurns(r, s, step, team)
    ensures OwnRefunds(r, Apply(r, s, step), team)
  {
    var e := Apply(r, s, step);
    forall i, j | 0 <= i < |e.tasks| && 0 <= j < |e.tasks[i]| ensures OwnRefund(r, e.tasks[i][j], team) {
      if step.Start? && i == |s.tasks| {
        ProgramRefundsOwn(r, s, step.call, team, j);
      } else if step.Advance? && Runs(s, step.i) && i == step.i {
        var rest := s.tasks[i][1..];
        if j < |rest| { assert e.tasks[i][j] == s.tasks[i][j + 1]; }
      } else {
        assert e.tasks[i] == s.tasks[i];
      }
    }
  }

  // ----- calls started in turn

  /** While nothing concerns the family, its totals are what they hold. */
  lemma QuietTotals(r: Roster, s: Accounts, team: string, c: Cell)
    requires Quiet(r, s, team) && Family(r, team, c.scope)
    ensures Pending(s.tasks, c) == 0 && !Doomed(s.tasks, c) && Heading(s, c) == Read(s.mem.book, c)
  {
    forall i | 0 <= i < |s.tasks| ensures !AddsTo(s.tasks[i], c.scope) && NoneSet(r, s.tasks[i], team) {
      assert NoneConcern(r, s.tasks[i], team);
    }
    NoneAddedNonePending(s.tasks, c);
    DoomedOutside(r, s, team, c);
    SetByAllIs(s.tasks, c, Read(s.mem.book, c), 0);
  }

  /** Nor is anything to be refunded or wiped. */
  lemma QuietMember(r: Roster, s: Accounts, team: string, key: string, kind: Kind)
    requires Quiet(r, s, team) && key in r.membersOf(team)
    ensures var c := Cell(KeyScope(key), kind);
            !Refunds(s.tasks, c, team) && !Wiped(s.tasks, c) && ReturnOf(s, c, team) == 0
  {
    QuietTotals(r, s, team, Cell(KeyScope(key), kind));
    DoomedWhen(s, Cell(KeyScope(key), kind), team);
  }

  lemma {:induction false} QuietSums(r: Roster, s: Accounts, team: string, keys: seq<string>, kind: Kind)
    requires Quiet(r, s, team) && forall k :: k in keys ==> k in r.membersOf(team)
    ensures SumHeading(s, keys, kind) == SumKeys(s.mem.book, keys, kind)
    ensures SumPending(s, keys, kind) == 0 && Returns(s, keys, team, kind) == 0
    decreases |keys|
  {
    if keys != [] {
      assert keys[0] in keys;
      QuietTotals(r, s, team, Cell(KeyScope(keys[0]), kind));
      QuietMember(r, s, team, keys[0], kind);
      QuietSums(r, s, team, keys[1..], kind);
    }
  }

  lemma QuietPendingGap(r: Roster, s: Accounts, team: string, scope: Scope)
    requires Quiet(r, s, team) && Family(r, team, scope)
    ensures PendingGap(s, scope) == 0 && HeadingGap(s, scope) == Gap(s.mem.book, scope)
  {
    QuietTotals(r, s, team, Cell(scope, TotalCost));
    QuietTotals(r, s, team, Cell(scope, RegularInput));
    QuietTotals(r, s, team, Cell(scope, CachedInput));
    QuietTotals(r, s, team, Cell(scope, OutputCost));
  }

  lemma QuietReturnsGap(r: Roster, s: Accounts, team: string)
    requires Quiet(r, s, team)
    ensures ReturnsGap(s, r.membersOf(team), team) == 0
  {
    QuietSums(r, s, team, r.membersOf(team), TotalCost);
    QuietSums(r, s, team, r.membersOf(team), RegularInput);
    QuietSums(r, s, team, r.membersOf(team), CachedInput);
    QuietSums(r, s, team, r.membersOf(team), OutputCost);
  }

  lemma QuietReturn(r: Roster, s: Accounts, team: string, key: string, refund: Option<string>, kind: Kind)
    requires Inv(s) && Quiet(r, s, team) && key in r.membersOf(team)
    ensures ReturnOf(s, Cell(KeyScope(key), kind), team) == 0
    ensures ReturnAfter(r, s, ClearKey(key, refund), key, kind, team) ==
            if refund == Some(team) then Read(s.mem.book, Cell(KeyScope(key), kind)) else 0
  {
    assert KeyPositive(s, Cell(KeyScope(key), kind));
    QuietMember(r, s, team, key, kind);
  }

  lemma ClearInTurnSplits(r: Roster, s: Accounts, team: string, key: string, refund: Option<string>)
    requires Inv(s) && Quiet(r, s, team) && key in r.membersOf(team) && HeadingGap(s, KeyScope(key)) == 0
    ensures ReturnGapAfter(r, s, ClearKey(key, refund), key, team) == ReturnGap(s, key, team)
  {
    QuietPendingGap(r, s, team, KeyScope(key));
    QuietReturn(r, s, team, key, refund, TotalCost);
    QuietReturn(r, s, team, key, refund, RegularInput);
    QuietReturn(r, s, team, key, refund, CachedInput);
    QuietReturn(r, s, team, key, refund, OutputCost);
  }

  /** The rows a recomputation of the team reads have totals that are the sums of their parts. */
  predicate ReadsSplitRows(r: Roster, s: Accounts, step: Step, team: string) {
    step == Start(Recompute(team)) ==> RowGap(s.db, r.membersOf(team)) == 0
  }

  lemma StartInTurnSplitsIff(r: Roster, s: Accounts, call: Call, team: string)
    requires Inv(s) && TakesFamilyTurns(r, s, Start(call), team)
    requires forall k :: k in r.membersOf(team) ==> HeadingGap(s, KeyScope(k)) == 0
    ensures StartSplits(r, s, call, team) <==> ReadsSplitRows(r, s, Start(call), team)
  {
    if Interferes(r, call, team) {
      QuietPendingGap(r, s, team, TeamScope(team));
      QuietReturnsGap(r, s, team);
      if call.ClearKey? && call.key in r.membersOf(team) { ClearInTurnSplits(r, s, team, call.key, call.refund); }
    }
  }

  /** A member is cleared with a refund from its team, or holds nothing; a recomputation of the team
      reads rows that add up to what the members hold. */
  predicate KeepsSum(r: Roster, s: Accounts, step: Step, team: string, kind: Kind) {
    && (step.Start? && step.call.ClearKey? && step.call.key in r.membersOf(team) ==>
          step.call.refund == Some(team) || Read(s.mem.book, Cell(KeyScope(step.call.key), kind)) == 0)
    && (step == Start(Recompute(team)) ==>
          SumRows(s.db, r.membersOf(team), kind) == SumKeys(s.mem.book, r.membersOf(team), kind))
  }

  lemma StartInTurnBalancesIff(r: Roster, s: Accounts, call: Call, team: string, kind: Kind)
    requires Inv(s) && TakesFamilyTurns(r, s, Start(call), team)
    ensures StartBalances(r, s, call, team, kind) <==> KeepsSum(r, s, Start(call), team, kind)
  {
    if Interferes(r, call, team) {
      QuietTotals(r, s, team, Cell(TeamScope(team), kind));
      QuietSums(r, s, team, r.membersOf(team), kind);
      if call.ClearKey? && call.key in r.membersOf(team) {
        QuietTotals(r, s, team, Cell(KeyScope(call.key), kind));
        QuietReturn(r, s, team, call.key, call.refund, kind);
      }
    }
  }

  // ----- whole runs

  /** The members of a team that takes turns take turns. */
  lemma TurnsOfMember(r: Roster, s: Accounts, step: Step, team: string, key: string)
    requires RosterOk(r) && TakesFamilyTurns(r, s, step, team) && key in r.membersOf(team)
    ensures TakesTurns(r, s, step, key)
  {
    if step.Start? {
      if Resets(r, step.call, KeyScope(key)) {
        ResetInterferes(r, step.call, team, key);
        QuietNotCharging(r, s, team, key);
      }
      if step.call.Settle? && step.call.key == key {
        forall kind: Kind ensures !Doomed(s.tasks, Cell(KeyScope(key), kind)) {
          DoomedOutside(r, s, team, Cell(KeyScope(key), kind));
        }
      }
    }
  }

  lemma ResetInterferes(r: Roster, call: Call, team: string, key: string)
    requires RosterOk(r) && key in r.membersOf(team) && Resets(r, call, KeyScope(key))
    ensures Interferes(r, call, team)
  {
    assert r.teamOf(key) == Some(team);
    if call.ResetTeam? { assert r.teamOf(key) == Some(call.team); }
  }

  lemma QuietNotCharging(r: Roster, s: Accounts, team: string, key: string)
    requires Quiet(r, s, team) && key in r.membersOf(team)
    ensures !Charging(s, KeyScope(key))
  {
    forall i | 0 <= i < |s.tasks| ensures !AddsTo(s.tasks[i], KeyScope(key)) {
      assert NoneConcern(r, s.tasks[i], team);
    }
  }

  lemma {:induction false} FamilyTurnsAreTurns(r: Roster, steps: seq<Step>, team: string, key: string)
    requires RosterOk(r) && FamilyTurns(r, steps, team) && key in r.membersOf(team)
    ensures TurnsRun(r, steps, key)
    decreases |steps|
  {
    if steps != [] {
      FamilyTurnsAreTurns(r, steps[..|steps| - 1], team, key);
      TurnsOfMember(r, Exec(r, steps[..|steps| - 1]), steps[|steps| - 1], team, key);
    }
  }

  lemma MembersSplit(r: Roster, steps: seq<Step>, team: string, key: string)
    requires RosterOk(r) && FamilyTurns(r, steps, team) && key in r.membersOf(team)
    ensures HeadingGap(Exec(r, steps), KeyScope(key)) == 0
  {
    FamilyTurnsAreTurns(r, steps, team, key);
    TurnsAreSafe(r, steps, key);
    KeySplitsThroughoutIff(r, steps, key);
  }

  lemma {:induction false} RunRefundsOwn(r: Roster, steps: seq<Step>, team: string)
    requires FamilyTurns(r, steps, team)
    ensures OwnRefunds(r, Exec(r, steps), team)
    decreases |steps|
  {
    if steps != [] {
      RunRefundsOwn(r, steps[..|steps| - 1], team);
      StepKeepsOwnRefunds(r, Exec(r, steps[..|steps| - 1]), steps[|steps| - 1], team);
    }
  }

  /** In a run that takes turns, the next step is safe exactly when what it reads at its start is. */
  lemma StepInTurnIff(r: Roster, front: seq<Step>, step: Step, team: string, kind: Kind)
    requires RosterOk(r) && FamilyTurns(r, front, team) && TakesFamilyTurns(r, Exec(r, front), step, team)
    ensures TeamSafe(r, Exec(r, front), step, team) <==> ReadsSplitRows(r, Exec(r, front), step, team)
    ensures BalanceSafe(r, Exec(r, front), step, team, kind) <==> KeepsSum(r, Exec(r, front), step, team, kind)
  {
    var s := Exec(r, front);
    RunKeepsInv(r, front);
    if step.Start? {
      forall k | k in r.membersOf(team) ensures HeadingGap(s, KeyScope(k)) == 0 { MembersSplit(r, front, team, k); }
      StartInTurnSplitsIff(r, s, step.call, team);
      StartInTurnBalancesIff(r, s, step.call, team, kind);
    } else if step.Advance? && Runs(s, step.i) {
      RunIsConsistent(r, front);
      RunTakesTurns(r, front, team);
      RunRefundsOwn(r, front, team);
      UpdateInTurnIsSafe(r, s, step.i, team, kind);
    }
  }

  ghost predicate AllReadSplitRows(r: Roster, steps: seq<Step>, team: string) {
    steps != [] ==>
      AllReadSplitRows(r, steps[..|steps| - 1], team) &&
      ReadsSplitRows(r, Exec(r, steps[..|steps| - 1]), steps[|steps| - 1], team)
  }

  ghost predicate AllKeepSum(r: Roster, steps: seq<Step>, team: string, kind: Kind) {
    steps != [] ==>
      AllKeepSum(r, steps[..|steps| - 1], team, kind) &&
      KeepsSum(r, Exec(r, steps[..|steps| - 1]), steps[|steps| - 1], team, kind)
  }

  /** A team that takes turns splits throughout if and only if every recomputation of it reads rows
      that split. */
  lemma {:induction false} TeamSplitsInTurnIff(r: Roster, steps: seq<Step>, team: string)
    requires RosterOk(r) && FamilyTurns(r, steps, team)
    ensures TeamSplitsThroughout(r, steps, team) <==> AllReadSplitRows(r, steps, team)
    decreases |steps|
  {
    TeamSplitsThroughoutIff(r, steps, team);
    if steps != [] {
      var front := steps[..|steps| - 1];
      TeamSplitsInTurnIff(r, front, team);
      TeamSplitsThroughoutIff(r, front, team);
      StepInTurnIff(r, front, steps[|steps| - 1], team, TotalCost);
    }
  }

  /** And it is the sum of its members throughout if and only if members are cleared with their team
      given or empty, and every recomputation reads rows that add up to what the members hold. */
  lemma {:induction false} TeamIsSumInTurnIff(r: Roster, steps: seq<Step>, team: string, kind: Kind)
    requires RosterOk(r) && FamilyTurns(r, steps, team)
    ensures BalancedThroughout(r, steps, team, kind) <==> AllKeepSum(r, steps, team, kind)
    decreases |steps|
  {
    TeamIsSumThroughoutIff(r, steps, team, kind);
    if steps != [] {
      var front := steps[..|steps| - 1];
      TeamIsSumInTurnIff(r, front, team, kind);
      TeamIsSumThroughoutIff(r, front, team, kind);
      StepInTurnIff(r, front, steps[|steps| - 1], team, kind);
    }
  }

  /** So, taking turns, once no call is under way, the team's total cost is the sum of its parts and
      every total of the team the sum of its members'. */
  lemma TeamHoldsInTurn(r: Roster, steps: seq<Step>, team: string, kind: Kind)
    requires RosterOk(r) && FamilyTurns(r, steps, team) && Idle(Exec(r, steps))
    ensures AllReadSplitRows(r, steps, team) ==> Gap(Exec(r, steps).mem.book, TeamScope(team)) == 0
    ensures AllKeepSum(r, steps, team, kind) ==>
              Read(Exec(r, steps).mem.book, Cell(TeamScope(team), kind)) ==
                  SumKeys(Exec(r, steps).mem.book, r.membersOf(team), kind)
  {
    TeamSplitsInTurnIff(r, steps, team);
    TeamIsSumInTurnIff(r, steps, team, kind);
    IdleGap(r, Exec(r, steps), TeamScope(team));
    IdleExcess(r, Exec(r, steps), team, kind);
  }

  // ----- recomputations that wait for the sync

  /** No row of a member is waiting to be written. */
  ghost predicate UntrackedMembers(r: Roster, s: Accounts, team: string) {
    forall k, kind: Kind :: k in r.membersOf(team) ==> !LedgerCoherence.Tracked(s, Cell(KeyScope(k), kind))
  }

  /** Recomputations of the team come when no row of a member is waiting, and clears of a member
      name the team. */
  ghost predicate Patient(r: Roster, s: Accounts, step: Step, team: string) {
    && (step == Start(Recompute(team)) ==> UntrackedMembers(r, s, team))
    && (step.Start? && step.call.ClearKey? && step.call.key in r.membersOf(team) ==> step.call.refund == Some(team))
  }

  ghost predicate PatientRun(r: Roster, steps: seq<Step>, team: string) {
    steps != [] ==>
      PatientRun(r, steps[..|steps| - 1], team) && Patient(r, Exec(r, steps[..|steps| - 1]), steps[|steps| - 1], team)
  }

  lemma {:induction false} RowsUpToDate(s: Accounts, keys: seq<string>, kind: Kind)
    requires forall c :: KeyPositive(s, c)
    requires forall k :: k in keys ==> Read(s.db, Cell(KeyScope(k), kind)) == Read(s.mem.book, Cell(KeyScope(k), kind))
    ensures SumRows(s.db, keys, kind) == SumKeys(s.mem.book, keys, kind)
  {
    if keys != [] {
      assert keys[0] in keys && KeyPositive(s, Cell(KeyScope(keys[0]), kind));
      RowsUpToDate(s, keys[1..], kind);
    }
  }

  lemma {:induction false} SumsSplit(b: Book, keys: seq<string>)
    requires forall k :: k in keys ==> Gap(b, KeyScope(k)) == 0
    ensures SumKeys(b, keys, TotalCost) ==
            SumKeys(b, keys, RegularInput) + SumKeys(b, keys, CachedInput) + SumKeys(b, keys, OutputCost)
  {
    if keys != [] {
      assert keys[0] in keys;
      SumsSplit(b, keys[1..]);
    }
  }

  /** In a coherent state such a recomputation reads what the members hold, split into its parts. */
  lemma PatientReads(r: Roster, s: Accounts, team: string, kind: Kind)
    requires Inv(s) && Quiet(r, s, team) && LedgerCoherence.Coherent(s) && UntrackedMembers(r, s, team)
    requires forall k :: k in r.membersOf(team) ==> HeadingGap(s, KeyScope(k)) == 0
    ensures RowGap(s.db, r.membersOf(team)) == 0
    ensures SumRows(s.db, r.membersOf(team), kind) == SumKeys(s.mem.book, r.membersOf(team), kind)
  {
    var keys := r.membersOf(team);
    forall k, x: Kind | k in keys ensures Read(s.db, Cell(KeyScope(k), x)) == Read(s.mem.book, Cell(KeyScope(k), x)) {
      assert LedgerCoherence.CoherentAt(s, Cell(KeyScope(k), x));
    }
    forall x: Kind ensures SumRows(s.db, keys, x) == SumKeys(s.mem.book, keys, x) { RowsUpToDate(s, keys, x); }
    forall k | k in keys ensures Gap(s.mem.book, KeyScope(k)) == 0 { QuietPendingGap(r, s, team, KeyScope(k)); }
    SumsSplit(s.mem.book, keys);
  }

  lemma {:induction false} PatientRunsKeep(r: Roster, steps: seq<Step>, team: string, kind: Kind)
    requires RosterOk(r) && FamilyTurns(r, steps, team) && LedgerCoherence.LosesNothing(r, steps)
             && PatientRun(r, steps, team)
    ensures AllReadSplitRows(r, steps, team) && AllKeepSum(r, steps, team, kind)
    decreases |steps|
  {
    if steps != [] {
      var front := steps[..|steps| - 1];
      PatientRunsKeep(r, front, team, kind);
      if steps[|steps| - 1] == Start(Recompute(team)) {
        LedgerCoherence.WriteBackCoherenceIff(r, front);
        RunKeepsInv(r, front);
        forall k | k in r.membersOf(team)
            ensures HeadingGap(Exec(r, front), KeyScope(k)) == 0 { MembersSplit(r, front, team, k); }
        PatientReads(r, Exec(r, front), team, kind);
      }
    }
  }

  /** Taking turns, losing nothing, recomputing only what the sync has written and clearing members
      only with their team given, a team is at rest the sum of its members and split into parts. */
  lemma TeamHoldsInPatientRuns(r: Roster, steps: seq<Step>, team: string, kind: Kind)
    requires RosterOk(r) && FamilyTurns(r, steps, team) && LedgerCoherence.LosesNothing(r, steps)
             && PatientRun(r, steps, team)
    requires Idle(Exec(r, steps))
    ensures var book := Exec(r, steps).mem.book;
            Gap(book, TeamScope(team)) == 0
                && Read(book, Cell(TeamScope(team), kind)) == SumKeys(book, r.membersOf(team), kind)
  {
    PatientRunsKeep(r, steps, team, kind);
    TeamHoldsInTurn(r, steps, team, kind);
  }

  // ----- calls one at a time

  predicate OwnClear(r: Roster, step: Step, team: string) {
    step.Start? && step.call.ClearKey? && step.call.refund == Some(team) ==> step.call.key in r.membersOf(team)
  }

  /** Refunds of this team are only asked for its members. */
  predicate RefundsOwn(r: Roster, steps: seq<Step>, team: string) {
    forall i :: 0 <= i < |steps| ==> OwnClear(r, steps[i], team)
  }

  lemma {:induction false} SerialTakesFamilyTurns(r: Roster, steps: seq<Step>, team: string)
    requires Serial(r, steps) && RefundsOwn(r, steps, team)
    ensures FamilyTurns(r, steps, team)
    decreases |steps|
  {
    if steps != [] {
      SerialTakesFamilyTurns(r, steps[..|steps| - 1], team);
      assert OwnClear(r, steps[|steps| - 1], team);
    }
  }

  /** Calls one at a time take turns, so both conditions are exact for them too. */
  lemma SerialTeamsIff(r: Roster, steps: seq<Step>, team: string, kind: Kind)
    requires RosterOk(r) && Serial(r, steps) && RefundsOwn(r, steps, team)
    ensures TeamSplitsThroughout(r, steps, team) <==> AllReadSplitRows(r, steps, team)
    ensures BalancedThroughout(r, steps, team, kind) <==> AllKeepSum(r, steps, team, kind)
  {
    SerialTakesFamilyTurns(r, steps, team);
    TeamSplitsInTurnIff(r, steps, team);
    TeamIsSumInTurnIff(r, steps, team, kind);
  }
}
