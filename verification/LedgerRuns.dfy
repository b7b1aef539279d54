/**
 Total cost and its parts: for any interleaving of single updates, the exact condition under
 which a step keeps a key or a team headed for a total cost that is the sum of its parts.
 Once no call is under way, that is what it holds.
 */
module LedgerRuns {

  import opened Wrappers
  import opened Ledger
  import opened LedgerSteps
  import opened LedgerLaws
  import opened LedgerForecast
  import opened LedgerReturns

  predicate IsCost(kind: Kind) { !kind.InputTokens? && !kind.OutputTokens? }

  /** Total cost minus its three parts. */
  function Gap(b: Book, s: Scope): int {
    Read(b, Cell(s, TotalCost)) - Read(b, Cell(s, RegularInput))
    - Read(b, Cell(s, CachedInput)) - Read(b, Cell(s, OutputCost))
  }

  function PendingGap(s: Accounts, scope: Scope): int {
    Pending(s.tasks, Cell(scope, TotalCost)) - Pending(s.tasks, Cell(scope, RegularInput))
    - Pending(s.tasks, Cell(scope, CachedInput)) - Pending(s.tasks, Cell(scope, OutputCost))
  }

  function HeadingGap(s: Accounts, scope: Scope): int {
    Heading(s, Cell(scope, TotalCost)) - Heading(s, Cell(scope, RegularInput))
    - Heading(s, Cell(scope, CachedInput)) - Heading(s, Cell(scope, OutputCost))
  }

  function TeamGap(r: Roster, s: Accounts, team: string): int {
    TeamHeading(r, s, team, TotalCost) - TeamHeading(r, s, team, RegularInput)
    - TeamHeading(r, s, team, CachedInput) - TeamHeading(r, s, team, OutputCost)
  }

  lemma IdleGap(r: Roster, s: Accounts, scope: Scope)
    requires Idle(s)
    ensures HeadingGap(s, scope) == Gap(s.mem.book, scope)
    ensures scope.TeamScope? ==> TeamGap(r, s, scope.team) == Gap(s.mem.book, scope)
  {
    IdleHeading(s, Cell(scope, TotalCost));
    IdleHeading(s, Cell(scope, RegularInput));
    IdleHeading(s, Cell(scope, CachedInput));
    IdleHeading(s, Cell(scope, OutputCost));
    if scope.TeamScope? {
      var keys := r.membersOf(scope.team);
      IdleReturns(s, keys, scope.team, TotalCost);
      IdleReturns(s, keys, scope.team, RegularInput);
      IdleReturns(s, keys, scope.team, CachedInput);
      IdleReturns(s, keys, scope.team, OutputCost);
    }
  }

  // ----- keys

  /** A step keeps the key's costs together: a reset of the key starts while none of its settlements
      is half done, and no cost is added to a counter that a reset under way has still to zero. */
  predicate KeySafe(r: Roster, s: Accounts, step: Step, key: string) {
    match step
    case Start(call) => Resets(r, call, KeyScope(key)) ==> PendingGap(s, KeyScope(key)) == 0
    case Advance(i) =>
      Runs(s, i) && s.tasks[i][0].Bump? && s.tasks[i][0].cell.scope == KeyScope(key)
          && IsCost(s.tasks[i][0].cell.kind) ==>
        !Doomed(s.tasks, s.tasks[i][0].cell)
    case _ => true
  }

  lemma StartKeyGap(r: Roster, s: Accounts, call: Call, key: string)
    ensures HeadingGap(Begin(r, s, call), KeyScope(key)) ==
            if Resets(r, call, KeyScope(key)) then PendingGap(s, KeyScope(key)) else HeadingGap(s, KeyScope(key))
  {
    var k := KeyScope(key);
    StartHeading(r, s, call, Cell(k, TotalCost));
    StartHeading(r, s, call, Cell(k, RegularInput));
    StartHeading(r, s, call, Cell(k, CachedInput));
    StartHeading(r, s, call, Cell(k, OutputCost));
  }

  lemma PerformKeyGap(s: Accounts, i: nat, key: string)
    requires Inv(s) && Runs(s, i)
    ensures var op, k := s.tasks[i][0], KeyScope(key);
            HeadingGap(Perform(s, i), k) == HeadingGap(s, k) +
            if op.Bump? && op.cell.scope == k && IsCost(op.cell.kind) && Doomed(s.tasks, op.cell)
            then (if op.cell.kind.TotalCost? then 0 - op.delta else op.delta) else 0
  {
    var k := KeyScope(key);
    forall kind: Kind ensures Heading(Perform(s, i), Cell(k, kind)) ==
        Heading(s, Cell(k, kind)) + Shift(s, i, Cell(k, kind)) {
      PerformHeading(s, i, Cell(k, kind));
    }
    KeyShift(s, i, Cell(k, TotalCost));
    KeyShift(s, i, Cell(k, RegularInput));
    KeyShift(s, i, Cell(k, CachedInput));
    KeyShift(s, i, Cell(k, OutputCost));
  }

  lemma KeyStepIff(r: Roster, s: Accounts, step: Step, key: string)
    requires Inv(s) && HeadingGap(s, KeyScope(key)) == 0
    ensures HeadingGap(Apply(r, s, step), KeyScope(key)) == 0 <==> KeySafe(r, s, step, key)
  {
    match step
    case Start(call) => StartKeyGap(r, s, call, key);
    case Advance(i) =>
      if Runs(s, i) {
        assert SoundOp(s.tasks[i][0]);
        PerformKeyGap(s, i, key);
      }
    case _ =>
  }

  ghost predicate KeySplitsThroughout(r: Roster, steps: seq<Step>, key: string) {
    (steps != [] ==> KeySplitsThroughout(r, steps[..|steps| - 1], key))
        && HeadingGap(Exec(r, steps), KeyScope(key)) == 0
  }

  ghost predicate AllKeySafe(r: Roster, steps: seq<Step>, key: string) {
    steps != [] ==>
      AllKeySafe(r, steps[..|steps| - 1], key) &&
      KeySafe(r, Exec(r, steps[..|steps| - 1]), steps[|steps| - 1], key)
  }

  /** However everything interleaves, a key is headed for a total cost that is the sum of its parts
      throughout a run if and only if every step is safe for it. */
  lemma {:induction false} KeySplitsThroughoutIff(r: Roster, steps: seq<Step>, key: string)
    ensures KeySplitsThroughout(r, steps, key) <==> AllKeySafe(r, steps, key)
    decreases |steps|
  {
    if steps == [] {
      IdleGap(r, START, KeyScope(key));
    } else {
      var front := steps[..|steps| - 1];
      KeySplitsThroughoutIff(r, front, key);
      RunKeepsInv(r, front);
      if KeySplitsThroughout(r, front, key) {
        KeyStepIff(r, Exec(r, front), steps[|steps| - 1], key);
      }
    }
  }

  /** So after a run of safe steps, once no call is under way, the key's total is that sum. */
  lemma KeyTotalIsSumOfParts(r: Roster, steps: seq<Step>, key: string)
    requires AllKeySafe(r, steps, key) && Idle(Exec(r, steps))
    ensures Gap(Exec(r, steps).mem.book, KeyScope(key)) == 0
  {
    KeySplitsThroughoutIff(r, steps, key);
    IdleGap(r, Exec(r, steps), KeyScope(key));
  }

  // ----- keys whose resets and settlements take turns

  predicate AddsTo(ops: seq<Op>, scope: Scope) {
    exists i :: 0 <= i < |ops| && ops[i].Bump? && ops[i].cell.scope == scope
  }

  /** A settlement of this scope is under way. */
  predicate Charging(s: Accounts, scope: Scope) { exists i :: 0 <= i < |s.tasks| && AddsTo(s.tasks[i], scope) }

  /** A reset of this scope is under way. */
  ghost predicate Resetting(s: Accounts, scope: Scope) { exists kind: Kind :: Doomed(s.tasks, Cell(scope, kind)) }

  /** Settlements and resets of the key do not start while the other kind is under way. */
  predicate TakesTurns(r: Roster, s: Accounts, step: Step, key: string) {
    match step
    case Start(call) =>
      && (Resets(r, call, KeyScope(key)) ==> !Charging(s, KeyScope(key)))
      && (call.Settle? && call.key == key ==> forall kind: Kind :: !Doomed(s.tasks, Cell(KeyScope(key), kind)))
    case _ => true
  }

  ghost predicate TurnsRun(r: Roster, steps: seq<Step>, key: string) {
    steps != [] ==>
      TurnsRun(r, steps[..|steps| - 1], key) && TakesTurns(r, Exec(r, steps[..|steps| - 1]), steps[|steps| - 1], key)
  }

  ghost predicate InTurn(s: Accounts, key: string) { !(Charging(s, KeyScope(key)) && Resetting(s, KeyScope(key))) }

  lemma {:induction false} NoneAddedNonePending(tasks: seq<seq<Op>>, c: Cell)
    requires forall i :: 0 <= i < |tasks| ==> !AddsTo(tasks[i], c.scope)
    ensures Pending(tasks, c) == 0
    decreases |tasks|
  {
    if tasks != [] {
      NoneAddedNoDeltas(tasks[0], c);
      NoneAddedNonePending(tasks[1..], c);
    }
  }

  lemma {:induction false} NoneAddedNoDeltas(ops: seq<Op>, c: Cell)
    requires !AddsTo(ops, c.scope)
    ensures Deltas(ops, c) == 0
    decreases |ops|
  {
    if ops != [] {
      AddsToTail(ops, c.scope);
      NoneAddedNoDeltas(ops[1..], c);
    }
  }

  lemma AddsToTail(ops: seq<Op>, scope: Scope)
    requires ops != []
    ensures AddsTo(ops[1..], scope) ==> AddsTo(ops, scope)
    ensures ops[0].Bump? && ops[0].cell.scope == scope ==> AddsTo(ops, scope)
  {
    if AddsTo(ops[1..], scope) {
      var j :| 0 <= j < |ops[1..]| && ops[1..][j].Bump? && ops[1..][j].cell.scope == scope;
      assert ops[j + 1].Bump? && ops[j + 1].cell.scope == scope;
    }
  }

  lemma ChargingTail(s: Accounts, i: nat, key: string)
    requires Runs(s, i)
    ensures Charging(Perform(s, i), KeyScope(key)) ==> Charging(s, KeyScope(key))
  {
    var e := Perform(s, i);
    if Charging(e, KeyScope(key)) {
      var a :| 0 <= a < |e.tasks| && AddsTo(e.tasks[a], KeyScope(key));
      var b :| 0 <= b < |e.tasks[a]| && e.tasks[a][b].Bump? && e.tasks[a][b].cell.scope == KeyScope(key);
      if a == i {
        assert b < |s.tasks[i][1..]|;
        assert s.tasks[i][b + 1] == e.tasks[a][b];
      } else {
        assert s.tasks[a][b] == e.tasks[a][b];
      }
      assert AddsTo(s.tasks[a], KeyScope(key));
    }
  }

  lemma DoomedTail(s: Accounts, i: nat, c: Cell)
    requires Runs(s, i)
    ensures Doomed(Perform(s, i).tasks, c) ==> Doomed(s.tasks, c)
  {
    var e := Perform(s, i);
    if Doomed(e.tasks, c) {
      var a :| 0 <= a < |e.tasks| && HasSet(e.tasks[a], c);
      if a == i {
        ExtrasSetNothing(s.mem, s.tasks[i][0], c);
        HasSetAppend(s.tasks[i][1..], Extras(s.mem, s.tasks[i][0]), c);
        HasSetCons(s.tasks[i], c);
      }
      assert HasSet(s.tasks[a], c);
    }
  }

  lemma ChargingSnoc(r: Roster, s: Accounts, call: Call, key: string)
    ensures Charging(Begin(r, s, call), KeyScope(key)) ==>
            Charging(s, KeyScope(key)) || (call.Settle? && call.key == key)
  {
    var e := Begin(r, s, call);
    if Charging(e, KeyScope(key)) {
      var a :| 0 <= a < |e.tasks| && AddsTo(e.tasks[a], KeyScope(key));
      if a < |s.tasks| { assert AddsTo(s.tasks[a], KeyScope(key)); } else { ProgramAddsTo(r, s, call, key); }
    }
  }

  lemma DoomedSnoc(r: Roster, s: Accounts, call: Call, c: Cell)
    requires c.scope.KeyScope?
    ensures Doomed(Begin(r, s, call).tasks, c) ==> Doomed(s.tasks, c) || Resets(r, call, c.scope)
  {
    var e := Begin(r, s, call);
    if Doomed(e.tasks, c) {
      var a :| 0 <= a < |e.tasks| && HasSet(e.tasks[a], c);
      ProgramSets(r, s, call, c, 0);
      if a < |s.tasks| { assert HasSet(s.tasks[a], c); }
    }
  }

  lemma {:induction false} AddOpsAddTo(scope: Scope, amount: Kind -> int, n: nat, other: Scope)
    requires n <= |KINDS| && AddsTo(AddOps(scope, amount, n), other)
    ensures other == scope
  {
    if n > 0 {
      var ops, front := AddOps(scope, amount, n), AddOps(scope, amount, n - 1);
      var j :| 0 <= j < |ops| && ops[j].Bump? && ops[j].cell.scope == other;
      if j < |front| {
        assert front[j] == ops[j];
        AddOpsAddTo(scope, amount, n - 1, other);
      }
    }
  }

  lemma ProgramAddsTo(r: Roster, s: Accounts, call: Call, key: string)
    requires AddsTo(Program(r, s, call), KeyScope(key))
    ensures call.Settle? && call.key == key
  {
    var ops := Program(r, s, call);
    var j :| 0 <= j < |ops| && ops[j].Bump? && ops[j].cell.scope == KeyScope(key);
    if !call.Settle? {
      OnlySettlementsAdd(r, s, call);
    } else {
      var k := AddOps(KeyScope(call.key), Amounts(call.usage), |KINDS|);
      if j < |k| {
        assert k[j] == ops[j];
        AddOpsAddTo(KeyScope(call.key), Amounts(call.usage), |KINDS|, KeyScope(key));
      } else {
        var t := r.teamOf(call.key).value;
        var more := AddOps(TeamScope(t), Amounts(call.usage), |KINDS|);
        assert more[j - |k|] == ops[j];
        AddOpsAddTo(TeamScope(t), Amounts(call.usage), |KINDS|, KeyScope(key));
      }
    }
  }

  lemma StartKeepsTurn(r: Roster, s: Accounts, call: Call, key: string)
    requires InTurn(s, key) && TakesTurns(r, s, Start(call), key)
    ensures InTurn(Begin(r, s, call), key)
  {
    ChargingSnoc(r, s, call, key);
    forall kind: Kind ensures Doomed(Begin(r, s, call).tasks, Cell(KeyScope(key), kind)) ==>
                              Doomed(s.tasks, Cell(KeyScope(key), kind)) || Resets(r, call, KeyScope(key))
    {
      DoomedSnoc(r, s, call, Cell(KeyScope(key), kind));
    }
  }

  lemma StepKeepsTurn(r: Roster, s: Accounts, step: Step, key: string)
    requires InTurn(s, key) && TakesTurns(r, s, step, key)
    ensures InTurn(Apply(r, s, step), key)
  {
    match step
    case Start(call) => StartKeepsTurn(r, s, call, key);
    case Advance(i) =>
      if Runs(s, i) {
        ChargingTail(s, i, key);
        forall kind: Kind ensures Doomed(Perform(s, i).tasks, Cell(KeyScope(key), kind)) ==>
            Doomed(s.tasks, Cell(KeyScope(key), kind)) {
          DoomedTail(s, i, Cell(KeyScope(key), kind));
        }
      }
    case _ =>
  }

  lemma TurnIsSafe(r: Roster, s: Accounts, step: Step, key: string)
    requires InTurn(s, key) && TakesTurns(r, s, step, key)
    ensures KeySafe(r, s, step, key)
  {
    match step
    case Start(call) =>
      if Resets(r, call, KeyScope(key)) {
        NoneAddedNonePending(s.tasks, Cell(KeyScope(key), TotalCost));
        NoneAddedNonePending(s.tasks, Cell(KeyScope(key), RegularInput));
        NoneAddedNonePending(s.tasks, Cell(KeyScope(key), CachedInput));
        NoneAddedNonePending(s.tasks, Cell(KeyScope(key), OutputCost));
      }
    case Advance(i) =>
      if Runs(s, i) && s.tasks[i][0].Bump? && s.tasks[i][0].cell.scope == KeyScope(key) {
        assert AddsTo(s.tasks[i], KeyScope(key));
        var c := s.tasks[i][0].cell;
        assert c == Cell(KeyScope(key), c.kind);
      }
    case _ =>
  }

  lemma {:induction false} TurnsAreSafe(r: Roster, steps: seq<Step>, key: string)
    requires TurnsRun(r, steps, key)
    ensures InTurn(Exec(r, steps), key) && AllKeySafe(r, steps, key)
    decreases |steps|
  {
    if steps != [] {
      var front := steps[..|steps| - 1];
      TurnsAreSafe(r, front, key);
      TurnIsSafe(r, Exec(r, front), steps[|steps| - 1], key);
      StepKeepsTurn(r, Exec(r, front), steps[|steps| - 1], key);
    }
  }

  /** If settlements and resets of a key never start while the other kind is under way, the key's
      total cost is the sum of its parts whenever no call is under way, whatever other keys, teams,
      recomputations and the sync do in between. */
  lemma KeySplitsWhenTakingTurns(r: Roster, steps: seq<Step>, key: string)
    requires TurnsRun(r, steps, key) && Idle(Exec(r, steps))
    ensures Gap(Exec(r, steps).mem.book, KeyScope(key)) == 0
  {
    TurnsAreSafe(r, steps, key);
    KeyTotalIsSumOfParts(r, steps, key);
  }

  /** Calls one at a time, the sync still row by row. */
  ghost predicate Serial(r: Roster, steps: seq<Step>) {
    steps != [] ==>
      Serial(r, steps[..|steps| - 1]) && (steps[|steps| - 1].Start? ==> Idle(Exec(r, steps[..|steps| - 1])))
  }

  lemma {:induction false} SerialTakesTurns(r: Roster, steps: seq<Step>, key: string)
    requires Serial(r, steps)
    ensures TurnsRun(r, steps, key)
    decreases |steps|
  {
    if steps != [] { SerialTakesTurns(r, steps[..|steps| - 1], key); }
  }

  /** In particular every key splits in every run with calls one at a time. */
  lemma KeySplitsInSerialRuns(r: Roster, steps: seq<Step>, key: string)
    requires Serial(r, steps) && Idle(Exec(r, steps))
    ensures Gap(Exec(r, steps).mem.book, KeyScope(key)) == 0
  {
    SerialTakesTurns(r, steps, key);
    KeySplitsWhenTakingTurns(r, steps, key);
  }

  // ----- teams

  function ReturnGap(s: Accounts, key: string, team: string): int {
    ReturnOf(s, Cell(KeyScope(key), TotalCost), team) - ReturnOf(s, Cell(KeyScope(key), RegularInput), team)
    - ReturnOf(s, Cell(KeyScope(key), CachedInput), team) - ReturnOf(s, Cell(KeyScope(key), OutputCost), team)
  }

  function ReturnGapAfter(r: Roster, s: Accounts, call: Call, key: string, team: string): int {
    ReturnAfter(r, s, call, key, TotalCost, team) - ReturnAfter(r, s, call, key, RegularInput, team)
    - ReturnAfter(r, s, call, key, CachedInput, team) - ReturnAfter(r, s, call, key, OutputCost, team)
  }

  function ReturnsGap(s: Accounts, keys: seq<string>, team: string): int {
    Returns(s, keys, team, TotalCost) - Returns(s, keys, team, RegularInput)
    - Returns(s, keys, team, CachedInput) - Returns(s, keys, team, OutputCost)
  }

  /** Total cost minus its parts, in the member rows a recomputation reads. */
  function RowGap(db: Book, keys: seq<string>): int {
    SumRows(db, keys, TotalCost) - SumRows(db, keys, RegularInput)
    - SumRows(db, keys, CachedInput) - SumRows(db, keys, OutputCost)
  }

  function ShiftGap(r: Roster, s: Accounts, i: nat, team: string): int
    requires Runs(s, i)
  {
    TeamShift(r, s, i, team, TotalCost) - TeamShift(r, s, i, team, RegularInput)
    - TeamShift(r, s, i, team, CachedInput) - TeamShift(r, s, i, team, OutputCost)
  }

  function BaseGap(s: Accounts, scope: Scope): int {
    Base(s, Cell(scope, TotalCost)) - Base(s, Cell(scope, RegularInput))
    - Base(s, Cell(scope, CachedInput)) - Base(s, Cell(scope, OutputCost))
  }

  function LeftGap(s: Accounts, i: nat, scope: Scope): int
    requires Runs(s, i)
  {
    Left(s, i, Cell(scope, TotalCost)) - Left(s, i, Cell(scope, RegularInput))
    - Left(s, i, Cell(scope, CachedInput)) - Left(s, i, Cell(scope, OutputCost))
  }

  /** A single update keeps the team's costs together: no cost is added to the team before a set of
      it still to come, or to a member the team is to give back; a member's cost zeroed with a
      refund is one the team was to give back; sets of the team's costs still to come agree. */
  predicate UpdateSplits(r: Roster, s: Accounts, i: nat, team: string)
    requires Runs(s, i)
  {
    match s.tasks[i][0]
    case Bump(c, _) =>
      IsCost(c.kind) ==>
        (c.scope == TeamScope(team) ==> !Doomed(s.tasks, c)) &&
        (OfMember(r, c, team, c.kind) ==> !Counted(s, c, team))
    case Zero(c, refund) =>
      IsCost(c.kind) ==>
        (c.scope == TeamScope(team) ==> Left(s, i, c) == Base(s, c)) &&
        (c.scope.KeyScope? && Read(s.mem.book, c) != 0 ==>
           (refund == Some(team) <==> OfMember(r, c, team, c.kind) && Counted(s, c, team)))
    case Put(c, _) => IsCost(c.kind) && c.scope == TeamScope(team) ==> Left(s, i, c) == Base(s, c)
    case Forget => LeftGap(s, i, TeamScope(team)) == BaseGap(s, TeamScope(team))
    case _ => true
  }

  /** A call may start: a reset of the team while none of its settlements is half done; a
      recomputation that reads rows that split; a clear of a member that gives back a total with
      its parts. */
  predicate StartSplits(r: Roster, s: Accounts, call: Call, team: string) {
    && (Resets(r, call, TeamScope(team)) ==> PendingGap(s, TeamScope(team)) == 0)
    && (call == Recompute(team) ==>
          RowGap(s.db, r.membersOf(team)) + PendingGap(s, TeamScope(team))
          - ReturnsGap(s, r.membersOf(team), team) == 0)
    && (call.ClearKey? && call.key in r.membersOf(team) ==>
        ReturnGapAfter(r, s, call, call.key, team) == ReturnGap(s, call.key, team))
  }

  lemma PerformTeamGap(r: Roster, s: Accounts, i: nat, team: string)
    requires RosterOk(r) && Inv(s) && Runs(s, i)
    ensures TeamGap(r, Perform(s, i), team) == TeamGap(r, s, team) + ShiftGap(r, s, i, team)
  {
    PerformTeamHeading(r, s, i, team, TotalCost);
    PerformTeamHeading(r, s, i, team, RegularInput);
    PerformTeamHeading(r, s, i, team, CachedInput);
    PerformTeamHeading(r, s, i, team, OutputCost);
  }

  lemma OtherKindsStay(r: Roster, s: Accounts, i: nat, team: string, kind: Kind)
    requires Runs(s, i) && !s.tasks[i][0].Forget?
    requires Changing(s.tasks[i][0]) ==> s.tasks[i][0].cell.kind != kind
    ensures TeamShift(r, s, i, team, kind) == 0
  {}

  predicate Changing(op: Op) { op.Bump? || op.Zero? || op.Put? }

  lemma OwnKindIff(r: Roster, s: Accounts, i: nat, team: string)
    requires Inv(s) && Runs(s, i) && Changing(s.tasks[i][0]) && IsCost(s.tasks[i][0].cell.kind)
    ensures TeamShift(r, s, i, team, s.tasks[i][0].cell.kind) == 0 <==> UpdateSplits(r, s, i, team)
  {
    var op := s.tasks[i][0];
    assert SoundOp(op) && KeyPositive(s, op.cell);
  }

  lemma UpdateSplitIff(r: Roster, s: Accounts, i: nat, team: string)
    requires RosterOk(r) && Inv(s) && Runs(s, i)
    ensures ShiftGap(r, s, i, team) == 0 <==> UpdateSplits(r, s, i, team)
  {
    var op := s.tasks[i][0];
    if !op.Forget? {
      forall kind: Kind | !Changing(op) || op.cell.kind != kind ensures TeamShift(r, s, i, team, kind) == 0 {
        OtherKindsStay(r, s, i, team, kind);
      }
      if Changing(op) && IsCost(op.cell.kind) { OwnKindIff(r, s, i, team); }
    }
  }

  lemma StartTeamHeading(r: Roster, s: Accounts, call: Call, team: string, kind: Kind)
    requires RosterOk(r)
    ensures var t, keys := Cell(TeamScope(team), kind), r.membersOf(team);
            TeamHeading(r, Begin(r, s, call), team, kind) ==
            if Resets(r, call, TeamScope(team)) then Pending(s.tasks, t)
            else if call == Recompute(team)
            then SumRows(s.db, keys, kind) + Pending(s.tasks, t) - Returns(s, keys, team, kind)
            else TeamHeading(r, s, team, kind)
                 + (if call.Settle? && Charges(r, call.key, TeamScope(team)) then Amount(call.usage, kind) else 0)
                 - (if call.ClearKey? && call.key in keys
                    then ReturnAfter(r, s, call, call.key, kind, team)
                         - ReturnOf(s, Cell(KeyScope(call.key), kind), team)
                    else 0)
  {
    var keys := r.membersOf(team);
    StartHeading(r, s, call, Cell(TeamScope(team), kind));
    if Resets(r, call, TeamScope(team)) {
      StartReturnsNone(r, s, call, keys, team, kind);
    } else if call.ClearKey? {
      StartReturnsOne(r, s, call.key, call.refund, keys, team, kind);
    } else {
      forall k | k in keys ensures ReturnAfter(r, s, call, k, kind, team) ==
          ReturnOf(s, Cell(KeyScope(k), kind), team) {
        assert r.teamOf(k) == Some(team);
        assert call.ResetTeam? ==> k !in r.membersOf(call.team);
      }
      StartReturnsSame(r, s, call, keys, team, kind);
    }
  }

  lemma StartTeamGapIff(r: Roster, s: Accounts, call: Call, team: string)
    requires RosterOk(r) && TeamGap(r, s, team) == 0
    ensures TeamGap(r, Begin(r, s, call), team) == 0 <==> StartSplits(r, s, call, team)
  {
    StartTeamHeading(r, s, call, team, TotalCost);
    StartTeamHeading(r, s, call, team, RegularInput);
    StartTeamHeading(r, s, call, team, CachedInput);
    StartTeamHeading(r, s, call, team, OutputCost);
  }

  predicate TeamSafe(r: Roster, s: Accounts, step: Step, team: string) {
    match step
    case Start(call) => StartSplits(r, s, call, team)
    case Advance(i) => Runs(s, i) ==> UpdateSplits(r, s, i, team)
    case _ => true
  }

  lemma SyncTeamHeading(r: Roster, s: Accounts, step: Step, team: string, kind: Kind)
    requires !step.Start? && !step.Advance?
    ensures TeamHeading(r, Apply(r, s, step), team, kind) == TeamHeading(r, s, team, kind)
  {
    SameReturns(s, Apply(r, s, step), r.membersOf(team), team, kind);
  }

  lemma TeamStepIff(r: Roster, s: Accounts, step: Step, team: string)
    requires RosterOk(r) && Inv(s) && TeamGap(r, s, team) == 0
    ensures TeamGap(r, Apply(r, s, step), team) == 0 <==> TeamSafe(r, s, step, team)
  {
    match step
    case Start(call) => StartTeamGapIff(r, s, call, team);
    case Advance(i) =>
      if Runs(s, i) {
        PerformTeamGap(r, s, i, team);
        UpdateSplitIff(r, s, i, team);
      }
    case _ =>
      SyncTeamHeading(r, s, step, team, TotalCost);
      SyncTeamHeading(r, s, step, team, RegularInput);
      SyncTeamHeading(r, s, step, team, CachedInput);
      SyncTeamHeading(r, s, step, team, OutputCost);
  }

  ghost predicate TeamSplitsThroughout(r: Roster, steps: seq<Step>, team: string) {
    (steps != [] ==> TeamSplitsThroughout(r, steps[..|steps| - 1], team)) && TeamGap(r, Exec(r, steps), team) == 0
  }

  ghost predicate AllTeamSafe(r: Roster, steps: seq<Step>, team: string) {
    steps != [] ==>
      AllTeamSafe(r, steps[..|steps| - 1], team) &&
      TeamSafe(r, Exec(r, steps[..|steps| - 1]), steps[|steps| - 1], team)
  }

  /** The same for a team, refunds and recomputations included. */
  lemma {:induction false} TeamSplitsThroughoutIff(r: Roster, steps: seq<Step>, team: string)
    requires RosterOk(r)
    ensures TeamSplitsThroughout(r, steps, team) <==> AllTeamSafe(r, steps, team)
    decreases |steps|
  {
    if steps == [] {
      IdleGap(r, START, TeamScope(team));
    } else {
      var front := steps[..|steps| - 1];
      TeamSplitsThroughoutIff(r, front, team);
      RunKeepsInv(r, front);
      if TeamSplitsThroughout(r, front, team) {
        TeamStepIff(r, Exec(r, front), steps[|steps| - 1], team);
      }
    }
  }

  lemma TeamTotalIsSumOfParts(r: Roster, steps: seq<Step>, team: string)
    requires RosterOk(r) && AllTeamSafe(r, steps, team) && Idle(Exec(r, steps))
    ensures Gap(Exec(r, steps).mem.book, TeamScope(team)) == 0
  {
    TeamSplitsThroughoutIff(r, steps, team);
    IdleGap(r, Exec(r, steps), TeamScope(team));
  }
}
