/**
 Every team total is the sum of its members: for any interleaving of single updates, the
 exact condition under which a step keeps what the team is headed for equal to what its
 members are headed for. Once no call is under way, that is what they hold.
 */
module LedgerTeams {

  import opened Wrappers
  import opened Ledger
  import opened LedgerSteps
  import opened LedgerLaws
  import opened LedgerForecast
  import opened LedgerReturns

  function SumKeys(b: Book, keys: seq<string>, kind: Kind): int {
    if keys == [] then 0 else Read(b, Cell(KeyScope(keys[0]), kind)) + SumKeys(b, keys[1..], kind)
  }

  function SumHeading(s: Accounts, keys: seq<string>, kind: Kind): int {
    if keys == [] then 0 else Heading(s, Cell(KeyScope(keys[0]), kind)) + SumHeading(s, keys[1..], kind)
  }

  function SumPending(s: Accounts, keys: seq<string>, kind: Kind): int {
    if keys == [] then 0 else Pending(s.tasks, Cell(KeyScope(keys[0]), kind)) + SumPending(s, keys[1..], kind)
  }

  /** What the team is headed for beyond the sum of its members. */
  function Excess(r: Roster, s: Accounts, team: string, kind: Kind): int {
    TeamHeading(r, s, team, kind) - SumHeading(s, r.membersOf(team), kind)
  }

  /** What the team is still owed by settlements that have already charged the key. */
  function Owed(r: Roster, s: Accounts, team: string, kind: Kind): int {
    Pending(s.tasks, Cell(TeamScope(team), kind)) - SumPending(s, r.membersOf(team), kind)
  }

  // ----- sums over members

  lemma {:induction false} SumHeadingSame(s: Accounts, e: Accounts, keys: seq<string>, kind: Kind)
    requires forall k :: k in keys ==> Heading(e, Cell(KeyScope(k), kind)) == Heading(s, Cell(KeyScope(k), kind))
    ensures SumHeading(e, keys, kind) == SumHeading(s, keys, kind)
  {
    if keys != [] {
      assert keys[0] in keys;
      SumHeadingSame(s, e, keys[1..], kind);
    }
  }

  lemma {:induction false} SumHeadingOne(s: Accounts, e: Accounts, keys: seq<string>, key: string, kind: Kind)
    requires Distinct(keys)
    requires forall k :: k in keys && k != key ==>
             Heading(e, Cell(KeyScope(k), kind)) == Heading(s, Cell(KeyScope(k), kind))
    ensures SumHeading(e, keys, kind) - SumHeading(s, keys, kind)
            == if key in keys then Heading(e, Cell(KeyScope(key), kind)) - Heading(s, Cell(KeyScope(key), kind)) else 0
  {
    if keys != [] {
      var tail := keys[1..];
      assert keys == [keys[0]] + tail;
      assert keys[0] !in tail && Distinct(tail);
      SumHeadingOne(s, e, tail, key, kind);
    }
  }

  lemma {:induction false} SumHeadingReset(s: Accounts, e: Accounts, keys: seq<string>, kind: Kind)
    requires forall k :: k in keys ==> Heading(e, Cell(KeyScope(k), kind)) == Pending(s.tasks, Cell(KeyScope(k), kind))
    ensures SumHeading(e, keys, kind) == SumPending(s, keys, kind)
  {
    if keys != [] {
      assert keys[0] in keys;
      SumHeadingReset(s, e, keys[1..], kind);
    }
  }

  lemma {:induction false} IdleSumHeading(s: Accounts, keys: seq<string>, kind: Kind)
    requires Idle(s)
    ensures SumHeading(s, keys, kind) == SumKeys(s.mem.book, keys, kind)
  {
    if keys != [] {
      IdleHeading(s, Cell(KeyScope(keys[0]), kind));
      IdleSumHeading(s, keys[1..], kind);
    }
  }

  // ----- one update

  /** A single update keeps the team balanced: an addition to the team comes after every set of
      its total; an addition to a member is to be returned by the team if it is to be taken from
      the member; a total zeroed with a refund is one the team was to give back; sets of the
      team's total that are still to come agree with the one made. */
  predicate UpdateBalances(r: Roster, s: Accounts, i: nat, team: string, kind: Kind)
    requires Runs(s, i)
  {
    var t := Cell(TeamScope(team), kind);
    match s.tasks[i][0]
    case Bump(c, _) =>
      && (c == t ==> !Doomed(s.tasks, c))
      && (OfMember(r, c, team, kind) ==> (Doomed(s.tasks, c) <==> Counted(s, c, team)))
    case Zero(c, refund) =>
      && (c == t ==> Left(s, i, t) == Base(s, t))
      && (c.scope.KeyScope? && c.kind == kind && Read(s.mem.book, c) != 0 ==>
            (refund == Some(team) <==> OfMember(r, c, team, kind) && Counted(s, c, team)))
    case Put(c, _) => c == t ==> Left(s, i, t) == Base(s, t)
    case Forget => Left(s, i, t) == Base(s, t)
    case _ => true
  }

  /** The change an update makes to the excess of a team. */
  lemma PerformExcess(r: Roster, s: Accounts, i: nat, team: string, kind: Kind)
    requires RosterOk(r) && Inv(s) && Runs(s, i)
    ensures var op := s.tasks[i][0];
            Excess(r, Perform(s, i), team, kind) == Excess(r, s, team, kind) + TeamShift(r, s, i, team, kind)
            - (if op.Bump? && OfMember(r, op.cell, team, kind) then Shift(s, i, op.cell) else 0)
  {
    var op, keys := s.tasks[i][0], r.membersOf(team);
    PerformTeamHeading(r, s, i, team, kind);
    forall k ensures Heading(Perform(s, i), Cell(KeyScope(k), kind)) == Heading(s, Cell(KeyScope(k), kind)) +
                     if op.Bump? && op.cell == Cell(KeyScope(k), kind) then Shift(s, i, op.cell) else 0
    {
      PerformHeading(s, i, Cell(KeyScope(k), kind));
      KeyShift(s, i, Cell(KeyScope(k), kind));
    }
    SumHeadingOne(s, Perform(s, i), keys, if op.Bump? && op.cell.scope.KeyScope? then op.cell.scope.hash else "", kind);
  }

  lemma BumpBalanceIff(r: Roster, s: Accounts, i: nat, team: string, kind: Kind)
    requires RosterOk(r) && Inv(s) && Runs(s, i) && s.tasks[i][0].Bump? && Excess(r, s, team, kind) == 0
    ensures Excess(r, Perform(s, i), team, kind) == 0 <==> UpdateBalances(r, s, i, team, kind)
  {
    var op := s.tasks[i][0];
    assert SoundOp(op);
    PerformExcess(r, s, i, team, kind);
    if OfMember(r, op.cell, team, kind) { KeyShift(s, i, op.cell); }
  }

  lemma ZeroBalanceIff(r: Roster, s: Accounts, i: nat, team: string, kind: Kind)
    requires RosterOk(r) && Inv(s) && Runs(s, i) && s.tasks[i][0].Zero? && Excess(r, s, team, kind) == 0
    ensures Excess(r, Perform(s, i), team, kind) == 0 <==> UpdateBalances(r, s, i, team, kind)
  {
    var op := s.tasks[i][0];
    assert SoundOp(op) && KeyPositive(s, op.cell);
    PerformExcess(r, s, i, team, kind);
  }

  lemma UpdateBalanceIff(r: Roster, s: Accounts, i: nat, team: string, kind: Kind)
    requires RosterOk(r) && Inv(s) && Runs(s, i) && Excess(r, s, team, kind) == 0
    ensures Excess(r, Perform(s, i), team, kind) == 0 <==> UpdateBalances(r, s, i, team, kind)
  {
    if s.tasks[i][0].Bump? {
      BumpBalanceIff(r, s, i, team, kind);
    } else if s.tasks[i][0].Zero? {
      ZeroBalanceIff(r, s, i, team, kind);
    } else {
      PerformExcess(r, s, i, team, kind);
    }
  }

  // ----- the start of a call

  /** A call may start without unbalancing the team: a clear of a member takes from it what the
      team will additionally give back; a team reset or a full clear finds nothing owed; a
      recomputation reads what the members are headed for, owed amounts included. */
  predicate StartBalances(r: Roster, s: Accounts, call: Call, team: string, kind: Kind) {
    match call
    case Settle(_, _) => true
    case ClearKey(key, _) =>
      var c := Cell(KeyScope(key), kind);
      key in r.membersOf(team) ==>
        ReturnAfter(r, s, call, key, kind, team) - ReturnOf(s, c, team) ==
        if Doomed(s.tasks, c) then 0 else Read(s.mem.book, c)
    case ResetTeam(reset) => reset == team ==> Owed(r, s, team, kind) == 0
    case Recompute(other) =>
      other == team ==>
        SumRows(s.db, r.membersOf(team), kind) + Pending(s.tasks, Cell(TeamScope(team), kind))
        - Returns(s, r.membersOf(team), team, kind) == SumHeading(s, r.membersOf(team), kind)
    case ClearAll => Owed(r, s, team, kind) == 0
  }

  lemma SettleExcess(r: Roster, s: Accounts, key: string, u: Usage, team: string, kind: Kind)
    requires RosterOk(r)
    ensures Excess(r, Begin(r, s, Settle(key, u)), team, kind) == Excess(r, s, team, kind)
  {
    var call, keys := Settle(key, u), r.membersOf(team);
    forall k ensures Heading(Begin(r, s, call), Cell(KeyScope(k), kind)) ==
                     Heading(s, Cell(KeyScope(k), kind)) + if k == key then Amount(u, kind) else 0
    {
      StartHeading(r, s, call, Cell(KeyScope(k), kind));
    }
    StartHeading(r, s, call, Cell(TeamScope(team), kind));
    SumHeadingOne(s, Begin(r, s, call), keys, key, kind);
    assert key in keys <==> r.teamOf(key) == Some(team);
    StartReturnsSame(r, s, call, keys, team, kind);
  }

  lemma ClearKeyExcess(r: Roster, s: Accounts, key: string, refund: Option<string>, team: string, kind: Kind)
    requires RosterOk(r) && Inv(s)
    ensures var call, c := ClearKey(key, refund), Cell(KeyScope(key), kind);
            Excess(r, Begin(r, s, call), team, kind) == Excess(r, s, team, kind) +
            if key in r.membersOf(team)
            then (if Doomed(s.tasks, c) then 0 else Read(s.mem.book, c))
                 - (ReturnAfter(r, s, call, key, kind, team) - ReturnOf(s, c, team))
            else 0
  {
    var call, keys := ClearKey(key, refund), r.membersOf(team);
    forall k ensures Heading(Begin(r, s, call), Cell(KeyScope(k), kind)) ==
                     Heading(s, Cell(KeyScope(k), kind)) - if k == key then Base(s, Cell(KeyScope(k), kind)) else 0
    {
      StartHeading(r, s, call, Cell(KeyScope(k), kind));
    }
    KeyBase(s, Cell(KeyScope(key), kind));
    StartHeading(r, s, call, Cell(TeamScope(team), kind));
    SumHeadingOne(s, Begin(r, s, call), keys, key, kind);
    StartReturnsOne(r, s, key, refund, keys, team, kind);
  }

  /** From whatever state, the start of a reset of the team and its members leaves as excess what
      the team is owed. */
  lemma ResetExcess(r: Roster, s: Accounts, call: Call, team: string, kind: Kind)
    requires call == ResetTeam(team) || call == ClearAll
    ensures Excess(r, Begin(r, s, call), team, kind) == Owed(r, s, team, kind)
  {
    var keys := r.membersOf(team);
    forall k | k in keys ensures Heading(Begin(r, s, call), Cell(KeyScope(k), kind)) ==
        Pending(s.tasks, Cell(KeyScope(k), kind)) {
      StartHeading(r, s, call, Cell(KeyScope(k), kind));
    }
    StartHeading(r, s, call, Cell(TeamScope(team), kind));
    SumHeadingReset(s, Begin(r, s, call), keys, kind);
    StartReturnsNone(r, s, call, keys, team, kind);
  }

  lemma OtherResetExcess(r: Roster, s: Accounts, reset: string, team: string, kind: Kind)
    requires RosterOk(r) && reset != team
    ensures Excess(r, Begin(r, s, ResetTeam(reset)), team, kind) == Excess(r, s, team, kind)
  {
    var call, keys := ResetTeam(reset), r.membersOf(team);
    forall k | k in keys
      ensures Heading(Begin(r, s, call), Cell(KeyScope(k), kind)) == Heading(s, Cell(KeyScope(k), kind))
      ensures ReturnAfter(r, s, call, k, kind, team) == ReturnOf(s, Cell(KeyScope(k), kind), team)
    {
      assert r.teamOf(k) == Some(team);
      assert k !in r.membersOf(reset);
      StartHeading(r, s, call, Cell(KeyScope(k), kind));
    }
    StartHeading(r, s, call, Cell(TeamScope(team), kind));
    SumHeadingSame(s, Begin(r, s, call), keys, kind);
    StartReturnsSame(r, s, call, keys, team, kind);
  }

  /** The start of a recomputation sets the team, from whatever state, on the sum of the rows read. */
  lemma RecomputeExcess(r: Roster, s: Accounts, other: string, team: string, kind: Kind)
    ensures Excess(r, Begin(r, s, Recompute(other)), team, kind) ==
            if other == team
            then SumRows(s.db, r.membersOf(team), kind) + Pending(s.tasks, Cell(TeamScope(team), kind))
                 - Returns(s, r.membersOf(team), team, kind) - SumHeading(s, r.membersOf(team), kind)
            else Excess(r, s, team, kind)
  {
    var call, keys := Recompute(other), r.membersOf(team);
    forall k ensures Heading(Begin(r, s, call), Cell(KeyScope(k), kind)) == Heading(s, Cell(KeyScope(k), kind)) {
      StartHeading(r, s, call, Cell(KeyScope(k), kind));
    }
    StartHeading(r, s, call, Cell(TeamScope(team), kind));
    SumHeadingSame(s, Begin(r, s, call), keys, kind);
    StartReturnsSame(r, s, call, keys, team, kind);
  }

  lemma StartBalanceIff(r: Roster, s: Accounts, call: Call, team: string, kind: Kind)
    requires RosterOk(r) && Inv(s) && Excess(r, s, team, kind) == 0
    ensures Excess(r, Begin(r, s, call), team, kind) == 0 <==> StartBalances(r, s, call, team, kind)
  {
    match call
    case Settle(key, u) => SettleExcess(r, s, key, u, team, kind);
    case ClearKey(key, refund) => ClearKeyExcess(r, s, key, refund, team, kind);
    case ResetTeam(reset) =>
      if reset == team { ResetExcess(r, s, call, team, kind); } else { OtherResetExcess(r, s, reset, team, kind); }
    case Recompute(other) => RecomputeExcess(r, s, other, team, kind);
    case ClearAll => ResetExcess(r, s, call, team, kind);
  }

  // ----- whole runs

  predicate BalanceSafe(r: Roster, s: Accounts, step: Step, team: string, kind: Kind) {
    match step
    case Start(call) => StartBalances(r, s, call, team, kind)
    case Advance(i) => Runs(s, i) ==> UpdateBalances(r, s, i, team, kind)
    case _ => true
  }

  lemma SyncExcess(r: Roster, s: Accounts, step: Step, team: string, kind: Kind)
    requires !step.Start? && !step.Advance?
    ensures Excess(r, Apply(r, s, step), team, kind) == Excess(r, s, team, kind)
  {
    var e := Apply(r, s, step);
    SumHeadingSame(s, e, r.membersOf(team), kind);
    SameReturns(s, e, r.membersOf(team), team, kind);
  }

  /** From a balanced state, every step keeps the team balanced exactly when it is safe. */
  lemma StepBalanceIff(r: Roster, s: Accounts, step: Step, team: string, kind: Kind)
    requires RosterOk(r) && Inv(s) && Excess(r, s, team, kind) == 0
    ensures Excess(r, Apply(r, s, step), team, kind) == 0 <==> BalanceSafe(r, s, step, team, kind)
  {
    match step
    case Start(call) => StartBalanceIff(r, s, call, team, kind);
    case Advance(i) => if Runs(s, i) { UpdateBalanceIff(r, s, i, team, kind); }
    case _ => SyncExcess(r, s, step, team, kind);
  }

  ghost predicate BalancedThroughout(r: Roster, steps: seq<Step>, team: string, kind: Kind) {
    (steps != [] ==> BalancedThroughout(r, steps[..|steps| - 1], team, kind))
        && Excess(r, Exec(r, steps), team, kind) == 0
  }

  ghost predicate AllBalanceSafe(r: Roster, steps: seq<Step>, team: string, kind: Kind) {
    steps != [] ==>
      AllBalanceSafe(r, steps[..|steps| - 1], team, kind) &&
      BalanceSafe(r, Exec(r, steps[..|steps| - 1]), steps[|steps| - 1], team, kind)
  }

  lemma {:induction false} SumKeysZero(b: Book, keys: seq<string>, kind: Kind)
    requires forall k :: k in keys ==> Read(b, Cell(KeyScope(k), kind)) == 0
    ensures SumKeys(b, keys, kind) == 0
  {
    if keys != [] {
      assert keys[0] in keys;
      SumKeysZero(b, keys[1..], kind);
    }
  }

  /** With no call under way, the excess is what the team holds beyond its members. */
  lemma IdleExcess(r: Roster, s: Accounts, team: string, kind: Kind)
    requires Idle(s)
    ensures Excess(r, s, team, kind) ==
            Read(s.mem.book, Cell(TeamScope(team), kind)) - SumKeys(s.mem.book, r.membersOf(team), kind)
  {
    IdleHeading(s, Cell(TeamScope(team), kind));
    IdleSumHeading(s, r.membersOf(team), kind);
    IdleReturns(s, r.membersOf(team), team, kind);
  }

  lemma StartIsBalanced(r: Roster, team: string, kind: Kind)
    ensures Excess(r, START, team, kind) == 0
  {
    IdleExcess(r, START, team, kind);
    SumKeysZero(START.mem.book, r.membersOf(team), kind);
  }

  /** Conservation: however everything interleaves, a team is headed for the sum of its members
      throughout a run if and only if every step is safe. */
  lemma {:induction false} TeamIsSumThroughoutIff(r: Roster, steps: seq<Step>, team: string, kind: Kind)
    requires RosterOk(r)
    ensures BalancedThroughout(r, steps, team, kind) <==> AllBalanceSafe(r, steps, team, kind)
    decreases |steps|
  {
    if steps == [] {
      StartIsBalanced(r, team, kind);
    } else {
      var front := steps[..|steps| - 1];
      TeamIsSumThroughoutIff(r, front, team, kind);
      RunKeepsInv(r, front);
      if BalancedThroughout(r, front, team, kind) {
        StepBalanceIff(r, Exec(r, front), steps[|steps| - 1], team, kind);
      }
    }
  }

  /** So after a run of safe steps, once no call is under way, the team holds what its members hold. */
  lemma TeamIsSumOfMembers(r: Roster, steps: seq<Step>, team: string, kind: Kind)
    requires RosterOk(r) && AllBalanceSafe(r, steps, team, kind) && Idle(Exec(r, steps))
    ensures Read(Exec(r, steps).mem.book, Cell(TeamScope(team), kind)) ==
            SumKeys(Exec(r, steps).mem.book, r.membersOf(team), kind)
  {
    TeamIsSumThroughoutIff(r, steps, team, kind);
    IdleExcess(r, Exec(r, steps), team, kind);
  }

  // ----- the calls, one by one, from whatever state

  /** Clearing a member with its team given is safe to start unless another call under way is to
      take the same total for another team. */
  lemma ClearKeyBalancesIff(r: Roster, s: Accounts, key: string, team: string, kind: Kind)
    requires RosterOk(r) && Inv(s) && Excess(r, s, team, kind) == 0 && key in r.membersOf(team)
    ensures var c := Cell(KeyScope(key), kind);
            Excess(r, Begin(r, s, ClearKey(key, Some(team))), team, kind) == 0 <==>
            Read(s.mem.book, c) == 0 || !Doomed(s.tasks, c) || Wiped(s.tasks, c) || Refunds(s.tasks, c, team)
  {
    var c := Cell(KeyScope(key), kind);
    assert KeyPositive(s, c);
    ClearKeyExcess(r, s, key, Some(team), team, kind);
    DoomedWhen(s, c, team);
  }

  /** Clearing a member without its team unbalances the team unless the member holds nothing or
      another call under way is to take its total anyway. */
  lemma WipeKeyBalancesIff(r: Roster, s: Accounts, key: string, team: string, kind: Kind)
    requires RosterOk(r) && Inv(s) && Excess(r, s, team, kind) == 0
    ensures var c := Cell(KeyScope(key), kind);
            Excess(r, Begin(r, s, ClearKey(key, None)), team, kind) == 0 <==>
            key !in r.membersOf(team) || Read(s.mem.book, c) == 0 || (Doomed(s.tasks, c) && !Counted(s, c, team))
  {
    var c := Cell(KeyScope(key), kind);
    assert KeyPositive(s, c);
    ClearKeyExcess(r, s, key, None, team, kind);
    DoomedWhen(s, c, team);
  }

  lemma DoomedWhen(s: Accounts, c: Cell, team: string)
    ensures Refunds(s.tasks, c, team) || Wiped(s.tasks, c) ==> Doomed(s.tasks, c)
  {
    if Refunds(s.tasks, c, team) {
      var i :| 0 <= i < |s.tasks| && Zero(c, Some(team)) in s.tasks[i];
      var j :| 0 <= j < |s.tasks[i]| && s.tasks[i][j] == Zero(c, Some(team));
      assert SetsCell(s.tasks[i][j], c);
      assert HasSet(s.tasks[i], c);
    }
    if Wiped(s.tasks, c) {
      var i, j :| 0 <= i < |s.tasks| && 0 <= j < |s.tasks[i]| && Wipes(s.tasks[i][j], c);
      assert SetsCell(s.tasks[i][j], c);
      assert HasSet(s.tasks[i], c);
    }
  }

  /** A reset of a team with its members balances it, whatever it held, if and only if nothing is
      owed to it when the reset starts; that it stays so is a matter of the updates that follow. */
  lemma ResetTeamBalancesIff(r: Roster, s: Accounts, team: string, kind: Kind)
    ensures Excess(r, Begin(r, s, ResetTeam(team)), team, kind) == 0 <==> Owed(r, s, team, kind) == 0
  {
    ResetExcess(r, s, ResetTeam(team), team, kind);
  }

  /** The member's row is up to date and no call under way is to reset it. */
  predicate Settled(s: Accounts, c: Cell) { Read(s.db, c) == Read(s.mem.book, c) && !Doomed(s.tasks, c) }

  lemma {:induction false} SettledSums(r: Roster, s: Accounts, keys: seq<string>, team: string, kind: Kind)
    requires forall c :: KeyPositive(s, c)
    requires forall k :: k in keys ==> Settled(s, Cell(KeyScope(k), kind))
    ensures SumHeading(s, keys, kind) == SumRows(s.db, keys, kind) + SumPending(s, keys, kind)
    ensures Returns(s, keys, team, kind) == 0
  {
    if keys != [] {
      var c := Cell(KeyScope(keys[0]), kind);
      assert keys[0] in keys && KeyPositive(s, c);
      SetByAllIs(s.tasks, c, Read(s.mem.book, c), 0);
      DoomedWhen(s, c, team);
      SettledSums(r, s, keys[1..], team, kind);
    }
  }

  /** A recomputation from up-to-date rows, while no member is being reset, balances the team,
      whatever it held, if and only if nothing is owed to it, for what is owed would be charged
      a second time. */
  lemma RecomputeBalancesIff(r: Roster, s: Accounts, team: string, kind: Kind)
    requires Inv(s)
    requires forall k :: k in r.membersOf(team) ==> Settled(s, Cell(KeyScope(k), kind))
    ensures Excess(r, Begin(r, s, Recompute(team)), team, kind) == 0 <==> Owed(r, s, team, kind) == 0
  {
    RecomputeExcess(r, s, team, team, kind);
    SettledSums(r, s, r.membersOf(team), team, kind);
  }

  /** After that, an addition to a member or to the team while the team's total is still to be set,
      or to a member that a team reset is still to zero, is what parts them. */
  lemma AdditionBalancesIff(r: Roster, s: Accounts, i: nat, team: string, kind: Kind)
    requires RosterOk(r) && Inv(s) && Runs(s, i) && s.tasks[i][0].Bump? && Excess(r, s, team, kind) == 0
    ensures var c := s.tasks[i][0].cell;
            Excess(r, Perform(s, i), team, kind) == 0 <==>
            (c == Cell(TeamScope(team), kind) ==> !Doomed(s.tasks, c)) &&
            (OfMember(r, c, team, kind) ==> (Doomed(s.tasks, c) <==> Counted(s, c, team)))
  {
    BumpBalanceIff(r, s, i, team, kind);
  }
}
