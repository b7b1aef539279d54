/**
 Where totals are headed while calls are under way: a counter that some call has still to
 set is headed for that value, any other for what it holds; what is still to be added comes
 on top, and what clears will return is taken off their team. How every single update and
 every start of a call moves these forecasts, exactly.
 */
module LedgerForecast {

  import opened Wrappers
  import opened Ledger
  import opened LedgerSteps
  import opened LedgerLaws

  // ----- updates that set a counter

  predicate SetsCell(op: Op, c: Cell) {
    ((op.Zero? || op.Put?) && op.cell == c) || op.Forget?
  }

  function SetValue(op: Op): int { if op.Put? then op.value else 0 }

  /** A counter of value `v` once these updates have set it, additions aside. */
  function SetBy(ops: seq<Op>, c: Cell, v: int): int {
    if ops == [] then v else SetBy(ops[1..], c, if SetsCell(ops[0], c) then SetValue(ops[0]) else v)
  }

  function SetByAll(tasks: seq<seq<Op>>, c: Cell, v: int): int {
    if tasks == [] then v else SetByAll(tasks[1..], c, SetBy(tasks[0], c, v))
  }

  predicate HasSet(ops: seq<Op>, c: Cell) { exists i :: 0 <= i < |ops| && SetsCell(ops[i], c) }

  /** Some call under way has still to set this counter. */
  predicate Doomed(tasks: seq<seq<Op>>, c: Cell) { exists i :: 0 <= i < |tasks| && HasSet(tasks[i], c) }

  /** Where the counter is headed, additions aside. */
  function Base(s: Accounts, c: Cell): int { SetByAll(s.tasks, c, Read(s.mem.book, c)) }

  /** And with them. */
  function Heading(s: Accounts, c: Cell): int { Base(s, c) + Pending(s.tasks, c) }

  lemma {:induction false} SetByIs(ops: seq<Op>, c: Cell, v: int, w: int)
    ensures !HasSet(ops, c) ==> SetBy(ops, c, v) == v
    ensures HasSet(ops, c) ==> SetBy(ops, c, v) == SetBy(ops, c, w)
    decreases |ops|
  {
    if ops != [] {
      var x := if SetsCell(ops[0], c) then SetValue(ops[0]) else v;
      var y := if SetsCell(ops[0], c) then SetValue(ops[0]) else w;
      SetByIs(ops[1..], c, x, y);
      HasSetCons(ops, c);
    }
  }

  lemma HasSetCons(ops: seq<Op>, c: Cell)
    requires ops != []
    ensures HasSet(ops, c) <==> SetsCell(ops[0], c) || HasSet(ops[1..], c)
  {
    if HasSet(ops, c) {
      var i :| 0 <= i < |ops| && SetsCell(ops[i], c);
      if i > 0 { assert SetsCell(ops[1..][i - 1], c); }
    }
    if HasSet(ops[1..], c) {
      var i :| 0 <= i < |ops[1..]| && SetsCell(ops[1..][i], c);
      assert SetsCell(ops[i + 1], c);
    }
  }

  lemma HasSetAppend(a: seq<Op>, b: seq<Op>, c: Cell)
    ensures HasSet(a + b, c) <==> HasSet(a, c) || HasSet(b, c)
  {
    var all := a + b;
    if HasSet(a, c) {
      var i :| 0 <= i < |a| && SetsCell(a[i], c);
      assert SetsCell(all[i], c);
    }
    if HasSet(b, c) {
      var i :| 0 <= i < |b| && SetsCell(b[i], c);
      assert SetsCell(all[|a| + i], c);
    }
  }

  /** A list whose sets of `c` all agree. */
  lemma {:induction false} SetByValue(ops: seq<Op>, c: Cell, v: int, x: int)
    requires forall i :: 0 <= i < |ops| && SetsCell(ops[i], c) ==> SetValue(ops[i]) == x
    ensures SetBy(ops, c, v) == if HasSet(ops, c) then x else v
    decreases |ops|
  {
    if ops != [] {
      SetByValue(ops[1..], c, if SetsCell(ops[0], c) then SetValue(ops[0]) else v, x);
      HasSetCons(ops, c);
    }
  }

  lemma {:induction false} SetByAppend(a: seq<Op>, b: seq<Op>, c: Cell, v: int)
    ensures SetBy(a + b, c, v) == SetBy(b, c, SetBy(a, c, v))
    decreases |a|
  {
    if a == [] {
      assert a + b == b;
    } else {
      assert (a + b)[1..] == a[1..] + b;
      SetByAppend(a[1..], b, c, if SetsCell(a[0], c) then SetValue(a[0]) else v);
    }
  }

  lemma DoomedCons(tasks: seq<seq<Op>>, c: Cell)
    requires tasks != []
    ensures Doomed(tasks, c) <==> HasSet(tasks[0], c) || Doomed(tasks[1..], c)
  {
    if Doomed(tasks, c) {
      var i :| 0 <= i < |tasks| && HasSet(tasks[i], c);
      if i > 0 { assert HasSet(tasks[1..][i - 1], c); }
    }
    if Doomed(tasks[1..], c) {
      var i :| 0 <= i < |tasks[1..]| && HasSet(tasks[1..][i], c);
      assert HasSet(tasks[i + 1], c);
    }
  }

  lemma {:induction false} SetByAllIs(tasks: seq<seq<Op>>, c: Cell, v: int, w: int)
    ensures !Doomed(tasks, c) ==> SetByAll(tasks, c, v) == v
    ensures Doomed(tasks, c) ==> SetByAll(tasks, c, v) == SetByAll(tasks, c, w)
    decreases |tasks|
  {
    if tasks != [] {
      SetByIs(tasks[0], c, v, w);
      SetByAllIs(tasks[1..], c, SetBy(tasks[0], c, v), SetBy(tasks[0], c, w));
      DoomedCons(tasks, c);
    }
  }

  lemma {:induction false} SetByAllSnoc(tasks: seq<seq<Op>>, ops: seq<Op>, c: Cell, v: int)
    ensures SetByAll(tasks + [ops], c, v) == SetBy(ops, c, SetByAll(tasks, c, v))
    decreases |tasks|
  {
    if tasks == [] {
      assert tasks + [ops] == [ops] && [ops][1..] == [];
      assert SetByAll([ops], c, v) == SetByAll([], c, SetBy(ops, c, v));
    } else {
      assert (tasks + [ops])[1..] == tasks[1..] + [ops];
      SetByAllSnoc(tasks[1..], ops, c, SetBy(tasks[0], c, v));
    }
  }

  /** Lists that set alike may replace each other. */
  lemma {:induction false} SetByAllSame(tasks: seq<seq<Op>>, i: nat, ops: seq<Op>, c: Cell, v: int)
    requires i < |tasks| && forall w :: SetBy(ops, c, w) == SetBy(tasks[i], c, w)
    ensures SetByAll(tasks[i := ops], c, v) == SetByAll(tasks, c, v)
    decreases |tasks|
  {
    if i == 0 {
      assert tasks[i := ops][1..] == tasks[1..];
    } else {
      assert tasks[i := ops][1..] == tasks[1..][i - 1 := ops];
      SetByAllSame(tasks[1..], i - 1, ops, c, SetBy(tasks[0], c, v));
    }
  }

  /** When all sets that are left agree, so does where the counter is headed. */
  lemma {:induction false} SetByAllValue(tasks: seq<seq<Op>>, c: Cell, v: int, x: int)
    requires forall i, j :: 0 <= i < |tasks| && 0 <= j < |tasks[i]| && SetsCell(tasks[i][j], c) ==>
             SetValue(tasks[i][j]) == x
    ensures SetByAll(tasks, c, v) == if Doomed(tasks, c) then x else v
    decreases |tasks|
  {
    if tasks != [] {
      SetByValue(tasks[0], c, v, x);
      var rest := tasks[1..];
      forall i, j | 0 <= i < |rest| && 0 <= j < |rest[i]| && SetsCell(rest[i][j], c) ensures SetValue(rest[i][j]) == x {
        assert rest[i] == tasks[i + 1];
      }
      SetByAllValue(rest, c, SetBy(tasks[0], c, v), x);
      DoomedCons(tasks, c);
    }
  }

  ghost predicate AllSound(s: Accounts) { forall i :: 0 <= i < |s.tasks| ==> SoundOps(s.tasks[i]) }

  /** A key counter is only ever set to zero. */
  lemma KeyBase(s: Accounts, c: Cell)
    requires AllSound(s) && c.scope.KeyScope?
    ensures Base(s, c) == if Doomed(s.tasks, c) then 0 else Read(s.mem.book, c)
  {
    forall i, j | 0 <= i < |s.tasks| && 0 <= j < |s.tasks[i]| && SetsCell(s.tasks[i][j], c)
        ensures SetValue(s.tasks[i][j]) == 0 {
      assert SoundOps(s.tasks[i]);
      assert SoundOp(s.tasks[i][j]);
    }
    SetByAllValue(s.tasks, c, Read(s.mem.book, c), 0);
  }

  // ----- one update

  /** Where counter `c` is headed once the next update of call `i`, which sets it, is made. */
  function Left(s: Accounts, i: nat, c: Cell): int
    requires Runs(s, i)
  {
    SetByAll(s.tasks[i := s.tasks[i][1..]], c, SetValue(s.tasks[i][0]))
  }

  lemma ExtrasSetNothing(m: Memory, op: Op, c: Cell)
    ensures !HasSet(Extras(m, op), c)
  {}

  lemma TailSets(s: Accounts, i: nat, c: Cell, v: int)
    requires Runs(s, i)
    ensures var rest := s.tasks[i][1..];
            SetByAll(Perform(s, i).tasks, c, v) == SetByAll(s.tasks[i := rest], c, v)
  {
    var rest, more := s.tasks[i][1..], Extras(s.mem, s.tasks[i][0]);
    var tasks := s.tasks[i := rest];
    ExtrasSetNothing(s.mem, s.tasks[i][0], c);
    forall w ensures SetBy(rest + more, c, w) == SetBy(tasks[i], c, w) {
      SetByAppend(rest, more, c, w);
      SetByIs(more, c, SetBy(rest, c, w), 0);
    }
    SetByAllSame(tasks, i, rest + more, c, v);
    assert tasks[i := rest + more] == Perform(s, i).tasks;
  }

  lemma HeadSetsNothing(s: Accounts, i: nat, c: Cell, v: int)
    requires Runs(s, i) && !SetsCell(s.tasks[i][0], c)
    ensures SetByAll(s.tasks[i := s.tasks[i][1..]], c, v) == SetByAll(s.tasks, c, v)
  {
    forall w ensures SetBy(s.tasks[i][1..], c, w) == SetBy(s.tasks[i], c, w) {}
    SetByAllSame(s.tasks, i, s.tasks[i][1..], c, v);
  }

  /** How one update moves where a counter is headed. An addition that comes before a set still to
      be made is lost; a set moves it only if sets still to be made disagree; a refund lowers it. */
  function Shift(s: Accounts, i: nat, c: Cell): int
    requires Runs(s, i)
  {
    var op := s.tasks[i][0];
    (if SetsCell(op, c) then Left(s, i, c) - Base(s, c)
     else if op.Bump? && op.cell == c && Doomed(s.tasks, c) then 0 - op.delta
     else 0)
    - ReturnedTo(s.mem, op, c)
  }

  lemma PerformHeading(s: Accounts, i: nat, c: Cell)
    requires Runs(s, i)
    ensures Heading(Perform(s, i), c) == Heading(s, c) + Shift(s, i, c)
  {
    var op := s.tasks[i][0];
    PerformTerms(s, i, c);
    var v, v' := Read(s.mem.book, c), Read(Perform(s, i).mem.book, c);
    TailSets(s, i, c, v');
    if SetsCell(op, c) {
      assert v' == SetValue(op);
    } else {
      HeadSetsNothing(s, i, c, v');
      SetByAllIs(s.tasks, c, v, v');
      SetByAllIs(s.tasks, c, v', v);
    }
  }

  /** For a key: only an addition before a reset still to come. */
  lemma KeyShift(s: Accounts, i: nat, c: Cell)
    requires Runs(s, i) && AllSound(s) && c.scope.KeyScope?
    ensures var op := s.tasks[i][0];
            Shift(s, i, c) == if op.Bump? && op.cell == c && Doomed(s.tasks, c) then 0 - op.delta else 0
  {
    var op := s.tasks[i][0];
    assert SoundOp(op);
    if SetsCell(op, c) {
      var tasks := s.tasks[i := s.tasks[i][1..]];
      forall a, b | 0 <= a < |tasks| && 0 <= b < |tasks[a]| && SetsCell(tasks[a][b], c)
          ensures SetValue(tasks[a][b]) == 0 {
        assert tasks[a][b] == if a == i then s.tasks[i][b + 1] else s.tasks[a][b];
        assert SoundOps(s.tasks[a]);
        assert SoundOp(tasks[a][b]);
      }
      SetByAllValue(tasks, c, 0, 0);
      assert HasSet(s.tasks[i], c);
      KeyBase(s, c);
    }
  }

  lemma BeginHeading(r: Roster, s: Accounts, call: Call, c: Cell)
    ensures Heading(Begin(r, s, call), c) ==
            SetBy(Program(r, s, call), c, Base(s, c)) + Pending(s.tasks, c) + Deltas(Program(r, s, call), c)
  {
    BeginTerms(r, s, call, c);
    SetByAllSnoc(s.tasks, Program(r, s, call), c, Read(s.mem.book, c));
  }

  // ----- what a call sets

  /** The scopes a resetting call sets to zero. */
  predicate Resets(r: Roster, call: Call, scope: Scope) {
    match call
    case ClearKey(key, _) => scope == KeyScope(key)
    case ResetTeam(team) => scope == TeamScope(team) || (scope.KeyScope? && scope.hash in r.membersOf(team))
    case ClearAll => true
    case _ => false
  }

  lemma {:induction false} AddOpsSet(scope: Scope, amount: Kind -> int, n: nat, c: Cell)
    requires n <= |KINDS|
    ensures !HasSet(AddOps(scope, amount, n), c)
  {
    if n > 0 {
      AddOpsSet(scope, amount, n - 1, c);
      HasSetAppend(AddOps(scope, amount, n - 1), AddOp(Cell(scope, KINDS[n - 1]), amount(KINDS[n - 1])), c);
    }
  }

  lemma {:induction false} ZeroOpsSet(scope: Scope, refund: Option<string>, n: nat, i: nat, c: Cell, v: int)
    requires n <= |KINDS| && i < |KINDS| && c.kind == KINDS[i]
    ensures SetBy(ZeroOps(scope, refund, n), c, v) == if c.scope == scope && i < n then 0 else v
    ensures HasSet(ZeroOps(scope, refund, n), c) <==> c.scope == scope && i < n
  {
    if n > 0 {
      var x := Cell(scope, KINDS[n - 1]);
      var front, pair := ZeroOps(scope, refund, n - 1), [Zero(x, refund), Mark(x)];
      ZeroOpsSet(scope, refund, n - 1, i, c, v);
      HasSetAppend(front, pair, c);
      SetByAppend(front, pair, c, v);
      PairSets(Zero(x, refund), x, c, SetBy(front, c, v));
      if i < n - 1 { KindsDistinct(i, n - 1); }
      if n - 1 < i { KindsDistinct(n - 1, i); }
    }
  }

  lemma PairSets(op: Op, x: Cell, c: Cell, v: int)
    requires (op.Zero? || op.Put?) && op.cell == x
    ensures SetBy([op, Mark(x)], c, v) == if c == x then SetValue(op) else v
    ensures HasSet([op, Mark(x)], c) <==> c == x
  {
    var pair := [op, Mark(x)];
    SetByValue(pair, c, v, SetValue(op));
    assert SetsCell(pair[0], c) <==> c == x;
  }

  lemma SingleSets(op: Op, c: Cell, v: int)
    requires !op.Zero? && !op.Put? && !op.Forget?
    ensures SetBy([op], c, v) == v && !HasSet([op], c)
  {
    SetByValue([op], c, v, 0);
  }

  lemma ClearOpsSet(key: string, refund: Option<string>, c: Cell, v: int)
    ensures SetBy(ClearOps(key, refund), c, v) == if c.scope == KeyScope(key) then 0 else v
    ensures HasSet(ClearOps(key, refund), c) <==> c.scope == KeyScope(key)
  {
    var i := KindIndex(c.kind);
    var zero, erase := ZeroOps(KeyScope(key), refund, |KINDS|), [Erase(KeyScope(key))];
    ZeroOpsSet(KeyScope(key), refund, |KINDS|, i, c, v);
    HasSetAppend(zero, erase, c);
    SetByAppend(zero, erase, c, v);
    SingleSets(Erase(KeyScope(key)), c, SetBy(zero, c, v));
  }

  lemma {:induction false} ClearEachSet(keys: seq<string>, c: Cell, v: int)
    ensures SetBy(ClearEach(keys), c, v) == if c.scope.KeyScope? && c.scope.hash in keys then 0 else v
    ensures HasSet(ClearEach(keys), c) <==> c.scope.KeyScope? && c.scope.hash in keys
    decreases |keys|
  {
    if keys != [] {
      var front, k := keys[..|keys| - 1], keys[|keys| - 1];
      ClearEachSet(front, c, v);
      ClearOpsSet(k, None, c, SetBy(ClearEach(front), c, v));
      HasSetAppend(ClearEach(front), ClearOps(k, None), c);
      SetByAppend(ClearEach(front), ClearOps(k, None), c, v);
      assert keys == front + [k];
    }
  }

  lemma {:induction false} PutOpsSet(scope: Scope, value: Kind -> int, n: nat, i: nat, c: Cell, v: int)
    requires n <= |KINDS| && i < |KINDS| && c.kind == KINDS[i]
    ensures SetBy(PutOps(scope, value, n), c, v) == if c.scope == scope && i < n then value(c.kind) else v
    ensures HasSet(PutOps(scope, value, n), c) <==> c.scope == scope && i < n
    ensures !HasSet(StoreOps(scope, value, n), c)
  {
    if n > 0 {
      var x := Cell(scope, KINDS[n - 1]);
      var put, store := Put(x, value(KINDS[n - 1])), Store(x, value(KINDS[n - 1]));
      var front := PutOps(scope, value, n - 1);
      PutOpsSet(scope, value, n - 1, i, c, v);
      HasSetAppend(front, [put, Mark(x)], c);
      SetByAppend(front, [put, Mark(x)], c, v);
      PairSets(put, x, c, SetBy(front, c, v));
      HasSetAppend(StoreOps(scope, value, n - 1), [store], c);
      SingleSets(store, c, v);
      if i < n - 1 { KindsDistinct(i, n - 1); }
      if n - 1 < i { KindsDistinct(n - 1, i); }
    }
  }

  lemma ResetTeamSets(r: Roster, s: Accounts, team: string, c: Cell, v: int)
    ensures SetBy(Program(r, s, ResetTeam(team)), c, v) == if Resets(r, ResetTeam(team), c.scope) then 0 else v
    ensures HasSet(Program(r, s, ResetTeam(team)), c) <==> Resets(r, ResetTeam(team), c.scope)
  {
    var i := KindIndex(c.kind);
    var erase, zero, each := [Erase(TeamScope(team))], ZeroOps(TeamScope(team), None, |KINDS|),
        ClearEach(r.membersOf(team));
    SingleSets(erase[0], c, v);
    ZeroOpsSet(TeamScope(team), None, |KINDS|, i, c, v);
    ClearEachSet(r.membersOf(team), c, SetBy(zero, c, v));
    SetByAppend(erase, zero, c, v);
    SetByAppend(erase + zero, each, c, v);
    HasSetAppend(erase, zero, c);
    HasSetAppend(erase + zero, each, c);
  }

  lemma RecomputeSets(r: Roster, s: Accounts, team: string, c: Cell, v: int)
    ensures SetBy(Program(r, s, Recompute(team)), c, v) ==
            if c.scope == TeamScope(team) then SumRows(s.db, r.membersOf(team), c.kind) else v
    ensures HasSet(Program(r, s, Recompute(team)), c) <==> c.scope == TeamScope(team)
  {
    var i := KindIndex(c.kind);
    var value := RowSums(s.db, r.membersOf(team));
    var puts, stores := PutOps(TeamScope(team), value, |KINDS|), StoreOps(TeamScope(team), value, |KINDS|);
    PutOpsSet(TeamScope(team), value, |KINDS|, i, c, v);
    SetByAppend(puts, stores, c, v);
    SetByIs(stores, c, SetBy(puts, c, v), 0);
    HasSetAppend(puts, stores, c);
  }

  /** What a whole call sets a counter to. */
  lemma ProgramSets(r: Roster, s: Accounts, call: Call, c: Cell, v: int)
    ensures SetBy(Program(r, s, call), c, v) ==
            if Resets(r, call, c.scope) then 0
            else if call.Recompute? && c.scope == TeamScope(call.team)
            then SumRows(s.db, r.membersOf(call.team), c.kind)
            else v
    ensures HasSet(Program(r, s, call), c) <==>
            Resets(r, call, c.scope) || (call.Recompute? && c.scope == TeamScope(call.team))
  {
    match call
    case Settle(key, u) =>
      var k := AddOps(KeyScope(key), Amounts(u), |KINDS|);
      AddOpsSet(KeyScope(key), Amounts(u), |KINDS|, c);
      if r.teamOf(key).Some? {
        AddOpsSet(TeamScope(r.teamOf(key).value), Amounts(u), |KINDS|, c);
        HasSetAppend(k, AddOps(TeamScope(r.teamOf(key).value), Amounts(u), |KINDS|), c);
      } else {
        assert k + [] == k;
      }
      SetByIs(Program(r, s, call), c, v, v);
    case ClearKey(key, refund) => ClearOpsSet(key, refund, c, v);
    case ResetTeam(team) => ResetTeamSets(r, s, team, c, v);
    case Recompute(team) => RecomputeSets(r, s, team, c, v);
    case ClearAll =>
      SetByValue([Forget, Unmark], c, v, 0);
      assert SetsCell([Forget, Unmark][0], c);
  }

  /** How the start of a call moves where a counter is headed. */
  lemma StartHeading(r: Roster, s: Accounts, call: Call, c: Cell)
    ensures Heading(Begin(r, s, call), c) ==
            Pending(s.tasks, c) +
            (if Resets(r, call, c.scope) then 0
             else if call.Recompute? && c.scope == TeamScope(call.team)
             then SumRows(s.db, r.membersOf(call.team), c.kind)
             else Base(s, c)) +
            (if call.Settle? && Charges(r, call.key, c.scope) then Amount(call.usage, c.kind) else 0)
  {
    BeginHeading(r, s, call, c);
    ProgramSets(r, s, call, c, Base(s, c));
    ProgramDeltas(r, s, call, c);
  }

  lemma IdleHeading(s: Accounts, c: Cell)
    requires Idle(s)
    ensures Heading(s, c) == Read(s.mem.book, c)
  {
    IdlePendsNothing(s.tasks, c);
    assert !Doomed(s.tasks, c);
    SetByAllIs(s.tasks, c, Read(s.mem.book, c), 0);
  }
}
