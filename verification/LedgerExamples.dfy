/**
 The ledger's calls against what one of them does alone, and runs in which interleaved calls
 lose a total, tear a cost from its parts or part a team from its members.
 */
module LedgerExamples {

  import opened Wrappers
  import opened Ledger
  import opened LedgerSteps
  import opened LedgerCoherence
  import opened LedgerRuns

  // ----- a list of updates on its own

  /** Memory after a list of updates. */
  function Mems(m: Memory, ops: seq<Op>): Memory {
    if ops == [] then m else OnMemory(Mems(m, ops[..|ops| - 1]), ops[|ops| - 1])
  }

  /** The rows after a list of updates. */
  function Rows(db: Book, ops: seq<Op>): Book {
    if ops == [] then db else OnRows(Rows(db, ops[..|ops| - 1]), ops[|ops| - 1])
  }

  /** No refunds come of these updates. */
  predicate Plain(ops: seq<Op>) { forall i :: 0 <= i < |ops| ==> !(ops[i].Zero? && ops[i].refund.Some?) }

  predicate NoStatement(ops: seq<Op>) { forall i :: 0 <= i < |ops| ==> !IsStatement(ops[i]) }

  lemma {:induction false} EffectsAppend(m: Memory, db: Book, a: seq<Op>, b: seq<Op>)
    ensures Mems(m, a + b) == Mems(Mems(m, a), b)
    ensures Rows(db, a + b) == Rows(Rows(db, a), b)
    decreases |b|
  {
    if b == [] {
      assert a + b == a;
    } else {
      assert (a + b)[..|a + b| - 1] == a + b[..|b| - 1];
      EffectsAppend(m, db, a, b[..|b| - 1]);
    }
  }

  lemma EffectsOne(m: Memory, db: Book, a: Op)
    ensures Mems(m, [a]) == OnMemory(m, a) && Rows(db, [a]) == OnRows(db, a)
  {
    assert [a][..0] == [];
  }

  lemma MemsPair(m: Memory, a: Op, b: Op)
    ensures Mems(m, [a, b]) == OnMemory(OnMemory(m, a), b)
  {
    assert [a, b][..1] == [a] && [a][..0] == [];
    assert Mems(m, [a]) == OnMemory(m, a);
  }

  lemma {:induction false} NoStatementNoRows(db: Book, ops: seq<Op>)
    requires NoStatement(ops)
    ensures Rows(db, ops) == db
    decreases |ops|
  {
    if ops != [] {
      NoStatementNoRows(db, ops[..|ops| - 1]);
      assert !IsStatement(ops[|ops| - 1]);
    }
  }

  /** The six updates and marks of a settlement, undisturbed, are the limiter's settlement. */
  lemma {:induction false} AddsAlone(m: Memory, scope: Scope, amount: Kind -> int, n: nat)
    requires n <= |KINDS|
    ensures Mems(m, AddOps(scope, amount, n)) == AddKinds(m, scope, amount, n)
  {
    if n > 0 {
      AddsAlone(m, scope, amount, n - 1);
      var c, d := Cell(scope, KINDS[n - 1]), amount(KINDS[n - 1]);
      EffectsAppend(m, map[], AddOps(scope, amount, n - 1), AddOp(c, d));
      AddOpAlone(AddKinds(m, scope, amount, n - 1), c, d);
    }
  }

  lemma {:induction false} AddsArePlain(scope: Scope, amount: Kind -> int, n: nat)
    requires n <= |KINDS|
    ensures Plain(AddOps(scope, amount, n)) && NoStatement(AddOps(scope, amount, n))
  {
    if n > 0 { AddsArePlain(scope, amount, n - 1); }
  }

  lemma AddOpAlone(m: Memory, c: Cell, d: int)
    ensures Mems(m, AddOp(c, d)) == Add(m, c, d)
  {
    if d != 0 { MemsPair(m, Bump(c, d), Mark(c)); }
  }

  /** The six updates and marks of a reset, undisturbed, are the limiter's reset. */
  lemma {:induction false} ResetsAlone(m: Memory, scope: Scope, n: nat)
    requires n <= |KINDS|
    ensures Mems(m, ZeroOps(scope, None, n)) == ResetKinds(m, scope, n)
  {
    if n > 0 {
      ResetsAlone(m, scope, n - 1);
      var c := Cell(scope, KINDS[n - 1]);
      EffectsAppend(m, map[], ZeroOps(scope, None, n - 1), [Zero(c, None), Mark(c)]);
      MemsPair(ResetKinds(m, scope, n - 1), Zero(c, None), Mark(c));
    }
  }

  lemma {:induction false} ResetsArePlain(scope: Scope, n: nat)
    requires n <= |KINDS|
    ensures Plain(ZeroOps(scope, None, n)) && NoStatement(ZeroOps(scope, None, n))
  {
    if n > 0 { ResetsArePlain(scope, n - 1); }
  }

  lemma PutReads(m: Memory, x: Cell, v: int, c: Cell)
    ensures Read(Mems(m, [Put(x, v), Mark(x)]).book, c) == if c == x then v else Read(m.book, c)
  {
    MemsPair(m, Put(x, v), Mark(x));
  }

  lemma StoreReads(m: Memory, db: Book, x: Cell, v: int, c: Cell)
    ensures Read(Rows(db, [Store(x, v)]), c) == if c == x then v else Read(db, c)
    ensures Mems(m, [Store(x, v)]) == m
  {
    EffectsOne(m, db, Store(x, v));
  }

  lemma SameKind(i: nat, j: nat)
    requires i < |KINDS| && j < |KINDS|
    ensures KINDS[i] == KINDS[j] <==> i == j
  {
    if i < j { KindsDistinct(i, j); }
    if j < i { KindsDistinct(j, i); }
  }

  lemma {:induction false} PutsAlone(m: Memory, scope: Scope, value: Kind -> int, n: nat, i: nat, c: Cell)
    requires n <= |KINDS| && i < |KINDS| && c.kind == KINDS[i]
    ensures Read(Mems(m, PutOps(scope, value, n)).book, c) ==
            if c.scope == scope && i < n then value(c.kind) else Read(m.book, c)
    decreases n
  {
    if n > 0 {
      var x, v, put := Cell(scope, KINDS[n - 1]), value(KINDS[n - 1]), PutOps(scope, value, n - 1);
      PutsAlone(m, scope, value, n - 1, i, c);
      EffectsAppend(m, map[], put, [Put(x, v), Mark(x)]);
      PutReads(Mems(m, put), x, v, c);
      SameKind(i, n - 1);
    }
  }

  lemma {:induction false} StoresAlone(m: Memory, db: Book, scope: Scope, value: Kind -> int, n: nat, i: nat, c: Cell)
    requires n <= |KINDS| && i < |KINDS| && c.kind == KINDS[i]
    ensures Read(Rows(db, StoreOps(scope, value, n)), c) ==
            if c.scope == scope && i < n then value(c.kind) else Read(db, c)
    ensures Mems(m, StoreOps(scope, value, n)) == m
    decreases n
  {
    if n > 0 {
      var x, v, store := Cell(scope, KINDS[n - 1]), value(KINDS[n - 1]), StoreOps(scope, value, n - 1);
      StoresAlone(m, db, scope, value, n - 1, i, c);
      EffectsAppend(m, db, store, [Store(x, v)]);
      StoreReads(m, Rows(db, store), x, v, c);
      SameKind(i, n - 1);
    }
  }

  lemma {:induction false} PutsArePlain(scope: Scope, value: Kind -> int, n: nat)
    requires n <= |KINDS|
    ensures Plain(PutOps(scope, value, n)) && Plain(StoreOps(scope, value, n)) && NoStatement(PutOps(scope, value, n))
  {
    if n > 0 { PutsArePlain(scope, value, n - 1); }
  }

  /** What a recomputation does alone. */
  lemma RecomputeAlone(r: Roster, s: Accounts, m: Memory, team: string, c: Cell)
    ensures var ops := Program(r, s, Recompute(team));
            && Plain(ops)
            && Read(Mems(m, ops).book, c) ==
                (if c.scope == TeamScope(team) then SumRows(s.db, r.membersOf(team), c.kind) else Read(m.book, c))
            && Read(Rows(s.db, ops), c) ==
                (if c.scope == TeamScope(team) then SumRows(s.db, r.membersOf(team), c.kind) else Read(s.db, c))
  {
    var value := RowSums(s.db, r.membersOf(team));
    var i := KindIndex(c.kind);
    var puts, stores := PutOps(TeamScope(team), value, |KINDS|), StoreOps(TeamScope(team), value, |KINDS|);
    PutsAlone(m, TeamScope(team), value, |KINDS|, i, c);
    PutsArePlain(TeamScope(team), value, |KINDS|);
    NoStatementNoRows(s.db, puts);
    StoresAlone(Mems(m, puts), s.db, TeamScope(team), value, |KINDS|, i, c);
    EffectsAppend(m, s.db, puts, stores);
  }

  /** What a settlement does alone. */
  lemma SettleAlone(r: Roster, s: Accounts, key: string, u: Usage)
    ensures var ops := Program(r, s, Settle(key, u));
            && Plain(ops) && Rows(s.db, ops) == s.db
            && Mems(s.mem, ops) == (var m := AddUsage(s.mem, KeyScope(key), u);
                                    if r.teamOf(key).Some? then AddUsage(m, TeamScope(r.teamOf(key).value), u) else m)
  {
    var k := AddOps(KeyScope(key), Amounts(u), |KINDS|);
    AddsAlone(s.mem, KeyScope(key), Amounts(u), |KINDS|);
    AddsArePlain(KeyScope(key), Amounts(u), |KINDS|);
    NoStatementNoRows(s.db, k);
    if r.teamOf(key).Some? {
      var t := AddOps(TeamScope(r.teamOf(key).value), Amounts(u), |KINDS|);
      AddsAlone(AddUsage(s.mem, KeyScope(key), u), TeamScope(r.teamOf(key).value), Amounts(u), |KINDS|);
      AddsArePlain(TeamScope(r.teamOf(key).value), Amounts(u), |KINDS|);
      EffectsAppend(s.mem, s.db, k, t);
      NoStatementNoRows(s.db, t);
    } else {
      assert k + [] == k;
    }
  }

  lemma {:induction false} FinishPlain(s: Accounts, i: nat, ops: seq<Op>)
    requires i < |s.tasks| && s.tasks[i] == ops && Plain(ops)
    ensures Finish(s, i).mem == Mems(s.mem, ops) && Finish(s, i).db == Rows(s.db, ops)
    decreases |ops|
  {
    if ops != [] {
      var p := Perform(s, i);
      assert p.tasks[i] == ops[1..];
      FinishPlain(p, i, ops[1..]);
      assert ops == [ops[0]] + ops[1..];
      EffectsAppend(s.mem, s.db, [ops[0]], ops[1..]);
      EffectsOne(s.mem, s.db, ops[0]);
    }
  }

  /** An undisturbed recomputation leaves the sums it read in memory and in the database at once. */
  lemma RecomputeIsStored(r: Roster, s: Accounts, team: string, kind: Kind)
    ensures var e, c := WholeCall(r, s, Recompute(team)), Cell(TeamScope(team), kind);
            Read(e.db, c) == Read(e.mem.book, c) == SumRows(s.db, r.membersOf(team), kind)
  {
    RecomputeAlone(r, s, s.mem, team, Cell(TeamScope(team), kind));
    FinishPlain(Begin(r, s, Recompute(team)), |s.tasks|, Program(r, s, Recompute(team)));
  }

  // ----- building runs

  lemma ExecSnoc(r: Roster, steps: seq<Step>, x: Step)
    ensures Exec(r, steps + [x]) == Apply(r, Exec(r, steps), x)
  {
    assert (steps + [x])[..|steps|] == steps;
  }

  /** Call number `i` makes its next updates. */
  lemma {:induction false} Go(r: Roster, front: seq<Step>, i: nat, a: seq<Op>, b: seq<Op>) returns (steps: seq<Step>)
    requires var s := Exec(r, front); i < |s.tasks| && s.tasks[i] == a + b
    requires Plain(a)
    ensures var s, e := Exec(r, front), Exec(r, steps);
            e == s.(mem := Mems(s.mem, a), db := Rows(s.db, a), tasks := s.tasks[i := b], taken := e.taken)
    ensures Serial(r, front) ==> Serial(r, steps)
    decreases |a|
  {
    var s := Exec(r, front);
    if a == [] {
      steps := front;
      assert a + b == b;
      assert s.tasks[i := b] == s.tasks;
    } else {
      assert (a + b)[1..] == a[1..] + b;
      var next := front + [Advance(i)];
      ExecSnoc(r, front, Advance(i));
      assert next[..|front|] == front;
      var p := Exec(r, next);
      assert p.tasks[i] == a[1..] + b;
      steps := Go(r, next, i, a[1..], b);
      assert a == [a[0]] + a[1..];
      EffectsAppend(s.mem, s.db, [a[0]], a[1..]);
      EffectsOne(s.mem, s.db, a[0]);
      assert p.tasks[i := b] == s.tasks[i := b];
    }
  }

  lemma Open(r: Roster, front: seq<Step>, call: Call) returns (steps: seq<Step>)
    ensures Exec(r, steps) == Begin(r, Exec(r, front), call)
    ensures Serial(r, front) && Idle(Exec(r, front)) ==> Serial(r, steps)
  {
    steps := front + [Start(call)];
    ExecSnoc(r, front, Start(call));
    assert steps[..|front|] == front;
  }

  /** A whole call, with nothing in between. */
  lemma Through(r: Roster, front: seq<Step>, call: Call) returns (steps: seq<Step>)
    requires Plain(Program(r, Exec(r, front), call))
    ensures var s, e := Exec(r, front), Exec(r, steps);
            var ops := Program(r, s, call);
            e == s.(mem := Mems(s.mem, ops), db := Rows(s.db, ops), tasks := s.tasks + [[]], charged := e.charged,
                taken := e.taken)
    ensures Serial(r, front) && Idle(Exec(r, front)) ==> Serial(r, steps)
  {
    var s := Exec(r, front);
    var ops := Program(r, s, call);
    var mid := Open(r, front, call);
    assert ops + [] == ops;
    steps := Go(r, mid, |s.tasks|, ops, []);
    assert Begin(r, s, call).tasks[|s.tasks| := []] == s.tasks + [[]];
  }

  /** A settlement from start to end. */
  lemma ThroughSettle(r: Roster, front: seq<Step>, key: string, u: Usage) returns (steps: seq<Step>)
    ensures var s, e := Exec(r, front), Exec(r, steps);
            var m := AddUsage(s.mem, KeyScope(key), u);
            e == s.(mem := if r.teamOf(key).Some? then AddUsage(m, TeamScope(r.teamOf(key).value), u) else m,
                    tasks := s.tasks + [[]], charged := e.charged, taken := e.taken)
    ensures Serial(r, front) && Idle(Exec(r, front)) ==> Serial(r, steps)
  {
    SettleAlone(r, Exec(r, front), key, u);
    steps := Through(r, front, Settle(key, u));
  }

  /** One output token. */
  const TOKEN := Usage(0, 1, 0, 0, 0)

  /** One regular input cost. */
  const COST := Usage(0, 0, 1, 0, 0)

  // ----- a deletion that comes too late

  /** A clear resets memory; a settlement comes; a sync writes its row; then the clear's deletion
      reaches the database. Memory holds one token, the row is gone, and nothing will write it. */
  lemma LateDeletionLosesSettlement(r: Roster, key: string) returns (steps: seq<Step>)
    requires r.teamOf(key).None?
    ensures var s, c := Exec(r, steps), Cell(KeyScope(key), OutputTokens);
            Idle(s) && Read(s.mem.book, c) == 1 && c !in s.db && !Tracked(s, c)
  {
    var scope := KeyScope(key);
    var c := Cell(scope, OutputTokens);
    var zero := ZeroOps(scope, None, |KINDS|);
    ResetsAlone(START.mem, scope, |KINDS|);
    ResetsArePlain(scope, |KINDS|);
    NoStatementNoRows(START.db, zero);
    steps := Open(r, [], ClearKey(key, None));
    steps := Go(r, steps, 0, zero, [Erase(scope)]);
    var m := Exec(r, steps).mem;
    steps := ThroughSettle(r, steps, key, TOKEN);
    ResetAllReads(START.mem, scope, c);
    AddAllReads(m, scope, Amounts(TOKEN), c);
    var s := Exec(r, steps);
    assert s.tasks == [[Erase(scope)], []];
    LateDeletion(r, s, scope, c);
    ExecSnoc(r, steps, SyncBegin);
    ExecSnoc(r, steps + [SyncBegin], SyncRead(c));
    ExecSnoc(r, steps + [SyncBegin] + [SyncRead(c)], SyncWrite);
    ExecSnoc(r, steps + [SyncBegin] + [SyncRead(c)] + [SyncWrite], Advance(0));
    steps := steps + [SyncBegin] + [SyncRead(c)] + [SyncWrite] + [Advance(0)];
  }

  lemma LateDeletion(r: Roster, s: Accounts, scope: Scope, c: Cell)
    requires s.tasks == [[Erase(scope)], []] && s.work == {} && s.flight.None? && c.scope == scope
    requires c in s.mem.dirty && Read(s.mem.book, c) == 1
    ensures var e := Apply(r, Apply(r, Apply(r, Apply(r, s, SyncBegin), SyncRead(c)), SyncWrite), Advance(0));
            Idle(e) && Read(e.mem.book, c) == 1 && c !in e.db && !Tracked(e, c)
  {
    var w := Apply(r, Apply(r, Apply(r, s, SyncBegin), SyncRead(c)), SyncWrite);
    assert w.tasks == s.tasks && c !in w.work && c !in w.mem.dirty && w.flight.None?;
    var e := Perform(w, 0);
    assert w.tasks[0][1..] + [] == [];
    assert e.tasks == [[], []];
  }

  /** A sync that is cut off has already taken the dirty set: the row it did not get to stays behind
      until the total is changed again. */
  lemma CutOffSyncLosesSettlement(r: Roster, key: string) returns (steps: seq<Step>)
    requires r.teamOf(key).None?
    ensures var s, c := Exec(r, steps), Cell(KeyScope(key), OutputTokens);
            Serial(r, steps) && Idle(s) && Read(s.mem.book, c) == 1 && c !in s.db && !Tracked(s, c)
  {
    var c := Cell(KeyScope(key), OutputTokens);
    var front := ThroughSettle(r, [], key, TOKEN);
    AddAllReads(START.mem, KeyScope(key), Amounts(TOKEN), c);
    var begun := front + [SyncBegin];
    steps := begun + [SyncAbort];
    ExecSnoc(r, front, SyncBegin);
    ExecSnoc(r, begun, SyncAbort);
    assert begun[..|front|] == front && steps[..|begun|] == begun;
  }

  // ----- costs torn from their parts

  /** A settlement has added a total cost but not yet its parts when an undisturbed clear of the
      key runs: from then on the key's parts exceed its total for good. */
  lemma ResetInsideSettlementTearsCost(r: Roster, key: string) returns (steps: seq<Step>)
    requires r.teamOf(key).None?
    ensures Idle(Exec(r, steps)) && Gap(Exec(r, steps).mem.book, KeyScope(key)) == -1
  {
    var scope := KeyScope(key);
    var t, p := Cell(scope, TotalCost), Cell(scope, RegularInput);
    CostProgram(r, key);
    steps := Open(r, [], Settle(key, COST));
    steps := Go(r, steps, 0, [Bump(t, 1), Mark(t)], [Bump(p, 1), Mark(p)]);
    var m := Exec(r, steps).mem;
    ClearAlone(r, Exec(r, steps), key);
    steps := Through(r, steps, ClearKey(key, None));
    assert [Bump(p, 1), Mark(p)] + [] == [Bump(p, 1), Mark(p)];
    steps := Go(r, steps, 0, [Bump(p, 1), Mark(p)], []);
    assert Exec(r, steps).tasks == [[], []];
    MemsPair(ResetAll(m, scope), Bump(p, 1), Mark(p));
    forall kind: Kind
      ensures Read(Exec(r, steps).mem.book, Cell(scope, kind)) == if kind == RegularInput then 1 else 0
    {
      ResetAllReads(m, scope, Cell(scope, kind));
    }
  }

  lemma ClearAlone(r: Roster, s: Accounts, key: string)
    ensures var ops := Program(r, s, ClearKey(key, None));
            Plain(ops) && Mems(s.mem, ops) == ResetAll(s.mem, KeyScope(key))
  {
    var zero := ZeroOps(KeyScope(key), None, |KINDS|);
    ResetsAlone(s.mem, KeyScope(key), |KINDS|);
    ResetsArePlain(KeyScope(key), |KINDS|);
    EffectsAppend(s.mem, s.db, zero, [Erase(KeyScope(key))]);
    EffectsOne(ResetAll(s.mem, KeyScope(key)), s.db, Erase(KeyScope(key)));
  }

  lemma CostProgram(r: Roster, key: string)
    requires r.teamOf(key).None?
    ensures var t, p := Cell(KeyScope(key), TotalCost), Cell(KeyScope(key), RegularInput);
            Program(r, START, Settle(key, COST)) == [Bump(t, 1), Mark(t)] + [Bump(p, 1), Mark(p)]
  {
    var amount := Amounts(COST);
    var scope := KeyScope(key);
    assert AddOps(scope, amount, 1) == [];
    assert AddOps(scope, amount, 2) == [];
    assert AddOps(scope, amount, 3) == [Bump(Cell(scope, TotalCost), 1), Mark(Cell(scope, TotalCost))];
    assert AddOps(scope, amount, 5) == AddOps(scope, amount, 4);
  }

  /** The zeroings of a reset from kind number `n` on. */
  function ZeroRest(scope: Scope, n: nat): seq<Op>
    requires n <= |KINDS|
    decreases |KINDS| - n
  {
    if n == |KINDS| then []
    else [Zero(Cell(scope, KINDS[n]), None), Mark(Cell(scope, KINDS[n]))] + ZeroRest(scope, n + 1)
  }

  lemma {:induction false} ZeroOpsSplit(scope: Scope, n: nat)
    requires n <= |KINDS|
    ensures ZeroOps(scope, None, |KINDS|) == ZeroOps(scope, None, n) + ZeroRest(scope, n)
    decreases |KINDS| - n
  {
    if n < |KINDS| { ZeroOpsSplit(scope, n + 1); }
  }

  lemma ZeroReads(m: Memory, x: Cell, c: Cell)
    ensures Read(Mems(m, [Zero(x, None), Mark(x)]).book, c) == if c == x then 0 else Read(m.book, c)
  {
    MemsPair(m, Zero(x, None), Mark(x));
  }

  lemma {:induction false} ZeroRestReads(m: Memory, scope: Scope, n: nat, i: nat, c: Cell)
    requires n <= |KINDS| && i < |KINDS| && c == Cell(scope, KINDS[i])
    ensures Plain(ZeroRest(scope, n))
    ensures Read(Mems(m, ZeroRest(scope, n)).book, c) == if n <= i then 0 else Read(m.book, c)
    decreases |KINDS| - n
  {
    if n < |KINDS| {
      var x := Cell(scope, KINDS[n]);
      var pair := [Zero(x, None), Mark(x)];
      EffectsAppend(m, map[], pair, ZeroRest(scope, n + 1));
      ZeroReads(m, x, c);
      ZeroRestReads(Mems(m, pair), scope, n + 1, i, c);
      SameKind(i, n);
    }
  }

  /** A settlement that starts and ends between two zeroings of one clear: its total cost stays, its
      parts are zeroed, although no settlement was ever half done when a call started. */
  lemma SettlementInsideResetTearsCost(r: Roster, key: string) returns (steps: seq<Step>)
    requires r.teamOf(key).None?
    ensures Idle(Exec(r, steps)) && Gap(Exec(r, steps).mem.book, KeyScope(key)) == 1
  {
    var scope := KeyScope(key);
    var rest := ZeroRest(scope, 3) + [Erase(scope)];
    steps := HalfClear(r, key);
    steps := ThroughSettle(r, steps, key, COST);
    var m := Exec(r, steps).mem;
    forall i: nat | i < |KINDS|
      ensures Read(Mems(m, rest).book, Cell(scope, KINDS[i])) == if 3 <= i then 0 else Amount(COST, KINDS[i])
      ensures Plain(rest)
    {
      TornTotals(m, key, i);
    }
    assert KINDS[2] == TotalCost && KINDS[3] == RegularInput && KINDS[4] == CachedInput && KINDS[5] == OutputCost;
    assert rest + [] == rest;
    steps := Go(r, steps, 0, rest, []);
    assert Exec(r, steps).tasks == [[], []];
  }

  lemma HalfClear(r: Roster, key: string) returns (steps: seq<Step>)
    ensures Exec(r, steps).tasks == [ZeroRest(KeyScope(key), 3) + [Erase(KeyScope(key))]]
    ensures Exec(r, steps).mem == ResetKinds(START.mem, KeyScope(key), 3)
  {
    var scope := KeyScope(key);
    var first, rest := ZeroOps(scope, None, 3), ZeroRest(scope, 3) + [Erase(scope)];
    ZeroOpsSplit(scope, 3);
    ResetsAlone(START.mem, scope, 3);
    ResetsArePlain(scope, 3);
    steps := Open(r, [], ClearKey(key, None));
    assert ClearOps(key, None) == first + rest;
    steps := Go(r, steps, 0, first, rest);
  }

  lemma TornTotals(m: Memory, key: string, i: nat)
    requires m == AddUsage(ResetKinds(START.mem, KeyScope(key), 3), KeyScope(key), COST) && i < |KINDS|
    ensures var rest := ZeroRest(KeyScope(key), 3) + [Erase(KeyScope(key))];
            && Plain(rest)
            && Read(Mems(m, rest).book, Cell(KeyScope(key), KINDS[i])) == if 3 <= i then 0 else Amount(COST, KINDS[i])
  {
    var scope := KeyScope(key);
    var c := Cell(scope, KINDS[i]);
    ResetKindsReads(START.mem, scope, 3, i, c);
    AddAllReads(ResetKinds(START.mem, scope, 3), scope, Amounts(COST), c);
    ZeroRestReads(m, scope, 3, i, c);
    EffectsAppend(m, map[], ZeroRest(scope, 3), [Erase(scope)]);
    EffectsOne(Mems(m, ZeroRest(scope, 3)), map[], Erase(scope));
  }

  /** A sync has written a member's total cost but not yet its parts when the team is recomputed:
      the team's total is torn from its parts, although calls came one at a time. */
  lemma RecomputeDuringSyncTearsCost(r: Roster, key: string, team: string) returns (steps: seq<Step>)
    requires RosterOk(r) && r.membersOf(team) == [key]
    ensures Serial(r, steps) && Idle(Exec(r, steps)) && Gap(Exec(r, steps).mem.book, TeamScope(team)) == 1
  {
    var c := Cell(KeyScope(key), TotalCost);
    assert key in r.membersOf(team);
    steps := ThroughSettle(r, [], key, COST);
    var m := AddUsage(START.mem, KeyScope(key), COST);
    AddAllReads(START.mem, KeyScope(key), Amounts(COST), c);
    AddAllReads(m, TeamScope(team), Amounts(COST), c);
    steps := HalfSync(r, steps, c);
    var s := Exec(r, steps);
    OneRow(s.db, key);
    forall kind: Kind ensures Plain(Program(r, s, Recompute(team)))
      ensures Read(Mems(s.mem, Program(r, s, Recompute(team))).book, Cell(TeamScope(team), kind)) ==
              SumRows(s.db, [key], kind)
    {
      RecomputeAlone(r, s, s.mem, team, Cell(TeamScope(team), kind));
    }
    steps := Through(r, steps, Recompute(team));
  }

  lemma HalfSync(r: Roster, front: seq<Step>, c: Cell) returns (steps: seq<Step>)
    requires var s := Exec(r, front); c in s.mem.dirty && s.work == {} && s.flight.None?
    requires Serial(r, front)
    ensures var s, e := Exec(r, front), Exec(r, steps);
            e.db == s.db[c := Read(s.mem.book, c)] && e.tasks == s.tasks && e.mem.book == s.mem.book
    ensures Serial(r, steps)
  {
    var a, b := front + [SyncBegin], front + [SyncBegin] + [SyncRead(c)];
    steps := b + [SyncWrite];
    ExecSnoc(r, front, SyncBegin);
    ExecSnoc(r, a, SyncRead(c));
    ExecSnoc(r, b, SyncWrite);
    assert a[..|front|] == front && b[..|a|] == a && steps[..|b|] == b;
  }

  lemma OneRow(db: Book, key: string)
    requires db == map[Cell(KeyScope(key), TotalCost) := 1]
    ensures forall kind: Kind :: SumRows(db, [key], kind) == if kind == TotalCost then 1 else 0
  {
    assert [key][1..] == [];
    forall kind: Kind ensures SumRows(db, [key], kind) == if kind == TotalCost then 1 else 0 {
      assert SumRows(db, [], kind) == 0;
    }
  }

  // ----- teams parted from their members

  /** A team reset has zeroed the team when a member settles, before the cascade reaches it: the team
      keeps the token, the member loses it. Nothing was owed to the team when the reset started. */
  lemma SettlementDuringTeamResetParts(r: Roster, key: string, team: string) returns (steps: seq<Step>)
    requires RosterOk(r) && r.membersOf(team) == [key]
    ensures var s := Exec(r, steps);
            Idle(s) && Read(s.mem.book, Cell(TeamScope(team), OutputTokens)) == 1
                && Read(s.mem.book, Cell(KeyScope(key), OutputTokens)) == 0
  {
    assert key in r.membersOf(team);
    steps := HalfReset(r, key, team);
    steps := ThroughSettle(r, steps, key, TOKEN);
    steps := LastClear(r, steps, key);
    PartedTotals(START.mem, key, team);
  }

  lemma LastClear(r: Roster, front: seq<Step>, key: string) returns (steps: seq<Step>)
    requires Exec(r, front).tasks == [ClearOps(key, None), []]
    ensures Exec(r, steps).tasks == [[], []] && Exec(r, steps).mem == ResetAll(Exec(r, front).mem, KeyScope(key))
  {
    var each := ClearOps(key, None);
    ClearAlone(r, Exec(r, front), key);
    assert each + [] == each;
    steps := Go(r, front, 0, each, []);
  }

  lemma HalfReset(r: Roster, key: string, team: string) returns (steps: seq<Step>)
    requires r.membersOf(team) == [key]
    ensures Exec(r, steps).tasks == [ClearOps(key, None)] && Exec(r, steps).mem == ResetAll(START.mem, TeamScope(team))
  {
    var first := [Erase(TeamScope(team))] + ZeroOps(TeamScope(team), None, |KINDS|);
    EachOfOne(key);
    TeamResetAlone(START.mem, START.db, team);
    steps := Open(r, [], ResetTeam(team));
    steps := Go(r, steps, 0, first, ClearOps(key, None));
  }

  lemma TeamResetAlone(m: Memory, db: Book, team: string)
    ensures var ops := [Erase(TeamScope(team))] + ZeroOps(TeamScope(team), None, |KINDS|);
            Plain(ops) && Mems(m, ops) == ResetAll(m, TeamScope(team))
  {
    ResetsAlone(m, TeamScope(team), |KINDS|);
    ResetsArePlain(TeamScope(team), |KINDS|);
    EffectsAppend(m, db, [Erase(TeamScope(team))], ZeroOps(TeamScope(team), None, |KINDS|));
    EffectsOne(m, db, Erase(TeamScope(team)));
  }

  lemma PartedTotals(m: Memory, key: string, team: string)
    ensures var a := AddUsage(AddUsage(ResetAll(m, TeamScope(team)), KeyScope(key), TOKEN), TeamScope(team), TOKEN);
            var e := ResetAll(a, KeyScope(key));
            Read(e.book, Cell(TeamScope(team), OutputTokens)) == 1
                && Read(e.book, Cell(KeyScope(key), OutputTokens)) == 0
  {
    var k, t := Cell(KeyScope(key), OutputTokens), Cell(TeamScope(team), OutputTokens);
    var x := ResetAll(m, TeamScope(team));
    var y := AddUsage(x, KeyScope(key), TOKEN);
    var z := AddUsage(y, TeamScope(team), TOKEN);
    ResetAllReads(m, TeamScope(team), t);
    AddAllReads(x, KeyScope(key), Amounts(TOKEN), t);
    AddAllReads(y, TeamScope(team), Amounts(TOKEN), t);
    ResetAllReads(z, KeyScope(key), k);
    ResetAllReads(z, KeyScope(key), t);
  }

  lemma EachOfOne(key: string)
    ensures ClearEach([key]) == ClearOps(key, None)
  {
    assert [key][..0] == [];
    assert ClearEach([]) == [];
    assert [] + ClearOps(key, None) == ClearOps(key, None);
  }

  /** A recomputation has read the rows when a member settles, before its overwrites: the member
      keeps the token, the team loses it, although the rows read were up to date. */
  lemma SettlementDuringRecomputeParts(r: Roster, key: string, team: string) returns (steps: seq<Step>)
    requires RosterOk(r) && r.membersOf(team) == [key]
    ensures var s := Exec(r, steps);
            Idle(s) && Read(s.mem.book, Cell(TeamScope(team), OutputTokens)) == 0
                && Read(s.mem.book, Cell(KeyScope(key), OutputTokens)) == 1
  {
    var k, t := Cell(KeyScope(key), OutputTokens), Cell(TeamScope(team), OutputTokens);
    assert key in r.membersOf(team);
    var ops := Program(r, START, Recompute(team));
    steps := Open(r, [], Recompute(team));
    steps := ThroughSettle(r, steps, key, TOKEN);
    AddAllReads(START.mem, KeyScope(key), Amounts(TOKEN), k);
    AddAllReads(AddUsage(START.mem, KeyScope(key), TOKEN), TeamScope(team), Amounts(TOKEN), k);
    var m := Exec(r, steps).mem;
    RecomputeAlone(r, START, m, team, k);
    RecomputeAlone(r, START, m, team, t);
    assert [key][1..] == [] && SumRows(START.db, [], OutputTokens) == 0;
    assert ops + [] == ops;
    steps := Go(r, steps, 0, ops, []);
    assert Exec(r, steps).tasks == [[], []];
  }
}
