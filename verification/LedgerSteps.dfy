/**
 The ledger as its callers really interleave: every call is a list of single updates, each
 on one counter, one dirty mark or one statement to the database, and other calls and the
 background sync may run between any two of them.
 */
module LedgerSteps {

  import opened Wrappers
  import opened Ledger

  /** Fixed team membership. */
  datatype Roster = Roster(teamOf: string -> Option<string>, membersOf: string -> seq<string>)

  ghost predicate Distinct(keys: seq<string>) {
    forall i, j :: 0 <= i < j < |keys| ==> keys[i] != keys[j]
  }

  ghost predicate RosterOk(r: Roster) {
    && (forall t :: Distinct(r.membersOf(t)))
    && (forall t, k :: k in r.membersOf(t) <==> r.teamOf(k) == Some(t))
  }

  /** One atomic update. A counter is changed first and marked dirty afterwards. */
  datatype Op =
    | Bump(cell: Cell, delta: int)
    | Zero(cell: Cell, refund: Option<string>)
    | Put(cell: Cell, value: int)
    | Mark(cell: Cell)
    | Erase(scope: Scope)
    | Store(cell: Cell, value: int)
    | Forget
    | Unmark

  /** What callers ask for. `ClearKey` without a refund is also what wiping a key does to its
      totals, and `ResetTeam` what both team resets do to them. */
  datatype Call =
    | Settle(key: string, usage: Usage)
    | ClearKey(key: string, refund: Option<string>)
    | ResetTeam(team: string)
    | Recompute(team: string)
    | ClearAll

  datatype Row = Row(cell: Cell, value: int)

  /** `work` and `flight` are the rows a running sync still has to read, and the one it has read
      but not yet written; `tasks` what is left to do of every call. The last two fields only
      serve the statements: all amounts ever to be added to a counter, and all amounts removed
      from it by resets and overwrites. */
  datatype Accounts = Accounts(
    mem: Memory, db: Book, work: set<Cell>, flight: Option<Row>, tasks: seq<seq<Op>>,
    charged: Book, taken: Book)

  const START := Accounts(Memory(map[], {}), map[], {}, None, [], map[], map[])

  // ----- one update

  function OnMemory(m: Memory, op: Op): Memory {
    match op
    case Bump(c, delta) => m.(book := m.book[c := Read(m.book, c) + delta])
    case Zero(c, _) => m.(book := if c in m.book then m.book[c := 0] else m.book)
    case Put(c, value) => m.(book := m.book[c := value])
    case Mark(c) => m.(dirty := m.dirty + {c})
    case Forget => m.(book := map[])
    case Unmark => m.(dirty := {})
    case _ => m
  }

  function OnRows(db: Book, op: Op): Book {
    match op
    case Erase(scope) => Without(db, scope)
    case Store(c, value) => db[c := value]
    case _ => db
  }

  /** Adding nothing is skipped, mark included. */
  function AddOp(c: Cell, delta: int): seq<Op> {
    if delta == 0 then [] else [Bump(c, delta), Mark(c)]
  }

  /** What a zeroed counter will have to be taken out of, once the call gets there. */
  function Returned(m: Memory, op: Op): nat {
    if op.Zero? && op.refund.Some? then Positive(Read(m.book, op.cell)) else 0
  }

  function RefundCell(op: Op): Cell
    requires op.Zero? && op.refund.Some?
  {
    Cell(TeamScope(op.refund.value), op.cell.kind)
  }

  /** Updates a call adds to its own list as it goes: the refunds of what it zeroed. */
  function Extras(m: Memory, op: Op): seq<Op> {
    if op.Zero? && op.refund.Some? then AddOp(RefundCell(op), 0 - Returned(m, op)) else []
  }

  function Plus(b: Book, c: Cell, delta: int): Book { b[c := Read(b, c) + delta] }

  function Charge(b: Book, ops: seq<Op>): Book {
    if ops == [] then b
    else
      var rest := Charge(b, ops[1..]);
      if ops[0].Bump? then Plus(rest, ops[0].cell, ops[0].delta) else rest
  }

  /** What an update removes from a counter. */
  function Removed(m: Memory, op: Op, c: Cell): int {
    match op
    case Zero(x, _) => if x == c then Read(m.book, c) else 0
    case Put(x, value) => if x == c then Read(m.book, c) - value else 0
    case Forget => Read(m.book, c)
    case _ => 0
  }

  function Take(b: Book, m: Memory, op: Op): Book {
    match op
    case Zero(c, _) => Plus(b, c, Removed(m, op, c))
    case Put(c, _) => Plus(b, c, Removed(m, op, c))
    case Forget => map c | c in b.Keys + m.book.Keys :: Read(b, c) + Read(m.book, c)
    case _ => b
  }

  predicate Runs(s: Accounts, i: nat) { i < |s.tasks| && s.tasks[i] != [] }

  /** Call number `i` makes its next update. */
  function Perform(s: Accounts, i: nat): Accounts
    requires Runs(s, i)
  {
    var op := s.tasks[i][0];
    var more := Extras(s.mem, op);
    s.(mem := OnMemory(s.mem, op), db := OnRows(s.db, op),
       tasks := s.tasks[i := s.tasks[i][1..] + more],
       charged := Charge(s.charged, more), taken := Take(s.taken, s.mem, op))
  }

  // ----- the calls

  function AddOps(scope: Scope, amount: Kind -> int, n: nat): seq<Op>
    requires n <= |KINDS|
  {
    if n == 0 then []
    else AddOps(scope, amount, n - 1) + AddOp(Cell(scope, KINDS[n - 1]), amount(KINDS[n - 1]))
  }

  function ZeroOps(scope: Scope, refund: Option<string>, n: nat): seq<Op>
    requires n <= |KINDS|
  {
    if n == 0 then []
    else
      var c := Cell(scope, KINDS[n - 1]);
      ZeroOps(scope, refund, n - 1) + [Zero(c, refund), Mark(c)]
  }

  function PutOps(scope: Scope, value: Kind -> int, n: nat): seq<Op>
    requires n <= |KINDS|
  {
    if n == 0 then []
    else
      var c := Cell(scope, KINDS[n - 1]);
      PutOps(scope, value, n - 1) + [Put(c, value(KINDS[n - 1])), Mark(c)]
  }

  function StoreOps(scope: Scope, value: Kind -> int, n: nat): seq<Op>
    requires n <= |KINDS|
  {
    if n == 0 then []
    else StoreOps(scope, value, n - 1) + [Store(Cell(scope, KINDS[n - 1]), value(KINDS[n - 1]))]
  }

  function ClearOps(key: string, refund: Option<string>): seq<Op> {
    ZeroOps(KeyScope(key), refund, |KINDS|) + [Erase(KeyScope(key))]
  }

  function ClearEach(keys: seq<string>): seq<Op> {
    if keys == [] then [] else ClearEach(keys[..|keys| - 1]) + ClearOps(keys[|keys| - 1], None)
  }

  /** The sum a recomputation takes over database rows; negative rows count as zero. */
  function SumRows(b: Book, keys: seq<string>, kind: Kind): nat {
    if keys == [] then 0 else Positive(Read(b, Cell(KeyScope(keys[0]), kind))) + SumRows(b, keys[1..], kind)
  }

  function RowSums(b: Book, keys: seq<string>): Kind -> int {
    (kind: Kind) => SumRows(b, keys, kind) as int
  }

  /** The updates of a call. A recomputation starts with its one query. */
  function Program(r: Roster, s: Accounts, call: Call): seq<Op> {
    match call
    case Settle(key, u) =>
      AddOps(KeyScope(key), Amounts(u), |KINDS|) +
      (if r.teamOf(key).Some? then AddOps(TeamScope(r.teamOf(key).value), Amounts(u), |KINDS|) else [])
    case ClearKey(key, refund) => ClearOps(key, refund)
    case ResetTeam(team) =>
      [Erase(TeamScope(team))] + ZeroOps(TeamScope(team), None, |KINDS|) + ClearEach(r.membersOf(team))
    case Recompute(team) =>
      var value := RowSums(s.db, r.membersOf(team));
      PutOps(TeamScope(team), value, |KINDS|) + StoreOps(TeamScope(team), value, |KINDS|)
    case ClearAll => [Forget, Unmark]
  }

  function Begin(r: Roster, s: Accounts, call: Call): Accounts {
    var ops := Program(r, s, call);
    s.(tasks := s.tasks + [ops], charged := Charge(s.charged, ops))
  }

  function Weight(ops: seq<Op>): nat {
    if ops == [] then 0 else (if ops[0].Zero? then 3 else 1) + Weight(ops[1..])
  }

  lemma {:induction false} WeightAppend(a: seq<Op>, b: seq<Op>)
    ensures Weight(a + b) == Weight(a) + Weight(b)
    decreases |a|
  {
    if a == [] {
      assert a + b == b;
    } else {
      assert (a + b)[1..] == a[1..] + b;
      WeightAppend(a[1..], b);
    }
  }

  lemma ExtrasWeigh(m: Memory, op: Op, rest: seq<Op>)
    ensures Weight(rest + Extras(m, op)) < Weight([op] + rest)
  {
    var more := Extras(m, op);
    WeightAppend(rest, more);
    WeightAppend([op], rest);
    assert [op][1..] == [];
    if more != [] {
      assert more[1..] == [more[1]] && more[1..][1..] == [];
    }
  }

  /** The rest of call number `i`, with nothing in between. */
  function Finish(s: Accounts, i: nat): Accounts
    requires i < |s.tasks|
    decreases Weight(s.tasks[i])
  {
    if s.tasks[i] == [] then s
    else
      assert s.tasks[i] == [s.tasks[i][0]] + s.tasks[i][1..];
      ExtrasWeigh(s.mem, s.tasks[i][0], s.tasks[i][1..]);
      Finish(Perform(s, i), i)
  }

  /** A call from start to end, with nothing in between. */
  function WholeCall(r: Roster, s: Accounts, call: Call): Accounts {
    Finish(Begin(r, s, call), |s.tasks|)
  }

  // ----- runs

  /** A call starts, or one under way makes its next update; and the sync takes the dirty set, then
      reads and writes row by row, or is cut off and forgets the rest. */
  datatype Step =
    | Start(call: Call)
    | Advance(i: nat)
    | SyncBegin
    | SyncRead(cell: Cell)
    | SyncWrite
    | SyncAbort

  /** One step; a step that is not possible in this state changes nothing. */
  function Apply(r: Roster, s: Accounts, step: Step): Accounts {
    match step
    case Start(call) => Begin(r, s, call)
    case Advance(i) => if Runs(s, i) then Perform(s, i) else s
    case SyncBegin =>
      if s.work == {} && s.flight.None? then s.(mem := s.mem.(dirty := {}), work := s.mem.dirty) else s
    case SyncRead(c) =>
      if s.flight.None? && c in s.work then s.(work := s.work - {c}, flight := Some(Row(c, Read(s.mem.book, c)))) else s
    case SyncWrite =>
      if s.flight.Some? then s.(db := s.db[s.flight.value.cell := s.flight.value.value], flight := None) else s
    case SyncAbort => s.(work := {}, flight := None)
  }

  function ExecFrom(r: Roster, s: Accounts, steps: seq<Step>): Accounts {
    if steps == [] then s else Apply(r, ExecFrom(r, s, steps[..|steps| - 1]), steps[|steps| - 1])
  }

  function Exec(r: Roster, steps: seq<Step>): Accounts { ExecFrom(r, START, steps) }

  lemma {:induction false} ExecJoins(r: Roster, s: Accounts, a: seq<Step>, b: seq<Step>)
    ensures ExecFrom(r, s, a + b) == ExecFrom(r, ExecFrom(r, s, a), b)
    decreases |b|
  {
    if b == [] {
      assert a + b == a;
    } else {
      assert (a + b)[..|a + b| - 1] == a + b[..|b| - 1];
      ExecJoins(r, s, a, b[..|b| - 1]);
    }
  }

  /** No call is under way. */
  predicate Idle(s: Accounts) { forall i :: 0 <= i < |s.tasks| ==> s.tasks[i] == [] }

  /** An undisturbed call is its start and that many single updates. */
  lemma {:induction false} FinishIsSteps(r: Roster, s: Accounts, i: nat) returns (steps: seq<Step>)
    requires i < |s.tasks|
    ensures ExecFrom(r, s, steps) == Finish(s, i)
    ensures forall j :: 0 <= j < |steps| ==> steps[j] == Advance(i)
    decreases Weight(s.tasks[i])
  {
    if s.tasks[i] == [] {
      steps := [];
    } else {
      assert s.tasks[i] == [s.tasks[i][0]] + s.tasks[i][1..];
      ExtrasWeigh(s.mem, s.tasks[i][0], s.tasks[i][1..]);
      var rest := FinishIsSteps(r, Perform(s, i), i);
      steps := [Advance(i)] + rest;
      assert [Advance(i)][..0] == [];
      assert ExecFrom(r, s, [Advance(i)]) == Perform(s, i);
      ExecJoins(r, s, [Advance(i)], rest);
    }
  }

  lemma WholeIsSteps(r: Roster, s: Accounts, call: Call) returns (steps: seq<Step>)
    ensures ExecFrom(r, s, steps) == WholeCall(r, s, call)
    ensures forall j :: 0 <= j < |steps| ==> steps[j] == Start(call) || steps[j] == Advance(|s.tasks|)
  {
    var rest := FinishIsSteps(r, Begin(r, s, call), |s.tasks|);
    steps := [Start(call)] + rest;
    assert [Start(call)][..0] == [];
    assert ExecFrom(r, s, [Start(call)]) == Begin(r, s, call);
    ExecJoins(r, s, [Start(call)], rest);
  }
}
