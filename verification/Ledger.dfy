/**
 The permanent counters: six totals per key and per team, written back to the database in
 the background.  Amounts are unbounded integers.
 */
module Ledger {

  datatype Scope = KeyScope(hash: string) | TeamScope(team: string)

  datatype Kind = InputTokens | OutputTokens | TotalCost | RegularInput | CachedInput | OutputCost

  datatype Cell = Cell(scope: Scope, kind: Kind)

  type Book = map<Cell, int>

  datatype Usage = Usage(input: nat, output: nat, regular: nat, cached: nat, outputCost: nat)

  /** The memory side of the ledger. */
  datatype Memory = Memory(book: Book, dirty: set<Cell>)

  function Read(b: Book, c: Cell): int { if c in b then b[c] else 0 }

  /** What one settlement adds to each total; the total cost is the sum of its parts. */
  function Amount(u: Usage, kind: Kind): nat {
    match kind
    case InputTokens => u.input
    case OutputTokens => u.output
    case TotalCost => u.regular + u.cached + u.outputCost
    case RegularInput => u.regular
    case CachedInput => u.cached
    case OutputCost => u.outputCost
  }

  const KINDS: seq<Kind> := [InputTokens, OutputTokens, TotalCost, RegularInput, CachedInput, OutputCost]

  // ----- memory operations

  /** Adds a signed amount; adding nothing leaves no trace. */
  function Add(m: Memory, c: Cell, delta: int): Memory {
    if delta == 0 then m else Memory(m.book[c := Read(m.book, c) + delta], m.dirty + {c})
  }

  /** Zeroes an existing entry and marks the cell dirty either way. */
  function Reset(m: Memory, c: Cell): Memory {
    Memory(if c in m.book then m.book[c := 0] else m.book, m.dirty + {c})
  }

  function AddKinds(m: Memory, scope: Scope, amount: Kind -> int, n: nat): Memory
    requires n <= |KINDS|
  {
    if n == 0 then m else Add(AddKinds(m, scope, amount, n - 1), Cell(scope, KINDS[n - 1]), amount(KINDS[n - 1]))
  }

  function AddAll(m: Memory, scope: Scope, amount: Kind -> int): Memory {
    AddKinds(m, scope, amount, |KINDS|)
  }

  function ResetKinds(m: Memory, scope: Scope, n: nat): Memory
    requires n <= |KINDS|
  {
    if n == 0 then m else Reset(ResetKinds(m, scope, n - 1), Cell(scope, KINDS[n - 1]))
  }

  function ResetAll(m: Memory, scope: Scope): Memory { ResetKinds(m, scope, |KINDS|) }

  function AddUsage(m: Memory, scope: Scope, u: Usage): Memory {
    AddAll(m, scope, Amounts(u))
  }

  function Amounts(u: Usage): Kind -> int { (kind: Kind) => Amount(u, kind) as int }

  function AddSix(m: Memory, scope: Scope, input: nat, output: nat, costs: nat, regular: nat, cached: nat,
                  outputCost: nat): Memory
  {
    var m1 := Add(m, Cell(scope, InputTokens), input);
    var m2 := Add(m1, Cell(scope, OutputTokens), output);
    var m3 := Add(m2, Cell(scope, TotalCost), costs);
    var m4 := Add(m3, Cell(scope, RegularInput), regular);
    var m5 := Add(m4, Cell(scope, CachedInput), cached);
    Add(m5, Cell(scope, OutputCost), outputCost)
  }

  /** A settlement is six additions. */
  lemma UsageOneByOne(m: Memory, scope: Scope, u: Usage)
    ensures AddUsage(m, scope, u) ==
            AddSix(m, scope, u.input, u.output, u.regular + u.cached + u.outputCost, u.regular, u.cached, u.outputCost)
  {
    var amount := Amounts(u);
    assert AddKinds(m, scope, amount, 0) == m;
    assert AddKinds(m, scope, amount, 1) == Add(m, Cell(scope, InputTokens), u.input);
    assert AddKinds(m, scope, amount, 6) == Add(AddKinds(m, scope, amount, 5), Cell(scope, OutputCost), u.outputCost);
    assert AddKinds(m, scope, amount, 5) == Add(AddKinds(m, scope, amount, 4), Cell(scope, CachedInput), u.cached);
    assert AddKinds(m, scope, amount, 4) == Add(AddKinds(m, scope, amount, 3), Cell(scope, RegularInput), u.regular);
    assert AddKinds(m, scope, amount, 3) ==
      Add(AddKinds(m, scope, amount, 2), Cell(scope, TotalCost), u.regular + u.cached + u.outputCost);
    assert AddKinds(m, scope, amount, 2) == Add(AddKinds(m, scope, amount, 1), Cell(scope, OutputTokens), u.output);
  }

  /** The values a reset hands back: negative totals count as zero. */
  function Positive(v: int): nat { if v < 0 then 0 else v }

  function Without(b: Book, scope: Scope): Book {
    map c | c in b && c.scope != scope :: b[c]
  }

  lemma KindIndex(kind: Kind) returns (i: nat)
    ensures i < |KINDS| && KINDS[i] == kind
  {
    match kind
    case InputTokens => i := 0;
    case OutputTokens => i := 1;
    case TotalCost => i := 2;
    case RegularInput => i := 3;
    case CachedInput => i := 4;
    case OutputCost => i := 5;
  }

  lemma KindsDistinct(i: nat, j: nat)
    requires i < j < |KINDS|
    ensures KINDS[i] != KINDS[j]
  {
  }

  lemma {:induction false} AddKindsReads(m: Memory, scope: Scope, amount: Kind -> int, n: nat, i: nat, c: Cell)
    requires n <= |KINDS| && i < |KINDS| && c.kind == KINDS[i]
    ensures var m' := AddKinds(m, scope, amount, n);
            && Read(m'.book, c) == Read(m.book, c) + (if c.scope == scope && i < n then amount(c.kind) else 0)
            && m.dirty <= m'.dirty
            && (Read(m'.book, c) != Read(m.book, c) ==> c in m'.dirty)
  {
    if n > 0 {
      var before, x := AddKinds(m, scope, amount, n - 1), Cell(scope, KINDS[n - 1]);
      AddKindsReads(m, scope, amount, n - 1, i, c);
      assert AddKinds(m, scope, amount, n) == Add(before, x, amount(x.kind));
      if i < n - 1 { KindsDistinct(i, n - 1); }
      if n - 1 < i { KindsDistinct(n - 1, i); }
    }
  }

  lemma AddAllReads(m: Memory, scope: Scope, amount: Kind -> int, c: Cell)
    ensures var m' := AddAll(m, scope, amount);
            && Read(m'.book, c) == Read(m.book, c) + (if c.scope == scope then amount(c.kind) else 0)
            && m.dirty <= m'.dirty
            && (Read(m'.book, c) != Read(m.book, c) ==> c in m'.dirty)
  {
    var i := KindIndex(c.kind);
    AddKindsReads(m, scope, amount, |KINDS|, i, c);
  }

  lemma {:induction false} ResetKindsReads(m: Memory, scope: Scope, n: nat, i: nat, c: Cell)
    requires n <= |KINDS| && i < |KINDS| && c.kind == KINDS[i]
    ensures var m' := ResetKinds(m, scope, n);
            && Read(m'.book, c) == (if c.scope == scope && i < n then 0 else Read(m.book, c))
            && m.dirty <= m'.dirty
            && (c.scope == scope && i < n ==> c in m'.dirty)
  {
    if n > 0 {
      var before, x := ResetKinds(m, scope, n - 1), Cell(scope, KINDS[n - 1]);
      ResetKindsReads(m, scope, n - 1, i, c);
      assert ResetKinds(m, scope, n) == Reset(before, x);
      if i < n - 1 { KindsDistinct(i, n - 1); }
      if n - 1 < i { KindsDistinct(n - 1, i); }
    }
  }

  lemma ResetAllReads(m: Memory, scope: Scope, c: Cell)
    ensures var m' := ResetAll(m, scope);
            && Read(m'.book, c) == (if c.scope == scope then 0 else Read(m.book, c))
            && m.dirty <= m'.dirty
            && (c.scope == scope ==> c in m'.dirty)
  {
    var i := KindIndex(c.kind);
    ResetKindsReads(m, scope, |KINDS|, i, c);
  }
}
