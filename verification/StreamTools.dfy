/**
  * The tools of a stream, told from the fields of its deltas: which are announced, under what
  * name, and what becomes of the argument fragments sent for them.
  */
module StreamTools {
  import opened Wrappers
  import opened TranscoderSteps
  import opened StreamRuns
  import opened StreamBlocks
  import opened StreamMessage

  // ---- Announcements -------------------------------------------------------------------------

  /** How many of these deltas have an id. */
  function Announced(ds: seq<ToolDelta>): nat {
    if ds == [] then 0
    else Announced(ds[..|ds| - 1]) + if ds[|ds| - 1].id.Some? then 1 else 0
  }

  lemma {:induction false} ToolsCount(ds: seq<ToolDelta>)
    ensures |Tools(ds)| == Announced(ds)
    decreases |ds|
  {
    if ds != [] { ToolsCount(ds[..|ds| - 1]); }
  }

  /** Every delta with an id announces one tool, in order, under its function's name if it gives one. */
  lemma {:induction false} ToolIs(ds: seq<ToolDelta>, i: nat)
    requires i < |ds| && ds[i].id.Some?
    ensures |Tools(ds)| == Announced(ds) && Announced(ds[..i]) < |Tools(ds)|
    ensures var tool := Tools(ds)[Announced(ds[..i])];
            && tool.Tool? && tool.index == ds[i].index && Some(tool.id) == ds[i].id
            && (ds[i].func.Some? && ds[i].func.value.name.Some? ==> tool.name == ds[i].func.value.name.value)
            && (ds[i].func.None? || ds[i].func.value.name.None? ==> tool.name == "")
    decreases |ds|
  {
    var front := ds[..|ds| - 1];
    ToolsCount(ds);
    ToolsCount(front);
    if i < |front| {
      ToolIs(front, i);
      assert front[..i] == ds[..i];
    }
  }

  // ---- Arguments -----------------------------------------------------------------------------

  /** The delta carries arguments for tool `k`. */
  predicate Carries(d: ToolDelta, k: nat) {
    d.index == k && d.func.Some? && d.func.value.arguments.Some? && d.func.value.arguments.value != ""
  }

  function Carrying(ds: seq<ToolDelta>, k: nat): nat {
    if ds == [] then 0
    else Carrying(ds[..|ds| - 1], k) + if Carries(ds[|ds| - 1], k) then 1 else 0
  }

  lemma {:induction false} FragmentsCount(ds: seq<ToolDelta>, k: nat)
    ensures |Fragments(ds, k)| == Carrying(ds, k)
    decreases |ds|
  {
    if ds != [] { FragmentsCount(ds[..|ds| - 1], k); }
  }

  /** Every delta that carries arguments for a tool is one fragment of that tool, in order. */
  lemma {:induction false} FragmentIs(ds: seq<ToolDelta>, k: nat, i: nat)
    requires i < |ds| && Carries(ds[i], k)
    ensures |Fragments(ds, k)| == Carrying(ds, k) && Carrying(ds[..i], k) < |Fragments(ds, k)|
    ensures Fragments(ds, k)[Carrying(ds[..i], k)] == ds[i].func.value.arguments.value
    decreases |ds|
  {
    var front := ds[..|ds| - 1];
    FragmentsCount(ds, k);
    FragmentsCount(front, k);
    if i < |front| {
      FragmentIs(front, k, i);
      assert front[..i] == ds[..i];
    }
  }

  lemma {:induction false} FragmentsNotEmpty(ds: seq<ToolDelta>, k: nat)
    ensures forall i :: 0 <= i < |Fragments(ds, k)| ==> Fragments(ds, k)[i] != ""
    decreases |ds|
  {
    if ds != [] { FragmentsNotEmpty(ds[..|ds| - 1], k); }
  }

  /** Starts with a brace, ends with a brace and is valid JSON. */
  predicate BracedJson(parses: string -> bool, s: string) {
    s != "" && s[0] == '{' && s[|s| - 1] == '}' && parses(s)
  }

  /** The last fragment that is a whole object, not counting the first; the first if there is none. */
  ghost predicate LastObject(parses: string -> bool, ss: seq<string>, i: nat) {
    && i < |ss| && (i > 0 ==> BracedJson(parses, ss[i]))
    && forall j :: i < j < |ss| ==> !BracedJson(parses, ss[j])
  }

  lemma {:induction false} JoinNotEmpty(parses: string -> bool, ss: seq<string>)
    requires ss != [] && forall i :: 0 <= i < |ss| ==> ss[i] != ""
    ensures JoinAll(parses, ss) != ""
    decreases |ss|
  {
    if |ss| > 1 { JoinNotEmpty(parses, ss[..|ss| - 1]); }
  }

  lemma ConcatOne(s: string)
    ensures Concat([s]) == s
  {
    assert [s][..0] == [];
  }

  lemma ConcatSnoc(ss: seq<string>, s: string)
    ensures Concat(ss + [s]) == Concat(ss) + s
  {
    assert (ss + [s])[..|ss|] == ss;
  }

  lemma JoinStep(parses: string -> bool, front: seq<string>, last: string)
    ensures JoinAll(parses, front + [last]) ==
            if BracedJson(parses, last) && JoinAll(parses, front) != "" then last
            else JoinAll(parses, front) + last
  {
    assert (front + [last])[..|front|] == front;
  }

  lemma LastObjectStays(parses: string -> bool, front: seq<string>, last: string, i: nat)
    requires LastObject(parses, front + [last], i) && i < |front|
    ensures LastObject(parses, front, i) && !BracedJson(parses, last)
  {
    assert (front + [last])[|front|] == last;
    assert (front + [last])[i] == front[i];
    forall j | i < j < |front| ensures !BracedJson(parses, front[j]) {
      assert (front + [last])[j] == front[j];
    }
  }

  lemma {:induction false} JoinFromLastObject(
    parses: string -> bool, ss: seq<string>, front: seq<string>, last: string, i: nat)
    requires ss == front + [last] && LastObject(parses, ss, i)
    requires forall j :: 0 <= j < |ss| ==> ss[j] != ""
    ensures JoinAll(parses, ss) == Concat(ss[i..])
    decreases |front|
  {
    JoinStep(parses, front, last);
    assert forall j :: 0 <= j < |front| ==> front[j] == ss[j];
    if i == |front| {
      assert ss[i..] == [last];
      ConcatOne(last);
      if i > 0 { JoinNotEmpty(parses, front); }
    } else {
      LastObjectStays(parses, front, last, i);
      JoinFromLastObject(parses, front, front[..|front| - 1], front[|front| - 1], i);
      assert ss[i..] == front[i..] + [last];
      ConcatSnoc(front[i..], last);
    }
  }

  lemma Snoc(ss: seq<string>) returns (front: seq<string>, last: string)
    requires ss != []
    ensures ss == front + [last]
  {
    front, last := ss[..|ss| - 1], ss[|ss| - 1];
  }

  lemma JoinOfFragments(parses: string -> bool, ss: seq<string>, i: nat)
    requires LastObject(parses, ss, i) && forall j :: 0 <= j < |ss| ==> ss[j] != ""
    ensures JoinAll(parses, ss) == Concat(ss[i..])
  {
    var front, last := Snoc(ss);
    JoinFromLastObject(parses, ss, front, last, i);
  }

  /**
    * The arguments a tool ends up with are its fragments joined from the last one on that is a whole
    * JSON object by itself; all of them when none after the first is.
    */
  lemma ArgumentsFromLastObject(parses: string -> bool, chunks: seq<Chunk>, k: nat, i: nat)
    requires LastObject(parses, Fragments(Deltas(Flat(chunks)), k), i)
    ensures Args(parses, StreamActions(chunks), k) == Concat(Fragments(Deltas(Flat(chunks)), k)[i..])
  {
    var ss := Fragments(Deltas(Flat(chunks)), k);
    StreamArgs(parses, chunks, k);
    FragmentsNotEmpty(Deltas(Flat(chunks)), k);
    JoinOfFragments(parses, ss, i);
  }
}
