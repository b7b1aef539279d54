/**
  * The message a stream adds up to, read off its chunks, and how it relates to the actions
  * the chunks unfold into.
  */
module StreamMessage {
  import opened Wrappers
  import opened StreamEvents
  import opened TranscoderSteps
  import opened StreamRuns
  import opened StreamText
  import opened StreamBlocks
  import opened ResponseConverter

  // ---- The message a stream adds up to -----------------------------------------------------

  function Flat(chunks: seq<Chunk>): seq<Choice> {
    if chunks == [] then [] else Flat(chunks[..|chunks| - 1]) + chunks[|chunks| - 1].choices
  }

  function Deltas(cs: seq<Choice>): seq<ToolDelta> {
    if cs == [] then [] else Deltas(cs[..|cs| - 1]) + cs[|cs| - 1].calls.GetOr([])
  }

  /** The non-empty argument fragments sent for tool index `k`. */
  function Fragments(ds: seq<ToolDelta>, k: nat): seq<string> {
    if ds == [] then []
    else
      var d := ds[|ds| - 1];
      Fragments(ds[..|ds| - 1], k) +
      if d.index == k && ArgumentsOf(d) != "" then [ArgumentsOf(d)] else []
  }

  function Concat(ss: seq<string>): string {
    if ss == [] then "" else Concat(ss[..|ss| - 1]) + ss[|ss| - 1]
  }

  /** The announced tools, in order. */
  function Tools(ds: seq<ToolDelta>): seq<Part> {
    if ds == [] then []
    else
      var d := ds[|ds| - 1];
      Tools(ds[..|ds| - 1]) +
      if d.id.Some? then [Tool(d.index, d.id.value, NameOf(d))] else []
  }

  function CallOf(ds: seq<ToolDelta>, p: Part): ToolCall
    requires p.Tool?
  {
    ToolCall(p.id, p.name, Concat(Fragments(ds, p.index)))
  }

  predicate AllTools(parts: seq<Part>) {
    forall i :: 0 <= i < |parts| ==> parts[i].Tool?
  }

  lemma {:induction false} ToolsAreTools(ds: seq<ToolDelta>)
    ensures AllTools(Tools(ds))
    decreases |ds|
  {
    if ds != [] { ToolsAreTools(ds[..|ds| - 1]); }
  }

  function ToolCalls(ds: seq<ToolDelta>, ts: seq<Part>): seq<ToolCall>
    requires AllTools(ts)
  {
    if ts == [] then []
    else ToolCalls(ds, ts[..|ts| - 1]) + [CallOf(ds, ts[|ts| - 1])]
  }

  /** All reasoning, all text, and every announced tool with all its fragments. */
  function Accumulated(cs: seq<Choice>): Message {
    var ds := Deltas(cs);
    ToolsAreTools(ds);
    Message(Some(Told(cs, ThinkingKind)), TextContent(Told(cs, TextKind)),
            Some(ToolCalls(ds, Tools(ds))))
  }

  // ---- Gathering from actions ----------------------------------------------------------------

  function Gather<T>(acts: seq<Action>, f: Action -> seq<T>): seq<T> {
    if acts == [] then [] else Gather(acts[..|acts| - 1], f) + f(acts[|acts| - 1])
  }

  lemma {:induction false} GatherConcat<T>(a: seq<Action>, b: seq<Action>, f: Action -> seq<T>)
    ensures Gather(a + b, f) == Gather(a, f) + Gather(b, f)
    decreases |b|
  {
    if b == [] {
      assert a + b == a;
    } else {
      assert (a + b)[..|a + b| - 1] == a + b[..|b| - 1];
      GatherConcat(a, b[..|b| - 1], f);
    }
  }

  function CallPart(a: Action): seq<Part> {
    if a.Call? then [Tool(a.index, a.id, a.name)] else []
  }

  function FragmentAt(k: nat): Action -> seq<string> {
    (a: Action) => if a.Fragment? && a.index == k then [a.piece] else []
  }

  /** Blind to everything but tool deltas. */
  ghost predicate ToolOnly<T(!new)>(f: Action -> seq<T>) {
    forall a: Action :: !a.Call? && !a.Fragment? ==> f(a) == []
  }

  lemma {:induction false} GatherNone<T(!new)>(acts: seq<Action>, f: Action -> seq<T>)
    requires ToolOnly(f)
    requires forall i :: 0 <= i < |acts| ==> !acts[i].Call? && !acts[i].Fragment?
    ensures Gather(acts, f) == []
    decreases |acts|
  {
    if acts != [] { GatherNone(acts[..|acts| - 1], f); }
  }

  lemma GatherMiddle<T>(a: seq<Action>, b: seq<Action>, c: seq<Action>, f: Action -> seq<T>)
    requires Gather(a, f) == [] && Gather(c, f) == []
    ensures Gather(a + b + c, f) == Gather(b, f)
  {
    GatherConcat(a, b, f);
    GatherConcat(a + b, c, f);
  }

  lemma GatherChoice<T(!new)>(c: Choice, f: Action -> seq<T>)
    requires ToolOnly(f)
    ensures Gather(ChoiceActions(c), f) == Gather(CallActions(c.calls.GetOr([])), f)
  {
    GatherNone(SpeechActions(c), f);
    GatherNone(FinishActions(c), f);
    GatherMiddle(SpeechActions(c), CallsActions(c), FinishActions(c), f);
    if c.calls.Some? {
      GatherNone([CloseOpen], f);
      GatherConcat([CloseOpen], CallActions(c.calls.value), f);
    }
  }

  lemma {:induction false} CallActionsConcat(a: seq<ToolDelta>, b: seq<ToolDelta>)
    ensures CallActions(a + b) == CallActions(a) + CallActions(b)
    decreases |b|
  {
    if b == [] {
      assert a + b == a;
    } else {
      var front, d := b[..|b| - 1], b[|b| - 1];
      assert (a + b)[..|a + b| - 1] == a + front;
      CallActionsConcat(a, front);
      Associates(CallActions(a), CallActions(front), ToolActions(d));
    }
  }

  lemma Associates<T>(a: seq<T>, b: seq<T>, c: seq<T>)
    ensures a + (b + c) == a + b + c
  {}

  lemma {:induction false} GatherChoices<T(!new)>(cs: seq<Choice>, f: Action -> seq<T>)
    requires ToolOnly(f)
    ensures Gather(ChoicesActions(cs), f) == Gather(CallActions(Deltas(cs)), f)
    decreases |cs|
  {
    if cs != [] {
      var front, last := cs[..|cs| - 1], cs[|cs| - 1];
      GatherChoices(front, f);
      GatherChoice(last, f);
      GatherConcat(ChoicesActions(front), ChoiceActions(last), f);
      CallActionsConcat(Deltas(front), last.calls.GetOr([]));
      GatherConcat(CallActions(Deltas(front)), CallActions(last.calls.GetOr([])), f);
    }
  }

  lemma {:induction false} DeltasConcat(a: seq<Choice>, b: seq<Choice>)
    ensures Deltas(a + b) == Deltas(a) + Deltas(b)
    decreases |b|
  {
    if b == [] {
      assert a + b == a;
    } else {
      assert (a + b)[..|a + b| - 1] == a + b[..|b| - 1];
      DeltasConcat(a, b[..|b| - 1]);
    }
  }

  lemma GatherChunk<T(!new)>(c: Chunk, f: Action -> seq<T>)
    requires ToolOnly(f)
    ensures Gather(ChunkActions(c), f) == Gather(CallActions(Deltas(c.choices)), f)
  {
    GatherNone([Meter(c.usage)], f);
    GatherConcat([Meter(c.usage)], ChoicesActions(c.choices), f);
    GatherChoices(c.choices, f);
  }

  lemma {:induction false} GatherStream<T(!new)>(chunks: seq<Chunk>, f: Action -> seq<T>)
    requires ToolOnly(f)
    ensures Gather(StreamActions(chunks), f) == Gather(CallActions(Deltas(Flat(chunks))), f)
    decreases |chunks|
  {
    if chunks != [] {
      var front, last := chunks[..|chunks| - 1], chunks[|chunks| - 1];
      GatherStream(front, f);
      GatherConcat(StreamActions(front), ChunkActions(last), f);
      GatherChunk(last, f);
      DeltasConcat(Flat(front), last.choices);
      CallActionsConcat(Deltas(Flat(front)), Deltas(last.choices));
      GatherConcat(CallActions(Deltas(Flat(front))), CallActions(Deltas(last.choices)), f);
    }
  }

  lemma GatherTool<T>(d: ToolDelta, f: Action -> seq<T>)
    ensures Gather(ToolActions(d), f) ==
            (if d.id.Some? then f(Call(d.index, d.id.value, NameOf(d))) else []) +
            (if ArgumentsOf(d) != "" then f(Fragment(d.index, ArgumentsOf(d))) else [])
  {
    var x := if d.id.Some? then [Call(d.index, d.id.value, NameOf(d))] else [];
    var y := if ArgumentsOf(d) != "" then [Fragment(d.index, ArgumentsOf(d))] else [];
    GatherConcat(x, y, f);
  }

  lemma {:induction false} GatherTools(ds: seq<ToolDelta>)
    ensures Gather(CallActions(ds), CallPart) == Tools(ds)
    decreases |ds|
  {
    if ds != [] {
      var front, d := ds[..|ds| - 1], ds[|ds| - 1];
      GatherTools(front);
      GatherConcat(CallActions(front), ToolActions(d), CallPart);
      GatherTool(d, CallPart);
    }
  }

  lemma {:induction false} GatherFragments(ds: seq<ToolDelta>, k: nat)
    ensures Gather(CallActions(ds), FragmentAt(k)) == Fragments(ds, k)
    decreases |ds|
  {
    if ds != [] {
      var front, d := ds[..|ds| - 1], ds[|ds| - 1];
      GatherFragments(front, k);
      GatherConcat(CallActions(front), ToolActions(d), FragmentAt(k));
      GatherTool(d, FragmentAt(k));
    }
  }

  lemma {:induction false} StreamSays(chunks: seq<Chunk>, k: Kind)
    ensures Spoken(StreamActions(chunks), k) == Told(Flat(chunks), k)
    decreases |chunks|
  {
    if chunks != [] {
      var front, last := chunks[..|chunks| - 1], chunks[|chunks| - 1];
      StreamSays(front, k);
      SpokenConcat(StreamActions(front), ChunkActions(last), k);
      ChunkSays(last, k);
      ToldConcat(Flat(front), last.choices, k);
    }
  }

  lemma ChunkSays(c: Chunk, k: Kind)
    ensures Spoken(ChunkActions(c), k) == Told(c.choices, k)
  {
    SpokenOne(Meter(c.usage), k);
    SpokenConcat([Meter(c.usage)], ChoicesActions(c.choices), k);
    ChoicesSay(c.choices, k);
  }

  // ---- Argument fragments ----------------------------------------------------------------------

  function JoinAll(parses: string -> bool, ss: seq<string>): string {
    if ss == [] then "" else Joined(parses, JoinAll(parses, ss[..|ss| - 1]), ss[|ss| - 1])
  }

  lemma {:induction false} ArgsAreJoined(parses: string -> bool, acts: seq<Action>, k: nat)
    ensures Args(parses, acts, k) == JoinAll(parses, Gather(acts, FragmentAt(k)))
    decreases |acts|
  {
    if acts != [] {
      var front, a := acts[..|acts| - 1], acts[|acts| - 1];
      ArgsAreJoined(parses, front, k);
      var ss := Gather(front, FragmentAt(k));
      if a.Fragment? && a.index == k {
        assert Gather(acts, FragmentAt(k)) == ss + [a.piece];
        assert (ss + [a.piece])[..|ss|] == ss;
      } else {
        assert Gather(acts, FragmentAt(k)) == ss;
      }
    }
  }

  /** No fragment after the first is a complete JSON object by itself. */
  predicate NoLateObject(parses: string -> bool, ss: seq<string>) {
    forall i :: 1 <= i < |ss| ==> !WholeObject(parses, ss[i])
  }

  lemma {:induction false} JoinIsConcat(parses: string -> bool, ss: seq<string>)
    requires NoLateObject(parses, ss)
    ensures JoinAll(parses, ss) == Concat(ss)
    decreases |ss|
  {
    if ss != [] {
      JoinIsConcat(parses, ss[..|ss| - 1]);
    }
  }

  /**
    * The vLLM promise: a complete object sent last is the whole argument, whatever
    * fragments came before it.
    */
  lemma LastObjectWins(parses: string -> bool, chunks: seq<Chunk>, k: nat)
    requires var ss := Fragments(Deltas(Flat(chunks)), k);
             ss != [] && WholeObject(parses, ss[|ss| - 1])
    ensures var ss := Fragments(Deltas(Flat(chunks)), k);
            Args(parses, StreamActions(chunks), k) == ss[|ss| - 1]
  {
    StreamArgs(parses, chunks, k);
  }

  lemma StreamArgs(parses: string -> bool, chunks: seq<Chunk>, k: nat)
    ensures Args(parses, StreamActions(chunks), k) ==
            JoinAll(parses, Fragments(Deltas(Flat(chunks)), k))
  {
    ArgsAreJoined(parses, StreamActions(chunks), k);
    GatherStream(chunks, FragmentAt(k));
    GatherFragments(Deltas(Flat(chunks)), k);
  }
}
