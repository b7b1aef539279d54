/**
 How a stream opens and ends, told from its chunks: the usage that message_start and
 message_delta carry, and the stop reason announced.
 */
module StreamFinish {

  import opened Wrappers
  import opened StreamEvents
  import opened TranscoderSteps
  import opened StreamRuns

  // ----- told from the chunks

  /** The prompt size last reported, cut to 32 bits. */
  function PromptOf(chunks: seq<Chunk>): nat {
    if chunks == [] then 0
    else
      var u := chunks[|chunks| - 1].usage;
      if u.Some? && u.value.prompt.Some? then u.value.prompt.value % 0x1_0000_0000
      else PromptOf(chunks[..|chunks| - 1])
  }

  /** The completion size last reported, cut to 32 bits, and one for every piece of text since. */
  function CompletionOf(chunks: seq<Chunk>): nat {
    if chunks == [] then 0
    else
      var last := chunks[|chunks| - 1];
      ReportedIn(last.usage, CompletionOf(chunks[..|chunks| - 1])) + Pieces(last.choices)
  }

  /** The completion size a chunk reports, or what was known before. */
  function ReportedIn(usage: Option<Usage>, before: nat): nat {
    if usage.Some? && usage.value.completion.Some? then usage.value.completion.value % 0x1_0000_0000 else before
  }

  /** How many of the choices bring text. */
  function Pieces(cs: seq<Choice>): nat {
    if cs == [] then 0
    else
      var c := cs[|cs| - 1].content;
      Pieces(cs[..|cs| - 1]) + if c.Some? && c.value != "" then 1 else 0
  }

  /** The finish of the last choice that has one. */
  function LastFinish(cs: seq<Choice>): Option<string> {
    if cs == [] then None
    else if cs[|cs| - 1].finish.Some? then cs[|cs| - 1].finish
    else LastFinish(cs[..|cs| - 1])
  }

  // ----- actions

  /** The reason of the last finish among the actions. */
  function FinishOf(acts: seq<Action>): Option<string> {
    if acts == [] then None
    else if acts[|acts| - 1].Finish? then Some(acts[|acts| - 1].reason)
    else FinishOf(acts[..|acts| - 1])
  }

  function Said(acts: seq<Action>): nat {
    if acts == [] then 0 else Said(acts[..|acts| - 1]) + if acts[|acts| - 1].Say? then 1 else 0
  }

  lemma {:induction false} TalliesConcat(a: seq<Action>, b: seq<Action>)
    ensures FinishOf(a + b) == FinishOf(b).Or(FinishOf(a))
    ensures Said(a + b) == Said(a) + Said(b)
    decreases |b|
  {
    if b == [] {
      assert a + b == a;
    } else {
      assert (a + b)[..|a + b| - 1] == a + b[..|b| - 1];
      TalliesConcat(a, b[..|b| - 1]);
    }
  }

  predicate Unmetered(acts: seq<Action>) { forall i :: 0 <= i < |acts| ==> !acts[i].Meter? }

  /** What a list of actions without usage does to the numbers and to the held reason. */
  lemma {:induction false} ActsNumbers(parses: string -> bool, o: Out, acts: seq<Action>)
    requires Unmetered(acts)
    ensures var st := Acts(parses, o, acts).st;
            && st.input == o.st.input && st.output == o.st.output + Said(acts)
            && st.held == if FinishOf(acts).Some? then Some(StopReason(FinishOf(acts).value)) else o.st.held
    decreases |acts|
  {
    if acts != [] {
      var front, last := acts[..|acts| - 1], acts[|acts| - 1];
      ActsNumbers(parses, o, front);
      ActNumbers(parses, Acts(parses, o, front).st, last);
    }
  }

  lemma ActNumbers(parses: string -> bool, st: State, a: Action)
    requires !a.Meter?
    ensures var e := Act(parses, st, a).st;
            && e.input == st.input && e.output == st.output + (if a.Say? then 1 else 0)
            && e.held == if a.Finish? then Some(StopReason(a.reason)) else st.held
  {}

  lemma {:induction false} CallTallies(ds: seq<ToolDelta>)
    ensures Unmetered(CallActions(ds)) && Said(CallActions(ds)) == 0 && FinishOf(CallActions(ds)) == None
    decreases |ds|
  {
    if ds != [] {
      var front, d := ds[..|ds| - 1], ds[|ds| - 1];
      CallTallies(front);
      ToolTallies(d);
      TalliesConcat(CallActions(front), ToolActions(d));
    }
  }

  lemma {:induction false} SilentTallies(acts: seq<Action>)
    requires forall i :: 0 <= i < |acts| ==> !acts[i].Say? && !acts[i].Finish?
    ensures Said(acts) == 0 && FinishOf(acts) == None
  {
    if acts != [] { SilentTallies(acts[..|acts| - 1]); }
  }

  lemma ToolTallies(d: ToolDelta)
    ensures Unmetered(ToolActions(d)) && Said(ToolActions(d)) == 0 && FinishOf(ToolActions(d)) == None
  {
    var acts := ToolActions(d);
    assert forall i :: 0 <= i < |acts| ==> acts[i].Call? || acts[i].Fragment?;
    SilentTallies(acts);
  }

  lemma OneTally(a: Action)
    ensures Said([a]) == (if a.Say? then 1 else 0) && FinishOf([a]) == if a.Finish? then Some(a.reason) else None
  {
    assert [a][..0] == [];
    assert Said([]) == 0 && FinishOf([]) == None;
  }

  lemma SpeechTallies(c: Choice)
    ensures Unmetered(SpeechActions(c)) && FinishOf(SpeechActions(c)) == None
    ensures Said(SpeechActions(c)) == if c.content.Some? && c.content.value != "" then 1 else 0
  {
    var reason := if NonEmpty(c.reasoning) then [Reason(c.reasoning.value)] else [];
    var say := if NonEmpty(c.content) then [Say(c.content.value)] else [];
    SilentTallies([Begin] + reason);
    TalliesConcat([Begin] + reason, say);
    if NonEmpty(c.content) { OneTally(say[0]); }
  }

  lemma ChoiceTallies(c: Choice)
    ensures Unmetered(ChoiceActions(c)) && FinishOf(ChoiceActions(c)) == c.finish
    ensures Said(ChoiceActions(c)) == if c.content.Some? && c.content.value != "" then 1 else 0
  {
    SpeechTallies(c);
    CallsTallies(c);
    if c.finish.Some? { OneTally(Finish(c.finish.value)); }
    TalliesConcat(SpeechActions(c), CallsActions(c));
    TalliesConcat(SpeechActions(c) + CallsActions(c), FinishActions(c));
  }

  lemma CallsTallies(c: Choice)
    ensures Unmetered(CallsActions(c)) && Said(CallsActions(c)) == 0 && FinishOf(CallsActions(c)) == None
  {
    if c.calls.Some? {
      CallTallies(c.calls.value);
      OneTally(CloseOpen);
      TalliesConcat([CloseOpen], CallActions(c.calls.value));
    }
  }

  lemma {:induction false} ChoicesTallies(cs: seq<Choice>)
    ensures Unmetered(ChoicesActions(cs))
    ensures Said(ChoicesActions(cs)) == Pieces(cs) && FinishOf(ChoicesActions(cs)) == LastFinish(cs)
    decreases |cs|
  {
    if cs != [] {
      var front, last := cs[..|cs| - 1], cs[|cs| - 1];
      ChoicesTallies(front);
      ChoiceTallies(last);
      TalliesConcat(ChoicesActions(front), ChoiceActions(last));
    }
  }

  // ----- whole streams

  /** The numbers after any chunks whose choices are all acted on. */
  lemma {:induction false} BodyNumbers(parses: string -> bool, chunks: seq<Chunk>)
    ensures var st := Acts(parses, Nothing, StreamActions(chunks)).st;
            st.input == PromptOf(chunks) && st.output == CompletionOf(chunks)
    decreases |chunks|
  {
    if chunks != [] {
      var front, last := chunks[..|chunks| - 1], chunks[|chunks| - 1];
      BodyNumbers(parses, front);
      ChunkNumbers(parses, Acts(parses, Nothing, StreamActions(front)), last);
      ActsConcat(parses, Nothing, StreamActions(front), ChunkActions(last));
    }
  }

  lemma MeterNumbers(parses: string -> bool, o: Out, usage: Option<Usage>)
    ensures var m := Acts(parses, o, [Meter(usage)]);
            && m.st == o.st.(input := m.st.input, output := m.st.output) && m.events == o.events
            && m.st.input == (if usage.Some? && usage.value.prompt.Some?
                              then usage.value.prompt.value % 0x1_0000_0000 else o.st.input)
            && m.st.output == ReportedIn(usage, o.st.output)
  {
    ActsOne(parses, o, Meter(usage));
    assert o.events + [] == o.events;
  }

  lemma ChunkNumbers(parses: string -> bool, o: Out, c: Chunk)
    ensures var st := Acts(parses, o, ChunkActions(c)).st;
            && st.input == (if c.usage.Some? && c.usage.value.prompt.Some?
                            then c.usage.value.prompt.value % 0x1_0000_0000 else o.st.input)
            && st.output == ReportedIn(c.usage, o.st.output) + Pieces(c.choices)
            && st.held ==
               if LastFinish(c.choices).Some? then Some(StopReason(LastFinish(c.choices).value)) else o.st.held
  {
    var m := Acts(parses, o, [Meter(c.usage)]);
    MeterNumbers(parses, o, c.usage);
    ChoicesTallies(c.choices);
    ActsNumbers(parses, m, ChoicesActions(c.choices));
    ChunkSplits(parses, o, c);
  }

  lemma ChunkSplits(parses: string -> bool, o: Out, c: Chunk)
    ensures Acts(parses, o, ChunkActions(c)) ==
            Acts(parses, Acts(parses, o, [Meter(c.usage)]), ChoicesActions(c.choices))
  {
    ActsConcat(parses, o, [Meter(c.usage)], ChoicesActions(c.choices));
  }

  /** The chunks that count for the numbers at the end: those through the first finishing one, and the
      next, if there is one, for its usage alone. */
  function PromptAtEnd(chunks: seq<Chunk>): nat {
    var n := |Through(chunks)|;
    if n < |chunks| then PromptOf(Through(chunks) + [chunks[n]]) else PromptOf(Through(chunks))
  }

  function CompletionAtEnd(chunks: seq<Chunk>): nat {
    var n := |Through(chunks)|;
    if n < |chunks| then ReportedIn(chunks[n].usage, CompletionOf(Through(chunks))) else CompletionOf(Through(chunks))
  }

  lemma NumbersAtRelease(parses: string -> bool, chunks: seq<Chunk>)
    ensures AtRelease(parses, chunks).input == PromptAtEnd(chunks)
    ensures AtRelease(parses, chunks).output == CompletionAtEnd(chunks)
  {
    BodyNumbers(parses, Through(chunks));
    if |Through(chunks)| < |chunks| { PromptSnoc(Through(chunks), chunks[|Through(chunks)|]); }
  }

  lemma PromptSnoc(chunks: seq<Chunk>, c: Chunk)
    ensures PromptOf(chunks + [c]) ==
            if c.usage.Some? && c.usage.value.prompt.Some? then c.usage.value.prompt.value % 0x1_0000_0000
            else PromptOf(chunks)
  {
    assert (chunks + [c])[..|chunks|] == chunks;
  }

  /** The message_delta before the first message_stop carries the prompt size last reported and the
      completion size last reported, counted on by the pieces of text since, but at least one. */
  lemma FinalUsage(parses: string -> bool, chunks: seq<Chunk>)
    requires Finishes(chunks)
    ensures var es := UpToStop(StreamOf(parses, chunks));
            && |es| >= 2 && es[|es| - 1] == MessageStop && es[|es| - 2].MessageDelta?
            && es[|es| - 2].input == PromptAtEnd(chunks)
            && es[|es| - 2].output == if CompletionAtEnd(chunks) == 0 then 1 else CompletionAtEnd(chunks)
  {
    FinishedStream(parses, chunks);
    NumbersAtRelease(parses, chunks);
  }

  lemma HeldAtEnd(parses: string -> bool, chunks: seq<Chunk>)
    requires Finishes(chunks)
    ensures var t := Through(chunks);
            && t != [] && LastFinish(t[|t| - 1].choices).Some?
            && BodyOf(parses, chunks).st.held == Some(StopReason(LastFinish(t[|t| - 1].choices).value))
  {
    ThroughIsPrefix(chunks);
    var t := Through(chunks);
    var front, last := t[..|t| - 1], t[|t| - 1];
    HasLastFinish(last.choices);
    ChunkNumbers(parses, Acts(parses, Nothing, StreamActions(front)), last);
    ActsConcat(parses, Nothing, StreamActions(front), ChunkActions(last));
  }

  lemma {:induction false} HasLastFinish(cs: seq<Choice>)
    requires exists i :: 0 <= i < |cs| && cs[i].finish.Some?
    ensures LastFinish(cs).Some?
    decreases |cs|
  {
    if cs[|cs| - 1].finish.None? {
      var front := cs[..|cs| - 1];
      var i :| 0 <= i < |cs| && cs[i].finish.Some?;
      assert front[i].finish.Some?;
      HasLastFinish(front);
    }
  }

  /** The reason announced at the end is that of the last finishing choice of the first finishing chunk, in
      the other interface's words. */
  lemma AnnouncedReason(parses: string -> bool, chunks: seq<Chunk>)
    requires Finishes(chunks)
    ensures var es, t := UpToStop(StreamOf(parses, chunks)), Through(chunks);
            && |es| >= 2 && es[|es| - 2].MessageDelta? && t != [] && LastFinish(t[|t| - 1].choices).Some?
            && var finish, reason := LastFinish(t[|t| - 1].choices).value, es[|es| - 2].reason;
               && (finish == "stop" ==> reason == "end_turn")
               && (finish == "tool_calls" ==> reason == "tool_use")
               && (finish == "length" ==> reason == "max_tokens")
               && (finish !in ["stop", "tool_calls", "length"] ==> reason == finish)
  {
    FinishedStream(parses, chunks);
    HeldAtEnd(parses, chunks);
  }

  // ----- the opening

  lemma {:induction false} ActsGrow(parses: string -> bool, o: Out, acts: seq<Action>)
    ensures o.events <= Acts(parses, o, acts).events
    decreases |acts|
  {
    if acts != [] { ActsGrow(parses, o, acts[..|acts| - 1]); }
  }

  lemma {:induction false} ChoicesBegin(cs: seq<Choice>)
    requires cs != []
    ensures ChoicesActions(cs) != [] && ChoicesActions(cs)[0] == Begin
    decreases |cs|
  {
    if |cs| == 1 {
      assert cs[..0] == [];
    } else {
      ChoicesBegin(cs[..|cs| - 1]);
    }
  }

  lemma {:induction false} SilentRun(parses: string -> bool, chunks: seq<Chunk>)
    requires forall i :: 0 <= i < |chunks| ==> chunks[i].choices == []
    ensures var o := Run(parses, chunks);
            && o.events == [] && !o.st.started && o.st.held.None?
            && o.st.input == PromptOf(chunks) && o.st.output == CompletionOf(chunks)
    decreases |chunks|
  {
    if chunks != [] { SilentRun(parses, chunks[..|chunks| - 1]); }
  }

  lemma FirstEvent(parses: string -> bool, u: Out, acts: seq<Action>)
    requires u.events == [] && !u.st.started && acts != [] && acts[0] == Begin
    ensures Acts(parses, u, acts).events != []
    ensures Acts(parses, u, acts).events[0] == MessageStart(u.st.input, u.st.output)
  {
    assert acts == [Begin] + acts[1..];
    ActsConcat(parses, u, [Begin], acts[1..]);
    ActsOne(parses, u, Begin);
    ActsGrow(parses, Acts(parses, u, [Begin]), acts[1..]);
  }

  /** The first event is a message_start with the usage reported up to the first chunk that has a choice,
      that chunk included. */
  lemma OpeningUsage(parses: string -> bool, chunks: seq<Chunk>, j: nat)
    requires j < |chunks| && chunks[j].choices != [] && forall i :: 0 <= i < j ==> chunks[i].choices == []
    ensures var es := StreamOf(parses, chunks);
            && es != []
            && es[0] == MessageStart(PromptOf(chunks[..j + 1]), ReportedIn(chunks[j].usage, CompletionOf(chunks[..j])))
  {
    var o := Run(parses, chunks[..j]);
    SilentRun(parses, chunks[..j]);
    var u := Out(Metered(o.st, chunks[j].usage), o.events);
    ChoicesBegin(chunks[j].choices);
    FirstEvent(parses, u, ChoicesActions(chunks[j].choices));
    assert chunks[..j + 1] == chunks[..j] + [chunks[j]];
    PromptSnoc(chunks[..j], chunks[j]);
    assert Run(parses, chunks[..j + 1]) == Step(parses, o, chunks[j]) by { assert chunks[..j + 1][..j] == chunks[..j]; }
    RunIsSent(parses, chunks, j + 1);
  }
}
