/**
  * No text and no reasoning is lost or reordered: what the client hears is, for any order
  * of deltas and any number of choices, what the chunks say, apart from the chunk that
  * releases a held finish, whose choices the transcoder skips.
  */
module StreamText {
  import opened Wrappers
  import opened StreamEvents
  import opened TranscoderSteps
  import opened StreamRuns

  /** The deltas of one kind, joined. */
  function Heard(es: seq<Event>, k: Kind): string {
    if es == [] then ""
    else
      var e := es[|es| - 1];
      Heard(es[..|es| - 1], k) + if e.BlockDelta? && e.kind == k then e.piece else ""
  }

  function Said1(a: Action, k: Kind): string {
    if a.Say? && k.TextKind? then a.piece
    else if a.Reason? && k.ThinkingKind? then a.piece
    else ""
  }

  function Spoken(acts: seq<Action>, k: Kind): string {
    if acts == [] then ""
    else Spoken(acts[..|acts| - 1], k) + Said1(acts[|acts| - 1], k)
  }

  /** What one choice carries of a kind. */
  function Carried(c: Choice, k: Kind): string {
    match k
    case TextKind => c.content.GetOr("")
    case ThinkingKind => c.reasoning.GetOr("")
    case ToolKind => ""
  }

  function Told(cs: seq<Choice>, k: Kind): string {
    if cs == [] then "" else Told(cs[..|cs| - 1], k) + Carried(cs[|cs| - 1], k)
  }

  lemma {:induction false} HeardConcat(a: seq<Event>, b: seq<Event>, k: Kind)
    ensures Heard(a + b, k) == Heard(a, k) + Heard(b, k)
    decreases |b|
  {
    if b == [] {
      assert a + b == a;
    } else {
      assert (a + b)[..|a + b| - 1] == a + b[..|b| - 1];
      HeardConcat(a, b[..|b| - 1], k);
    }
  }

  lemma {:induction false} SpokenConcat(a: seq<Action>, b: seq<Action>, k: Kind)
    ensures Spoken(a + b, k) == Spoken(a, k) + Spoken(b, k)
    decreases |b|
  {
    if b == [] {
      assert a + b == a;
    } else {
      assert (a + b)[..|a + b| - 1] == a + b[..|b| - 1];
      SpokenConcat(a, b[..|b| - 1], k);
    }
  }

  predicate Silent(es: seq<Event>, k: Kind) {
    forall i :: 0 <= i < |es| ==> !(es[i].BlockDelta? && es[i].kind == k)
  }

  lemma {:induction false} SilentIsUnheard(es: seq<Event>, k: Kind)
    requires Silent(es, k)
    ensures Heard(es, k) == ""
    decreases |es|
  {
    if es != [] { SilentIsUnheard(es[..|es| - 1], k); }
  }

  lemma {:induction false} FlushIsSilent(
    blocks: map<nat, nat>, bufs: map<nat, string>, ks: seq<nat>, k: Kind)
    requires k != ToolKind
    ensures Silent(Flush(blocks, bufs, ks), k)
    decreases |ks|
  {
    if ks != [] { FlushIsSilent(blocks, bufs, ks[..|ks| - 1], k); }
  }

  lemma SilentConcat(a: seq<Event>, b: seq<Event>, k: Kind)
    requires Silent(a, k) && Silent(b, k)
    ensures Silent(a + b, k)
  {}

  /** Only the delta of a speech action is heard. */
  lemma DeltaIsHeard(a: seq<Event>, b: seq<Event>, d: Event, k: Kind)
    requires d.BlockDelta? && Silent(a, k) && Silent(b, k)
    ensures Heard(a + b + [d], k) == if d.kind == k then d.piece else ""
  {
    SilentConcat(a, b, k);
    SilentIsUnheard(a + b, k);
    assert (a + b + [d])[..|a + b|] == a + b;
  }

  lemma ReasonHeard(st: State, p: string, k: Kind)
    ensures Heard(Reasoned(st, p).events, k) == if k.ThinkingKind? then p else ""
  {
    var next := Reasoned(st, p).st.next;
    var a := if st.textOpen then [BlockStop(st.next)] else [];
    var b := if st.thinkingOpen then [] else [BlockStart(next, ThinkingBlock)];
    DeltaIsHeard(a, b, BlockDelta(next, ThinkingKind, p), k);
  }

  lemma SayHeard(st: State, p: string, k: Kind)
    ensures Heard(Said(st, p).events, k) == if k.TextKind? then p else ""
  {
    var next := Said(st, p).st.next;
    var a := if st.thinkingOpen then [BlockStop(st.next)] else [];
    var b := if st.textOpen then [] else [BlockStart(next, TextBlock)];
    DeltaIsHeard(a, b, BlockDelta(next, TextKind, p), k);
  }

  lemma FinishHeard(st: State, r: string, k: Kind)
    requires k != ToolKind
    ensures Heard(Finished(st, r).events, k) == ""
  {
    var c := Closed(st);
    var f := Flush(c.st.blocks, c.st.bufs, Sorted(c.st.blocks.Keys));
    FlushIsSilent(c.st.blocks, c.st.bufs, Sorted(c.st.blocks.Keys), k);
    SilentConcat(c.events, f, k);
    SilentIsUnheard(c.events + f, k);
  }

  lemma ActHeard(parses: string -> bool, st: State, a: Action, k: Kind)
    requires k != ToolKind
    ensures Heard(Act(parses, st, a).events, k) == Said1(a, k)
  {
    match a
    case Reason(p) => ReasonHeard(st, p, k);
    case Say(p) => SayHeard(st, p, k);
    case Finish(r) => FinishHeard(st, r, k);
    case _ => SilentIsUnheard(Act(parses, st, a).events, k);
  }

  lemma {:induction false} ActsHeard(parses: string -> bool, o: Out, acts: seq<Action>, k: Kind)
    requires k != ToolKind
    ensures Heard(Acts(parses, o, acts).events, k) == Heard(o.events, k) + Spoken(acts, k)
    decreases |acts|
  {
    if acts != [] {
      var front, last := acts[..|acts| - 1], acts[|acts| - 1];
      ActsHeard(parses, o, front, k);
      var p := Acts(parses, o, front);
      ActHeard(parses, p.st, last, k);
      HeardConcat(p.events, Act(parses, p.st, last).events, k);
    }
  }

  predicate Mute(acts: seq<Action>) {
    forall i :: 0 <= i < |acts| ==> !acts[i].Say? && !acts[i].Reason?
  }

  lemma {:induction false} MuteSaysNothing(acts: seq<Action>, k: Kind)
    requires Mute(acts)
    ensures Spoken(acts, k) == ""
    decreases |acts|
  {
    if acts != [] { MuteSaysNothing(acts[..|acts| - 1], k); }
  }

  lemma {:induction false} CallsAreMute(ds: seq<ToolDelta>)
    ensures Mute(CallActions(ds))
    decreases |ds|
  {
    if ds != [] { CallsAreMute(ds[..|ds| - 1]); }
  }

  lemma SpokenSnoc(acts: seq<Action>, a: Action, k: Kind)
    ensures Spoken(acts + [a], k) == Spoken(acts, k) + Said1(a, k)
  {
    assert (acts + [a])[..|acts|] == acts;
  }

  lemma SpokenOne(a: Action, k: Kind)
    ensures Spoken([a], k) == Said1(a, k)
  {
    SpokenSnoc([], a, k);
    assert [] + [a] == [a];
  }

  function ReasonActions(c: Choice): seq<Action> {
    if NonEmpty(c.reasoning) then [Reason(c.reasoning.value)] else []
  }

  function SayActions(c: Choice): seq<Action> {
    if NonEmpty(c.content) then [Say(c.content.value)] else []
  }

  lemma ReasonSays(c: Choice, k: Kind)
    ensures Spoken(ReasonActions(c), k) == if k.ThinkingKind? then Carried(c, k) else ""
  {
    if NonEmpty(c.reasoning) { SpokenOne(Reason(c.reasoning.value), k); }
  }

  lemma SaySays(c: Choice, k: Kind)
    ensures Spoken(SayActions(c), k) == if k.TextKind? then Carried(c, k) else ""
  {
    if NonEmpty(c.content) { SpokenOne(Say(c.content.value), k); }
  }

  lemma SpeechSays(c: Choice, k: Kind)
    ensures Spoken(SpeechActions(c), k) == Carried(c, k)
  {
    SpokenOne(Begin, k);
    SpokenConcat([Begin], ReasonActions(c), k);
    SpokenConcat([Begin] + ReasonActions(c), SayActions(c), k);
    ReasonSays(c, k);
    SaySays(c, k);
  }

  lemma RestIsMute(c: Choice)
    ensures Mute(CallsActions(c)) && Mute(FinishActions(c))
  {
    if c.calls.Some? { CallsAreMute(c.calls.value); }
  }

  lemma OnlyFirstSays(a: seq<Action>, b: seq<Action>, c: seq<Action>, k: Kind)
    requires Mute(b) && Mute(c)
    ensures Spoken(a + b + c, k) == Spoken(a, k)
  {
    MuteSaysNothing(b, k);
    MuteSaysNothing(c, k);
    SpokenConcat(a, b, k);
    SpokenConcat(a + b, c, k);
  }

  /** A choice's actions say exactly what the choice carries. */
  lemma ChoiceSays(c: Choice, k: Kind)
    ensures Spoken(ChoiceActions(c), k) == Carried(c, k)
  {
    SpeechSays(c, k);
    RestIsMute(c);
    OnlyFirstSays(SpeechActions(c), CallsActions(c), FinishActions(c), k);
  }

  lemma {:induction false} ChoicesSay(cs: seq<Choice>, k: Kind)
    ensures Spoken(ChoicesActions(cs), k) == Told(cs, k)
    decreases |cs|
  {
    if cs != [] {
      ChoicesSay(cs[..|cs| - 1], k);
      ChoiceSays(cs[|cs| - 1], k);
      SpokenConcat(ChoicesActions(cs[..|cs| - 1]), ChoiceActions(cs[|cs| - 1]), k);
    }
  }

  lemma {:induction false} ToldConcat(a: seq<Choice>, b: seq<Choice>, k: Kind)
    ensures Told(a + b, k) == Told(a, k) + Told(b, k)
    decreases |b|
  {
    if b == [] {
      assert a + b == a;
    } else {
      assert (a + b)[..|a + b| - 1] == a + b[..|b| - 1];
      ToldConcat(a, b[..|b| - 1], k);
    }
  }

  // ---- Whole runs ----------------------------------------------------------------------

  /** A finish is held after these chunks. */
  predicate Held(chunks: seq<Chunk>) {
    chunks != [] && !Held(chunks[..|chunks| - 1]) && HasFinish(chunks[|chunks| - 1])
  }

  /** The choices that are read: all but those of a chunk arriving while a finish is held. */
  function KeptChoices(chunks: seq<Chunk>): seq<Choice> {
    if chunks == [] then []
    else KeptChoices(chunks[..|chunks| - 1]) +
         if Held(chunks[..|chunks| - 1]) then [] else chunks[|chunks| - 1].choices
  }

  lemma {:induction false} RunIsHeard(parses: string -> bool, chunks: seq<Chunk>, k: Kind)
    requires k != ToolKind
    ensures Run(parses, chunks).st.held.Some? <==> Held(chunks)
    ensures Heard(Run(parses, chunks).events, k) == Told(KeptChoices(chunks), k)
    decreases |chunks|
  {
    if chunks != [] {
      var front, last := chunks[..|chunks| - 1], chunks[|chunks| - 1];
      RunIsHeard(parses, front, k);
      var o := Run(parses, front);
      var u := Out(Metered(o.st, last.usage), o.events);
      if Held(front) {
        DrainIsSilent(u, k);
        assert KeptChoices(chunks) == KeptChoices(front);
      } else {
        var acts := ChoicesActions(last.choices);
        HeldByFinish(parses, u, acts);
        ChoicesFinish(last.choices);
        ActsHeard(parses, u, acts, k);
        ChoicesSay(last.choices, k);
        ToldConcat(KeptChoices(front), last.choices, k);
      }
    }
  }

  lemma DrainIsSilent(o: Out, k: Kind)
    ensures Heard(Drained(o).events, k) == Heard(o.events, k)
    ensures Drained(o).st.held.None?
  {
    if o.st.held.Some? {
      var f := FinishEvents(o.st, o.st.held.value);
      HeardConcat(o.events, f, k);
      SilentIsUnheard(f, k);
    }
  }

  /** Text and reasoning reach the client whole and in order, whatever the order of deltas. */
  lemma SpeechIsPreserved(parses: string -> bool, chunks: seq<Chunk>)
    ensures Heard(StreamOf(parses, chunks), TextKind) == Told(KeptChoices(chunks), TextKind)
    ensures Heard(StreamOf(parses, chunks), ThinkingKind) == Told(KeptChoices(chunks), ThinkingKind)
  {
    RunIsHeard(parses, chunks, TextKind);
    RunIsHeard(parses, chunks, ThinkingKind);
    DrainIsSilent(Run(parses, chunks), TextKind);
    DrainIsSilent(Run(parses, chunks), ThinkingKind);
  }

  function Finishing(): Chunk { Chunk([Choice(None, None, None, Some("stop"))], None) }

  function Saying(text: string): Chunk { Chunk([Choice(None, Some(text), None, None)], None) }

  /** Text that arrives in the chunk after a finishing one is lost, whatever it is. */
  lemma TextAfterFinishIsLost(parses: string -> bool, text: string)
    ensures Heard(StreamOf(parses, [Finishing(), Saying(text)]), TextKind) == ""
    ensures Told(Finishing().choices + Saying(text).choices, TextKind) == text
  {
    var chunks := [Finishing(), Saying(text)];
    assert chunks[..1] == [Finishing()] && chunks[..1][..0] == [];
    assert HasFinish(Finishing()) by { assert Finishing().choices[0].finish.Some?; }
    assert !Held([]) && Held(chunks[..1]);
    assert KeptChoices([]) == [];
    assert KeptChoices(chunks[..1]) == Finishing().choices;
    assert KeptChoices(chunks) == Finishing().choices;
    SpeechIsPreserved(parses, chunks);
    var f, t := Finishing().choices, Saying(text).choices;
    assert f[..0] == [] && t[..0] == [];
    assert Told(f, TextKind) == "" && Told(t, TextKind) == text;
    ToldConcat(f, t, TextKind);
  }
}
