/**
  * Streaming agrees with not streaming: the blocks reassembled from the events against the
  * blocks the non-streaming converter builds from the message the stream adds up to.
  */
module StreamAgreement {
  import opened Wrappers
  import opened StreamEvents
  import opened TranscoderSteps
  import opened StreamRuns
  import opened StreamWellFormed
  import opened StreamText
  import opened StreamMessage
  import opened StreamBlocks
  import opened ResponseConverter

  // ---- What the outline keeps --------------------------------------------------------------------

  function Recited(parts: seq<Part>, k: Kind): string {
    if parts == [] then ""
    else
      var p := parts[|parts| - 1];
      Recited(parts[..|parts| - 1], k) + if p.Plain? && p.kind == k then p.text else ""
  }

  function ToolsOf(parts: seq<Part>): seq<Part> {
    if parts == [] then []
    else ToolsOf(parts[..|parts| - 1]) +
         if parts[|parts| - 1].Tool? then [parts[|parts| - 1]] else []
  }

  /** Runs are of text or reasoning and are not empty. */
  predicate Solid(parts: seq<Part>) {
    forall i :: 0 <= i < |parts| && parts[i].Plain? ==>
      parts[i].text != "" && parts[i].kind != ToolKind
  }

  predicate Meaty(acts: seq<Action>) {
    forall i :: 0 <= i < |acts| && (acts[i].Say? || acts[i].Reason?) ==> acts[i].piece != ""
  }

  lemma PartsSnoc(parts: seq<Part>, p: Part, k: Kind)
    ensures Recited(parts + [p], k) ==
            Recited(parts, k) + if p.Plain? && p.kind == k then p.text else ""
    ensures ToolsOf(parts + [p]) == ToolsOf(parts) + if p.Tool? then [p] else []
  {
    assert (parts + [p])[..|parts|] == parts;
  }

  lemma WriteKeeps(sk: Sketch, kind: Kind, piece: string, k: Kind)
    ensures Recited(Write(sk, kind, piece).parts, k) ==
            Recited(sk.parts, k) + if kind == k then piece else ""
    ensures ToolsOf(Write(sk, kind, piece).parts) == ToolsOf(sk.parts)
  {
    if Continues(sk, kind) {
      var front, p := sk.parts[..|sk.parts| - 1], sk.parts[|sk.parts| - 1];
      assert sk.parts == front + [p];
      PartsSnoc(front, p, k);
      PartsSnoc(front, Plain(kind, p.text + piece), k);
      if kind == k {
        assert Recited(front, k) + (p.text + piece) == Recited(front, k) + p.text + piece;
      }
    } else {
      PartsSnoc(sk.parts, Plain(kind, piece), k);
    }
  }

  lemma {:induction false} DrawKeeps(acts: seq<Action>, k: Kind)
    requires k != ToolKind
    ensures Recited(Draw(Empty, acts).parts, k) == Spoken(acts, k)
    ensures ToolsOf(Draw(Empty, acts).parts) == Gather(acts, CallPart)
    decreases |acts|
  {
    if acts != [] {
      var front, a := acts[..|acts| - 1], acts[|acts| - 1];
      DrawKeeps(front, k);
      DrawOneKeeps(Draw(Empty, front), a, k);
    }
  }

  lemma DrawOneKeeps(sk: Sketch, a: Action, k: Kind)
    requires k != ToolKind
    ensures Recited(DrawOne(sk, a).parts, k) == Recited(sk.parts, k) + Said1(a, k)
    ensures ToolsOf(DrawOne(sk, a).parts) == ToolsOf(sk.parts) + CallPart(a)
  {
    match a
    case Reason(p) => WriteKeeps(sk, ThinkingKind, p, k);
    case Say(p) => WriteKeeps(sk, TextKind, p, k);
    case Call(i, id, name) => PartsSnoc(sk.parts, Tool(i, id, name), k);
    case _ => SilentKeeps(sk, a, k);
  }

  lemma SilentKeeps(sk: Sketch, a: Action, k: Kind)
    requires !a.Reason? && !a.Say? && !a.Call?
    ensures DrawOne(sk, a).parts == sk.parts && Said1(a, k) == "" && CallPart(a) == []
    ensures Recited(sk.parts, k) + "" == Recited(sk.parts, k) && ToolsOf(sk.parts) + [] == ToolsOf(sk.parts)
  {}

  lemma {:induction false} DrawIsSolid(acts: seq<Action>)
    requires Meaty(acts)
    ensures Solid(Draw(Empty, acts).parts)
    decreases |acts|
  {
    if acts != [] { DrawIsSolid(acts[..|acts| - 1]); }
  }

  lemma {:induction false} CallsAreMeaty(ds: seq<ToolDelta>)
    ensures Meaty(CallActions(ds))
    decreases |ds|
  {
    if ds != [] { CallsAreMeaty(ds[..|ds| - 1]); }
  }

  lemma MeatyConcat(a: seq<Action>, b: seq<Action>)
    requires Meaty(a) && Meaty(b)
    ensures Meaty(a + b)
  {}

  lemma ChoiceIsMeaty(c: Choice)
    ensures Meaty(ChoiceActions(c))
  {
    if c.calls.Some? {
      CallsAreMeaty(c.calls.value);
      MeatyConcat([CloseOpen], CallActions(c.calls.value));
    }
    MeatyConcat(SpeechActions(c), CallsActions(c));
    MeatyConcat(SpeechActions(c) + CallsActions(c), FinishActions(c));
  }

  lemma {:induction false} ChoicesAreMeaty(cs: seq<Choice>)
    ensures Meaty(ChoicesActions(cs))
    decreases |cs|
  {
    if cs != [] {
      ChoicesAreMeaty(cs[..|cs| - 1]);
      ChoiceIsMeaty(cs[|cs| - 1]);
      MeatyConcat(ChoicesActions(cs[..|cs| - 1]), ChoiceActions(cs[|cs| - 1]));
    }
  }

  lemma {:induction false} StreamIsMeaty(chunks: seq<Chunk>)
    ensures Meaty(StreamActions(chunks))
    decreases |chunks|
  {
    if chunks != [] {
      var front, last := chunks[..|chunks| - 1], chunks[|chunks| - 1];
      StreamIsMeaty(front);
      ChoicesAreMeaty(last.choices);
      MeatyConcat([Meter(last.usage)], ChoicesActions(last.choices));
      MeatyConcat(StreamActions(front), ChunkActions(last));
    }
  }

  // ---- Tidy outlines ----------------------------------------------------------------------------

  function Rank(p: Part): nat {
    if p.Tool? then 2 else if p.kind.TextKind? then 1 else 0
  }

  /** At most one run of reasoning, then at most one run of text, then the tools. */
  predicate Tidy(parts: seq<Part>) {
    forall i, j :: 0 <= i < j < |parts| ==>
      Rank(parts[i]) < Rank(parts[j]) || Rank(parts[i]) == Rank(parts[j]) == 2
  }

  function Run1(kind: Kind, text: string): seq<Part> {
    if text != "" then [Plain(kind, text)] else []
  }

  function Canon(reasoning: string, text: string, tools: seq<Part>): seq<Part> {
    Run1(ThinkingKind, reasoning) + Run1(TextKind, text) + tools
  }

  lemma CanonIsTidy(reasoning: string, text: string, tools: seq<Part>)
    requires AllTools(tools)
    ensures Tidy(Canon(reasoning, text, tools))
  {}

  lemma {:induction false} ToolsOfAreTools(parts: seq<Part>)
    ensures AllTools(ToolsOf(parts))
    decreases |parts|
  {
    if parts != [] { ToolsOfAreTools(parts[..|parts| - 1]); }
  }

  /** A tidy outline is determined by its text, its reasoning and its tools. */
  lemma {:induction false} TidyIsCanon(parts: seq<Part>)
    requires Tidy(parts) && Solid(parts)
    ensures parts ==
            Canon(Recited(parts, ThinkingKind), Recited(parts, TextKind), ToolsOf(parts))
    decreases |parts|
  {
    if parts != [] {
      var front, p := parts[..|parts| - 1], parts[|parts| - 1];
      assert parts == front + [p];
      TidyIsCanon(front);
      PartsSnoc(front, p, ThinkingKind);
      PartsSnoc(front, p, TextKind);
      forall i | 0 <= i < |front| ensures Rank(front[i]) < Rank(p) || p.Tool? {
        assert front[i] == parts[i];
      }
      var r, t, ts := Recited(front, ThinkingKind), Recited(front, TextKind), ToolsOf(front);
      ToolsOfAreTools(front);
      if p.Tool? {
        assert r + "" == r && t + "" == t;
        assert ToolsOf(parts) == ts + [p];
        Associates(Run1(ThinkingKind, r) + Run1(TextKind, t), ts, [p]);
      } else {
        PlainEndsTidy(front, p, r, t, ts);
      }
    }
  }

  lemma PlainEndsTidy(front: seq<Part>, p: Part, r: string, t: string, ts: seq<Part>)
    requires front == Canon(r, t, ts) && AllTools(ts)
    requires p.Plain? && p.text != "" && p.kind != ToolKind
    requires forall i :: 0 <= i < |front| ==> Rank(front[i]) < Rank(p)
    ensures front + [p] ==
            Canon(r + (if p.kind.ThinkingKind? then p.text else ""),
                  t + (if p.kind.TextKind? then p.text else ""), ts)
  {
    NoneOfRank(front, p, r, t, ts);
    if p.kind.ThinkingKind? {
      assert front == [] && r + p.text == p.text && t + "" == t;
    } else {
      assert t + p.text == p.text && r + "" == r;
    }
  }

  lemma NoneOfRank(front: seq<Part>, p: Part, r: string, t: string, ts: seq<Part>)
    requires front == Canon(r, t, ts) && AllTools(ts)
    requires p.Plain? && p.kind != ToolKind
    requires forall i :: 0 <= i < |front| ==> Rank(front[i]) < Rank(p)
    ensures ts == [] && t == "" && (p.kind.ThinkingKind? ==> r == "")
  {
    CanonHas(r, t, ts);
  }

  lemma CanonHas(r: string, t: string, ts: seq<Part>)
    ensures ts != [] ==> ts[0] in Canon(r, t, ts)
    ensures t != "" ==> Plain(TextKind, t) in Canon(r, t, ts)
    ensures r != "" ==> Plain(ThinkingKind, r) in Canon(r, t, ts)
  {
    var c := Canon(r, t, ts);
    var n, m := |Run1(ThinkingKind, r)|, |Run1(TextKind, t)|;
    if ts != [] { assert c[n + m] == ts[0]; }
    if t != "" { assert c[n] == Plain(TextKind, t); }
    if r != "" { assert c[0] == Plain(ThinkingKind, r); }
  }

  // ---- Both sides as content blocks ----------------------------------------------------------------

  /** The JSON reader, the null value and the empty object. */
  datatype Json<!J> = Json(read: string -> Option<J>, nil: J, empty: J)

  function Parses<J>(json: Json<J>): string -> bool {
    (s: string) => json.read(s).Some?
  }

  /** A reassembled draft as a block: a tool without arguments keeps its initial `{}`. */
  function Present<J>(json: Json<J>, d: Draft): ContentBlock<J> {
    match d.block
    case ThinkingBlock => Thinking(d.body)
    case TextBlock => Text(d.body)
    case ToolUse(id, name) =>
      ToolUseBlock(id, name, if d.body == "" then json.empty else json.read(d.body).GetOr(json.nil))
  }

  function Presented<J>(json: Json<J>, ds: seq<Draft>): seq<ContentBlock<J>> {
    seq(|ds|, i requires 0 <= i < |ds| => Present(json, ds[i]))
  }

  /** A part of the outline as the non-streaming converter shows it. */
  function Converted<J>(json: Json<J>, ds: seq<ToolDelta>, p: Part): ContentBlock<J> {
    match p
    case Plain(k, t) => if k.TextKind? then Text(t) else Thinking(t)
    case Tool(_, _, _) => CallBlock(json.read, json.nil, CallOf(ds, p))
  }

  /** Blocks and outline correspond, part by part. */
  ghost predicate Shows<J(!new)>(
    json: Json<J>, ds: seq<ToolDelta>, b: seq<ContentBlock<J>>, c: seq<Part>)
  {
    |b| == |c| && forall i :: 0 <= i < |c| ==> b[i] == Converted(json, ds, c[i])
  }

  lemma ShowsConcat<J(!new)>(json: Json<J>, ds: seq<ToolDelta>,
                             a: seq<ContentBlock<J>>, c: seq<Part>,
                             b: seq<ContentBlock<J>>, d: seq<Part>)
    requires Shows(json, ds, a, c) && Shows(json, ds, b, d)
    ensures Shows(json, ds, a + b, c + d)
  {}

  lemma {:induction false} CallBlocksAt<J(!new)>(json: Json<J>, ds: seq<ToolDelta>, ts: seq<Part>)
    requires AllTools(ts)
    ensures Shows(json, ds, CallBlocks(json.read, json.nil, ToolCalls(ds, ts)), ts)
    decreases |ts|
  {
    if ts != [] {
      var front, calls := ts[..|ts| - 1], ToolCalls(ds, ts);
      CallBlocksAt(json, ds, front);
      assert calls[..|calls| - 1] == ToolCalls(ds, front);
    }
  }

  /** The converter's blocks are the canonical outline, part by part. */
  lemma ConverterIsCanon<J(!new)>(json: Json<J>, cs: seq<Choice>)
    ensures Shows(json, Deltas(cs), Blocks(json.read, json.nil, Accumulated(cs)),
                  Canon(Told(cs, ThinkingKind), Told(cs, TextKind), Tools(Deltas(cs))))
  {
    var ds, r, t := Deltas(cs), Told(cs, ThinkingKind), Told(cs, TextKind);
    ToolsAreTools(ds);
    CallBlocksAt(json, ds, Tools(ds));
    var x: seq<ContentBlock<J>> := if r != "" then [Thinking(r)] else [];
    var y: seq<ContentBlock<J>> := if t != "" then [Text(t)] else [];
    assert Shows(json, ds, x, Run1(ThinkingKind, r));
    assert Shows(json, ds, y, Run1(TextKind, t));
    ShowsConcat(json, ds, x, Run1(ThinkingKind, r), y, Run1(TextKind, t));
    ShowsConcat(json, ds, x + y, Run1(ThinkingKind, r) + Run1(TextKind, t),
                CallBlocks(json.read, json.nil, ToolCalls(ds, Tools(ds))), Tools(ds));
  }

  function BlockRank<J>(b: ContentBlock<J>): nat {
    match b
    case Thinking(_) => 0
    case Text(_) => 1
    case ToolUseBlock(_, _, _) => 2
  }

  lemma PresentRank<J>(json: Json<J>, parses: string -> bool, acts: seq<Action>, p: Part)
    ensures BlockRank(Present(json, FinalDraft(parses, acts, p))) == Rank(p)
  {}

  lemma ConvertedRank<J>(json: Json<J>, ds: seq<ToolDelta>, p: Part)
    ensures BlockRank(Converted(json, ds, p)) == Rank(p)
  {}

  /** There are arguments, and what the stream keeps of them, which is the last complete object sent
      after other fragments with all that follows it, reads as all of them joined do. */
  predicate ReadsAlike<J(==)>(json: Json<J>, ss: seq<string>) {
    && ss != []
    && json.read(JoinAll(Parses(json), ss)).GetOr(json.nil) == json.read(Concat(ss)).GetOr(json.nil)
  }

  /** A streamed part and a converted part are the same block unless it is a tool whose arguments are
      missing or read differently. */
  lemma PartAgrees<J>(json: Json<J>, acts: seq<Action>, ds: seq<ToolDelta>, p: Part)
    requires json.read("").None? && json.nil != json.empty
    requires p.Tool? ==> Args(Parses(json), acts, p.index) == JoinAll(Parses(json), Fragments(ds, p.index))
    ensures Present(json, FinalDraft(Parses(json), acts, p)) == Converted(json, ds, p) <==>
            (p.Tool? ==> ReadsAlike(json, Fragments(ds, p.index)))
  {
    if p.Tool? {
      ConcatEmpty(ds, p.index);
      JoinEmpty(Parses(json), ds, p.index);
    }
  }

  lemma {:induction false} JoinEmpty(parses: string -> bool, ds: seq<ToolDelta>, k: nat)
    ensures JoinAll(parses, Fragments(ds, k)) == "" <==> Fragments(ds, k) == []
    decreases |ds|
  {
    if ds != [] {
      var ss := Fragments(ds[..|ds| - 1], k);
      JoinEmpty(parses, ds[..|ds| - 1], k);
      var a := ArgumentsOf(ds[|ds| - 1]);
      if ds[|ds| - 1].index == k && a != "" {
        assert Fragments(ds, k) == ss + [a];
        assert (ss + [a])[..|ss|] == ss;
      } else {
        assert Fragments(ds, k) == ss;
      }
    }
  }

  lemma {:induction false} ConcatEmpty(ds: seq<ToolDelta>, k: nat)
    ensures Concat(Fragments(ds, k)) == "" <==> Fragments(ds, k) == []
    decreases |ds|
  {
    if ds != [] {
      var ss := Fragments(ds[..|ds| - 1], k);
      ConcatEmpty(ds[..|ds| - 1], k);
      var a := ArgumentsOf(ds[|ds| - 1]);
      if ds[|ds| - 1].index == k && a != "" {
        assert Fragments(ds, k) == ss + [a];
        assert (ss + [a])[..|ss|] == ss;
      } else {
        assert Fragments(ds, k) == ss;
      }
    }
  }

  // ---- Main results ----------------------------------------------------------------------------------

  /** Every announced tool has arguments. */
  predicate AllHaveArguments(ds: seq<ToolDelta>) {
    forall i :: 0 <= i < |Tools(ds)| && Tools(ds)[i].Tool? ==>
      Fragments(ds, Tools(ds)[i].index) != []
  }

  /** Every announced tool has arguments that the stream and the accumulated message read alike. */
  predicate AllReadAlike<J(==)>(json: Json<J>, ds: seq<ToolDelta>) {
    forall i :: 0 <= i < |Tools(ds)| && Tools(ds)[i].Tool? ==> ReadsAlike(json, Fragments(ds, Tools(ds)[i].index))
  }

  /** Without complete objects after other fragments, that is the same as having arguments. */
  lemma ReadAlikeIffArguments<J(!new)>(json: Json<J>, ds: seq<ToolDelta>)
    requires NoLateObjects(Parses(json), ds)
    ensures AllReadAlike(json, ds) <==> AllHaveArguments(ds)
  {
    forall k: nat ensures JoinAll(Parses(json), Fragments(ds, k)) == Concat(Fragments(ds, k)) {
      JoinIsConcat(Parses(json), Fragments(ds, k));
    }
  }

  ghost predicate NoLateObjects(parses: string -> bool, ds: seq<ToolDelta>) {
    forall k: nat {:trigger Fragments(ds, k)} :: NoLateObject(parses, Fragments(ds, k))
  }

  /** The choices through the first finishing one: what the client is owed. */
  function Owed(chunks: seq<Chunk>): seq<Choice> { Flat(Through(chunks)) }

  function OutlineOf(chunks: seq<Chunk>): seq<Part> {
    Draw(Empty, StreamActions(Through(chunks))).parts
  }

  function Received<J>(json: Json<J>, chunks: seq<Chunk>): seq<ContentBlock<J>> {
    Presented(json, Assemble([], UpToStop(StreamOf(Parses(json), chunks))))
  }

  function Unstreamed<J>(json: Json<J>, chunks: seq<Chunk>): seq<ContentBlock<J>> {
    Blocks(json.read, json.nil, Accumulated(Owed(chunks)))
  }

  lemma OutlineFacts(chunks: seq<Chunk>)
    ensures Solid(OutlineOf(chunks))
    ensures Recited(OutlineOf(chunks), ThinkingKind) == Told(Owed(chunks), ThinkingKind)
    ensures Recited(OutlineOf(chunks), TextKind) == Told(Owed(chunks), TextKind)
    ensures ToolsOf(OutlineOf(chunks)) == Tools(Deltas(Owed(chunks)))
  {
    var t := Through(chunks);
    StreamIsMeaty(t);
    DrawIsSolid(StreamActions(t));
    DrawKeeps(StreamActions(t), ThinkingKind);
    DrawKeeps(StreamActions(t), TextKind);
    StreamSays(t, ThinkingKind);
    StreamSays(t, TextKind);
    GatherStream(t, CallPart);
    GatherTools(Deltas(Flat(t)));
  }

  function CanonOf(chunks: seq<Chunk>): seq<Part> {
    Canon(Told(Owed(chunks), ThinkingKind), Told(Owed(chunks), TextKind),
          Tools(Deltas(Owed(chunks))))
  }

  lemma TidyIffCanon(chunks: seq<Chunk>)
    ensures Tidy(OutlineOf(chunks)) <==> OutlineOf(chunks) == CanonOf(chunks)
  {
    OutlineFacts(chunks);
    ToolsAreTools(Deltas(Owed(chunks)));
    CanonIsTidy(Told(Owed(chunks), ThinkingKind), Told(Owed(chunks), TextKind),
                Tools(Deltas(Owed(chunks))));
    if Tidy(OutlineOf(chunks)) { TidyIsCanon(OutlineOf(chunks)); }
  }

  ghost predicate Eligible<J(!new)>(json: Json<J>, chunks: seq<Chunk>) {
    SingleChoice(chunks) && Finishes(chunks) &&
    Distinct(Announced(StreamActions(Through(chunks)))) &&
    json.read("").None? && json.nil != json.empty
  }

  /** What is received, part by part. */
  lemma ReceivedAt<J(!new)>(json: Json<J>, chunks: seq<Chunk>)
    requires Eligible(json, chunks)
    ensures var acts := StreamActions(Through(chunks));
            |Received(json, chunks)| == |OutlineOf(chunks)| &&
            forall i :: 0 <= i < |OutlineOf(chunks)| ==>
              Received(json, chunks)[i] ==
              Present(json, FinalDraft(Parses(json), acts, OutlineOf(chunks)[i]))
  {
    StreamedBlocks(Parses(json), chunks);
  }

  /** A received part is the converted part unless it is a tool whose arguments are missing or read
      differently. */
  lemma PartIff<J(!new)>(json: Json<J>, chunks: seq<Chunk>, p: Part)
    requires Eligible(json, chunks)
    ensures Present(json, FinalDraft(Parses(json), StreamActions(Through(chunks)), p)) ==
            Converted(json, Deltas(Owed(chunks)), p) <==>
            (p.Tool? ==> ReadsAlike(json, Fragments(Deltas(Owed(chunks)), p.index)))
  {
    if p.Tool? { StreamArgs(Parses(json), Through(chunks), p.index); }
    PartAgrees(json, StreamActions(Through(chunks)), Deltas(Owed(chunks)), p);
  }

  lemma AgreementNeedsTidy<J(!new)>(json: Json<J>, chunks: seq<Chunk>)
    requires Eligible(json, chunks)
    requires Received(json, chunks) == Unstreamed(json, chunks)
    ensures Tidy(OutlineOf(chunks))
  {
    var parts, c := OutlineOf(chunks), CanonOf(chunks);
    var acts, ds := StreamActions(Through(chunks)), Deltas(Owed(chunks));
    ReceivedAt(json, chunks);
    ConverterIsCanon(json, Owed(chunks));
    ToolsAreTools(ds);
    CanonIsTidy(Told(Owed(chunks), ThinkingKind), Told(Owed(chunks), TextKind), Tools(ds));
    forall i | 0 <= i < |parts| ensures Rank(parts[i]) == Rank(c[i]) {
      PresentRank(json, Parses(json), acts, parts[i]);
      ConvertedRank(json, ds, c[i]);
    }
  }

  lemma {:induction false} ToolsOfIn(parts: seq<Part>, i: nat)
    requires i < |parts| && parts[i].Tool?
    ensures parts[i] in ToolsOf(parts)
    decreases |parts|
  {
    if i < |parts| - 1 { ToolsOfIn(parts[..|parts| - 1], i); }
  }

  lemma {:induction false} InToolsOf(parts: seq<Part>, p: Part)
    requires p in ToolsOf(parts)
    ensures p in parts && p.Tool?
    decreases |parts|
  {
    if parts != [] && p in ToolsOf(parts[..|parts| - 1]) { InToolsOf(parts[..|parts| - 1], p); }
  }

  /** All tools' arguments read alike exactly when every part is received as converted. */
  lemma ArgumentsIff<J(!new)>(json: Json<J>, chunks: seq<Chunk>)
    requires Eligible(json, chunks)
    ensures AllReadAlike(json, Deltas(Owed(chunks))) <==>
            forall i :: 0 <= i < |OutlineOf(chunks)| ==>
              Present(json, FinalDraft(Parses(json), StreamActions(Through(chunks)),
                                       OutlineOf(chunks)[i])) ==
              Converted(json, Deltas(Owed(chunks)), OutlineOf(chunks)[i])
  {
    var parts, ds := OutlineOf(chunks), Deltas(Owed(chunks));
    OutlineFacts(chunks);
    ToolsAreTools(ds);
    forall i | 0 <= i < |parts|
      ensures Present(json, FinalDraft(Parses(json), StreamActions(Through(chunks)), parts[i])) ==
              Converted(json, ds, parts[i]) <==>
              (parts[i].Tool? ==> ReadsAlike(json, Fragments(ds, parts[i].index)))
      ensures parts[i].Tool? ==> parts[i] in Tools(ds)
    {
      PartIff(json, chunks, parts[i]);
      if parts[i].Tool? { ToolsOfIn(parts, i); }
    }
    forall i | 0 <= i < |Tools(ds)| ensures Tools(ds)[i] in parts {
      InToolsOf(parts, Tools(ds)[i]);
    }
  }

  /**
    * Streaming agrees with not streaming exactly when the blocks come as at most one run of
    * reasoning, at most one of text, then the tools, and every tool has arguments that read the
    * same whether a complete object sent late replaces what came before or is joined to it.
    */
  lemma StreamingAgreesIff<J(!new)>(json: Json<J>, chunks: seq<Chunk>)
    requires Eligible(json, chunks)
    ensures Received(json, chunks) == Unstreamed(json, chunks) <==>
            Tidy(OutlineOf(chunks)) && AllReadAlike(json, Deltas(Owed(chunks)))
  {
    ReceivedAt(json, chunks);
    ConverterIsCanon(json, Owed(chunks));
    TidyIffCanon(chunks);
    ArgumentsIff(json, chunks);
    if Received(json, chunks) == Unstreamed(json, chunks) {
      AgreementNeedsTidy(json, chunks);
    }
  }

  /**
    * So a tool whose last fragment is a complete object, while all its fragments joined are not
    * valid JSON, has that object as its arguments in the stream and null otherwise.
    */
  lemma LateObjectDisagrees<J(!new)>(json: Json<J>, chunks: seq<Chunk>, i: nat)
    requires Eligible(json, chunks) && i < |Tools(Deltas(Owed(chunks)))| && Tools(Deltas(Owed(chunks)))[i].Tool?
    requires var ss := Fragments(Deltas(Owed(chunks)), Tools(Deltas(Owed(chunks)))[i].index);
             && ss != [] && WholeObject(Parses(json), ss[|ss| - 1])
             && json.read(ss[|ss| - 1]) != Some(json.nil) && json.read(Concat(ss)).None?
    ensures Received(json, chunks) != Unstreamed(json, chunks)
  {
    var ss := Fragments(Deltas(Owed(chunks)), Tools(Deltas(Owed(chunks)))[i].index);
    StreamingAgreesIff(json, chunks);
    assert JoinAll(Parses(json), ss) == ss[|ss| - 1];
    assert !ReadsAlike(json, ss);
  }

  // ---- Streams in the usual order ----------------------------------------------------------------------

  /** Reasoning before text, text before tool calls. */
  predicate Ordered(cs: seq<Choice>) {
    forall i, j :: 0 <= i < j < |cs| ==>
      (NonEmpty(cs[j].reasoning) ==> !NonEmpty(cs[i].content) && cs[i].calls.None?) &&
      (NonEmpty(cs[j].content) ==> cs[i].calls.None?)
  }

  predicate OnlyLastFinishes(cs: seq<Choice>) {
    forall i :: 0 <= i < |cs| - 1 ==> cs[i].finish.None?
  }

  lemma {:induction false} DrawConcat(sk: Sketch, a: seq<Action>, b: seq<Action>)
    ensures Draw(sk, a + b) == Draw(Draw(sk, a), b)
    decreases |b|
  {
    if b == [] {
      assert a + b == a;
    } else {
      assert (a + b)[..|a + b| - 1] == a + b[..|b| - 1];
      DrawConcat(sk, a, b[..|b| - 1]);
    }
  }

  lemma DrawSnoc(sk: Sketch, a: seq<Action>, x: Action)
    ensures Draw(sk, a + [x]) == DrawOne(Draw(sk, a), x)
  {
    assert (a + [x])[..|a|] == a;
  }

  lemma {:induction false} ChoicesActionsConcat(a: seq<Choice>, b: seq<Choice>)
    ensures ChoicesActions(a + b) == ChoicesActions(a) + ChoicesActions(b)
    decreases |b|
  {
    if b == [] {
      assert a + b == a;
    } else {
      var front, c := b[..|b| - 1], b[|b| - 1];
      assert (a + b)[..|a + b| - 1] == a + front;
      ChoicesActionsConcat(a, front);
      Associates(ChoicesActions(a), ChoicesActions(front), ChoiceActions(c));
    }
  }

  lemma {:induction false} DrawStream(chunks: seq<Chunk>)
    ensures Draw(Empty, StreamActions(chunks)) == Draw(Empty, ChoicesActions(Flat(chunks)))
    decreases |chunks|
  {
    if chunks != [] {
      var front, last := chunks[..|chunks| - 1], chunks[|chunks| - 1];
      DrawStream(front);
      DrawChunk(Draw(Empty, StreamActions(front)), last);
      DrawConcat(Empty, StreamActions(front), ChunkActions(last));
      ChoicesActionsConcat(Flat(front), last.choices);
      DrawConcat(Empty, ChoicesActions(Flat(front)), ChoicesActions(last.choices));
    }
  }

  lemma DrawChunk(sk: Sketch, c: Chunk)
    ensures Draw(sk, ChunkActions(c)) == Draw(sk, ChoicesActions(c.choices))
  {
    DrawSnoc(sk, [], Meter(c.usage));
    assert [] + [Meter(c.usage)] == [Meter(c.usage)];
    DrawConcat(sk, [Meter(c.usage)], ChoicesActions(c.choices));
  }

  predicate UpToRank(parts: seq<Part>, r: nat) {
    forall i :: 0 <= i < |parts| ==> Rank(parts[i]) <= r
  }

  /** A tidy outline whose last run, if any, is still open. */
  predicate Going(sk: Sketch, r: nat) {
    Tidy(sk.parts) && UpToRank(sk.parts, r) && (sk.parts != [] ==> sk.open)
  }

  lemma WriteGoes(sk: Sketch, kind: Kind, piece: string)
    requires kind != ToolKind && Solid(sk.parts)
    requires Going(sk, Rank(Plain(kind, piece)))
    ensures Going(Write(sk, kind, piece), Rank(Plain(kind, piece)))
  {
    var n := |sk.parts| - 1;
    if !Continues(sk, kind) && n >= 0 {
      assert Rank(sk.parts[n]) < Rank(Plain(kind, piece));
    }
  }

  lemma {:induction false} CallsStayTidy(sk: Sketch, ds: seq<ToolDelta>)
    requires Tidy(sk.parts)
    ensures Tidy(Draw(sk, CallActions(ds)).parts)
    decreases |ds|
  {
    if ds != [] {
      var front, d := ds[..|ds| - 1], ds[|ds| - 1];
      CallsStayTidy(sk, front);
      DrawConcat(sk, CallActions(front), ToolActions(d));
      ToolStaysTidy(Draw(sk, CallActions(front)), d);
    }
  }

  lemma ToolStaysTidy(sk: Sketch, d: ToolDelta)
    requires Tidy(sk.parts)
    ensures Tidy(Draw(sk, ToolActions(d)).parts)
  {
    var x := if d.id.Some? then [Call(d.index, d.id.value, NameOf(d))] else [];
    var y := if ArgumentsOf(d) != "" then [Fragment(d.index, ArgumentsOf(d))] else [];
    DrawConcat(sk, x, y);
    if d.id.Some? {
      DrawSingle(sk, x[0]);
      TidyToolSnoc(sk.parts, Tool(d.index, d.id.value, NameOf(d)));
    }
    if ArgumentsOf(d) != "" { DrawSingle(Draw(sk, x), y[0]); }
  }

  lemma DrawSingle(sk: Sketch, a: Action)
    ensures Draw(sk, [a]) == DrawOne(sk, a)
  {
    DrawSnoc(sk, [], a);
    assert [] + [a] == [a];
  }

  lemma TidyToolSnoc(parts: seq<Part>, p: Part)
    requires Tidy(parts) && p.Tool?
    ensures Tidy(parts + [p])
  {}

  predicate NoCalls(cs: seq<Choice>) {
    forall i :: 0 <= i < |cs| ==> cs[i].calls.None? && cs[i].finish.None?
  }

  predicate NoText(cs: seq<Choice>) {
    forall i :: 0 <= i < |cs| ==> !NonEmpty(cs[i].content)
  }

  /** What an ordered prefix of choices leaves drawn. */
  predicate Phased(sk: Sketch, cs: seq<Choice>) {
    Tidy(sk.parts) &&
    (NoCalls(cs) ==> Going(sk, 1)) &&
    (NoCalls(cs) && NoText(cs) ==> Going(sk, 0))
  }

  lemma SpeechIsDrawn(sk: Sketch, c: Choice)
    ensures Draw(sk, SpeechActions(c)) ==
            (var a := if NonEmpty(c.reasoning) then Write(sk, ThinkingKind, c.reasoning.value) else sk;
             if NonEmpty(c.content) then Write(a, TextKind, c.content.value) else a)
  {
    DrawSnoc(sk, [], Begin);
    assert [] + [Begin] == [Begin];
    DrawConcat(sk, [Begin], ReasonActions(c));
    DrawConcat(sk, [Begin] + ReasonActions(c), SayActions(c));
    if NonEmpty(c.reasoning) { DrawSnoc(sk, [], ReasonActions(c)[0]); }
    var a := if NonEmpty(c.reasoning) then Write(sk, ThinkingKind, c.reasoning.value) else sk;
    if NonEmpty(c.content) { DrawSnoc(a, [], SayActions(c)[0]); }
    assert [] + ReasonActions(c) == ReasonActions(c) && [] + SayActions(c) == SayActions(c);
  }

  lemma SpeechStaysTidy(sk: Sketch, c: Choice)
    requires Solid(sk.parts) && Tidy(sk.parts)
    requires NonEmpty(c.reasoning) ==> Going(sk, 0)
    requires NonEmpty(c.content) ==> Going(sk, 1)
    ensures Tidy(Draw(sk, SpeechActions(c)).parts)
    ensures Going(sk, 1) ==> Going(Draw(sk, SpeechActions(c)), 1)
    ensures Going(sk, 0) && !NonEmpty(c.content) ==> Going(Draw(sk, SpeechActions(c)), 0)
  {
    SpeechIsDrawn(sk, c);
    var a := sk;
    if NonEmpty(c.reasoning) {
      WriteGoes(sk, ThinkingKind, c.reasoning.value);
      a := Write(sk, ThinkingKind, c.reasoning.value);
      assert Solid(a.parts);
      assert Going(a, 1);
    }
    if NonEmpty(c.content) { WriteGoes(a, TextKind, c.content.value); }
  }

  lemma CallsListStaysTidy(sk: Sketch, c: Choice)
    requires Tidy(sk.parts)
    ensures Tidy(Draw(sk, CallsActions(c)).parts)
  {
    if c.calls.Some? {
      DrawConcat(sk, [CloseOpen], CallActions(c.calls.value));
      DrawSnoc(sk, [], CloseOpen);
      assert [] + [CloseOpen] == [CloseOpen];
      CallsStayTidy(sk.(open := false), c.calls.value);
    }
  }

  lemma FinishStaysTidy(sk: Sketch, c: Choice)
    requires Tidy(sk.parts)
    ensures Tidy(Draw(sk, FinishActions(c)).parts)
  {
    if c.finish.Some? {
      DrawSnoc(sk, [], Finish(c.finish.value));
      assert [] + FinishActions(c) == FinishActions(c);
    }
  }

  lemma RestStaysTidy(sk: Sketch, c: Choice)
    requires Tidy(sk.parts)
    ensures Tidy(Draw(sk, CallsActions(c) + FinishActions(c)).parts)
    ensures c.calls.None? && c.finish.None? ==>
              Draw(sk, CallsActions(c) + FinishActions(c)) == sk
  {
    DrawConcat(sk, CallsActions(c), FinishActions(c));
    CallsListStaysTidy(sk, c);
    FinishStaysTidy(Draw(sk, CallsActions(c)), c);
  }

  lemma {:induction false} OrderedIsPhased(cs: seq<Choice>)
    requires Ordered(cs) && OnlyLastFinishes(cs)
    ensures Phased(Draw(Empty, ChoicesActions(cs)), cs)
    decreases |cs|
  {
    if cs != [] {
      var front, last := cs[..|cs| - 1], cs[|cs| - 1];
      assert forall i :: 0 <= i < |front| ==> front[i] == cs[i];
      OrderedIsPhased(front);
      var sk := Draw(Empty, ChoicesActions(front));
      ChoicesAreMeaty(front);
      DrawIsSolid(ChoicesActions(front));
      PhaseStep(sk, cs);
      DrawConcat(Empty, ChoicesActions(front), ChoiceActions(last));
    }
  }

  lemma PhaseStep(sk: Sketch, cs: seq<Choice>)
    requires cs != [] && Ordered(cs) && OnlyLastFinishes(cs)
    requires Solid(sk.parts) && Phased(sk, cs[..|cs| - 1])
    ensures Phased(Draw(sk, ChoiceActions(cs[|cs| - 1])), cs)
  {
    var c := cs[|cs| - 1];
    SpeechStaysTidy(sk, c);
    var mid := Draw(sk, SpeechActions(c));
    RestStaysTidy(mid, c);
    Associates(SpeechActions(c), CallsActions(c), FinishActions(c));
    DrawConcat(sk, SpeechActions(c), CallsActions(c) + FinishActions(c));
  }

  lemma {:induction false} FlatFinishes(chunks: seq<Chunk>)
    requires SingleChoice(chunks)
    requires forall i :: 0 <= i < |chunks| - 1 ==> !HasFinish(chunks[i])
    requires chunks != [] ==> |chunks[|chunks| - 1].choices| == 1
    ensures OnlyLastFinishes(Flat(chunks))
  {
    if chunks != [] {
      var front, last := chunks[..|chunks| - 1], chunks[|chunks| - 1];
      FlatUnfinished(front);
      assert Flat(chunks) == Flat(front) + last.choices;
    }
  }

  lemma {:induction false} FlatUnfinished(chunks: seq<Chunk>)
    requires forall i :: 0 <= i < |chunks| ==> !HasFinish(chunks[i])
    ensures forall i :: 0 <= i < |Flat(chunks)| ==> Flat(chunks)[i].finish.None?
    decreases |chunks|
  {
    if chunks != [] {
      FlatUnfinished(chunks[..|chunks| - 1]);
      assert !HasFinish(chunks[|chunks| - 1]);
    }
  }

  /** Streams in the usual order come out tidy. */
  lemma OrderedIsTidy(chunks: seq<Chunk>)
    requires SingleChoice(chunks) && Finishes(chunks) && Ordered(Owed(chunks))
    ensures Tidy(OutlineOf(chunks))
  {
    ThroughIsPrefix(chunks);
    var t := Through(chunks);
    assert HasFinish(t[|t| - 1]) && t[|t| - 1] == chunks[|t| - 1];
    FlatFinishes(t);
    OrderedIsPhased(Flat(t));
    DrawStream(t);
  }

  /**
    * A stream ordered reasoning, text, tools is received as the blocks the non-streaming
    * converter builds from the accumulated message if and only if its tools' arguments read
    * alike; so whenever they all have arguments and none of their later fragments is a
    * complete object.
    */
  lemma OrderedStreamsAgree<J(!new)>(json: Json<J>, chunks: seq<Chunk>)
    requires Eligible(json, chunks) && Ordered(Owed(chunks))
    ensures Received(json, chunks) == Unstreamed(json, chunks) <==> AllReadAlike(json, Deltas(Owed(chunks)))
    ensures NoLateObjects(Parses(json), Deltas(Owed(chunks))) && AllHaveArguments(Deltas(Owed(chunks))) ==>
              Received(json, chunks) == Unstreamed(json, chunks)
  {
    OrderedIsTidy(chunks);
    StreamingAgreesIff(json, chunks);
    if NoLateObjects(Parses(json), Deltas(Owed(chunks))) { ReadAlikeIffArguments(json, Deltas(Owed(chunks))); }
  }

  lemma HeldReason(parses: string -> bool, front: seq<Chunk>, c: Chunk)
    requires |c.choices| == 1 && HasFinish(c)
    ensures Acts(parses, Nothing, StreamActions(front) + ChunkActions(c)).st.held ==
            Stop(c.choices[0].finish)
  {
    ChunkEndsInFinish(c);
    var x := c.choices[0];
    var body := [Meter(c.usage)] + (SpeechActions(x) + CallsActions(x));
    LastOf(StreamActions(front), body, Finish(x.finish.value));
    var o := Acts(parses, Nothing, StreamActions(front) + body);
    ActsSnoc(parses, Nothing, StreamActions(front) + body, Finish(x.finish.value));
    Associates(StreamActions(front), body, [Finish(x.finish.value)]);
    HeldStep(parses, o, Finish(x.finish.value));
  }

  lemma LastChoice(chunks: seq<Chunk>)
    requires SingleChoice(chunks) && Finishes(chunks)
    ensures var t := Through(chunks);
            t != [] && |t[|t| - 1].choices| == 1 && HasFinish(t[|t| - 1]) &&
            Owed(chunks) == Flat(t[..|t| - 1]) + [t[|t| - 1].choices[0]]
  {
    ThroughIsPrefix(chunks);
    var t := Through(chunks);
    var last := t[|t| - 1];
    assert last == chunks[|t| - 1];
    assert last.choices == [last.choices[0]];
  }

  /** The stop reason announced is the converter's, for the finish the stream ends with. */
  lemma StopReasonsAgree(parses: string -> bool, chunks: seq<Chunk>)
    requires SingleChoice(chunks) && Finishes(chunks)
    ensures var es, cs := UpToStop(StreamOf(parses, chunks)), Owed(chunks);
            |es| >= 2 && es[|es| - 2].MessageDelta? && cs != [] &&
            Some(es[|es| - 2].reason) == Stop(cs[|cs| - 1].finish)
  {
    LastChoice(chunks);
    FinishedStream(parses, chunks);
    var t := Through(chunks);
    HeldReason(parses, t[..|t| - 1], t[|t| - 1]);
  }
}
