/**
  * What one OpenAI stream chunk does to the transcoder: a chunk unfolds into a list of
  * elementary actions, each with its own effect on the state and its own events.
  * Whether a string is valid JSON is the parameter `parses`.
  */
module TranscoderSteps {
  import opened Wrappers
  import opened StreamEvents

  const U32: nat := 0x1_0000_0000

  // ---- OpenAI stream chunks ------------------------------------------------------------

  datatype FunctionDelta = FunctionDelta(name: Option<string>, arguments: Option<string>)
  datatype ToolDelta = ToolDelta(index: nat, id: Option<string>, func: Option<FunctionDelta>)
  datatype Choice = Choice(
    reasoning: Option<string>,
    content: Option<string>,
    calls: Option<seq<ToolDelta>>,
    finish: Option<string>)
  datatype Usage = Usage(prompt: Option<nat>, completion: Option<nat>)
  datatype Chunk = Chunk(choices: seq<Choice>, usage: Option<Usage>)

  // ---- Transcoder state ----------------------------------------------------------------

  datatype State = State(
    started: bool,
    next: nat,
    textOpen: bool,
    thinkingOpen: bool,
    blocks: map<nat, nat>,
    bufs: map<nat, string>,
    input: nat,
    output: nat,
    held: Option<string>)

  const Initial: State := State(false, 0, false, false, map[], map[], 0, 0, None)

  datatype Out = Out(st: State, events: seq<Event>)

  // ---- Elementary actions --------------------------------------------------------------

  datatype Action =
    | Meter(usage: Option<Usage>)
    | Begin
    | Reason(piece: string)
    | Say(piece: string)
    | CloseOpen
    | Call(index: nat, id: string, name: string)
    | Fragment(index: nat, piece: string)
    | Finish(reason: string)

  /** The finish reasons of the two interfaces. */
  function StopReason(reason: string): string {
    match reason
    case "stop" => "end_turn"
    case "tool_calls" => "tool_use"
    case "length" => "max_tokens"
    case other => other
  }

  function Metered(st: State, usage: Option<Usage>): State {
    match usage
    case None => st
    case Some(u) =>
      st.(input := match u.prompt case Some(p) => p % U32 case None => st.input,
          output := match u.completion case Some(c) => c % U32 case None => st.output)
  }

  function Closed(st: State): Out {
    if st.thinkingOpen then
      Out(st.(thinkingOpen := false, next := st.next + 1), [BlockStop(st.next)])
    else if st.textOpen then
      Out(st.(textOpen := false, next := st.next + 1), [BlockStop(st.next)])
    else
      Out(st, [])
  }

  function Reasoned(st: State, piece: string): Out {
    var a := if st.textOpen
             then Out(st.(textOpen := false, next := st.next + 1), [BlockStop(st.next)])
             else Out(st, []);
    var b := if a.st.thinkingOpen then []
             else [BlockStart(a.st.next, ThinkingBlock)];
    Out(a.st.(thinkingOpen := true),
        a.events + b + [BlockDelta(a.st.next, ThinkingKind, piece)])
  }

  function Said(st: State, piece: string): Out {
    var a := if st.thinkingOpen
             then Out(st.(thinkingOpen := false, next := st.next + 1), [BlockStop(st.next)])
             else Out(st, []);
    var b := if a.st.textOpen then []
             else [BlockStart(a.st.next, TextBlock)];
    Out(a.st.(textOpen := true, output := a.st.output + 1),
        a.events + b + [BlockDelta(a.st.next, TextKind, piece)])
  }

  /** A fragment that is, by itself, a complete JSON object. */
  predicate WholeObject(parses: string -> bool, s: string) {
    |s| > 0 && s[0] == '{' && s[|s| - 1] == '}' && parses(s)
  }

  /** The argument buffer after one more fragment. */
  function Joined(parses: string -> bool, buf: string, piece: string): string {
    if WholeObject(parses, piece) && buf != "" then piece else buf + piece
  }

  function BufferOf(bufs: map<nat, string>, k: nat): string {
    if k in bufs then bufs[k] else ""
  }

  predicate IsLeast(s: set<nat>, m: nat) {
    m in s && forall k :: k in s ==> m <= k
  }

  lemma {:induction false} LeastExists(s: set<nat>)
    requires s != {}
    ensures exists m :: IsLeast(s, m)
  {
    var x :| x in s;
    var t := s - {x};
    if t == {} {
      assert forall k :: k in s ==> k == x || k in t;
      assert IsLeast(s, x);
    } else {
      LeastExists(t);
      var y :| IsLeast(t, y);
      assert forall k :: k in s ==> k == x || k in t;
      assert IsLeast(s, if x <= y then x else y);
    }
  }

  function Least(s: set<nat>): nat
    requires s != {}
  {
    LeastExists(s);
    var m :| IsLeast(s, m);
    m
  }

  /** The elements of `s`, the least first. */
  function Sorted(s: set<nat>): seq<nat> {
    if s == {} then []
    else
      LeastExists(s);
      var m := Least(s);
      [m] + Sorted(s - {m})
  }

  lemma LeastIsLeast(s: set<nat>)
    requires s != {}
    ensures IsLeast(s, Least(s))
  {
    LeastExists(s);
  }

  predicate Increasing(ks: seq<nat>) {
    forall i, j :: 0 <= i < j < |ks| ==> ks[i] < ks[j]
  }

  lemma ConsIncreases(m: nat, ks: seq<nat>)
    requires Increasing(ks) && forall k :: k in ks ==> m < k
    ensures Increasing([m] + ks)
  {
    forall j | 0 <= j < |ks| ensures m < ks[j] { assert ks[j] in ks; }
  }

  lemma {:induction false} SortedOrders(s: set<nat>)
    ensures forall k :: k in Sorted(s) <==> k in s
    ensures Increasing(Sorted(s))
  {
    if s != {} {
      LeastIsLeast(s);
      var m := Least(s);
      SortedOrders(s - {m});
      ConsIncreases(m, Sorted(s - {m}));
    }
  }

  /** One tool block's last events: its buffered arguments, if any, and its stop. */
  function FlushOne(blocks: map<nat, nat>, bufs: map<nat, string>, k: nat): seq<Event> {
    if k !in blocks then []
    else if BufferOf(bufs, k) == "" then [BlockStop(blocks[k])]
    else [BlockDelta(blocks[k], ToolKind, bufs[k]), BlockStop(blocks[k])]
  }

  function Flush(blocks: map<nat, nat>, bufs: map<nat, string>, ks: seq<nat>): seq<Event> {
    if ks == [] then []
    else Flush(blocks, bufs, ks[..|ks| - 1]) + FlushOne(blocks, bufs, ks[|ks| - 1])
  }

  lemma FlushSnoc(blocks: map<nat, nat>, bufs: map<nat, string>, h: seq<Event>,
                  ks: seq<nat>, k: nat)
    ensures h + Flush(blocks, bufs, ks + [k]) ==
            h + Flush(blocks, bufs, ks) + FlushOne(blocks, bufs, k)
  {
    assert (ks + [k])[..|ks|] == ks;
  }

  function Elements(ks: seq<nat>): set<nat> { set k | k in ks }

  /** Flushing an index sees its full buffer: earlier flushes took other indices. */
  lemma FlushPrefix(blocks: map<nat, nat>, all: map<nat, string>, ks: seq<nat>, i: nat)
    requires i < |ks| && Increasing(ks)
    ensures ks[..i + 1] == ks[..i] + [ks[i]]
    ensures FlushOne(blocks, all - Elements(ks[..i]), ks[i]) == FlushOne(blocks, all, ks[i])
    ensures all - Elements(ks[..i]) - {ks[i]} == all - Elements(ks[..i + 1])
  {
    assert ks[i] !in ks[..i];
    assert Elements(ks[..i + 1]) == Elements(ks[..i]) + {ks[i]};
  }

  function Finished(st: State, reason: string): Out {
    var c := Closed(st);
    Out(c.st.(blocks := map[],
              bufs := c.st.bufs - c.st.blocks.Keys,
              held := Some(StopReason(reason))),
        c.events + Flush(c.st.blocks, c.st.bufs, Sorted(c.st.blocks.Keys)))
  }

  function Act(parses: string -> bool, st: State, a: Action): Out {
    match a
    case Meter(u) => Out(Metered(st, u), [])
    case Begin =>
      if st.started then Out(st, [])
      else Out(st.(started := true), [MessageStart(st.input, st.output)])
    case Reason(s) => Reasoned(st, s)
    case Say(s) => Said(st, s)
    case CloseOpen => Closed(st)
    case Call(k, id, name) =>
      Out(st.(blocks := st.blocks[k := st.next], next := st.next + 1),
          [BlockStart(st.next, ToolUse(id, name))])
    case Fragment(k, s) =>
      Out(st.(bufs := st.bufs[k := Joined(parses, BufferOf(st.bufs, k), s)]), [])
    case Finish(r) => Finished(st, r)
  }

  /** One more action: the state moves on and its events are appended. */
  function Do(parses: string -> bool, o: Out, a: Action): Out {
    var q := Act(parses, o.st, a);
    Out(q.st, o.events + q.events)
  }

  function Acts(parses: string -> bool, o: Out, acts: seq<Action>): Out {
    if acts == [] then o
    else Do(parses, Acts(parses, o, acts[..|acts| - 1]), acts[|acts| - 1])
  }

  lemma ActsSnoc(parses: string -> bool, o: Out, acts: seq<Action>, a: Action)
    ensures Acts(parses, o, acts + [a]) == Do(parses, Acts(parses, o, acts), a)
  {
    assert (acts + [a])[..|acts|] == acts;
  }

  lemma {:induction false} ActsConcat(
    parses: string -> bool, o: Out, a: seq<Action>, b: seq<Action>)
    ensures Acts(parses, o, a + b) == Acts(parses, Acts(parses, o, a), b)
    decreases |b|
  {
    if b == [] {
      assert a + b == a;
    } else {
      assert (a + b)[..|a + b| - 1] == a + b[..|b| - 1];
      ActsConcat(parses, o, a, b[..|b| - 1]);
    }
  }

  /** A finish closes the open block first, then flushes, then holds the reason. */
  lemma FinishUnfolds(parses: string -> bool, o: Out, reason: string)
    ensures Do(parses, o, Finish(reason)) ==
            (var c := Do(parses, o, CloseOpen);
             Out(c.st.(blocks := map[],
                       bufs := c.st.bufs - c.st.blocks.Keys,
                       held := Some(StopReason(reason))),
                 c.events + Flush(c.st.blocks, c.st.bufs, Sorted(c.st.blocks.Keys))))
  {
    var c := Closed(o.st);
    AppendAssociates(o.events, c.events,
                     Flush(c.st.blocks, c.st.bufs, Sorted(c.st.blocks.Keys)));
  }

  lemma AppendAssociates(a: seq<Event>, b: seq<Event>, c: seq<Event>)
    ensures a + (b + c) == a + b + c
  {}

  // ---- Chunks as actions ---------------------------------------------------------------

  function NonEmpty(s: Option<string>): bool { s.Some? && s.value != "" }

  function NameOf(d: ToolDelta): string {
    if d.func.Some? then d.func.value.name.GetOr("") else ""
  }

  function ArgumentsOf(d: ToolDelta): string {
    if d.func.Some? then d.func.value.arguments.GetOr("") else ""
  }

  function ToolActions(d: ToolDelta): seq<Action> {
    (if d.id.Some? then [Call(d.index, d.id.value, NameOf(d))] else []) +
    (if ArgumentsOf(d) != "" then [Fragment(d.index, ArgumentsOf(d))] else [])
  }

  /** A tool delta step by step: the announcement, then the arguments. */
  lemma ToolActs(parses: string -> bool, o: Out, d: ToolDelta)
    ensures Acts(parses, o, ToolActions(d)) ==
            var m := if d.id.Some? then Do(parses, o, Call(d.index, d.id.value, NameOf(d))) else o;
            if ArgumentsOf(d) != "" then Do(parses, m, Fragment(d.index, ArgumentsOf(d))) else m
  {
    var first := if d.id.Some? then [Call(d.index, d.id.value, NameOf(d))] else [];
    if d.id.Some? { ActsOne(parses, o, first[0]); }
    if ArgumentsOf(d) != "" {
      ActsSnoc(parses, o, first, Fragment(d.index, ArgumentsOf(d)));
    } else {
      assert ToolActions(d) == first;
    }
  }

  lemma ActsOne(parses: string -> bool, o: Out, a: Action)
    ensures Acts(parses, o, [a]) == Do(parses, o, a)
  {
    assert [a][..0] == [];
  }

  function CallActions(ds: seq<ToolDelta>): seq<Action> {
    if ds == [] then [] else CallActions(ds[..|ds| - 1]) + ToolActions(ds[|ds| - 1])
  }

  function SpeechActions(c: Choice): seq<Action> {
    [Begin] +
    (if NonEmpty(c.reasoning) then [Reason(c.reasoning.value)] else []) +
    (if NonEmpty(c.content) then [Say(c.content.value)] else [])
  }

  function CallsActions(c: Choice): seq<Action> {
    if c.calls.Some? then [CloseOpen] + CallActions(c.calls.value) else []
  }

  function FinishActions(c: Choice): seq<Action> {
    if c.finish.Some? then [Finish(c.finish.value)] else []
  }

  function ChoiceActions(c: Choice): seq<Action> {
    SpeechActions(c) + CallsActions(c) + FinishActions(c)
  }

  function ChoicesActions(cs: seq<Choice>): seq<Action> {
    if cs == [] then [] else ChoicesActions(cs[..|cs| - 1]) + ChoiceActions(cs[|cs| - 1])
  }

  /** message_delta and message_stop, with the usage known by then. */
  function FinishEvents(st: State, reason: string): seq<Event> {
    [MessageDelta(reason, st.input, if st.output < 1 then 1 else st.output), MessageStop]
  }

  function Drained(o: Out): Out {
    if o.st.held.Some? then
      Out(o.st.(held := None), o.events + FinishEvents(o.st, o.st.held.value))
    else o
  }

  /** The transcoder fed one chunk: a held finish is released and the choices skipped. */
  function Step(parses: string -> bool, o: Out, chunk: Chunk): Out {
    var u := Out(Metered(o.st, chunk.usage), o.events);
    if u.st.held.Some? then Drained(u)
    else Acts(parses, u, ChoicesActions(chunk.choices))
  }

  // ---- Earlier events are kept ---------------------------------------------------------

  function Prepend(h: seq<Event>, o: Out): Out { Out(o.st, h + o.events) }

  lemma DoAppends(parses: string -> bool, h: seq<Event>, o: Out, a: Action)
    ensures Do(parses, Prepend(h, o), a) == Prepend(h, Do(parses, o, a))
  {
    AppendAssociates(h, o.events, Act(parses, o.st, a).events);
  }

  lemma {:induction false} ActsAppend(
    parses: string -> bool, h: seq<Event>, o: Out, acts: seq<Action>)
    ensures Acts(parses, Prepend(h, o), acts) == Prepend(h, Acts(parses, o, acts))
    decreases |acts|
  {
    if acts != [] {
      ActsAppend(parses, h, o, acts[..|acts| - 1]);
      DoAppends(parses, h, Acts(parses, o, acts[..|acts| - 1]), acts[|acts| - 1]);
    }
  }

  /** What a chunk does and sends does not depend on the events already sent. */
  lemma StepAppends(parses: string -> bool, st: State, h: seq<Event>, chunk: Chunk)
    ensures Step(parses, Out(st, h), chunk) ==
            Prepend(h, Step(parses, Out(st, []), chunk))
  {
    var u := Out(Metered(st, chunk.usage), []);
    assert Prepend(h, u) == Out(u.st, h);
    if u.st.held.Some? {
      var f := FinishEvents(u.st, u.st.held.value);
      assert h + ([] + f) == h + f;
    } else {
      ActsAppend(parses, h, u, ChoicesActions(chunk.choices));
    }
  }

  const Nothing: Out := Out(Initial, [])

  function Run(parses: string -> bool, chunks: seq<Chunk>): Out {
    if chunks == [] then Nothing
    else Step(parses, Run(parses, chunks[..|chunks| - 1]), chunks[|chunks| - 1])
  }

  /** All events of a stream: those of its chunks, then those of the final drain. */
  function StreamOf(parses: string -> bool, chunks: seq<Chunk>): seq<Event> {
    Drained(Run(parses, chunks)).events
  }
}
