/**
  * Which chunk sequences give a well-formed Anthropic event stream: exactly those that
  * leave no block open, a condition read off the chunks without running the transcoder.
  */
module StreamWellFormed {
  import opened Wrappers
  import opened StreamEvents
  import opened TranscoderSteps
  import opened StreamRuns

  /**
    * What matters of the chunks read so far: a choice was seen; text or reasoning came after
    * the last tool-call list or finish; the tool indices announced since the last finish;
    * one of them was announced twice.
    */
  datatype Summary = Summary(begun: bool, plain: bool, live: set<nat>, repeated: bool)

  const Blank: Summary := Summary(false, false, {}, false)

  function Note(s: Summary, a: Action): Summary {
    match a
    case Meter(_) => s
    case Begin => s.(begun := true)
    case Reason(_) => s.(plain := true)
    case Say(_) => s.(plain := true)
    case CloseOpen => s.(plain := false)
    case Call(k, _, _) => s.(live := s.live + {k}, repeated := s.repeated || k in s.live)
    case Fragment(_, _) => s
    case Finish(_) => s.(plain := false, live := {})
  }

  function Scan(s: Summary, acts: seq<Action>): Summary {
    if acts == [] then s else Note(Scan(s, acts[..|acts| - 1]), acts[|acts| - 1])
  }

  /** The order in which a choice's actions come. */
  predicate Fits(s: Summary, a: Action) {
    match a
    case Meter(_) => true
    case Begin => true
    case Call(_, _, _) => s.begun && !s.plain
    case _ => s.begun
  }

  predicate Fitting(s: Summary, acts: seq<Action>) {
    acts == [] ||
    (Fitting(s, acts[..|acts| - 1]) && Fits(Scan(s, acts[..|acts| - 1]), acts[|acts| - 1]))
  }

  lemma {:induction false} ScanConcat(s: Summary, a: seq<Action>, b: seq<Action>)
    ensures Scan(s, a + b) == Scan(Scan(s, a), b)
    ensures Fitting(s, a + b) <==> Fitting(s, a) && Fitting(Scan(s, a), b)
    decreases |b|
  {
    if b == [] {
      assert a + b == a;
    } else {
      assert (a + b)[..|a + b| - 1] == a + b[..|b| - 1];
      ScanConcat(s, a, b[..|b| - 1]);
    }
  }

  lemma ScanSnoc(s: Summary, a: seq<Action>, x: Action)
    ensures Scan(s, a + [x]) == Note(Scan(s, a), x)
    ensures Fitting(s, a + [x]) <==> Fitting(s, a) && Fits(Scan(s, a), x)
  {
    assert (a + [x])[..|a|] == a;
  }

  lemma ToolFits(s: Summary, d: ToolDelta)
    requires s.begun && !s.plain
    ensures Fitting(s, ToolActions(d))
    ensures Scan(s, ToolActions(d)).begun && !Scan(s, ToolActions(d)).plain
  {
    var a := if d.id.Some? then [Call(d.index, d.id.value, NameOf(d))] else [];
    if d.id.Some? { ScanSnoc(s, [], a[0]); assert [] + a == a; }
    if ArgumentsOf(d) != "" {
      ScanSnoc(s, a, Fragment(d.index, ArgumentsOf(d)));
    } else {
      assert ToolActions(d) == a;
    }
  }

  lemma {:induction false} CallsFit(s: Summary, ds: seq<ToolDelta>)
    requires s.begun && !s.plain
    ensures Fitting(s, CallActions(ds))
    ensures Scan(s, CallActions(ds)).begun && !Scan(s, CallActions(ds)).plain
    decreases |ds|
  {
    if ds != [] {
      var front, last := ds[..|ds| - 1], ds[|ds| - 1];
      CallsFit(s, front);
      ToolFits(Scan(s, CallActions(front)), last);
      ScanConcat(s, CallActions(front), ToolActions(last));
    }
  }

  lemma SpeechFits(s: Summary, c: Choice)
    ensures Fitting(s, SpeechActions(c)) && Scan(s, SpeechActions(c)).begun
  {
    var a: seq<Action> := [Begin];
    ScanSnoc(s, [], Begin);
    assert [] + a == a;
    if NonEmpty(c.reasoning) {
      ScanSnoc(s, a, Reason(c.reasoning.value));
      a := a + [Reason(c.reasoning.value)];
    }
    if NonEmpty(c.content) {
      ScanSnoc(s, a, Say(c.content.value));
      a := a + [Say(c.content.value)];
    }
    assert a == SpeechActions(c);
  }

  lemma ChoiceFits(s: Summary, c: Choice)
    ensures Fitting(s, ChoiceActions(c))
  {
    SpeechFits(s, c);
    var t := Scan(s, SpeechActions(c));
    if c.calls.Some? {
      ScanSnoc(t, [], CloseOpen);
      assert [] + [CloseOpen] == [CloseOpen];
      CallsFit(Note(t, CloseOpen), c.calls.value);
      ScanConcat(t, [CloseOpen], CallActions(c.calls.value));
    }
    ScanConcat(s, SpeechActions(c), CallsActions(c));
    var front := SpeechActions(c) + CallsActions(c);
    if c.finish.Some? {
      ScanSnoc(s, front, Finish(c.finish.value));
    } else {
      assert ChoiceActions(c) == front;
    }
  }

  lemma {:induction false} ChoicesFit(s: Summary, cs: seq<Choice>)
    ensures Fitting(s, ChoicesActions(cs))
    decreases |cs|
  {
    if cs != [] {
      var front, last := cs[..|cs| - 1], cs[|cs| - 1];
      ChoicesFit(s, front);
      ChoiceFits(Scan(s, ChoicesActions(front)), last);
      ScanConcat(s, ChoicesActions(front), ChoiceActions(last));
    }
  }

  lemma {:induction false} StreamFits(chunks: seq<Chunk>)
    ensures Fitting(Blank, StreamActions(chunks))
    decreases |chunks|
  {
    if chunks != [] {
      var front, last := chunks[..|chunks| - 1], chunks[|chunks| - 1];
      StreamFits(front);
      var s := Scan(Blank, StreamActions(front));
      ScanSnoc(s, [], Meter(last.usage));
      assert [] + [Meter(last.usage)] == [Meter(last.usage)];
      ChoicesFit(s, last.choices);
      ScanConcat(s, [Meter(last.usage)], ChoicesActions(last.choices));
      ScanConcat(Blank, StreamActions(front), ChunkActions(last));
    }
  }

  // ---- The transcoder and the protocol automaton, side by side -----------------------------

  predicate PlainOpen(st: State) { st.textOpen || st.thinkingOpen }

  function PlainKind(st: State): Kind { if st.textOpen then TextKind else ThinkingKind }

  /** A block the transcoder will stop: the plain one, or one in the tool map. */
  ghost predicate Owned(st: State, b: nat) {
    (PlainOpen(st) && b == st.next) || exists k :: k in st.blocks && st.blocks[k] == b
  }

  /** Every block the transcoder owns is open for the client, at its index. */
  ghost predicate Covers(st: State, v: Proto) {
    v.Body? &&
    v.next == st.next + (if PlainOpen(st) then 1 else 0) &&
    !(st.textOpen && st.thinkingOpen) &&
    (PlainOpen(st) ==> st.next in v.open && v.open[st.next] == PlainKind(st)) &&
    (forall k :: k in st.blocks ==>
       st.blocks[k] < st.next && st.blocks[k] in v.open && v.open[st.blocks[k]] == ToolKind) &&
    (forall k, l :: k in st.blocks && l in st.blocks && k != l ==>
       st.blocks[k] != st.blocks[l]) &&
    (forall b: nat :: b in v.open ==> b < v.next)
  }

  /** The client has a block open that the transcoder will never stop. */
  ghost predicate Lost(st: State, v: Proto) {
    v.Body? && exists b: nat :: b in v.open && !Owned(st, b)
  }

  ghost predicate Tracks(st: State, v: Proto, s: Summary) {
    st.started == s.begun &&
    PlainOpen(st) == s.plain &&
    st.blocks.Keys == s.live &&
    (st.started ==> Covers(st, v) && (Lost(st, v) <==> s.repeated)) &&
    (!st.started ==> v == Unopened && st.next == 0 && !s.plain && s.live == {} && !s.repeated)
  }

  /** The automaton over the events of one action. */
  ghost function Moved(parses: string -> bool, st: State, v: Proto, a: Action): Proto {
    After(v, Act(parses, st, a).events)
  }

  lemma AfterOne(v: Proto, e: Event)
    ensures After(v, [e]) == Next(v, e)
  {}

  lemma AfterSnoc(v: Proto, es: seq<Event>, e: Event)
    ensures After(v, es + [e]) == Next(After(v, es), e)
  {
    assert (es + [e])[..|es|] == es;
  }

  /** The owned blocks and the lost ones do not change when the open kinds do not. */
  lemma BeginTracks(parses: string -> bool, st: State, v: Proto, s: Summary)
    requires Tracks(st, v, s)
    ensures Tracks(Act(parses, st, Begin).st, Moved(parses, st, v, Begin), Note(s, Begin))
  {
    if !st.started {
      AfterOne(v, MessageStart(st.input, st.output));
      assert st.blocks == map[];
    }
  }

  lemma CloseTracks(st: State, v: Proto, s: Summary)
    requires Tracks(st, v, s) && st.started
    ensures Tracks(Closed(st).st, After(v, Closed(st).events), s.(plain := false))
  {
    if PlainOpen(st) {
      AfterOne(v, BlockStop(st.next));
      CloseKeepsLost(st, v);
    }
  }

  lemma CloseKeepsLost(st: State, v: Proto)
    requires Covers(st, v) && PlainOpen(st)
    ensures Lost(Closed(st).st, Next(v, BlockStop(st.next))) <==> Lost(st, v)
  {
    var st', v' := Closed(st).st, Next(v, BlockStop(st.next));
    assert st'.blocks == st.blocks && !PlainOpen(st');
    forall b: nat ensures b in v'.open && !Owned(st', b) <==> b in v.open && !Owned(st, b) {}
  }

  /** A plain block opens on top of a closed state. */
  lemma OpenTracks(st: State, v: Proto, s: Summary, b: Block)
    requires Tracks(st, v, s) && st.started && !PlainOpen(st) && !b.ToolUse?
    ensures Tracks(
              if b.TextBlock? then st.(textOpen := true) else st.(thinkingOpen := true),
              Next(v, BlockStart(st.next, b)), s.(plain := true))
  {
    var st' := if b.TextBlock? then st.(textOpen := true) else st.(thinkingOpen := true);
    var v' := Next(v, BlockStart(st.next, b));
    OpenCovers(st, st', v, v', b);
    OpenKeepsLost(st, st', v, v', b);
  }

  lemma OpenCovers(st: State, st': State, v: Proto, v': Proto, b: Block)
    requires Covers(st, v) && !PlainOpen(st) && !b.ToolUse?
    requires st' == if b.TextBlock? then st.(textOpen := true) else st.(thinkingOpen := true)
    requires v' == Next(v, BlockStart(st.next, b))
    ensures Covers(st', v')
  {}

  lemma OpenKeepsLost(st: State, st': State, v: Proto, v': Proto, b: Block)
    requires Covers(st, v) && !PlainOpen(st) && PlainOpen(st')
    requires st'.blocks == st.blocks && st'.next == st.next
    requires v' == Next(v, BlockStart(st.next, b))
    ensures Lost(st', v') <==> Lost(st, v)
  {
    forall c: nat ensures c in v'.open && !Owned(st', c) <==> c in v.open && !Owned(st, c) {}
  }

  /** Appending to the open block changes nothing that is tracked. */
  lemma DeltaTracks(st: State, v: Proto, s: Summary, piece: string)
    requires Tracks(st, v, s) && st.started && PlainOpen(st)
    ensures Next(v, BlockDelta(st.next, PlainKind(st), piece)) == v
  {}

  lemma OutputIsNotTracked(st: State, v: Proto, s: Summary, i: nat, o: nat, t: State)
    requires Tracks(st, v, s)
    requires t == st.(input := i, output := o)
    ensures Tracks(t, v, s)
  {
    forall b: nat ensures Owned(t, b) <==> Owned(st, b) {}
  }

  lemma ReasonTracks(parses: string -> bool, st: State, v: Proto, s: Summary, piece: string)
    requires Tracks(st, v, s) && st.started
    ensures Tracks(Act(parses, st, Reason(piece)).st,
                   Moved(parses, st, v, Reason(piece)), s.(plain := true))
  {
    var d := BlockDelta(Reasoned(st, piece).st.next, ThinkingKind, piece);
    if st.thinkingOpen {
      DeltaTracks(st, v, s, piece);
      assert Reasoned(st, piece).events == [d];
      AfterOne(v, d);
      assert Reasoned(st, piece).st == st;
    } else {
      var c := Closed(st);
      CloseTracks(st, v, s);
      var w, e := After(v, c.events), BlockStart(c.st.next, ThinkingBlock);
      OpenTracks(c.st, w, s.(plain := false), ThinkingBlock);
      DeltaTracks(c.st.(thinkingOpen := true), Next(w, e), s.(plain := true), piece);
      AfterSnoc(v, c.events, e);
      AfterSnoc(v, c.events + [e], d);
      assert Reasoned(st, piece).events == c.events + [e] + [d];
    }
  }

  lemma SayTracks(parses: string -> bool, st: State, v: Proto, s: Summary, piece: string)
    requires Tracks(st, v, s) && st.started
    ensures Tracks(Act(parses, st, Say(piece)).st,
                   Moved(parses, st, v, Say(piece)), s.(plain := true))
  {
    var d := BlockDelta(Said(st, piece).st.next, TextKind, piece);
    var t := Said(st, piece).st;
    if st.textOpen {
      DeltaTracks(st, v, s, piece);
      assert Said(st, piece).events == [d];
      AfterOne(v, d);
      OutputIsNotTracked(st, v, s, st.input, st.output + 1, t);
    } else {
      var c := Closed(st);
      CloseTracks(st, v, s);
      var w, e := After(v, c.events), BlockStart(c.st.next, TextBlock);
      OpenTracks(c.st, w, s.(plain := false), TextBlock);
      DeltaTracks(c.st.(textOpen := true), Next(w, e), s.(plain := true), piece);
      AfterSnoc(v, c.events, e);
      AfterSnoc(v, c.events + [e], d);
      assert Said(st, piece).events == c.events + [e] + [d];
      OutputIsNotTracked(c.st.(textOpen := true), Next(w, e), s.(plain := true),
                         st.input, st.output + 1, t);
    }
  }

  /** A new tool block is open; announcing an index twice loses the older block. */
  lemma CallTracks(parses: string -> bool, st: State, v: Proto, s: Summary, a: Action)
    requires Tracks(st, v, s) && st.started && !PlainOpen(st) && a.Call?
    ensures Tracks(Act(parses, st, a).st, Moved(parses, st, v, a), Note(s, a))
  {
    var st', e := Act(parses, st, a).st, BlockStart(st.next, ToolUse(a.id, a.name));
    var v' := Next(v, e);
    AfterOne(v, e);
    assert st'.blocks == st.blocks[a.index := st.next];
    CallCovers(st, st', v, v', a.index);
    CallLoses(st, st', v, v', a.index);
  }

  lemma CallCovers(st: State, st': State, v: Proto, v': Proto, k: nat)
    requires Covers(st, v) && !PlainOpen(st) && !PlainOpen(st')
    requires st'.blocks == st.blocks[k := st.next] && st'.next == st.next + 1
    requires v' == Body(v.next + 1, v.open[st.next := ToolKind])
    ensures Covers(st', v')
  {}

  lemma CallLoses(st: State, st': State, v: Proto, v': Proto, k: nat)
    requires Covers(st, v) && !PlainOpen(st) && !PlainOpen(st') && v'.Body?
    requires st'.blocks == st.blocks[k := st.next] && v'.open == v.open[st.next := ToolKind]
    ensures Lost(st', v') <==> Lost(st, v) || k in st.blocks
  {
    if k in st.blocks {
      var b := st.blocks[k];
      assert b in v'.open && !Owned(st', b);
    }
    if Lost(st, v) {
      var b :| b in v.open && !Owned(st, b);
      assert b in v'.open && !Owned(st', b);
    }
    if Lost(st', v') && k !in st.blocks {
      var b :| b in v'.open && !Owned(st', b);
      assert st'.blocks[k] == st.next;
      assert b in v.open && b != st.next;
      assert forall l :: l in st.blocks ==> st'.blocks[l] == st.blocks[l];
      assert !Owned(st, b);
    }
  }

  ghost predicate Holds(blocks: map<nat, nat>, ks: seq<nat>, b: nat) {
    exists k :: k in ks && k in blocks && blocks[k] == b
  }

  /** What stays open once the blocks of `ks` are stopped. */
  function Shut(open: map<nat, Kind>, blocks: map<nat, nat>, ks: seq<nat>): map<nat, Kind>
    requires forall k :: k in ks ==> k in blocks
  {
    if ks == [] then open
    else Shut(open, blocks, ks[..|ks| - 1]) - {blocks[ks[|ks| - 1]]}
  }

  lemma {:induction false} ShutKeeps(
    open: map<nat, Kind>, blocks: map<nat, nat>, ks: seq<nat>, b: nat)
    requires forall k :: k in ks ==> k in blocks
    ensures b in Shut(open, blocks, ks) <==> b in open && !Holds(blocks, ks, b)
    ensures b in Shut(open, blocks, ks) ==> Shut(open, blocks, ks)[b] == open[b]
    decreases |ks|
  {
    if ks != [] {
      var front, last := ks[..|ks| - 1], ks[|ks| - 1];
      ShutKeeps(open, blocks, front, b);
      assert ks == front + [last];
      assert Holds(blocks, ks, b) <==> Holds(blocks, front, b) || blocks[last] == b;
    }
  }

  /** Flushing stops exactly the blocks of the flushed indices. */
  lemma {:induction false} FlushStops(st: State, v: Proto, ks: seq<nat>)
    requires Covers(st, v)
    requires forall k :: k in ks ==> k in st.blocks
    requires Increasing(ks)
    ensures After(v, Flush(st.blocks, st.bufs, ks)) ==
            Body(v.next, Shut(v.open, st.blocks, ks))
    decreases |ks|
  {
    if ks != [] {
      var front, last := ks[..|ks| - 1], ks[|ks| - 1];
      FlushStops(st, v, front);
      AfterConcat(v, Flush(st.blocks, st.bufs, front), FlushOne(st.blocks, st.bufs, last));
      ShutKeeps(v.open, st.blocks, front, st.blocks[last]);
      assert last !in front;
      StopOne(v.next, Shut(v.open, st.blocks, front), st.bufs, st.blocks, last);
    }
  }

  lemma StopOne(n: nat, open: map<nat, Kind>, bufs: map<nat, string>, blocks: map<nat, nat>,
                k: nat)
    requires k in blocks && blocks[k] in open && open[blocks[k]] == ToolKind
    ensures After(Body(n, open), FlushOne(blocks, bufs, k)) == Body(n, open - {blocks[k]})
  {
    var b := blocks[k];
    var w := Body(n, open);
    if BufferOf(bufs, k) == "" {
      AfterOne(w, BlockStop(b));
    } else {
      AfterTwo(w, BlockDelta(b, ToolKind, bufs[k]), BlockStop(b));
    }
  }

  lemma AfterTwo(v: Proto, d: Event, e: Event)
    ensures After(v, [d, e]) == Next(Next(v, d), e)
  {
    AfterSnoc(v, [d], e);
    AfterOne(v, d);
    assert [d] + [e] == [d, e];
  }

  /** What a finish leaves the client with, from the state its close left behind. */
  lemma FinishMoves(parses: string -> bool, st: State, v: Proto, a: Action, c: State, w: Proto, ks: seq<nat>)
    requires a.Finish? && c == Closed(st).st && w == After(v, Closed(st).events) && ks == Sorted(c.blocks.Keys)
    requires Covers(c, w)
    ensures forall k :: k in ks <==> k in c.blocks
    ensures Moved(parses, st, v, a) == Body(w.next, Shut(w.open, c.blocks, ks))
  {
    SortedOrders(c.blocks.Keys);
    FlushStops(c, w, ks);
    AfterConcat(v, Closed(st).events, Flush(c.blocks, c.bufs, ks));
  }

  lemma FlushCovers(st: State, st': State, w: Proto, v': Proto, ks: seq<nat>)
    requires Covers(st, w) && !PlainOpen(st) && !PlainOpen(st') && st'.next == st.next
    requires forall k :: k in ks <==> k in st.blocks
    requires st'.blocks == map[] && v' == Body(w.next, Shut(w.open, st.blocks, ks))
    ensures Covers(st', v')
  {
    forall b: nat | b in v'.open ensures b < v'.next { ShutKeeps(w.open, st.blocks, ks, b); }
  }

  lemma FinishTracks(parses: string -> bool, st: State, v: Proto, s: Summary, a: Action)
    requires Tracks(st, v, s) && st.started && a.Finish?
    ensures Tracks(Act(parses, st, a).st, Moved(parses, st, v, a), Note(s, a))
  {
    FinishLeaves(parses, st, a);
    var c, w := Closed(st).st, After(v, Closed(st).events);
    CloseTracks(st, v, s);
    FinishTracksFrom(parses, st, v, s, a, c, w);
  }

  lemma FinishTracksFrom(parses: string -> bool, st: State, v: Proto, s: Summary, a: Action, c: State, w: Proto)
    requires a.Finish? && c == Closed(st).st && w == After(v, Closed(st).events) && c.started
    requires Tracks(c, w, s.(plain := false))
    ensures Tracks(Act(parses, st, a).st, Moved(parses, st, v, a), Note(s, a))
  {
    var ks := Sorted(c.blocks.Keys);
    FinishMoves(parses, st, v, a, c, w, ks);
    FinishLeaves(parses, st, a);
    var st', v', s' := Act(parses, st, a).st, Moved(parses, st, v, a), Note(s, a);
    FlushTracks(c, st', w, v', s.(plain := false), ks);
    assert s' == s.(plain := false).(live := {});
    assert Tracks(st', v', s');
  }

  lemma FlushTracks(st: State, st': State, w: Proto, v': Proto, s: Summary, ks: seq<nat>)
    requires Tracks(st, w, s) && st.started && !PlainOpen(st)
    requires st'.blocks == map[] && !PlainOpen(st') && st'.next == st.next && st'.started
    requires forall k :: k in ks <==> k in st.blocks
    requires v' == Body(w.next, Shut(w.open, st.blocks, ks))
    ensures Tracks(st', v', s.(live := {}))
  {
    FlushCovers(st, st', w, v', ks);
    FlushKeepsLost(st, st', w, v', ks);
  }

  lemma FinishLeaves(parses: string -> bool, st: State, a: Action)
    requires a.Finish?
    ensures var st', c := Act(parses, st, a).st, Closed(st).st;
            st'.blocks == map[] && PlainOpen(st') == PlainOpen(c) && st'.next == c.next && st'.started == c.started
  {}

  lemma FlushKeepsLost(st: State, st': State, w: Proto, v': Proto, ks: seq<nat>)
    requires Covers(st, w) && !PlainOpen(st) && !PlainOpen(st')
    requires forall k :: k in ks <==> k in st.blocks
    requires st'.blocks == map[] && v' == Body(w.next, Shut(w.open, st.blocks, ks))
    ensures Lost(st', v') <==> Lost(st, w)
  {
    if Lost(st', v') {
      var b :| b in v'.open && !Owned(st', b);
      FlushLeaves(st, w, ks, b);
    }
    if Lost(st, w) {
      var b :| b in w.open && !Owned(st, b);
      FlushLeaves(st, w, ks, b);
      assert !Owned(st', b);
    }
  }

  lemma FlushLeaves(st: State, w: Proto, ks: seq<nat>, b: nat)
    requires w.Body? && !PlainOpen(st) && forall k :: k in ks <==> k in st.blocks
    ensures b in Shut(w.open, st.blocks, ks) <==> b in w.open && !Owned(st, b)
  {
    ShutKeeps(w.open, st.blocks, ks, b);
    assert Owned(st, b) <==> Holds(st.blocks, ks, b);
  }

  lemma FragmentTracks(parses: string -> bool, st: State, v: Proto, s: Summary, a: Action)
    requires Tracks(st, v, s) && a.Fragment?
    ensures Tracks(Act(parses, st, a).st, Moved(parses, st, v, a), s)
  {
    forall b: nat ensures Owned(Act(parses, st, a).st, b) <==> Owned(st, b) {}
  }

  /** One action keeps transcoder, client and input summary in step. */
  lemma ActTracks(parses: string -> bool, st: State, v: Proto, s: Summary, a: Action)
    requires Tracks(st, v, s) && Fits(s, a)
    ensures Tracks(Act(parses, st, a).st, Moved(parses, st, v, a), Note(s, a))
  {
    match a
    case Meter(u) =>
      var t := Metered(st, u);
      OutputIsNotTracked(st, v, s, t.input, t.output, t);
    case Begin => BeginTracks(parses, st, v, s);
    case Reason(p) => ReasonTracks(parses, st, v, s, p);
    case Say(p) => SayTracks(parses, st, v, s, p);
    case CloseOpen => CloseTracks(st, v, s);
    case Call(_, _, _) => CallTracks(parses, st, v, s, a);
    case Fragment(_, _) => FragmentTracks(parses, st, v, s, a);
    case Finish(_) => FinishTracks(parses, st, v, s, a);
  }

  lemma {:induction false} ActsTrack(parses: string -> bool, acts: seq<Action>)
    requires Fitting(Blank, acts)
    ensures var o := Acts(parses, Nothing, acts);
            Tracks(o.st, After(Unopened, o.events), Scan(Blank, acts))
    decreases |acts|
  {
    if acts != [] {
      var front, last := acts[..|acts| - 1], acts[|acts| - 1];
      ActsTrack(parses, front);
      var o := Acts(parses, Nothing, front);
      ActTracks(parses, o.st, After(Unopened, o.events), Scan(Blank, front), last);
      AfterConcat(Unopened, o.events, Act(parses, o.st, last).events);
    }
  }

  // ---- Main results ----------------------------------------------------------------------

  /** Read off the chunks: nothing is left open and no live tool index is announced twice. */
  predicate Clean(chunks: seq<Chunk>) {
    var s := Scan(Blank, StreamActions(chunks));
    !s.plain && s.live == {} && !s.repeated
  }

  lemma EmptyIffClean(st: State, v: Proto, s: Summary)
    requires Tracks(st, v, s) && st.started
    ensures v.open == map[] <==> !s.plain && s.live == {} && !s.repeated
  {
    if s.live != {} {
      var k :| k in s.live;
      assert st.blocks[k] in v.open;
    }
    if v.open != map[] {
      var b :| b in v.open;
      if !Owned(st, b) { assert Lost(st, v); }
    }
  }

  lemma HeldMeansBegun(parses: string -> bool, chunks: seq<Chunk>)
    requires Finishes(chunks)
    ensures BodyOf(parses, chunks).st.started
  {
    ThroughIsPrefix(chunks);
    var t := Through(chunks);
    var front, last := t[..|t| - 1], t[|t| - 1];
    ChunkFinishes(last);
    NoFinishConcat(StreamActions(front), ChunkActions(last));
    StreamFits(t);
    ActsTrack(parses, StreamActions(t));
    FinishWasBegun(Blank, StreamActions(t));
  }

  lemma {:induction false} FinishWasBegun(s: Summary, acts: seq<Action>)
    requires Fitting(s, acts) && !NoFinish(acts)
    ensures Scan(s, acts).begun
    decreases |acts|
  {
    var front, last := acts[..|acts| - 1], acts[|acts| - 1];
    NoFinishSnoc(front, last);
    assert acts == front + [last];
    if !last.Finish? { FinishWasBegun(s, front); }
  }

  lemma BodyTracks(parses: string -> bool, chunks: seq<Chunk>)
    ensures Tracks(BodyOf(parses, chunks).st, After(Unopened, BodyOf(parses, chunks).events),
                   Scan(Blank, StreamActions(Through(chunks))))
  {
    StreamFits(Through(chunks));
    ActsTrack(parses, StreamActions(Through(chunks)));
  }

  /** A finish after the body is accepted exactly when the body left nothing open. */
  lemma ReleaseVerdict(es: seq<Event>, d: Event, st: State, s: Summary)
    requires d.MessageDelta? && st.started && Tracks(st, After(Unopened, es), s)
    ensures After(Unopened, es + [d, MessageStop]) ==
            if !s.plain && s.live == {} && !s.repeated then Ended else Broken
  {
    var v := After(Unopened, es);
    AfterConcat(Unopened, es, [d, MessageStop]);
    AfterTwo(v, d, MessageStop);
    EmptyIffClean(st, v, s);
  }

  lemma FinishedVerdict(parses: string -> bool, chunks: seq<Chunk>)
    requires Finishes(chunks)
    ensures After(Unopened, UpToStop(StreamOf(parses, chunks))) ==
            if Clean(Through(chunks)) then Ended else Broken
  {
    FinishedStream(parses, chunks);
    HeldMeansBegun(parses, chunks);
    BodyTracks(parses, chunks);
    var body := BodyOf(parses, chunks);
    var fin := FinishEvents(AtRelease(parses, chunks), body.st.held.value);
    ReleaseVerdict(body.events, fin[0], body.st, Scan(Blank, StreamActions(Through(chunks))));
  }

  lemma UnfinishedVerdict(parses: string -> bool, chunks: seq<Chunk>)
    requires !Finishes(chunks)
    ensures After(Unopened, UpToStop(StreamOf(parses, chunks))) !in {Ended, Broken}
  {
    UnfinishedStream(parses, chunks);
    BodyTracks(parses, chunks);
  }

  lemma Verdict(es: seq<Event>)
    ensures WellFormed(es) <==> After(Unopened, es) != Broken
    ensures Complete(es) <==> After(Unopened, es) == Ended
  {
    AutomatonDecides(es);
    EndedIsComplete(es);
  }

  /**
    * For every chunk sequence, with any number of choices, the events up to the first
    * message_stop are well formed exactly when there is no finish to announce or the chunks
    * through the first finishing one are clean; they are complete exactly when both hold.
    */
  lemma WellFormedIff(parses: string -> bool, chunks: seq<Chunk>)
    ensures WellFormed(UpToStop(StreamOf(parses, chunks))) <==>
            (Finishes(chunks) ==> Clean(Through(chunks)))
    ensures Complete(UpToStop(StreamOf(parses, chunks))) <==>
            Finishes(chunks) && Clean(Through(chunks))
  {
    Verdict(UpToStop(StreamOf(parses, chunks)));
    if Finishes(chunks) {
      FinishedVerdict(parses, chunks);
    } else {
      UnfinishedVerdict(parses, chunks);
    }
  }

  // ---- One choice per chunk ----------------------------------------------------------------

  /** The tool indices announced by an id, in order. */
  function Announced(acts: seq<Action>): seq<nat> {
    if acts == [] then []
    else Announced(acts[..|acts| - 1]) +
         if acts[|acts| - 1].Call? then [acts[|acts| - 1].index] else []
  }

  predicate Distinct(ks: seq<nat>) {
    forall i, j :: 0 <= i < j < |ks| ==> ks[i] != ks[j]
  }

  lemma {:induction false} RepeatedIffNotDistinct(acts: seq<Action>)
    requires NoFinish(acts)
    ensures var s := Scan(Blank, acts);
            (forall k :: k in s.live <==> k in Announced(acts)) &&
            (s.repeated <==> !Distinct(Announced(acts)))
    decreases |acts|
  {
    if acts != [] {
      var front, last := acts[..|acts| - 1], acts[|acts| - 1];
      RepeatedIffNotDistinct(front);
      if last.Call? {
        DistinctSnoc(Announced(front), last.index);
      } else {
        assert Announced(acts) == Announced(front);
      }
    }
  }

  lemma DistinctSnoc(ks: seq<nat>, k: nat)
    ensures Distinct(ks + [k]) <==> Distinct(ks) && k !in ks
  {
    var all := ks + [k];
    assert all[|ks|] == k;
    assert forall i :: 0 <= i < |ks| ==> all[i] == ks[i];
    if Distinct(all) {
      forall i, j | 0 <= i < j < |ks| ensures ks[i] != ks[j] { assert all[i] != all[j]; }
    }
  }

  /**
    * With one choice per chunk, the stream is complete exactly when some chunk finishes and
    * no tool index is announced twice before it does.
    */
  lemma SingleChoiceWellFormed(parses: string -> bool, chunks: seq<Chunk>)
    requires SingleChoice(chunks)
    ensures Complete(UpToStop(StreamOf(parses, chunks))) <==>
            Finishes(chunks) && Distinct(Announced(StreamActions(Through(chunks))))
    ensures WellFormed(UpToStop(StreamOf(parses, chunks))) <==>
            (Finishes(chunks) ==> Distinct(Announced(StreamActions(Through(chunks)))))
  {
    WellFormedIff(parses, chunks);
    if Finishes(chunks) {
      EndsInFinish(chunks);
      CleanIffDistinct(chunks);
    }
  }

  lemma CleanIffDistinct(chunks: seq<Chunk>)
    requires SingleChoice(chunks) && Finishes(chunks)
    ensures Clean(Through(chunks)) <==> Distinct(Announced(StreamActions(Through(chunks))))
  {
    EndsInFinish(chunks);
    FinishClears(StreamActions(Through(chunks)));
  }

  lemma FinishClears(acts: seq<Action>)
    requires LastOnlyFinish(acts)
    ensures var s := Scan(Blank, acts);
            !s.plain && s.live == {} && (s.repeated <==> !Distinct(Announced(acts)))
  {
    RepeatedIffNotDistinct(acts[..|acts| - 1]);
    assert Announced(acts) == Announced(acts[..|acts| - 1]);
  }

  lemma AnnouncedSnoc(acts: seq<Action>, a: Action)
    ensures Announced(acts + [a]) == Announced(acts) + if a.Call? then [a.index] else []
  {
    assert (acts + [a])[..|acts|] == acts;
  }

  // ---- Where it fails ------------------------------------------------------------------------

  const Reannounced: Chunk :=
    Chunk([Choice(None, None,
                  Some([ToolDelta(0, Some("a"), None), ToolDelta(0, Some("b"), None)]),
                  Some("tool_calls"))], None)

  /** An id sent twice for one tool index leaves the first block open for ever. */
  lemma ReannouncedToolIsNeverStopped(parses: string -> bool)
    ensures SingleChoice([Reannounced])
    ensures !WellFormed(UpToStop(StreamOf(parses, [Reannounced])))
  {
    assert HasFinish(Reannounced) by { assert Reannounced.choices[0].finish.Some?; }
    assert Through([Reannounced]) == [Reannounced];
    AnnouncedTwice();
    SingleChoiceWellFormed(parses, [Reannounced]);
  }

  lemma AnnouncedTwice()
    ensures !Distinct(Announced(StreamActions([Reannounced])))
  {
    ReannouncedActions();
    var a := [Meter(None), Begin, CloseOpen];
    var b := a + [Call(0, "a", "")];
    var c := b + [Call(0, "b", "")];
    AnnouncedSnoc(a, Call(0, "a", ""));
    AnnouncedSnoc(b, Call(0, "b", ""));
    AnnouncedSnoc(c, Finish("tool_calls"));
    var ks := Announced(StreamActions([Reannounced]));
    assert ks == Announced(a) + [0] + [0];
    assert ks[|ks| - 2] == ks[|ks| - 1];
  }

  lemma ReannouncedActions()
    ensures StreamActions([Reannounced]) ==
            [Meter(None), Begin, CloseOpen] + [Call(0, "a", "")] + [Call(0, "b", "")] +
            [Finish("tool_calls")]
  {
    var ds := Reannounced.choices[0].calls.value;
    assert HasFinish(Reannounced) by { assert Reannounced.choices[0].finish.Some?; }
    ChunkEndsInFinish(Reannounced);
    assert ds[..1] == [ds[0]] && ds[..1][..0] == [];
    assert CallActions([ds[0]]) == [Call(0, "a", "")];
    assert [Reannounced][..0] == [];
  }

  const TwoChoices: Chunk :=
    Chunk([Choice(None, None, None, Some("stop")), Choice(None, Some("x"), None, None)], None)

  /** A second choice after the finishing one opens a block that nothing closes. */
  lemma SecondChoiceIsNeverStopped(parses: string -> bool)
    ensures !WellFormed(UpToStop(StreamOf(parses, [TwoChoices])))
  {
    assert HasFinish(TwoChoices) by { assert TwoChoices.choices[0].finish.Some?; }
    assert Through([TwoChoices]) == [TwoChoices];
    TwoChoicesActions();
    ScanSnoc(Blank, [Meter(None), Begin, Finish("stop"), Begin], Say("x"));
    WellFormedIff(parses, [TwoChoices]);
  }

  lemma TwoChoicesActions()
    ensures StreamActions([TwoChoices]) ==
            [Meter(None), Begin, Finish("stop"), Begin] + [Say("x")]
  {
    var cs := TwoChoices.choices;
    assert cs[..1] == [cs[0]] && cs[..1][..0] == [];
    assert ChoicesActions([cs[0]]) == [Begin, Finish("stop")];
    assert [TwoChoices][..0] == [];
  }
}
