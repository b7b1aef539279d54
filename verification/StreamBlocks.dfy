/**
  * What a client reassembles from the events: block by block, the joined deltas. For every
  * single-choice stream that finishes and announces no tool index twice, it is the outline
  * drawn directly from the deltas, with each tool's joined argument fragments.
  */
module StreamBlocks {
  import opened StreamEvents
  import opened TranscoderSteps
  import opened StreamRuns
  import opened StreamWellFormed

  // ---- The client's side -----------------------------------------------------------------

  datatype Draft = Draft(block: Block, body: string)

  function Put(ds: seq<Draft>, e: Event): seq<Draft> {
    match e
    case BlockStart(_, b) => ds + [Draft(b, "")]
    case BlockDelta(i, _, p) =>
      if i < |ds| then ds[i := Draft(ds[i].block, ds[i].body + p)] else ds
    case _ => ds
  }

  function Assemble(ds: seq<Draft>, es: seq<Event>): seq<Draft> {
    if es == [] then ds else Put(Assemble(ds, es[..|es| - 1]), es[|es| - 1])
  }

  lemma {:induction false} AssembleConcat(ds: seq<Draft>, a: seq<Event>, b: seq<Event>)
    ensures Assemble(ds, a + b) == Assemble(Assemble(ds, a), b)
    decreases |b|
  {
    if b == [] {
      assert a + b == a;
    } else {
      assert (a + b)[..|a + b| - 1] == a + b[..|b| - 1];
      AssembleConcat(ds, a, b[..|b| - 1]);
    }
  }

  lemma AssembleSnoc(ds: seq<Draft>, es: seq<Event>, e: Event)
    ensures Assemble(ds, es + [e]) == Put(Assemble(ds, es), e)
  {
    assert (es + [e])[..|es|] == es;
  }

  lemma AssembleOne(ds: seq<Draft>, e: Event)
    ensures Assemble(ds, [e]) == Put(ds, e)
  {}

  lemma AssembleTwo(ds: seq<Draft>, d: Event, e: Event)
    ensures Assemble(ds, [d, e]) == Put(Put(ds, d), e)
  {
    AssembleSnoc(ds, [d], e);
    AssembleOne(ds, d);
    assert [d] + [e] == [d, e];
  }

  // ---- The outline -------------------------------------------------------------------------

  /** A run of text or reasoning, or a tool call. */
  datatype Part = Plain(kind: Kind, text: string) | Tool(index: nat, id: string, name: string)

  datatype Sketch = Sketch(parts: seq<Part>, open: bool)

  const Empty: Sketch := Sketch([], false)

  predicate Continues(sk: Sketch, kind: Kind) {
    sk.open && sk.parts != [] && sk.parts[|sk.parts| - 1].Plain? &&
    sk.parts[|sk.parts| - 1].kind == kind
  }

  /** A piece goes on with an open run of its own kind, or starts a run. */
  function Write(sk: Sketch, kind: Kind, piece: string): Sketch {
    if Continues(sk, kind) then
      var n := |sk.parts| - 1;
      Sketch(sk.parts[..n] + [Plain(kind, sk.parts[n].text + piece)], true)
    else
      Sketch(sk.parts + [Plain(kind, piece)], true)
  }

  function DrawOne(sk: Sketch, a: Action): Sketch {
    match a
    case Reason(p) => Write(sk, ThinkingKind, p)
    case Say(p) => Write(sk, TextKind, p)
    case CloseOpen => sk.(open := false)
    case Call(k, id, name) => sk.(parts := sk.parts + [Tool(k, id, name)])
    case Finish(_) => sk.(open := false)
    case _ => sk
  }

  function Draw(sk: Sketch, acts: seq<Action>): Sketch {
    if acts == [] then sk else DrawOne(Draw(sk, acts[..|acts| - 1]), acts[|acts| - 1])
  }

  /** The arguments gathered for tool index `k`. */
  function Args(parses: string -> bool, acts: seq<Action>, k: nat): string {
    if acts == [] then ""
    else
      var a := acts[|acts| - 1];
      var buf := Args(parses, acts[..|acts| - 1], k);
      if a.Fragment? && a.index == k then Joined(parses, buf, a.piece) else buf
  }

  // ---- Transcoder and outline side by side ---------------------------------------------------

  function PlainBlock(k: Kind): Block { if k.TextKind? then TextBlock else ThinkingBlock }

  function DraftOf(p: Part): Draft {
    match p
    case Plain(k, t) => Draft(PlainBlock(k), t)
    case Tool(_, id, name) => Draft(ToolUse(id, name), "")
  }

  ghost predicate Drafted(ds: seq<Draft>, parts: seq<Part>) {
    |ds| == |parts| && forall i :: 0 <= i < |ds| ==> ds[i] == DraftOf(parts[i])
  }

  ghost predicate Placed(st: State, sk: Sketch) {
    sk.open == PlainOpen(st) && !(st.textOpen && st.thinkingOpen) &&
    st.next + (if sk.open then 1 else 0) == |sk.parts| &&
    (sk.open ==> Continues(sk, PlainKind(st)))
  }

  ghost predicate Mapped(blocks: map<nat, nat>, parts: seq<Part>) {
    (forall k :: k in blocks ==>
       blocks[k] < |parts| && parts[blocks[k]].Tool? && parts[blocks[k]].index == k) &&
    (forall i :: 0 <= i < |parts| && parts[i].Tool? ==>
       parts[i].index in blocks && blocks[parts[i].index] == i)
  }

  ghost predicate Agrees(st: State, ds: seq<Draft>, sk: Sketch) {
    Drafted(ds, sk.parts) && Placed(st, sk) && Mapped(st.blocks, sk.parts)
  }

  lemma MappedGrows(blocks: map<nat, nat>, parts: seq<Part>, p: Part)
    requires Mapped(blocks, parts) && p.Plain?
    ensures Mapped(blocks, parts + [p])
  {}

  lemma MappedExtends(blocks: map<nat, nat>, parts: seq<Part>, p: Part)
    requires Mapped(blocks, parts) && parts != [] && parts[|parts| - 1].Plain? && p.Plain?
    ensures Mapped(blocks, parts[..|parts| - 1] + [p])
  {}

  /** A piece for the run that is open. */
  lemma WriteOn(ds: seq<Draft>, sk: Sketch, kind: Kind, piece: string)
    requires Drafted(ds, sk.parts) && Continues(sk, kind)
    ensures Drafted(Put(ds, BlockDelta(|sk.parts| - 1, kind, piece)), Write(sk, kind, piece).parts)
  {}

  /** A piece that starts a run. */
  lemma WriteNew(ds: seq<Draft>, parts: seq<Part>, kind: Kind, piece: string)
    requires Drafted(ds, parts)
    ensures Drafted(Put(Put(ds, BlockStart(|parts|, PlainBlock(kind))),
                        BlockDelta(|parts|, kind, piece)),
                    parts + [Plain(kind, piece)])
  {
    var e := Put(ds, BlockStart(|parts|, PlainBlock(kind)));
    assert e[|parts|] == Draft(PlainBlock(kind), "");
    assert "" + piece == piece;
  }

  lemma CloseAgrees(st: State, ds: seq<Draft>, sk: Sketch)
    requires Agrees(st, ds, sk)
    ensures Agrees(Closed(st).st, Assemble(ds, Closed(st).events), sk.(open := false))
  {
    if PlainOpen(st) { AssembleOne(ds, BlockStop(st.next)); }
  }

  /** The events of a piece: into the open run of its kind, or into a new one. */
  lemma GoOnAgrees(st: State, ds: seq<Draft>, sk: Sketch, kind: Kind, p: string)
    requires Agrees(st, ds, sk) && PlainOpen(st) && kind == PlainKind(st)
    ensures Agrees(st, Put(ds, BlockDelta(st.next, kind, p)), Write(sk, kind, p))
  {
    WriteOn(ds, sk, kind, p);
    MappedExtends(st.blocks, sk.parts, Plain(kind, sk.parts[|sk.parts| - 1].text + p));
  }

  lemma StartAgrees(st: State, st': State, ds: seq<Draft>, sk: Sketch, kind: Kind, p: string)
    requires Agrees(st, ds, sk) && !PlainOpen(st) && kind != ToolKind
    requires st' == if kind.TextKind? then st.(textOpen := true) else st.(thinkingOpen := true)
    ensures Agrees(st', Put(Put(ds, BlockStart(st.next, PlainBlock(kind))),
                            BlockDelta(st.next, kind, p)),
                   Write(sk, kind, p))
  {
    WriteNew(ds, sk.parts, kind, p);
    MappedGrows(st.blocks, sk.parts, Plain(kind, p));
  }

  lemma AssembleThree(ds: seq<Draft>, c: seq<Event>, e: Event, d: Event)
    ensures Assemble(ds, c + [e] + [d]) == Put(Put(Assemble(ds, c), e), d)
  {
    AssembleSnoc(ds, c, e);
    AssembleSnoc(ds, c + [e], d);
  }

  lemma ReasonAgrees(st: State, ds: seq<Draft>, sk: Sketch, p: string)
    requires Agrees(st, ds, sk)
    ensures Agrees(Reasoned(st, p).st, Assemble(ds, Reasoned(st, p).events),
                   Write(sk, ThinkingKind, p))
  {
    var d := BlockDelta(Reasoned(st, p).st.next, ThinkingKind, p);
    if st.thinkingOpen {
      assert Reasoned(st, p).events == [d];
      AssembleOne(ds, d);
      GoOnAgrees(st, ds, sk, ThinkingKind, p);
    } else {
      var c, e := Closed(st), BlockStart(Closed(st).st.next, ThinkingBlock);
      CloseAgrees(st, ds, sk);
      AssembleThree(ds, c.events, e, d);
      assert Reasoned(st, p).events == c.events + [e] + [d];
      StartAgrees(c.st, Reasoned(st, p).st, Assemble(ds, c.events), sk.(open := false),
                  ThinkingKind, p);
      assert !Continues(sk, ThinkingKind);
    }
  }

  lemma SayAgrees(st: State, ds: seq<Draft>, sk: Sketch, p: string)
    requires Agrees(st, ds, sk)
    ensures Agrees(Said(st, p).st, Assemble(ds, Said(st, p).events), Write(sk, TextKind, p))
  {
    var d := BlockDelta(Said(st, p).st.next, TextKind, p);
    if st.textOpen {
      assert Said(st, p).events == [d];
      AssembleOne(ds, d);
      GoOnAgrees(st, ds, sk, TextKind, p);
    } else {
      var c, e := Closed(st), BlockStart(Closed(st).st.next, TextBlock);
      CloseAgrees(st, ds, sk);
      AssembleThree(ds, c.events, e, d);
      assert Said(st, p).events == c.events + [e] + [d];
      StartAgrees(c.st, c.st.(textOpen := true), Assemble(ds, c.events), sk.(open := false),
                  TextKind, p);
      assert !Continues(sk, TextKind);
    }
  }

  lemma CallAgrees(parses: string -> bool, st: State, ds: seq<Draft>, sk: Sketch, a: Action)
    requires Agrees(st, ds, sk) && a.Call? && !PlainOpen(st) && a.index !in st.blocks
    ensures Agrees(Act(parses, st, a).st, Assemble(ds, Act(parses, st, a).events),
                   DrawOne(sk, a))
  {
    AssembleOne(ds, BlockStart(st.next, ToolUse(a.id, a.name)));
    CallMaps(st.blocks, sk.parts, a);
  }

  lemma CallMaps(blocks: map<nat, nat>, parts: seq<Part>, a: Action)
    requires Mapped(blocks, parts) && a.Call? && a.index !in blocks
    ensures Mapped(blocks[a.index := |parts|], parts + [Tool(a.index, a.id, a.name)])
  {}

  lemma ActAgrees(parses: string -> bool, st: State, ds: seq<Draft>, sk: Sketch, a: Action)
    requires Agrees(st, ds, sk) && !a.Finish?
    requires a.Call? ==> !PlainOpen(st) && a.index !in st.blocks
    ensures Agrees(Act(parses, st, a).st, Assemble(ds, Act(parses, st, a).events),
                   DrawOne(sk, a))
  {
    match a
    case Reason(p) => ReasonAgrees(st, ds, sk, p);
    case Say(p) => SayAgrees(st, ds, sk, p);
    case CloseOpen => CloseAgrees(st, ds, sk);
    case Call(_, _, _) => CallAgrees(parses, st, ds, sk, a);
    case Begin => if !st.started { AssembleOne(ds, MessageStart(st.input, st.output)); }
    case _ =>
  }

  lemma {:induction false} ActsAgree(parses: string -> bool, acts: seq<Action>)
    requires NoFinish(acts) && Fitting(Blank, acts) && !Scan(Blank, acts).repeated
    ensures var o := Acts(parses, Nothing, acts);
            Agrees(o.st, Assemble([], o.events), Draw(Empty, acts))
    decreases |acts|
  {
    if acts != [] {
      var front, last := acts[..|acts| - 1], acts[|acts| - 1];
      ActsAgree(parses, front);
      ActsTrack(parses, front);
      var o := Acts(parses, Nothing, front);
      ActAgrees(parses, o.st, Assemble([], o.events), Draw(Empty, front), last);
      AssembleConcat([], o.events, Act(parses, o.st, last).events);
    }
  }

  /** The buffers hold the gathered arguments. */
  lemma {:induction false} BufsHoldArgs(parses: string -> bool, acts: seq<Action>, k: nat)
    requires NoFinish(acts)
    ensures BufferOf(Acts(parses, Nothing, acts).st.bufs, k) == Args(parses, acts, k)
    decreases |acts|
  {
    if acts != [] {
      var front, last := acts[..|acts| - 1], acts[|acts| - 1];
      BufsHoldArgs(parses, front, k);
      BufStep(parses, Acts(parses, Nothing, front).st, last, k);
    }
  }

  lemma BufStep(parses: string -> bool, st: State, a: Action, k: nat)
    requires !a.Finish?
    ensures BufferOf(Act(parses, st, a).st.bufs, k) ==
            if a.Fragment? && a.index == k then Joined(parses, BufferOf(st.bufs, k), a.piece)
            else BufferOf(st.bufs, k)
  {}

  // ---- The finish --------------------------------------------------------------------------

  /** A draft once the buffers of the indices in `ks` are flushed. */
  function Filled(d: Draft, p: Part, bufs: map<nat, string>, ks: seq<nat>): Draft {
    if p.Tool? && p.index in ks then Draft(d.block, d.body + BufferOf(bufs, p.index)) else d
  }

  lemma FillOne(ds: seq<Draft>, blocks: map<nat, nat>, bufs: map<nat, string>, k: nat)
    requires k in blocks && blocks[k] < |ds|
    ensures var d := ds[blocks[k]];
            Assemble(ds, FlushOne(blocks, bufs, k)) ==
            ds[blocks[k] := Draft(d.block, d.body + BufferOf(bufs, k))]
  {
    var b := blocks[k];
    if BufferOf(bufs, k) == "" {
      AssembleOne(ds, BlockStop(b));
      assert ds[b].body + "" == ds[b].body;
    } else {
      AssembleTwo(ds, BlockDelta(b, ToolKind, bufs[k]), BlockStop(b));
    }
  }

  lemma {:induction false} FlushFills(
    ds: seq<Draft>, parts: seq<Part>, blocks: map<nat, nat>, bufs: map<nat, string>, ks: seq<nat>)
    requires |ds| == |parts| && Mapped(blocks, parts)
    requires forall k :: k in ks ==> k in blocks
    requires Increasing(ks)
    ensures var r := Assemble(ds, Flush(blocks, bufs, ks));
            |r| == |ds| &&
            forall i :: 0 <= i < |ds| ==> r[i] == Filled(ds[i], parts[i], bufs, ks)
    decreases |ks|
  {
    if ks != [] {
      var front, last := ks[..|ks| - 1], ks[|ks| - 1];
      FlushFills(ds, parts, blocks, bufs, front);
      AssembleConcat(ds, Flush(blocks, bufs, front), FlushOne(blocks, bufs, last));
      FillOne(Assemble(ds, Flush(blocks, bufs, front)), blocks, bufs, last);
      assert last !in front;
      assert forall k :: k in ks <==> k in front || k == last;
    }
  }

  function FinalDraft(parses: string -> bool, acts: seq<Action>, p: Part): Draft {
    match p
    case Plain(k, t) => Draft(PlainBlock(k), t)
    case Tool(k, id, name) => Draft(ToolUse(id, name), Args(parses, acts, k))
  }

  ghost predicate Delivered(
    parses: string -> bool, acts: seq<Action>, ds: seq<Draft>, parts: seq<Part>)
  {
    |ds| == |parts| &&
    forall i :: 0 <= i < |ds| ==> ds[i] == FinalDraft(parses, acts, parts[i])
  }

  lemma FinishDelivers(parses: string -> bool, acts: seq<Action>, st: State, ds: seq<Draft>,
                       sk: Sketch, r: string)
    requires Agrees(st, ds, sk)
    requires forall k :: BufferOf(st.bufs, k) == Args(parses, acts, k)
    ensures Delivered(parses, acts, Assemble(ds, Finished(st, r).events), sk.parts)
  {
    var c := Closed(st);
    CloseAgrees(st, ds, sk);
    var mid, ks := Assemble(ds, c.events), Sorted(c.st.blocks.Keys);
    SortedOrders(c.st.blocks.Keys);
    AssembleConcat(ds, c.events, Flush(c.st.blocks, c.st.bufs, ks));
    FlushFills(mid, sk.parts, c.st.blocks, c.st.bufs, ks);
    assert forall i :: 0 <= i < |sk.parts| && sk.parts[i].Tool? ==> sk.parts[i].index in ks;
    FilledIsFinal(parses, acts, mid, sk.parts, c.st.bufs, ks);
  }

  lemma FilledIsFinal(parses: string -> bool, acts: seq<Action>, ds: seq<Draft>,
                      parts: seq<Part>, bufs: map<nat, string>, ks: seq<nat>)
    requires Drafted(ds, parts)
    requires forall i :: 0 <= i < |parts| && parts[i].Tool? ==> parts[i].index in ks
    requires forall k :: BufferOf(bufs, k) == Args(parses, acts, k)
    ensures forall i :: 0 <= i < |ds| ==>
              Filled(ds[i], parts[i], bufs, ks) == FinalDraft(parses, acts, parts[i])
  {
    forall i | 0 <= i < |ds|
      ensures Filled(ds[i], parts[i], bufs, ks) == FinalDraft(parses, acts, parts[i])
    {
      if parts[i].Tool? {
        assert "" + BufferOf(bufs, parts[i].index) == BufferOf(bufs, parts[i].index);
      }
    }
  }

  /** The whole action list, its last action being the only finish. */
  lemma BodyDelivers(parses: string -> bool, acts: seq<Action>)
    requires LastOnlyFinish(acts) && Fitting(Blank, acts) && Distinct(Announced(acts))
    ensures Delivered(parses, acts, Assemble([], Acts(parses, Nothing, acts).events),
                      Draw(Empty, acts).parts)
  {
    var front, last := acts[..|acts| - 1], acts[|acts| - 1];
    RepeatedIffNotDistinct(front);
    assert Announced(acts) == Announced(front);
    ActsAgree(parses, front);
    var o := Acts(parses, Nothing, front);
    AssembleConcat([], o.events, Act(parses, o.st, last).events);
    forall k: nat ensures BufferOf(o.st.bufs, k) == Args(parses, acts, k) {
      BufsHoldArgs(parses, front, k);
    }
    FinishDelivers(parses, acts, o.st, Assemble([], o.events), Draw(Empty, front), last.reason);
  }

  /**
    * The blocks a client reassembles by the first message_stop are the outline drawn from
    * the deltas, tool arguments included.
    */
  lemma StreamedBlocks(parses: string -> bool, chunks: seq<Chunk>)
    requires SingleChoice(chunks) && Finishes(chunks)
    requires Distinct(Announced(StreamActions(Through(chunks))))
    ensures var acts := StreamActions(Through(chunks));
            Delivered(parses, acts, Assemble([], UpToStop(StreamOf(parses, chunks))),
                      Draw(Empty, acts).parts)
  {
    var acts := StreamActions(Through(chunks));
    EndsInFinish(chunks);
    StreamFits(Through(chunks));
    BodyDelivers(parses, acts);
    FinishedStream(parses, chunks);
    var body := BodyOf(parses, chunks);
    var fin := FinishEvents(AtRelease(parses, chunks), body.st.held.value);
    AssembleConcat([], body.events, fin);
    AssembleTwo(Assemble([], body.events), fin[0], fin[1]);
  }
}
