/**
  * Whole streams: everything the client sees up to the first message_stop is the effect of
  * the actions of the chunks through the first finishing one, then the released finish.
  */
module StreamRuns {
  import opened Wrappers
  import opened StreamEvents
  import opened TranscoderSteps

  predicate HasFinish(c: Chunk) {
    exists i :: 0 <= i < |c.choices| && c.choices[i].finish.Some?
  }

  predicate Finishes(chunks: seq<Chunk>) {
    exists i :: 0 <= i < |chunks| && HasFinish(chunks[i])
  }

  /** The chunks through the first finishing one (all of them when none finishes). */
  function Through(chunks: seq<Chunk>): seq<Chunk> {
    if chunks == [] then []
    else if HasFinish(chunks[0]) then [chunks[0]]
    else [chunks[0]] + Through(chunks[1..])
  }

  function ChunkActions(c: Chunk): seq<Action> {
    [Meter(c.usage)] + ChoicesActions(c.choices)
  }

  function StreamActions(chunks: seq<Chunk>): seq<Action> {
    if chunks == [] then []
    else StreamActions(chunks[..|chunks| - 1]) + ChunkActions(chunks[|chunks| - 1])
  }

  /** What a client reads before it stops listening at the first message_stop. */
  function UpToStop(es: seq<Event>): seq<Event> {
    if es == [] then []
    else if es[0].MessageStop? then [es[0]]
    else [es[0]] + UpToStop(es[1..])
  }

  // ---- Through -------------------------------------------------------------------------

  lemma {:induction false} ThroughIsPrefix(chunks: seq<Chunk>)
    ensures |Through(chunks)| <= |chunks|
    ensures Through(chunks) == chunks[..|Through(chunks)|]
    ensures forall i :: 0 <= i < |Through(chunks)| - 1 ==> !HasFinish(chunks[i])
    ensures Finishes(chunks) ==>
              Through(chunks) != [] && HasFinish(chunks[|Through(chunks)| - 1])
    ensures !Finishes(chunks) ==> Through(chunks) == chunks
    decreases |chunks|
  {
    if chunks != [] && !HasFinish(chunks[0]) {
      var rest := chunks[1..];
      ThroughIsPrefix(rest);
      assert Finishes(chunks) <==> Finishes(rest) by {
        assert forall i :: 0 <= i < |rest| ==> rest[i] == chunks[i + 1];
        if Finishes(chunks) {
          var i :| 0 <= i < |chunks| && HasFinish(chunks[i]);
          assert rest[i - 1] == chunks[i];
        }
      }
      assert Through(chunks) == [chunks[0]] + Through(rest);
    }
  }

  // ---- The held reason -----------------------------------------------------------------

  predicate NoFinish(acts: seq<Action>) {
    forall i :: 0 <= i < |acts| ==> !acts[i].Finish?
  }

  lemma {:induction false} HeldByFinish(parses: string -> bool, o: Out, acts: seq<Action>)
    requires o.st.held.None?
    ensures Acts(parses, o, acts).st.held.None? <==> NoFinish(acts)
    decreases |acts|
  {
    if acts != [] {
      var front, last := acts[..|acts| - 1], acts[|acts| - 1];
      HeldByFinish(parses, o, front);
      NoFinishSnoc(front, last);
      assert acts == front + [last];
      HeldStep(parses, Acts(parses, o, front), last);
    }
  }

  lemma HeldStep(parses: string -> bool, o: Out, a: Action)
    ensures a.Finish? ==> Do(parses, o, a).st.held == Some(StopReason(a.reason))
    ensures !a.Finish? ==> Do(parses, o, a).st.held == o.st.held
  {}

  lemma NoFinishSnoc(front: seq<Action>, last: Action)
    ensures NoFinish(front + [last]) <==> NoFinish(front) && !last.Finish?
  {
    var acts := front + [last];
    assert acts[|front|] == last;
    assert forall i :: 0 <= i < |front| ==> acts[i] == front[i];
  }

  lemma NoFinishConcat(a: seq<Action>, b: seq<Action>)
    ensures NoFinish(a + b) <==> NoFinish(a) && NoFinish(b)
  {
    var c := a + b;
    assert forall i :: 0 <= i < |a| ==> c[i] == a[i];
    assert forall i :: 0 <= i < |b| ==> c[|a| + i] == b[i];
    if NoFinish(c) {
      forall i | 0 <= i < |b| ensures !b[i].Finish? { assert !c[|a| + i].Finish?; }
    }
  }

  lemma {:induction false} CallActionsNoFinish(ds: seq<ToolDelta>)
    ensures NoFinish(CallActions(ds))
    decreases |ds|
  {
    if ds != [] {
      CallActionsNoFinish(ds[..|ds| - 1]);
      NoFinishConcat(CallActions(ds[..|ds| - 1]), ToolActions(ds[|ds| - 1]));
    }
  }

  lemma ChoiceFinishes(c: Choice)
    ensures NoFinish(SpeechActions(c) + CallsActions(c))
    ensures NoFinish(ChoiceActions(c)) <==> c.finish.None?
  {
    if c.calls.Some? {
      CallActionsNoFinish(c.calls.value);
      NoFinishConcat([CloseOpen], CallActions(c.calls.value));
    }
    NoFinishConcat(SpeechActions(c), CallsActions(c));
    NoFinishConcat(SpeechActions(c) + CallsActions(c), FinishActions(c));
    if c.finish.Some? { assert FinishActions(c)[0].Finish?; }
  }

  lemma {:induction false} ChoicesFinish(cs: seq<Choice>)
    ensures NoFinish(ChoicesActions(cs)) <==>
            forall i :: 0 <= i < |cs| ==> cs[i].finish.None?
    decreases |cs|
  {
    if cs != [] {
      var front, last := cs[..|cs| - 1], cs[|cs| - 1];
      ChoicesFinish(front);
      ChoiceFinishes(last);
      NoFinishConcat(ChoicesActions(front), ChoiceActions(last));
      assert forall i :: 0 <= i < |front| ==> front[i] == cs[i];
    }
  }

  lemma ChunkFinishes(c: Chunk)
    ensures NoFinish(ChunkActions(c)) <==> !HasFinish(c)
  {
    ChoicesFinish(c.choices);
    NoFinishConcat([Meter(c.usage)], ChoicesActions(c.choices));
  }

  lemma {:induction false} StreamNoFinish(chunks: seq<Chunk>)
    requires !Finishes(chunks)
    ensures NoFinish(StreamActions(chunks))
    decreases |chunks|
  {
    if chunks != [] {
      var front, last := chunks[..|chunks| - 1], chunks[|chunks| - 1];
      assert forall i :: 0 <= i < |front| ==> front[i] == chunks[i];
      StreamNoFinish(front);
      ChunkFinishes(last);
      NoFinishConcat(StreamActions(front), ChunkActions(last));
    }
  }

  // ---- A run is a list of actions until the finish is released ---------------------------

  lemma {:induction false} RunIsActs(parses: string -> bool, chunks: seq<Chunk>)
    requires forall i :: 0 <= i < |chunks| - 1 ==> !HasFinish(chunks[i])
    ensures Run(parses, chunks) == Acts(parses, Nothing, StreamActions(chunks))
    decreases |chunks|
  {
    if chunks != [] {
      var front, last := chunks[..|chunks| - 1], chunks[|chunks| - 1];
      assert !Finishes(front);
      RunIsActs(parses, front);
      StreamNoFinish(front);
      HeldByFinish(parses, Nothing, StreamActions(front));
      var o := Run(parses, front);
      ActsConcat(parses, Nothing, StreamActions(front), ChunkActions(last));
      ActsConcat(parses, o, [Meter(last.usage)], ChoicesActions(last.choices));
      MeterActs(parses, o, last.usage);
    }
  }

  lemma MeterActs(parses: string -> bool, o: Out, u: Option<Usage>)
    ensures Acts(parses, o, [Meter(u)]) == Out(Metered(o.st, u), o.events)
  {
    ActsSnoc(parses, o, [], Meter(u));
    assert [] + [Meter(u)] == [Meter(u)];
    assert o.events + [] == o.events;
  }

  lemma {:induction false} StepExtends(parses: string -> bool, o: Out, acts: seq<Action>)
    ensures o.events <= Acts(parses, o, acts).events
    decreases |acts|
  {
    if acts != [] { StepExtends(parses, o, acts[..|acts| - 1]); }
  }

  lemma {:induction false} RunExtends(parses: string -> bool, chunks: seq<Chunk>, m: nat)
    requires m <= |chunks|
    ensures Run(parses, chunks[..m]).events <= Run(parses, chunks).events
    decreases |chunks| - m
  {
    if m == |chunks| {
      assert chunks[..m] == chunks;
    } else {
      RunExtends(parses, chunks, m + 1);
      assert chunks[..m + 1][..m] == chunks[..m];
      var o := Run(parses, chunks[..m]);
      var u := Out(Metered(o.st, chunks[m].usage), o.events);
      StepExtends(parses, u, ChoicesActions(chunks[m].choices));
    }
  }

  // ---- Cutting at the first message_stop -------------------------------------------------

  predicate NoStop(es: seq<Event>) {
    forall i :: 0 <= i < |es| ==> !es[i].MessageStop?
  }

  lemma {:induction false} CutAtStop(a: seq<Event>, rest: seq<Event>)
    requires NoStop(a)
    ensures UpToStop(a) == a
    ensures UpToStop(a + [MessageStop] + rest) == a + [MessageStop]
    decreases |a|
  {
    var es := a + [MessageStop] + rest;
    if a != [] {
      CutAtStop(a[1..], rest);
      assert es[1..] == a[1..] + [MessageStop] + rest;
    }
  }

  lemma {:induction false} FlushNoStop(
    blocks: map<nat, nat>, bufs: map<nat, string>, ks: seq<nat>)
    ensures NoStop(Flush(blocks, bufs, ks))
    decreases |ks|
  {
    if ks != [] { FlushNoStop(blocks, bufs, ks[..|ks| - 1]); }
  }

  lemma NoStopConcat(a: seq<Event>, b: seq<Event>)
    requires NoStop(a) && NoStop(b)
    ensures NoStop(a + b)
  {}

  lemma ActNoStop(parses: string -> bool, st: State, a: Action)
    ensures NoStop(Act(parses, st, a).events)
  {
    if a.Finish? { FinishNoStop(st, a.reason); }
  }

  lemma FinishNoStop(st: State, reason: string)
    ensures NoStop(Finished(st, reason).events)
  {
    var c := Closed(st);
    var ks := Sorted(c.st.blocks.Keys);
    FlushNoStop(c.st.blocks, c.st.bufs, ks);
    NoStopConcat(c.events, Flush(c.st.blocks, c.st.bufs, ks));
  }

  lemma {:induction false} ActsNoStop(parses: string -> bool, o: Out, acts: seq<Action>)
    requires NoStop(o.events)
    ensures NoStop(Acts(parses, o, acts).events)
    decreases |acts|
  {
    if acts != [] {
      ActsNoStop(parses, o, acts[..|acts| - 1]);
      ActNoStop(parses, Acts(parses, o, acts[..|acts| - 1]).st, acts[|acts| - 1]);
    }
  }

  // ---- The shape of every stream ---------------------------------------------------------

  function BodyOf(parses: string -> bool, chunks: seq<Chunk>): Out {
    Acts(parses, Nothing, StreamActions(Through(chunks)))
  }

  /** The usage known when the finish is released: the next chunk's, if there is one. */
  function AtRelease(parses: string -> bool, chunks: seq<Chunk>): State {
    var st, n := BodyOf(parses, chunks).st, |Through(chunks)|;
    if n < |chunks| then Metered(st, chunks[n].usage) else st
  }

  lemma UnfinishedStream(parses: string -> bool, chunks: seq<Chunk>)
    requires !Finishes(chunks)
    ensures UpToStop(StreamOf(parses, chunks)) == BodyOf(parses, chunks).events
  {
    ThroughIsPrefix(chunks);
    RunIsActs(parses, chunks);
    StreamNoFinish(chunks);
    HeldByFinish(parses, Nothing, StreamActions(chunks));
    ActsNoStop(parses, Nothing, StreamActions(chunks));
    CutAtStop(StreamOf(parses, chunks), []);
  }

  lemma ThroughHolds(parses: string -> bool, chunks: seq<Chunk>)
    requires Finishes(chunks)
    ensures Run(parses, Through(chunks)) == BodyOf(parses, chunks)
    ensures BodyOf(parses, chunks).st.held.Some?
  {
    ThroughIsPrefix(chunks);
    var t := Through(chunks);
    var front, last := t[..|t| - 1], t[|t| - 1];
    RunIsActs(parses, t);
    ChunkFinishes(last);
    NoFinishConcat(StreamActions(front), ChunkActions(last));
    HeldByFinish(parses, Nothing, StreamActions(t));
  }

  lemma CutPrefix(body: seq<Event>, d: Event, all: seq<Event>)
    requires NoStop(body) && !d.MessageStop?
    requires body + [d, MessageStop] <= all
    ensures UpToStop(all) == body + [d, MessageStop]
  {
    var head, rest := body + [d], all[|body| + 2..];
    assert head + [MessageStop] == body + [d, MessageStop];
    assert all == head + [MessageStop] + rest;
    CutAtStop(head, rest);
  }

  /** The chunk after a finishing one, or the drain, sends the held finish. */
  lemma Releases(parses: string -> bool, o: Out, chunk: Chunk)
    requires o.st.held.Some?
    ensures Step(parses, o, chunk).events ==
            o.events + FinishEvents(Metered(o.st, chunk.usage), o.st.held.value)
    ensures Drained(o).events == o.events + FinishEvents(o.st, o.st.held.value)
  {}

  lemma RunIsSent(parses: string -> bool, chunks: seq<Chunk>, m: nat)
    requires m <= |chunks|
    ensures Run(parses, chunks[..m]).events <= StreamOf(parses, chunks)
  {
    RunExtends(parses, chunks, m);
  }

  lemma ReleaseIsSent(parses: string -> bool, chunks: seq<Chunk>)
    requires Finishes(chunks) && BodyOf(parses, chunks).st.held.Some?
    ensures BodyOf(parses, chunks).events +
            FinishEvents(AtRelease(parses, chunks), BodyOf(parses, chunks).st.held.value)
            <= StreamOf(parses, chunks)
  {
    ThroughIsPrefix(chunks);
    ThroughHolds(parses, chunks);
    var n := |Through(chunks)|;
    var body := BodyOf(parses, chunks);
    if n < |chunks| {
      StepAfterThrough(parses, chunks);
      Releases(parses, body, chunks[n]);
      RunIsSent(parses, chunks, n + 1);
    } else {
      assert Through(chunks) == chunks;
      Releases(parses, body, chunks[n - 1]);
    }
  }

  lemma StepAfterThrough(parses: string -> bool, chunks: seq<Chunk>)
    requires |Through(chunks)| < |chunks| && Through(chunks) <= chunks
    ensures var n := |Through(chunks)|;
            Run(parses, chunks[..n + 1]) == Step(parses, Run(parses, Through(chunks)), chunks[n])
  {
    var n := |Through(chunks)|;
    assert chunks[..n + 1][..n] == Through(chunks);
  }

  /** The body, then message_delta with the latest usage, then message_stop. */
  lemma FinishedStream(parses: string -> bool, chunks: seq<Chunk>)
    requires Finishes(chunks)
    ensures BodyOf(parses, chunks).st.held.Some?
    ensures UpToStop(StreamOf(parses, chunks)) ==
            BodyOf(parses, chunks).events +
            FinishEvents(AtRelease(parses, chunks), BodyOf(parses, chunks).st.held.value)
  {
    ThroughHolds(parses, chunks);
    ReleaseIsSent(parses, chunks);
    ActsNoStop(parses, Nothing, StreamActions(Through(chunks)));
    var body := BodyOf(parses, chunks);
    var fin := FinishEvents(AtRelease(parses, chunks), body.st.held.value);
    CutPrefix(body.events, fin[0], StreamOf(parses, chunks));
  }

  // ---- One choice per chunk ------------------------------------------------------------

  predicate SingleChoice(chunks: seq<Chunk>) {
    forall i :: 0 <= i < |chunks| ==> |chunks[i].choices| <= 1
  }

  lemma ChunkEndsInFinish(c: Chunk)
    requires |c.choices| == 1 && HasFinish(c)
    ensures ChunkActions(c) ==
            [Meter(c.usage)] + (SpeechActions(c.choices[0]) + CallsActions(c.choices[0])) +
            [Finish(c.choices[0].finish.value)]
    ensures NoFinish([Meter(c.usage)] + (SpeechActions(c.choices[0]) + CallsActions(c.choices[0])))
  {
    var x := c.choices[0];
    assert c.choices[..0] == [];
    assert ChoicesActions(c.choices) == [] + ChoiceActions(x);
    ChoiceFinishes(x);
    NoFinishConcat([Meter(c.usage)], SpeechActions(x) + CallsActions(x));
  }

  predicate LastOnlyFinish(acts: seq<Action>) {
    acts != [] && acts[|acts| - 1].Finish? && NoFinish(acts[..|acts| - 1])
  }

  lemma FinishingChunkLast(front: seq<Chunk>, c: Chunk)
    requires !Finishes(front) && |c.choices| == 1 && HasFinish(c)
    ensures LastOnlyFinish(StreamActions(front) + ChunkActions(c))
  {
    StreamNoFinish(front);
    ChunkEndsInFinish(c);
    var x := c.choices[0];
    var body := [Meter(c.usage)] + (SpeechActions(x) + CallsActions(x));
    NoFinishConcat(StreamActions(front), body);
    LastOf(StreamActions(front), body, Finish(x.finish.value));
  }

  /** With one choice per chunk the first finish is the very last action. */
  lemma EndsInFinish(chunks: seq<Chunk>)
    requires SingleChoice(chunks) && Finishes(chunks)
    ensures LastOnlyFinish(StreamActions(Through(chunks)))
  {
    ThroughIsPrefix(chunks);
    var t := Through(chunks);
    var n := |t| - 1;
    assert t[..n] == chunks[..n] && t[n] == chunks[n];
    assert !Finishes(chunks[..n]) by {
      assert forall i :: 0 <= i < n ==> chunks[..n][i] == chunks[i];
    }
    FinishingChunkLast(chunks[..n], chunks[n]);
  }

  lemma LastOf(a: seq<Action>, b: seq<Action>, x: Action)
    ensures var all := a + (b + [x]); all != [] && all[..|all| - 1] == a + b && all[|all| - 1] == x
  {}
}
