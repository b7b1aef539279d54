/** The stateful stream transcoder, proved against the action-by-action specification. */
module Transcoder {
  import opened Wrappers
  import opened StreamEvents
  import opened TranscoderSteps

  class AnthropicStreamTranscoder {
    const parses: string -> bool
    var messageStarted: bool
    var contentBlockIndex: nat
    var textBlockOpen: bool
    var thinkingBlockOpen: bool
    var toolBlockMap: map<nat, nat>
    var toolArgBuf: map<nat, string>
    var inputTokens: nat
    var outputTokens: nat
    var pendingStopReason: Option<string>

    ghost function View(): State
      reads this
    {
      State(messageStarted, contentBlockIndex, textBlockOpen, thinkingBlockOpen,
            toolBlockMap, toolArgBuf, inputTokens, outputTokens, pendingStopReason)
    }

    constructor (parses: string -> bool)
      ensures View() == Initial && this.parses == parses
    {
      this.parses := parses;
      messageStarted := false;
      contentBlockIndex := 0;
      textBlockOpen := false;
      thinkingBlockOpen := false;
      toolBlockMap := map[];
      toolArgBuf := map[];
      inputTokens := 0;
      outputTokens := 0;
      pendingStopReason := None;
    }

    /** The state together with the events sent so far. */
    ghost function Now(events: seq<Event>): Out
      reads this
    {
      Out(View(), events)
    }

    method CloseOpenBlock(events: seq<Event>) returns (r: seq<Event>)
      modifies this
      ensures Now(r) == Do(parses, old(Now(events)), CloseOpen)
    {
      r := events;
      if thinkingBlockOpen {
        thinkingBlockOpen := false;
        var idx := contentBlockIndex;
        contentBlockIndex := contentBlockIndex + 1;
        r := r + [BlockStop(idx)];
      } else if textBlockOpen {
        textBlockOpen := false;
        var idx := contentBlockIndex;
        contentBlockIndex := contentBlockIndex + 1;
        r := r + [BlockStop(idx)];
      }
    }

    method EmitFinishEvents(events: seq<Event>, stopReason: string) returns (r: seq<Event>)
      ensures r == events + FinishEvents(View(), stopReason)
    {
      var shown := if outputTokens < 1 then 1 else outputTokens;
      r := events + [MessageDelta(stopReason, inputTokens, shown)];
      r := r + [MessageStop];
    }

    /** The first chunk's message_start. */
    method StartMessage(events: seq<Event>) returns (r: seq<Event>)
      modifies this
      ensures Now(r) == Do(parses, old(Now(events)), Begin)
    {
      r := events;
      if !messageStarted {
        messageStarted := true;
        r := r + [MessageStart(inputTokens, outputTokens)];
      }
    }

    /** A reasoning delta goes to the open thinking block, or to a new one. */
    method ShowReasoning(reasoning: string, events: seq<Event>) returns (r: seq<Event>)
      modifies this
      ensures Now(r) == Do(parses, old(Now(events)), Reason(reasoning))
    {
      r := events;
      if textBlockOpen {
        textBlockOpen := false;
        var idx := contentBlockIndex;
        contentBlockIndex := contentBlockIndex + 1;
        r := r + [BlockStop(idx)];
      }
      if !thinkingBlockOpen {
        thinkingBlockOpen := true;
        r := r + [BlockStart(contentBlockIndex, ThinkingBlock)];
      }
      r := r + [BlockDelta(contentBlockIndex, ThinkingKind, reasoning)];
    }

    /** A text delta goes to the open text block, or to a new one. */
    method ShowText(text: string, events: seq<Event>) returns (r: seq<Event>)
      modifies this
      ensures Now(r) == Do(parses, old(Now(events)), Say(text))
    {
      r := events;
      if thinkingBlockOpen {
        thinkingBlockOpen := false;
        var idx := contentBlockIndex;
        contentBlockIndex := contentBlockIndex + 1;
        r := r + [BlockStop(idx)];
      }
      if !textBlockOpen {
        textBlockOpen := true;
        r := r + [BlockStart(contentBlockIndex, TextBlock)];
      }
      outputTokens := outputTokens + 1;
      r := r + [BlockDelta(contentBlockIndex, TextKind, text)];
    }

    /** A delta with an id opens a tool block. */
    method OpenTool(index: nat, id: string, name: string, events: seq<Event>)
      returns (r: seq<Event>)
      modifies this
      ensures Now(r) == Do(parses, old(Now(events)), Call(index, id, name))
    {
      var contentIdx := contentBlockIndex;
      toolBlockMap := toolBlockMap[index := contentIdx];
      contentBlockIndex := contentBlockIndex + 1;
      r := events + [BlockStart(contentIdx, ToolUse(id, name))];
    }

    /** An argument fragment goes into the buffer, or replaces it (the vLLM quirk). */
    method BufferArguments(index: nat, args: string, ghost events: seq<Event>)
      requires args != ""
      modifies this
      ensures Now(events) == Do(parses, old(Now(events)), Fragment(index, args))
    {
      var isVllmComplete := args[0] == '{' && args[|args| - 1] == '}' && parses(args);
      var hasExisting := index in toolArgBuf && toolArgBuf[index] != "";
      if isVllmComplete && hasExisting {
        toolArgBuf := toolArgBuf[index := args];
      } else {
        var buf := if index in toolArgBuf then toolArgBuf[index] else "";
        toolArgBuf := toolArgBuf[index := buf + args];
      }
    }

    /** The finish of one choice: close, flush the tool blocks in index order, hold back. */
    method FinishChoice(reason: string, events: seq<Event>) returns (r: seq<Event>)
      modifies this
      ensures Now(r) == Do(parses, old(Now(events)), Finish(reason))
    {
      FinishUnfolds(parses, Now(events), reason);
      r := CloseOpenBlock(events);
      r := FlushTools(r);
      toolBlockMap := map[];
      pendingStopReason := Some(StopReason(reason));
    }

    method FlushTools(events: seq<Event>) returns (r: seq<Event>)
      modifies this`toolArgBuf
      ensures toolArgBuf == old(toolArgBuf) - toolBlockMap.Keys
      ensures r == events + Flush(toolBlockMap, old(toolArgBuf), Sorted(toolBlockMap.Keys))
    {
      r := events;
      var indices := Sorted(toolBlockMap.Keys);
      SortedOrders(toolBlockMap.Keys);
      ghost var all := toolArgBuf;
      for i := 0 to |indices|
        invariant toolArgBuf == all - Elements(indices[..i])
        invariant r == events + Flush(toolBlockMap, all, indices[..i])
      {
        FlushPrefix(toolBlockMap, all, indices, i);
        FlushSnoc(toolBlockMap, all, events, indices[..i], indices[i]);
        r := FlushTool(indices[i], r);
      }
      assert indices[..|indices|] == indices;
      assert Elements(indices) == toolBlockMap.Keys;
    }

    method FlushTool(k: nat, events: seq<Event>) returns (r: seq<Event>)
      modifies this`toolArgBuf
      ensures toolArgBuf == if k in toolBlockMap then old(toolArgBuf) - {k} else old(toolArgBuf)
      ensures r == events + FlushOne(toolBlockMap, old(toolArgBuf), k)
    {
      r := events;
      if k in toolBlockMap {
        var block := toolBlockMap[k];
        if k in toolArgBuf {
          var buf := toolArgBuf[k];
          toolArgBuf := toolArgBuf - {k};
          if buf != "" {
            r := r + [BlockDelta(block, ToolKind, buf)];
          }
        }
        r := r + [BlockStop(block)];
      }
    }

    method TakeToolDelta(tc: ToolDelta, events: seq<Event>) returns (r: seq<Event>)
      modifies this
      ensures Now(r) == Acts(parses, old(Now(events)), ToolActions(tc))
    {
      r := events;
      ToolActs(parses, Now(events), tc);
      if tc.id.Some? {
        var name := if tc.func.Some? && tc.func.value.name.Some?
                    then tc.func.value.name.value else "";
        r := OpenTool(tc.index, tc.id.value, name, r);
      }
      if tc.func.Some? && tc.func.value.arguments.Some? {
        var args := tc.func.value.arguments.value;
        if args != "" {
          BufferArguments(tc.index, args, r);
        }
      }
    }

    method TakeToolCalls(calls: seq<ToolDelta>, events: seq<Event>) returns (r: seq<Event>)
      modifies this
      ensures Now(r) == Acts(parses, old(Now(events)), [CloseOpen] + CallActions(calls))
    {
      ghost var start := Now(events);
      r := CloseOpenBlock(events);
      ghost var mid := Now(r);
      for i := 0 to |calls|
        invariant Now(r) == Acts(parses, mid, CallActions(calls[..i]))
      {
        r := TakeToolDelta(calls[i], r);
        assert calls[..i + 1][..i] == calls[..i];
        ActsConcat(parses, mid, CallActions(calls[..i]), ToolActions(calls[i]));
      }
      assert calls[..|calls|] == calls;
      ActsSnoc(parses, start, [], CloseOpen);
      assert [] + [CloseOpen] == [CloseOpen];
      ActsConcat(parses, start, [CloseOpen], CallActions(calls));
    }

    /** The message_start, the reasoning and the text of one choice. */
    method Speak(choice: Choice, events: seq<Event>) returns (r: seq<Event>)
      modifies this
      ensures Now(r) == Acts(parses, old(Now(events)), SpeechActions(choice))
    {
      ghost var start, done: seq<Action> := Now(events), [];
      r := StartMessage(events);
      ActsSnoc(parses, start, done, Begin);
      done := done + [Begin];
      if choice.reasoning.Some? && choice.reasoning.value != "" {
        r := ShowReasoning(choice.reasoning.value, r);
        ActsSnoc(parses, start, done, Reason(choice.reasoning.value));
        done := done + [Reason(choice.reasoning.value)];
      }
      assert Now(r) == Acts(parses, start, done);
      if choice.content.Some? && choice.content.value != "" {
        r := ShowText(choice.content.value, r);
        ActsSnoc(parses, start, done, Say(choice.content.value));
        done := done + [Say(choice.content.value)];
      }
      assert done == SpeechActions(choice);
    }

    method TranscodeChoice(choice: Choice, events: seq<Event>) returns (r: seq<Event>)
      modifies this
      ensures Now(r) == Acts(parses, old(Now(events)), ChoiceActions(choice))
    {
      ghost var start, done := Now(events), SpeechActions(choice);
      r := Speak(choice, events);
      if choice.calls.Some? {
        r := TakeToolCalls(choice.calls.value, r);
      }
      ActsConcat(parses, start, done, CallsActions(choice));
      done := done + CallsActions(choice);
      assert Now(r) == Acts(parses, start, done);
      if choice.finish.Some? {
        r := FinishChoice(choice.finish.value, r);
        ActsSnoc(parses, start, done, Finish(choice.finish.value));
      }
      assert ChoiceActions(choice) == done + FinishActions(choice);
      assert done + [] == done;
    }

    /** Upstream usage, when present, overrides the estimates. */
    method TakeUsage(usage: Option<Usage>)
      modifies this
      ensures View() == Metered(old(View()), usage)
    {
      if usage.Some? {
        if usage.value.prompt.Some? {
          inputTokens := usage.value.prompt.value % U32;
        }
        if usage.value.completion.Some? {
          outputTokens := usage.value.completion.value % U32;
        }
      }
    }

    method TranscodeChoices(choices: seq<Choice>) returns (events: seq<Event>)
      modifies this
      ensures Now(events) == Acts(parses, old(Now([])), ChoicesActions(choices))
    {
      events := [];
      ghost var start := Now([]);
      for i := 0 to |choices|
        invariant Now(events) == Acts(parses, start, ChoicesActions(choices[..i]))
      {
        events := TranscodeChoice(choices[i], events);
        assert choices[..i + 1][..i] == choices[..i];
        ActsConcat(parses, start, ChoicesActions(choices[..i]), ChoiceActions(choices[i]));
      }
      assert choices[..|choices|] == choices;
    }

    method Transcode(chunk: Chunk) returns (events: seq<Event>)
      modifies this
      ensures Now(events) == Step(parses, old(Now([])), chunk)
    {
      TakeUsage(chunk.usage);
      if pendingStopReason.Some? {
        events := Drain();
      } else {
        events := TranscodeChoices(chunk.choices);
      }
    }

    method Drain() returns (events: seq<Event>)
      modifies this
      ensures Now(events) == Drained(old(Now([])))
    {
      events := [];
      if pendingStopReason.Some? {
        var reason := pendingStopReason.value;
        pendingStopReason := None;
        events := EmitFinishEvents(events, reason);
      }
    }
  }

  /** A whole stream through one transcoder, as the streaming route drives it. */
  method TranscodeStream(parses: string -> bool, chunks: seq<Chunk>)
    returns (events: seq<Event>)
    ensures events == StreamOf(parses, chunks)
  {
    var t := new AnthropicStreamTranscoder(parses);
    events := [];
    for i := 0 to |chunks|
      invariant t.parses == parses
      invariant t.Now(events) == Run(parses, chunks[..i])
    {
      assert chunks[..i + 1][..i] == chunks[..i];
      StepAppends(parses, t.View(), events, chunks[i]);
      var more := t.Transcode(chunks[i]);
      events := events + more;
    }
    assert chunks[..|chunks|] == chunks;
    var last := t.Drain();
    events := events + last;
  }
}
