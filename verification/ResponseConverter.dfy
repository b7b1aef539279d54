/**
  * The non-streaming converter: one OpenAI chat completion to one Anthropic message.
  * JSON values are a type parameter `J`, read by `read` (nothing on malformed text).
  */
module ResponseConverter {
  import opened Wrappers
  import opened TranscoderSteps

  datatype ToolCall = ToolCall(id: string, name: string, arguments: string)
  datatype ContentPart = TextPart(text: string) | ReasoningPart(reasoning: string) | OtherPart
  datatype Content = NullContent | TextContent(text: string) | PartsContent(parts: seq<ContentPart>)
  datatype Message = Message(
    reasoning: Option<string>, content: Content, calls: Option<seq<ToolCall>>)
  datatype ReplyChoice = ReplyChoice(message: Message, finish: Option<string>)
  datatype Response = Response(choices: seq<ReplyChoice>, prompt: nat, completion: nat)

  datatype ContentBlock<J> =
    | Thinking(thinking: string)
    | Text(text: string)
    | ToolUseBlock(id: string, name: string, input: J)

  datatype Reply<J> = Reply(
    content: seq<ContentBlock<J>>, stop: Option<string>, input: nat, output: nat)

  function PartBlocks<J>(parts: seq<ContentPart>): seq<ContentBlock<J>> {
    if parts == [] then []
    else
      var p := parts[|parts| - 1];
      PartBlocks(parts[..|parts| - 1]) +
      match p
      case TextPart(t) => if t != "" then [Text(t)] else []
      case ReasoningPart(r) => [Thinking(r)]
      case OtherPart => []
  }

  function CallBlock<J>(read: string -> Option<J>, nil: J, c: ToolCall): ContentBlock<J> {
    ToolUseBlock(c.id, c.name, read(c.arguments).GetOr(nil))
  }

  function CallBlocks<J>(read: string -> Option<J>, nil: J, calls: seq<ToolCall>)
    : seq<ContentBlock<J>>
  {
    if calls == [] then []
    else CallBlocks(read, nil, calls[..|calls| - 1]) + [CallBlock(read, nil, calls[|calls| - 1])]
  }

  function ContentBlocks<J>(content: Content): seq<ContentBlock<J>> {
    match content
    case TextContent(t) => if t != "" then [Text(t)] else []
    case PartsContent(parts) => PartBlocks(parts)
    case NullContent => []
  }

  /** Reasoning, then content, then tool calls. */
  function Blocks<J>(read: string -> Option<J>, nil: J, m: Message): seq<ContentBlock<J>> {
    (if NonEmpty(m.reasoning) then [Thinking(m.reasoning.value)] else []) +
    ContentBlocks(m.content) +
    CallBlocks(read, nil, m.calls.GetOr([]))
  }

  function Stop(finish: Option<string>): Option<string> {
    if finish.Some? then Some(StopReason(finish.value)) else None
  }

  /** A client gets at least one block. */
  method OpenaiResponseToAnthropic<J>(read: string -> Option<J>, nil: J, resp: Response)
    returns (r: Reply<J>)
    ensures resp.choices == [] ==> r.content == [Text("")] && r.stop == None
    ensures resp.choices != [] ==>
              var blocks := Blocks(read, nil, resp.choices[0].message);
              r.content == if blocks == [] then [Text("")] else blocks
    ensures resp.choices != [] && resp.choices[0].finish == None ==> r.stop == None
    ensures resp.choices != [] && resp.choices[0].finish == Some("stop") ==> r.stop == Some("end_turn")
    ensures resp.choices != [] && resp.choices[0].finish == Some("tool_calls") ==> r.stop == Some("tool_use")
    ensures resp.choices != [] && resp.choices[0].finish == Some("length") ==> r.stop == Some("max_tokens")
    ensures resp.choices != [] && resp.choices[0].finish.Some?
              && resp.choices[0].finish.value !in ["stop", "tool_calls", "length"] ==>
              r.stop == resp.choices[0].finish
    ensures r.input == resp.prompt && r.output == resp.completion
    ensures r.content != []
  {
    var blocks: seq<ContentBlock<J>> := [];
    var stop: Option<string> := None;
    if resp.choices != [] {
      var m := resp.choices[0].message;
      if m.reasoning.Some? && m.reasoning.value != "" {
        blocks := blocks + [Thinking(m.reasoning.value)];
      }
      blocks := PushContent(blocks, m.content);
      if m.calls.Some? {
        blocks := PushCalls(read, nil, blocks, m.calls.value);
      }
      stop := Stop(resp.choices[0].finish);
      assert blocks == Blocks(read, nil, m);
    }
    if blocks == [] {
      blocks := blocks + [Text("")];
    }
    r := Reply(blocks, stop, resp.prompt, resp.completion);
  }

  // ---- What the blocks are, one by one ------------------------------------------------------

  /** A part that makes a block: every reasoning part, and text that is not empty. */
  predicate Shows(p: ContentPart) { p.ReasoningPart? || (p.TextPart? && p.text != "") }

  function Showing(parts: seq<ContentPart>): nat {
    if parts == [] then 0 else Showing(parts[..|parts| - 1]) + if Shows(parts[|parts| - 1]) then 1 else 0
  }

  /** Every part that shows is one block, in order: text as text, reasoning as thinking. */
  lemma {:induction false} PartAt<J>(parts: seq<ContentPart>, i: nat)
    requires i < |parts| && Shows(parts[i])
    ensures var bs := PartBlocks<J>(parts);
            && |bs| == Showing(parts) && Showing(parts[..i]) < |bs|
            && bs[Showing(parts[..i])] ==
               if parts[i].TextPart? then Text(parts[i].text) else Thinking(parts[i].reasoning)
    decreases |parts|
  {
    var front := parts[..|parts| - 1];
    PartsLength<J>(front);
    if i < |front| {
      PartAt<J>(front, i);
      assert front[..i] == parts[..i];
    }
  }

  lemma {:induction false} PartsLength<J>(parts: seq<ContentPart>)
    ensures |PartBlocks<J>(parts)| == Showing(parts)
    decreases |parts|
  {
    if parts != [] { PartsLength<J>(parts[..|parts| - 1]); }
  }

  /** Every call is one block, in order, its arguments read as JSON and null if they are none. */
  lemma {:induction false} CallAt<J>(read: string -> Option<J>, nil: J, calls: seq<ToolCall>, i: nat)
    requires i < |calls|
    ensures var bs := CallBlocks(read, nil, calls);
            && |bs| == |calls|
            && bs[i] == ToolUseBlock(calls[i].id, calls[i].name,
                                     if read(calls[i].arguments).Some? then read(calls[i].arguments).value else nil)
    decreases |calls|
  {
    CallsLength(read, nil, calls[..|calls| - 1]);
    if i < |calls| - 1 { CallAt(read, nil, calls[..|calls| - 1], i); }
  }

  lemma {:induction false} CallsLength<J>(read: string -> Option<J>, nil: J, calls: seq<ToolCall>)
    ensures |CallBlocks(read, nil, calls)| == |calls|
    decreases |calls|
  {
    if calls != [] { CallsLength(read, nil, calls[..|calls| - 1]); }
  }

  /** The blocks of a message: its reasoning, if it has any, then its content, then its calls at the end. */
  lemma BlocksAre<J>(read: string -> Option<J>, nil: J, m: Message)
    ensures var bs, calls := Blocks(read, nil, m), if m.calls.Some? then m.calls.value else [];
            var lead := if m.reasoning.Some? && m.reasoning.value != "" then [Thinking(m.reasoning.value)] else [];
            && lead <= bs && |lead| + |calls| <= |bs| && bs[|bs| - |calls|..] == CallBlocks(read, nil, calls)
            && var middle := bs[|lead|..|bs| - |calls|];
               && (m.content.NullContent? ==> middle == [])
               && (m.content.TextContent? ==> middle == if m.content.text == "" then [] else [Text(m.content.text)])
               && (m.content.PartsContent? ==> middle == PartBlocks(m.content.parts))
  {
    CallsLength(read, nil, m.calls.GetOr([]));
    var lead: seq<ContentBlock<J>> := if NonEmpty(m.reasoning) then [Thinking(m.reasoning.value)] else [];
    var middle: seq<ContentBlock<J>> := ContentBlocks(m.content);
    var calls := CallBlocks(read, nil, m.calls.GetOr([]));
    assert Blocks(read, nil, m) == lead + middle + calls;
    assert (lead + middle + calls)[|lead|..|lead| + |middle|] == middle;
    assert (lead + middle + calls)[|lead| + |middle|..] == calls;
  }

  method PushContent<J>(blocks: seq<ContentBlock<J>>, content: Content)
    returns (r: seq<ContentBlock<J>>)
    ensures r == blocks + ContentBlocks(content)
  {
    r := blocks;
    match content
    case TextContent(t) =>
      if t != "" { r := r + [Text(t)]; }
    case PartsContent(parts) =>
      for i := 0 to |parts|
        invariant r == blocks + PartBlocks(parts[..i])
      {
        match parts[i] {
          case TextPart(t) => if t != "" { r := r + [Text(t)]; }
          case ReasoningPart(s) => r := r + [Thinking(s)];
          case OtherPart =>
        }
        assert parts[..i + 1][..i] == parts[..i];
      }
      assert parts[..|parts|] == parts;
    case NullContent =>
  }

  method PushCalls<J>(read: string -> Option<J>, nil: J, blocks: seq<ContentBlock<J>>,
                      calls: seq<ToolCall>) returns (r: seq<ContentBlock<J>>)
    ensures r == blocks + CallBlocks(read, nil, calls)
  {
    r := blocks;
    for i := 0 to |calls|
      invariant r == blocks + CallBlocks(read, nil, calls[..i])
    {
      var value := read(calls[i].arguments);
      var input := if value.Some? then value.value else nil;
      r := r + [ToolUseBlock(calls[i].id, calls[i].name, input)];
      assert calls[..i + 1][..i] == calls[..i];
    }
    assert calls[..|calls|] == calls;
  }
}
