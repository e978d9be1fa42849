/**
 Converting a stream of OpenAI completion chunks into Claude events. The converter is fed one chunk at a time and
 remembers the kind and index of the content block it is in, the latest usage, and whether it has finished.
 Only the first choice of a chunk matters; absent strings are empty.
 */
module ClaudeStream {
  import opened Wrappers

  datatype Kind = Text | Thinking | Tools

  datatype Usage = Usage(promptTokens: int, completionTokens: int, cachedCreation: int, cached: int)

  datatype ToolCall = ToolCall(index: Option<int>, id: string, name: string, arguments: string)

  datatype Choice = Choice(reasoning: string, content: string, tools: seq<ToolCall>, finish: string)

  datatype Chunk = Chunk(id: string, model: string, choice: Option<Choice>, usage: Option<Usage>)

  datatype Event =
    | MessageStart(id: string, model: string, inputTokens: int)
    | BlockStart(index: int, kind: Kind, toolId: string, toolName: string)
    | Delta(index: int, kind: Kind, payload: string)
    | BlockStop(index: int)
    | MessageDelta(usage: Usage, stopReason: string)
    | MessageStop

  function StopReason(reason: string): string
  {
    match reason
    case "stop" => "end_turn"
    case "stop_sequence" => "stop_sequence"
    case "length" => "max_tokens"
    case "max_tokens" => "max_tokens"
    case "tool_calls" => "tool_use"
    case _ => reason
  }

  // ---- one chunk ----

  /** The conversion state of a request; `count` is the number of chunks it has been handed. */
  datatype State = State(
    done: bool, index: int, last: Option<Kind>, usage: Option<Usage>, finishReason: string, count: nat, inputTokens: int)

  function Initial(inputTokens: int): State
  {
    State(false, 0, None, None, "", 0, inputTokens)
  }

  /** One delta, in a block opened for it if need be. */
  function Block(open: bool, index: int, kind: Kind, payload: string): seq<Event>
  {
    (if open then [BlockStart(index, kind, "", "")] else []) + [Delta(index, kind, payload)]
  }

  function Closed(close: bool, index: int): seq<Event>
  {
    if close then [BlockStop(index)] else []
  }

  /** The events that end a message once a finish reason has been seen. */
  function Closing(index: int, usage: Option<Usage>, reason: string): seq<Event>
  {
    [BlockStop(index)]
    + (if usage.Some? then [MessageDelta(usage.value, StopReason(reason))] else [])
    + [MessageStop]
  }

  function FirstTool(index: int, tools: seq<ToolCall>): seq<Event>
  {
    if tools == [] then []
    else
      [BlockStart(0, Tools, tools[0].id, tools[0].name)]
      + (if tools[0].arguments != "" then [Delta(index, Tools, tools[0].arguments)] else [])
  }

  function FirstBlock(index: int, c: Choice): seq<Event>
  {
    if c.reasoning != "" then Block(true, index, Thinking, c.reasoning)
    else if c.content != "" then Block(true, index, Text, c.content)
    else []
  }

  /** The content of the first chunk: a tool call and text or reasoning are opened independently of each other. */
  function FirstContent(s: State, c: Choice): (seq<Event>, Option<Kind>)
  {
    (FirstTool(s.index, c.tools) + FirstBlock(s.index, c),
     if c.reasoning != "" then Some(Thinking)
     else if c.content != "" then Some(Text)
     else if c.tools == [] then s.last
     else Some(Tools))
  }

  function BlockIndex(t: ToolCall, index: int, i: nat, n: nat): int
  {
    if t.index.Some? then t.index.value else if n > 1 then index + i else index
  }

  function ToolEvents(t: ToolCall, index: int): seq<Event>
  {
    (if t.name != "" then [BlockStart(index, Tools, t.id, t.name)] else [])
    + (if t.arguments != "" then [Delta(index, Tools, t.arguments)] else [])
  }

  /** The tool calls from the `i`-th on, and the block index they leave behind. */
  function ToolRun(tools: seq<ToolCall>, i: nat, index: int): (seq<Event>, int)
    requires i <= |tools|
    decreases |tools| - i
  {
    if i == |tools| then ([], index)
    else
      var at := BlockIndex(tools[i], index, i, |tools|);
      var (later, end) := ToolRun(tools, i + 1, at);
      (ToolEvents(tools[i], at) + later, end)
  }

  /** The content of a later chunk: tool calls win over reasoning, and reasoning over text. */
  function LaterContent(s: State, c: Choice): (seq<Event>, Option<Kind>, int)
  {
    if c.tools != [] then
      var start := if s.last != Some(Tools) then s.index + 1 else s.index;
      var (events, end) := ToolRun(c.tools, 0, start);
      (Closed(s.last != Some(Tools), s.index) + events, Some(Tools), end)
    else if c.reasoning != "" then
      (Block(s.last != Some(Thinking), s.index, Thinking, c.reasoning), Some(Thinking), s.index)
    else if c.content != "" then
      var close := s.last == Some(Thinking) || s.last == Some(Tools);
      var index := if close then s.index + 1 else s.index;
      (Closed(close, s.index) + Block(s.last != Some(Text), index, Text, c.content), Some(Text), index)
    else ([], s.last, s.index)
  }

  predicate Finishes(chunk: Chunk)
  {
    chunk.choice.Some? && chunk.choice.value.finish != ""
  }

  /** The content events of a chunk, without the message envelope, and the block state after them. */
  function Content(s: State, chunk: Chunk): (seq<Event>, State)
  {
    if chunk.choice.None? then ([], s)
    else if s.count == 1 then
      var (events, last) := FirstContent(s, chunk.choice.value);
      (events, s.(last := last))
    else
      var (events, last, index) := LaterContent(s, chunk.choice.value);
      (events, s.(last := last, index := index))
  }

  function Head(s: State, chunk: Chunk): seq<Event>
  {
    if s.count == 1 then [MessageStart(chunk.id, chunk.model, s.inputTokens)] else []
  }

  function Tail(t: State, chunk: Chunk): seq<Event>
  {
    if Finishes(chunk) then
      Closing(t.index, if chunk.usage.Some? then chunk.usage else t.usage, chunk.choice.value.finish)
    else []
  }

  function Converted(s: State, chunk: Chunk): (State, seq<Event>)
  {
    if s.done then (s, [])
    else
      var (content, t) := Content(s, chunk);
      (if Finishes(chunk) then t.(finishReason := chunk.choice.value.finish, done := true) else t,
       Head(s, chunk) + content + Tail(t, chunk))
  }

  /** Handing over the next chunk of a stream: count it, note its usage, convert it. */
  function Fed(s: State, chunk: Chunk): (State, seq<Event>)
  {
    Converted(Counted(s, chunk), chunk)
  }

  function Counted(s: State, chunk: Chunk): State
  {
    s.(count := s.count + 1, usage := if chunk.usage.Some? then chunk.usage else s.usage)
  }

  lemma Associate<T>(a: seq<T>, b: seq<T>, c: seq<T>)
    ensures a + (b + c) == (a + b) + c
  {
  }

  class Converter {
    const inputTokens: int
    var done: bool
    var index: int
    var last: Option<Kind>
    var usage: Option<Usage>
    var finishReason: string
    var count: nat

    constructor (inputTokens: int)
      ensures Value() == Initial(inputTokens)
    {
      this.inputTokens := inputTokens;
      done, index, last, usage, finishReason, count := false, 0, None, None, "", 0;
    }

    function Value(): State
      reads this
    {
      State(done, index, last, usage, finishReason, count, inputTokens)
    }

    method FinishMessage(chunk: Chunk, responses: seq<Event>) returns (r: seq<Event>)
      requires Finishes(chunk)
      modifies this`done, this`finishReason
      ensures done && finishReason == chunk.choice.value.finish
      ensures r == responses + Closing(index, if chunk.usage.Some? then chunk.usage else usage, finishReason)
    {
      finishReason := chunk.choice.value.finish;
      r := responses + [BlockStop(index)];
      var oaiUsage := chunk.usage;
      if oaiUsage.None? {
        oaiUsage := usage;
      }
      if oaiUsage.Some? {
        r := r + [MessageDelta(oaiUsage.value, StopReason(finishReason))];
      }
      r := r + [MessageStop];
      done := true;
    }

    method ConvertFirst(chunk: Chunk) returns (responses: seq<Event>)
      requires !done && count == 1
      modifies this
      ensures Value() == Converted(old(Value()), chunk).0 && responses == Converted(old(Value()), chunk).1
    {
      responses := [MessageStart(chunk.id, chunk.model, inputTokens)];
      if chunk.choice.Some? {
        var choice := chunk.choice.value;
        if |choice.tools| > 0 {
          last := Some(Tools);
          var toolCall := choice.tools[0];
          responses := responses + [BlockStart(0, Tools, toolCall.id, toolCall.name)];
          if toolCall.arguments != "" {
            responses := responses + [Delta(index, Tools, toolCall.arguments)];
          }
        }
        if choice.reasoning != "" {
          responses := responses + [BlockStart(index, Thinking, "", "")];
          responses := responses + [Delta(index, Thinking, choice.reasoning)];
          last := Some(Thinking);
        } else if choice.content != "" {
          responses := responses + [BlockStart(index, Text, "", "")];
          responses := responses + [Delta(index, Text, choice.content)];
          last := Some(Text);
        }
        assert responses == Head(old(Value()), chunk) + Content(old(Value()), chunk).0;
        if choice.finish != "" {
          responses := FinishMessage(chunk, responses);
        }
      }
    }

    static method EmitTool(toolCall: ToolCall, blockIndex: int) returns (responses: seq<Event>)
      ensures responses == ToolEvents(toolCall, blockIndex)
    {
      responses := [];
      if toolCall.name != "" {
        responses := responses + [BlockStart(blockIndex, Tools, toolCall.id, toolCall.name)];
      }
      if |toolCall.arguments| > 0 {
        responses := responses + [Delta(blockIndex, Tools, toolCall.arguments)];
      }
    }

    method ConvertTools(tools: seq<ToolCall>) returns (responses: seq<Event>)
      modifies this`index
      ensures responses == ToolRun(tools, 0, old(index)).0 && index == ToolRun(tools, 0, old(index)).1
    {
      responses := [];
      var i := 0;
      while i < |tools|
        invariant 0 <= i <= |tools|
        invariant ToolRun(tools, 0, old(index)).0 == responses + ToolRun(tools, i, index).0
        invariant ToolRun(tools, 0, old(index)).1 == ToolRun(tools, i, index).1
      {
        var toolCall := tools[i];
        var blockIndex := index;
        if toolCall.index.Some? {
          blockIndex := toolCall.index.value;
        } else if |tools| > 1 {
          blockIndex := index + i;
        }
        var emitted := EmitTool(toolCall, blockIndex);
        Associate(responses, emitted, ToolRun(tools, i + 1, blockIndex).0);
        responses := responses + emitted;
        index := blockIndex;
        i := i + 1;
      }
    }

    method ConvertContent(choice: Choice) returns (responses: seq<Event>)
      modifies this`index, this`last
      ensures responses == LaterContent(old(Value()), choice).0
      ensures last == LaterContent(old(Value()), choice).1 && index == LaterContent(old(Value()), choice).2
    {
      responses := [];
      if |choice.tools| > 0 {
        if last != Some(Tools) {
          responses := responses + [BlockStop(index)];
          index := index + 1;
        }
        last := Some(Tools);
        var calls := ConvertTools(choice.tools);
        responses := responses + calls;
      } else if choice.reasoning != "" {
        if last != Some(Thinking) {
          responses := responses + [BlockStart(index, Thinking, "", "")];
        }
        last := Some(Thinking);
        responses := responses + [Delta(index, Thinking, choice.reasoning)];
      } else if choice.content != "" {
        if last != Some(Text) {
          if last == Some(Thinking) || last == Some(Tools) {
            responses := responses + [BlockStop(index)];
            index := index + 1;
          }
          responses := responses + [BlockStart(index, Text, "", "")];
        }
        last := Some(Text);
        responses := responses + [Delta(index, Text, choice.content)];
      }
    }

    method ConvertLater(chunk: Chunk) returns (responses: seq<Event>)
      requires !done && count != 1
      modifies this
      ensures Value() == Converted(old(Value()), chunk).0 && responses == Converted(old(Value()), chunk).1
    {
      if chunk.choice.None? {
        return [];
      }
      responses := ConvertContent(chunk.choice.value);
      if chunk.choice.value.finish != "" {
        responses := FinishMessage(chunk, responses);
      }
    }

    /** The converter proper; a finished converter emits nothing. */
    method Convert(chunk: Chunk) returns (responses: seq<Event>)
      modifies this
      ensures Value() == Converted(old(Value()), chunk).0 && responses == Converted(old(Value()), chunk).1
    {
      if done {
        return [];
      }
      if count == 1 {
        responses := ConvertFirst(chunk);
      } else {
        responses := ConvertLater(chunk);
      }
    }

    method HandleStreamChunk(chunk: Chunk) returns (responses: seq<Event>)
      modifies this
      ensures Value() == Fed(old(Value()), chunk).0 && responses == Fed(old(Value()), chunk).1
    {
      count := count + 1;
      if chunk.usage.Some? {
        usage := chunk.usage;
      }
      responses := Convert(chunk);
    }

    /** The last chunk of a stream is converted without being counted, with the usage computed for the whole stream. */
    method HandleFinalResponse(chunk: Chunk, streamUsage: Usage) returns (responses: seq<Event>)
      modifies this
      ensures responses == Converted(old(Value()).(usage := Some(streamUsage)), chunk).1
      ensures done
    {
      usage := Some(streamUsage);
      responses := Convert(chunk);
      done := true;
    }
  }
}
