/**
 What the events of a converted stream say beyond their shape and payload: the stop reason and usage a client gets, the
 tools it is told about, and the block indices of several tool calls in one chunk.
 */
module ClaudeStreamDetails {
  import opened Wrappers
  import opened ClaudeStream
  import opened ClaudeStreamLaws
  import opened ClaudeStreamServed

  // ---- the stop reason ----

  /** Three finish reasons have a name of their own for the client; every other one goes through as it is. */
  predicate Spells(stopReason: string, finish: string)
  {
    && (stopReason == "end_turn" <==> finish == "stop" || finish == "end_turn")
    && (stopReason == "max_tokens" <==> finish == "length" || finish == "max_tokens")
    && (stopReason == "tool_use" <==> finish == "tool_calls" || finish == "tool_use")
    && (finish != "stop" && finish != "length" && finish != "tool_calls" ==> stopReason == finish)
  }

  lemma StopReasonSpells(finish: string)
    ensures Spells(StopReason(finish), finish)
  {
  }

  /** The finish reason a stream ends with, which is the first one that comes. */
  function FirstFinish(chunks: seq<Chunk>): string
    requires Complete(chunks)
  {
    var e := Effective(chunks);
    e[|e| - 1].choice.value.finish
  }

  ghost predicate NoDelta(events: seq<Event>)
  {
    forall i :: 0 <= i < |events| ==> !events[i].MessageDelta?
  }

  /** There is one message delta, next to last; it tells the finish reason and the usage. */
  ghost predicate TellsFinish(events: seq<Event>, finish: string, usage: Usage)
  {
    && |events| >= 2 && NoDelta(events[..|events| - 2]) && events[|events| - 1] == MessageStop
    && events[|events| - 2].MessageDelta? && Spells(events[|events| - 2].stopReason, finish)
    && events[|events| - 2].usage == usage
  }

  lemma EndTells(front: seq<Event>, finish: string, usage: Usage)
    requires NoDelta(front)
    ensures TellsFinish(front + [MessageDelta(usage, StopReason(finish)), MessageStop], finish, usage)
  {
    var events := front + [MessageDelta(usage, StopReason(finish)), MessageStop];
    StopReasonSpells(finish);
    assert events[..|events| - 2] == front;
  }

  /** A stream tells its first finish reason, with the latest usage by then; without a finish or usage it tells nothing. */
  lemma RunTellsFinish(inputTokens: int, chunks: seq<Chunk>)
    ensures var events, usage := Run(inputTokens, chunks).1, LatestUsage(Effective(chunks));
            if Complete(chunks) && usage.Some? then TellsFinish(events, FirstFinish(chunks), usage.value) else NoDelta(events)
  {
    if chunks != [] {
      var body := MessageShape(inputTokens, chunks);
      var start := [MessageStart(chunks[0].id, chunks[0].model, inputTokens)];
      var usage := LatestUsage(Effective(chunks));
      if Complete(chunks) && usage.Some? {
        EndTells(start + body, FirstFinish(chunks), usage.value);
        assert Trailer(Effective(chunks)) ==
               [MessageDelta(usage.value, StopReason(FirstFinish(chunks))), MessageStop];
      }
    }
  }

  lemma ConvertedTells(s: State, chunk: Chunk)
    requires s.usage.Some? && !s.done
    ensures if Finishes(chunk)
            then TellsFinish(Converted(s, chunk).1, chunk.choice.value.finish, if chunk.usage.Some? then chunk.usage.value else s.usage.value)
            else NoDelta(Converted(s, chunk).1)
  {
    var (content, t) := Content(s, chunk);
    ContentIsContent(s, chunk);
    ContentKeepsEnvelope(s, chunk);
    if Finishes(chunk) {
      var usage := if chunk.usage.Some? then chunk.usage.value else s.usage.value;
      var front := Head(s, chunk) + content + [BlockStop(t.index)];
      EndTells(front, chunk.choice.value.finish, usage);
      assert Converted(s, chunk).1 == front + [MessageDelta(usage, StopReason(chunk.choice.value.finish)), MessageStop];
    }
  }

  lemma TellsAfter(a: seq<Event>, b: seq<Event>, finish: string, usage: Usage)
    requires NoDelta(a) && TellsFinish(b, finish, usage)
    ensures TellsFinish(a + b, finish, usage)
  {
    assert (a + b)[..|a + b| - 2] == a + b[..|b| - 2];
  }

  /** The last chunk of a stream that has not finished before it. */
  lemma LastTells(inputTokens: int, chunks: seq<Chunk>, usage: Usage)
    requires chunks != [] && !Complete(chunks[..|chunks| - 1])
    ensures var events, last := Served(inputTokens, chunks, usage), chunks[|chunks| - 1];
            if Finishes(last)
            then TellsFinish(events, last.choice.value.finish, if last.usage.Some? then last.usage.value else usage)
            else NoDelta(events)
  {
    var front, last := chunks[..|chunks| - 1], chunks[|chunks| - 1];
    var s, events := Run(inputTokens, front).0, Run(inputTokens, front).1;
    var t := s.(usage := Some(usage));
    EnvelopeState(inputTokens, front);
    RunTellsFinish(inputTokens, front);
    ConvertedTells(t, last);
    if Finishes(last) {
      TellsAfter(events, Converted(t, last).1, last.choice.value.finish,
                 if last.usage.Some? then last.usage.value else usage);
    }
  }

  /** Once a stream has finished the last chunk adds nothing. */
  lemma LastIgnored(inputTokens: int, chunks: seq<Chunk>, usage: Usage)
    requires chunks != [] && Complete(chunks[..|chunks| - 1])
    ensures Served(inputTokens, chunks, usage) == Run(inputTokens, chunks[..|chunks| - 1]).1
    ensures Complete(chunks) && Effective(chunks) == Effective(chunks[..|chunks| - 1])
  {
    var front := chunks[..|chunks| - 1];
    EnvelopeState(inputTokens, front);
    EffectiveStep(chunks);
    assert Run(inputTokens, front).1 + [] == Run(inputTokens, front).1;
  }

  /** The usage a served stream reports: once the last chunk matters, its own or else that of the whole stream. */
  function ReportedUsage(chunks: seq<Chunk>, usage: Usage): Option<Usage>
    requires chunks != []
  {
    var last := chunks[|chunks| - 1];
    if Complete(chunks[..|chunks| - 1]) then LatestUsage(Effective(chunks))
    else if last.usage.Some? then last.usage
    else Some(usage)
  }

  /** The driver tells the first finish reason too, however short the stream. */
  lemma ServedTellsFinish(inputTokens: int, chunks: seq<Chunk>, usage: Usage)
    requires chunks != []
    ensures var events, reported := Served(inputTokens, chunks, usage), ReportedUsage(chunks, usage);
            if Complete(chunks) && reported.Some? then TellsFinish(events, FirstFinish(chunks), reported.value)
            else NoDelta(events)
  {
    if Complete(chunks[..|chunks| - 1]) {
      LastIgnored(inputTokens, chunks, usage);
      RunTellsFinish(inputTokens, chunks[..|chunks| - 1]);
    } else {
      LastTells(inputTokens, chunks, usage);
      LastFinishes(chunks);
    }
  }

  lemma LastFinishes(chunks: seq<Chunk>)
    requires chunks != [] && !Complete(chunks[..|chunks| - 1])
    ensures Complete(chunks) <==> Finishes(chunks[|chunks| - 1])
    ensures Complete(chunks) ==> FirstFinish(chunks) == chunks[|chunks| - 1].choice.value.finish
  {
    EffectiveStep(chunks);
  }

  // ---- the tools a client is told about ----

  datatype Tool = Tool(id: string, name: string)

  function Announces(e: Event): seq<Tool>
  {
    if e.BlockStart? && e.kind == Tools then [Tool(e.toolId, e.toolName)] else []
  }

  /** The tools announced by some events, in order. */
  function Announced(events: seq<Event>): seq<Tool>
  {
    if events == [] then [] else Announced(events[..|events| - 1]) + Announces(events[|events| - 1])
  }

  lemma {:induction false} AnnouncedConcat(a: seq<Event>, b: seq<Event>)
    ensures Announced(a + b) == Announced(a) + Announced(b)
  {
    if b == [] {
      assert a + b == a;
    } else {
      assert (a + b)[..|a + b| - 1] == a + b[..|b| - 1];
      AnnouncedConcat(a, b[..|b| - 1]);
    }
  }

  lemma AnnouncedOne(e: Event)
    ensures Announced([e]) == Announces(e)
  {
    assert [e][..0] == [];
  }

  lemma {:induction false} NothingAnnounced(events: seq<Event>)
    requires forall i :: 0 <= i < |events| ==> Announces(events[i]) == []
    ensures Announced(events) == []
  {
    if events != [] {
      NothingAnnounced(events[..|events| - 1]);
    }
  }

  /** The tool calls that name their tool: a call goes on over several chunks, and only its first part has the name. */
  function Named(tools: seq<ToolCall>, i: nat): seq<Tool>
    requires i <= |tools|
    decreases |tools| - i
  {
    if i == |tools| then []
    else (if tools[i].name != "" then [Tool(tools[i].id, tools[i].name)] else []) + Named(tools, i + 1)
  }

  /** The tools of a chunk; a first chunk announces just its first call, named or not. */
  function ToolsOf(chunk: Chunk, first: bool): seq<Tool>
  {
    if chunk.choice.None? then []
    else
      var tools := chunk.choice.value.tools;
      if !first then Named(tools, 0)
      else if tools == [] then [] else [Tool(tools[0].id, tools[0].name)]
  }

  function AllTools(chunks: seq<Chunk>): seq<Tool>
  {
    if chunks == [] then []
    else AllTools(chunks[..|chunks| - 1]) + ToolsOf(chunks[|chunks| - 1], |chunks| == 1)
  }

  lemma ToolEventsAnnounce(t: ToolCall, index: int)
    ensures Announced(ToolEvents(t, index)) == if t.name != "" then [Tool(t.id, t.name)] else []
  {
    var start, delta := BlockStart(index, Tools, t.id, t.name), Delta(index, Tools, t.arguments);
    AnnouncedOne(start);
    AnnouncedOne(delta);
    AnnouncedConcat(if t.name != "" then [start] else [], if t.arguments != "" then [delta] else []);
  }

  lemma {:induction false} ToolRunAnnounces(tools: seq<ToolCall>, i: nat, index: int)
    requires i <= |tools|
    ensures Announced(ToolRun(tools, i, index).0) == Named(tools, i)
    decreases |tools| - i
  {
    if i < |tools| {
      var at := BlockIndex(tools[i], index, i, |tools|);
      ToolEventsAnnounce(tools[i], at);
      ToolRunAnnounces(tools, i + 1, at);
      AnnouncedConcat(ToolEvents(tools[i], at), ToolRun(tools, i + 1, at).0);
    }
  }

  lemma FirstToolAnnounces(index: int, tools: seq<ToolCall>)
    ensures Announced(FirstTool(index, tools)) == if tools == [] then [] else [Tool(tools[0].id, tools[0].name)]
  {
    if tools != [] {
      var start, delta := BlockStart(0, Tools, tools[0].id, tools[0].name), Delta(index, Tools, tools[0].arguments);
      AnnouncedOne(start);
      AnnouncedOne(delta);
      AnnouncedConcat([start], if tools[0].arguments != "" then [delta] else []);
    }
  }

  lemma BlockAnnouncesNothing(open: bool, index: int, kind: Kind, payload: string)
    requires kind != Tools
    ensures Announced(Block(open, index, kind, payload)) == []
  {
    NothingAnnounced(Block(open, index, kind, payload));
  }

  lemma AfterClosedAnnounces(close: bool, index: int, events: seq<Event>)
    ensures Announced(Closed(close, index) + events) == Announced(events)
  {
    NothingAnnounced(Closed(close, index));
    AnnouncedConcat(Closed(close, index), events);
  }

  lemma FirstContentAnnounces(s: State, c: Choice)
    ensures Announced(FirstContent(s, c).0) == if c.tools == [] then [] else [Tool(c.tools[0].id, c.tools[0].name)]
  {
    FirstToolAnnounces(s.index, c.tools);
    BlockAnnouncesNothing(true, s.index, Thinking, c.reasoning);
    BlockAnnouncesNothing(true, s.index, Text, c.content);
    AnnouncedConcat(FirstTool(s.index, c.tools), FirstBlock(s.index, c));
  }

  lemma LaterToolsAnnounce(s: State, c: Choice)
    requires c.tools != []
    ensures Announced(LaterContent(s, c).0) == Named(c.tools, 0)
  {
    var close, start := s.last != Some(Tools), if s.last != Some(Tools) then s.index + 1 else s.index;
    ToolRunAnnounces(c.tools, 0, start);
    AfterClosedAnnounces(close, s.index, ToolRun(c.tools, 0, start).0);
  }

  lemma LaterWordsAnnounceNothing(s: State, c: Choice)
    requires c.tools == [] && c.reasoning == "" && c.content != ""
    ensures Announced(LaterContent(s, c).0) == []
  {
    var close := s.last == Some(Thinking) || s.last == Some(Tools);
    var index := if close then s.index + 1 else s.index;
    LaterWordsContent(s, c);
    BlockAnnouncesNothing(s.last != Some(Text), index, Text, c.content);
    AfterClosedAnnounces(close, s.index, Block(s.last != Some(Text), index, Text, c.content));
  }

  lemma LaterContentAnnounces(s: State, c: Choice)
    ensures Announced(LaterContent(s, c).0) == Named(c.tools, 0)
  {
    if c.tools != [] {
      LaterToolsAnnounce(s, c);
    } else if c.reasoning != "" {
      BlockAnnouncesNothing(s.last != Some(Thinking), s.index, Thinking, c.reasoning);
    } else if c.content != "" {
      LaterWordsAnnounceNothing(s, c);
    }
  }

  lemma ContentAnnounces(s: State, chunk: Chunk)
    ensures Announced(Content(s, chunk).0) == ToolsOf(chunk, s.count == 1)
  {
    if chunk.choice.Some? {
      if s.count == 1 {
        FirstContentAnnounces(s, chunk.choice.value);
      } else {
        LaterContentAnnounces(s, chunk.choice.value);
      }
    }
  }

  /** Events without tools around others. */
  lemma AnnouncedBetween(head: seq<Event>, content: seq<Event>, tail: seq<Event>)
    requires Announced(head) == [] && Announced(tail) == []
    ensures Announced(head + content + tail) == Announced(content)
  {
    AnnouncedConcat(head, content);
    AnnouncedConcat(head + content, tail);
  }

  lemma ConvertedAnnounces(s: State, chunk: Chunk)
    requires !s.done
    ensures Announced(Converted(s, chunk).1) == ToolsOf(chunk, s.count == 1)
  {
    var (content, t) := Content(s, chunk);
    NothingAnnounced(Head(s, chunk));
    NothingAnnounced(Tail(t, chunk));
    ContentAnnounces(s, chunk);
    AnnouncedBetween(Head(s, chunk), content, Tail(t, chunk));
  }

  /** The tools a stream announces are those its chunks name, under their own identifiers, up to the finish. */
  lemma {:induction false} RunAnnounces(inputTokens: int, chunks: seq<Chunk>)
    ensures Announced(Run(inputTokens, chunks).1) == AllTools(Effective(chunks))
    decreases |chunks|
  {
    if chunks != [] {
      var front, chunk := chunks[..|chunks| - 1], chunks[|chunks| - 1];
      var s, events := Run(inputTokens, front).0, Run(inputTokens, front).1;
      RunAnnounces(inputTokens, front);
      EnvelopeState(inputTokens, front);
      EffectiveStep(chunks);
      AnnouncedConcat(events, Fed(s, chunk).1);
      if !s.done {
        ConvertedAnnounces(Counted(s, chunk), chunk);
      }
    }
  }

  // ---- block indices of several tool calls in one chunk ----

  /** The events of tool calls that each go to the block their own index names. */
  function AtOwnIndices(tools: seq<ToolCall>, i: nat): seq<Event>
    requires i <= |tools| && forall k :: 0 <= k < |tools| ==> tools[k].index.Some?
    decreases |tools| - i
  {
    if i == |tools| then [] else ToolEvents(tools[i], tools[i].index.value) + AtOwnIndices(tools, i + 1)
  }

  lemma {:induction false} OwnIndicesAreUsed(tools: seq<ToolCall>, i: nat, index: int)
    requires i <= |tools| && forall k :: 0 <= k < |tools| ==> tools[k].index.Some?
    ensures ToolRun(tools, i, index).0 == AtOwnIndices(tools, i)
    decreases |tools| - i
  {
    if i < |tools| {
      OwnIndicesAreUsed(tools, i + 1, tools[i].index.value);
    }
  }

  /** The `i`-th triangular number. */
  function Triangular(i: nat): nat
  {
    i * (i + 1) / 2
  }

  lemma TriangularStep(i: nat)
    ensures Triangular(i + 1) == Triangular(i) + i + 1
  {
    assert (i + 1) * (i + 2) == i * (i + 1) + 2 * (i + 1);
  }

  function AtTriangularIndices(tools: seq<ToolCall>, i: nat, start: int): seq<Event>
    requires i <= |tools|
    decreases |tools| - i
  {
    if i == |tools| then [] else ToolEvents(tools[i], start + Triangular(i)) + AtTriangularIndices(tools, i + 1, start)
  }

  /**
   Calls without an index are meant to take one block each. As every call moves the index and adds its own position to it,
   the blocks are 0, 1, 3, 6, ... from the start, so that from the third call on indices are skipped.
   */
  lemma {:induction false} MissingIndicesAreTriangular(tools: seq<ToolCall>, i: nat, start: int)
    requires i <= |tools| && |tools| > 1 && forall k :: 0 <= k < |tools| ==> tools[k].index.None?
    ensures ToolRun(tools, i, if i == 0 then start else start + Triangular(i - 1)).0 == AtTriangularIndices(tools, i, start)
    decreases |tools| - i
  {
    if i < |tools| {
      if i > 0 {
        TriangularStep(i - 1);
      }
      MissingIndicesAreTriangular(tools, i + 1, start);
    }
  }
}
