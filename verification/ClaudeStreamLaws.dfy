/**
 What the stream conversion guarantees over whole streams: the shape of the message, which payload survives, and
 exactly when the content blocks are well bracketed.
 */
module ClaudeStreamLaws {
  import opened Wrappers
  import opened ClaudeStream

  /** The state and all events after a stream of chunks, each handed over by `HandleStreamChunk`. */
  function Run(inputTokens: int, chunks: seq<Chunk>): (State, seq<Event>)
  {
    if chunks == [] then (Initial(inputTokens), [])
    else
      var (s, events) := Run(inputTokens, chunks[..|chunks| - 1]);
      var (t, more) := Fed(s, chunks[|chunks| - 1]);
      (t, events + more)
  }

  // ---- the message envelope ----

  predicate IsContent(e: Event)
  {
    e.BlockStart? || e.Delta? || e.BlockStop?
  }

  ghost predicate AllContent(events: seq<Event>)
  {
    forall i :: 0 <= i < |events| ==> IsContent(events[i])
  }

  /** The usage in force after some chunks: the latest one reported. */
  function LatestUsage(chunks: seq<Chunk>): Option<Usage>
  {
    if chunks == [] then None
    else if chunks[|chunks| - 1].usage.Some? then chunks[|chunks| - 1].usage
    else LatestUsage(chunks[..|chunks| - 1])
  }

  /** The chunks up to and including the first one with a finish reason. */
  function Effective(chunks: seq<Chunk>): (e: seq<Chunk>)
    ensures e <= chunks
    ensures forall i :: 0 <= i < |e| - 1 ==> !Finishes(e[i])
    ensures |e| < |chunks| ==> e != [] && Finishes(e[|e| - 1])
  {
    if chunks == [] then []
    else
      var e := Effective(chunks[..|chunks| - 1]);
      if e != [] && Finishes(e[|e| - 1]) then e else chunks
  }

  predicate Complete(chunks: seq<Chunk>)
  {
    var e := Effective(chunks);
    e != [] && Finishes(e[|e| - 1])
  }

  lemma {:induction false} ToolRunIsContent(tools: seq<ToolCall>, i: nat, index: int)
    requires i <= |tools|
    ensures AllContent(ToolRun(tools, i, index).0)
    decreases |tools| - i
  {
    if i < |tools| {
      ToolRunIsContent(tools, i + 1, BlockIndex(tools[i], index, i, |tools|));
    }
  }

  lemma ContentIsContent(s: State, chunk: Chunk)
    ensures AllContent(Content(s, chunk).0)
  {
    if chunk.choice.Some? && s.count != 1 && chunk.choice.value.tools != [] {
      ToolRunIsContent(chunk.choice.value.tools, 0, if s.last != Some(Tools) then s.index + 1 else s.index);
    }
  }

  /** What the fields that govern the envelope are after a stream. */
  lemma {:induction false} EnvelopeState(inputTokens: int, chunks: seq<Chunk>)
    ensures var s := Run(inputTokens, chunks).0;
            && s.count == |chunks| && s.inputTokens == inputTokens
            && s.usage == LatestUsage(chunks)
            && (s.done <==> Complete(chunks))
  {
    if chunks != [] {
      EnvelopeState(inputTokens, chunks[..|chunks| - 1]);
    }
  }

  /** Nothing after the first finish reason has any effect on the events. */
  lemma {:induction false} NothingAfterFinish(inputTokens: int, chunks: seq<Chunk>)
    ensures Run(inputTokens, chunks).1 == Run(inputTokens, Effective(chunks)).1
  {
    if chunks != [] {
      var front := chunks[..|chunks| - 1];
      NothingAfterFinish(inputTokens, front);
      EnvelopeState(inputTokens, front);
    }
  }

  /** The events a complete message ends with. */
  function Trailer(e: seq<Chunk>): seq<Event>
    requires e != [] && e[|e| - 1].choice.Some?
  {
    (if LatestUsage(e).Some? then [MessageDelta(LatestUsage(e).value, StopReason(e[|e| - 1].choice.value.finish))] else [])
    + [MessageStop]
  }

  /** A message: its start, a body, and the trailer once a finish reason has been seen. */
  function Message(inputTokens: int, chunks: seq<Chunk>, body: seq<Event>): seq<Event>
    requires chunks != []
  {
    [MessageStart(chunks[0].id, chunks[0].model, inputTokens)] + body
    + (if Complete(chunks) then Trailer(Effective(chunks)) else [])
  }

  lemma EffectiveStep(chunks: seq<Chunk>)
    requires chunks != []
    ensures var front := chunks[..|chunks| - 1];
            if Complete(front) then Effective(chunks) == Effective(front)
            else Effective(front) == front && Effective(chunks) == chunks
                 && (Complete(chunks) <==> Finishes(chunks[|chunks| - 1]))
  {
  }

  /** The content a further chunk adds to the body of a message that is not complete. */
  function Extension(s: State, chunk: Chunk): seq<Event>
  {
    var (content, t) := Content(Counted(s, chunk), chunk);
    content + (if Finishes(chunk) then [BlockStop(t.index)] else [])
  }

  lemma ContentKeepsEnvelope(s: State, chunk: Chunk)
    ensures var t := Content(s, chunk).1;
            t.usage == s.usage && t.count == s.count && t.done == s.done && t.inputTokens == s.inputTokens
  {
  }

  /** The events of one more chunk are its extension of the body, with the message start before or the trailer after. */
  lemma FedEvents(inputTokens: int, chunks: seq<Chunk>)
    requires chunks != [] && !Complete(chunks[..|chunks| - 1])
    ensures var s, chunk := Run(inputTokens, chunks[..|chunks| - 1]).0, chunks[|chunks| - 1];
            Fed(s, chunk).1 ==
            (if |chunks| == 1 then [MessageStart(chunk.id, chunk.model, inputTokens)] else [])
            + Extension(s, chunk) + (if Finishes(chunk) then Trailer(chunks) else [])
  {
    var front, chunk := chunks[..|chunks| - 1], chunks[|chunks| - 1];
    EnvelopeState(inputTokens, front);
    var s := Run(inputTokens, front).0;
    var ready := Counted(s, chunk);
    var (content, t) := Content(ready, chunk);
    ContentKeepsEnvelope(ready, chunk);
    if Finishes(chunk) {
      assert Tail(t, chunk) == [BlockStop(t.index)] + Trailer(chunks);
      assert Head(ready, chunk) + content + ([BlockStop(t.index)] + Trailer(chunks))
          == Head(ready, chunk) + (content + [BlockStop(t.index)]) + Trailer(chunks);
    } else {
      assert Head(ready, chunk) + content + [] == Head(ready, chunk) + (content + []) + [];
    }
  }

  lemma ExtensionIsContent(s: State, chunk: Chunk)
    ensures AllContent(Extension(s, chunk))
  {
    ContentIsContent(Counted(s, chunk), chunk);
  }

  /** One more chunk after an incomplete message with a known body. */
  lemma ShapeStep(inputTokens: int, chunks: seq<Chunk>, before: seq<Event>)
    requires chunks != [] && !Complete(chunks[..|chunks| - 1])
    requires var front := chunks[..|chunks| - 1];
             if front == [] then before == [] else Run(inputTokens, front).1 == Message(inputTokens, front, before)
    ensures var s := Run(inputTokens, chunks[..|chunks| - 1]).0;
            Run(inputTokens, chunks).1 == Message(inputTokens, chunks, before + Extension(s, chunks[|chunks| - 1]))
  {
    var front, chunk := chunks[..|chunks| - 1], chunks[|chunks| - 1];
    var s := Run(inputTokens, front).0;
    EffectiveStep(chunks);
    FedEvents(inputTokens, chunks);
    Regroup([MessageStart(chunks[0].id, chunks[0].model, inputTokens)], before, Extension(s, chunk),
            if Finishes(chunk) then Trailer(chunks) else []);
  }

  /**
   Every stream becomes one message: a single start first, then content events only, and, once a finish reason has
   been seen, at most one message delta directly before the single stop.
   */
  lemma {:induction false} MessageShape(inputTokens: int, chunks: seq<Chunk>) returns (body: seq<Event>)
    requires chunks != []
    ensures AllContent(body)
    ensures Run(inputTokens, chunks).1 == Message(inputTokens, chunks, body)
    decreases |chunks|
  {
    var front, chunk := chunks[..|chunks| - 1], chunks[|chunks| - 1];
    var s := Run(inputTokens, front).0;
    body := [];
    if front != [] {
      body := MessageShape(inputTokens, front);
    }
    if Complete(front) {
      EffectiveStep(chunks);
      EnvelopeState(inputTokens, front);
    } else {
      ShapeStep(inputTokens, chunks, body);
      ExtensionIsContent(s, chunk);
      AllContentConcat(body, Extension(s, chunk));
      body := body + Extension(s, chunk);
    }
  }

  lemma AllContentConcat(a: seq<Event>, b: seq<Event>)
    requires AllContent(a) && AllContent(b)
    ensures AllContent(a + b)
  {
  }

  lemma Regroup<T>(start: seq<T>, body: seq<T>, more: seq<T>, end: seq<T>)
    ensures (start + body + []) + ([] + more + end) == start + (body + more) + end
    ensures body == [] ==> [] + (start + more + end) == start + (body + more) + end
  {
  }

  // ---- payload ----

  function Carried(e: Event, kind: Kind): string
  {
    if e.Delta? && e.kind == kind then e.payload else ""
  }

  /** The text carried by the deltas of one kind. */
  function Payload(events: seq<Event>, kind: Kind): string
  {
    if events == [] then ""
    else Payload(events[..|events| - 1], kind) + Carried(events[|events| - 1], kind)
  }

  lemma {:induction false} PayloadConcat(a: seq<Event>, b: seq<Event>, kind: Kind)
    ensures Payload(a + b, kind) == Payload(a, kind) + Payload(b, kind)
  {
    if b == [] {
      assert a + b == a;
    } else {
      var front := b[..|b| - 1];
      assert (a + b)[..|a + b| - 1] == a + front;
      PayloadConcat(a, front, kind);
      Associate(Payload(a, kind), Payload(front, kind), Carried(b[|b| - 1], kind));
    }
  }

  function Arguments(tools: seq<ToolCall>, i: nat): string
    requires i <= |tools|
    decreases |tools| - i
  {
    if i == |tools| then "" else tools[i].arguments + Arguments(tools, i + 1)
  }

  /** Everything of one kind that a chunk brings. */
  function Brought(chunk: Chunk, kind: Kind): string
  {
    if chunk.choice.None? then ""
    else
      match kind
      case Thinking => chunk.choice.value.reasoning
      case Text => chunk.choice.value.content
      case Tools => Arguments(chunk.choice.value.tools, 0)
  }

  /** The part of it that is passed on; what competes within a chunk depends on whether it is the first. */
  function PassedOn(chunk: Chunk, first: bool, kind: Kind): string
  {
    if chunk.choice.None? then "" else Surviving(chunk.choice.value, first, kind)
  }

  function Surviving(c: Choice, first: bool, kind: Kind): string
  {
    match kind
    case Thinking => if !first && c.tools != [] then "" else c.reasoning
    case Text => if c.reasoning != "" || (!first && c.tools != []) then "" else c.content
    case Tools => if first then (if c.tools == [] then "" else c.tools[0].arguments) else Arguments(c.tools, 0)
  }

  function AllBrought(chunks: seq<Chunk>, kind: Kind): string
  {
    if chunks == [] then ""
    else AllBrought(chunks[..|chunks| - 1], kind) + Brought(chunks[|chunks| - 1], kind)
  }

  function AllPassedOn(chunks: seq<Chunk>, kind: Kind): string
  {
    if chunks == [] then ""
    else AllPassedOn(chunks[..|chunks| - 1], kind) + PassedOn(chunks[|chunks| - 1], |chunks| == 1, kind)
  }

  lemma SinglePayload(e: Event, kind: Kind)
    ensures Payload([e], kind) == Carried(e, kind)
  {
    assert [e][..0] == [];
  }

  lemma ToolEventsPayload(t: ToolCall, index: int, kind: Kind)
    ensures Payload(ToolEvents(t, index), kind) == if kind == Tools then t.arguments else ""
  {
    var start, delta := BlockStart(index, Tools, t.id, t.name), Delta(index, Tools, t.arguments);
    SinglePayload(start, kind);
    SinglePayload(delta, kind);
    PayloadConcat(if t.name != "" then [start] else [], if t.arguments != "" then [delta] else [], kind);
  }

  lemma {:induction false} ToolRunPayload(tools: seq<ToolCall>, i: nat, index: int, kind: Kind)
    requires i <= |tools|
    ensures Payload(ToolRun(tools, i, index).0, kind) == if kind == Tools then Arguments(tools, i) else ""
    decreases |tools| - i
  {
    if i < |tools| {
      var at := BlockIndex(tools[i], index, i, |tools|);
      ToolEventsPayload(tools[i], at, kind);
      ToolRunPayload(tools, i + 1, at, kind);
      PayloadConcat(ToolEvents(tools[i], at), ToolRun(tools, i + 1, at).0, kind);
    }
  }

  lemma BlockPayload(open: bool, index: int, k: Kind, payload: string, kind: Kind)
    ensures Payload(Block(open, index, k, payload), kind) == if k == kind then payload else ""
  {
    SinglePayload(BlockStart(index, k, "", ""), kind);
    SinglePayload(Delta(index, k, payload), kind);
    PayloadConcat(if open then [BlockStart(index, k, "", "")] else [], [Delta(index, k, payload)], kind);
  }

  lemma FirstToolPayload(index: int, tools: seq<ToolCall>, kind: Kind)
    ensures Payload(FirstTool(index, tools), kind) == if kind == Tools && tools != [] then tools[0].arguments else ""
  {
    if tools != [] {
      var start, delta := BlockStart(0, Tools, tools[0].id, tools[0].name), Delta(index, Tools, tools[0].arguments);
      SinglePayload(start, kind);
      SinglePayload(delta, kind);
      PayloadConcat([start], if tools[0].arguments != "" then [delta] else [], kind);
    }
  }

  lemma FirstBlockPayload(index: int, c: Choice, kind: Kind)
    ensures Payload(FirstBlock(index, c), kind) == if kind == Tools then "" else Surviving(c, true, kind)
  {
    if c.reasoning != "" {
      BlockPayload(true, index, Thinking, c.reasoning, kind);
    } else if c.content != "" {
      BlockPayload(true, index, Text, c.content, kind);
    }
  }

  lemma FirstContentPayload(s: State, c: Choice, kind: Kind)
    ensures Payload(FirstContent(s, c).0, kind) == Surviving(c, true, kind)
  {
    FirstToolPayload(s.index, c.tools, kind);
    FirstBlockPayload(s.index, c, kind);
    PayloadConcat(FirstTool(s.index, c.tools), FirstBlock(s.index, c), kind);
  }

  /** Stopping the current block in front of some events adds no payload. */
  lemma AfterClosedPayload(close: bool, index: int, events: seq<Event>, kind: Kind)
    ensures Payload(Closed(close, index) + events, kind) == Payload(events, kind)
  {
    SinglePayload(BlockStop(index), kind);
    PayloadConcat(Closed(close, index), events, kind);
  }

  lemma LaterToolsPayload(s: State, c: Choice, kind: Kind)
    requires c.tools != []
    ensures Payload(LaterContent(s, c).0, kind) == if kind == Tools then Arguments(c.tools, 0) else ""
  {
    var start := if s.last != Some(Tools) then s.index + 1 else s.index;
    ToolRunPayload(c.tools, 0, start, kind);
    AfterClosedPayload(s.last != Some(Tools), s.index, ToolRun(c.tools, 0, start).0, kind);
  }

  lemma LaterWordsContent(s: State, c: Choice)
    requires c.tools == [] && c.reasoning == "" && c.content != ""
    ensures var close := s.last == Some(Thinking) || s.last == Some(Tools);
            var index := if close then s.index + 1 else s.index;
            LaterContent(s, c) ==
            (Closed(close, s.index) + Block(s.last != Some(Text), index, Text, c.content), Some(Text), index)
  {
  }

  lemma LaterWordsPayload(s: State, c: Choice, kind: Kind)
    requires c.tools == [] && c.reasoning == "" && c.content != ""
    ensures Payload(LaterContent(s, c).0, kind) == if kind == Text then c.content else ""
  {
    var close := s.last == Some(Thinking) || s.last == Some(Tools);
    var index := if close then s.index + 1 else s.index;
    LaterWordsContent(s, c);
    BlockPayload(s.last != Some(Text), index, Text, c.content, kind);
    AfterClosedPayload(close, s.index, Block(s.last != Some(Text), index, Text, c.content), kind);
  }

  lemma LaterReasoningPayload(s: State, c: Choice, kind: Kind)
    requires c.tools == [] && c.reasoning != ""
    ensures Payload(LaterContent(s, c).0, kind) == if kind == Thinking then c.reasoning else ""
  {
    BlockPayload(s.last != Some(Thinking), s.index, Thinking, c.reasoning, kind);
  }

  lemma LaterContentPayload(s: State, c: Choice, kind: Kind)
    ensures Payload(LaterContent(s, c).0, kind) == Surviving(c, false, kind)
  {
    if c.tools != [] {
      LaterToolsPayload(s, c, kind);
    } else if c.reasoning != "" {
      LaterReasoningPayload(s, c, kind);
    } else if c.content != "" {
      LaterWordsPayload(s, c, kind);
    }
  }

  lemma ClosingPayload(index: int, usage: Option<Usage>, reason: string, kind: Kind)
    ensures Payload(Closing(index, usage, reason), kind) == ""
  {
    var delta := if usage.Some? then [MessageDelta(usage.value, StopReason(reason))] else [];
    SinglePayload(BlockStop(index), kind);
    SinglePayload(MessageStop, kind);
    if usage.Some? {
      SinglePayload(MessageDelta(usage.value, StopReason(reason)), kind);
    }
    PayloadConcat([BlockStop(index)], delta, kind);
    PayloadConcat([BlockStop(index)] + delta, [MessageStop], kind);
  }

  lemma ContentPayload(s: State, chunk: Chunk, kind: Kind)
    ensures Payload(Content(s, chunk).0, kind) == PassedOn(chunk, s.count == 1, kind)
  {
    if chunk.choice.Some? {
      if s.count == 1 {
        FirstContentPayload(s, chunk.choice.value, kind);
      } else {
        LaterContentPayload(s, chunk.choice.value, kind);
      }
    }
  }

  lemma TailPayload(t: State, chunk: Chunk, kind: Kind)
    ensures Payload(Tail(t, chunk), kind) == ""
  {
    if Finishes(chunk) {
      ClosingPayload(t.index, if chunk.usage.Some? then chunk.usage else t.usage, chunk.choice.value.finish, kind);
    }
  }

  lemma HeadPayload(s: State, chunk: Chunk, kind: Kind)
    ensures Payload(Head(s, chunk), kind) == ""
  {
    SinglePayload(MessageStart(chunk.id, chunk.model, s.inputTokens), kind);
  }

  lemma ConvertedPayload(s: State, chunk: Chunk, kind: Kind)
    requires !s.done
    ensures Payload(Converted(s, chunk).1, kind) == PassedOn(chunk, s.count == 1, kind)
  {
    var head, content, tail := Head(s, chunk), Content(s, chunk).0, Tail(Content(s, chunk).1, chunk);
    HeadPayload(s, chunk, kind);
    ContentPayload(s, chunk, kind);
    TailPayload(Content(s, chunk).1, chunk, kind);
    PayloadConcat(head, content, kind);
    PayloadConcat(head + content, tail, kind);
    assert Converted(s, chunk).1 == head + content + tail;
  }

  /** The payload of a converted stream, kind by kind, for every stream. */
  lemma {:induction false} RunPayload(inputTokens: int, chunks: seq<Chunk>, kind: Kind)
    ensures Payload(Run(inputTokens, chunks).1, kind) == AllPassedOn(Effective(chunks), kind)
    decreases |chunks|
  {
    if chunks != [] {
      var front, chunk := chunks[..|chunks| - 1], chunks[|chunks| - 1];
      var s, events := Run(inputTokens, front).0, Run(inputTokens, front).1;
      RunPayload(inputTokens, front, kind);
      EnvelopeState(inputTokens, front);
      EffectiveStep(chunks);
      PayloadConcat(events, Fed(s, chunk).1, kind);
      if !s.done {
        ConvertedPayload(Counted(s, chunk), chunk, kind);
      }
    }
  }

  lemma PassedOnLength(chunk: Chunk, first: bool, kind: Kind)
    ensures |PassedOn(chunk, first, kind)| <= |Brought(chunk, kind)|
    ensures |PassedOn(chunk, first, kind)| == |Brought(chunk, kind)| ==> PassedOn(chunk, first, kind) == Brought(chunk, kind)
  {
    if chunk.choice.Some? && chunk.choice.value.tools != [] {
      var tools := chunk.choice.value.tools;
      assert Arguments(tools, 0) == tools[0].arguments + Arguments(tools, 1);
    }
  }

  lemma {:induction false} AllPassedOnLength(chunks: seq<Chunk>, kind: Kind)
    ensures |AllPassedOn(chunks, kind)| <= |AllBrought(chunks, kind)|
    ensures |AllPassedOn(chunks, kind)| == |AllBrought(chunks, kind)| <==>
            forall i :: 0 <= i < |chunks| ==> PassedOn(chunks[i], i == 0, kind) == Brought(chunks[i], kind)
  {
    if chunks != [] {
      var front := chunks[..|chunks| - 1];
      AllPassedOnLength(front, kind);
      PassedOnLength(chunks[|chunks| - 1], |chunks| == 1, kind);
      assert forall i :: 0 <= i < |front| ==> front[i] == chunks[i];
    }
  }

  lemma {:induction false} AllPassedOnEqual(chunks: seq<Chunk>, kind: Kind)
    requires forall i :: 0 <= i < |chunks| ==> PassedOn(chunks[i], i == 0, kind) == Brought(chunks[i], kind)
    ensures AllPassedOn(chunks, kind) == AllBrought(chunks, kind)
  {
    if chunks != [] {
      var front := chunks[..|chunks| - 1];
      assert forall i :: 0 <= i < |front| ==> front[i] == chunks[i];
      AllPassedOnEqual(front, kind);
    }
  }

  /** A stream keeps all payload of a kind exactly when none of its chunks brings some that has to give way. */
  lemma PayloadKeptExactlyWhenNothingCompetes(inputTokens: int, chunks: seq<Chunk>, kind: Kind)
    ensures var e := Effective(chunks);
            Payload(Run(inputTokens, chunks).1, kind) == AllBrought(e, kind)
            <==> forall i :: 0 <= i < |e| ==> PassedOn(e[i], i == 0, kind) == Brought(e[i], kind)
  {
    RunPayload(inputTokens, chunks, kind);
    AllPassedOnLength(Effective(chunks), kind);
    if forall i :: 0 <= i < |Effective(chunks)| ==>
                     PassedOn(Effective(chunks)[i], i == 0, kind) == Brought(Effective(chunks)[i], kind) {
      AllPassedOnEqual(Effective(chunks), kind);
    }
  }

  /** A chunk that brings only one kind of payload, and in the first chunk at most one tool call. */
  predicate SingleKind(chunk: Chunk, first: bool)
  {
    chunk.choice.Some? ==>
      var c := chunk.choice.value;
      && (c.tools != [] ==> c.reasoning == "" && c.content == "")
      && (c.reasoning != "" ==> c.content == "")
      && (first ==> |c.tools| <= 1)
  }

  /** Streams of such chunks lose nothing. */
  lemma SingleKindStreamsKeepEverything(inputTokens: int, chunks: seq<Chunk>, kind: Kind)
    requires forall i :: 0 <= i < |chunks| ==> SingleKind(chunks[i], i == 0)
    ensures Payload(Run(inputTokens, chunks).1, kind) == AllBrought(Effective(chunks), kind)
  {
    var e := Effective(chunks);
    forall i | 0 <= i < |e| ensures PassedOn(e[i], i == 0, kind) == Brought(e[i], kind) {
      assert e[i] == chunks[i];
      if i == 0 && e[0].choice.Some? && e[0].choice.value.tools != [] {
        assert Arguments(e[0].choice.value.tools, 0) == e[0].choice.value.tools[0].arguments + "";
      }
    }
    PayloadKeptExactlyWhenNothingCompetes(inputTokens, chunks, kind);
  }
}
