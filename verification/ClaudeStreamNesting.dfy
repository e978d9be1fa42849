/**
 When the content blocks of a converted stream are well bracketed: every delta inside an open block of its own index
 and kind, every block stopped once before the next one starts, indices counting up from zero.
 */
module ClaudeStreamNesting {
  import opened Wrappers
  import opened ClaudeStream
  import opened ClaudeStreamLaws

  // ---- well-bracketed event sequences ----

  /** Between blocks with the next index, inside a block, or past a violation. */
  datatype Nest = Outside(next: int) | Inside(index: int, kind: Kind) | Broken

  function Feed(n: Nest, e: Event): Nest
  {
    match e
    case BlockStart(i, k, _, _) => if n == Outside(i) then Inside(i, k) else Broken
    case Delta(i, k, _) => if n == Inside(i, k) then n else Broken
    case BlockStop(i) => if n.Inside? && n.index == i then Outside(i + 1) else Broken
    case _ => if n.Outside? then n else Broken
  }

  function FeedAll(n: Nest, events: seq<Event>): Nest
  {
    if events == [] then n else Feed(FeedAll(n, events[..|events| - 1]), events[|events| - 1])
  }

  lemma {:induction false} FeedConcat(n: Nest, a: seq<Event>, b: seq<Event>)
    ensures FeedAll(n, a + b) == FeedAll(FeedAll(n, a), b)
  {
    if b == [] {
      assert a + b == a;
    } else {
      assert (a + b)[..|a + b| - 1] == a + b[..|b| - 1];
      FeedConcat(n, a, b[..|b| - 1]);
    }
  }

  lemma FeedOne(n: Nest, e: Event)
    ensures FeedAll(n, [e]) == Feed(n, e)
  {
    assert [e][..0] == [];
  }

  lemma {:induction false} BrokenStays(events: seq<Event>)
    ensures FeedAll(Broken, events) == Broken
  {
    if events != [] {
      BrokenStays(events[..|events| - 1]);
    }
  }

  /** All blocks of a finished message were opened, filled and stopped in turn. */
  predicate WellBracketed(events: seq<Event>)
  {
    FeedAll(Outside(0), events).Outside?
  }

  // ---- what a chunk does to the blocks ----

  /** What a chunk contributes, for chunks that have at most one tool call. */
  datatype Item = Nothing | Reasoning | Words | ToolStart(at: Option<int>) | ToolMore(at: Option<int>)

  /**
   Chunks within the scope of the exact condition: at most one tool call, which says something, and which in the
   first chunk stands alone.
   */
  predicate Plain(chunk: Chunk, first: bool)
  {
    chunk.choice.Some? && chunk.choice.value.tools != [] ==>
      var c := chunk.choice.value;
      && |c.tools| == 1
      && (c.tools[0].name != "" || c.tools[0].arguments != "" || first)
      && (first ==> c.reasoning == "" && c.content == "")
  }

  function ItemOf(chunk: Chunk, first: bool): Item
    requires Plain(chunk, first)
  {
    if chunk.choice.None? then Nothing
    else
      var c := chunk.choice.value;
      if c.tools != [] then
        (if first then ToolStart(None)
         else ToolItem(c.tools[0]))
      else if c.reasoning != "" then Reasoning
      else if c.content != "" then Words
      else Nothing
  }

  /** The block a stream is in: none yet, or one of some kind and index. */
  datatype Position = Unopened | In(kind: Kind, index: int)

  predicate FitsIndex(at: Option<int>, index: int)
  {
    at.None? || at.value == index
  }

  /** Whether an item can follow at a position without breaking the bracketing. */
  predicate Legal(p: Position, item: Item, first: bool)
  {
    match item
    case Nothing => true
    case Words => true
    case Reasoning => p.Unopened? || p.kind == Thinking
    case ToolStart(at) => first || (p.In? && p.kind != Tools && FitsIndex(at, p.index + 1))
    case ToolMore(at) => p.In? && p.kind == Tools && FitsIndex(at, p.index)
  }

  function Moved(p: Position, item: Item, first: bool): Position
  {
    match item
    case Nothing => p
    case Words => if p.Unopened? then In(Text, 0) else if p.kind == Text then p else In(Text, p.index + 1)
    case Reasoning => if p.Unopened? then In(Thinking, 0) else p
    case ToolStart(_) => if first || p.Unopened? then In(Tools, 0) else In(Tools, p.index + 1)
    case ToolMore(_) => p
  }

  predicate Matches(s: State, p: Position)
  {
    match p
    case Unopened => s.last == None && s.index == 0
    case In(k, i) => s.last == Some(k) && s.index == i
  }

  function NestOf(p: Position): Nest
  {
    match p
    case Unopened => Outside(0)
    case In(k, i) => Inside(i, k)
  }

  lemma FeedTwo(n: Nest, a: Event, b: Event)
    ensures FeedAll(n, [a, b]) == Feed(Feed(n, a), b)
  {
    assert [a, b] == [a] + [b];
    FeedConcat(n, [a], [b]);
    FeedOne(n, a);
    FeedOne(Feed(n, a), b);
  }

  lemma FeedBlock(n: Nest, open: bool, index: int, k: Kind, payload: string)
    ensures FeedAll(n, Block(open, index, k, payload)) ==
            if open then (if n == Outside(index) then Inside(index, k) else Broken)
            else if n == Inside(index, k) then n else Broken
  {
    var delta := Delta(index, k, payload);
    FeedOne(n, delta);
    if open {
      assert Block(open, index, k, payload) == [BlockStart(index, k, "", ""), delta];
      FeedTwo(n, BlockStart(index, k, "", ""), delta);
    } else {
      assert Block(open, index, k, payload) == [delta];
    }
  }

  lemma FeedClosed(n: Nest, close: bool, index: int)
    ensures FeedAll(n, Closed(close, index)) ==
            if !close then n else if n.Inside? && n.index == index then Outside(index + 1) else Broken
  {
    FeedOne(n, BlockStop(index));
  }

  lemma FeedToolEvents(n: Nest, t: ToolCall, index: int)
    requires t.name != "" || t.arguments != ""
    ensures FeedAll(n, ToolEvents(t, index)) ==
            if t.name != "" then (if n == Outside(index) then Inside(index, Tools) else Broken)
            else if n == Inside(index, Tools) then n else Broken
  {
    var start, delta := BlockStart(index, Tools, t.id, t.name), Delta(index, Tools, t.arguments);
    FeedOne(n, start);
    FeedOne(n, delta);
    FeedTwo(n, start, delta);
    if t.name != "" && t.arguments != "" {
      assert ToolEvents(t, index) == [start, delta];
    } else if t.name != "" {
      assert ToolEvents(t, index) == [start];
    } else {
      assert ToolEvents(t, index) == [delta];
    }
  }

  // ---- one chunk ----

  lemma FirstChunkNests(s: State, chunk: Chunk)
    requires Plain(chunk, true) && s.count == 1 && Matches(s, Unopened)
    ensures var (content, t) := Content(s, chunk);
            var item := ItemOf(chunk, true);
            Matches(t, Moved(Unopened, item, true)) && FeedAll(Outside(0), content) == NestOf(Moved(Unopened, item, true))
  {
    if chunk.choice.Some? {
      var c := chunk.choice.value;
      var content := FirstTool(0, c.tools) + FirstBlock(0, c);
      if c.tools != [] {
        var start, delta := BlockStart(0, Tools, c.tools[0].id, c.tools[0].name), Delta(0, Tools, c.tools[0].arguments);
        FeedOne(Outside(0), start);
        FeedTwo(Outside(0), start, delta);
        if c.tools[0].arguments != "" {
          assert content == [start, delta];
        } else {
          assert content == [start];
        }
      } else {
        FeedBlock(Outside(0), true, 0, Thinking, c.reasoning);
        FeedBlock(Outside(0), true, 0, Text, c.content);
        assert content == FirstBlock(0, c);
      }
    }
  }

  /** What a single tool call after the first chunk becomes. */
  lemma LaterToolContent(s: State, c: Choice)
    requires |c.tools| == 1
    ensures var close := s.last != Some(Tools);
            var at := if c.tools[0].index.Some? then c.tools[0].index.value else if close then s.index + 1 else s.index;
            LaterContent(s, c) == (Closed(close, s.index) + ToolEvents(c.tools[0], at), Some(Tools), at)
  {
    var start := if s.last != Some(Tools) then s.index + 1 else s.index;
    var at := BlockIndex(c.tools[0], start, 0, 1);
    assert ToolRun(c.tools, 1, at) == ([], at);
    assert ToolRun(c.tools, 0, start).0 == ToolEvents(c.tools[0], at) + [] == ToolEvents(c.tools[0], at);
  }

  /** Where a bracketing state ends up after a tool call that may first close the current block. */
  function AfterTool(n: Nest, close: bool, index: int, named: bool, at: int): Nest
  {
    if close then (if n.Inside? && n.index == index && named && at == index + 1 then Inside(at, Tools) else Broken)
    else if named then (if n == Outside(at) then Inside(at, Tools) else Broken)
    else if n == Inside(at, Tools) then n
    else Broken
  }

  lemma FeedLaterTool(n: Nest, close: bool, index: int, t: ToolCall, at: int)
    requires t.name != "" || t.arguments != ""
    ensures FeedAll(n, Closed(close, index) + ToolEvents(t, at)) == AfterTool(n, close, index, t.name != "", at)
  {
    FeedConcat(n, Closed(close, index), ToolEvents(t, at));
    FeedClosed(n, close, index);
    FeedToolEvents(FeedAll(n, Closed(close, index)), t, at);
  }

  function ToolItem(t: ToolCall): Item
  {
    if t.name != "" then ToolStart(t.index) else ToolMore(t.index)
  }

  /** A tool call that comes at a position, and the block index it uses there. */
  lemma ToolNests(p: Position, index: int, named: bool, given: Option<int>, at: int)
    requires index == (if p.In? then p.index else 0)
    requires at == (if given.Some? then given.value else if p.In? && p.kind == Tools then index else index + 1)
    ensures var close := !(p.In? && p.kind == Tools);
            var item := if named then ToolStart(given) else ToolMore(given);
            && AfterTool(NestOf(p), close, index, named, at) == (if Legal(p, item, false) then Inside(at, Tools) else Broken)
            && (Legal(p, item, false) ==> Moved(p, item, false) == In(Tools, at))
  {
  }

  /** A tool call after the first chunk, at a position the converter agrees with. */
  lemma LaterToolNests(s: State, c: Choice, p: Position)
    requires |c.tools| == 1 && (c.tools[0].name != "" || c.tools[0].arguments != "") && Matches(s, p)
    ensures var (content, last, index) := LaterContent(s, c);
            var item := ToolItem(c.tools[0]);
            if Legal(p, item, false) then
              (last, index) == (Some(Tools), Moved(p, item, false).index) && Moved(p, item, false).kind == Tools
              && FeedAll(NestOf(p), content) == NestOf(Moved(p, item, false))
            else FeedAll(NestOf(p), content) == Broken
  {
    var t, close := c.tools[0], s.last != Some(Tools);
    assert close <==> !(p.In? && p.kind == Tools);
    var at := if t.index.Some? then t.index.value else if close then s.index + 1 else s.index;
    LaterToolContent(s, c);
    FeedLaterTool(NestOf(p), close, s.index, t, at);
    ToolNests(p, s.index, t.name != "", t.index, at);
    assert LaterContent(s, c).0 == Closed(close, s.index) + ToolEvents(t, at);
  }

  lemma LaterReasoningNests(s: State, c: Choice, p: Position)
    requires c.tools == [] && c.reasoning != "" && Matches(s, p)
    ensures var (content, last, index) := LaterContent(s, c);
            if Legal(p, Reasoning, false) then
              Matches(s.(last := last, index := index), Moved(p, Reasoning, false))
              && FeedAll(NestOf(p), content) == NestOf(Moved(p, Reasoning, false))
            else FeedAll(NestOf(p), content) == Broken
  {
    FeedBlock(NestOf(p), s.last != Some(Thinking), s.index, Thinking, c.reasoning);
  }

  lemma LaterWordsNest(s: State, c: Choice, p: Position)
    requires c.tools == [] && c.reasoning == "" && c.content != "" && Matches(s, p)
    ensures var (content, last, index) := LaterContent(s, c);
            Matches(s.(last := last, index := index), Moved(p, Words, false))
            && FeedAll(NestOf(p), content) == NestOf(Moved(p, Words, false))
  {
    var close := s.last == Some(Thinking) || s.last == Some(Tools);
    var index := if close then s.index + 1 else s.index;
    var block := Block(s.last != Some(Text), index, Text, c.content);
    FeedClosed(NestOf(p), close, s.index);
    FeedConcat(NestOf(p), Closed(close, s.index), block);
    FeedBlock(FeedAll(NestOf(p), Closed(close, s.index)), s.last != Some(Text), index, Text, c.content);
  }

  lemma LaterTextNests(s: State, c: Choice, p: Position)
    requires c.tools == [] && Matches(s, p)
    ensures var (content, last, index) := LaterContent(s, c);
            var item := ItemOf(Chunk("", "", Some(c), None), false);
            if Legal(p, item, false) then
              Matches(s.(last := last, index := index), Moved(p, item, false))
              && FeedAll(NestOf(p), content) == NestOf(Moved(p, item, false))
            else FeedAll(NestOf(p), content) == Broken
  {
    if c.reasoning != "" {
      LaterReasoningNests(s, c, p);
    } else if c.content != "" {
      LaterWordsNest(s, c, p);
    }
  }

  lemma ContentNests(s: State, chunk: Chunk, p: Position)
    requires Plain(chunk, s.count == 1) && Matches(s, p) && (s.count == 1 ==> p == Unopened)
    ensures var (content, t) := Content(s, chunk);
            var item := ItemOf(chunk, s.count == 1);
            if Legal(p, item, s.count == 1) then
              Matches(t, Moved(p, item, s.count == 1)) && FeedAll(NestOf(p), content) == NestOf(Moved(p, item, s.count == 1))
            else FeedAll(NestOf(p), content) == Broken
  {
    if s.count == 1 {
      FirstChunkNests(s, chunk);
    } else if chunk.choice.Some? {
      if chunk.choice.value.tools != [] {
        LaterToolNests(s, chunk.choice.value, p);
      } else {
        LaterTextNests(s, chunk.choice.value, p);
      }
    }
  }

  /** Message events are allowed between blocks and nowhere else. */
  lemma FeedUsage(n: Nest, usage: Option<Usage>, reason: string)
    ensures FeedAll(n, if usage.Some? then [MessageDelta(usage.value, StopReason(reason))] else []) ==
            if usage.None? || n.Outside? then n else Broken
  {
    if usage.Some? {
      FeedOne(n, MessageDelta(usage.value, StopReason(reason)));
    }
  }

  lemma FeedClosing(n: Nest, index: int, usage: Option<Usage>, reason: string)
    ensures FeedAll(n, Closing(index, usage, reason)) ==
            if n.Inside? && n.index == index then Outside(index + 1) else Broken
  {
    var stop := [BlockStop(index)];
    var delta := if usage.Some? then [MessageDelta(usage.value, StopReason(reason))] else [];
    FeedOne(n, BlockStop(index));
    FeedConcat(n, stop, delta);
    FeedUsage(FeedAll(n, stop), usage, reason);
    FeedConcat(n, stop + delta, [MessageStop]);
    FeedOne(FeedAll(n, stop + delta), MessageStop);
  }

  lemma FeedTail(n: Nest, t: State, chunk: Chunk)
    ensures FeedAll(n, Tail(t, chunk)) ==
            if !Finishes(chunk) then n else if n.Inside? && n.index == t.index then Outside(t.index + 1) else Broken
  {
    if Finishes(chunk) {
      FeedClosing(n, t.index, if chunk.usage.Some? then chunk.usage else t.usage, chunk.choice.value.finish);
    }
  }

  // ---- whole streams ----

  ghost predicate PlainStream(chunks: seq<Chunk>)
  {
    forall i :: 0 <= i < |chunks| ==> Plain(chunks[i], i == 0)
  }

  /** The position after some chunks. */
  function PositionAfter(chunks: seq<Chunk>): Position
    requires PlainStream(chunks)
  {
    if chunks == [] then Unopened
    else Moved(PositionAfter(chunks[..|chunks| - 1]), ItemOf(chunks[|chunks| - 1], |chunks| == 1), |chunks| == 1)
  }

  /** Every chunk comes at a position at which it is legal. */
  predicate Orderly(chunks: seq<Chunk>)
    requires PlainStream(chunks)
  {
    chunks == [] ||
    var front := chunks[..|chunks| - 1];
    Orderly(front) && Legal(PositionAfter(front), ItemOf(chunks[|chunks| - 1], |chunks| == 1), |chunks| == 1)
  }

  /** The bracketing state after the events of a stream without a finish reason before its last chunk. */
  lemma {:induction false} StreamNests(inputTokens: int, chunks: seq<Chunk>)
    requires PlainStream(chunks)
    requires forall i :: 0 <= i < |chunks| - 1 ==> !Finishes(chunks[i])
    ensures var (s, events) := Run(inputTokens, chunks);
            var open := NestOf(PositionAfter(chunks));
            if !Orderly(chunks) then FeedAll(Outside(0), events) == Broken
            else
              && Matches(s, PositionAfter(chunks))
              && FeedAll(Outside(0), events) ==
                 (if !Complete(chunks) then open else if open.Inside? then Outside(open.index + 1) else Broken)
    decreases |chunks|
  {
    if chunks != [] {
      var front, chunk := chunks[..|chunks| - 1], chunks[|chunks| - 1];
      assert PlainStream(front);
      StreamNests(inputTokens, front);
      EnvelopeState(inputTokens, front);
      EffectiveStep(chunks);
      assert !Complete(front) by {
        assert Effective(front) <= front;
      }
      var s, events := Run(inputTokens, front).0, Run(inputTokens, front).1;
      FeedConcat(Outside(0), events, Fed(s, chunk).1);
      if Orderly(front) {
        ChunkNests(s, chunk, PositionAfter(front));
      } else {
        BrokenStays(Fed(s, chunk).1);
      }
    }
  }

  lemma ChunkNests(s: State, chunk: Chunk, p: Position)
    requires !s.done && Matches(s, p) && (s.count == 0 ==> p == Unopened) && Plain(chunk, s.count == 0)
    ensures var first := s.count == 0;
            var item := ItemOf(chunk, first);
            var (t, events) := Fed(s, chunk);
            var open := NestOf(Moved(p, item, first));
            if !Legal(p, item, first) then FeedAll(NestOf(p), events) == Broken
            else
              && Matches(t, Moved(p, item, first))
              && FeedAll(NestOf(p), events) ==
                 (if !Finishes(chunk) then open else if open.Inside? then Outside(open.index + 1) else Broken)
  {
    var ready := Counted(s, chunk);
    var (content, t) := Content(ready, chunk);
    var head := Head(ready, chunk);
    FeedOne(NestOf(p), MessageStart(chunk.id, chunk.model, s.inputTokens));
    assert FeedAll(NestOf(p), head) == NestOf(p);
    ContentNests(ready, chunk, p);
    FeedConcat(NestOf(p), head, content);
    FeedConcat(NestOf(p), head + content, Tail(t, chunk));
    var n := FeedAll(NestOf(p), content);
    FeedTail(n, t, chunk);
    if n == Broken {
      BrokenStays(Tail(t, chunk));
    }
  }

  /**
   The exact condition: a stream of plain chunks is well bracketed if and only if every chunk up to the finish is legal
   where it comes and some block has been opened by then; without a finish no block may be opened, as none is stopped.
   */
  lemma WellBracketedExactlyWhenOrderly(inputTokens: int, chunks: seq<Chunk>)
    requires PlainStream(chunks)
    ensures var e := Effective(chunks);
            PlainStream(e)
            && (WellBracketed(Run(inputTokens, chunks).1) <==>
                Orderly(e) && (if Complete(chunks) then PositionAfter(e).In? else PositionAfter(e).Unopened?))
  {
    var e := Effective(chunks);
    assert PlainStream(e);
    NothingAfterFinish(inputTokens, chunks);
    EffectiveOfEffective(chunks);
    StreamNests(inputTokens, e);
  }

  lemma {:induction false} EffectiveOfEffective(chunks: seq<Chunk>)
    ensures Effective(Effective(chunks)) == Effective(chunks)
  {
    if chunks != [] {
      EffectiveOfEffective(chunks[..|chunks| - 1]);
    }
  }

  // ---- streams without tool calls ----

  predicate NoTools(chunk: Chunk)
  {
    chunk.choice.Some? ==> chunk.choice.value.tools == []
  }

  predicate HasReasoning(chunk: Chunk)
  {
    chunk.choice.Some? && chunk.choice.value.reasoning != ""
  }

  /** Text counts only in a chunk that brings no reasoning. */
  predicate HasWords(chunk: Chunk)
  {
    chunk.choice.Some? && chunk.choice.value.reasoning == "" && chunk.choice.value.content != ""
  }

  ghost predicate ReasoningFirst(chunks: seq<Chunk>)
  {
    forall i, j :: 0 <= i < j < |chunks| && HasWords(chunks[i]) ==> !HasReasoning(chunks[j])
  }

  ghost predicate SaysSomething(chunks: seq<Chunk>)
  {
    exists i :: 0 <= i < |chunks| && (HasReasoning(chunks[i]) || HasWords(chunks[i]))
  }

  lemma {:induction false} OrderlyWithoutTools(chunks: seq<Chunk>)
    requires forall i :: 0 <= i < |chunks| ==> NoTools(chunks[i])
    ensures PlainStream(chunks)
    ensures Orderly(chunks) <==> ReasoningFirst(chunks)
    ensures PositionAfter(chunks).In? <==> SaysSomething(chunks)
    ensures PositionAfter(chunks).In? ==> PositionAfter(chunks).kind != Tools
    ensures (exists i :: 0 <= i < |chunks| && HasWords(chunks[i])) <==> PositionAfter(chunks).In? && PositionAfter(chunks).kind == Text
    decreases |chunks|
  {
    if chunks != [] {
      var front, last := chunks[..|chunks| - 1], chunks[|chunks| - 1];
      assert forall i :: 0 <= i < |front| ==> front[i] == chunks[i];
      OrderlyWithoutTools(front);
      assert PlainStream(front);
      if i :| 0 <= i < |front| && HasWords(front[i]) {
        assert HasWords(chunks[i]);
      }
      if i :| 0 <= i < |front| && (HasReasoning(front[i]) || HasWords(front[i])) {
        assert HasReasoning(chunks[i]) || HasWords(chunks[i]);
      }
    }
  }

  /**
   Without tool calls: a stream that finishes is well bracketed if and only if, up to the finish, reasoning never follows
   text and something is said; one that does not finish, if and only if nothing is said.
   */
  lemma WellBracketedWithoutTools(inputTokens: int, chunks: seq<Chunk>)
    requires forall i :: 0 <= i < |chunks| ==> NoTools(chunks[i])
    ensures var e := Effective(chunks);
            WellBracketed(Run(inputTokens, chunks).1) <==>
            if Complete(chunks) then ReasoningFirst(e) && SaysSomething(e) else !SaysSomething(e)
  {
    var e := Effective(chunks);
    OrderlyWithoutTools(chunks);
    OrderlyWithoutTools(e);
    WellBracketedExactlyWhenOrderly(inputTokens, chunks);
  }
}
