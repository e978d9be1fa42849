/**
 What a client receives: the driver hands over all chunks but the last as they come and keeps the last one for the
 final response, which converts it without counting it. Streams that are long enough come out like counted ones, so
 all their laws carry over; what shorter ones lose is stated exactly.
 */
module ClaudeStreamServed {
  import opened Wrappers
  import opened ClaudeStream
  import opened ClaudeStreamLaws
  import opened ClaudeStreamNesting

  /** All chunks but the last are handed over as they come; the last one is kept for the final response. */
  function Served(inputTokens: int, chunks: seq<Chunk>, usage: Usage): seq<Event>
    requires chunks != []
  {
    var (s, events) := Run(inputTokens, chunks[..|chunks| - 1]);
    events + Converted(s.(usage := Some(usage)), chunks[|chunks| - 1]).1
  }

  /** Long enough for the missing count not to matter: the last chunk is not taken for the first or for none. */
  predicate LongEnough(chunks: seq<Chunk>)
  {
    |chunks| >= 3 || (|chunks| == 2 && Finishes(chunks[0]))
  }

  /** The chunks with the usage computed for the whole stream on the last one, if it reports none itself. */
  function Completed(chunks: seq<Chunk>, usage: Usage): (t: seq<Chunk>)
    requires chunks != []
    ensures |t| == |chunks| && t[..|t| - 1] == chunks[..|chunks| - 1]
    ensures forall i :: 0 <= i < |t| ==> t[i].choice == chunks[i].choice && t[i].id == chunks[i].id && t[i].model == chunks[i].model
  {
    var last := chunks[|chunks| - 1];
    chunks[|chunks| - 1 := last.(usage := if last.usage.Some? then last.usage else Some(usage))]
  }

  lemma UsageIrrelevant(s: State, chunk: Chunk, usage: Usage)
    requires s.count > 1 && !s.done
    ensures var full := chunk.(usage := if chunk.usage.Some? then chunk.usage else Some(usage));
            Converted(s.(usage := Some(usage)), chunk).1 == Fed(s, full).1
  {
    var full := chunk.(usage := if chunk.usage.Some? then chunk.usage else Some(usage));
    var a, b := s.(usage := Some(usage)), Counted(s, full);
    assert Content(a, chunk).0 == Content(b, full).0;
    assert Tail(Content(a, chunk).1, chunk) == Tail(Content(b, full).1, full);
  }

  lemma FirstFinishes(chunks: seq<Chunk>)
    requires |chunks| == 1
    ensures Complete(chunks) <==> Finishes(chunks[0])
  {
    assert chunks[..0] == [];
    EffectiveStep(chunks);
  }

  /** A stream that is long enough is served as if every chunk had been counted. */
  lemma ServedAsCounted(inputTokens: int, chunks: seq<Chunk>, usage: Usage)
    requires LongEnough(chunks)
    ensures Served(inputTokens, chunks, usage) == Run(inputTokens, Completed(chunks, usage)).1
  {
    var front, last := chunks[..|chunks| - 1], chunks[|chunks| - 1];
    var s := Run(inputTokens, front).0;
    LongEnoughState(inputTokens, chunks);
    LastConverted(s, last, usage);
    assert Completed(chunks, usage)[|chunks| - 1] == last.(usage := if last.usage.Some? then last.usage else Some(usage));
  }

  /** A stream that is long enough has finished or is past its first chunks when the last one comes. */
  lemma LongEnoughState(inputTokens: int, chunks: seq<Chunk>)
    requires LongEnough(chunks)
    ensures var s := Run(inputTokens, chunks[..|chunks| - 1]).0; s.done || s.count > 1
  {
    EnvelopeState(inputTokens, chunks[..|chunks| - 1]);
    if |chunks| == 2 {
      FirstFinishes(chunks[..1]);
    }
  }

  lemma LastConverted(s: State, chunk: Chunk, usage: Usage)
    requires s.done || s.count > 1
    ensures var full := chunk.(usage := if chunk.usage.Some? then chunk.usage else Some(usage));
            Converted(s.(usage := Some(usage)), chunk).1 == Fed(s, full).1
  {
    if !s.done {
      UsageIrrelevant(s, chunk, usage);
    }
  }

  lemma {:induction false} EffectiveLength(a: seq<Chunk>, b: seq<Chunk>)
    requires |a| == |b| && forall i :: 0 <= i < |a| ==> a[i].choice == b[i].choice
    ensures |Effective(a)| == |Effective(b)| && (Complete(a) <==> Complete(b))
  {
    if a != [] {
      EffectiveLength(a[..|a| - 1], b[..|b| - 1]);
      EffectiveStep(a);
      EffectiveStep(b);
    }
  }

  // ---- the laws of counted streams, for served ones ----

  /**
   The shape of a served message: one start first, content events only, then, once a finish reason has been seen, at
   most one message delta directly before the one stop; exactly one if the last chunk is the first to finish.
   */
  lemma ServedShape(inputTokens: int, chunks: seq<Chunk>, usage: Usage) returns (body: seq<Event>)
    requires LongEnough(chunks)
    ensures AllContent(body)
    ensures Served(inputTokens, chunks, usage) == Message(inputTokens, Completed(chunks, usage), body)
    ensures Complete(chunks) <==> Complete(Completed(chunks, usage))
    ensures Complete(chunks) && |Effective(chunks)| == |chunks| ==> |Trailer(Effective(Completed(chunks, usage)))| == 2
  {
    var t := Completed(chunks, usage);
    ServedAsCounted(inputTokens, chunks, usage);
    body := MessageShape(inputTokens, t);
    EffectiveLength(chunks, t);
    if Complete(chunks) && |Effective(chunks)| == |chunks| {
      assert Effective(t) == t;
    }
  }

  lemma {:induction false} SamePayload(a: seq<Chunk>, b: seq<Chunk>, kind: Kind)
    requires |a| == |b| && forall i :: 0 <= i < |a| ==> a[i].choice == b[i].choice
    ensures AllPassedOn(a, kind) == AllPassedOn(b, kind)
  {
    if a != [] {
      SamePayload(a[..|a| - 1], b[..|b| - 1], kind);
    }
  }

  /** The payload of a served stream that is long enough: what the chunks up to the first finish reason pass on. */
  lemma ServedPayload(inputTokens: int, chunks: seq<Chunk>, usage: Usage, kind: Kind)
    requires LongEnough(chunks)
    ensures Payload(Served(inputTokens, chunks, usage), kind) == AllPassedOn(Effective(chunks), kind)
  {
    var t := Completed(chunks, usage);
    ServedAsCounted(inputTokens, chunks, usage);
    RunPayload(inputTokens, t, kind);
    EffectiveLength(chunks, t);
    SamePayload(Effective(chunks), Effective(t), kind);
  }

  /** A served stream that is long enough keeps all payload of a kind exactly when nothing in it has to give way. */
  lemma ServedPayloadKept(inputTokens: int, chunks: seq<Chunk>, usage: Usage, kind: Kind)
    requires LongEnough(chunks)
    ensures var e := Effective(chunks);
            Payload(Served(inputTokens, chunks, usage), kind) == AllBrought(e, kind)
            <==> forall i :: 0 <= i < |e| ==> PassedOn(e[i], i == 0, kind) == Brought(e[i], kind)
  {
    ServedPayload(inputTokens, chunks, usage, kind);
    RunPayload(inputTokens, chunks, kind);
    PayloadKeptExactlyWhenNothingCompetes(inputTokens, chunks, kind);
  }

  lemma {:induction false} SamePositions(a: seq<Chunk>, b: seq<Chunk>)
    requires |a| == |b| && forall i :: 0 <= i < |a| ==> a[i].choice == b[i].choice
    requires PlainStream(a)
    ensures PlainStream(b) && (Orderly(a) <==> Orderly(b)) && PositionAfter(a) == PositionAfter(b)
  {
    if a != [] {
      SamePositions(a[..|a| - 1], b[..|b| - 1]);
    }
  }

  /** A served stream that is long enough is well bracketed exactly when its chunks come in order and its blocks end. */
  lemma ServedWellBracketed(inputTokens: int, chunks: seq<Chunk>, usage: Usage)
    requires LongEnough(chunks) && PlainStream(chunks)
    ensures var e := Effective(chunks);
            PlainStream(e)
            && (WellBracketed(Served(inputTokens, chunks, usage)) <==>
                Orderly(e) && (if Complete(chunks) then PositionAfter(e).In? else PositionAfter(e).Unopened?))
  {
    var t := Completed(chunks, usage);
    assert PlainStream(Effective(chunks));
    assert PlainStream(t);
    ServedAsCounted(inputTokens, chunks, usage);
    EffectiveLength(chunks, t);
    SamePositions(Effective(chunks), Effective(t));
    WellBracketedExactlyWhenOrderly(inputTokens, t);
  }

  /**
   Without tool calls: if it finishes, exactly when reasoning never follows text up to there and something is said; else
   exactly when nothing is said.
   */
  lemma ServedWellBracketedWithoutTools(inputTokens: int, chunks: seq<Chunk>, usage: Usage)
    requires LongEnough(chunks) && forall i :: 0 <= i < |chunks| ==> NoTools(chunks[i])
    ensures var e := Effective(chunks);
            WellBracketed(Served(inputTokens, chunks, usage)) <==>
            if Complete(chunks) then ReasoningFirst(e) && SaysSomething(e) else !SaysSomething(e)
  {
    OrderlyWithoutTools(chunks);
    OrderlyWithoutTools(Effective(chunks));
    ServedWellBracketed(inputTokens, chunks, usage);
  }

  // ---- streams that are too short ----

  /** A single chunk is converted as a later chunk of a message that never started. */
  lemma SingleChunk(inputTokens: int, chunk: Chunk, usage: Usage, kind: Kind)
    ensures var events := Served(inputTokens, [chunk], usage);
            && Payload(events, kind) == PassedOn(chunk, false, kind)
            && (Plain(chunk, false) ==>
                  (WellBracketed(events) <==>
                   if Finishes(chunk) then ItemOf(chunk, false) in {Reasoning, Words} else ItemOf(chunk, false) == Nothing))
  {
    var s := Initial(inputTokens).(usage := Some(usage));
    assert [chunk][..0] == [];
    assert Served(inputTokens, [chunk], usage) == Converted(s, chunk).1;
    ConvertedPayload(s, chunk, kind);
    if Plain(chunk, false) {
      FirstOfNone(s, chunk);
    }
  }

  /** A chunk converted as a later one before any block was opened. */
  lemma FirstOfNone(s: State, chunk: Chunk)
    requires !s.done && s.count == 0 && Matches(s, Unopened) && Plain(chunk, false)
    ensures WellBracketed(Converted(s, chunk).1) <==>
            if Finishes(chunk) then ItemOf(chunk, false) in {Reasoning, Words} else ItemOf(chunk, false) == Nothing
  {
    ConvertedNests(s, chunk, Unopened);
  }

  /** The bracketing state after one chunk, however it was counted. */
  lemma ConvertedNests(s: State, chunk: Chunk, p: Position)
    requires !s.done && Matches(s, p) && Plain(chunk, s.count == 1) && (s.count == 1 ==> p == Unopened)
    ensures var item := ItemOf(chunk, s.count == 1);
            FeedAll(NestOf(p), Converted(s, chunk).1).Outside? <==>
            Legal(p, item, s.count == 1) && (Finishes(chunk) <==> Moved(p, item, s.count == 1).In?)
  {
    var (content, t) := Content(s, chunk);
    var head := Head(s, chunk);
    FeedOne(NestOf(p), MessageStart(chunk.id, chunk.model, s.inputTokens));
    assert FeedAll(NestOf(p), head) == NestOf(p);
    ContentNests(s, chunk, p);
    FeedConcat(NestOf(p), head, content);
    FeedConcat(NestOf(p), head + content, Tail(t, chunk));
    FeedTail(FeedAll(NestOf(p), content), t, chunk);
  }

  /**
   Of two chunks whose first does not finish, the second is converted as a first chunk again: both pass on what a first
   chunk does, and the message starts twice. The blocks are well bracketed exactly when the first chunk opened none and
   the second opens one and finishes, or does neither.
   */
  lemma TwoChunks(inputTokens: int, a: Chunk, b: Chunk, usage: Usage, kind: Kind)
    requires !Finishes(a)
    ensures var events := Served(inputTokens, [a, b], usage);
            && Payload(events, kind) == PassedOn(a, true, kind) + PassedOn(b, true, kind)
            && (Plain(a, true) && Plain(b, true) ==>
                  (WellBracketed(events) <==> ItemOf(a, true) == Nothing && (Finishes(b) <==> ItemOf(b, true) != Nothing)))
  {
    TwoChunksPayload(inputTokens, a, b, usage, kind);
    if Plain(a, true) && Plain(b, true) {
      TwoChunksNest(inputTokens, a, b, usage);
    }
  }

  lemma FirstPayload(inputTokens: int, a: Chunk, kind: Kind)
    requires !Finishes(a)
    ensures Payload(Run(inputTokens, [a]).1, kind) == PassedOn(a, true, kind)
    ensures var s := Run(inputTokens, [a]).0; !s.done && s.count == 1
  {
    FirstFinishes([a]);
    EnvelopeState(inputTokens, [a]);
    RunPayload(inputTokens, [a], kind);
    assert Effective([a]) == [a];
    assert [a][..0] == [];
  }

  lemma TwoChunksPayload(inputTokens: int, a: Chunk, b: Chunk, usage: Usage, kind: Kind)
    requires !Finishes(a)
    ensures Payload(Served(inputTokens, [a, b], usage), kind) == PassedOn(a, true, kind) + PassedOn(b, true, kind)
  {
    var s, events := Run(inputTokens, [a]).0, Run(inputTokens, [a]).1;
    var t := s.(usage := Some(usage));
    ServedTwo(inputTokens, a, b, usage);
    FirstPayload(inputTokens, a, kind);
    ConvertedPayload(t, b, kind);
    PayloadConcat(events, Converted(t, b).1, kind);
  }

  lemma ServedTwo(inputTokens: int, a: Chunk, b: Chunk, usage: Usage)
    ensures Served(inputTokens, [a, b], usage)
         == Run(inputTokens, [a]).1 + Converted(Run(inputTokens, [a]).0.(usage := Some(usage)), b).1
  {
    assert [a, b][..1] == [a];
  }

  lemma OnePosition(a: Chunk)
    requires Plain(a, true)
    ensures PlainStream([a]) && Orderly([a]) && PositionAfter([a]) == Moved(Unopened, ItemOf(a, true), true)
  {
    assert [a][..0] == [];
    assert PositionAfter([a][..0]) == Unopened && Orderly([a][..0]);
    assert Legal(Unopened, ItemOf(a, true), true);
  }

  /** The state and the blocks after a first chunk that does not finish. */
  lemma AfterFirst(inputTokens: int, a: Chunk)
    requires !Finishes(a) && Plain(a, true)
    ensures var (s, events) := Run(inputTokens, [a]);
            var p := Moved(Unopened, ItemOf(a, true), true);
            !s.done && s.count == 1 && Matches(s, p) && FeedAll(Outside(0), events) == NestOf(p)
  {
    OnePosition(a);
    FirstFinishes([a]);
    EnvelopeState(inputTokens, [a]);
    StreamNests(inputTokens, [a]);
  }

  lemma TwoChunksNest(inputTokens: int, a: Chunk, b: Chunk, usage: Usage)
    requires !Finishes(a) && Plain(a, true) && Plain(b, true)
    ensures WellBracketed(Served(inputTokens, [a, b], usage)) <==>
            ItemOf(a, true) == Nothing && (Finishes(b) <==> ItemOf(b, true) != Nothing)
  {
    var (s, events) := Run(inputTokens, [a]);
    var t, p := s.(usage := Some(usage)), Moved(Unopened, ItemOf(a, true), true);
    assert [a, b][..1] == [a];
    AfterFirst(inputTokens, a);
    FeedConcat(Outside(0), events, Converted(t, b).1);
    if p == Unopened {
      ConvertedNests(t, b, p);
    } else {
      SecondStartBreaks(NestOf(p), t, b);
    }
  }

  /** A message start inside a block breaks the bracketing. */
  lemma SecondStartBreaks(n: Nest, s: State, chunk: Chunk)
    requires n.Inside? && s.count == 1 && !s.done
    ensures FeedAll(n, Converted(s, chunk).1) == Broken
  {
    var (content, t) := Content(s, chunk);
    var head := Head(s, chunk);
    FeedOne(n, MessageStart(chunk.id, chunk.model, s.inputTokens));
    FeedConcat(n, head, content);
    FeedConcat(n, head + content, Tail(t, chunk));
    BrokenStays(content);
    BrokenStays(Tail(t, chunk));
  }

  // ---- how often the message starts ----

  function Starts(events: seq<Event>): nat
  {
    if events == [] then 0 else Starts(events[..|events| - 1]) + (if events[|events| - 1].MessageStart? then 1 else 0)
  }

  lemma {:induction false} StartsConcat(a: seq<Event>, b: seq<Event>)
    ensures Starts(a + b) == Starts(a) + Starts(b)
  {
    if b == [] {
      assert a + b == a;
    } else {
      assert (a + b)[..|a + b| - 1] == a + b[..|b| - 1];
      StartsConcat(a, b[..|b| - 1]);
    }
  }

  lemma {:induction false} NoStarts(events: seq<Event>)
    requires forall i :: 0 <= i < |events| ==> !events[i].MessageStart?
    ensures Starts(events) == 0
  {
    if events != [] {
      NoStarts(events[..|events| - 1]);
    }
  }

  lemma StartsOfRun(inputTokens: int, chunks: seq<Chunk>)
    ensures Starts(Run(inputTokens, chunks).1) == if chunks == [] then 0 else 1
  {
    if chunks != [] {
      var body := MessageShape(inputTokens, chunks);
      StartsOfMessage(inputTokens, chunks, body);
    }
  }

  lemma StartsOfMessage(inputTokens: int, chunks: seq<Chunk>, body: seq<Event>)
    requires chunks != [] && AllContent(body)
    ensures Starts(Message(inputTokens, chunks, body)) == 1
  {
    var start := [MessageStart(chunks[0].id, chunks[0].model, inputTokens)];
    var end := if Complete(chunks) then Trailer(Effective(chunks)) else [];
    StartsConcat(start + body, end);
    StartsConcat(start, body);
    NoStarts(body);
    NoStarts(end);
    assert start[..0] == [];
  }

  lemma StartsOfConverted(s: State, chunk: Chunk)
    ensures Starts(Converted(s, chunk).1) == if !s.done && s.count == 1 then 1 else 0
  {
    if !s.done {
      var (content, t) := Content(s, chunk);
      ContentIsContent(s, chunk);
      NoStarts(content);
      NoStarts(Tail(t, chunk));
      StartsConcat(Head(s, chunk) + content, Tail(t, chunk));
      StartsConcat(Head(s, chunk), content);
      assert Head(s, chunk) != [] ==> Head(s, chunk)[..0] == [];
    }
  }

  /**
   The last chunk is converted without being counted. A served stream therefore starts its message exactly once if
   and only if it has at least three chunks, or two of which the first already finishes.
   */
  lemma ServedStartsOnceExactlyWhenLongEnough(inputTokens: int, chunks: seq<Chunk>, usage: Usage)
    requires chunks != []
    ensures Starts(Served(inputTokens, chunks, usage)) == 1 <==> LongEnough(chunks)
  {
    var front, last := chunks[..|chunks| - 1], chunks[|chunks| - 1];
    var s, events := Run(inputTokens, front).0, Run(inputTokens, front).1;
    EnvelopeState(inputTokens, front);
    StartsOfRun(inputTokens, front);
    StartsOfConverted(s.(usage := Some(usage)), last);
    StartsConcat(events, Converted(s.(usage := Some(usage)), last).1);
    if |chunks| == 2 {
      assert front == [chunks[0]] && front[..0] == [];
      EffectiveStep(front);
      assert Complete(front) <==> Finishes(chunks[0]);
    }
  }
}
