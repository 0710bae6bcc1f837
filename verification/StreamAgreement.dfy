/** Streaming agrees with aggregate-then-translate: what a client pieces together from the
    streamed events is the message the non-streaming path would have returned. */
module StreamAgreement {
  import opened Prelude
  import opened ClaudeStream
  import opened StreamProtocol
  import opened Aggregation

  function Chunks(run: seq<Arrival>): seq<Chunk> {
    seq(|run|, i requires 0 <= i < |run| => run[i].chunk)
  }

  function AllFragments(run: seq<Arrival>): seq<ToolFragment> {
    if run == [] then [] else AllFragments(run[..|run| - 1]) + run[|run| - 1].chunk.Fragments()
  }

  /** Reasoning sent only in the `reasoning` field, which the aggregator does not read. */
  predicate ReasonsElsewhere(c: Chunk) {
    c.choices != [] && c.choices[0].delta.reasoningContent == "" && c.choices[0].delta.reasoning != ""
  }

  // ---------- Text and thinking, on every run ----------

  lemma SeenOne(e: Event, i: nat)
    ensures Seen([e]) == Glance(e)
    ensures InputOf([e], i) == InputIn(e, i)
  {
    assert [e][1..] == [];
    assert Seen([e]) == Both(Glance(e), Seen([e][1..]));
  }

  lemma SeenPair(a: Event, b: Event, i: nat)
    ensures Seen([a, b]) == Both(Glance(a), Glance(b))
    ensures InputOf([a, b], i) == InputOf([a], i) + InputOf([b], i)
  {
    SeenOne(a, i);
    SeenOne(b, i);
    assert [a, b] == [a] + [b];
    SeenAppend([a], [b]);
    InputAppend([a], [b], i);
  }

  lemma SeenTwo(es: seq<Event>, i: nat)
    requires 1 <= |es| <= 2
    ensures Seen(es) == if |es| == 1 then Glance(es[0]) else Both(Glance(es[0]), Glance(es[1]))
    ensures (forall k :: 0 <= k < |es| && es[k].BlockDelta? ==> !es[k].piece.InputJsonDelta?) ==> InputOf(es, i) == ""
  {
    SeenOne(es[0], i);
    if |es| == 1 {
      assert es == [es[0]];
    } else {
      SeenOne(es[1], i);
      SeenPair(es[0], es[1], i);
      assert es == [es[0], es[1]];
    }
  }

  const NOTHING := Digest("", "", [])

  lemma NothingAdded(d: Digest)
    ensures Both(NOTHING, d) == d == Both(d, NOTHING)
  {
    assert "" + d.text == d.text == d.text + "" && "" + d.thinking == d.thinking == d.thinking + "";
    assert [] + d.starts == d.starts == d.starts + [];
  }

  lemma SilentPrefix(a: seq<Event>, b: seq<Event>, i: nat)
    requires Seen(a) == NOTHING
    ensures Seen(a + b) == Seen(b)
    ensures InputOf(a, i) == "" ==> InputOf(a + b, i) == InputOf(b, i)
  {
    hide Seen, InputOf;
    SeenAppend(a, b);
    InputAppend(a, b, i);
    NothingAdded(Seen(b));
    assert "" + InputOf(b, i) == InputOf(b, i);
  }

  lemma SilentSuffix(a: seq<Event>, b: seq<Event>, i: nat)
    requires Seen(b) == NOTHING
    ensures Seen(a + b) == Seen(a)
    ensures InputOf(b, i) == "" ==> InputOf(a + b, i) == InputOf(a, i)
  {
    hide Seen, InputOf;
    SeenAppend(a, b);
    InputAppend(a, b, i);
    NothingAdded(Seen(a));
    assert InputOf(a, i) + "" == InputOf(a, i);
  }

  lemma StopsAreSilent(st: State, i: nat)
    ensures Seen(StopThinking(st).events) == Seen(StopText(st).events) == NOTHING
    ensures InputOf(StopThinking(st).events, i) == InputOf(StopText(st).events, i) == ""
  {
    SeenOne(BlockStop(st.thinkingIndex), i);
    SeenOne(BlockStop(st.textIndex), i);
  }

  lemma ThinkReads(st: State, text: string, i: nat)
    ensures Seen(Think(st, text).events) == Digest("", text, []) && InputOf(Think(st, text).events, i) == ""
  {
    SeenTwo(Think(st, text).events, i);
  }

  lemma ReasonReads(st: State, text: string, i: nat)
    ensures Seen(Reason(st, text).events) == Digest("", text, []) && InputOf(Reason(st, text).events, i) == ""
  {
    if text != "" {
      var a := StopText(st);
      StopsAreSilent(st, i);
      ThinkReads(a.st, text, i);
      SilentPrefix(a.events, Think(a.st, text).events, i);
    }
  }

  lemma SpeakReads(st: State, text: string, i: nat)
    ensures Seen(Speak(st, text).events) == Digest(text, "", []) && InputOf(Speak(st, text).events, i) == ""
  {
    SeenTwo(Speak(st, text).events, i);
  }

  lemma SayReads(st: State, text: string, i: nat)
    ensures Seen(Say(st, text).events) == Digest(text, "", []) && InputOf(Say(st, text).events, i) == ""
  {
    if text != "" {
      var a := StopThinking(st);
      StopsAreSilent(st, i);
      SpeakReads(a.st, text, i);
      SilentPrefix(a.events, Speak(a.st, text).events, i);
    }
  }

  lemma ToolReads(st: State, t: ToolFragment, i: nat)
    ensures InputOf(Tool(st, t).events, i) == ""
    ensures Seen(Tool(st, t).events) ==
            if t.id == "" then NOTHING else Digest("", "", [Start(st.nextBlockIndex, t.id, ToolName(t.id, t.Name()))])
  {
    if t.id != "" {
      var a := StopThinking(st);
      var b := StopText(a.st);
      StopsAreSilent(st, i);
      StopsAreSilent(a.st, i);
      OpenToolReads(b.st, t, i);
      SilentPrefix(a.events, b.events, i);
      SilentPrefix(a.events + b.events, OpenTool(b.st, t).events, i);
    }
  }

  lemma OpenToolReads(st: State, t: ToolFragment, i: nat)
    ensures InputOf(OpenTool(st, t).events, i) == ""
    ensures Seen(OpenTool(st, t).events) == Digest("", "", [Start(st.nextBlockIndex, t.id, ToolName(t.id, t.Name()))])
  {
    SeenTwo(OpenTool(st, t).events, i);
  }

  lemma {:induction false} ToolsRead(st: State, ts: seq<ToolFragment>, i: nat)
    ensures Seen(Tools(st, ts).events).text == Seen(Tools(st, ts).events).thinking == ""
    ensures InputOf(Tools(st, ts).events, i) == ""
  {
    if ts != [] {
      var a := Tools(st, ts[..|ts| - 1]);
      ToolsRead(st, ts[..|ts| - 1], i);
      ToolReads(a.st, ts[|ts| - 1], i);
      SeenAppend(a.events, Tool(a.st, ts[|ts| - 1]).events);
      InputAppend(a.events, Tool(a.st, ts[|ts| - 1]).events, i);
    }
  }

  function TextOf(c: Chunk): string {
    if c.choices == [] then "" else c.choices[0].delta.content
  }

  function ThinkingOf(c: Chunk): string {
    if c.choices == [] then "" else c.choices[0].delta.ReasoningText()
  }

  function ReasoningContentOf(c: Chunk): string {
    if c.choices == [] then "" else c.choices[0].delta.reasoningContent
  }

  /** The stage before the tool fragments. */
  function Prose(st: State, c: Chunk): Out
    requires c.choices != []
  {
    var a := Announce(st.(created := true, usage := MergeUsage(st.usage, c.usage)));
    var r := Reason(a.st, c.choices[0].delta.ReasoningText());
    var s := Say(r.st, c.choices[0].delta.content);
    Out(s.st, a.events + r.events + s.events)
  }

  lemma ProseReads(st: State, c: Chunk, i: nat)
    requires c.choices != []
    ensures Seen(Prose(st, c).events) == Digest(TextOf(c), ThinkingOf(c), []) && InputOf(Prose(st, c).events, i) == ""
  {
    var a := Announce(st.(created := true, usage := MergeUsage(st.usage, c.usage)));
    var r := Reason(a.st, c.choices[0].delta.ReasoningText());
    var s := Say(r.st, c.choices[0].delta.content);
    AnnounceReads(st.(created := true, usage := MergeUsage(st.usage, c.usage)), i);
    ReasonReads(a.st, c.choices[0].delta.ReasoningText(), i);
    SayReads(r.st, c.choices[0].delta.content, i);
    SilentPrefix(a.events, r.events, i);
    ThenText(a.events + r.events, s.events, ThinkingOf(c), TextOf(c), i);
  }

  lemma AnnounceReads(st: State, i: nat)
    ensures Seen(Announce(st).events) == NOTHING && InputOf(Announce(st).events, i) == ""
  {
    SeenOne(MessageStart, i);
  }

  lemma ThenText(a: seq<Event>, b: seq<Event>, thinking: string, text: string, i: nat)
    requires Seen(a) == Digest("", thinking, []) && Seen(b) == Digest(text, "", [])
    requires InputOf(a, i) == "" && InputOf(b, i) == ""
    ensures Seen(a + b) == Digest(text, thinking, []) && InputOf(a + b, i) == ""
  {
    SeenAppend(a, b);
    InputAppend(a, b, i);
    assert "" + text == text && thinking + "" == thinking;
  }

  lemma BodyReads(st: State, c: Chunk)
    ensures Seen(Body(st, c).events).text == TextOf(c) && Seen(Body(st, c).events).thinking == ThinkingOf(c)
  {
    if c.choices == [] {
      SeenOne(MessageStart, 0);
    } else {
      var s := Prose(st, c);
      ProseReads(st, c, 0);
      ToolsRead(s.st, c.choices[0].delta.toolCalls, 0);
      SeenAppend(s.events, Tools(s.st, c.choices[0].delta.toolCalls).events);
    }
  }

  lemma {:induction false} ClosingReads(san: Sanitizer, st: State, order: seq<int>)
    requires forall k :: k in order ==> k in st.toolCalls
    ensures Seen(CloseTools(san, st, order)) == NOTHING
  {
    if order != [] {
      var init, k := order[..|order| - 1], order[|order| - 1];
      ClosingReads(san, st, init);
      SeenTwo(CloseTool(san, st, k), 0);
      SeenAppend(CloseTools(san, st, init), CloseTool(san, st, k));
    }
  }

  lemma FinishReads(san: Sanitizer, st: State, reason: string, order: seq<int>)
    requires forall k :: k in order ==> k in st.toolCalls
    ensures Seen(Finish(san, st, reason, order).events) == NOTHING
  {
    var a := StopThinking(st);
    var b := StopText(a.st);
    var closing, ending := CloseTools(san, b.st, order), MessageEnd(b.st, reason);
    StopsAreSilent(st, 0);
    StopsAreSilent(a.st, 0);
    ClosingReads(san, b.st, order);
    SeenTwo(ending, 0);
    AllSilent(a.events, b.events, closing, ending);
  }

  lemma AllSilent(a: seq<Event>, b: seq<Event>, c: seq<Event>, d: seq<Event>)
    requires Seen(a) == Seen(b) == Seen(c) == Seen(d) == NOTHING
    ensures Seen(a + b + c + d) == NOTHING
  {
    SilentPrefix(a, b, 0);
    SilentPrefix(a + b, c, 0);
    SilentPrefix(a + b + c, d, 0);
  }

  lemma StepReads(san: Sanitizer, st: State, c: Chunk, order: seq<int>)
    requires OrderFits(st, c, order)
    ensures Seen(Step(san, st, c, order).events).text == TextOf(c)
    ensures Seen(Step(san, st, c, order).events).thinking == ThinkingOf(c)
  {
    var a := Body(st, c);
    BodyReads(st, c);
    if c.Finishes() {
      FinishReads(san, a.st, c.choices[0].finishReason.value, order);
      SeenAppend(a.events, Finish(san, a.st, c.choices[0].finishReason.value, order).events);
    }
  }

  lemma {:induction false} FoldToolsKeepsProse(f: Fold, ts: seq<ToolFragment>)
    ensures FoldTools(f, ts) == f.(slots := FoldTools(f, ts).slots, entries := FoldTools(f, ts).entries)
  {
    if ts != [] {
      FoldToolsKeepsProse(f, ts[..|ts| - 1]);
    }
  }

  function ProseFold(f: Fold, c: Chunk): Fold
    requires c.choices != []
  {
    var d := c.choices[0].delta;
    f.(content := f.content + d.content, reasoning := f.reasoning + d.reasoningContent,
       finishReason := if c.Finishes() then c.choices[0].finishReason.value else f.finishReason)
  }

  lemma FoldChunkReads(f: Fold, c: Chunk)
    ensures FoldChunk(f, c).content == f.content + TextOf(c)
    ensures FoldChunk(f, c).reasoning == f.reasoning + ReasoningContentOf(c)
    ensures FoldChunk(f, c).finishReason == if c.Finishes() then c.choices[0].finishReason.value else f.finishReason
  {
    if c.choices != [] {
      FoldToolsKeepsProse(ProseFold(f, c), c.choices[0].delta.toolCalls);
    }
  }

  lemma {:induction false} ChunksSnoc(run: seq<Arrival>)
    requires run != []
    ensures Chunks(run)[..|run| - 1] == Chunks(run[..|run| - 1])
  {
  }

  /** The streamed text is the aggregated text, on every run whatever. */
  lemma {:induction false} TextAgrees(san: Sanitizer, run: seq<Arrival>)
    requires Valid(san, run)
    ensures Seen(Run(san, run).events).text == Aggregate(Chunks(run)).content
  {
    if run != [] {
      var init, last := run[..|run| - 1], run[|run| - 1];
      var a := Run(san, init);
      TextAgrees(san, init);
      ChunksSnoc(run);
      StepReads(san, a.st, last.chunk, last.order);
      FoldChunkReads(FoldChunks(Chunks(init)), last.chunk);
      SeenAppend(a.events, Step(san, a.st, last.chunk, last.order).events);
    }
  }

  /** What the aggregator drops, as a length. */
  function Dropped(run: seq<Arrival>): nat {
    if run == [] then 0
    else Dropped(run[..|run| - 1]) + |ThinkingOf(run[|run| - 1].chunk)| - |ReasoningContentOf(run[|run| - 1].chunk)|
  }

  lemma {:induction false} DroppedNothingIff(run: seq<Arrival>)
    ensures Dropped(run) == 0 <==> forall i :: 0 <= i < |run| ==> !ReasonsElsewhere(run[i].chunk)
  {
    if run != [] {
      var init := run[..|run| - 1];
      DroppedNothingIff(init);
      assert forall i :: 0 <= i < |init| ==> init[i] == run[i];
      }
  }

  lemma {:induction false} ThinkingMeasured(san: Sanitizer, run: seq<Arrival>)
    requires Valid(san, run)
    ensures var streamed, folded := Seen(Run(san, run).events).thinking, Aggregate(Chunks(run)).reasoningContent;
      && |streamed| == |folded| + Dropped(run)
      && (Dropped(run) == 0 ==> streamed == folded)
  {
    if run != [] {
      var init, last := run[..|run| - 1], run[|run| - 1];
      var a := Run(san, init);
      ThinkingMeasured(san, init);
      ChunksSnoc(run);
      StepReads(san, a.st, last.chunk, last.order);
      FoldChunkReads(FoldChunks(Chunks(init)), last.chunk);
      SeenAppend(a.events, Step(san, a.st, last.chunk, last.order).events);
    }
  }

  /** The streamed thinking is the aggregated reasoning if and only if no chunk keeps its
      reasoning in the field the aggregator ignores. */
  lemma {:induction false} ThinkingAgreesIff(san: Sanitizer, run: seq<Arrival>)
    requires Valid(san, run)
    ensures Seen(Run(san, run).events).thinking == Aggregate(Chunks(run)).reasoningContent
            <==> forall i :: 0 <= i < |run| ==> !ReasonsElsewhere(run[i].chunk)
  {
    ThinkingMeasured(san, run);
    DroppedNothingIff(run);
  }

  // ---------- The end of the stream ----------

  lemma {:induction false} FinishSplits(san: Sanitizer, run: seq<Arrival>)
    requires Valid(san, run) && EndsWithFinish(run)
    ensures OrderFits(Run(san, run[..|run| - 1]).st, run[|run| - 1].chunk, run[|run| - 1].order)
    ensures var a := Run(san, run[..|run| - 1]);
      var b := Body(a.st, run[|run| - 1].chunk);
      Run(san, run).events == a.events + b.events +
        Finish(san, b.st, run[|run| - 1].chunk.choices[0].finishReason.value, run[|run| - 1].order).events
  {
    var a := Run(san, run[..|run| - 1]);
    var b := Body(a.st, run[|run| - 1].chunk);
    var f := Finish(san, b.st, run[|run| - 1].chunk.choices[0].finishReason.value, run[|run| - 1].order);
    assert Run(san, run).events == a.events + (b.events + f.events);
  }

  /** Both paths report the same stop reason. */
  lemma {:induction false} StopReasonAgrees(san: Sanitizer, run: seq<Arrival>)
    requires Valid(san, run) && EndsWithFinish(run)
    ensures var es := Run(san, run).events;
      && |es| >= 2 && es[|es| - 2].MessageDelta?
      && es[|es| - 2].stopReason == ClaudeStop(Aggregate(Chunks(run)).finishReason)
  {
    var last := run[|run| - 1];
    ChunksSnoc(run);
    FoldChunkReads(FoldChunks(Chunks(run[..|run| - 1])), last.chunk);
    FinishSplits(san, run);
    var b := Body(Run(san, run[..|run| - 1]).st, last.chunk);
    FinishEndsWithReason(san, b.st, last.chunk.choices[0].finishReason.value, last.order);
  }

  /** And it is the one that goes with the finish reason the upstream gave. */
  lemma {:induction false} StopReasonIs(san: Sanitizer, run: seq<Arrival>)
    requires Valid(san, run) && EndsWithFinish(run)
    ensures var es, reason := Run(san, run).events, run[|run| - 1].chunk.choices[0].finishReason.value;
      && Aggregate(Chunks(run)).finishReason == reason
      && |es| >= 2 && es[|es| - 2].MessageDelta?
      && (es[|es| - 2].stopReason == "max_tokens" <==> reason == "length")
      && (es[|es| - 2].stopReason == "tool_use" <==> reason == "tool_calls")
      && (es[|es| - 2].stopReason == "end_turn" <==> reason !in {"length", "tool_calls"})
  {
    var last := run[|run| - 1];
    ChunksSnoc(run);
    FoldChunkReads(FoldChunks(Chunks(run[..|run| - 1])), last.chunk);
    StopReasonAgrees(san, run);
  }

  /** A stream without a finish chunk is aggregated as one that stopped by itself. */
  lemma {:induction false} NoFinishIsStop(chunks: seq<Chunk>)
    requires forall i :: 0 <= i < |chunks| ==> !chunks[i].Finishes()
    ensures Aggregate(chunks).finishReason == "stop"
  {
    if chunks != [] {
      NoFinishIsStop(chunks[..|chunks| - 1]);
      FoldChunkReads(FoldChunks(chunks[..|chunks| - 1]), chunks[|chunks| - 1]);
    }
  }

  lemma FinishEndsWithReason(san: Sanitizer, st: State, reason: string, order: seq<int>)
    requires forall k :: k in order ==> k in st.toolCalls
    ensures var es := Finish(san, st, reason, order).events;
      |es| >= 2 && es[|es| - 2].MessageDelta? && es[|es| - 2].stopReason == ClaudeStop(reason)
  {
  }

  // ---------- Usage ----------

  /** Chunks before the first choice are ignored altogether. */
  predicate Spoke(run: seq<Arrival>) {
    run != [] && (run[|run| - 1].chunk.choices != [] || Spoke(run[..|run| - 1]))
  }

  function CountIn(u: Usage, prompt: bool): int {
    if prompt then u.promptTokens else u.completionTokens
  }

  /** The last positive count reported once the message has begun. */
  function LastCount(run: seq<Arrival>, prompt: bool): int {
    if run == [] then 0
    else
      var u := run[|run| - 1].chunk.usage;
      if Spoke(run) && u.Some? && CountIn(u.value, prompt) > 0 then CountIn(u.value, prompt)
      else LastCount(run[..|run| - 1], prompt)
  }

  function CountOf(u: Option<Usage>, prompt: bool): int {
    if u.Some? then CountIn(u.value, prompt) else 0
  }

  lemma ToolKeepsUsage(st: State, t: ToolFragment)
    ensures Tool(st, t).st.usage == st.usage && Tool(st, t).st.created == st.created
  {
    if t.id != "" {
      var a := StopThinking(st);
      var b := StopText(a.st);
      var c := OpenTool(b.st, t);
      assert a.st.usage == b.st.usage == c.st.usage == st.usage;
      assert a.st.created == b.st.created == c.st.created == st.created;
      assert Tool(st, t).st == BufferArguments(c.st, t);
    }
  }

  lemma ProseKeepsUsage(st: State, c: Chunk)
    requires c.choices != []
    ensures Prose(st, c).st.created && Prose(st, c).st.usage == MergeUsage(st.usage, c.usage)
  {
    var a := Announce(st.(created := true, usage := MergeUsage(st.usage, c.usage)));
    var r := Reason(a.st, c.choices[0].delta.ReasoningText());
    assert r.st.created == a.st.created && r.st.usage == a.st.usage;
    var s := Say(r.st, c.choices[0].delta.content);
    assert s.st.created == r.st.created && s.st.usage == r.st.usage;
  }

  lemma {:induction false} ToolsKeepUsage(st: State, ts: seq<ToolFragment>)
    ensures Tools(st, ts).st.usage == st.usage && Tools(st, ts).st.created == st.created
  {
    if ts != [] {
      ToolsKeepUsage(st, ts[..|ts| - 1]);
      ToolKeepsUsage(Tools(st, ts[..|ts| - 1]).st, ts[|ts| - 1]);
    }
  }

  lemma BodyUsage(st: State, c: Chunk)
    ensures Body(st, c).st.created <==> st.created || c.choices != []
    ensures Body(st, c).st.usage == if st.created || c.choices != [] then MergeUsage(st.usage, c.usage) else st.usage
  {
    if c.choices != [] {
      ProseKeepsUsage(st, c);
      ToolsKeepUsage(Prose(st, c).st, c.choices[0].delta.toolCalls);
    }
  }

  lemma {:induction false} UsageIsTracked(san: Sanitizer, run: seq<Arrival>, prompt: bool)
    requires Valid(san, run)
    ensures Run(san, run).st.created <==> Spoke(run)
    ensures !Spoke(run) ==> Run(san, run).st.usage == None && LastCount(run, prompt) == 0
    ensures CountOf(Run(san, run).st.usage, prompt) == LastCount(run, prompt)
  {
    if run != [] {
      var st, c := Run(san, run[..|run| - 1]).st, run[|run| - 1].chunk;
      UsageIsTracked(san, run[..|run| - 1], prompt);
      BodyUsage(st, c);
      StepUsage(san, st, c, run[|run| - 1].order);
    }
  }

  lemma StepUsage(san: Sanitizer, st: State, c: Chunk, order: seq<int>)
    requires OrderFits(st, c, order)
    ensures Step(san, st, c, order).st.usage == Body(st, c).st.usage
    ensures Step(san, st, c, order).st.created == Body(st, c).st.created
  {
  }

  /** The finish step reports the last positive counts, whichever chunk carried them. */
  lemma {:induction false} UsageIsReported(san: Sanitizer, run: seq<Arrival>)
    requires Valid(san, run) && EndsWithFinish(run)
    ensures var es := Run(san, run).events;
      && |es| >= 2 && es[|es| - 2].MessageDelta?
      && es[|es| - 2].inputTokens == LastCount(run, true)
      && es[|es| - 2].outputTokens == LastCount(run, false)
  {
    var init, last := run[..|run| - 1], run[|run| - 1];
    var b := Body(Run(san, init).st, last.chunk);
    FinishSplits(san, run);
    UsageIsTracked(san, run, true);
    UsageIsTracked(san, run, false);
    StepUsage(san, Run(san, init).st, last.chunk, last.order);
    FinishEndsWithUsage(san, b.st, last.chunk.choices[0].finishReason.value, last.order);
  }

  lemma FinishEndsWithUsage(san: Sanitizer, st: State, reason: string, order: seq<int>)
    requires forall k :: k in order ==> k in st.toolCalls
    ensures var es := Finish(san, st, reason, order).events;
      && |es| >= 2 && es[|es| - 2].MessageDelta?
      && es[|es| - 2].inputTokens == CountOf(st.usage, true)
      && es[|es| - 2].outputTokens == CountOf(st.usage, false)
  {
  }
}
