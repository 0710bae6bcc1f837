/** The OpenAI-to-Claude stream translator (internal/translator/response.go): one chunk at a
    time, it opens, feeds and closes numbered content blocks. */
module ClaudeStream {
  import opened Prelude

  // ---------- OpenAI chunks, already decoded ----------

  datatype FunctionFragment = FunctionFragment(name: string, arguments: string)

  datatype ToolFragment = ToolFragment(index: Option<int>, id: string, fn: Option<FunctionFragment>) {
    function Slot(): int {
      if index.Some? then index.value else 0
    }

    function Name(): string {
      if fn.Some? then fn.value.name else ""
    }

    function Arguments(): string {
      if fn.Some? then fn.value.arguments else ""
    }
  }

  datatype Delta = Delta(content: string, reasoningContent: string, reasoning: string, toolCalls: seq<ToolFragment>) {
    function ReasoningText(): string {
      if reasoningContent != "" then reasoningContent else reasoning
    }
  }

  datatype Choice = Choice(delta: Delta, finishReason: Option<string>)

  datatype Usage = Usage(promptTokens: int, completionTokens: int)

  datatype Chunk = Chunk(choices: seq<Choice>, usage: Option<Usage>) {
    predicate Finishes() {
      choices != [] && choices[0].finishReason.Some?
    }

    function Fragments(): seq<ToolFragment> {
      if choices == [] then [] else choices[0].delta.toolCalls
    }
  }

  // ---------- Claude events ----------

  datatype Block = ThinkingBlock | TextBlock | ToolUseBlock(id: string, name: string)

  datatype Piece = ThinkingDelta(thinking: string) | TextDelta(text: string) | InputJsonDelta(partialJson: string)

  datatype Event =
    | MessageStart
    | BlockStart(index: nat, block: Block)
    | BlockDelta(index: nat, piece: Piece)
    | BlockStop(index: nat)
    | MessageDelta(stopReason: string, inputTokens: int, outputTokens: int)
    | MessageStop

  /** Stands for sanitizeToolArgs(toolName, arguments). */
  type Sanitizer = (string, string) -> string

  // ---------- The per-stream state ----------

  datatype ToolCallState = ToolCallState(id: string, name: string, blockIndex: nat)

  datatype State = State(
    created: bool,
    messageStartSent: bool,
    nextBlockIndex: nat,
    textStarted: bool,
    textClosed: bool,
    textIndex: nat,
    thinkingStarted: bool,
    thinkingIndex: nat,
    toolCalls: map<int, ToolCallState>,
    toolArgBuffers: map<int, string>,
    finishReason: string,
    usage: Option<Usage>)

  const INITIAL := State(false, false, 0, false, false, 0, false, 0, map[], map[], "", None)

  /** A state and the events emitted on the way to it. */
  datatype Out = Out(st: State, events: seq<Event>)

  function MergeUsage(was: Option<Usage>, news: Option<Usage>): Option<Usage> {
    match news
    case None => was
    case Some(u) =>
      var base := if was.Some? then was.value else Usage(0, 0);
      Some(Usage(if u.promptTokens > 0 then u.promptTokens else base.promptTokens,
                 if u.completionTokens > 0 then u.completionTokens else base.completionTokens))
  }

  function CutProxyPrefix(name: string): string {
    if "proxy_" <= name then name[6..] else name
  }

  function ToolName(id: string, functionName: string): string {
    CutProxyPrefix(if functionName != "" then functionName else id)
  }

  function ClaudeStop(finishReason: string): string {
    if finishReason == "length" then "max_tokens"
    else if finishReason == "tool_calls" then "tool_use"
    else "end_turn"
  }

  /** stop is the Claude stop reason that goes with an OpenAI finish reason. */
  predicate StopFits(stop: string, finishReason: string) {
    && (stop == "max_tokens" <==> finishReason == "length")
    && (stop == "tool_use" <==> finishReason == "tool_calls")
    && (stop == "end_turn" <==> finishReason !in {"length", "tool_calls"})
  }

  function BufferOf(buffers: map<int, string>, slot: int): string {
    if slot in buffers then buffers[slot] else ""
  }

  // ---------- One chunk, stage by stage ----------

  function StopThinking(st: State): Out {
    if st.thinkingStarted
    then Out(st.(thinkingStarted := false), [BlockStop(st.thinkingIndex)])
    else Out(st, [])
  }

  function StopText(st: State): Out {
    if st.textStarted && !st.textClosed
    then Out(st.(textStarted := false, textClosed := true), [BlockStop(st.textIndex)])
    else Out(st, [])
  }

  function Announce(st: State): Out {
    if st.messageStartSent then Out(st, []) else Out(st.(messageStartSent := true), [MessageStart])
  }

  function Think(st: State, text: string): Out {
    if st.thinkingStarted
    then Out(st, [BlockDelta(st.thinkingIndex, ThinkingDelta(text))])
    else
      var i := st.nextBlockIndex;
      Out(st.(thinkingIndex := i, nextBlockIndex := i + 1, thinkingStarted := true),
          [BlockStart(i, ThinkingBlock), BlockDelta(i, ThinkingDelta(text))])
  }

  function Reason(st: State, text: string): Out {
    if text == "" then Out(st, [])
    else
      var a := StopText(st);
      var b := Think(a.st, text);
      Out(b.st, a.events + b.events)
  }

  function Speak(st: State, text: string): Out {
    if st.textStarted
    then Out(st, [BlockDelta(st.textIndex, TextDelta(text))])
    else
      var i := st.nextBlockIndex;
      Out(st.(textIndex := i, nextBlockIndex := i + 1, textStarted := true, textClosed := false),
          [BlockStart(i, TextBlock), BlockDelta(i, TextDelta(text))])
  }

  function Say(st: State, text: string): Out {
    if text == "" then Out(st, [])
    else
      var a := StopThinking(st);
      var b := Speak(a.st, text);
      Out(b.st, a.events + b.events)
  }

  function BufferArguments(st: State, t: ToolFragment): State {
    if t.Arguments() == "" then st
    else st.(toolArgBuffers := st.toolArgBuffers[t.Slot() := BufferOf(st.toolArgBuffers, t.Slot()) + t.Arguments()])
  }

  function OpenTool(st: State, t: ToolFragment): Out {
    var i := st.nextBlockIndex;
    var name := ToolName(t.id, t.Name());
    Out(st.(nextBlockIndex := i + 1, toolCalls := st.toolCalls[t.Slot() := ToolCallState(t.id, name, i)]),
        [BlockStart(i, ToolUseBlock(t.id, name))])
  }

  function Tool(st: State, t: ToolFragment): Out {
    if t.id == "" then Out(BufferArguments(st, t), [])
    else
      var a := StopThinking(st);
      var b := StopText(a.st);
      var c := OpenTool(b.st, t);
      Out(BufferArguments(c.st, t), a.events + b.events + c.events)
  }

  function Tools(st: State, ts: seq<ToolFragment>): Out {
    if ts == [] then Out(st, [])
    else
      var a := Tools(st, ts[..|ts| - 1]);
      var b := Tool(a.st, ts[|ts| - 1]);
      Out(b.st, a.events + b.events)
  }

  lemma ToolsNext(st: State, ts: seq<ToolFragment>, i: nat, results: seq<Event>)
    requires i < |ts|
    ensures var a := Tools(st, ts[..i]);
      && Tools(st, ts[..i + 1]).st == Tool(a.st, ts[i]).st
      && results + Tools(st, ts[..i + 1]).events == results + a.events + Tool(a.st, ts[i]).events
  {
    assert ts[..i + 1][..i] == ts[..i];
    Assoc(results, Tools(st, ts[..i]).events, Tool(Tools(st, ts[..i]).st, ts[i]).events);
  }

  function CloseTool(san: Sanitizer, st: State, slot: int): seq<Event>
    requires slot in st.toolCalls
  {
    var info := st.toolCalls[slot];
    [BlockDelta(info.blockIndex, InputJsonDelta(san(info.name, BufferOf(st.toolArgBuffers, slot)))),
     BlockStop(info.blockIndex)]
  }

  function CloseTools(san: Sanitizer, st: State, order: seq<int>): seq<Event>
    requires forall k :: k in order ==> k in st.toolCalls
  {
    if order == [] then []
    else CloseTools(san, st, order[..|order| - 1]) + CloseTool(san, st, order[|order| - 1])
  }

  function MessageEnd(st: State, reason: string): seq<Event> {
    [MessageDelta(ClaudeStop(reason),
                  if st.usage.Some? then st.usage.value.promptTokens else 0,
                  if st.usage.Some? then st.usage.value.completionTokens else 0),
     MessageStop]
  }

  function Finish(san: Sanitizer, st: State, reason: string, order: seq<int>): Out
    requires forall k :: k in order ==> k in st.toolCalls
  {
    var a := StopThinking(st);
    var b := StopText(a.st);
    Out(b.st.(finishReason := reason),
        a.events + b.events + CloseTools(san, b.st, order) + MessageEnd(b.st, reason))
  }

  /** Everything a chunk does except its finish reason. */
  function Body(st: State, c: Chunk): Out {
    if !st.created && c.choices == [] then Out(st, [])
    else
      var a := Announce(st.(created := true, usage := MergeUsage(st.usage, c.usage)));
      if c.choices == [] then a
      else
        var r := Reason(a.st, c.choices[0].delta.ReasoningText());
        var s := Say(r.st, c.choices[0].delta.content);
        var t := Tools(s.st, c.choices[0].delta.toolCalls);
        Out(t.st, a.events + r.events + s.events + t.events)
  }

  /** order is the order in which the finish step visits the open tool calls. */
  ghost predicate OrderFits(st: State, c: Chunk, order: seq<int>) {
    c.Finishes() ==> Enumerates(order, Body(st, c).st.toolCalls.Keys)
  }

  function Step(san: Sanitizer, st: State, c: Chunk, order: seq<int>): Out
    requires OrderFits(st, c, order)
  {
    var a := Body(st, c);
    if c.Finishes()
    then
      var f := Finish(san, a.st, c.choices[0].finishReason.value, order);
      Out(f.st, a.events + f.events)
    else a
  }

  // ---------- The object the translator keeps per session ----------

  class StreamSession {
    var created: bool
    var messageStartSent: bool
    var nextBlockIndex: nat
    var textBlockStarted: bool
    var textBlockClosed: bool
    var textBlockIndex: nat
    var thinkingBlockStarted: bool
    var thinkingBlockIndex: nat
    var toolCalls: map<int, ToolCallState>
    var toolArgBuffers: map<int, string>
    var finishReason: string
    var usage: Option<Usage>

    function View(): State
      reads this
    {
      State(created, messageStartSent, nextBlockIndex, textBlockStarted, textBlockClosed, textBlockIndex,
            thinkingBlockStarted, thinkingBlockIndex, toolCalls, toolArgBuffers, finishReason, usage)
    }

    constructor ()
      ensures View() == INITIAL
    {
      created, messageStartSent, nextBlockIndex := false, false, 0;
      textBlockStarted, textBlockClosed, textBlockIndex := false, false, 0;
      thinkingBlockStarted, thinkingBlockIndex := false, 0;
      toolCalls, toolArgBuffers, finishReason, usage := map[], map[], "", None;
    }

    method StopThinkingBlock(results: seq<Event>) returns (out: seq<Event>)
      modifies this
      ensures Out(View(), out) == Out(StopThinking(old(View())).st, results + StopThinking(old(View())).events)
    {
      if !thinkingBlockStarted {
        return results;
      }
      out := results + [BlockStop(thinkingBlockIndex)];
      thinkingBlockStarted := false;
    }

    method StopTextBlock(results: seq<Event>) returns (out: seq<Event>)
      modifies this
      ensures Out(View(), out) == Out(StopText(old(View())).st, results + StopText(old(View())).events)
    {
      if !textBlockStarted || textBlockClosed {
        return results;
      }
      textBlockClosed := true;
      out := results + [BlockStop(textBlockIndex)];
      textBlockStarted := false;
    }

    method EmitReasoning(text: string, results: seq<Event>) returns (out: seq<Event>)
      modifies this
      ensures Out(View(), out) == Out(Reason(old(View()), text).st, results + Reason(old(View()), text).events)
    {
      out := results;
      if text != "" {
        out := StopTextBlock(out);
        if !thinkingBlockStarted {
          thinkingBlockIndex := nextBlockIndex;
          nextBlockIndex := nextBlockIndex + 1;
          thinkingBlockStarted := true;
          out := out + [BlockStart(thinkingBlockIndex, ThinkingBlock)];
        }
        out := out + [BlockDelta(thinkingBlockIndex, ThinkingDelta(text))];
      }
    }

    method EmitContent(text: string, results: seq<Event>) returns (out: seq<Event>)
      modifies this
      ensures Out(View(), out) == Out(Say(old(View()), text).st, results + Say(old(View()), text).events)
    {
      out := results;
      if text != "" {
        out := StopThinkingBlock(out);
        if !textBlockStarted {
          textBlockIndex := nextBlockIndex;
          nextBlockIndex := nextBlockIndex + 1;
          textBlockStarted := true;
          textBlockClosed := false;
          out := out + [BlockStart(textBlockIndex, TextBlock)];
        }
        out := out + [BlockDelta(textBlockIndex, TextDelta(text))];
      }
    }

    method EmitTool(t: ToolFragment, results: seq<Event>) returns (out: seq<Event>)
      modifies this
      ensures Out(View(), out) == Out(Tool(old(View()), t).st, results + Tool(old(View()), t).events)
    {
      out := results;
      var idx := t.Slot();
      if t.id != "" {
        out := StopThinkingBlock(out);
        out := StopTextBlock(out);
        var toolBlockIndex := nextBlockIndex;
        nextBlockIndex := nextBlockIndex + 1;
        var toolName := t.id;
        if t.fn.Some? && t.fn.value.name != "" {
          toolName := t.fn.value.name;
        }
        toolName := CutProxyPrefix(toolName);
        toolCalls := toolCalls[idx := ToolCallState(t.id, toolName, toolBlockIndex)];
        out := out + [BlockStart(toolBlockIndex, ToolUseBlock(t.id, toolName))];
      }
      if t.fn.Some? && t.fn.value.arguments != "" {
        toolArgBuffers := toolArgBuffers[idx := BufferOf(toolArgBuffers, idx) + t.fn.value.arguments];
      }
    }

    method EmitTools(ts: seq<ToolFragment>, results: seq<Event>) returns (out: seq<Event>)
      modifies this
      ensures Out(View(), out) == Out(Tools(old(View()), ts).st, results + Tools(old(View()), ts).events)
    {
      out := results;
      ghost var was := View();
      for i := 0 to |ts|
        invariant View() == Tools(was, ts[..i]).st
        invariant out == results + Tools(was, ts[..i]).events
      {
        ToolsNext(was, ts, i, results);
        out := EmitTool(ts[i], out);
      }
      assert ts[..|ts|] == ts;
    }

    /** The range over state.ToolCalls in the finish step. */
    method CloseToolCalls(san: Sanitizer, order: seq<int>, results: seq<Event>) returns (out: seq<Event>)
      requires forall k :: k in order ==> k in toolCalls
      ensures out == results + CloseTools(san, View(), order)
    {
      out := results;
      for i := 0 to |order|
        invariant out == results + CloseTools(san, View(), order[..i])
      {
        var idx := order[i];
        var toolInfo := toolCalls[idx];
        var sanitized := san(toolInfo.name, BufferOf(toolArgBuffers, idx));
        out := out + [BlockDelta(toolInfo.blockIndex, InputJsonDelta(sanitized))];
        out := out + [BlockStop(toolInfo.blockIndex)];
        assert order[..i + 1][..i] == order[..i];
      }
      assert order[..|order|] == order;
    }

    method EmitMessageEnd(reason: string, results: seq<Event>) returns (out: seq<Event>)
      modifies this
      ensures View() == old(View()).(finishReason := reason)
      ensures out == results + MessageEnd(old(View()), reason)
      ensures |out| == |results| + 2 && out[|results|].MessageDelta? && StopFits(out[|results|].stopReason, reason)
    {
      finishReason := reason;
      var inputTokens, outputTokens := 0, 0;
      if usage.Some? {
        inputTokens, outputTokens := usage.value.promptTokens, usage.value.completionTokens;
      }
      out := results + [MessageDelta(ClaudeStop(reason), inputTokens, outputTokens)];
      out := out + [MessageStop];
    }

    method EmitFinish(san: Sanitizer, reason: string, order: seq<int>, results: seq<Event>) returns (out: seq<Event>)
      requires forall k :: k in order ==> k in toolCalls
      modifies this
      ensures Out(View(), out) == Out(Finish(san, old(View()), reason, order).st,
                                      results + Finish(san, old(View()), reason, order).events)
    {
      ghost var a := StopThinking(View());
      ghost var b := StopText(a.st);
      out := StopThinkingBlock(results);
      out := StopTextBlock(out);
      out := CloseToolCalls(san, order, out);
      ghost var closing := CloseTools(san, b.st, order);
      assert out == results + a.events + b.events + closing;
      out := EmitMessageEnd(reason, out);
      Associate(results, a.events, b.events, closing, MessageEnd(b.st, reason));
    }

    /** Everything a chunk does before its finish reason is looked at. */
    method EmitBody(chunk: Chunk) returns (results: seq<Event>)
      modifies this
      ensures Out(View(), results) == Body(old(View()), chunk)
    {
      results := [];
      if !created {
        if chunk.choices == [] {
          return;
        }
        created := true;
      }
      usage := MergeUsage(usage, chunk.usage);
      if !messageStartSent {
        messageStartSent := true;
        results := [MessageStart];
      }
      if chunk.choices == [] {
        return;
      }
      var delta := chunk.choices[0].delta;
      ghost var a := Out(View(), results);
      results := EmitReasoning(delta.ReasoningText(), results);
      ghost var r := Reason(a.st, delta.ReasoningText());
      results := EmitContent(delta.content, results);
      ghost var s := Say(r.st, delta.content);
      assert results == a.events + r.events + s.events;
      results := EmitTools(delta.toolCalls, results);
    }

    /** TranslateOpenAIToClaudeStreamSession after decoding: the events for one chunk. */
    method Translate(san: Sanitizer, chunk: Chunk) returns (results: seq<Event>, order: seq<int>)
      modifies this
      ensures OrderFits(old(View()), chunk, order)
      ensures Out(View(), results) == Step(san, old(View()), chunk, order)
    {
      order := [];
      results := EmitBody(chunk);
      if chunk.choices != [] && chunk.choices[0].finishReason.Some? {
        order := RangeOrder(toolCalls.Keys);
        results := EmitFinish(san, chunk.choices[0].finishReason.value, order, results);
      }
    }
  }
}
