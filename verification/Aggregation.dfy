/** The other road to a Claude message: fold the whole chunk stream into one OpenAI message
    (sseToOpenAIJSON, internal/proxy/executor/codebuddy.go) and translate that
    (TranslateOpenAIToClaude, internal/translator/response.go). */
module Aggregation {
  import opened Prelude
  import opened ClaudeStream

  datatype Entry = Entry(id: string, name: string, arguments: string)

  /** An absent finish reason is "". */
  datatype Message = Message(content: string, reasoningContent: string, reasoning: string, toolCalls: seq<Entry>,
                             finishReason: string)
  {
    function ReasoningText(): string {
      if reasoningContent != "" then reasoningContent else reasoning
    }
  }

  /** A data line after decoding: a chunk, or an object with an `error`, whose detail is kept only
      when it is an object itself. */
  datatype Payload = Piece(chunk: Chunk) | Problem(detail: Option<string>)

  datatype Aggregated = NotSse | StreamError(detail: string) | Complete(message: Message)

  // ---------- Folding chunks into a message ----------

  /** slots lists the tool indices in order of first appearance. */
  datatype Fold = Fold(content: string, reasoning: string, slots: seq<int>, entries: map<int, Entry>,
                       finishReason: string)

  const EMPTY := Fold("", "", [], map[], "stop")

  function EntryOf(f: Fold, slot: int): Entry {
    if slot in f.entries then f.entries[slot] else Entry("", "", "")
  }

  function Merge(e: Entry, t: ToolFragment): Entry {
    Entry(if t.id != "" then t.id else e.id, e.name + t.Name(), e.arguments + t.Arguments())
  }

  function FoldTool(f: Fold, t: ToolFragment): Fold {
    f.(slots := if t.Slot() in f.entries then f.slots else f.slots + [t.Slot()],
       entries := f.entries[t.Slot() := Merge(EntryOf(f, t.Slot()), t)])
  }

  function FoldTools(f: Fold, ts: seq<ToolFragment>): Fold {
    if ts == [] then f else FoldTool(FoldTools(f, ts[..|ts| - 1]), ts[|ts| - 1])
  }

  function FoldChunk(f: Fold, c: Chunk): Fold {
    if c.choices == [] then f
    else
      var d := c.choices[0].delta;
      var g := f.(content := f.content + d.content, reasoning := f.reasoning + d.reasoningContent,
                  finishReason := if c.Finishes() then c.choices[0].finishReason.value else f.finishReason);
      FoldTools(g, d.toolCalls)
  }

  function FoldChunks(chunks: seq<Chunk>): Fold {
    if chunks == [] then EMPTY else FoldChunk(FoldChunks(chunks[..|chunks| - 1]), chunks[|chunks| - 1])
  }

  function Listed(f: Fold, slots: seq<int>): seq<Entry> {
    if slots == [] then [] else Listed(f, slots[..|slots| - 1]) + [EntryOf(f, slots[|slots| - 1])]
  }

  function Aggregate(chunks: seq<Chunk>): Message {
    var f := FoldChunks(chunks);
    Message(f.content, f.reasoning, "", Listed(f, f.slots), f.finishReason)
  }

  function Pieces(ps: seq<Payload>): seq<Chunk> {
    if ps == [] then []
    else Pieces(ps[..|ps| - 1]) + (if ps[|ps| - 1].Piece? then [ps[|ps| - 1].chunk] else [])
  }

  /** The last problem decides, and one without detail takes an earlier one back. */
  function LastProblem(ps: seq<Payload>): Option<string> {
    if ps == [] then None
    else match ps[|ps| - 1]
      case Piece(_) => LastProblem(ps[..|ps| - 1])
      case Problem(detail) => detail
  }

  function Collected(ps: seq<Payload>): Aggregated {
    if LastProblem(ps).Some? then StreamError(LastProblem(ps).value)
    else if Pieces(ps) == [] then NotSse
    else Complete(Aggregate(Pieces(ps)))
  }

  /** The places of the chunks among the payloads. */
  function PiecesAt(ps: seq<Payload>): seq<nat> {
    if ps == [] then []
    else PiecesAt(ps[..|ps| - 1]) + (if ps[|ps| - 1].Piece? then [|ps| - 1] else [])
  }

  /** No chunk is lost or moved. */
  lemma {:induction false} PiecesInOrder(ps: seq<Payload>)
    ensures var at, chunks := PiecesAt(ps), Pieces(ps);
      && |at| == |chunks|
      && (forall i :: 0 <= i < |at| ==> at[i] < |ps| && ps[at[i]] == Piece(chunks[i]))
      && (forall i, j :: 0 <= i < j < |at| ==> at[i] < at[j])
      && (forall k: nat :: k in at <==> k < |ps| && ps[k].Piece?)
  {
    if ps != [] {
      PiecesInOrder(ps[..|ps| - 1]);
    }
  }

  /** The last payload with an error is number i, and its detail is d. */
  predicate LastErrorAt(ps: seq<Payload>, i: nat, d: Option<string>) {
    i < |ps| && ps[i] == Problem(d) && forall j :: i < j < |ps| ==> ps[j].Piece?
  }

  lemma {:induction false} LastProblemIs(ps: seq<Payload>)
    ensures forall i: nat, d :: LastErrorAt(ps, i, d) ==> LastProblem(ps) == d
    ensures LastProblem(ps).Some? ==> exists i: nat :: LastErrorAt(ps, i, LastProblem(ps))
  {
    if ps != [] {
      var init, last := ps[..|ps| - 1], ps[|ps| - 1];
      LastProblemIs(init);
      if last.Piece? {
        assert forall i: nat, d :: i < |init| ==> (LastErrorAt(ps, i, d) <==> LastErrorAt(init, i, d));
      } else {
        assert LastErrorAt(ps, |ps| - 1, last.detail);
      }
    }
  }

  /** The body is an error if and only if its last error payload has a detail, whatever chunks there are;
      without chunks it is not a stream; otherwise they are the message. */
  lemma CollectedIs(ps: seq<Payload>)
    ensures var out := Collected(ps);
      && (out.StreamError? <==> exists i: nat, d :: LastErrorAt(ps, i, Some(d)))
      && (forall i: nat, d :: LastErrorAt(ps, i, Some(d)) ==> out == StreamError(d))
      && (!out.StreamError? ==>
            if exists k :: 0 <= k < |ps| && ps[k].Piece? then out == Complete(Aggregate(Pieces(ps))) else out == NotSse)
  {
    LastProblemIs(ps);
    PiecesInOrder(ps);
    if Pieces(ps) != [] {
      assert ps[PiecesAt(ps)[0]].Piece?;
    }
    forall k | 0 <= k < |ps| && ps[k].Piece?
      ensures Pieces(ps) != []
    {
      assert k in PiecesAt(ps);
    }
  }

  lemma {:induction false} ListedAt(f: Fold, slots: seq<int>, j: nat)
    requires j < |slots|
    ensures |Listed(f, slots)| == |slots| && Listed(f, slots)[j] == EntryOf(f, slots[j])
  {
    ListedLength(f, slots);
    ListedLength(f, slots[..|slots| - 1]);
    if j < |slots| - 1 {
      ListedAt(f, slots[..|slots| - 1], j);
    }
  }

  lemma {:induction false} ListedLength(f: Fold, slots: seq<int>)
    ensures |Listed(f, slots)| == |slots|
  {
    if slots != [] {
      ListedLength(f, slots[..|slots| - 1]);
    }
  }

  /** sseToOpenAIJSON on decoded data lines. */
  method SseToOpenAI(payloads: seq<Payload>) returns (out: Aggregated)
    ensures out == Collected(payloads)
  {
    var chunks: seq<Chunk>, streamErr: Option<string> := [], None;
    for i := 0 to |payloads|
      invariant chunks == Pieces(payloads[..i]) && streamErr == LastProblem(payloads[..i])
    {
      assert payloads[..i + 1][..i] == payloads[..i];
      match payloads[i]
      case Problem(detail) => streamErr := detail;
      case Piece(chunk) => chunks := chunks + [chunk];
    }
    assert payloads[..|payloads|] == payloads;
    if streamErr.Some? {
      return StreamError(streamErr.value);
    }
    if chunks == [] {
      return NotSse;
    }
    var msg := AggregateChunks(chunks);
    return Complete(msg);
  }

  method AggregateChunks(chunks: seq<Chunk>) returns (msg: Message)
    ensures msg == Aggregate(chunks)
  {
    var contentParts: seq<string>, reasoningParts: seq<string> := [], [];
    var toolCallIdx: map<int, Entry> := map[];
    var toolCalls: seq<int> := [];
    var finishReason := "stop";
    ghost var f := EMPTY;
    for i := 0 to |chunks|
      invariant f == FoldChunks(chunks[..i])
      invariant f == Fold(Concat(contentParts), Concat(reasoningParts), toolCalls, toolCallIdx, finishReason)
    {
      assert chunks[..i + 1][..i] == chunks[..i];
      if chunks[i].choices != [] {
        var choice := chunks[i].choices[0];
        ConcatOne(contentParts, choice.delta.content);
        ConcatOne(reasoningParts, choice.delta.reasoningContent);
        assert f.content + "" == f.content && f.reasoning + "" == f.reasoning;
        if choice.delta.content != "" {
          contentParts := contentParts + [choice.delta.content];
        }
        if choice.delta.reasoningContent != "" {
          reasoningParts := reasoningParts + [choice.delta.reasoningContent];
        }
        if choice.finishReason.Some? {
          finishReason := choice.finishReason.value;
        }
        ghost var g := Fold(Concat(contentParts), Concat(reasoningParts), toolCalls, toolCallIdx, finishReason);
        toolCalls, toolCallIdx := MergeFragments(choice.delta.toolCalls, toolCalls, toolCallIdx, g);
        assert FoldTools(g, choice.delta.toolCalls) == FoldChunk(f, chunks[i]);
      }
      f := FoldChunk(f, chunks[i]);
    }
    assert chunks[..|chunks|] == chunks;
    var entries := ListEntries(toolCalls, toolCallIdx, f);
    var content := Join(contentParts);
    var reasoning := Join(reasoningParts);
    msg := Message(content, reasoning, "", entries, finishReason);
  }

  method MergeFragments(ts: seq<ToolFragment>, slots: seq<int>, entries: map<int, Entry>, ghost f: Fold)
      returns (slots': seq<int>, entries': map<int, Entry>)
    requires f.slots == slots && f.entries == entries
    ensures FoldTools(f, ts) == f.(slots := slots', entries := entries')
  {
    slots', entries' := slots, entries;
    for i := 0 to |ts|
      invariant FoldTools(f, ts[..i]) == f.(slots := slots', entries := entries')
    {
      assert ts[..i + 1][..i] == ts[..i];
      slots', entries' := MergeFragment(ts[i], slots', entries', FoldTools(f, ts[..i]));
    }
    assert ts[..|ts|] == ts;
  }

  method MergeFragment(t: ToolFragment, slots: seq<int>, entries: map<int, Entry>, ghost f: Fold)
      returns (slots': seq<int>, entries': map<int, Entry>)
    requires f.slots == slots && f.entries == entries
    ensures FoldTool(f, t) == f.(slots := slots', entries := entries')
  {
    slots', entries' := slots, entries;
    var idx := t.Slot();
    if idx !in entries' {
      entries' := entries'[idx := Entry("", "", "")];
      slots' := slots' + [idx];
    }
    var entry := entries'[idx];
    if t.id != "" {
      entry := entry.(id := t.id);
    }
    assert entry.name + "" == entry.name && entry.arguments + "" == entry.arguments;
    if t.fn.Some? {
      entry := entry.(name := entry.name + t.fn.value.name);
      entry := entry.(arguments := entry.arguments + t.fn.value.arguments);
    }
    entries' := entries'[idx := entry];
  }

  method ListEntries(slots: seq<int>, entries: map<int, Entry>, ghost f: Fold) returns (out: seq<Entry>)
    requires f.entries == entries
    ensures out == Listed(f, slots)
  {
    out := [];
    for i := 0 to |slots|
      invariant out == Listed(f, slots[..i])
    {
      assert slots[..i + 1][..i] == slots[..i];
      out := out + [if slots[i] in entries then entries[slots[i]] else Entry("", "", "")];
    }
    assert slots[..|slots|] == slots;
  }

  method Join(parts: seq<string>) returns (s: string)
    ensures s == Concat(parts)
  {
    s := "";
    for i := 0 to |parts|
      invariant s == Concat(parts[..i])
    {
      assert parts[..i + 1] == parts[..i] + [parts[i]];
      ConcatOne(parts[..i], parts[i]);
      s := s + parts[i];
    }
    assert parts[..|parts|] == parts;
  }

  // ---------- Translating the message ----------

  datatype ClaudeBlock =
    | ThinkingContent(thinking: string)
    | TextContent(text: string)
    | ToolContent(id: string, name: string, input: string)

  function ToolBlock(san: Sanitizer, e: Entry): ClaudeBlock {
    var name := ToolName(e.id, e.name);
    ToolContent(e.id, name, if e.arguments != "" then san(name, e.arguments) else "{}")
  }

  function ToolBlocks(san: Sanitizer, es: seq<Entry>): seq<ClaudeBlock> {
    if es == [] then [] else ToolBlocks(san, es[..|es| - 1]) + [ToolBlock(san, es[|es| - 1])]
  }

  /** The content list of a Claude message: thinking, then text, each only when not empty, then tools. */
  function Assemble(thinking: string, text: string, tools: seq<ClaudeBlock>): seq<ClaudeBlock> {
    (if thinking == "" then [] else [ThinkingContent(thinking)])
    + (if text == "" then [] else [TextContent(text)])
    + tools
  }

  function TranslateMessage(san: Sanitizer, m: Message): seq<ClaudeBlock> {
    Assemble(m.ReasoningText(), m.content, ToolBlocks(san, m.toolCalls))
  }

  /** Stands for json.Valid. */
  type JsonTest = string -> bool

  /** json.Marshal refuses a raw message that is not JSON, and tool inputs are raw messages. */
  predicate Printable(isJson: JsonTest, blocks: seq<ClaudeBlock>) {
    forall b :: b in blocks && b.ToolContent? ==> isJson(b.input)
  }

  datatype Reply = Reply(content: seq<ClaudeBlock>, stopReason: string)

  datatype Failure = NoChoices | MarshalFailure

  function ReplyTo(san: Sanitizer, isJson: JsonTest, choices: seq<Message>): Result<Reply, Failure> {
    if choices == [] then Err(NoChoices)
    else if Printable(isJson, TranslateMessage(san, choices[0]))
    then Ok(Reply(TranslateMessage(san, choices[0]), ClaudeStop(choices[0].finishReason)))
    else Err(MarshalFailure)
  }

  method TranslateOpenAIToClaude(san: Sanitizer, isJson: JsonTest, choices: seq<Message>)
      returns (r: Result<Reply, Failure>)
    ensures r == ReplyTo(san, isJson, choices)
    ensures r == Err(NoChoices) <==> choices == []
    ensures r == Err(MarshalFailure) <==> choices != [] && !Printable(isJson, TranslateMessage(san, choices[0]))
    ensures r.Ok? ==> r.value.content == TranslateMessage(san, choices[0])
    ensures r.Ok? ==> StopFits(r.value.stopReason, choices[0].finishReason)
  {
    if choices == [] {
      return Err(NoChoices);
    }
    var blocks := TranslateContent(san, choices[0]);
    var stopReason := "end_turn";
    if choices[0].finishReason == "length" {
      stopReason := "max_tokens";
    } else if choices[0].finishReason == "tool_calls" {
      stopReason := "tool_use";
    }
    for i := 0 to |blocks|
      invariant forall j :: 0 <= j < i && blocks[j].ToolContent? ==> isJson(blocks[j].input)
    {
      if blocks[i].ToolContent? && !isJson(blocks[i].input) {
        return Err(MarshalFailure);
      }
    }
    return Ok(Reply(blocks, stopReason));
  }

  method TranslateProse(msg: Message) returns (blocks: seq<ClaudeBlock>)
    ensures blocks == Assemble(msg.ReasoningText(), msg.content, [])
  {
    blocks := [];
    var reasoning := msg.reasoningContent;
    if reasoning == "" {
      reasoning := msg.reasoning;
    }
    if reasoning != "" {
      blocks := blocks + [ThinkingContent(reasoning)];
    }
    if msg.content != "" {
      blocks := blocks + [TextContent(msg.content)];
    }
  }

  lemma AssembleBehind(thinking: string, text: string, tools: seq<ClaudeBlock>)
    ensures Assemble(thinking, text, []) + tools == Assemble(thinking, text, tools)
  {
  }

  method TranslateContent(san: Sanitizer, msg: Message) returns (blocks: seq<ClaudeBlock>)
    ensures blocks == TranslateMessage(san, msg)
  {
    blocks := TranslateProse(msg);
    ghost var head := blocks;
    for i := 0 to |msg.toolCalls|
      invariant blocks == head + ToolBlocks(san, msg.toolCalls[..i])
    {
      assert msg.toolCalls[..i + 1][..i] == msg.toolCalls[..i];
      var block := TranslateToolCall(san, msg.toolCalls[i]);
      Assoc(head, ToolBlocks(san, msg.toolCalls[..i]), [block]);
      blocks := blocks + [block];
    }
    assert msg.toolCalls[..|msg.toolCalls|] == msg.toolCalls;
    AssembleBehind(msg.ReasoningText(), msg.content, ToolBlocks(san, msg.toolCalls));
  }

  method TranslateToolCall(san: Sanitizer, tc: Entry) returns (block: ClaudeBlock)
    ensures block == ToolBlock(san, tc)
  {
    var toolName := tc.id;
    if tc.name != "" {
      toolName := tc.name;
    }
    toolName := CutProxyPrefix(toolName);
    var input := "{}";
    if tc.arguments != "" {
      input := san(toolName, tc.arguments);
    }
    block := ToolContent(tc.id, toolName, input);
  }

  // ---------- What a client reads out of the streamed events ----------

  datatype Start = Start(index: nat, id: string, name: string)

  datatype Digest = Digest(text: string, thinking: string, starts: seq<Start>)

  function Glance(e: Event): Digest {
    match e
    case BlockStart(i, ToolUseBlock(id, name)) => Digest("", "", [Start(i, id, name)])
    case BlockDelta(_, TextDelta(t)) => Digest(t, "", [])
    case BlockDelta(_, ThinkingDelta(t)) => Digest("", t, [])
    case _ => Digest("", "", [])
  }

  function Both(a: Digest, b: Digest): Digest {
    Digest(a.text + b.text, a.thinking + b.thinking, a.starts + b.starts)
  }

  function Seen(es: seq<Event>): Digest {
    if es == [] then Digest("", "", []) else Both(Glance(es[0]), Seen(es[1..]))
  }

  /** The concatenated input_json deltas of one block. */
  function InputOf(es: seq<Event>, i: nat): string {
    if es == [] then ""
    else InputIn(es[0], i) + InputOf(es[1..], i)
  }

  function InputIn(e: Event, i: nat): string {
    if e.BlockDelta? && e.index == i && e.piece.InputJsonDelta? then e.piece.partialJson else ""
  }

  function StreamedTools(es: seq<Event>): seq<ClaudeBlock> {
    var starts := Seen(es).starts;
    seq(|starts|, j requires 0 <= j < |starts| =>
      ToolContent(starts[j].id, starts[j].name, InputOf(es, starts[j].index)))
  }

  function AsMessage(es: seq<Event>): seq<ClaudeBlock> {
    Assemble(Seen(es).thinking, Seen(es).text, StreamedTools(es))
  }

  lemma BothAssociates(a: Digest, b: Digest, c: Digest)
    ensures Both(Both(a, b), c) == Both(a, Both(b, c))
  {
    assert a.text + b.text + c.text == a.text + (b.text + c.text);
    assert a.thinking + b.thinking + c.thinking == a.thinking + (b.thinking + c.thinking);
    assert a.starts + b.starts + c.starts == a.starts + (b.starts + c.starts);
  }

  lemma {:induction false} SeenAppend(a: seq<Event>, b: seq<Event>)
    ensures Seen(a + b) == Both(Seen(a), Seen(b))
  {
    if a == [] {
      assert a + b == b;
    } else {
      assert (a + b)[0] == a[0] && (a + b)[1..] == a[1..] + b;
      SeenAppend(a[1..], b);
      BothAssociates(Glance(a[0]), Seen(a[1..]), Seen(b));
    }
  }

  lemma {:induction false} InputAppend(a: seq<Event>, b: seq<Event>, i: nat)
    ensures InputOf(a + b, i) == InputOf(a, i) + InputOf(b, i)
  {
    if a == [] {
      assert a + b == b;
    } else {
      assert (a + b)[0] == a[0] && (a + b)[1..] == a[1..] + b;
      InputAppend(a[1..], b, i);
      Assoc(InputIn(a[0], i), InputOf(a[1..], i), InputOf(b, i));
    }
  }
}
