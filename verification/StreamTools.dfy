/** Streaming and non-streaming agreement on tool calls, whatever fragments the upstream sends. */
module StreamTools {
  import opened Prelude
  import opened ClaudeStream
  import opened StreamProtocol
  import opened Aggregation
  import opened StreamAgreement
  import opened ToolFragments

  // ---------- The aggregated calls ----------

  lemma {:induction false} ChunksGather(run: seq<Arrival>)
    ensures Gathers(FoldChunks(Chunks(run)), AllFragments(run))
  {
    if run == [] {
      assert forall k :: EntryOf(EMPTY, k) == Entry("", "", "");
    } else {
      var init, c := run[..|run| - 1], run[|run| - 1].chunk;
      ChunksGather(init);
      ChunksSnoc(run);
      if c.choices == [] {
        assert AllFragments(init) + [] == AllFragments(init);
      } else {
        var f := FoldChunks(Chunks(init));
        assert forall k :: EntryOf(ProseFold(f, c), k) == EntryOf(f, k);
        GathersAll(ProseFold(f, c), AllFragments(init), c.Fragments());
      }
    }
  }

  /** Call number j of the aggregated message is what the fragments say of the j-th index seen. */
  lemma {:induction false} CallTells(run: seq<Arrival>, j: nat)
    ensures var calls, ts := Aggregate(Chunks(run)).toolCalls, AllFragments(run);
      && |calls| == |FirstSeen(ts)|
      && (j < |calls| ==>
            var k := FirstSeen(ts)[j];
            calls[j] == Entry(IdOf(ts, k), SpelledOf(ts, k), ArgumentsOf(ts, k)))
  {
    var f := FoldChunks(Chunks(run));
    ChunksGather(run);
    ListedLength(f, f.slots);
    if j < |f.slots| {
      ListedAt(f, f.slots, j);
      assert EntryOf(f, f.slots[j]) == Listed(f, f.slots)[j];
    }
  }

  lemma {:induction false} ToolBlockAt(san: Sanitizer, es: seq<Entry>, j: nat)
    ensures |ToolBlocks(san, es)| == |es|
    ensures j < |es| ==> ToolBlocks(san, es)[j] == ToolBlock(san, es[j])
  {
    if es != [] {
      ToolBlockAt(san, es[..|es| - 1], j);
    }
  }

  lemma {:induction false} WholeToolsAre(san: Sanitizer, run: seq<Arrival>)
    ensures ToolBlocks(san, Aggregate(Chunks(run)).toolCalls) == WholeTools(san, AllFragments(run))
  {
    var calls := Aggregate(Chunks(run)).toolCalls;
    CallTells(run, 0);
    ToolBlockAt(san, calls, 0);
    forall j | 0 <= j < |calls|
      ensures ToolBlocks(san, calls)[j] == WholeTools(san, AllFragments(run))[j]
    {
      CallTells(run, j);
      ToolBlockAt(san, calls, j);
    }
  }

  // ---------- The streamed calls ----------

  ghost predicate Quiet(es: seq<Event>) {
    forall i :: InputOf(es, i) == ""
  }

  ghost predicate SameToolState(st: State, st': State) {
    && st'.toolCalls == st.toolCalls && st'.toolArgBuffers == st.toolArgBuffers
    && st'.nextBlockIndex >= st.nextBlockIndex
  }

  ghost predicate ShowsAt(st: State, s: Start, u: ToolFragment) {
    s.id == u.id && s.name == AnnouncedName(u) && s.index < st.nextBlockIndex
  }

  /** starts lists the tool blocks streamed so far: one for every fragment of ts with an id. The state
      knows the last one of each index, and buffers all the arguments. */
  ghost predicate Shows(st: State, starts: seq<Start>, ts: seq<ToolFragment>) {
    && |starts| == |Openers(ts)| == |Openings(ts)|
    && (forall j :: 0 <= j < |starts| ==> ShowsAt(st, starts[j], Openers(ts)[j]))
    && (forall i, j :: 0 <= i < j < |starts| ==> starts[i].index != starts[j].index)
    && (forall k :: k in st.toolCalls ==> k in Openings(ts))
    && (forall j :: 0 <= j < |starts| && IsLast(Openings(ts), j) ==> KnownAt(st, starts[j], Openings(ts)[j]))
    && (forall k :: BufferOf(st.toolArgBuffers, k) == ArgumentsOf(ts, k))
  }

  ghost predicate KnownAt(st: State, s: Start, slot: int) {
    slot in st.toolCalls && st.toolCalls[slot] == ToolCallState(s.id, s.name, s.index)
  }

  lemma ToolRegisters(st: State, t: ToolFragment)
    requires t.id != ""
    ensures Tool(st, t).st.nextBlockIndex == st.nextBlockIndex + 1
    ensures Tool(st, t).st.toolCalls ==
            st.toolCalls[t.Slot() := ToolCallState(t.id, ToolName(t.id, t.Name()), st.nextBlockIndex)]
    ensures Tool(st, t).st.toolArgBuffers == BufferArguments(st, t).toolArgBuffers
  {
  }

  lemma BufferedAt(st: State, t: ToolFragment, k: int)
    ensures BufferOf(BufferArguments(st, t).toolArgBuffers, k) ==
            BufferOf(st.toolArgBuffers, k) + if t.Slot() == k then t.Arguments() else ""
  {
    assert BufferOf(st.toolArgBuffers, k) + "" == BufferOf(st.toolArgBuffers, k);
  }

  lemma Buffered(st: State, ts: seq<ToolFragment>, t: ToolFragment)
    requires forall k :: BufferOf(st.toolArgBuffers, k) == ArgumentsOf(ts, k)
    ensures forall k :: BufferOf(BufferArguments(st, t).toolArgBuffers, k) == ArgumentsOf(ts + [t], k)
  {
    forall k
      ensures BufferOf(BufferArguments(st, t).toolArgBuffers, k) == ArgumentsOf(ts + [t], k)
    {
      BufferedAt(st, t, k);
      FragmentsSnoc(ts, t, k);
    }
  }

  lemma ShowsThrough(st: State, starts: seq<Start>, ts: seq<ToolFragment>, st': State)
    requires Shows(st, starts, ts) && SameToolState(st, st')
    ensures Shows(st', starts, ts)
  {
    assert forall j :: 0 <= j < |starts| && ShowsAt(st, starts[j], Openers(ts)[j]) ==>
        ShowsAt(st', starts[j], Openers(ts)[j]);
    assert forall j :: 0 <= j < |starts| && KnownAt(st, starts[j], Openings(ts)[j]) ==>
        KnownAt(st', starts[j], Openings(ts)[j]);
  }

  lemma ShowsPlainFragment(st: State, starts: seq<Start>, ts: seq<ToolFragment>, t: ToolFragment)
    requires Shows(st, starts, ts) && t.id == ""
    ensures Shows(Tool(st, t).st, starts, ts + [t])
  {
    Buffered(st, ts, t);
    OpenersSnoc(ts, t);
    var st' := Tool(st, t).st;
    assert Openers(ts + [t]) == Openers(ts) && Openings(ts + [t]) == Openings(ts);
    assert forall j :: 0 <= j < |starts| && ShowsAt(st, starts[j], Openers(ts)[j]) ==>
        ShowsAt(st', starts[j], Openers(ts)[j]);
    assert forall j :: 0 <= j < |starts| && KnownAt(st, starts[j], Openings(ts)[j]) ==>
        KnownAt(st', starts[j], Openings(ts)[j]);
  }

  lemma ShowsOpener(st: State, starts: seq<Start>, ts: seq<ToolFragment>, t: ToolFragment)
    requires Shows(st, starts, ts) && t.id != ""
    ensures Shows(Tool(st, t).st, starts + [Start(st.nextBlockIndex, t.id, AnnouncedName(t))], ts + [t])
  {
    var st', s := Tool(st, t).st, Start(st.nextBlockIndex, t.id, AnnouncedName(t));
    ToolRegisters(st, t);
    Buffered(st, ts, t);
    OpenersSnoc(ts, t);
    StartsShow(st, starts, ts, t, st', s);
    StartsKnown(st, starts, ts, t, st', s);
  }

  lemma StartsShow(st: State, starts: seq<Start>, ts: seq<ToolFragment>, t: ToolFragment, st': State, s: Start)
    requires Shows(st, starts, ts) && st.nextBlockIndex == s.index < st'.nextBlockIndex && ShowsAt(st', s, t)
    ensures forall j :: 0 <= j < |starts| + 1 ==> ShowsAt(st', (starts + [s])[j], (Openers(ts) + [t])[j])
    ensures forall i, j :: 0 <= i < j < |starts| + 1 ==> (starts + [s])[i].index != (starts + [s])[j].index
  {
    forall j | 0 <= j < |starts| + 1
      ensures ShowsAt(st', (starts + [s])[j], (Openers(ts) + [t])[j])
    {
      if j < |starts| {
        assert ShowsAt(st, starts[j], Openers(ts)[j]);
      }
    }
    forall i, j | 0 <= i < j < |starts| + 1
      ensures (starts + [s])[i].index != (starts + [s])[j].index
    {
      assert ShowsAt(st, starts[i], Openers(ts)[i]);
      if j < |starts| {
        assert starts[i].index != starts[j].index;
      }
    }
  }

  /** A slot opened once more is no longer last where it was. */
  lemma LastBefore(slots: seq<int>, k: int, j: nat)
    requires j < |slots| && IsLast(slots + [k], j)
    ensures slots[j] != k && IsLast(slots, j)
  {
    assert (slots + [k])[j + 1..] == slots[j + 1..] + [k];
    assert k in slots[j + 1..] + [k];
  }

  lemma StartsKnown(st: State, starts: seq<Start>, ts: seq<ToolFragment>, t: ToolFragment, st': State, s: Start)
    requires Shows(st, starts, ts)
    requires st'.toolCalls == st.toolCalls[t.Slot() := ToolCallState(s.id, s.name, s.index)]
    ensures var slots := Openings(ts) + [t.Slot()];
      && (forall j :: 0 <= j < |starts| + 1 && IsLast(slots, j) ==> KnownAt(st', (starts + [s])[j], slots[j]))
      && (forall k :: k in st'.toolCalls ==> k in slots)
  {
    var slots := Openings(ts) + [t.Slot()];
    assert slots[|starts|] == t.Slot();
    forall j | 0 <= j < |starts| + 1 && IsLast(slots, j)
      ensures KnownAt(st', (starts + [s])[j], slots[j])
    {
      if j < |starts| {
        LastBefore(Openings(ts), t.Slot(), j);
        assert KnownAt(st, starts[j], Openings(ts)[j]);
      }
    }
  }

  lemma {:induction false} ShowsTools(st: State, starts: seq<Start>, past: seq<ToolFragment>, ts: seq<ToolFragment>)
    requires Shows(st, starts, past)
    ensures Shows(Tools(st, ts).st, starts + Seen(Tools(st, ts).events).starts, past + ts)
  {
    if ts == [] {
      assert past + ts == past && starts + [] == starts;
    } else {
      var init, t := ts[..|ts| - 1], ts[|ts| - 1];
      assert ts == init + [t];
      Assoc(past, init, [t]);
      ShowsTools(st, starts, past, init);
      ShowsNext(starts, Tools(st, init), past + init, t);
    }
  }

  lemma ShowsNext(starts: seq<Start>, a: Out, ts: seq<ToolFragment>, t: ToolFragment)
    requires Shows(a.st, starts + Seen(a.events).starts, ts)
    ensures Shows(Tool(a.st, t).st, starts + Seen(a.events + Tool(a.st, t).events).starts, ts + [t])
  {
    var b := Tool(a.st, t);
    var was := starts + Seen(a.events).starts;
    SeenAppend(a.events, b.events);
    Assoc(starts, Seen(a.events).starts, Seen(b.events).starts);
    ToolReads(a.st, t, 0);
    if t.id == "" {
      assert was + [] == was;
      ShowsPlainFragment(a.st, was, ts, t);
    } else {
      ShowsOpener(a.st, was, ts, t);
    }
  }

  lemma ReasonKeepsTools(st: State, text: string)
    ensures SameToolState(st, Reason(st, text).st)
  {
  }

  lemma SayKeepsTools(st: State, text: string)
    ensures SameToolState(st, Say(st, text).st)
  {
  }

  lemma ProseKeepsTools(st: State, c: Chunk)
    requires c.choices != []
    ensures SameToolState(st, Prose(st, c).st)
  {
    var a := Announce(st.(created := true, usage := MergeUsage(st.usage, c.usage)));
    ReasonKeepsTools(a.st, c.choices[0].delta.ReasoningText());
    SayKeepsTools(Reason(a.st, c.choices[0].delta.ReasoningText()).st, c.choices[0].delta.content);
  }

  lemma BodyStarts(st: State, c: Chunk)
    requires c.choices != []
    ensures var t := Tools(Prose(st, c).st, c.choices[0].delta.toolCalls);
      Body(st, c).st == t.st && Seen(Body(st, c).events).starts == Seen(t.events).starts
  {
    var s := Prose(st, c);
    var t := Tools(s.st, c.choices[0].delta.toolCalls);
    ProseReads(st, c, 0);
    SeenAppend(s.events, t.events);
    assert Body(st, c) == Out(t.st, s.events + t.events);
  }

  lemma BodyQuiet(st: State, c: Chunk, i: nat)
    ensures InputOf(Body(st, c).events, i) == ""
  {
    if c.choices == [] {
      SeenOne(MessageStart, i);
    } else {
      var s := Prose(st, c);
      ProseReads(st, c, i);
      ToolsRead(s.st, c.choices[0].delta.toolCalls, i);
      InputAppend(s.events, Tools(s.st, c.choices[0].delta.toolCalls).events, i);
    }
  }

  lemma ShowsBody(st: State, starts: seq<Start>, past: seq<ToolFragment>, c: Chunk)
    requires Shows(st, starts, past)
    ensures Shows(Body(st, c).st, starts + Seen(Body(st, c).events).starts, past + c.Fragments())
  {
    if c.choices == [] {
      assert past + c.Fragments() == past;
      SeenOne(MessageStart, 0);
      ShowsThrough(st, starts, past, Body(st, c).st);
      assert starts + Seen(Body(st, c).events).starts == starts;
    } else {
      ProseKeepsTools(st, c);
      ShowsThrough(st, starts, past, Prose(st, c).st);
      ShowsTools(Prose(st, c).st, starts, past, c.Fragments());
      BodyStarts(st, c);
    }
  }

  /** Up to the finish step the stream has opened a block for every id and streamed no argument. */
  lemma {:induction false} OpenRunShows(san: Sanitizer, run: seq<Arrival>)
    requires Valid(san, run)
    requires forall i :: 0 <= i < |run| ==> !run[i].chunk.Finishes()
    ensures Shows(Run(san, run).st, Seen(Run(san, run).events).starts, AllFragments(run))
    ensures Quiet(Run(san, run).events)
  {
    if run != [] {
      var init, last := run[..|run| - 1], run[|run| - 1];
      var a := Run(san, init);
      OpenRunShows(san, init);
      ShowsBody(a.st, Seen(a.events).starts, AllFragments(init), last.chunk);
      SeenAppend(a.events, Body(a.st, last.chunk).events);
      forall i: nat
        ensures InputOf(Run(san, run).events, i) == ""
      {
        BodyQuiet(a.st, last.chunk, i);
        InputAppend(a.events, Body(a.st, last.chunk).events, i);
      }
    }
  }

  // ---------- The finish step ----------

  /** The finish step streams each tool's arguments once, on that tool's own block. */
  lemma {:induction false} ClosingInput(san: Sanitizer, st: State, order: seq<int>, slot: int)
    requires slot in st.toolCalls && forall k :: k in order ==> k in st.toolCalls
    requires NoDuplicates(order)
    requires forall k :: k in st.toolCalls && k != slot ==> st.toolCalls[k].blockIndex != st.toolCalls[slot].blockIndex
    ensures InputOf(CloseTools(san, st, order), st.toolCalls[slot].blockIndex) ==
            if slot in order then san(st.toolCalls[slot].name, BufferOf(st.toolArgBuffers, slot)) else ""
  {
    if order != [] {
      var init, k := order[..|order| - 1], order[|order| - 1];
      var i := st.toolCalls[slot].blockIndex;
      ClosingInput(san, st, init, slot);
      var ce := CloseTool(san, st, k);
      InputAppend(CloseTools(san, st, init), ce, i);
      InputAppend([ce[0]], [ce[1]], i);
      assert ce == [ce[0]] + [ce[1]];
      SeenOne(ce[0], i);
      SeenOne(ce[1], i);
      assert slot in order <==> slot in init || slot == k;
    }
  }

  /** And nothing on a block that no tool call owns. */
  lemma {:induction false} ClosingElsewhere(san: Sanitizer, st: State, order: seq<int>, i: nat)
    requires forall k :: k in order ==> k in st.toolCalls && st.toolCalls[k].blockIndex != i
    ensures InputOf(CloseTools(san, st, order), i) == ""
  {
    if order != [] {
      var init, k := order[..|order| - 1], order[|order| - 1];
      ClosingElsewhere(san, st, init, i);
      var ce := CloseTool(san, st, k);
      InputAppend(CloseTools(san, st, init), ce, i);
      SeenPair(ce[0], ce[1], i);
      SeenOne(ce[0], i);
      SeenOne(ce[1], i);
    }
  }

  lemma FinishInput(san: Sanitizer, st: State, reason: string, order: seq<int>, i: nat)
    requires forall k :: k in order ==> k in st.toolCalls
    ensures InputOf(Finish(san, st, reason, order).events, i) == InputOf(CloseTools(san, st, order), i)
  {
    var a := StopThinking(st);
    var b := StopText(a.st);
    var closing, ending := CloseTools(san, b.st, order), MessageEnd(b.st, reason);
    StopsAreSilent(st, i);
    StopsAreSilent(a.st, i);
    SameClosing(san, st, b.st, order);
    SeenTwo(ending, i);
    SilentPrefix(a.events, b.events, i);
    SilentPrefix(a.events + b.events, closing, i);
    SilentSuffix(a.events + b.events + closing, ending, i);
  }

  lemma {:induction false} SameClosing(san: Sanitizer, st: State, st': State, order: seq<int>)
    requires st'.toolCalls == st.toolCalls && st'.toolArgBuffers == st.toolArgBuffers
    requires forall k :: k in order ==> k in st.toolCalls
    ensures CloseTools(san, st', order) == CloseTools(san, st, order)
  {
    if order != [] {
      SameClosing(san, st, st', order[..|order| - 1]);
    }
  }

  lemma {:induction false} LastOf(slots: seq<int>, k: int) returns (j: nat)
    requires k in slots
    ensures j < |slots| && slots[j] == k && IsLast(slots, j)
  {
    j := |slots| - 1;
    while slots[j] != k
      invariant 0 <= j < |slots|
      invariant k in slots[..j + 1] && k !in slots[j + 1..]
      decreases j
    {
      assert slots[..j + 1] == slots[..j] + [slots[j]];
      assert slots[j..] == [slots[j]] + slots[j + 1..];
      j := j - 1;
    }
  }

  /** Every tool call of the state owns the block of the last opener of its index. */
  lemma OwnsLast(st: State, starts: seq<Start>, ts: seq<ToolFragment>, k: int) returns (j: nat)
    requires Shows(st, starts, ts) && k in st.toolCalls
    ensures j < |starts| && Openings(ts)[j] == k && IsLast(Openings(ts), j)
    ensures st.toolCalls[k].blockIndex == starts[j].index
  {
    j := LastOf(Openings(ts), k);
    assert KnownAt(st, starts[j], k);
  }

  /** What the finish step sends on the block of opener j. */
  lemma InputOfOpener(san: Sanitizer, st: State, starts: seq<Start>, ts: seq<ToolFragment>, order: seq<int>, j: nat)
    requires Shows(st, starts, ts) && Enumerates(order, st.toolCalls.Keys) && j < |starts|
    ensures ClosedTool(san, st, order, starts[j]) == SentTool(san, ts, j)
  {
    var slot := Openings(ts)[j];
    OpenersAre(ts);
    assert ShowsAt(st, starts[j], Openers(ts)[j]);
    forall k | k in st.toolCalls && !(k == slot && IsLast(Openings(ts), j))
      ensures st.toolCalls[k].blockIndex != starts[j].index
    {
      var i := OwnsLast(st, starts, ts, k);
      if i < j {
        assert starts[i].index != starts[j].index;
      } else if j < i {
        assert starts[j].index != starts[i].index;
      }
    }
    if IsLast(Openings(ts), j) {
      assert KnownAt(st, starts[j], slot);
      assert BufferOf(st.toolArgBuffers, slot) == ArgumentsOf(ts, slot);
      ClosingInput(san, st, order, slot);
    } else {
      ClosingElsewhere(san, st, order, starts[j].index);
    }
  }

  /** The tool block s with all that the closing loop sends it. */
  function ClosedTool(san: Sanitizer, st: State, order: seq<int>, s: Start): ClaudeBlock
    requires forall k :: k in order ==> k in st.toolCalls
  {
    ToolContent(s.id, s.name, InputOf(CloseTools(san, st, order), s.index))
  }

  lemma OpenersSend(san: Sanitizer, st: State, starts: seq<Start>, ts: seq<ToolFragment>, order: seq<int>)
    requires Shows(st, starts, ts) && Enumerates(order, st.toolCalls.Keys)
    ensures |starts| == |SentTools(san, ts)|
    ensures forall j :: 0 <= j < |starts| ==> ClosedTool(san, st, order, starts[j]) == SentTools(san, ts)[j]
  {
    forall j | 0 <= j < |starts|
      ensures ClosedTool(san, st, order, starts[j]) == SentTool(san, ts, j)
    {
      InputOfOpener(san, st, starts, ts, order, j);
    }
  }

  lemma StreamedToolsFrom(es: seq<Event>, starts: seq<Start>, tools: seq<ClaudeBlock>)
    requires Seen(es).starts == starts && |starts| == |tools|
    requires forall j :: 0 <= j < |tools| ==>
               ToolContent(starts[j].id, starts[j].name, InputOf(es, starts[j].index)) == tools[j]
    ensures StreamedTools(es) == tools
  {
  }

  lemma InputBehind(es: seq<Event>, f: seq<Event>, i: nat)
    requires Quiet(es)
    ensures InputOf(es + f, i) == InputOf(f, i)
  {
    InputAppend(es, f, i);
    assert InputOf(es, i) == "";
  }

  lemma ToolsAfterFinish(san: Sanitizer, st: State, es: seq<Event>, ts: seq<ToolFragment>, reason: string,
      order: seq<int>)
    requires Shows(st, Seen(es).starts, ts) && Quiet(es) && Enumerates(order, st.toolCalls.Keys)
    ensures StreamedTools(es + Finish(san, st, reason, order).events) == SentTools(san, ts)
  {
    var starts, tools, f := Seen(es).starts, SentTools(san, ts), Finish(san, st, reason, order).events;
    OpenersSend(san, st, starts, ts, order);
    FinishReads(san, st, reason, order);
    SilentSuffix(es, f, 0);
    forall j | 0 <= j < |tools|
      ensures ToolContent(starts[j].id, starts[j].name, InputOf(es + f, starts[j].index)) == tools[j]
    {
      assert ClosedTool(san, st, order, starts[j]) == tools[j];
      InputBehind(es, f, starts[j].index);
      FinishInput(san, st, reason, order, starts[j].index);
    }
    StreamedToolsFrom(es + f, starts, tools);
  }

  lemma {:induction false} RunQuiet(san: Sanitizer, run: seq<Arrival>, c: Chunk, i: nat)
    requires Valid(san, run) && Quiet(Run(san, run).events)
    ensures InputOf(Run(san, run).events + Body(Run(san, run).st, c).events, i) == ""
  {
    var a := Run(san, run);
    assert InputOf(a.events, i) == "";
    BodyQuiet(a.st, c, i);
    InputAppend(a.events, Body(a.st, c).events, i);
  }

  /** The streamed tool blocks, on every finished run: one for each fragment with an id, holding the
      sanitized arguments of its index if no later one took the index over, and nothing if one did. */
  lemma {:induction false} StreamedToolsAre(san: Sanitizer, run: seq<Arrival>)
    requires Valid(san, run) && EndsWithFinish(run)
    ensures StreamedTools(Run(san, run).events) == SentTools(san, AllFragments(run))
  {
    var init, last := run[..|run| - 1], run[|run| - 1];
    var a := Run(san, init);
    OpenRunShows(san, init);
    var c := Body(a.st, last.chunk);
    var es := a.events + c.events;
    forall i: nat
      ensures InputOf(es, i) == ""
    {
      RunQuiet(san, init, last.chunk, i);
    }
    ShowsBody(a.st, Seen(a.events).starts, AllFragments(init), last.chunk);
    SeenAppend(a.events, c.events);
    FinishSplits(san, run);
    ToolsAfterFinish(san, c.st, es, AllFragments(run), last.chunk.choices[0].finishReason.value, last.order);
  }

  // ---------- The two together ----------

  /** Tool calls agree if and only if they match; when no two tool indices share an id that is when
      every index gets one id, in the order of first appearance, and with it its whole name, and is
      given arguments. */
  lemma {:induction false} ToolsAgreeIff(san: Sanitizer, run: seq<Arrival>)
    requires Valid(san, run) && EndsWithFinish(run)
    requires forall n :: san(n, "") == ""
    ensures StreamedTools(Run(san, run).events) == ToolBlocks(san, Aggregate(Chunks(run)).toolCalls)
            <==> CallsMatch(san, AllFragments(run))
    ensures UniqueIds(AllFragments(run)) ==> (CallsMatch(san, AllFragments(run)) <==> CallsInTurn(AllFragments(run)))
  {
    StreamedToolsAre(san, run);
    WholeToolsAre(san, run);
    SameToolsIff(san, AllFragments(run));
    if UniqueIds(AllFragments(run)) {
      InTurnIff(san, AllFragments(run));
    }
  }

  lemma PrintableIff(san: Sanitizer, isJson: JsonTest, m: Message)
    requires isJson("{}")
    ensures Printable(isJson, TranslateMessage(san, m)) <==>
            forall e :: e in m.toolCalls && e.arguments != "" ==> isJson(san(ToolName(e.id, e.name), e.arguments))
  {
    var blocks, tools := TranslateMessage(san, m), ToolBlocks(san, m.toolCalls);
    ToolBlockAt(san, m.toolCalls, 0);
    forall e | e in m.toolCalls
      ensures ToolBlock(san, e) in blocks
    {
      var j :| 0 <= j < |m.toolCalls| && m.toolCalls[j] == e;
      ToolBlockAt(san, m.toolCalls, j);
      assert tools[j] in tools;
    }
    forall b | b in blocks && b.ToolContent?
      ensures exists e :: e in m.toolCalls && b == ToolBlock(san, e)
    {
      assert b in tools;
      var j :| 0 <= j < |tools| && tools[j] == b;
      ToolBlockAt(san, m.toolCalls, j);
      assert m.toolCalls[j] in m.toolCalls;
    }
  }

  /** What the sanitizer makes of the arguments given to a tool index is JSON. */
  ghost predicate AllJson(san: Sanitizer, isJson: JsonTest, ts: seq<ToolFragment>) {
    forall k :: k in Slots(ts) && ArgumentsOf(ts, k) != "" ==> isJson(san(FullName(ts, k), ArgumentsOf(ts, k)))
  }

  /** The non-streaming road answers if and only if the arguments of every tool index are JSON; the
      streaming one has sent them by then, whatever they are. */
  lemma {:induction false} ReplyExistsIff(san: Sanitizer, isJson: JsonTest, run: seq<Arrival>)
    requires isJson("{}")
    ensures ReplyTo(san, isJson, [Aggregate(Chunks(run))]).Ok? <==> AllJson(san, isJson, AllFragments(run))
  {
    var m, ts := Aggregate(Chunks(run)), AllFragments(run);
    PrintableIff(san, isJson, m);
    FirstSeenIs(ts);
    CallTells(run, 0);
    forall j | 0 <= j < |m.toolCalls|
      ensures var k := FirstSeen(ts)[j];
        m.toolCalls[j] == Entry(IdOf(ts, k), SpelledOf(ts, k), ArgumentsOf(ts, k))
    {
      CallTells(run, j);
    }
    forall k | k in Slots(ts)
      ensures Entry(IdOf(ts, k), SpelledOf(ts, k), ArgumentsOf(ts, k)) in m.toolCalls
    {
      var j :| 0 <= j < |FirstSeen(ts)| && FirstSeen(ts)[j] == k;
      assert m.toolCalls[j] in m.toolCalls;
    }
  }

  lemma AssembleInjective(th: string, text: string, tools: seq<ClaudeBlock>, th': string, tools': seq<ClaudeBlock>)
    requires forall j :: 0 <= j < |tools| ==> tools[j].ToolContent?
    requires forall j :: 0 <= j < |tools'| ==> tools'[j].ToolContent?
    ensures Assemble(th, text, tools) == Assemble(th', text, tools') <==> th == th' && tools == tools'
  {
    var a, b := Assemble(th, text, tools), Assemble(th', text, tools');
    if a == b {
      var n := (if th == "" then 0 else 1) + (if text == "" then 0 else 1);
      var n' := (if th' == "" then 0 else 1) + (if text == "" then 0 else 1);
      assert th == "" <==> a == [] || !a[0].ThinkingContent?;
      assert th' == "" <==> b == [] || !b[0].ThinkingContent?;
      assert n == n';
      assert a[n..] == tools && b[n'..] == tools';
    }
  }

  lemma ToolBlocksAreTools(san: Sanitizer, es: seq<Entry>)
    ensures forall b :: b in ToolBlocks(san, es) ==> b.ToolContent?
  {
    ToolBlockAt(san, es, 0);
    forall b | b in ToolBlocks(san, es)
      ensures b.ToolContent?
    {
      var j :| 0 <= j < |ToolBlocks(san, es)| && ToolBlocks(san, es)[j] == b;
      ToolBlockAt(san, es, j);
    }
  }

  /** Reading the streamed events kind by kind (all thinking, all text, the tools) gives the content
      of the other road if and only if no reasoning hides in the ignored field and the calls match. */
  lemma {:induction false} PartsAgreeIff(san: Sanitizer, run: seq<Arrival>)
    requires Valid(san, run) && EndsWithFinish(run)
    requires forall n :: san(n, "") == ""
    ensures AsMessage(Run(san, run).events) == TranslateMessage(san, Aggregate(Chunks(run)))
            <==> (forall i :: 0 <= i < |run| ==> !ReasonsElsewhere(run[i].chunk)) && CallsMatch(san, AllFragments(run))
  {
    var m := Aggregate(Chunks(run));
    var es := Run(san, run).events;
    TextAgrees(san, run);
    ThinkingAgreesIff(san, run);
    ToolsAgreeIff(san, run);
    ToolBlocksAreTools(san, m.toolCalls);
    AssembleInjective(Seen(es).thinking, m.content, StreamedTools(es),
                      m.reasoningContent, ToolBlocks(san, m.toolCalls));
  }
}
