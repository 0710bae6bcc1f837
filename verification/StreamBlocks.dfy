/** Streaming and non-streaming agreement on the list of content blocks, their order included. */
module StreamBlocks {
  import opened Prelude
  import opened ClaudeStream
  import opened StreamProtocol
  import opened Aggregation
  import opened StreamAgreement
  import opened StreamTools
  import opened ToolFragments

  // ---------- The message a client builds from the events ----------

  datatype Opening = Opening(index: nat, block: Block)

  /** The blocks started, in order. */
  function Opened(es: seq<Event>): seq<Opening> {
    if es == [] then [] else OpenedBy(es[0]) + Opened(es[1..])
  }

  function OpenedBy(e: Event): seq<Opening> {
    if e.BlockStart? then [Opening(e.index, e.block)] else []
  }

  /** The text or thinking sent to block i. */
  function ProseOf(es: seq<Event>, i: nat): string {
    if es == [] then "" else ProseIn(es[0], i) + ProseOf(es[1..], i)
  }

  function ProseIn(e: Event, i: nat): string {
    match e
    case BlockDelta(j, TextDelta(t)) => if j == i then t else ""
    case BlockDelta(j, ThinkingDelta(t)) => if j == i then t else ""
    case _ => ""
  }

  function BlockAt(es: seq<Event>, o: Opening): ClaudeBlock {
    match o.block
    case ThinkingBlock => ThinkingContent(ProseOf(es, o.index))
    case TextBlock => TextContent(ProseOf(es, o.index))
    case ToolUseBlock(id, name) => ToolContent(id, name, InputOf(es, o.index))
  }

  /** The content list: every block started, in that order, with all it was sent. */
  function BlockList(es: seq<Event>): seq<ClaudeBlock> {
    seq(|Opened(es)|, j requires 0 <= j < |Opened(es)| => BlockAt(es, Opened(es)[j]))
  }

  lemma {:induction false} OpenedAppend(a: seq<Event>, b: seq<Event>)
    ensures Opened(a + b) == Opened(a) + Opened(b)
  {
    if a == [] {
      assert a + b == b;
    } else {
      assert (a + b)[0] == a[0] && (a + b)[1..] == a[1..] + b;
      OpenedAppend(a[1..], b);
      Assoc(OpenedBy(a[0]), Opened(a[1..]), Opened(b));
    }
  }

  lemma {:induction false} ProseAppend(a: seq<Event>, b: seq<Event>, i: nat)
    ensures ProseOf(a + b, i) == ProseOf(a, i) + ProseOf(b, i)
  {
    if a == [] {
      assert a + b == b;
    } else {
      assert (a + b)[0] == a[0] && (a + b)[1..] == a[1..] + b;
      ProseAppend(a[1..], b, i);
      Assoc(ProseIn(a[0], i), ProseOf(a[1..], i), ProseOf(b, i));
    }
  }

  // ---------- What each stage adds ----------

  /** es opens what opened says and sends text to block at and nowhere else. */
  ghost predicate Adds(es: seq<Event>, starts: seq<Opening>, at: nat, text: string) {
    Opened(es) == starts && forall i :: ProseOf(es, i) == if i == at then text else ""
  }

  ghost predicate Plain(es: seq<Event>) {
    Opened(es) == [] && forall i :: ProseOf(es, i) == ""
  }

  lemma PlainEvents()
    ensures Plain([]) && Plain([MessageStart]) && Plain([MessageStop])
    ensures forall i :: Plain([BlockStop(i)])
    ensures forall r, m, n :: Plain([MessageDelta(r, m, n)])
  {
    forall e: Event | e.MessageStart? || e.MessageStop? || e.BlockStop? || e.MessageDelta?
      ensures Plain([e])
    {
      assert [e][1..] == [];
    }
  }

  lemma PlainThen(a: seq<Event>, b: seq<Event>)
    requires Plain(a)
    ensures Opened(a + b) == Opened(b) && forall i :: ProseOf(a + b, i) == ProseOf(b, i)
  {
    OpenedAppend(a, b);
    forall i: nat
      ensures ProseOf(a + b, i) == ProseOf(b, i)
    {
      ProseAppend(a, b, i);
    }
  }

  lemma ThenPlain(a: seq<Event>, b: seq<Event>)
    requires Plain(b)
    ensures Opened(a + b) == Opened(a) && forall i :: ProseOf(a + b, i) == ProseOf(a, i)
  {
    OpenedAppend(a, b);
    forall i: nat
      ensures ProseOf(a + b, i) == ProseOf(a, i)
    {
      ProseAppend(a, b, i);
    }
  }

  lemma StopsArePlain(st: State)
    ensures Plain(StopThinking(st).events) && Plain(StopText(st).events)
  {
    PlainEvents();
  }

  lemma DeltaAdds(i: nat, d: Piece, text: string)
    requires d == TextDelta(text) || d == ThinkingDelta(text)
    ensures Adds([BlockDelta(i, d)], [], i, text)
  {
    var es := [BlockDelta(i, d)];
    assert es[1..] == [];
    forall j: nat
      ensures ProseOf(es, j) == if j == i then text else ""
    {
      assert ProseOf(es, j) == ProseIn(es[0], j) + ProseOf(es[1..], j);
    }
  }

  lemma StartAdds(i: nat, b: Block)
    ensures Opened([BlockStart(i, b)]) == [Opening(i, b)] && forall j :: ProseOf([BlockStart(i, b)], j) == ""
  {
    var es := [BlockStart(i, b)];
    assert es[1..] == [];
    assert Opened(es) == OpenedBy(es[0]) + Opened(es[1..]);
  }

  lemma StartDeltaAdds(i: nat, b: Block, d: Piece, text: string)
    requires d == TextDelta(text) || d == ThinkingDelta(text)
    ensures Adds([BlockStart(i, b), BlockDelta(i, d)], [Opening(i, b)], i, text)
  {
    assert [BlockStart(i, b), BlockDelta(i, d)] == [BlockStart(i, b)] + [BlockDelta(i, d)];
    StartAdds(i, b);
    DeltaAdds(i, d, text);
    OpenedAppend([BlockStart(i, b)], [BlockDelta(i, d)]);
    forall j: nat
      ensures ProseOf([BlockStart(i, b)] + [BlockDelta(i, d)], j) == if j == i then text else ""
    {
      ProseAppend([BlockStart(i, b)], [BlockDelta(i, d)], j);
    }
  }

  lemma ReasonAdds(st: State, text: string)
    requires text != ""
    ensures var opens, at := !st.thinkingStarted, if st.thinkingStarted then st.thinkingIndex else st.nextBlockIndex;
      && Adds(Reason(st, text).events, if opens then [Opening(at, ThinkingBlock)] else [], at, text)
      && Reason(st, text).st.nextBlockIndex == st.nextBlockIndex + (if opens then 1 else 0)
      && Reason(st, text).st.thinkingStarted && Reason(st, text).st.thinkingIndex == at
  {
    var a := StopText(st);
    StopsArePlain(st);
    if st.thinkingStarted {
      DeltaAdds(st.thinkingIndex, ThinkingDelta(text), text);
    } else {
      StartDeltaAdds(st.nextBlockIndex, ThinkingBlock, ThinkingDelta(text), text);
    }
    PlainThen(a.events, Think(a.st, text).events);
  }

  lemma SayAdds(st: State, text: string)
    requires text != ""
    ensures var opens, at := !st.textStarted, if st.textStarted then st.textIndex else st.nextBlockIndex;
      && Adds(Say(st, text).events, if opens then [Opening(at, TextBlock)] else [], at, text)
      && Say(st, text).st.nextBlockIndex == st.nextBlockIndex + (if opens then 1 else 0)
      && Say(st, text).st.textStarted && Say(st, text).st.textIndex == at
  {
    var a := StopThinking(st);
    StopsArePlain(st);
    if st.textStarted {
      DeltaAdds(st.textIndex, TextDelta(text), text);
    } else {
      StartDeltaAdds(st.nextBlockIndex, TextBlock, TextDelta(text), text);
    }
    PlainThen(a.events, Speak(a.st, text).events);
  }

  function ToolOpening(s: Start): Opening {
    Opening(s.index, ToolUseBlock(s.id, s.name))
  }

  function ToolOpenings(starts: seq<Start>): seq<Opening> {
    seq(|starts|, j requires 0 <= j < |starts| => ToolOpening(starts[j]))
  }

  lemma ToolAdds(st: State, t: ToolFragment)
    ensures Opened(Tool(st, t).events) == ToolOpenings(Seen(Tool(st, t).events).starts)
    ensures forall i :: ProseOf(Tool(st, t).events, i) == ""
  {
    ToolReads(st, t, 0);
    if t.id == "" {
      PlainEvents();
    } else {
      var a := StopThinking(st);
      var b := StopText(a.st);
      StopsArePlain(st);
      StopsArePlain(a.st);
      StartAdds(st.nextBlockIndex, ToolUseBlock(t.id, ToolName(t.id, t.Name())));
      ThenPlain(a.events, b.events);
      PlainThen(a.events + b.events, OpenTool(b.st, t).events);
    }
  }

  // ---------- The layout of an orderly stream ----------

  function TextAt(d: Digest): nat {
    if d.thinking == "" then 0 else 1
  }

  /** One thinking block if there is thinking, one text block if there is text, then the tools. */
  function Plan(d: Digest): seq<Opening> {
    (if d.thinking == "" then [] else [Opening(0, ThinkingBlock)])
    + (if d.text == "" then [] else [Opening(TextAt(d), TextBlock)])
    + ToolOpenings(d.starts)
  }

  /** What the state knows of the layout. */
  predicate Placed(st: State, d: Digest) {
    && st.nextBlockIndex == |Plan(d)|
    && (st.thinkingStarted <==> d.thinking != "" && d.text == "" && d.starts == [])
    && (st.thinkingStarted ==> st.thinkingIndex == 0)
    && (st.textStarted <==> d.text != "" && d.starts == [])
    && (st.textStarted ==> st.textIndex == TextAt(d) && !st.textClosed)
  }

  /** What the events show of it. */
  ghost predicate Written(es: seq<Event>, d: Digest) {
    && Opened(es) == Plan(d)
    && (d.thinking != "" ==> ProseOf(es, 0) == d.thinking)
    && (d.text != "" ==> ProseOf(es, TextAt(d)) == d.text)
    && (forall i :: i >= |Plan(d)| ==> ProseOf(es, i) == "")
  }

  ghost predicate Laid(st: State, es: seq<Event>) {
    Placed(st, Seen(es)) && Written(es, Seen(es))
  }

  lemma PlanAddsTools(d: Digest, starts: seq<Start>)
    ensures Plan(d.(starts := d.starts + starts)) == Plan(d) + ToolOpenings(starts)
  {
    assert ToolOpenings(d.starts + starts) == ToolOpenings(d.starts) + ToolOpenings(starts);
  }

  /** Writing more of block at, which is the last one or, when opening, a new one. */
  lemma WritesMore(es: seq<Event>, more: seq<Event>, o: seq<Opening>, at: nat, text: string)
    requires Adds(more, o, at, text)
    ensures Opened(es + more) == Opened(es) + o
    ensures forall i :: ProseOf(es + more, i) == if i == at then ProseOf(es, i) + text else ProseOf(es, i)
  {
    OpenedAppend(es, more);
    forall i: nat
      ensures ProseOf(es + more, i) == if i == at then ProseOf(es, i) + text else ProseOf(es, i)
    {
      ProseAppend(es, more, i);
      assert ProseOf(es, i) + "" == ProseOf(es, i);
    }
  }

  lemma LaidReason(st: State, es: seq<Event>, text: string)
    requires Laid(st, es) && (text == "" || (Seen(es).text == "" && Seen(es).starts == []))
    ensures Laid(Reason(st, text).st, es + Reason(st, text).events)
  {
    var more := Reason(st, text).events;
    if text == "" {
      assert es + [] == es;
    } else {
      var d := Seen(es);
      ReasonReads(st, text, 0);
      ReasonAdds(st, text);
      SeenAppend(es, more);
      assert Seen(es + more) == Digest("", d.thinking + text, []) && d == Digest("", d.thinking, []);
      ThinkingPlan(d.thinking);
      WrittenReason(es, more, d.thinking, text);
      PlacedReason(st, d.thinking, text);
    }
  }

  lemma WrittenReason(es: seq<Event>, more: seq<Event>, thought: string, text: string)
    requires text != "" && Written(es, Digest("", thought, []))
    requires Adds(more, if thought == "" then [Opening(0, ThinkingBlock)] else [], 0, text)
    ensures Written(es + more, Digest("", thought + text, []))
  {
    WritesMore(es, more, if thought == "" then [Opening(0, ThinkingBlock)] else [], 0, text);
    ThinkingPlan(thought);
    ThinkingPlan(thought + text);
  }

  lemma PlacedReason(st: State, thought: string, text: string)
    requires text != "" && Placed(st, Digest("", thought, []))
    ensures Placed(Reason(st, text).st, Digest("", thought + text, []))
  {
    ThinkingPlan(thought);
    ThinkingPlan(thought + text);
    ReasonAdds(st, text);
  }

  lemma ThinkingPlan(thinking: string)
    ensures Plan(Digest("", thinking, [])) == if thinking == "" then [] else [Opening(0, ThinkingBlock)]
  {
    assert ToolOpenings([]) == [];
  }

  lemma LaidSay(st: State, es: seq<Event>, text: string)
    requires Laid(st, es) && (text == "" || Seen(es).starts == [])
    ensures Laid(Say(st, text).st, es + Say(st, text).events)
  {
    var more := Say(st, text).events;
    if text == "" {
      assert es + [] == es;
    } else {
      var d := Seen(es);
      SayReads(st, text, 0);
      SayAdds(st, text);
      SeenAppend(es, more);
      assert Seen(es + more) == Digest(d.text + text, d.thinking, []) && d == Digest(d.text, d.thinking, []);
      WrittenSay(es, more, d.thinking, d.text, text);
      PlacedSay(st, d.thinking, d.text, text);
    }
  }

  lemma WrittenSay(es: seq<Event>, more: seq<Event>, thinking: string, said: string, text: string)
    requires text != "" && Written(es, Digest(said, thinking, []))
    requires var at := if thinking == "" then 0 else 1;
      Adds(more, if said == "" then [Opening(at, TextBlock)] else [], at, text)
    ensures Written(es + more, Digest(said + text, thinking, []))
  {
    var at := if thinking == "" then 0 else 1;
    WritesMore(es, more, if said == "" then [Opening(at, TextBlock)] else [], at, text);
    ProsePlan(thinking, said);
    ProsePlan(thinking, said + text);
  }

  lemma PlacedSay(st: State, thinking: string, said: string, text: string)
    requires text != "" && Placed(st, Digest(said, thinking, []))
    ensures Placed(Say(st, text).st, Digest(said + text, thinking, []))
  {
    ProsePlan(thinking, said);
    ProsePlan(thinking, said + text);
    SayAdds(st, text);
  }

  lemma ProsePlan(thinking: string, text: string)
    ensures Plan(Digest(text, thinking, [])) ==
            (if thinking == "" then [] else [Opening(0, ThinkingBlock)])
            + (if text == "" then [] else [Opening(if thinking == "" then 0 else 1, TextBlock)])
  {
    assert ToolOpenings([]) == [];
  }

  lemma LaidTool(st: State, es: seq<Event>, t: ToolFragment)
    requires Laid(st, es)
    ensures Laid(Tool(st, t).st, es + Tool(st, t).events)
  {
    var d, more := Seen(es), Tool(st, t).events;
    var starts := Seen(more).starts;
    ToolReads(st, t, 0);
    SeenAppend(es, more);
    assert Seen(es + more) == d.(starts := d.starts + starts);
    PlanAddsTools(d, starts);
    WrittenTool(st, es, t);
    PlacedTool(st, d, t, starts);
  }

  lemma WrittenTool(st: State, es: seq<Event>, t: ToolFragment)
    requires Written(es, Seen(es))
    ensures var d, starts := Seen(es), Seen(Tool(st, t).events).starts;
      Written(es + Tool(st, t).events, d.(starts := d.starts + starts))
  {
    var d, more := Seen(es), Tool(st, t).events;
    ToolAdds(st, t);
    OpenedAppend(es, more);
    PlanAddsTools(d, Seen(more).starts);
    forall i: nat
      ensures ProseOf(es + more, i) == ProseOf(es, i)
    {
      ProseAppend(es, more, i);
      assert ProseOf(es, i) + "" == ProseOf(es, i);
    }
  }

  lemma PlacedTool(st: State, d: Digest, t: ToolFragment, starts: seq<Start>)
    requires Placed(st, d)
    requires if t.id == "" then starts == [] else |starts| == 1
    ensures Placed(Tool(st, t).st, d.(starts := d.starts + starts))
  {
    if t.id == "" {
      assert d.starts + starts == d.starts;
    } else {
      ToolRegisters(st, t);
    }
  }

  lemma {:induction false} LaidTools(st: State, es: seq<Event>, ts: seq<ToolFragment>)
    requires Laid(st, es)
    ensures Laid(Tools(st, ts).st, es + Tools(st, ts).events)
  {
    if ts == [] {
      assert es + [] == es;
    } else {
      var a := Tools(st, ts[..|ts| - 1]);
      LaidTools(st, es, ts[..|ts| - 1]);
      LaidTool(a.st, es + a.events, ts[|ts| - 1]);
      Assoc(es, a.events, Tool(a.st, ts[|ts| - 1]).events);
    }
  }

  /** Chunk c adds to what has been streamed in the order thinking, text, tools. */
  predicate InTurn(d: Digest, c: Chunk) {
    && (ThinkingOf(c) != "" ==> d.text == "" && d.starts == [])
    && (TextOf(c) != "" ==> d.starts == [])
  }

  lemma LaidPlain(st: State, st': State, es: seq<Event>, more: seq<Event>)
    requires Laid(st, es) && Plain(more) && Seen(more) == NOTHING
    requires Placed(st, Seen(es)) ==> Placed(st', Seen(es))
    ensures Laid(st', es + more) && Seen(es + more) == Seen(es)
  {
    ThenPlain(es, more);
    SilentSuffix(es, more, 0);
  }

  lemma AnnounceIsPlain(st: State)
    ensures Plain(Announce(st).events) && Seen(Announce(st).events) == NOTHING
  {
    PlainEvents();
    AnnounceReads(st, 0);
  }

  lemma LaidProse(st: State, es: seq<Event>, c: Chunk)
    requires Laid(st, es) && c.choices != [] && InTurn(Seen(es), c)
    ensures Laid(Prose(st, c).st, es + Prose(st, c).events)
  {
    var was := st.(created := true, usage := MergeUsage(st.usage, c.usage));
    var a := Announce(was);
    var r := Reason(a.st, c.choices[0].delta.ReasoningText());
    var s := Say(r.st, c.choices[0].delta.content);
    AnnounceIsPlain(was);
    LaidPlain(st, a.st, es, a.events);
    LaidReason(a.st, es + a.events, c.choices[0].delta.ReasoningText());
    ReasonReads(a.st, c.choices[0].delta.ReasoningText(), 0);
    SeenAppend(es + a.events, r.events);
    LaidSay(r.st, es + a.events + r.events, c.choices[0].delta.content);
    Regroup(es, a.events, r.events, s.events);
  }

  lemma LaidBody(st: State, es: seq<Event>, c: Chunk)
    requires Laid(st, es) && InTurn(Seen(es), c)
    ensures Laid(Body(st, c).st, es + Body(st, c).events)
  {
    if c.choices == [] {
      PlainEvents();
      AnnounceReads(st, 0);
      LaidPlain(st, Body(st, c).st, es, Body(st, c).events);
    } else {
      var s := Prose(st, c);
      LaidProse(st, es, c);
      LaidTools(s.st, es + s.events, c.choices[0].delta.toolCalls);
      Assoc(es, s.events, Tools(s.st, c.choices[0].delta.toolCalls).events);
    }
  }

  // ---------- Disorder shows and stays ----------

  function Rank(b: Block): nat {
    match b
    case ThinkingBlock => 0
    case TextBlock => 1
    case ToolUseBlock(_, _) => 2
  }

  /** Thinking, text, tools: at most one of the first two. */
  predicate Ascending(o: seq<Opening>) {
    forall i, j :: 0 <= i < j < |o| ==> Rank(o[i].block) < Rank(o[j].block) || Rank(o[i].block) == Rank(o[j].block) == 2
  }

  lemma PlanAscends(d: Digest)
    ensures Ascending(Plan(d))
    ensures d.text != "" || d.starts != [] ==> Plan(d) != [] && Rank(Plan(d)[|Plan(d)| - 1].block) >= 1
    ensures d.starts != [] ==> Plan(d) != [] && Rank(Plan(d)[|Plan(d)| - 1].block) == 2
  {
  }

  lemma Descends(o: seq<Opening>, p: seq<Opening>, more: seq<Opening>)
    requires o != [] && p != [] && Rank(p[0].block) < Rank(o[|o| - 1].block)
    ensures !Ascending(o + (p + more))
  {
    var all := o + (p + more);
    assert all[|o| - 1] == o[|o| - 1] && all[|o|] == p[0];
  }

  lemma DisorderLasts(o: seq<Opening>, more: seq<Opening>)
    requires !Ascending(o)
    ensures !Ascending(o + more)
  {
    var i, j :| 0 <= i < j < |o| && !(Rank(o[i].block) < Rank(o[j].block) || Rank(o[i].block) == Rank(o[j].block) == 2);
    assert (o + more)[i] == o[i] && (o + more)[j] == o[j];
  }

  lemma OpenedBehind(a: seq<Event>, b: seq<Event>, c: seq<Event>)
    requires Plain(a)
    ensures Opened(a + b + c) == Opened(b) + Opened(c)
  {
    OpenedAppend(a, b);
    OpenedAppend(a + b, c);
  }

  lemma ProseOpened(st: State, c: Chunk) returns (a: Out)
    requires c.choices != []
    ensures a == Announce(st.(created := true, usage := MergeUsage(st.usage, c.usage)))
    ensures var r := Reason(a.st, c.choices[0].delta.ReasoningText());
      Opened(Prose(st, c).events) == Opened(r.events) + Opened(Say(r.st, c.choices[0].delta.content).events)
  {
    var was := st.(created := true, usage := MergeUsage(st.usage, c.usage));
    a := Announce(was);
    var r := Reason(a.st, c.choices[0].delta.ReasoningText());
    AnnounceIsPlain(was);
    OpenedBehind(a.events, r.events, Say(r.st, c.choices[0].delta.content).events);
  }

  lemma ProseOpens(st: State, es: seq<Event>, c: Chunk)
    requires Laid(st, es) && c.choices != [] && !InTurn(Seen(es), c)
    ensures Opened(Prose(st, c).events) != []
    ensures Opened(es) != [] && Rank(Opened(Prose(st, c).events)[0].block) < Rank(Opened(es)[|Opened(es)| - 1].block)
  {
    var a := ProseOpened(st, c);
    if c.choices[0].delta.ReasoningText() != "" && (Seen(es).text != "" || Seen(es).starts != []) {
      LateThinkingOpens(a.st, Seen(es), c.choices[0].delta.ReasoningText());
    } else {
      LateTextOpens(a.st, Seen(es), c.choices[0].delta.content);
    }
  }

  lemma LateThinkingOpens(st: State, d: Digest, text: string)
    requires Placed(st, d) && text != "" && (d.text != "" || d.starts != [])
    ensures Opened(Reason(st, text).events) != [] && Plan(d) != []
    ensures Rank(Opened(Reason(st, text).events)[0].block) == 0 < Rank(Plan(d)[|Plan(d)| - 1].block)
  {
    PlanAscends(d);
    ReasonAdds(st, text);
  }

  lemma LateTextOpens(st: State, d: Digest, text: string)
    requires Placed(st, d) && text != "" && d.starts != []
    ensures Reason(st, "") == Out(st, [])
    ensures Opened(Say(st, text).events) != [] && Plan(d) != []
    ensures Rank(Opened(Say(st, text).events)[0].block) == 1 < Rank(Plan(d)[|Plan(d)| - 1].block)
  {
    PlanAscends(d);
    SayAdds(st, text);
  }

  lemma DisorderShows(st: State, es: seq<Event>, c: Chunk)
    requires Laid(st, es) && !InTurn(Seen(es), c)
    ensures !Ascending(Opened(es + Body(st, c).events))
  {
    var s := Prose(st, c);
    var t := Tools(s.st, c.choices[0].delta.toolCalls);
    ProseOpens(st, es, c);
    assert Body(st, c).events == s.events + t.events;
    DisorderIn(es, s.events, t.events);
  }

  lemma DisorderIn(es: seq<Event>, a: seq<Event>, b: seq<Event>)
    requires Opened(es) != [] && Opened(a) != []
    requires Rank(Opened(a)[0].block) < Rank(Opened(es)[|Opened(es)| - 1].block)
    ensures !Ascending(Opened(es + (a + b)))
  {
    OpenedAppend(es, a + b);
    OpenedAppend(a, b);
    Descends(Opened(es), Opened(a), Opened(b));
  }

  // ---------- Runs ----------

  function AllText(run: seq<Arrival>): string {
    if run == [] then "" else AllText(run[..|run| - 1]) + TextOf(run[|run| - 1].chunk)
  }

  /** Reasoning comes before all text and all tool calls, and text before all tool calls. */
  predicate Orderly(run: seq<Arrival>) {
    run == [] ||
    (var init, c := run[..|run| - 1], run[|run| - 1].chunk;
     && Orderly(init)
     && (ThinkingOf(c) != "" ==> AllText(init) == "" && AllOpenings(init) == [])
     && (TextOf(c) != "" ==> AllOpenings(init) == []))
  }

  lemma {:induction false} ToolsStart(st: State, ts: seq<ToolFragment>)
    ensures |Seen(Tools(st, ts).events).starts| == |Openings(ts)|
  {
    if ts != [] {
      var a, t := Tools(st, ts[..|ts| - 1]), ts[|ts| - 1];
      ToolsStart(st, ts[..|ts| - 1]);
      ToolReads(a.st, t, 0);
      SeenAppend(a.events, Tool(a.st, t).events);
    }
  }

  lemma BodyDigest(st: State, c: Chunk)
    ensures Seen(Body(st, c).events).text == TextOf(c)
    ensures |Seen(Body(st, c).events).starts| == |Openings(c.Fragments())|
  {
    BodyReads(st, c);
    if c.choices == [] {
      AnnounceReads(st, 0);
    } else {
      BodyStarts(st, c);
      ToolsStart(Prose(st, c).st, c.choices[0].delta.toolCalls);
    }
  }

  lemma {:induction false} OpenRunDigest(san: Sanitizer, run: seq<Arrival>)
    requires Valid(san, run)
    requires forall i :: 0 <= i < |run| ==> !run[i].chunk.Finishes()
    ensures Seen(Run(san, run).events).text == AllText(run)
    ensures |Seen(Run(san, run).events).starts| == |AllOpenings(run)|
  {
    if run != [] {
      var a, c := Run(san, run[..|run| - 1]), run[|run| - 1].chunk;
      OpenRunDigest(san, run[..|run| - 1]);
      BodyDigest(a.st, c);
      SeenAppend(a.events, Body(a.st, c).events);
    }
  }

  /** An orderly run is laid out as planned; a disorderly one has a block out of place for good. */
  lemma {:induction false} OrderShows(san: Sanitizer, run: seq<Arrival>)
    requires Valid(san, run)
    requires forall i :: 0 <= i < |run| ==> !run[i].chunk.Finishes()
    ensures if Orderly(run) then Laid(Run(san, run).st, Run(san, run).events)
            else !Ascending(Opened(Run(san, run).events))
  {
    if run == [] {
      assert ToolOpenings([]) == [];
    } else {
      var init, c := run[..|run| - 1], run[|run| - 1].chunk;
      OrderShows(san, init);
      OpenRunDigest(san, init);
      NextShows(Run(san, init), c, Orderly(init), Orderly(run));
    }
  }

  lemma NextShows(a: Out, c: Chunk, orderly: bool, still: bool)
    requires if orderly then Laid(a.st, a.events) else !Ascending(Opened(a.events))
    requires still <==> orderly && InTurn(Seen(a.events), c)
    ensures if still then Laid(Body(a.st, c).st, a.events + Body(a.st, c).events)
            else !Ascending(Opened(a.events + Body(a.st, c).events))
  {
    if still {
      LaidBody(a.st, a.events, c);
    } else if orderly {
      DisorderShows(a.st, a.events, c);
    } else {
      OpenedAppend(a.events, Body(a.st, c).events);
      DisorderLasts(Opened(a.events), Opened(Body(a.st, c).events));
    }
  }

  // ---------- The finish step adds no block ----------

  lemma {:induction false} ClosingIsPlain(san: Sanitizer, st: State, order: seq<int>)
    requires forall k :: k in order ==> k in st.toolCalls
    ensures Plain(CloseTools(san, st, order))
  {
    if order == [] {
      PlainEvents();
    } else {
      var init, k := order[..|order| - 1], order[|order| - 1];
      ClosingIsPlain(san, st, init);
      CloseIsPlain(san, st, k);
      ThenPlain(CloseTools(san, st, init), CloseTool(san, st, k));
    }
  }

  lemma CloseIsPlain(san: Sanitizer, st: State, k: int)
    requires k in st.toolCalls
    ensures Plain(CloseTool(san, st, k))
  {
    var ce := CloseTool(san, st, k);
    assert ce == [ce[0]] + [ce[1]];
    assert [ce[0]][1..] == [];
    PlainEvents();
    ThenPlain([ce[0]], [ce[1]]);
  }

  lemma FinishIsPlain(san: Sanitizer, st: State, reason: string, order: seq<int>)
    requires forall k :: k in order ==> k in st.toolCalls
    ensures Plain(Finish(san, st, reason, order).events)
  {
    var a := StopThinking(st);
    var b := StopText(a.st);
    var closing, ending := CloseTools(san, b.st, order), MessageEnd(b.st, reason);
    StopsArePlain(st);
    StopsArePlain(a.st);
    ClosingIsPlain(san, b.st, order);
    PlainEvents();
    assert ending == [ending[0]] + [ending[1]];
    ThenPlain([ending[0]], [ending[1]]);
    ThenPlain(a.events, b.events);
    ThenPlain(a.events + b.events, closing);
    ThenPlain(a.events + b.events + closing, ending);
  }

  /** Before the finish step and after it the same blocks stand with the same prose. */
  lemma {:induction false} FinishedLayout(san: Sanitizer, run: seq<Arrival>)
    requires Valid(san, run) && EndsWithFinish(run)
    ensures var es := Run(san, run).events;
      if Orderly(run) then Written(es, Seen(es)) else !Ascending(Opened(es))
  {
    var init, last := run[..|run| - 1], run[|run| - 1];
    var a := Run(san, init);
    OrderShows(san, init);
    OpenRunDigest(san, init);
    NextShows(a, last.chunk, Orderly(init), Orderly(run));
    var b := Body(a.st, last.chunk);
    FinishSplits(san, run);
    var reason := last.chunk.choices[0].finishReason.value;
    FinishIsPlain(san, b.st, reason, last.order);
    FinishReads(san, b.st, reason, last.order);
    ThenPlain(a.events + b.events, Finish(san, b.st, reason, last.order).events);
    SilentSuffix(a.events + b.events, Finish(san, b.st, reason, last.order).events, 0);
  }

  // ---------- Main results ----------

  function KindRank(b: ClaudeBlock): nat {
    match b
    case ThinkingContent(_) => 0
    case TextContent(_) => 1
    case ToolContent(_, _, _) => 2
  }

  function BlocksAt(es: seq<Event>, o: seq<Opening>): seq<ClaudeBlock> {
    seq(|o|, j requires 0 <= j < |o| => BlockAt(es, o[j]))
  }

  lemma BlocksAppend(es: seq<Event>, a: seq<Opening>, b: seq<Opening>)
    ensures BlocksAt(es, a + b) == BlocksAt(es, a) + BlocksAt(es, b)
  {
  }

  lemma BlocksOfTools(es: seq<Event>)
    ensures BlocksAt(es, ToolOpenings(Seen(es).starts)) == StreamedTools(es)
  {
  }

  lemma BlocksOfProse(es: seq<Event>, d: Digest)
    requires Written(es, d)
    ensures BlocksAt(es, if d.thinking == "" then [] else [Opening(0, ThinkingBlock)])
            == if d.thinking == "" then [] else [ThinkingContent(d.thinking)]
    ensures BlocksAt(es, if d.text == "" then [] else [Opening(TextAt(d), TextBlock)])
            == if d.text == "" then [] else [TextContent(d.text)]
  {
  }

  lemma PlannedList(es: seq<Event>)
    requires Written(es, Seen(es))
    ensures BlockList(es) == AsMessage(es)
  {
    var d := Seen(es);
    var th := if d.thinking == "" then [] else [Opening(0, ThinkingBlock)];
    var tx := if d.text == "" then [] else [Opening(TextAt(d), TextBlock)];
    BlocksAppend(es, th + tx, ToolOpenings(d.starts));
    BlocksAppend(es, th, tx);
    BlocksOfTools(es);
    BlocksOfProse(es, d);
    assert BlockList(es) == BlocksAt(es, Plan(d));
  }

  lemma AssembleAscends(thinking: string, text: string, tools: seq<ClaudeBlock>, i: int, j: int)
    requires forall b :: b in tools ==> b.ToolContent?
    requires 0 <= i < j < |Assemble(thinking, text, tools)|
    ensures var all := Assemble(thinking, text, tools);
      KindRank(all[i]) < KindRank(all[j]) || KindRank(all[i]) == KindRank(all[j]) == 2
  {
    var all := Assemble(thinking, text, tools);
    var n := |all| - |tools|;
    if j >= n {
      assert all[j] == tools[j - n] && tools[j - n] in tools;
    }
    if i >= n {
      assert all[i] == tools[i - n] && tools[i - n] in tools;
    }
  }

  lemma DisorderDiffers(es: seq<Event>, thinking: string, text: string, tools: seq<ClaudeBlock>)
    requires !Ascending(Opened(es)) && forall b :: b in tools ==> b.ToolContent?
    ensures BlockList(es) != Assemble(thinking, text, tools)
  {
    var o := Opened(es);
    var i, j :| 0 <= i < j < |o| && !(Rank(o[i].block) < Rank(o[j].block) || Rank(o[i].block) == Rank(o[j].block) == 2);
    if |Assemble(thinking, text, tools)| == |o| {
      AssembleAscends(thinking, text, tools, i, j);
      assert KindRank(BlockList(es)[i]) == Rank(o[i].block) && KindRank(BlockList(es)[j]) == Rank(o[j].block);
    }
  }

  /** Both roads give the same list of content blocks if and only if the upstream sends reasoning,
      text and tool calls in that order, hides no reasoning in the field the aggregator ignores,
      and its calls match. */
  lemma {:induction false} BlocksAgreeIff(san: Sanitizer, run: seq<Arrival>)
    requires Valid(san, run) && EndsWithFinish(run)
    requires forall n :: san(n, "") == ""
    ensures BlockList(Run(san, run).events) == TranslateMessage(san, Aggregate(Chunks(run)))
            <==> Orderly(run) && (forall i :: 0 <= i < |run| ==> !ReasonsElsewhere(run[i].chunk))
                 && CallsMatch(san, AllFragments(run))
  {
    var es, m := Run(san, run).events, Aggregate(Chunks(run));
    FinishedLayout(san, run);
    PartsAgreeIff(san, run);
    if Orderly(run) {
      PlannedList(es);
    } else {
      ToolBlocksAreTools(san, m.toolCalls);
      DisorderDiffers(es, m.ReasoningText(), m.content, ToolBlocks(san, m.toolCalls));
    }
  }

  /** The reply a streaming client has put together by the end. */
  function StreamedReply(es: seq<Event>): Reply
    requires |es| >= 2 && es[|es| - 2].MessageDelta?
  {
    Reply(BlockList(es), es[|es| - 2].stopReason)
  }

  /** Reasoning, text and tool calls come in that order, and all reasoning where both roads read it. */
  predicate ProseInTurn(run: seq<Arrival>) {
    Orderly(run) && forall i :: 0 <= i < |run| ==> !ReasonsElsewhere(run[i].chunk)
  }

  /** For any stream up to its first finish: the replies agree if and only if, besides, the calls match
      and their arguments are JSON; when they are not, the non-streaming road fails while the
      streaming client has been sent them. */
  lemma {:induction false} RepliesAgreeIff(san: Sanitizer, isJson: JsonTest, run: seq<Arrival>)
    requires Valid(san, run) && EndsWithFinish(run)
    requires isJson("{}") && forall n :: san(n, "") == ""
    ensures var es := Run(san, run).events;
      && |es| >= 2 && es[|es| - 2].MessageDelta?
      && (ReplyTo(san, isJson, [Aggregate(Chunks(run))]) == Ok(StreamedReply(es))
          <==> ProseInTurn(run) && CallsMatch(san, AllFragments(run)) && AllJson(san, isJson, AllFragments(run)))
  {
    var es, m := Run(san, run).events, Aggregate(Chunks(run));
    StopReasonAgrees(san, run);
    BlocksAgreeIff(san, run);
    ReplyExistsIff(san, isJson, run);
  }

  /** Main result, when no two tool indices share an id: the non-streaming road returns the very reply
      a streaming client ends up with if and only if the upstream sends reasoning, text and calls in
      that order, hides no reasoning, gives every tool index one id, in the order in which the indices
      first appear, and with it its whole name, gives it arguments, and these are JSON. */
  lemma {:induction false} StreamingAgreesIff(san: Sanitizer, isJson: JsonTest, run: seq<Arrival>)
    requires Valid(san, run) && EndsWithFinish(run) && UniqueIds(AllFragments(run))
    requires isJson("{}") && forall n :: san(n, "") == ""
    ensures var es := Run(san, run).events;
      && |es| >= 2 && es[|es| - 2].MessageDelta?
      && (ReplyTo(san, isJson, [Aggregate(Chunks(run))]) == Ok(StreamedReply(es))
          <==> ProseInTurn(run) && CallsInTurn(AllFragments(run)) && AllJson(san, isJson, AllFragments(run)))
  {
    RepliesAgreeIff(san, isJson, run);
    InTurnIff(san, AllFragments(run));
  }

  // ---------- The smallest streams on which the roads part ----------

  /** The reply of the non-streaming road to the same chunks. */
  method OtherRoad(san: Sanitizer, isJson: JsonTest, chunks: seq<Chunk>) returns (r: Result<Reply, Failure>)
    ensures r == ReplyTo(san, isJson, [Aggregate(chunks)])
  {
    var m := AggregateChunks(chunks);
    r := TranslateOpenAIToClaude(san, isJson, [m]);
  }

  lemma {:induction false} OneChunk(run: seq<Arrival>)
    requires |run| == 1 && run[0].chunk.Finishes()
    ensures EndsWithFinish(run) && Orderly(run) && Chunks(run) == [run[0].chunk]
    ensures AllFragments(run) == run[0].chunk.Fragments()
  {
    var none := run[..|run| - 1];
    assert none == [];
    assert Orderly(none) && AllText(none) == "" && AllOpenings(none) == [] && AllFragments(none) == [];
  }

  lemma OneFragment(t: ToolFragment)
    requires t.id != ""
    ensures Slots([t]) == {t.Slot()} && FirstSeen([t]) == Openings([t]) == [t.Slot()] && UniqueIds([t])
    ensures ArgumentsOf([t], t.Slot()) == t.Arguments() && FullName([t], t.Slot()) == AnnouncedName(t)
  {
    assert [] + [t] == [t] && [t][..0] == [];
    SlotsSnoc([], t);
    OpenersSnoc([], t);
    FragmentsSnoc([], t, t.Slot());
    assert "" + t.Arguments() == t.Arguments() && "" + t.Name() == t.Name();
  }

  function Saying(d: Delta, finishReason: Option<string>): Chunk {
    Chunk([Choice(d, finishReason)], None)
  }

  function Calling(arguments: string, finishReason: string): Chunk {
    Saying(Delta("", "", "", [ToolFragment(Some(0), "c", Some(FunctionFragment("f", arguments)))]), Some(finishReason))
  }

  /** A call cut off by the length limit: arguments that do not parse go through the sanitizer
      unchanged, so one client is sent them and the other gets an error. */
  method TruncatedCall(san: Sanitizer, isJson: JsonTest, cut: string)
      returns (events: seq<Event>, r: Result<Reply, Failure>)
    requires isJson("{}") && forall n :: san(n, "") == ""
    requires cut != "" && !isJson(cut) && forall n :: san(n, cut) == cut
    ensures r == Err(MarshalFailure)
    ensures exists b :: b in BlockList(events) && b.ToolContent? && b.input == cut
  {
    var run;
    events, run := TranslateStream(san, [Calling(cut, "length")]);
    OneChunk(run);
    r := OtherRoad(san, isJson, [Calling(cut, "length")]);
    OneCallReply(san, isJson, run, run[0].chunk.Fragments()[0]);
    OneCallSent(san, run, run[0].chunk.Fragments()[0]);
  }

  lemma {:induction false} OneCallReply(san: Sanitizer, isJson: JsonTest, run: seq<Arrival>, t: ToolFragment)
    requires AllFragments(run) == [t] && t.id != "" && t.Arguments() != "" && isJson("{}")
    ensures ReplyTo(san, isJson, [Aggregate(Chunks(run))]).Ok? <==> isJson(san(AnnouncedName(t), t.Arguments()))
  {
    OneFragment(t);
    ReplyExistsIff(san, isJson, run);
  }

  lemma {:induction false} OneCallSent(san: Sanitizer, run: seq<Arrival>, t: ToolFragment)
    requires Valid(san, run) && EndsWithFinish(run) && ProseInTurn(run) && AllFragments(run) == [t]
    requires t.id != "" && t.Arguments() != "" && forall n :: san(n, "") == ""
    ensures exists b :: b in BlockList(Run(san, run).events) && b.ToolContent?
                        && b.input == san(AnnouncedName(t), t.Arguments())
  {
    OneCallMatches(san, t);
    BlocksAgreeIff(san, run);
    var block := OneCallBlock(san, run, t);
    assert block in BlockList(Run(san, run).events);
  }

  lemma OneCallMatches(san: Sanitizer, t: ToolFragment)
    requires t.id != "" && t.Arguments() != ""
    ensures CallsMatch(san, [t])
  {
    OneFragment(t);
    InTurnIff(san, [t]);
  }

  lemma {:induction false} OneCallBlock(san: Sanitizer, run: seq<Arrival>, t: ToolFragment) returns (block: ClaudeBlock)
    requires AllFragments(run) == [t] && t.id != "" && t.Arguments() != ""
    ensures block in TranslateMessage(san, Aggregate(Chunks(run)))
    ensures block.ToolContent? && block.input == san(AnnouncedName(t), t.Arguments())
  {
    OneFragment(t);
    CallTells(run, 0);
    var calls := Aggregate(Chunks(run)).toolCalls;
    ToolBlockAt(san, calls, 0);
    block := ToolBlocks(san, calls)[0];
    assert block in ToolBlocks(san, calls);
  }

  method CallWithoutArguments(san: Sanitizer, isJson: JsonTest) returns (events: seq<Event>, r: Result<Reply, Failure>)
    requires isJson("{}") && forall n :: san(n, "") == ""
    ensures |events| >= 2 && events[|events| - 2].MessageDelta? && r != Ok(StreamedReply(events))
  {
    var run;
    events, run := TranslateStream(san, [Calling("", "tool_calls")]);
    OneChunk(run);
    r := OtherRoad(san, isJson, [Calling("", "tool_calls")]);
    OneFragment(run[0].chunk.Fragments()[0]);
    assert AllFragments(run) == [run[0].chunk.Fragments()[0]] && 0 in Slots(AllFragments(run));
    StreamingAgreesIff(san, isJson, run);
  }

  method HiddenReasoning(san: Sanitizer, isJson: JsonTest) returns (events: seq<Event>, r: Result<Reply, Failure>)
    requires isJson("{}") && forall n :: san(n, "") == ""
    ensures |events| >= 2 && events[|events| - 2].MessageDelta? && r != Ok(StreamedReply(events))
  {
    var chunk := Saying(Delta("hi", "", "because", []), Some("stop"));
    var run;
    events, run := TranslateStream(san, [chunk]);
    OneChunk(run);
    r := OtherRoad(san, isJson, [chunk]);
    assert ReasonsElsewhere(run[0].chunk);
    StreamingAgreesIff(san, isJson, run);
  }

  /** The id comes first and the name behind it: the streaming client is told the tool is called "c",
      the other one that it is called "f". */
  method LateName(san: Sanitizer, isJson: JsonTest) returns (events: seq<Event>, r: Result<Reply, Failure>)
    requires isJson("{}") && forall n :: san(n, "") == ""
    ensures |events| >= 2 && events[|events| - 2].MessageDelta? && r != Ok(StreamedReply(events))
  {
    var first := ToolFragment(Some(0), "c", Some(FunctionFragment("", "{}")));
    var second := ToolFragment(Some(0), "", Some(FunctionFragment("f", "")));
    var chunk := Saying(Delta("", "", "", [first, second]), Some("tool_calls"));
    var run;
    events, run := TranslateStream(san, [chunk]);
    OneChunk(run);
    r := OtherRoad(san, isJson, [chunk]);
    NamedLate(first, second);
    StreamingAgreesIff(san, isJson, run);
  }

  lemma NamedLate(t: ToolFragment, u: ToolFragment)
    requires t.Slot() == u.Slot() && t.id == "c" && t.Name() == "" && u.id == "" && u.Name() == "f"
    ensures UniqueIds([t, u]) && !NamesWhole([t, u])
  {
    FragmentsSnoc([], t, t.Slot());
    FragmentsSnoc([t], u, t.Slot());
    assert [] + [t] == [t] && [t] + [u] == [t, u] && t in [t, u];
    assert FullName([t, u], t.Slot()) == "f" && AnnouncedName(t) == "c";
  }

  /** Text first, then reasoning: the streaming client has the blocks in that order, the other one
      the other way round. */
  method LateReasoning(san: Sanitizer, isJson: JsonTest) returns (events: seq<Event>, r: Result<Reply, Failure>)
    requires isJson("{}") && forall n :: san(n, "") == ""
    ensures |events| >= 2 && events[|events| - 2].MessageDelta? && r != Ok(StreamedReply(events))
  {
    var a, b := Saying(Delta("a", "", "", []), None), Saying(Delta("", "r", "", []), Some("stop"));
    var run;
    events, run := TranslateStream(san, [a, b]);
    r := OtherRoad(san, isJson, [a, b]);
    TwoChunks(run, a, b);
    StreamingAgreesIff(san, isJson, run);
  }

  lemma {:induction false} TwoChunks(run: seq<Arrival>, a: Chunk, b: Chunk)
    requires |run| == 2 && run[0].chunk == a && run[1].chunk == b && !a.Finishes() && b.Finishes()
    requires TextOf(a) != "" && ThinkingOf(b) != "" && a.Fragments() == [] == b.Fragments()
    ensures EndsWithFinish(run) && Chunks(run) == [a, b] && !Orderly(run) && AllFragments(run) == []
  {
    var init := run[..|run| - 1];
    assert init[..|init| - 1] == [];
    assert AllText(init) == AllText([]) + TextOf(a);
    assert AllFragments(init) == AllFragments([]) + [] && AllFragments(run) == AllFragments(init) + [];
  }
}
