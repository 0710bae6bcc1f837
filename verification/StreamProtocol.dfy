/** What a Claude client may rely on in an event stream, stated as an acceptor that knows
    nothing of the translator, and the proof that the translator's runs are accepted. */
module StreamProtocol {
  import opened Prelude
  import opened ClaudeStream

  // ---------- The acceptor ----------

  datatype Phase = Before | InBody | Closing | Done

  datatype Kind = Thinking | Text | ToolUse

  /** next numbers the next block to start; open holds the blocks started and not yet stopped. */
  datatype Protocol = Protocol(phase: Phase, next: nat, open: map<nat, Kind>)

  const START := Protocol(Before, 0, map[])

  function KindOf(b: Block): Kind {
    match b
    case ThinkingBlock => Thinking
    case TextBlock => Text
    case ToolUseBlock(_, _) => ToolUse
  }

  function KindOfPiece(d: Piece): Kind {
    match d
    case ThinkingDelta(_) => Thinking
    case TextDelta(_) => Text
    case InputJsonDelta(_) => ToolUse
  }

  /** One event. Blocks are numbered without gaps; text and thinking are never open together
      nor twice; a delta goes to an open block of its own kind; a stop goes to an open block;
      the message ends only when every block has been stopped. */
  function Accept(p: Protocol, e: Event): Option<Protocol> {
    match e
    case MessageStart =>
      if p.phase == Before then Some(p.(phase := InBody)) else None
    case BlockStart(i, b) =>
      if p.phase == InBody && i == p.next && (KindOf(b) == ToolUse || forall j :: j in p.open ==> p.open[j] == ToolUse)
      then Some(p.(next := p.next + 1, open := p.open[i := KindOf(b)]))
      else None
    case BlockDelta(i, d) =>
      if p.phase == InBody && i in p.open && p.open[i] == KindOfPiece(d) then Some(p) else None
    case BlockStop(i) =>
      if p.phase == InBody && i in p.open then Some(p.(open := p.open - {i})) else None
    case MessageDelta(_, _, _) =>
      if p.phase == InBody && p.open == map[] then Some(p.(phase := Closing)) else None
    case MessageStop =>
      if p.phase == Closing then Some(p.(phase := Done)) else None
  }

  function AcceptAll(p: Protocol, es: seq<Event>): Option<Protocol>
    decreases es
  {
    if es == [] then Some(p)
    else match Accept(p, es[0])
      case None => None
      case Some(q) => AcceptAll(q, es[1..])
  }

  /** A complete message: accepted to the very end. */
  predicate WellFormed(es: seq<Event>) {
    var end := AcceptAll(START, es);
    end.Some? && end.value.phase == Done
  }

  /** A message that may still continue: nothing wrong so far. */
  predicate SafeSoFar(es: seq<Event>) {
    AcceptAll(START, es).Some?
  }

  lemma {:induction false} AcceptAppend(p: Protocol, a: seq<Event>, b: seq<Event>)
    ensures AcceptAll(p, a + b) ==
            match AcceptAll(p, a) { case None => None case Some(q) => AcceptAll(q, b) }
    decreases a
  {
    if a == [] {
      assert a + b == b;
    } else {
      assert (a + b)[0] == a[0] && (a + b)[1..] == a[1..] + b;
      if Accept(p, a[0]).Some? {
        AcceptAppend(Accept(p, a[0]).value, a[1..], b);
      }
    }
  }

  lemma AcceptTwo(p: Protocol, es: seq<Event>)
    requires 1 <= |es| <= 2
    ensures AcceptAll(p, es) ==
            match Accept(p, es[0])
            case None => None
            case Some(q) => if |es| == 1 then Some(q) else Accept(q, es[1])
  {
    if Accept(p, es[0]).Some? {
      var q := Accept(p, es[0]).value;
      if |es| == 2 {
        assert es[1..] == [es[1]] && es[1..][1..] == [];
        assert AcceptAll(q, es[1..]) ==
               match Accept(q, es[1]) { case None => None case Some(r) => AcceptAll(r, es[1..][1..]) };
      }
    }
  }

  function Started(es: seq<Event>, i: nat): nat {
    if es == [] then 0 else (if es[0].BlockStart? && es[0].index == i then 1 else 0) + Started(es[1..], i)
  }

  function Stopped(es: seq<Event>, i: nat): nat {
    if es == [] then 0 else (if es[0].BlockStop? && es[0].index == i then 1 else 0) + Stopped(es[1..], i)
  }

  lemma {:induction false} AcceptCounts(p: Protocol, es: seq<Event>, i: nat)
    requires AcceptAll(p, es).Some?
    requires forall j :: j in p.open ==> j < p.next
    ensures var q := AcceptAll(p, es).value;
      && p.next <= q.next
      && (forall j :: j in q.open ==> j < q.next)
      && Started(es, i) == (if p.next <= i < q.next then 1 else 0)
      && (if i in p.open then 1 else 0) + Started(es, i) == Stopped(es, i) + (if i in q.open then 1 else 0)
    decreases es
  {
    if es != [] {
      AcceptCounts(Accept(p, es[0]).value, es[1..], i);
    }
  }

  lemma {:induction false} DoneHasNothingOpen(p: Protocol, es: seq<Event>)
    requires AcceptAll(p, es).Some?
    requires p.phase == Closing || p.phase == Done ==> p.open == map[]
    ensures var q := AcceptAll(p, es).value; q.phase == Closing || q.phase == Done ==> q.open == map[]
    decreases es
  {
    if es != [] {
      DoneHasNothingOpen(Accept(p, es[0]).value, es[1..]);
    }
  }

  ghost predicate Balanced(es: seq<Event>, n: nat) {
    forall i: nat :: Started(es, i) == Stopped(es, i) == (if i < n then 1 else 0)
  }

  /** The numbers of the blocks started, in order. */
  function StartNumbers(es: seq<Event>): seq<nat> {
    if es == [] then [] else (if es[0].BlockStart? then [es[0].index] else []) + StartNumbers(es[1..])
  }

  /** lo, lo + 1, ..., hi - 1. */
  function Interval(lo: nat, hi: nat): seq<nat>
    requires lo <= hi
  {
    seq(hi - lo, i requires 0 <= i < hi - lo => lo + i)
  }

  lemma {:induction false} StartsInOrder(p: Protocol, es: seq<Event>)
    requires AcceptAll(p, es).Some?
    ensures p.next <= AcceptAll(p, es).value.next
    ensures StartNumbers(es) == Interval(p.next, AcceptAll(p, es).value.next)
    decreases es
  {
    if es != [] {
      StartsInOrder(Accept(p, es[0]).value, es[1..]);
      if es[0].BlockStart? {
        IntervalFirst(p.next, AcceptAll(p, es).value.next);
      }
    }
  }

  lemma IntervalFirst(lo: nat, hi: nat)
    requires lo < hi
    ensures Interval(lo, hi) == [lo] + Interval(lo + 1, hi)
  {
  }

  /** A message begins at Before only with message_start, and nothing follows its end. */
  lemma {:induction false} EndsProperly(p: Protocol, es: seq<Event>)
    requires AcceptAll(p, es).Some? && AcceptAll(p, es).value.phase == Done && p.phase != Done
    ensures es != [] && es[|es| - 1] == MessageStop
    ensures p.phase == Before ==> es[0] == MessageStart
    ensures p.phase != Closing ==> |es| >= 2 && es[|es| - 2].MessageDelta?
    ensures p.phase == Closing ==> es == [MessageStop]
    decreases es
  {
    var q := Accept(p, es[0]).value;
    if q.phase == Done {
      NothingAfterDone(q, es[1..]);
    } else {
      EndsProperly(q, es[1..]);
    }
  }

  lemma NothingAfterDone(p: Protocol, es: seq<Event>)
    requires p.phase == Done
    ensures AcceptAll(p, es) == if es == [] then Some(p) else None
  {
  }

  /** The acceptor read outright: message_start first, message_delta and message_stop last, blocks
      started in the order 0, 1, 2, ..., and every block stopped, each exactly once. */
  lemma WellFormedBalances(es: seq<Event>)
    requires WellFormed(es)
    ensures |es| >= 3 && es[0] == MessageStart && es[|es| - 2].MessageDelta? && es[|es| - 1] == MessageStop
    ensures exists n: nat :: Balanced(es, n) && StartNumbers(es) == Interval(0, n)
  {
    var q := AcceptAll(START, es).value;
    EndsProperly(START, es);
    StartsInOrder(START, es);
    DoneHasNothingOpen(START, es);
    forall i: nat
      ensures Started(es, i) == Stopped(es, i) == (if i < q.next then 1 else 0)
    {
      AcceptCounts(START, es, i);
    }
    assert Balanced(es, q.next);
  }

  // ---------- Runs of the translator ----------

  datatype Arrival = Arrival(chunk: Chunk, order: seq<int>)

  /** Each finish step visits the tool calls open at that moment, in an order of its own. */
  ghost predicate Valid(san: Sanitizer, run: seq<Arrival>)
    decreases run, 0
  {
    run == [] ||
    (Valid(san, run[..|run| - 1]) &&
     OrderFits(Run(san, run[..|run| - 1]).st, run[|run| - 1].chunk, run[|run| - 1].order))
  }

  ghost function Run(san: Sanitizer, run: seq<Arrival>): Out
    requires Valid(san, run)
    decreases run, 1
  {
    if run == [] then Out(INITIAL, [])
    else
      var a := Run(san, run[..|run| - 1]);
      var b := Step(san, a.st, run[|run| - 1].chunk, run[|run| - 1].order);
      Out(b.st, a.events + b.events)
  }

  lemma {:induction false} RunExtend(san: Sanitizer, run: seq<Arrival>, x: Arrival)
    requires Valid(san, run) && OrderFits(Run(san, run).st, x.chunk, x.order)
    ensures Valid(san, run + [x])
    ensures var a := Run(san, run);
      var b := Step(san, a.st, x.chunk, x.order);
      Run(san, run + [x]) == Out(b.st, a.events + b.events)
  {
    assert (run + [x])[..|run|] == run;
  }

  /** run is a run over these chunks, and events what it emits. */
  ghost predicate Streams(san: Sanitizer, chunks: seq<Chunk>, run: seq<Arrival>, events: seq<Event>) {
    && Valid(san, run) && events == Run(san, run).events
    && |run| == |chunks| && forall i :: 0 <= i < |run| ==> run[i].chunk == chunks[i]
  }

  /** Feeding chunks to a session one by one is such a run. */
  method TranslateStream(san: Sanitizer, chunks: seq<Chunk>) returns (events: seq<Event>, run: seq<Arrival>)
    ensures Streams(san, chunks, run, events)
  {
    var session := new StreamSession();
    events, run := [], [];
    for i := 0 to |chunks|
      invariant |run| == i && forall j :: 0 <= j < i ==> run[j].chunk == chunks[j]
      invariant Valid(san, run) && Out(session.View(), events) == Run(san, run)
    {
      var out, order := session.Translate(san, chunks[i]);
      RunExtend(san, run, Arrival(chunks[i], order));
      events, run := events + out, run + [Arrival(chunks[i], order)];
    }
  }

  /** The tool slots opened by fragments that carry an id, in order. */
  function Openings(ts: seq<ToolFragment>): seq<int> {
    if ts == [] then []
    else Openings(ts[..|ts| - 1]) + (if ts[|ts| - 1].id == "" then [] else [ts[|ts| - 1].Slot()])
  }

  function AllOpenings(run: seq<Arrival>): seq<int> {
    if run == [] then [] else AllOpenings(run[..|run| - 1]) + Openings(run[|run| - 1].chunk.Fragments())
  }

  /** Only the last chunk carries a finish reason. */
  predicate EndsWithFinish(run: seq<Arrival>) {
    && run != []
    && run[|run| - 1].chunk.Finishes()
    && forall i :: 0 <= i < |run| - 1 ==> !run[i].chunk.Finishes()
  }

  // ---------- The simulation ----------

  ghost predicate Owned(st: State, i: nat) {
    exists k :: k in st.toolCalls && st.toolCalls[k].blockIndex == i
  }

  /** The acceptor's view p is what the translator's state st says is open. */
  ghost predicate Tracks(st: State, p: Protocol) {
    && st.created && st.messageStartSent
    && p.phase == InBody
    && p.next == st.nextBlockIndex
    && !(st.textStarted && st.thinkingStarted)
    && (st.textStarted ==> !st.textClosed && st.textIndex in p.open && p.open[st.textIndex] == Text)
    && (st.thinkingStarted ==> st.thinkingIndex in p.open && p.open[st.thinkingIndex] == Thinking)
    && (forall i :: i in p.open ==>
          && i < p.next
          && (p.open[i] == Text ==> st.textStarted && st.textIndex == i)
          && (p.open[i] == Thinking ==> st.thinkingStarted && st.thinkingIndex == i))
    && (forall k :: k in st.toolCalls ==>
          st.toolCalls[k].blockIndex in p.open && p.open[st.toolCalls[k].blockIndex] == ToolUse)
    && (forall j, k :: j in st.toolCalls && k in st.toolCalls && j != k ==>
          st.toolCalls[j].blockIndex != st.toolCalls[k].blockIndex)
  }

  /** Some open tool block is no longer known to the state, so nothing will ever stop it. */
  ghost predicate Leaks(st: State, p: Protocol) {
    exists i :: i in p.open && p.open[i] == ToolUse && !Owned(st, i)
  }

  ghost predicate SameTools(st: State, st': State, p: Protocol, p': Protocol) {
    && st'.toolCalls == st.toolCalls
    && (Leaks(st', p') <==> Leaks(st, p))
  }

  lemma StopThinkingTracks(st: State, p: Protocol) returns (q: Protocol)
    requires Tracks(st, p)
    ensures var a := StopThinking(st);
      AcceptAll(p, a.events) == Some(q) && Tracks(a.st, q) && SameTools(st, a.st, p, q) && !a.st.thinkingStarted
  {
    q := if st.thinkingStarted then p.(open := p.open - {st.thinkingIndex}) else p;
    assert forall i :: Owned(StopThinking(st).st, i) <==> Owned(st, i);
  }

  lemma StopTextTracks(st: State, p: Protocol) returns (q: Protocol)
    requires Tracks(st, p)
    ensures var a := StopText(st);
      && AcceptAll(p, a.events) == Some(q) && Tracks(a.st, q) && SameTools(st, a.st, p, q)
      && !a.st.textStarted && a.st.thinkingStarted == st.thinkingStarted
  {
    q := if st.textStarted then p.(open := p.open - {st.textIndex}) else p;
    assert forall i :: Owned(StopText(st).st, i) <==> Owned(st, i);
  }

  lemma ThinkTracks(st: State, p: Protocol, text: string) returns (q: Protocol)
    requires Tracks(st, p) && !st.textStarted
    ensures var a := Think(st, text);
      AcceptAll(p, a.events) == Some(q) && Tracks(a.st, q) && SameTools(st, a.st, p, q)
  {
    var a := Think(st, text);
    q := if st.thinkingStarted then p else p.(next := p.next + 1, open := p.open[p.next := Thinking]);
    AcceptTwo(p, a.events);
    assert forall i :: Owned(a.st, i) <==> Owned(st, i);
  }

  lemma ReasonTracks(st: State, p: Protocol, text: string) returns (q: Protocol)
    requires Tracks(st, p)
    ensures var a := Reason(st, text);
      AcceptAll(p, a.events) == Some(q) && Tracks(a.st, q) && SameTools(st, a.st, p, q)
  {
    q := p;
    if text != "" {
      var a := StopText(st);
      var q0 := StopTextTracks(st, p);
      q := ThinkTracks(a.st, q0, text);
      AcceptAppend(p, a.events, Think(a.st, text).events);
    }
  }

  lemma SpeakTracks(st: State, p: Protocol, text: string) returns (q: Protocol)
    requires Tracks(st, p) && !st.thinkingStarted
    ensures var a := Speak(st, text);
      AcceptAll(p, a.events) == Some(q) && Tracks(a.st, q) && SameTools(st, a.st, p, q)
  {
    var a := Speak(st, text);
    q := if st.textStarted then p else p.(next := p.next + 1, open := p.open[p.next := Text]);
    AcceptTwo(p, a.events);
    assert forall i :: Owned(a.st, i) <==> Owned(st, i);
  }

  lemma SayTracks(st: State, p: Protocol, text: string) returns (q: Protocol)
    requires Tracks(st, p)
    ensures var a := Say(st, text);
      AcceptAll(p, a.events) == Some(q) && Tracks(a.st, q) && SameTools(st, a.st, p, q)
  {
    q := p;
    if text != "" {
      var a := StopThinking(st);
      var q0 := StopThinkingTracks(st, p);
      q := SpeakTracks(a.st, q0, text);
      AcceptAppend(p, a.events, Speak(a.st, text).events);
    }
  }

  /** A fragment with an id opens a fresh block for its slot. If the slot was taken, the block
      that held it is lost. */
  lemma OpenToolTracks(st: State, p: Protocol, t: ToolFragment) returns (q: Protocol)
    requires Tracks(st, p) && !st.textStarted && !st.thinkingStarted
    ensures var a := OpenTool(st, t);
      && AcceptAll(p, a.events) == Some(q) && Tracks(a.st, q)
      && a.st.toolCalls.Keys == st.toolCalls.Keys + {t.Slot()}
      && (Leaks(a.st, q) <==> Leaks(st, p) || t.Slot() in st.toolCalls)
  {
    var a := OpenTool(st, t);
    q := p.(next := p.next + 1, open := p.open[p.next := ToolUse]);
    AcceptTwo(p, a.events);
    OpenedToolLeaks(st, p, a.st, q, t.Slot());
  }

  lemma ToolTracks(st: State, p: Protocol, t: ToolFragment) returns (q: Protocol)
    requires Tracks(st, p)
    ensures var a := Tool(st, t);
      && AcceptAll(p, a.events) == Some(q) && Tracks(a.st, q)
      && a.st.toolCalls.Keys == st.toolCalls.Keys + (if t.id == "" then {} else {t.Slot()})
      && (Leaks(a.st, q) <==> Leaks(st, p) || (t.id != "" && t.Slot() in st.toolCalls))
  {
    if t.id == "" {
      q := p;
      BufferingTracks(st, p, t);
    } else {
      var a := StopThinking(st);
      var q0 := StopThinkingTracks(st, p);
      var b := StopText(a.st);
      var q1 := StopTextTracks(a.st, q0);
      var c := OpenTool(b.st, t);
      q := OpenToolTracks(b.st, q1, t);
      AcceptAppend(p, a.events + b.events, c.events);
      AcceptAppend(p, a.events, b.events);
      BufferingTracks(c.st, q, t);
    }
  }

  lemma BufferingTracks(st: State, p: Protocol, t: ToolFragment)
    requires Tracks(st, p)
    ensures Tracks(BufferArguments(st, t), p) && SameTools(st, BufferArguments(st, t), p, p)
  {
    assert forall i :: Owned(BufferArguments(st, t), i) <==> Owned(st, i);
  }

  lemma OpenedToolLeaks(st: State, p: Protocol, st': State, q: Protocol, slot: int)
    requires Tracks(st, p)
    requires q.open == p.open[p.next := ToolUse]
    requires slot in st'.toolCalls && st'.toolCalls == st.toolCalls[slot := st'.toolCalls[slot]]
    requires st'.toolCalls[slot].blockIndex == p.next
    ensures Leaks(st', q) <==> Leaks(st, p) || slot in st.toolCalls
  {
    if slot in st.toolCalls {
      var lost := st.toolCalls[slot].blockIndex;
      assert lost in q.open && q.open[lost] == ToolUse && !Owned(st', lost);
    } else {
      forall k | k in st.toolCalls
        ensures k in st'.toolCalls && st'.toolCalls[k] == st.toolCalls[k]
      {
      }
      assert Owned(st', p.next);
      forall i | i in p.open
        ensures Owned(st', i) <==> Owned(st, i)
      {
      }
      if Leaks(st, p) {
        var i :| i in p.open && p.open[i] == ToolUse && !Owned(st, i);
        assert i in q.open && q.open[i] == ToolUse;
      }
    }
  }

  /** past lists the slots opened so far; leaking is the same as a slot opened twice. */
  ghost predicate Remembers(st: State, p: Protocol, past: seq<int>) {
    (forall k :: k in past <==> k in st.toolCalls) && (Leaks(st, p) <==> !NoDuplicates(past))
  }

  lemma ToolRemembered(p: Protocol, a: Out, p': Protocol, t: ToolFragment, past: seq<int>) returns (q: Protocol)
    requires AcceptAll(p, a.events) == Some(p') && Tracks(a.st, p') && Remembers(a.st, p', past)
    ensures var b := Tool(a.st, t);
      && AcceptAll(p, a.events + b.events) == Some(q)
      && Tracks(b.st, q) && Remembers(b.st, q, past + (if t.id == "" then [] else [t.Slot()]))
  {
    q := ToolTracks(a.st, p', t);
    AcceptAppend(p, a.events, Tool(a.st, t).events);
    assert past + [] == past;
    if t.id != "" {
      DistinctSnoc(past, t.Slot());
    }
  }

  /** The loop over a chunk's tool fragments. */
  lemma {:induction false} ToolsTrack(st: State, p: Protocol, ts: seq<ToolFragment>, past: seq<int>)
      returns (q: Protocol)
    requires Tracks(st, p) && Remembers(st, p, past)
    ensures var a := Tools(st, ts);
      AcceptAll(p, a.events) == Some(q) && Tracks(a.st, q) && Remembers(a.st, q, past + Openings(ts))
  {
    if ts == [] {
      q := p;
      assert past + Openings(ts) == past;
    } else {
      var init, t := ts[..|ts| - 1], ts[|ts| - 1];
      var q0 := ToolsTrack(st, p, init, past);
      Assoc(past, Openings(init), if t.id == "" then [] else [t.Slot()]);
      q := ToolRemembered(p, Tools(st, init), q0, t, past + Openings(init));
    }
  }

  ghost predicate Follows(st: State, p: Protocol, past: seq<int>) {
    || (st == INITIAL && p == START && past == [])
    || (Tracks(st, p) && Remembers(st, p, past))
  }

  lemma AnnounceTracks(st: State, p: Protocol, past: seq<int>, c: Chunk) returns (q: Protocol)
    requires Follows(st, p, past)
    ensures var a := Announce(st.(created := true, usage := MergeUsage(st.usage, c.usage)));
      AcceptAll(p, a.events) == Some(q) && Tracks(a.st, q) && Remembers(a.st, q, past)
  {
    var a := Announce(st.(created := true, usage := MergeUsage(st.usage, c.usage)));
    q := p.(phase := InBody);
    assert forall i :: Owned(a.st, i) <==> Owned(st, i);
    if st == INITIAL {
      assert a.events[1..] == [];
      assert AcceptAll(p, a.events) == AcceptAll(q, a.events[1..]);
    }
  }

  lemma BodyTracks(st: State, p: Protocol, past: seq<int>, c: Chunk) returns (q: Protocol)
    requires Follows(st, p, past)
    ensures AcceptAll(p, Body(st, c).events) == Some(q)
    ensures Follows(Body(st, c).st, q, past + Openings(c.Fragments()))
    ensures c.Finishes() ==> Tracks(Body(st, c).st, q)
  {
    if !st.created && c.choices == [] {
      q := p;
    } else {
      var a := Announce(st.(created := true, usage := MergeUsage(st.usage, c.usage)));
      q := AnnounceTracks(st, p, past, c);
      if c.choices == [] {
        assert past + Openings(c.Fragments()) == past;
      } else {
        var d := c.choices[0].delta;
        var r := Reason(a.st, d.ReasoningText());
        var q1 := ReasonTracks(a.st, q, d.ReasoningText());
        var s := Say(r.st, d.content);
        var q2 := SayTracks(r.st, q1, d.content);
        var t := Tools(s.st, d.toolCalls);
        AcceptAppend(p, a.events + r.events + s.events, t.events);
        AcceptAppend(p, a.events + r.events, s.events);
        AcceptAppend(p, a.events, r.events);
        q := ToolsTrack(s.st, q2, d.toolCalls, past);
      }
    }
  }

  // ---------- The finish step ----------

  ghost predicate Closes(st: State, order: seq<int>, i: nat)
  {
    exists k :: k in order && k in st.toolCalls && st.toolCalls[k].blockIndex == i
  }

  lemma ClosesExtend(st: State, order: seq<int>, k: int, i: nat)
    requires k in st.toolCalls && forall j :: j in order ==> j in st.toolCalls
    ensures Closes(st, order + [k], i) <==> Closes(st, order, i) || i == st.toolCalls[k].blockIndex
  {
    DistinctSnoc(order, k);
  }

  ghost function Unclosed(st: State, p: Protocol, order: seq<int>): map<nat, Kind>
    requires forall j :: j in order ==> j in st.toolCalls
  {
    map i | i in p.open && !Closes(st, order, i) :: p.open[i]
  }

  lemma {:induction false} CloseToolsAccepted(san: Sanitizer, st: State, p: Protocol, order: seq<int>)
    requires Tracks(st, p)
    requires NoDuplicates(order) && forall k :: k in order ==> k in st.toolCalls
    ensures AcceptAll(p, CloseTools(san, st, order)) == Some(p.(open := Unclosed(st, p, order)))
  {
    if order == [] {
      assert Unclosed(st, p, order) == p.open;
    } else {
      var init, k := order[..|order| - 1], order[|order| - 1];
      assert order == init + [k];
      CloseToolsAccepted(san, st, p, init);
      AcceptAppend(p, CloseTools(san, st, init), CloseTool(san, st, k));
      CloseToolAccepted(san, st, p, init, k);
    }
  }

  lemma CloseToolAccepted(san: Sanitizer, st: State, p: Protocol, init: seq<int>, k: int)
    requires Tracks(st, p)
    requires k in st.toolCalls && k !in init && forall j :: j in init ==> j in st.toolCalls
    ensures AcceptAll(p.(open := Unclosed(st, p, init)), CloseTool(san, st, k)) ==
            Some(p.(open := Unclosed(st, p, init + [k])))
  {
    var b := st.toolCalls[k].blockIndex;
    assert !Closes(st, init, b);
    AcceptTwo(p.(open := Unclosed(st, p, init)), CloseTool(san, st, k));
    forall i: nat
      ensures Closes(st, init + [k], i) <==> Closes(st, init, i) || i == b
    {
      ClosesExtend(st, init, k, i);
    }
    assert Unclosed(st, p, init) - {b} == Unclosed(st, p, init + [k]);
  }

  /** With text and thinking stopped, closing the known tools leaves just the leaked blocks. */
  lemma ClosingAccepted(san: Sanitizer, st: State, p: Protocol, reason: string, order: seq<int>)
    requires Tracks(st, p) && Enumerates(order, st.toolCalls.Keys)
    requires !st.thinkingStarted && !st.textStarted
    ensures var end := AcceptAll(p, CloseTools(san, st, order) + MessageEnd(st, reason));
      if Leaks(st, p) then end == None else end.Some? && end.value.phase == Done
  {
    var closing, ending := CloseTools(san, st, order), MessageEnd(st, reason);
    CloseToolsAccepted(san, st, p, order);
    AcceptAppend(p, closing, ending);
    var left := Unclosed(st, p, order);
    forall i | i in p.open
      ensures i in left <==> !Owned(st, i)
    {
    }
    AcceptTwo(p.(open := left), ending);
    if Leaks(st, p) {
      var i :| i in p.open && p.open[i] == ToolUse && !Owned(st, i);
      assert i in left;
    } else {
      assert left.Keys == {};
      assert left == map[];
    }
  }

  /** The finish step ends the message properly exactly when no block has leaked. */
  lemma FinishAccepted(san: Sanitizer, st: State, p: Protocol, reason: string, order: seq<int>)
    requires Tracks(st, p) && Enumerates(order, st.toolCalls.Keys)
    ensures var end := AcceptAll(p, Finish(san, st, reason, order).events);
      if Leaks(st, p) then end == None else end.Some? && end.value.phase == Done
  {
    var a := StopThinking(st);
    var q0 := StopThinkingTracks(st, p);
    var b := StopText(a.st);
    var q1 := StopTextTracks(a.st, q0);
    var closing := CloseTools(san, b.st, order) + MessageEnd(b.st, reason);
    ClosingAccepted(san, b.st, q1, reason, order);
    AcceptAppend(p, a.events + b.events, closing);
    AcceptAppend(p, a.events, b.events);
    assert Finish(san, st, reason, order).events == a.events + b.events + closing;
  }

  // ---------- Main results ----------

  lemma {:induction false} OpenRunFollows(san: Sanitizer, run: seq<Arrival>) returns (p: Protocol)
    requires Valid(san, run)
    requires forall i :: 0 <= i < |run| ==> !run[i].chunk.Finishes()
    ensures AcceptAll(START, Run(san, run).events) == Some(p)
    ensures Follows(Run(san, run).st, p, AllOpenings(run))
  {
    if run == [] {
      p := START;
    } else {
      var init, last := run[..|run| - 1], run[|run| - 1];
      var a := Run(san, init);
      var q := OpenRunFollows(san, init);
      p := BodyTracks(a.st, q, AllOpenings(init), last.chunk);
      AcceptAppend(START, a.events, Body(a.st, last.chunk).events);
    }
  }

  /** While no finish reason has arrived, nothing a client has seen is ever wrong, whatever the
      upstream sends. */
  lemma {:induction false} OpenRunIsSafe(san: Sanitizer, run: seq<Arrival>)
    requires Valid(san, run)
    requires forall i :: 0 <= i < |run| ==> !run[i].chunk.Finishes()
    ensures SafeSoFar(Run(san, run).events)
  {
    var p := OpenRunFollows(san, run);
  }

  /** At the first finish the message is complete if no tool slot was opened by two fragments, and
      broken for good if one was. */
  lemma {:induction false} FinishedRun(san: Sanitizer, run: seq<Arrival>)
    requires Valid(san, run) && EndsWithFinish(run)
    ensures var end := AcceptAll(START, Run(san, run).events);
      if NoDuplicates(AllOpenings(run)) then end.Some? && end.value.phase == Done else end == None
  {
    var init, last := run[..|run| - 1], run[|run| - 1];
    var a := Run(san, init);
    var q := OpenRunFollows(san, init);
    var b := Body(a.st, last.chunk);
    var p := BodyTracks(a.st, q, AllOpenings(init), last.chunk);
    var f := Finish(san, b.st, last.chunk.choices[0].finishReason.value, last.order);
    FinishAccepted(san, b.st, p, last.chunk.choices[0].finishReason.value, last.order);
    assert Run(san, run).events == a.events + (b.events + f.events);
    AcceptAppend(START, a.events, b.events + f.events);
    AcceptAppend(q, b.events, f.events);
  }

  /** So up to its first finish a message is well formed if and only if no tool slot was opened
      by two fragments. */
  lemma {:induction false} FinishedRunWellFormedIff(san: Sanitizer, run: seq<Arrival>)
    requires Valid(san, run) && EndsWithFinish(run)
    ensures WellFormed(Run(san, run).events) <==> NoDuplicates(AllOpenings(run))
  {
    FinishedRun(san, run);
  }

  lemma {:induction false} FinishedIsCreated(san: Sanitizer, run: seq<Arrival>)
    requires Valid(san, run) && EndsWithFinish(run)
    ensures Run(san, run).st.created && Run(san, run).st.messageStartSent
  {
    var init, last := run[..|run| - 1], run[|run| - 1];
    var q := OpenRunFollows(san, init);
    var p := BodyTracks(Run(san, init).st, q, AllOpenings(init), last.chunk);
    assert Tracks(Body(Run(san, init).st, last.chunk).st, p);
  }

  /** A chunk that adds no event once the message has begun. */
  predicate Silent(c: Chunk) {
    c.choices == [] ||
    (&& c.choices[0].delta.ReasoningText() == "" && c.choices[0].delta.content == ""
     && c.choices[0].finishReason == None && Openings(c.choices[0].delta.toolCalls) == [])
  }

  lemma {:induction false} ToolsSilentIff(st: State, ts: seq<ToolFragment>)
    ensures Tools(st, ts).events == [] <==> Openings(ts) == []
  {
    if ts != [] {
      ToolsSilentIff(st, ts[..|ts| - 1]);
      ToolSilentIff(Tools(st, ts[..|ts| - 1]).st, ts[|ts| - 1]);
    }
  }

  lemma ToolSilentIff(st: State, t: ToolFragment)
    ensures Tool(st, t).events == [] <==> t.id == ""
    ensures Tool(st, t).st.created == st.created && Tool(st, t).st.messageStartSent == st.messageStartSent
  {
  }

  lemma SilentIff(san: Sanitizer, st: State, c: Chunk, order: seq<int>)
    requires OrderFits(st, c, order) && st.created && st.messageStartSent
    ensures Step(san, st, c, order).events == [] <==> Silent(c)
    ensures Step(san, st, c, order).st.created && Step(san, st, c, order).st.messageStartSent
  {
    BodyKeepsStarted(st, c);
    if c.choices != [] {
      var a := Announce(st.(created := true, usage := MergeUsage(st.usage, c.usage)));
      var r := Reason(a.st, c.choices[0].delta.ReasoningText());
      var s := Say(r.st, c.choices[0].delta.content);
      ToolsSilentIff(s.st, c.choices[0].delta.toolCalls);
    }
  }

  lemma {:induction false} ToolsKeepStarted(st: State, ts: seq<ToolFragment>)
    ensures Tools(st, ts).st.created == st.created && Tools(st, ts).st.messageStartSent == st.messageStartSent
  {
    if ts != [] {
      ToolsKeepStarted(st, ts[..|ts| - 1]);
      ToolSilentIff(Tools(st, ts[..|ts| - 1]).st, ts[|ts| - 1]);
    }
  }

  lemma BodyKeepsStarted(st: State, c: Chunk)
    requires st.created && st.messageStartSent
    ensures Body(st, c).st.created && Body(st, c).st.messageStartSent
  {
    if c.choices != [] {
      var a := Announce(st.(created := true, usage := MergeUsage(st.usage, c.usage)));
      var r := Reason(a.st, c.choices[0].delta.ReasoningText());
      ToolsKeepStarted(Say(r.st, c.choices[0].delta.content).st, c.choices[0].delta.toolCalls);
    }
  }

  /** The first finish is at f. */
  predicate FinishesAt(run: seq<Arrival>, f: nat) {
    f < |run| && EndsWithFinish(run[..f + 1])
  }

  /** No tool slot is opened twice up to and including chunk f. */
  ghost predicate CleanTo(run: seq<Arrival>, f: nat)
    requires f < |run|
  {
    NoDuplicates(AllOpenings(run[..f + 1]))
  }

  predicate SilentAfter(run: seq<Arrival>, f: nat) {
    forall i :: f < i < |run| ==> Silent(run[i].chunk)
  }

  lemma SilentAfterSnoc(run: seq<Arrival>, f: nat)
    requires f < |run| - 1
    ensures SilentAfter(run, f) <==> SilentAfter(run[..|run| - 1], f) && Silent(run[|run| - 1].chunk)
  {
  }

  /** Once finished, an accepted stream stays accepted exactly as long as it stays silent. */
  lemma {:induction false} AfterFinish(san: Sanitizer, run: seq<Arrival>, f: nat)
    requires Valid(san, run) && FinishesAt(run, f)
    ensures var end := AcceptAll(START, Run(san, run).events);
      if CleanTo(run, f) && SilentAfter(run, f)
      then end.Some? && end.value.phase == Done
      else end == None
    ensures Run(san, run).st.created && Run(san, run).st.messageStartSent
    decreases |run|
  {
    if |run| == f + 1 {
      assert run[..f + 1] == run;
      FinishedRun(san, run);
      FinishedIsCreated(san, run);
    } else {
      var init, last := run[..|run| - 1], run[|run| - 1];
      var a := Run(san, init);
      assert init[..f + 1] == run[..f + 1];
      AfterFinish(san, init, f);
      SilentIff(san, a.st, last.chunk, last.order);
      var more := Step(san, a.st, last.chunk, last.order).events;
      AcceptAppend(START, a.events, more);
      if AcceptAll(START, a.events).Some? {
        NothingAfterDone(AcceptAll(START, a.events).value, more);
      }
      SilentAfterSnoc(run, f);
    }
  }

  lemma {:induction false} FinishedAtIff(san: Sanitizer, run: seq<Arrival>, f: nat)
    requires Valid(san, run) && FinishesAt(run, f)
    ensures WellFormed(Run(san, run).events) <==> CleanTo(run, f) && SilentAfter(run, f)
  {
    AfterFinish(san, run, f);
  }

  /** Main result, for any stream at all: it is well formed if and only if it has a finish, no tool
      slot was opened twice up to the first one, and nothing but silent chunks follow it. */
  lemma {:induction false} WellFormedIff(san: Sanitizer, run: seq<Arrival>)
    requires Valid(san, run)
    ensures WellFormed(Run(san, run).events) <==>
            exists f: nat :: FinishesAt(run, f) && CleanTo(run, f) && SilentAfter(run, f)
  {
    if forall i :: 0 <= i < |run| ==> !run[i].chunk.Finishes() {
      var p := OpenRunFollows(san, run);
    } else {
      var f := FirstFinish(run);
      AfterFinish(san, run, f);
      forall g: nat | FinishesAt(run, g)
        ensures g == f
      {
        if f < g {
          OneFirstFinish(run, f, g);
        } else if g < f {
          OneFirstFinish(run, g, f);
        }
      }
    }
  }

  lemma OneFirstFinish(run: seq<Arrival>, f: nat, g: nat)
    requires f < g < |run| && FinishesAt(run, f)
    ensures !FinishesAt(run, g)
  {
    assert run[..g + 1][f] == run[f] == run[..f + 1][f];
  }

  lemma {:induction false} FirstFinish(run: seq<Arrival>) returns (f: nat)
    requires exists i :: 0 <= i < |run| && run[i].chunk.Finishes()
    ensures FinishesAt(run, f)
  {
    f := 0;
    while !run[f].chunk.Finishes()
      invariant 0 <= f < |run|
      invariant forall i :: 0 <= i < f ==> !run[i].chunk.Finishes()
      invariant exists i :: f <= i < |run| && run[i].chunk.Finishes()
      decreases |run| - f
    {
      f := f + 1;
    }
    assert run[..f + 1][f] == run[f];
  }

  /** Chunks without choices that trail a finished message (usage sidecars) are always possible and
      change nothing a client sees. */
  lemma {:induction false} SidecarsAreSilent(san: Sanitizer, run: seq<Arrival>, tail: seq<Arrival>)
    requires Valid(san, run) && EndsWithFinish(run)
    requires forall i :: 0 <= i < |tail| ==> tail[i].chunk.choices == []
    ensures Valid(san, run + tail)
    ensures Run(san, run + tail).events == Run(san, run).events
    ensures Run(san, run + tail).st.created && Run(san, run + tail).st.messageStartSent
  {
    if tail == [] {
      assert run + tail == run;
      FinishedIsCreated(san, run);
    } else {
      var init, last := tail[..|tail| - 1], tail[|tail| - 1];
      assert tail == init + [last];
      Assoc(run, init, [last]);
      SidecarsAreSilent(san, run, init);
      OneSidecar(san, run + init, last);
    }
  }

  lemma {:induction false} OneSidecar(san: Sanitizer, run: seq<Arrival>, x: Arrival)
    requires Valid(san, run) && Run(san, run).st.created && Run(san, run).st.messageStartSent && x.chunk.choices == []
    ensures Valid(san, run + [x]) && Run(san, run + [x]).events == Run(san, run).events
    ensures Run(san, run + [x]).st.created && Run(san, run + [x]).st.messageStartSent
  {
    RunExtend(san, run, x);
    SilentIff(san, Run(san, run).st, x.chunk, x.order);
    assert Run(san, run).events + [] == Run(san, run).events;
  }

  /** A second finish breaks the message, even one that carries nothing else. */
  method TwoFinishes(san: Sanitizer) returns (events: seq<Event>)
    ensures !WellFormed(events)
  {
    var first := Chunk([Choice(Delta("hi", "", "", []), Some("stop"))], None);
    var second := Chunk([Choice(Delta("", "", "", []), Some("stop"))], None);
    var run;
    events, run := TranslateStream(san, [first, second]);
    assert run[..1][0].chunk.Finishes();
    AfterFinish(san, run, 0);
    assert !Silent(run[1].chunk);
  }
}
