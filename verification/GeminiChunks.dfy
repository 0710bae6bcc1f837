/** The Gemini chunk translator (TranslateGeminiChunkToOpenAI, internal/translator/gemini.go), whose
    output the Claude stream translator reads: every function call is a chunk of its own, at index 0. */
module GeminiChunks {
  import opened Prelude
  import opened ClaudeStream
  import opened StreamProtocol

  /** name is the uncloaked one; stamp is the clock reading the source puts into the id. */
  datatype Call = Call(name: string, arguments: string, stamp: string, signature: string)

  datatype Part = Part(text: string, thought: bool, call: Option<Call>)

  /** finishReason is "" when absent; without a candidate there are no parts to look at. */
  datatype Candidate = Candidate(parts: seq<Part>, finishReason: string)

  datatype GeminiChunk = GeminiChunk(candidate: Option<Candidate>, usage: Option<Usage>)

  function CallID(c: Call): string {
    "call_" + c.name + "_" + c.stamp + (if c.signature != "" then "__ts__" + c.signature else "")
  }

  function Speak(d: Delta, finishReason: Option<string>, usage: Option<Usage>): Chunk {
    Chunk([Choice(d, finishReason)], usage)
  }

  const EMPTY_DELTA := Delta("", "", "", [])

  function PartDelta(p: Part): Delta {
    Delta(if p.thought then "" else p.text,
          if p.thought then p.text else "",
          "",
          if p.call.Some? then [CallFragment(p.call.value)] else [])
  }

  function CallFragment(c: Call): ToolFragment {
    ToolFragment(Some(0), CallID(c), Some(FunctionFragment(c.name, c.arguments)))
  }

  /** A part with neither text nor call makes no chunk. */
  function PartChunks(p: Part): seq<Chunk> {
    if PartDelta(p) == EMPTY_DELTA then [] else [Speak(PartDelta(p), None, None)]
  }

  function AllPartChunks(ps: seq<Part>): seq<Chunk> {
    if ps == [] then [] else AllPartChunks(ps[..|ps| - 1]) + PartChunks(ps[|ps| - 1])
  }

  function FinishChunks(c: Candidate, usage: Option<Usage>): seq<Chunk> {
    if c.finishReason == "" then []
    else [Speak(EMPTY_DELTA, Some(if c.finishReason == "MAX_TOKENS" then "length" else "stop"),
                Some(if usage.Some? then usage.value else Usage(0, 0)))]
  }

  function Translated(g: GeminiChunk, started: bool): seq<Chunk> {
    if g.candidate == None && g.usage == None then []
    else
      var role := if started then [] else [Speak(EMPTY_DELTA, None, None)];
      var said := if g.candidate.Some?
                  then AllPartChunks(g.candidate.value.parts) + FinishChunks(g.candidate.value, g.usage) else [];
      if role + said == [] && g.usage.Some? then [Chunk([], g.usage)] else role + said
  }

  method TranslatePart(p: Part) returns (delta: Delta)
    ensures delta == PartDelta(p)
  {
    delta := EMPTY_DELTA;
    if p.text != "" && !p.thought {
      delta := delta.(content := p.text);
    }
    if p.text != "" && p.thought {
      delta := delta.(reasoningContent := p.text);
    }
    if p.call.Some? {
      var fn := FunctionFragment(p.call.value.name, p.call.value.arguments);
      delta := delta.(toolCalls := [ToolFragment(Some(0), CallID(p.call.value), Some(fn))]);
    }
  }

  method TranslateParts(parts: seq<Part>) returns (results: seq<Chunk>)
    ensures results == AllPartChunks(parts)
  {
    results := [];
    for i := 0 to |parts|
      invariant results == AllPartChunks(parts[..i])
    {
      assert parts[..i + 1][..i] == parts[..i];
      var delta := TranslatePart(parts[i]);
      if delta != EMPTY_DELTA {
        results := results + [Speak(delta, None, None)];
      }
    }
    assert parts[..|parts|] == parts;
  }

  method TranslateCandidate(c: Candidate, usage: Option<Usage>) returns (results: seq<Chunk>)
    ensures results == AllPartChunks(c.parts) + FinishChunks(c, usage)
  {
    results := TranslateParts(c.parts);
    if c.finishReason != "" {
      var reason := if c.finishReason == "MAX_TOKENS" then "length" else "stop";
      var counts := if usage.Some? then usage.value else Usage(0, 0);
      results := results + [Speak(EMPTY_DELTA, Some(reason), Some(counts))];
    }
  }

  method TranslateChunk(g: GeminiChunk, started: bool) returns (results: seq<Chunk>, started': bool)
    ensures results == Translated(g, started)
    ensures started' == (started || g.candidate.Some? || g.usage.Some?)
  {
    results, started' := [], started;
    if g.candidate == None && g.usage == None {
      return;
    }
    if !started {
      started' := true;
      results := [Speak(EMPTY_DELTA, None, None)];
    }
    if g.candidate.Some? {
      var said := TranslateCandidate(g.candidate.value, g.usage);
      results := results + said;
    }
    if results == [] && g.usage.Some? {
      results := [Chunk([], g.usage)];
    }
  }

  // ---------- A stream of Gemini chunks ----------

  predicate Speaks(g: GeminiChunk) {
    g.candidate.Some? || g.usage.Some?
  }

  predicate Started(gs: seq<GeminiChunk>) {
    exists i :: 0 <= i < |gs| && Speaks(gs[i])
  }

  /** All the chunks that a stream of Gemini chunks becomes: the role goes ahead of the first one. */
  function Fed(gs: seq<GeminiChunk>): seq<Chunk> {
    if gs == [] then [] else Fed(gs[..|gs| - 1]) + Translated(gs[|gs| - 1], Started(gs[..|gs| - 1]))
  }

  /** The callback of handleGeminiStream, which keeps the translator's state between calls. */
  method TranslateChunks(gs: seq<GeminiChunk>) returns (results: seq<Chunk>)
    ensures results == Fed(gs)
  {
    results := [];
    var started := false;
    for i := 0 to |gs|
      invariant results == Fed(gs[..i]) && started == Started(gs[..i])
    {
      assert gs[..i + 1][..i] == gs[..i];
      StartedSnoc(gs[..i], gs[i]);
      assert gs[..i + 1] == gs[..i] + [gs[i]];
      var out;
      out, started := TranslateChunk(gs[i], started);
      results := results + out;
    }
    assert gs[..|gs|] == gs;
  }

  lemma StartedSnoc(gs: seq<GeminiChunk>, g: GeminiChunk)
    ensures Started(gs + [g]) <==> Started(gs) || Speaks(g)
  {
    assert (gs + [g])[|gs|] == g;
    assert forall i :: 0 <= i < |gs| ==> (gs + [g])[i] == gs[i];
  }

  lemma FedSnoc(gs: seq<GeminiChunk>, g: GeminiChunk)
    ensures Fed(gs + [g]) == Fed(gs) + Translated(g, Started(gs))
  {
    assert (gs + [g])[..|gs|] == gs;
  }

  function CallsIn(ps: seq<Part>): nat {
    if ps == [] then 0 else CallsIn(ps[..|ps| - 1]) + (if ps[|ps| - 1].call.Some? then 1 else 0)
  }

  function Calls(g: GeminiChunk): nat {
    if g.candidate.Some? then CallsIn(g.candidate.value.parts) else 0
  }

  function AllCalls(gs: seq<GeminiChunk>): nat {
    if gs == [] then 0 else AllCalls(gs[..|gs| - 1]) + Calls(gs[|gs| - 1])
  }

  predicate Ends(g: GeminiChunk) {
    g.candidate.Some? && g.candidate.value.finishReason != ""
  }

  /** No finish, no text and no call. */
  predicate Mute(g: GeminiChunk) {
    g.candidate.Some? ==>
      g.candidate.value.finishReason == "" && forall p :: p in g.candidate.value.parts ==> !Says(p)
  }

  // ---------- What its chunks open ----------

  function OpeningsIn(cs: seq<Chunk>): seq<int> {
    if cs == [] then [] else OpeningsIn(cs[..|cs| - 1]) + Openings(cs[|cs| - 1].Fragments())
  }

  lemma {:induction false} OpeningsAppend(a: seq<Chunk>, b: seq<Chunk>)
    ensures OpeningsIn(a + b) == OpeningsIn(a) + OpeningsIn(b)
  {
    if b == [] {
      assert a + b == a;
    } else {
      var init, last := b[..|b| - 1], b[|b| - 1];
      assert (a + b)[..|a + b| - 1] == a + init && (a + b)[|a + b| - 1] == last;
      OpeningsAppend(a, init);
      Assoc(OpeningsIn(a), OpeningsIn(init), Openings(last.Fragments()));
    }
  }

  /** n times index 0. */
  function Zeros(n: nat): seq<int> {
    seq(n, _ => 0)
  }

  lemma ZerosAppend(m: nat, n: nat)
    ensures Zeros(m) + Zeros(n) == Zeros(m + n) && Zeros(0) == []
  {
  }

  predicate AllSilent(cs: seq<Chunk>) {
    forall c :: c in cs ==> Silent(c)
  }

  lemma SilentAppend(a: seq<Chunk>, b: seq<Chunk>)
    ensures AllSilent(a + b) <==> AllSilent(a) && AllSilent(b)
  {
    assert forall c :: c in a + b <==> c in a || c in b;
  }

  predicate Says(p: Part) {
    p.text != "" || p.call.Some?
  }

  lemma PartChunk(p: Part)
    ensures PartChunks(p) == if Says(p) then [Speak(PartDelta(p), None, None)] else []
    ensures OpeningsIn(PartChunks(p)) == Zeros(if p.call.Some? then 1 else 0)
    ensures Silent(Speak(PartDelta(p), None, None)) <==> !Says(p)
  {
    if p.call.Some? {
      var t := CallFragment(p.call.value);
      assert [t][..0] == [] && Openings([t]) == Openings([t][..0]) + [0];
    }
    if Says(p) {
      var c := Speak(PartDelta(p), None, None);
      assert [c][..0] == [] && OpeningsIn([c]) == OpeningsIn([c][..0]) + Openings(PartDelta(p).toolCalls);
    }
  }

  lemma {:induction false} PartsOpen(ps: seq<Part>)
    ensures OpeningsIn(AllPartChunks(ps)) == Zeros(CallsIn(ps))
  {
    if ps != [] {
      var init, p := ps[..|ps| - 1], ps[|ps| - 1];
      PartsOpen(init);
      PartChunk(p);
      OpeningsAppend(AllPartChunks(init), PartChunks(p));
      ZerosAppend(CallsIn(init), if p.call.Some? then 1 else 0);
    }
  }

  lemma {:induction false} PartsStayOpen(ps: seq<Part>)
    ensures StaysOpen(AllPartChunks(ps))
  {
    if ps != [] {
      PartsStayOpen(ps[..|ps| - 1]);
      PartChunk(ps[|ps| - 1]);
      OpenThen(AllPartChunks(ps[..|ps| - 1]), PartChunks(ps[|ps| - 1]));
    }
  }

  lemma {:induction false} PartsMute(ps: seq<Part>)
    ensures AllSilent(AllPartChunks(ps)) <==> forall p :: p in ps ==> !Says(p)
  {
    if ps != [] {
      var init, p := ps[..|ps| - 1], ps[|ps| - 1];
      assert ps == init + [p];
      PartsMute(init);
      PartChunk(p);
      SilentAppend(AllPartChunks(init), PartChunks(p));
      assert Says(p) ==> PartChunks(p)[0] in PartChunks(p);
    }
  }

  lemma FinishOpens(c: Candidate, usage: Option<Usage>)
    ensures OpeningsIn(FinishChunks(c, usage)) == []
  {
    if c.finishReason != "" {
      BareOpens(FinishChunks(c, usage)[0]);
    }
  }

  lemma BareOpens(c: Chunk)
    requires c.Fragments() == []
    ensures OpeningsIn([c]) == []
  {
    assert OpeningsIn([c]) == OpeningsIn([c][..0]) + Openings([]);
  }

  /** What the candidate of g says. */
  function Said(g: GeminiChunk): seq<Chunk> {
    if g.candidate.Some? then AllPartChunks(g.candidate.value.parts) + FinishChunks(g.candidate.value, g.usage) else []
  }

  lemma SaidOpens(g: GeminiChunk)
    ensures OpeningsIn(Said(g)) == Zeros(Calls(g))
  {
    if g.candidate.Some? {
      var c := g.candidate.value;
      PartsOpen(c.parts);
      FinishOpens(c, g.usage);
      OpeningsAppend(AllPartChunks(c.parts), FinishChunks(c, g.usage));
      ZerosAppend(CallsIn(c.parts), 0);
    }
  }

  lemma SaidEnds(g: GeminiChunk)
    ensures if Ends(g) then EndsOpen(Said(g)) else StaysOpen(Said(g))
  {
    if g.candidate.Some? {
      PartsStayOpen(g.candidate.value.parts);
    }
  }

  lemma SaidMute(g: GeminiChunk)
    ensures AllSilent(Said(g)) <==> Mute(g)
  {
    if g.candidate.Some? {
      var c := g.candidate.value;
      PartsMute(c.parts);
      SilentAppend(AllPartChunks(c.parts), FinishChunks(c, g.usage));
      if Ends(g) {
        assert FinishChunks(c, g.usage)[0] in FinishChunks(c, g.usage);
      }
    }
  }

  const ROLE := Speak(EMPTY_DELTA, None, None)

  lemma TranslatedIs(g: GeminiChunk, started: bool)
    ensures var cs := Translated(g, started);
      || cs == Said(g)
      || (Said(g) == [] && cs == [Chunk([], g.usage)])
      || (!started && cs == [ROLE] + Said(g))
  {
    assert [] + Said(g) == Said(g);
  }

  lemma ChunkOpens(g: GeminiChunk, started: bool)
    ensures OpeningsIn(Translated(g, started)) == Zeros(Calls(g))
  {
    SaidOpens(g);
    BareOpens(ROLE);
    BareOpens(Chunk([], g.usage));
    OpeningsAppend([ROLE], Said(g));
    TranslatedIs(g, started);
    ZerosAppend(0, Calls(g));
  }

  lemma ChunkEnds(g: GeminiChunk, started: bool)
    ensures if Ends(g) then EndsOpen(Translated(g, started)) else StaysOpen(Translated(g, started))
  {
    SaidEnds(g);
    OpenThen([ROLE], Said(g));
    TranslatedIs(g, started);
  }

  /** After the first chunk, only a mute one is silent. */
  lemma ChunkMute(g: GeminiChunk)
    ensures AllSilent(Translated(g, true)) <==> Mute(g)
  {
    SaidMute(g);
    TranslatedIs(g, true);
  }

  lemma {:induction false} FedOpens(gs: seq<GeminiChunk>)
    ensures OpeningsIn(Fed(gs)) == Zeros(AllCalls(gs))
  {
    if gs != [] {
      var init, g := gs[..|gs| - 1], gs[|gs| - 1];
      FedOpens(init);
      ChunkOpens(g, Started(init));
      OpeningsAppend(Fed(init), Translated(g, Started(init)));
      ZerosAppend(AllCalls(init), Calls(g));
    }
  }

  predicate StaysOpen(cs: seq<Chunk>) {
    forall i :: 0 <= i < |cs| ==> !cs[i].Finishes()
  }

  /** Only the last chunk carries a finish. */
  predicate EndsOpen(cs: seq<Chunk>) {
    cs != [] && forall i :: 0 <= i < |cs| ==> (cs[i].Finishes() <==> i == |cs| - 1)
  }

  lemma OpenThen(a: seq<Chunk>, b: seq<Chunk>)
    requires StaysOpen(a)
    ensures StaysOpen(b) ==> StaysOpen(a + b)
    ensures EndsOpen(b) ==> EndsOpen(a + b)
  {
  }

  lemma {:induction false} FedStaysOpen(gs: seq<GeminiChunk>)
    requires forall i :: 0 <= i < |gs| ==> !Ends(gs[i])
    ensures StaysOpen(Fed(gs))
  {
    if gs != [] {
      var init, g := gs[..|gs| - 1], gs[|gs| - 1];
      FedStaysOpen(init);
      ChunkEnds(g, Started(init));
      OpenThen(Fed(init), Translated(g, Started(init)));
    }
  }

  // ---------- Main result ----------

  /** The first finish comes with Gemini chunk f. */
  predicate EndsAt(gs: seq<GeminiChunk>, f: nat) {
    f < |gs| && Ends(gs[f]) && forall i :: 0 <= i < f ==> !Ends(gs[i])
  }

  predicate MuteAfter(gs: seq<GeminiChunk>, f: nat) {
    forall i :: f < i < |gs| ==> Mute(gs[i])
  }

  /** Up to Gemini chunk f the stream is open until its last chunk; what follows is silent exactly
      when the Gemini chunks that follow are mute. */
  lemma {:induction false} FedAfter(gs: seq<GeminiChunk>, f: nat) returns (rest: seq<Chunk>)
    requires EndsAt(gs, f)
    ensures Fed(gs) == Fed(gs[..f + 1]) + rest && EndsOpen(Fed(gs[..f + 1]))
    ensures AllSilent(rest) <==> MuteAfter(gs, f)
    decreases |gs|
  {
    var init, g := gs[..|gs| - 1], gs[|gs| - 1];
    if f == |gs| - 1 {
      rest := [];
      assert gs[..f + 1] == gs;
      FedStaysOpen(init);
      ChunkEnds(g, Started(init));
      OpenThen(Fed(init), Translated(g, Started(init)));
    } else {
      assert init[f] == gs[f] && Speaks(gs[f]) && init[..f + 1] == gs[..f + 1];
      var past := FedAfter(init, f);
      rest := past + Translated(g, true);
      Assoc(Fed(gs[..f + 1]), past, Translated(g, true));
      SilentAppend(past, Translated(g, true));
      ChunkMute(g);
      MuteSnoc(gs, f);
    }
  }

  lemma MuteSnoc(gs: seq<GeminiChunk>, f: nat)
    requires f < |gs| - 1
    ensures MuteAfter(gs, f) <==> MuteAfter(gs[..|gs| - 1], f) && Mute(gs[|gs| - 1])
  {
  }

  lemma {:induction false} OpeningsOfRun(run: seq<Arrival>, cs: seq<Chunk>)
    requires |run| == |cs| && forall i :: 0 <= i < |run| ==> run[i].chunk == cs[i]
    ensures AllOpenings(run) == OpeningsIn(cs)
  {
    if run != [] {
      OpeningsOfRun(run[..|run| - 1], cs[..|cs| - 1]);
    }
  }

  lemma ZerosDistinctIff(n: nat)
    ensures NoDuplicates(Zeros(n)) <==> n <= 1
  {
    if n > 1 {
      assert Zeros(n)[0] == Zeros(n)[1];
    }
  }

  /** Main result: a Gemini stream, however many chunks it comes in, reaches a Claude client well formed
      if and only if it has a finish, makes at most one function call up to it, since a second one
      overwrites the first at index 0, and says nothing behind it. */
  lemma {:induction false} GeminiStreamWellFormedIff(san: Sanitizer, gs: seq<GeminiChunk>, run: seq<Arrival>,
      events: seq<Event>)
    requires Streams(san, Fed(gs), run, events)
    ensures WellFormed(events) <==> exists f: nat :: EndsAt(gs, f) && AllCalls(gs[..f + 1]) <= 1 && MuteAfter(gs, f)
  {
    if forall i :: 0 <= i < |gs| ==> !Ends(gs[i]) {
      FedStaysOpen(gs);
      WellFormedIff(san, run);
    } else {
      var f := FirstEnd(gs);
      EndedWellFormedIff(san, gs, run, events, f);
    }
  }

  lemma FirstEnd(gs: seq<GeminiChunk>) returns (f: nat)
    requires exists i :: 0 <= i < |gs| && Ends(gs[i])
    ensures EndsAt(gs, f) && forall g: nat :: EndsAt(gs, g) ==> g == f
  {
    f := 0;
    while !Ends(gs[f])
      invariant f < |gs| && forall i :: 0 <= i < f ==> !Ends(gs[i])
      invariant exists i :: f <= i < |gs| && Ends(gs[i])
      decreases |gs| - f
    {
      f := f + 1;
    }
  }

  lemma {:induction false} EndedWellFormedIff(san: Sanitizer, gs: seq<GeminiChunk>, run: seq<Arrival>,
      events: seq<Event>, f: nat)
    requires Streams(san, Fed(gs), run, events) && EndsAt(gs, f)
    ensures WellFormed(events) <==> AllCalls(gs[..f + 1]) <= 1 && MuteAfter(gs, f)
  {
    var rest := FedAfter(gs, f);
    var n := FedRun(gs, f, run, rest);
    FinishedAtIff(san, run, n);
  }

  /** Where the run over them finishes, and when it is clean and silent. */
  lemma {:induction false} FedRun(gs: seq<GeminiChunk>, f: nat, run: seq<Arrival>, rest: seq<Chunk>) returns (n: nat)
    requires f < |gs| && Fed(gs) == Fed(gs[..f + 1]) + rest && EndsOpen(Fed(gs[..f + 1]))
    requires |run| == |Fed(gs)| && forall i :: 0 <= i < |run| ==> run[i].chunk == Fed(gs)[i]
    ensures FinishesAt(run, n)
    ensures CleanTo(run, n) && SilentAfter(run, n) <==> AllCalls(gs[..f + 1]) <= 1 && AllSilent(rest)
  {
    var head := Fed(gs[..f + 1]);
    n := |head| - 1;
    FedOpens(gs[..f + 1]);
    ZerosDistinctIff(AllCalls(gs[..f + 1]));
    SplitRun(run, n, head, rest);
  }

  /** In a run over chunks of which head ends with the first finish. */
  lemma {:induction false} SplitRun(run: seq<Arrival>, n: nat, head: seq<Chunk>, rest: seq<Chunk>)
    requires EndsOpen(head) && |head| == n + 1
    requires |run| == |head + rest| && forall i :: 0 <= i < |run| ==> run[i].chunk == (head + rest)[i]
    ensures FinishesAt(run, n)
    ensures CleanTo(run, n) && SilentAfter(run, n) <==> NoDuplicates(OpeningsIn(head)) && AllSilent(rest)
  {
    HeadOfRun(run, n, head, rest);
    SilentRest(run, n, rest);
  }

  /** The run over head and rest first finishes where head does. */
  lemma {:induction false} HeadOfRun(run: seq<Arrival>, n: nat, head: seq<Chunk>, rest: seq<Chunk>)
    requires EndsOpen(head) && |head| == n + 1
    requires |run| == |head + rest| && forall i :: 0 <= i < |run| ==> run[i].chunk == (head + rest)[i]
    ensures FinishesAt(run, n) && (CleanTo(run, n) <==> NoDuplicates(OpeningsIn(head)))
  {
    var first := run[..n + 1];
    assert forall i :: 0 <= i < |head| ==> first[i].chunk == head[i];
    OpeningsOfRun(first, head);
  }

  lemma SilentRest(run: seq<Arrival>, n: nat, rest: seq<Chunk>)
    requires |run| == n + 1 + |rest| && forall i :: 0 <= i < |rest| ==> run[n + 1 + i].chunk == rest[i]
    ensures SilentAfter(run, n) <==> AllSilent(rest)
  {
    if SilentAfter(run, n) {
      forall c | c in rest
        ensures Silent(c)
      {
        var i :| 0 <= i < |rest| && rest[i] == c;
        assert Silent(run[n + 1 + i].chunk);
      }
    } else {
      var i :| n < i < |run| && !Silent(run[i].chunk);
      assert rest[i - n - 1] in rest;
    }
  }

  /** The smallest failing stream: two chunks with a call each, then the finish. */
  method TwoGeminiCalls(san: Sanitizer) returns (events: seq<Event>)
    ensures !WellFormed(events)
  {
    var a := GeminiChunk(Some(Candidate([Part("", false, Some(Call("f", "{}", "1", "")))], "")), None);
    var b := GeminiChunk(Some(Candidate([Part("", false, Some(Call("g", "{}", "2", "")))], "")), None);
    var c := GeminiChunk(Some(Candidate([], "STOP")), None);
    var chunks := TranslateChunks([a, b, c]);
    var run;
    events, run := TranslateStream(san, chunks);
    assert Calls(a) == 1 by {
      OneCall(Part("", false, Some(Call("f", "{}", "1", ""))));
    }
    assert Calls(b) == 1 by {
      OneCall(Part("", false, Some(Call("g", "{}", "2", ""))));
    }
    ThreeChunks(a, b, c);
    EndedWellFormedIff(san, [a, b, c], run, events, 2);
  }

  lemma OneCall(p: Part)
    requires p.call.Some?
    ensures CallsIn([p]) == 1
  {
    assert [p][..0] == [] && CallsIn([p]) == CallsIn([p][..0]) + 1;
  }

  lemma ThreeChunks(a: GeminiChunk, b: GeminiChunk, c: GeminiChunk)
    requires !Ends(a) && !Ends(b) && Ends(c)
    ensures EndsAt([a, b, c], 2) && AllCalls([a, b, c][..3]) == Calls(a) + Calls(b) + Calls(c)
  {
    assert [a, b, c][..3] == [a, b, c] && [a, b, c][..2] == [a, b] && [a, b][..1] == [a] && [a][..0] == [];
    assert AllCalls([a]) == AllCalls([a][..0]) + Calls(a) && AllCalls([a, b]) == AllCalls([a, b][..1]) + Calls(b);
  }
}
