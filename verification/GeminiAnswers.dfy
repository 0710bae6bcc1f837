/** What a Claude client reads of a Gemini answer once both translators are through with it
    (internal/translator/gemini.go, then internal/translator/response.go). */
module GeminiAnswers {
  import opened Prelude
  import opened ClaudeStream
  import opened StreamProtocol
  import opened GeminiChunks
  import opened Aggregation
  import opened StreamAgreement
  import opened ToolFragments
  import opened StreamTools

  // ---------- What the parts of an answer say ----------

  function PartsOf(g: GeminiChunk): seq<Part> {
    if g.candidate.Some? then g.candidate.value.parts else []
  }

  function AllParts(gs: seq<GeminiChunk>): seq<Part> {
    if gs == [] then [] else AllParts(gs[..|gs| - 1]) + PartsOf(gs[|gs| - 1])
  }

  /** The text of the parts that are not thoughts. */
  function Spoken(ps: seq<Part>): string {
    if ps == [] then "" else Spoken(ps[..|ps| - 1]) + (if ps[|ps| - 1].thought then "" else ps[|ps| - 1].text)
  }

  /** The text of those that are. */
  function Thought(ps: seq<Part>): string {
    if ps == [] then "" else Thought(ps[..|ps| - 1]) + (if ps[|ps| - 1].thought then ps[|ps| - 1].text else "")
  }

  function CallsMade(ps: seq<Part>): seq<Call> {
    if ps == [] then []
    else CallsMade(ps[..|ps| - 1]) + (if ps[|ps| - 1].call.Some? then [ps[|ps| - 1].call.value] else [])
  }

  /** A call as a fragment of its own, whole, at index 0. */
  function Fragment(c: Call): ToolFragment {
    var id := "call_" + c.name + "_" + c.stamp;
    ToolFragment(Some(0), if c.signature == "" then id else id + "__ts__" + c.signature,
                 Some(FunctionFragment(c.name, c.arguments)))
  }

  function Fragments(cs: seq<Call>): seq<ToolFragment> {
    seq(|cs|, i requires 0 <= i < |cs| => Fragment(cs[i]))
  }

  // ---------- What a list of chunks says ----------

  datatype Reading = Reading(text: string, thinking: string, fragments: seq<ToolFragment>)

  function Then(a: Reading, b: Reading): Reading {
    Reading(a.text + b.text, a.thinking + b.thinking, a.fragments + b.fragments)
  }

  const SILENCE := Reading("", "", [])

  function ReadAll(cs: seq<Chunk>): Reading {
    if cs == [] then SILENCE
    else
      var c := cs[|cs| - 1];
      Then(ReadAll(cs[..|cs| - 1]), Reading(TextOf(c), ThinkingOf(c), c.Fragments()))
  }

  lemma ThenAssociates(a: Reading, b: Reading, c: Reading)
    ensures Then(Then(a, b), c) == Then(a, Then(b, c)) && Then(a, SILENCE) == a == Then(SILENCE, a)
  {
    Assoc(a.text, b.text, c.text);
    Assoc(a.thinking, b.thinking, c.thinking);
    Assoc(a.fragments, b.fragments, c.fragments);
    assert a.text + "" == a.text && a.thinking + "" == a.thinking && a.fragments + [] == a.fragments;
    assert "" + a.text == a.text && "" + a.thinking == a.thinking && [] + a.fragments == a.fragments;
  }

  lemma {:induction false} ReadAppend(a: seq<Chunk>, b: seq<Chunk>)
    ensures ReadAll(a + b) == Then(ReadAll(a), ReadAll(b))
  {
    if b == [] {
      assert a + b == a;
      ThenAssociates(ReadAll(a), SILENCE, SILENCE);
    } else {
      var init, c := b[..|b| - 1], b[|b| - 1];
      assert (a + b)[..|a + b| - 1] == a + init && (a + b)[|a + b| - 1] == c;
      ReadAppend(a, init);
      ThenAssociates(ReadAll(a), ReadAll(init), Reading(TextOf(c), ThinkingOf(c), c.Fragments()));
    }
  }

  lemma ReadOne(c: Chunk)
    ensures ReadAll([c]) == Reading(TextOf(c), ThinkingOf(c), c.Fragments())
  {
    assert [c][..0] == [];
    ThenAssociates(Reading(TextOf(c), ThinkingOf(c), c.Fragments()), SILENCE, SILENCE);
  }

  function ReadPart(p: Part): Reading {
    Reading(if p.thought then "" else p.text, if p.thought then p.text else "",
            if p.call.Some? then [Fragment(p.call.value)] else [])
  }

  lemma PartReads(p: Part)
    ensures ReadAll(PartChunks(p)) == ReadPart(p)
  {
    if PartDelta(p) != EMPTY_DELTA {
      ReadOne(GeminiChunks.Speak(PartDelta(p), None, None));
    }
    if p.call.Some? {
      CallReads(p.call.value);
    }
  }

  lemma CallReads(c: Call)
    ensures CallFragment(c) == Fragment(c)
  {
    var id := "call_" + c.name + "_" + c.stamp;
    assert id + "" == id && id + ("__ts__" + c.signature) == id + "__ts__" + c.signature;
  }

  /** What the parts say, all together. */
  function PartsSay(ps: seq<Part>): Reading {
    Reading(Spoken(ps), Thought(ps), Fragments(CallsMade(ps)))
  }

  lemma PartsSaySnoc(ps: seq<Part>, p: Part)
    ensures PartsSay(ps + [p]) == Then(PartsSay(ps), ReadPart(p))
  {
    assert (ps + [p])[..|ps|] == ps;
    assert Fragments(CallsMade(ps + [p])) ==
           Fragments(CallsMade(ps)) + (if p.call.Some? then [Fragment(p.call.value)] else []);
  }

  lemma {:induction false} PartsSayAppend(a: seq<Part>, b: seq<Part>)
    ensures PartsSay(a + b) == Then(PartsSay(a), PartsSay(b))
  {
    if b == [] {
      assert a + b == a && PartsSay(b) == SILENCE;
      ThenAssociates(PartsSay(a), SILENCE, SILENCE);
    } else {
      var init, p := b[..|b| - 1], b[|b| - 1];
      assert a + b == a + init + [p] && b == init + [p];
      PartsSayAppend(a, init);
      PartsSaySnoc(a + init, p);
      PartsSaySnoc(init, p);
      ThenAssociates(PartsSay(a), PartsSay(init), ReadPart(p));
    }
  }

  lemma NoPartsRead()
    ensures ReadAll(AllPartChunks([])) == PartsSay([])
  {
  }

  lemma PartsReadNext(ps: seq<Part>, p: Part)
    requires ReadAll(AllPartChunks(ps)) == PartsSay(ps)
    ensures ReadAll(AllPartChunks(ps + [p])) == PartsSay(ps + [p])
  {
    hide PartsSay, ReadAll, ReadPart, PartChunks;
    assert (ps + [p])[..|ps|] == ps;
    PartReads(p);
    ReadAppend(AllPartChunks(ps), PartChunks(p));
    PartsSaySnoc(ps, p);
  }

  lemma {:induction false} PartsRead(ps: seq<Part>)
    ensures ReadAll(AllPartChunks(ps)) == PartsSay(ps)
  {
    hide PartsSay, ReadAll, AllPartChunks;
    if ps == [] {
      NoPartsRead();
    } else {
      var init, p := ps[..|ps| - 1], ps[|ps| - 1];
      PartsRead(init);
      PartsReadNext(init, p);
      assert ps == init + [p];
    }
  }

  lemma SaidReads(g: GeminiChunk)
    ensures ReadAll(GeminiChunks.Said(g)) == PartsSay(PartsOf(g))
  {
    if g.candidate.Some? {
      var c := g.candidate.value;
      PartsRead(c.parts);
      ReadAppend(AllPartChunks(c.parts), FinishChunks(c, g.usage));
      if c.finishReason != "" {
        ReadOne(FinishChunks(c, g.usage)[0]);
      }
      ThenAssociates(PartsSay(c.parts), SILENCE, SILENCE);
    }
  }

  lemma ChunkReads(g: GeminiChunk, started: bool)
    ensures ReadAll(Translated(g, started)) == PartsSay(PartsOf(g))
  {
    SaidReads(g);
    ReadOne(ROLE);
    ReadOne(Chunk([], g.usage));
    ReadAppend([ROLE], GeminiChunks.Said(g));
    ThenAssociates(PartsSay(PartsOf(g)), SILENCE, SILENCE);
    TranslatedIs(g, started);
  }

  lemma {:induction false} FedReads(gs: seq<GeminiChunk>)
    ensures ReadAll(Fed(gs)) == PartsSay(AllParts(gs))
  {
    if gs != [] {
      var init, g := gs[..|gs| - 1], gs[|gs| - 1];
      FedReads(init);
      ChunkReads(g, GeminiChunks.Started(init));
      ReadAppend(Fed(init), Translated(g, GeminiChunks.Started(init)));
      PartsSayAppend(AllParts(init), PartsOf(g));
    }
  }

  // ---------- What the client reads ----------

  lemma {:induction false} RunReads(san: Sanitizer, run: seq<Arrival>, cs: seq<Chunk>)
    requires Valid(san, run) && |run| == |cs| && forall i :: 0 <= i < |run| ==> run[i].chunk == cs[i]
    ensures Seen(Run(san, run).events).text == ReadAll(cs).text
    ensures Seen(Run(san, run).events).thinking == ReadAll(cs).thinking
    ensures AllFragments(run) == ReadAll(cs).fragments
  {
    if run != [] {
      var init, last := run[..|run| - 1], run[|run| - 1];
      var a := Run(san, init);
      RunReads(san, init, cs[..|cs| - 1]);
      StepReads(san, a.st, last.chunk, last.order);
      SeenAppend(a.events, Step(san, a.st, last.chunk, last.order).events);
    }
  }

  /** Whatever chunks it comes in: the client's text is the text of all parts that are not thoughts, its
      thinking that of those that are, each in order; and the calls come as fragments, one each. */
  lemma {:induction false} GeminiProseIs(san: Sanitizer, gs: seq<GeminiChunk>, run: seq<Arrival>, events: seq<Event>)
    requires Streams(san, Fed(gs), run, events)
    ensures Seen(events).text == Spoken(AllParts(gs))
    ensures Seen(events).thinking == Thought(AllParts(gs))
    ensures AllFragments(run) == Fragments(CallsMade(AllParts(gs)))
  {
    RunReads(san, run, Fed(gs));
    FedReads(gs);
  }

  lemma FinishIsLast(g: GeminiChunk, started: bool)
    requires Ends(g)
    ensures var cs := Translated(g, started);
      var reason := if g.candidate.value.finishReason == "MAX_TOKENS" then "length" else "stop";
      var counts := if g.usage.Some? then g.usage.value else Usage(0, 0);
      cs != [] && cs[|cs| - 1] == Chunk([Choice(Delta("", "", "", []), Some(reason))], Some(counts))
  {
    TranslatedIs(g, started);
  }

  lemma {:induction false} GeminiRunEnds(gs: seq<GeminiChunk>, run: seq<Arrival>)
    requires gs != [] && EndsAt(gs, |gs| - 1)
    requires |run| == |Fed(gs)| && forall i :: 0 <= i < |run| ==> run[i].chunk == Fed(gs)[i]
    ensures EndsWithFinish(run)
    ensures var g, last := gs[|gs| - 1], run[|run| - 1].chunk;
      var stopped := g.candidate.value.finishReason;
      && last.choices[0].finishReason == Some(if stopped == "MAX_TOKENS" then "length" else "stop")
      && last.usage == Some(if g.usage.Some? then g.usage.value else Usage(0, 0))
  {
    var init, g := gs[..|gs| - 1], gs[|gs| - 1];
    FedStaysOpen(init);
    ChunkEnds(g, GeminiChunks.Started(init));
    OpenThen(Fed(init), Translated(g, GeminiChunks.Started(init)));
    FinishIsLast(g, GeminiChunks.Started(init));
  }

  // ---------- Usage ----------

  /** The counts Gemini chunk g passes on behind the chunks gs: with its finish, or, once the answer has
      begun, when it says nothing else. */
  function Passes(gs: seq<GeminiChunk>, g: GeminiChunk): Option<Usage> {
    if Ends(g) then Some(if g.usage.Some? then g.usage.value else Usage(0, 0))
    else if Mute(g) && exists i :: 0 <= i < |gs| && (gs[i].candidate.Some? || gs[i].usage.Some?) then g.usage
    else None
  }

  /** The last positive count passed on. */
  function LastGiven(gs: seq<GeminiChunk>, prompt: bool): int {
    if gs == [] then 0
    else
      var init, u := gs[..|gs| - 1], Passes(gs[..|gs| - 1], gs[|gs| - 1]);
      if u.Some? && CountIn(u.value, prompt) > 0 then CountIn(u.value, prompt) else LastGiven(init, prompt)
  }

  /** The last positive count in a list of chunks, and was when there is none. */
  function LastIn(cs: seq<Chunk>, prompt: bool, was: int): int {
    if cs == [] then was
    else
      var u := cs[|cs| - 1].usage;
      if u.Some? && CountIn(u.value, prompt) > 0 then CountIn(u.value, prompt)
      else LastIn(cs[..|cs| - 1], prompt, was)
  }

  lemma {:induction false} LastInAppend(a: seq<Chunk>, b: seq<Chunk>, prompt: bool, was: int)
    ensures LastIn(a + b, prompt, was) == LastIn(b, prompt, LastIn(a, prompt, was))
  {
    if b == [] {
      assert a + b == a;
    } else {
      assert (a + b)[..|a + b| - 1] == a + b[..|b| - 1] && (a + b)[|a + b| - 1] == b[|b| - 1];
      LastInAppend(a, b[..|b| - 1], prompt, was);
    }
  }

  lemma {:induction false} LastInNone(cs: seq<Chunk>, prompt: bool, was: int)
    requires forall i :: 0 <= i < |cs| ==> cs[i].usage == None
    ensures LastIn(cs, prompt, was) == was
  {
    if cs != [] {
      LastInNone(cs[..|cs| - 1], prompt, was);
    }
  }

  lemma {:induction false} PartsCountNothing(ps: seq<Part>)
    ensures forall i :: 0 <= i < |AllPartChunks(ps)| ==> AllPartChunks(ps)[i].usage == None
  {
    if ps != [] {
      PartsCountNothing(ps[..|ps| - 1]);
    }
  }

  lemma {:induction false} MuteSaysNothing(ps: seq<Part>)
    ensures AllPartChunks(ps) == [] <==> forall p :: p in ps ==> !Says(p)
  {
    if ps != [] {
      var init, p := ps[..|ps| - 1], ps[|ps| - 1];
      assert ps == init + [p];
      MuteSaysNothing(init);
      PartChunk(p);
    }
  }

  lemma SaidCounts(g: GeminiChunk, prompt: bool, was: int)
    ensures LastIn(GeminiChunks.Said(g), prompt, was) ==
            if Ends(g) && g.usage.Some? && CountIn(g.usage.value, prompt) > 0 then CountIn(g.usage.value, prompt)
            else was
    ensures GeminiChunks.Said(g) == [] <==> Mute(g)
  {
    if g.candidate.Some? {
      var c := g.candidate.value;
      var parts, finish := AllPartChunks(c.parts), FinishChunks(c, g.usage);
      PartsCountNothing(c.parts);
      MuteSaysNothing(c.parts);
      LastInNone(parts, prompt, was);
      LastInAppend(parts, finish, prompt, was);
      assert finish != [] ==> finish[..0] == [];
    }
  }

  lemma ChunkCounts(gs: seq<GeminiChunk>, g: GeminiChunk, prompt: bool, was: int)
    ensures var u := Passes(gs, g);
      LastIn(Translated(g, GeminiChunks.Started(gs)), prompt, was) ==
      if u.Some? && CountIn(u.value, prompt) > 0 then CountIn(u.value, prompt) else was
  {
    var started, said := GeminiChunks.Started(gs), GeminiChunks.Said(g);
    var cs := Translated(g, started);
    SaidCounts(g, prompt, was);
    assert [] + said == said;
    assert started <==> exists i :: 0 <= i < |gs| && Speaks(gs[i]);
    if !Speaks(g) {
      assert cs == [];
    } else if !started {
      assert cs == [ROLE] + said;
      LastInNone([ROLE], prompt, was);
      LastInAppend([ROLE], said, prompt, was);
    } else if said == [] && g.usage.Some? {
      assert cs == [Chunk([], g.usage)] && cs[..0] == [];
    } else {
      assert cs == said;
    }
  }

  lemma {:induction false} FedCounts(gs: seq<GeminiChunk>, prompt: bool)
    ensures LastIn(Fed(gs), prompt, 0) == LastGiven(gs, prompt)
  {
    if gs != [] {
      var init, g := gs[..|gs| - 1], gs[|gs| - 1];
      FedCounts(init, prompt);
      ChunkCounts(init, g, prompt, LastGiven(init, prompt));
      LastInAppend(Fed(init), Translated(g, GeminiChunks.Started(init)), prompt, 0);
    }
  }

  lemma RoleIsTold(g: GeminiChunk)
    ensures if Speaks(g) then Translated(g, false) == [ROLE] + GeminiChunks.Said(g) else Translated(g, false) == []
    ensures !Speaks(g) ==> Translated(g, true) == []
  {
  }

  lemma NothingStarted()
    ensures !GeminiChunks.Started([]) && Fed([]) == []
  {
  }

  lemma {:induction false} RoleIsFirst(gs: seq<GeminiChunk>)
    ensures if GeminiChunks.Started(gs) then Fed(gs) != [] && Fed(gs)[0] == ROLE else Fed(gs) == []
  {
    hide GeminiChunks.Started, Fed, Translated, Speaks;
    if gs == [] {
      NothingStarted();
    } else {
      var init, g := gs[..|gs| - 1], gs[|gs| - 1];
      RoleIsFirst(init);
      assert gs == init + [g];
      StartedSnoc(init, g);
      FedSnoc(init, g);
      RoleIsTold(g);
    }
  }

  /** The role goes ahead of the first Gemini chunk that says anything, or gives counts. */
  lemma {:induction false} RoleGoesFirst(gs: seq<GeminiChunk>)
    ensures if exists i :: 0 <= i < |gs| && (gs[i].candidate.Some? || gs[i].usage.Some?)
            then Fed(gs) != [] && Fed(gs)[0] == Chunk([Choice(Delta("", "", "", []), None)], None)
            else Fed(gs) == []
  {
    RoleIsFirst(gs);
    assert GeminiChunks.Started(gs) <==> exists i :: 0 <= i < |gs| && Speaks(gs[i]);
  }

  lemma {:induction false} RunCounts(run: seq<Arrival>, cs: seq<Chunk>, prompt: bool)
    requires |run| == |cs| && forall i :: 0 <= i < |run| ==> run[i].chunk == cs[i]
    requires cs != [] ==> cs[0].choices != []
    ensures LastCount(run, prompt) == LastIn(cs, prompt, 0)
    ensures run != [] ==> Spoke(run)
  {
    if run != [] {
      RunCounts(run[..|run| - 1], cs[..|cs| - 1], prompt);
    }
  }

  /** How an answer ends: the client is told "max_tokens" if and only if Gemini stopped at MAX_TOKENS, and
      "end_turn" otherwise, even if a tool is called; and the last positive counts that were passed on. */
  lemma {:induction false} GeminiEnds(san: Sanitizer, gs: seq<GeminiChunk>, run: seq<Arrival>, events: seq<Event>)
    requires Streams(san, Fed(gs), run, events) && gs != [] && EndsAt(gs, |gs| - 1)
    ensures |events| >= 2 && events[|events| - 2].MessageDelta?
    ensures var e, stopped := events[|events| - 2], gs[|gs| - 1].candidate.value.finishReason;
      && (e.stopReason == "max_tokens" <==> stopped == "MAX_TOKENS")
      && (e.stopReason == "end_turn" <==> stopped != "MAX_TOKENS")
      && e.inputTokens == LastGiven(gs, true) && e.outputTokens == LastGiven(gs, false)
  {
    GeminiRunEnds(gs, run);
    StopReasonIs(san, run);
    UsageIsReported(san, run);
    RoleGoesFirst(gs);
    RunCounts(run, Fed(gs), true);
    RunCounts(run, Fed(gs), false);
    FedCounts(gs, true);
    FedCounts(gs, false);
  }

  /** All the arguments, one call's behind the other's. */
  function AllArguments(cs: seq<Call>): string {
    if cs == [] then "" else AllArguments(cs[..|cs| - 1]) + cs[|cs| - 1].arguments
  }

  lemma NoFragments()
    ensures Fragments([]) == Openers([]) == [] && Openings([]) == Zeros(0) && ArgumentsOf([], 0) == AllArguments([])
  {
  }

  lemma FragmentsNext(cs: seq<Call>, c: Call)
    ensures Fragments(cs + [c]) == Fragments(cs) + [Fragment(c)] && Fragment(c).id != ""
    ensures AllArguments(cs + [c]) == AllArguments(cs) + Fragment(c).Arguments()
    ensures Zeros(|cs + [c]|) == Zeros(|cs|) + [Fragment(c).Slot()]
  {
    assert (cs + [c])[..|cs|] == cs;
    ZerosAppend(|cs|, 1);
    assert Zeros(1) == [0];
  }

  lemma OneMoreFragment(cs: seq<Call>, c: Call)
    requires Openers(Fragments(cs)) == Fragments(cs) && Openings(Fragments(cs)) == Zeros(|cs|)
    requires ArgumentsOf(Fragments(cs), 0) == AllArguments(cs)
    ensures var all := cs + [c];
      && Openers(Fragments(all)) == Fragments(all) && Openings(Fragments(all)) == Zeros(|all|)
      && ArgumentsOf(Fragments(all), 0) == AllArguments(all)
  {
    hide Openers, ArgumentsOf, AllArguments, Openings, Zeros, Fragments, IdOf, SpelledOf;
    FragmentsNext(cs, c);
    OpenersSnoc(Fragments(cs), Fragment(c));
    FragmentsSnoc(Fragments(cs), Fragment(c), 0);
  }

  lemma {:induction false} FragmentsAre(cs: seq<Call>)
    ensures Openers(Fragments(cs)) == Fragments(cs)
    ensures ArgumentsOf(Fragments(cs), 0) == AllArguments(cs)
    ensures Openings(Fragments(cs)) == Zeros(|cs|)
  {
    hide Openers, ArgumentsOf, AllArguments, Openings, Zeros, Fragments;
    if cs == [] {
      NoFragments();
    } else {
      var init, c := cs[..|cs| - 1], cs[|cs| - 1];
      FragmentsAre(init);
      OneMoreFragment(init, c);
      assert cs == init + [c];
    }
  }

  /** A call's block: named as the call is, without the proxy's prefix. */
  function Named(c: Call): string {
    var name := if c.name != "" then c.name else Fragment(c).id;
    if "proxy_" <= name then name[6..] else name
  }

  /** The j-th block: the calls share index 0, so only the last one is given arguments, and those of all. */
  function BlockOf(san: Sanitizer, cs: seq<Call>, j: nat): ClaudeBlock
    requires j < |cs|
  {
    ToolContent(Fragment(cs[j]).id, Named(cs[j]), if j == |cs| - 1 then san(Named(cs[j]), AllArguments(cs)) else "")
  }

  lemma CallIsSent(san: Sanitizer, cs: seq<Call>, j: nat)
    requires j < |cs| == |Openers(Fragments(cs))|
    ensures SentTool(san, Fragments(cs), j) == BlockOf(san, cs, j)
  {
    FragmentsAre(cs);
    assert j < |cs| - 1 ==> Zeros(|cs|)[j + 1..][0] == 0;
  }

  /** The tool blocks of a finished answer: one for each call, in order, and a single call gets its own
      arguments. */
  lemma {:induction false} GeminiToolsAre(san: Sanitizer, gs: seq<GeminiChunk>, run: seq<Arrival>, events: seq<Event>)
    requires Streams(san, Fed(gs), run, events) && gs != [] && EndsAt(gs, |gs| - 1)
    ensures var cs, tools := CallsMade(AllParts(gs)), StreamedTools(events);
      && |tools| == |cs|
      && (forall j :: 0 <= j < |cs| ==> tools[j] == BlockOf(san, cs, j))
      && (|cs| == 1 ==> tools == [ToolContent(Fragment(cs[0]).id, Named(cs[0]), san(Named(cs[0]), cs[0].arguments))])
  {
    var cs := CallsMade(AllParts(gs));
    GeminiRunEnds(gs, run);
    StreamedToolsAre(san, run);
    GeminiProseIs(san, gs, run, events);
    CallsAreSent(san, cs);
  }

  lemma CallsAreSent(san: Sanitizer, cs: seq<Call>)
    ensures var tools := SentTools(san, Fragments(cs));
      && |tools| == |cs|
      && (forall j :: 0 <= j < |cs| ==> tools[j] == BlockOf(san, cs, j))
      && (|cs| == 1 ==> tools == [ToolContent(Fragment(cs[0]).id, Named(cs[0]), san(Named(cs[0]), cs[0].arguments))])
  {
    FragmentsAre(cs);
    forall j | 0 <= j < |cs|
      ensures SentTool(san, Fragments(cs), j) == BlockOf(san, cs, j)
    {
      CallIsSent(san, cs, j);
    }
    assert |cs| == 1 ==> AllArguments(cs[..0]) + cs[0].arguments == cs[0].arguments;
  }
}
