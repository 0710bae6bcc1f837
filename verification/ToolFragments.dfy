/** Tool calls as their fragments spell them: what a stream of fragments announces when an id opens a
    block, what the aggregator makes of the same fragments, and when the two are the same calls. */
module ToolFragments {
  import opened Prelude
  import opened ClaudeStream
  import opened StreamProtocol
  import opened Aggregation

  function Slots(ts: seq<ToolFragment>): set<int> {
    set t | t in ts :: t.Slot()
  }

  lemma SlotsSnoc(ts: seq<ToolFragment>, t: ToolFragment)
    ensures Slots(ts + [t]) == Slots(ts) + {t.Slot()}
  {
    assert forall x :: x in ts + [t] <==> x in ts || x == t;
  }

  /** A fragment without an index belongs to index 0, on both roads. */
  lemma UnindexedIsZero(id: string, fn: Option<FunctionFragment>, st: State, f: Fold)
    ensures Tool(st, ToolFragment(None, id, fn)) == Tool(st, ToolFragment(Some(0), id, fn))
    ensures FoldTool(f, ToolFragment(None, id, fn)) == FoldTool(f, ToolFragment(Some(0), id, fn))
  {
    var t, u := ToolFragment(None, id, fn), ToolFragment(Some(0), id, fn);
    assert t.Slot() == u.Slot() && t.Name() == u.Name() && t.Arguments() == u.Arguments();
    assert BufferArguments(st, t) == BufferArguments(st, u);
  }

  /** The client sees the function's name, or the id when it has none, without the proxy's prefix. */
  lemma NameIsShown(id: string, name: string)
    ensures name != "" && !("proxy_" <= name) ==> ToolName(id, name) == name
    ensures ToolName(id, "proxy_" + name) == name
    ensures !("proxy_" <= id) ==> ToolName(id, "") == id
  {
    assert ("proxy_" + name)[6..] == name;
  }

  // ---------- What the aggregator collects for a tool index ----------

  /** The tool indices in order of first appearance. */
  function FirstSeen(ts: seq<ToolFragment>): seq<int> {
    if ts == [] then []
    else
      var init, t := ts[..|ts| - 1], ts[|ts| - 1];
      FirstSeen(init) + (if t.Slot() in Slots(init) then [] else [t.Slot()])
  }

  /** The last id given to a tool index. */
  function IdOf(ts: seq<ToolFragment>, slot: int): string {
    if ts == [] then ""
    else
      var t := ts[|ts| - 1];
      if t.Slot() == slot && t.id != "" then t.id else IdOf(ts[..|ts| - 1], slot)
  }

  /** All the parts of a name sent for a tool index, in order. */
  function SpelledOf(ts: seq<ToolFragment>, slot: int): string {
    if ts == [] then ""
    else
      var past, t := SpelledOf(ts[..|ts| - 1], slot), ts[|ts| - 1];
      if t.Slot() == slot then past + t.Name() else past
  }

  /** All the arguments sent for a tool index, in order. */
  function ArgumentsOf(ts: seq<ToolFragment>, slot: int): string {
    if ts == [] then ""
    else
      var past, t := ArgumentsOf(ts[..|ts| - 1], slot), ts[|ts| - 1];
      if t.Slot() == slot then past + t.Arguments() else past
  }

  function FullName(ts: seq<ToolFragment>, slot: int): string {
    ToolName(IdOf(ts, slot), SpelledOf(ts, slot))
  }

  lemma FragmentsSnoc(ts: seq<ToolFragment>, t: ToolFragment, slot: int)
    ensures IdOf(ts + [t], slot) == if t.Slot() == slot && t.id != "" then t.id else IdOf(ts, slot)
    ensures SpelledOf(ts + [t], slot) == SpelledOf(ts, slot) + if t.Slot() == slot then t.Name() else ""
    ensures ArgumentsOf(ts + [t], slot) == ArgumentsOf(ts, slot) + if t.Slot() == slot then t.Arguments() else ""
  {
    assert (ts + [t])[..|ts|] == ts;
    assert SpelledOf(ts, slot) + "" == SpelledOf(ts, slot) && ArgumentsOf(ts, slot) + "" == ArgumentsOf(ts, slot);
  }

  lemma {:induction false} FirstSeenIs(ts: seq<ToolFragment>)
    ensures NoDuplicates(FirstSeen(ts))
    ensures forall k :: k in FirstSeen(ts) <==> k in Slots(ts)
  {
    if ts != [] {
      var init, t := ts[..|ts| - 1], ts[|ts| - 1];
      FirstSeenIs(init);
      assert ts == init + [t];
      SlotsSnoc(init, t);
    }
  }

  lemma {:induction false} Unseen(ts: seq<ToolFragment>, slot: int)
    requires slot !in Slots(ts)
    ensures IdOf(ts, slot) == SpelledOf(ts, slot) == ArgumentsOf(ts, slot) == ""
  {
    if ts != [] {
      var init, t := ts[..|ts| - 1], ts[|ts| - 1];
      assert t in ts && forall x :: x in init ==> x in ts;
      Unseen(init, slot);
    }
  }

  /** Some fragment of the index carries its id. */
  lemma {:induction false} IdIsCarried(ts: seq<ToolFragment>, slot: int) returns (t: ToolFragment)
    requires IdOf(ts, slot) != ""
    ensures t in ts && t.Slot() == slot && t.id == IdOf(ts, slot)
  {
    t := ts[|ts| - 1];
    if t.Slot() != slot || t.id == "" {
      t := IdIsCarried(ts[..|ts| - 1], slot);
    }
  }

  /** f is what the aggregator has after the fragments ts. */
  ghost predicate Gathers(f: Fold, ts: seq<ToolFragment>) {
    && f.slots == FirstSeen(ts)
    && f.entries.Keys == Slots(ts)
    && forall k :: EntryOf(f, k) == Entry(IdOf(ts, k), SpelledOf(ts, k), ArgumentsOf(ts, k))
  }

  lemma GathersKeys(f: Fold, ts: seq<ToolFragment>, t: ToolFragment)
    requires f.slots == FirstSeen(ts) && f.entries.Keys == Slots(ts)
    ensures FoldTool(f, t).slots == FirstSeen(ts + [t]) && FoldTool(f, t).entries.Keys == Slots(ts + [t])
  {
    SlotsSnoc(ts, t);
    assert (ts + [t])[..|ts|] == ts;
  }

  lemma GathersNext(f: Fold, ts: seq<ToolFragment>, t: ToolFragment)
    requires Gathers(f, ts)
    ensures Gathers(FoldTool(f, t), ts + [t])
  {
    GathersKeys(f, ts, t);
    forall k
      ensures EntryOf(FoldTool(f, t), k) == Entry(IdOf(ts + [t], k), SpelledOf(ts + [t], k), ArgumentsOf(ts + [t], k))
    {
      EntryNext(f, ts, t, k);
    }
  }

  lemma EntryNext(f: Fold, ts: seq<ToolFragment>, t: ToolFragment, k: int)
    requires EntryOf(f, k) == Entry(IdOf(ts, k), SpelledOf(ts, k), ArgumentsOf(ts, k))
    ensures EntryOf(FoldTool(f, t), k) == Entry(IdOf(ts + [t], k), SpelledOf(ts + [t], k), ArgumentsOf(ts + [t], k))
  {
    FragmentsSnoc(ts, t, k);
    assert EntryOf(FoldTool(f, t), k) == if k == t.Slot() then Merge(EntryOf(f, k), t) else EntryOf(f, k);
    assert SpelledOf(ts, k) + "" == SpelledOf(ts, k) && ArgumentsOf(ts, k) + "" == ArgumentsOf(ts, k);
  }

  lemma {:induction false} GathersAll(f: Fold, past: seq<ToolFragment>, ts: seq<ToolFragment>)
    requires Gathers(f, past)
    ensures Gathers(FoldTools(f, ts), past + ts)
  {
    if ts == [] {
      assert past + ts == past;
    } else {
      var init, t := ts[..|ts| - 1], ts[|ts| - 1];
      assert ts == init + [t];
      Assoc(past, init, [t]);
      GathersAll(f, past, init);
      GathersNext(FoldTools(f, init), past + init, t);
    }
  }

  // ---------- What the stream announces ----------

  /** The fragments that carry an id: each opens a block. */
  function Openers(ts: seq<ToolFragment>): seq<ToolFragment> {
    if ts == [] then []
    else Openers(ts[..|ts| - 1]) + (if ts[|ts| - 1].id == "" then [] else [ts[|ts| - 1]])
  }

  function AnnouncedName(t: ToolFragment): string {
    ToolName(t.id, t.Name())
  }

  lemma OpenersSnoc(ts: seq<ToolFragment>, t: ToolFragment)
    ensures Openers(ts + [t]) == Openers(ts) + (if t.id == "" then [] else [t])
    ensures Openings(ts + [t]) == Openings(ts) + (if t.id == "" then [] else [t.Slot()])
  {
    assert (ts + [t])[..|ts|] == ts;
  }

  lemma {:induction false} OpenersAre(ts: seq<ToolFragment>)
    ensures |Openers(ts)| == |Openings(ts)|
    ensures forall j :: 0 <= j < |Openers(ts)| ==>
              Openers(ts)[j].id != "" && Openers(ts)[j].Slot() == Openings(ts)[j] && Openers(ts)[j] in ts
  {
    if ts != [] {
      OpenersAre(ts[..|ts| - 1]);
      assert ts[|ts| - 1] in ts && forall t :: t in ts[..|ts| - 1] ==> t in ts;
    }
  }

  lemma {:induction false} CarriersOpen(ts: seq<ToolFragment>, t: ToolFragment)
    requires t in ts && t.id != ""
    ensures t.Slot() in Openings(ts)
  {
    var init, last := ts[..|ts| - 1], ts[|ts| - 1];
    if t in init {
      CarriersOpen(init, t);
    } else {
      assert t == last;
    }
  }

  /** No later block belongs to the same tool index. */
  predicate IsLast(slots: seq<int>, j: nat)
    requires j < |slots|
  {
    slots[j] !in slots[j + 1..]
  }

  /** The block that the j-th id opens, as a streaming client has it at the end: one that gave way to
      a later block of its index is never sent any input. */
  function SentTool(san: Sanitizer, ts: seq<ToolFragment>, j: nat): ClaudeBlock
    requires j < |Openers(ts)|
  {
    OpenersAre(ts);
    var u := Openers(ts)[j];
    ToolContent(u.id, AnnouncedName(u),
                if IsLast(Openings(ts), j) then san(AnnouncedName(u), ArgumentsOf(ts, u.Slot())) else "")
  }

  function SentTools(san: Sanitizer, ts: seq<ToolFragment>): seq<ClaudeBlock> {
    seq(|Openers(ts)|, j requires 0 <= j < |Openers(ts)| => SentTool(san, ts, j))
  }

  /** The call of a tool index as the aggregator passes it on. */
  function WholeTool(san: Sanitizer, ts: seq<ToolFragment>, slot: int): ClaudeBlock {
    ToolBlock(san, Entry(IdOf(ts, slot), SpelledOf(ts, slot), ArgumentsOf(ts, slot)))
  }

  function WholeTools(san: Sanitizer, ts: seq<ToolFragment>): seq<ClaudeBlock> {
    seq(|FirstSeen(ts)|, j requires 0 <= j < |FirstSeen(ts)| => WholeTool(san, ts, FirstSeen(ts)[j]))
  }

  // ---------- When these are the same calls ----------

  /** No two tool indices are given the same id. */
  predicate UniqueIds(ts: seq<ToolFragment>) {
    forall t, u :: t in ts && u in ts && t.id != "" && t.id == u.id ==> t.Slot() == u.Slot()
  }

  /** Whoever gives an id gives the whole name with it. */
  predicate NamesWhole(ts: seq<ToolFragment>) {
    forall t :: t in ts && t.id != "" ==> AnnouncedName(t) == FullName(ts, t.Slot())
  }

  /** Every tool index is given arguments. */
  predicate AllHaveArguments(ts: seq<ToolFragment>) {
    forall k :: k in Slots(ts) ==> ArgumentsOf(ts, k) != ""
  }

  /** Every tool index gets one id, in the order in which the indices first appear, and with it its
      whole name; and every index is given arguments. */
  predicate CallsInTurn(ts: seq<ToolFragment>) {
    Openings(ts) == FirstSeen(ts) && NamesWhole(ts) && AllHaveArguments(ts)
  }

  /** What opener u announces is the call of tool index k; when the index is another one, the inputs
      have to be equal all the same. */
  predicate SameCall(san: Sanitizer, ts: seq<ToolFragment>, u: ToolFragment, k: int) {
    && u.id == IdOf(ts, k) && AnnouncedName(u) == FullName(ts, k)
    && if u.Slot() == k then ArgumentsOf(ts, k) != ""
       else san(AnnouncedName(u), ArgumentsOf(ts, u.Slot())) == WholeTool(san, ts, k).input
  }

  /** No index is opened twice, and the calls in the order of opening are those in the order of first
      appearance. */
  ghost predicate CallsMatch(san: Sanitizer, ts: seq<ToolFragment>) {
    && NoDuplicates(Openings(ts)) && |Openers(ts)| == |FirstSeen(ts)|
    && forall j :: 0 <= j < |Openers(ts)| ==> SameCall(san, ts, Openers(ts)[j], FirstSeen(ts)[j])
  }

  function Elements(s: seq<int>): set<int> {
    set x | x in s
  }

  /** A list has as many elements as entries exactly when no entry comes twice. */
  lemma {:induction false} ElementsCount(s: seq<int>)
    ensures |Elements(s)| <= |s|
    ensures |Elements(s)| == |s| <==> NoDuplicates(s)
  {
    if s == [] {
      assert Elements(s) == {};
    } else {
      var init, last := s[..|s| - 1], s[|s| - 1];
      ElementsCount(init);
      assert s == init + [last];
      assert Elements(s) == Elements(init) + {last};
      DistinctSnoc(init, last);
      assert last in init <==> last in Elements(init);
      assert last in init ==> Elements(init) + {last} == Elements(init);
    }
  }

  lemma SmallerSet(a: set<int>, b: set<int>)
    requires a <= b
    ensures |a| <= |b|
  {
    assert b == a + (b - a);
  }

  /** As many ids as indices, and no index without one: then each has just one. */
  lemma EachOpenedOnce(ts: seq<ToolFragment>)
    requires |Openings(ts)| == |FirstSeen(ts)| && forall k :: k in Slots(ts) ==> IdOf(ts, k) != ""
    ensures NoDuplicates(Openings(ts))
  {
    FirstSeenIs(ts);
    ElementsCount(FirstSeen(ts));
    ElementsCount(Openings(ts));
    forall k | k in Slots(ts)
      ensures k in Openings(ts)
    {
      var t := IdIsCarried(ts, k);
      CarriersOpen(ts, t);
    }
    assert Elements(FirstSeen(ts)) <= Elements(Openings(ts));
    SmallerSet(Elements(FirstSeen(ts)), Elements(Openings(ts)));
  }

  lemma SameToolIff(san: Sanitizer, ts: seq<ToolFragment>, j: nat)
    requires NoDuplicates(Openings(ts)) && j < |Openers(ts)| && j < |FirstSeen(ts)|
    requires forall n :: san(n, "") == ""
    ensures SentTool(san, ts, j) == WholeTool(san, ts, FirstSeen(ts)[j])
            <==> SameCall(san, ts, Openers(ts)[j], FirstSeen(ts)[j])
  {
    OpenersAre(ts);
    assert IsLast(Openings(ts), j);
  }

  /** Both roads make the same list of tool blocks if and only if the calls match. */
  lemma SameToolsIff(san: Sanitizer, ts: seq<ToolFragment>)
    requires forall n :: san(n, "") == ""
    ensures SentTools(san, ts) == WholeTools(san, ts) <==> CallsMatch(san, ts)
  {
    var sent, whole := SentTools(san, ts), WholeTools(san, ts);
    OpenersAre(ts);
    if sent == whole {
      assert |sent| == |whole|;
      forall k | k in Slots(ts)
        ensures IdOf(ts, k) != ""
      {
        FirstSeenIs(ts);
        var j :| 0 <= j < |FirstSeen(ts)| && FirstSeen(ts)[j] == k;
        assert sent[j] == whole[j];
      }
      EachOpenedOnce(ts);
    }
    if NoDuplicates(Openings(ts)) && |sent| == |whole| {
      forall j | 0 <= j < |sent|
        ensures sent[j] == whole[j] <==> SameCall(san, ts, Openers(ts)[j], FirstSeen(ts)[j])
      {
        SameToolIff(san, ts, j);
      }
    }
  }

  /** When ids are unique this is what the protocol intends. */
  lemma InTurnIff(san: Sanitizer, ts: seq<ToolFragment>)
    requires UniqueIds(ts)
    ensures CallsMatch(san, ts) <==> CallsInTurn(ts)
  {
    OpenersAre(ts);
    FirstSeenIs(ts);
    if CallsMatch(san, ts) {
      MatchedInTurn(san, ts);
    }
    if CallsInTurn(ts) {
      forall j | 0 <= j < |Openers(ts)|
        ensures SameCall(san, ts, Openers(ts)[j], FirstSeen(ts)[j])
      {
        SoleOpener(ts, Openers(ts)[j]);
      }
    }
  }

  lemma MatchedInTurn(san: Sanitizer, ts: seq<ToolFragment>)
    requires UniqueIds(ts) && CallsMatch(san, ts)
    ensures CallsInTurn(ts)
  {
    OpenersAre(ts);
    FirstSeenIs(ts);
    forall j | 0 <= j < |Openings(ts)|
      ensures Openings(ts)[j] == FirstSeen(ts)[j]
    {
      assert SameCall(san, ts, Openers(ts)[j], FirstSeen(ts)[j]);
      var t := IdIsCarried(ts, FirstSeen(ts)[j]);
    }
    assert Openings(ts) == FirstSeen(ts);
    forall k | k in Slots(ts)
      ensures ArgumentsOf(ts, k) != ""
    {
      var j :| 0 <= j < |FirstSeen(ts)| && FirstSeen(ts)[j] == k;
      assert SameCall(san, ts, Openers(ts)[j], k);
    }
    forall t | t in ts && t.id != ""
      ensures AnnouncedName(t) == FullName(ts, t.Slot())
    {
      var j := OpenerAt(ts, t);
      assert SameCall(san, ts, Openers(ts)[j], FirstSeen(ts)[j]);
    }
  }

  lemma {:induction false} OpenerAt(ts: seq<ToolFragment>, t: ToolFragment) returns (j: nat)
    requires t in ts && t.id != ""
    ensures j < |Openers(ts)| && Openers(ts)[j] == t
  {
    var init := ts[..|ts| - 1];
    if t in init {
      j := OpenerAt(init, t);
    } else {
      assert t == ts[|ts| - 1];
      j := |Openers(init)|;
    }
  }

  /** An index opened once has the id of its opener. */
  lemma SoleOpener(ts: seq<ToolFragment>, u: ToolFragment)
    requires NoDuplicates(Openings(ts)) && u in Openers(ts)
    ensures IdOf(ts, u.Slot()) == u.id
  {
    OpenersAre(ts);
    var j :| 0 <= j < |Openers(ts)| && Openers(ts)[j] == u;
    LastOpener(ts, j);
  }

  lemma {:induction false} LastOpener(ts: seq<ToolFragment>, j: nat)
    requires j < |Openers(ts)| && |Openers(ts)| == |Openings(ts)| && IsLast(Openings(ts), j)
    ensures IdOf(ts, Openings(ts)[j]) == Openers(ts)[j].id
  {
    var init, t := ts[..|ts| - 1], ts[|ts| - 1];
    OpenersAre(init);
    assert ts == init + [t];
    if j < |Openers(init)| {
      assert Openings(ts)[j + 1..] == Openings(init)[j + 1..] + (if t.id == "" then [] else [t.Slot()]);
      assert t.id != "" ==> t.Slot() in Openings(ts)[j + 1..];
      LastOpener(init, j);
    }
  }
}
