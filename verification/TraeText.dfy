/** Incremental pieces of Trae's cumulative text (traeTextState, internal/proxy/executor/trae.go). */
module TraeText {
  import opened Prelude

  /** Go strings are byte strings: lengths and cuts are in bytes. */
  type Text = seq<byte>

  /** One plan_item event: the text so far of one item. */
  datatype Item = Item(id: string, thought: Text)

  datatype State = State(order: seq<string>, thoughts: map<string, Text>)

  const START := State([], map[])

  function ThoughtOf(thoughts: map<string, Text>, id: string): Text {
    if id in thoughts then thoughts[id] else []
  }

  /** The longest thought wins, the later of two equally long; an empty one leaves no mark. */
  predicate Wins(s: State, it: Item) {
    it.thought != [] && |it.thought| >= |ThoughtOf(s.thoughts, it.id)|
  }

  function Note(s: State, it: Item): State {
    if it.id == "" then s
    else State(if it.id in s.thoughts then s.order else s.order + [it.id],
               if Wins(s, it) then s.thoughts[it.id := it.thought] else s.thoughts)
  }

  function Join(order: seq<string>, thoughts: map<string, Text>): Text {
    if order == [] then [] else Join(order[..|order| - 1], thoughts) + ThoughtOf(thoughts, order[|order| - 1])
  }

  function Full(s: State): Text {
    Join(s.order, s.thoughts)
  }

  class TextState {
    var order: seq<string>
    var thoughts: map<string, Text>
    var sent: nat

    function View(): State
      reads this
    {
      State(order, thoughts)
    }

    /** What every item keeps: exactly the full text has been sent, in bytes. */
    predicate Valid()
      reads this
    {
      sent == |Full(View())|
    }

    constructor ()
      ensures Valid() && View() == START
    {
      order, thoughts, sent := [], map[], 0;
    }

    method JoinAll() returns (full: Text)
      ensures full == Full(View())
    {
      full := [];
      for i := 0 to |order|
        invariant full == Join(order[..i], thoughts)
      {
        assert order[..i + 1][..i] == order[..i];
        full := full + ThoughtOf(thoughts, order[i]);
      }
      assert order[..|order|] == order;
    }

    method Render(it: Item) returns (piece: Text)
      requires Valid()
      modifies this
      ensures Valid() && View() == Note(old(View()), it)
      ensures old(sent) <= sent && piece == Full(View())[old(sent)..]
    {
      NoteGrows(View(), it);
      if it.id == "" {
        return [];
      }
      if it.id !in thoughts {
        order := order + [it.id];
      }
      if it.thought != [] && |it.thought| >= |ThoughtOf(thoughts, it.id)| {
        thoughts := thoughts[it.id := it.thought];
      }
      var full := JoinAll();
      // the guard of the source; NoteGrows says it is never taken
      var from: int := sent;
      if from > |full| {
        from := |full|;
      }
      piece := full[from..];
      sent := |full|;
    }

    /** A turn: every item rendered, every piece that is not empty emitted. */
    method RenderAll(items: seq<Item>) returns (pieces: seq<Text>, answer: Text)
      requires Valid() && View() == START
      modifies this
      ensures Concat(pieces) == Streamed(items)
      ensures answer == Full(After(items))
    {
      pieces := [];
      for i := 0 to |items|
        invariant Valid() && View() == After(items[..i])
        invariant Concat(pieces) == Streamed(items[..i])
      {
        assert items[..i + 1][..i] == items[..i];
        NoteGrows(After(items[..i]), items[i]);
        var piece := Render(items[i]);
        ConcatOne(pieces, piece);
        if piece != [] {
          pieces := pieces + [piece];
        }
      }
      assert items[..|items|] == items;
      answer := JoinAll();
    }
  }

  function After(items: seq<Item>): State {
    if items == [] then START else Note(After(items[..|items| - 1]), items[|items| - 1])
  }

  /** What a streaming client has received: at every item, what lies beyond the length sent. */
  function Streamed(items: seq<Item>): Text {
    if items == [] then []
    else
      var before, now := Full(After(items[..|items| - 1])), Full(After(items));
      Streamed(items[..|items| - 1]) + (if |before| <= |now| then now[|before|..] else [])
  }

  // ---------- The text only grows ----------

  lemma {:induction false} JoinGrows(order: seq<string>, was: map<string, Text>, now: map<string, Text>)
    requires forall id :: |ThoughtOf(was, id)| <= |ThoughtOf(now, id)|
    ensures |Join(order, was)| <= |Join(order, now)|
  {
    if order != [] {
      JoinGrows(order[..|order| - 1], was, now);
    }
  }

  lemma JoinSnoc(order: seq<string>, id: string, thoughts: map<string, Text>)
    ensures Join(order + [id], thoughts) == Join(order, thoughts) + ThoughtOf(thoughts, id)
  {
    assert (order + [id])[..|order|] == order;
  }

  lemma NoteGrows(s: State, it: Item)
    ensures |Full(s)| <= |Full(Note(s, it))|
  {
    JoinGrows(s.order, s.thoughts, Note(s, it).thoughts);
    JoinSnoc(s.order, it.id, Note(s, it).thoughts);
  }

  /** As many bytes are streamed as the full text has. */
  lemma {:induction false} LengthsAgree(items: seq<Item>)
    ensures |Streamed(items)| == |Full(After(items))|
  {
    if items != [] {
      LengthsAgree(items[..|items| - 1]);
      NoteGrows(After(items[..|items| - 1]), items[|items| - 1]);
    }
  }

  // ---------- Streaming against non-streaming ----------

  predicate Extends(s: State, it: Item) {
    Full(s) <= Full(Note(s, it))
  }

  lemma {:induction false} StreamedStep(items: seq<Item>)
    requires items != [] && Streamed(items[..|items| - 1]) == Full(After(items[..|items| - 1]))
    ensures Streamed(items) == Full(After(items)) <==> Extends(After(items[..|items| - 1]), items[|items| - 1])
  {
    var before, now := Full(After(items[..|items| - 1])), Full(After(items));
    NoteGrows(After(items[..|items| - 1]), items[|items| - 1]);
    assert now == now[..|before|] + now[|before|..];
    assert Streamed(items)[..|before|] == before;
  }

  /** The client has the full text now and had it at every moment before. */
  predicate AlwaysFull(items: seq<Item>) {
    Streamed(items) == Full(After(items)) && (items == [] || AlwaysFull(items[..|items| - 1]))
  }

  predicate AlwaysExtends(items: seq<Item>) {
    items == [] || (AlwaysExtends(items[..|items| - 1]) && Extends(After(items[..|items| - 1]), items[|items| - 1]))
  }

  /** Streaming is faithful throughout exactly as long as the text is only ever extended. */
  lemma {:induction false} ExtendingStreamIff(items: seq<Item>)
    ensures AlwaysFull(items) <==> AlwaysExtends(items)
  {
    if items != [] {
      ExtendingStreamIff(items[..|items| - 1]);
      if AlwaysFull(items[..|items| - 1]) {
        StreamedStep(items);
      }
    }
  }

  /** An item that wins, listed once with before ahead of it and after behind it, extends the text
      exactly when its old thought and what stands behind it extend to the new ones; so the
      last-listed item does exactly when its new thought extends its old one. */
  lemma WinningExtendsIff(s: State, it: Item, before: seq<string>, after: seq<string>)
    requires s.order == before + [it.id] + after && it.id !in before && it.id !in after
    requires it.id != "" && it.id in s.thoughts && Wins(s, it)
    ensures Extends(s, it) <==> s.thoughts[it.id] + Join(after, s.thoughts) <= it.thought + Join(after, s.thoughts)
    ensures after == [] ==> (Extends(s, it) <==> s.thoughts[it.id] <= it.thought)
  {
    var thoughts := Note(s, it).thoughts;
    JoinParts(before, it.id, after, s.thoughts);
    JoinParts(before, it.id, after, thoughts);
    JoinFrame(before, s.thoughts, it.id, it.thought);
    JoinFrame(after, s.thoughts, it.id, it.thought);
    var head := Join(before, s.thoughts);
    var x, y := s.thoughts[it.id] + Join(after, s.thoughts), it.thought + Join(after, s.thoughts);
    Assoc(head, s.thoughts[it.id], Join(after, s.thoughts));
    Assoc(head, it.thought, Join(after, s.thoughts));
    PrefixBehind(head, x, y);
    assert s.thoughts[it.id] + [] == s.thoughts[it.id] && it.thought + [] == it.thought;
  }

  lemma PrefixBehind(head: Text, x: Text, y: Text)
    ensures head + x <= head + y <==> x <= y
  {
    if x <= y {
      assert y == x + y[|x|..];
      Assoc(head, x, y[|x|..]);
    }
    if head + x <= head + y {
      forall i | 0 <= i < |x|
        ensures x[i] == y[i]
      {
        assert (head + x)[|head| + i] == (head + y)[|head| + i];
      }
    }
  }

  lemma {:induction false} JoinFrame(order: seq<string>, thoughts: map<string, Text>, id: string, t: Text)
    requires id !in order
    ensures Join(order, thoughts[id := t]) == Join(order, thoughts)
  {
    if order != [] {
      JoinFrame(order[..|order| - 1], thoughts, id, t);
    }
  }

  lemma {:induction false} JoinAppend(a: seq<string>, b: seq<string>, thoughts: map<string, Text>)
    ensures Join(a + b, thoughts) == Join(a, thoughts) + Join(b, thoughts)
  {
    if b == [] {
      assert a + b == a;
    } else {
      var init, last := b[..|b| - 1], b[|b| - 1];
      assert b == init + [last];
      JoinAppend(a, init, thoughts);
      JoinAppendOne(a, init, last, thoughts);
    }
  }

  lemma JoinAppendOne(a: seq<string>, b: seq<string>, id: string, thoughts: map<string, Text>)
    requires Join(a + b, thoughts) == Join(a, thoughts) + Join(b, thoughts)
    ensures Join(a + (b + [id]), thoughts) == Join(a, thoughts) + Join(b + [id], thoughts)
  {
    Assoc(a, b, [id]);
    JoinSnoc(b, id, thoughts);
    JoinSnoc(a + b, id, thoughts);
    Assoc(Join(a, thoughts), Join(b, thoughts), ThoughtOf(thoughts, id));
  }

  lemma JoinParts(before: seq<string>, id: string, after: seq<string>, thoughts: map<string, Text>)
    ensures Join(before + [id] + after, thoughts)
         == Join(before, thoughts) + ThoughtOf(thoughts, id) + Join(after, thoughts)
  {
    JoinAppend(before + [id], after, thoughts);
    JoinSnoc(before, id, thoughts);
  }

  /** An item seen for the first time always extends the text, and so does one that changes
      nothing. */
  lemma NewItemExtends(s: State, it: Item)
    requires it.id !in s.order || it.thought == [] || it.id == "" || (it.id in s.thoughts && !Wins(s, it))
    ensures Extends(s, it)
  {
    if it.id != "" && Wins(s, it) {
      JoinFrame(s.order, s.thoughts, it.id, it.thought);
    }
    JoinSnoc(s.order, it.id, Note(s, it).thoughts);
  }

  /** An item that is new, leaves the text alone, or extends the thought listed last. */
  predicate InTurn(s: State, it: Item) {
    || it.id == "" || it.thought == [] || it.id !in s.order
    || (it.id in s.thoughts && (!Wins(s, it) || (s.thoughts[it.id] <= it.thought && Sole(s.order, it.id))))
  }

  predicate Sole(order: seq<string>, id: string) {
    order != [] && order[|order| - 1] == id && id !in order[..|order| - 1]
  }

  predicate AlwaysInTurn(items: seq<Item>) {
    items == [] || (AlwaysInTurn(items[..|items| - 1]) && InTurn(After(items[..|items| - 1]), items[|items| - 1]))
  }

  /** Main result: as long as items are written one after another, the streaming and the
      non-streaming answer are the same text. */
  lemma {:induction false} WrittenInTurnAgrees(items: seq<Item>)
    requires AlwaysInTurn(items)
    ensures Streamed(items) == Full(After(items))
  {
    if items != [] {
      WrittenInTurnAgrees(items[..|items| - 1]);
      InTurnExtends(After(items[..|items| - 1]), items[|items| - 1]);
      StreamedStep(items);
    }
  }

  lemma InTurnExtends(s: State, it: Item)
    requires InTurn(s, it)
    ensures Extends(s, it)
  {
    if it.id != "" && it.id in s.thoughts && Wins(s, it) && it.id in s.order {
      var before := s.order[..|s.order| - 1];
      assert s.order == before + [it.id] + [];
      WinningExtendsIff(s, it, before, []);
    } else {
      NewItemExtends(s, it);
    }
  }

  // ---------- Empty first thoughts ----------

  /** An item is listed again whenever it comes back before its first text. */
  ghost predicate Relisted(items: seq<Item>) {
    exists i, j :: 0 <= i < j < |items| && items[i].id == items[j].id != "" && !Spoken(items[..j], items[j].id)
  }

  ghost predicate Spoken(items: seq<Item>, id: string) {
    exists i :: 0 <= i < |items| && items[i].id == id && items[i].thought != []
  }

  lemma {:induction false} SpokenIsKept(items: seq<Item>, id: string)
    requires id != ""
    ensures id in After(items).thoughts <==> Spoken(items, id)
    ensures id in After(items).order <==> exists i :: 0 <= i < |items| && items[i].id == id
  {
    if items != [] {
      var init, last := items[..|items| - 1], items[|items| - 1];
      SpokenIsKept(init, id);
      assert Spoken(init, id) ==> Spoken(items, id);
      assert forall i :: 0 <= i < |init| ==> init[i] == items[i];
    }
  }

  /** The order is meant to list every item once. It does, and the full text has every thought
      once, if and only if no item comes back before its first text. */
  lemma {:induction false} OrderIsDistinctIff(items: seq<Item>)
    ensures NoDuplicates(After(items).order) <==> !Relisted(items)
  {
    if items != [] {
      var init, last := items[..|items| - 1], items[|items| - 1];
      OrderIsDistinctIff(init);
      assert forall i :: 0 <= i < |init| ==> init[i] == items[i] && init[..i] == items[..i];
      assert items[..|items| - 1] == init;
      if last.id != "" {
        SpokenIsKept(init, last.id);
      }
      DistinctSnoc(After(init).order, last.id);
      RelistedStep(items);
    }
  }

  lemma RelistedStep(items: seq<Item>)
    requires items != []
    ensures var init, last := items[..|items| - 1], items[|items| - 1];
      Relisted(items) <==>
        || Relisted(init)
        || (last.id != "" && (exists i :: 0 <= i < |init| && init[i].id == last.id) && !Spoken(init, last.id))
  {
    var init, last := items[..|items| - 1], items[|items| - 1];
    assert forall i :: 0 <= i < |init| ==> init[i] == items[i] && init[..i] == items[..i];
  }

  lemma AfterTwo(a: Item, b: Item)
    ensures After([a, b]) == Note(Note(START, a), b)
  {
    var one, two := [a], [a, b];
    assert one[..|one| - 1] == [] && two[..|two| - 1] == one;
    assert After(one) == Note(After([]), a);
  }

  /** The smallest case: an empty thought first, and the answer has the text twice. */
  lemma EmptyThoughtDoublesText(id: string, t: Text)
    requires id != "" && t != []
    ensures Full(After([Item(id, []), Item(id, t)])) == t + t
  {
    AfterTwo(Item(id, []), Item(id, t));
    DoubledText(Note(Note(START, Item(id, [])), Item(id, t)), id, t);
  }

  lemma DoubledText(s: State, id: string, t: Text)
    requires s.order == [] + [id] + [id] && ThoughtOf(s.thoughts, id) == t
    ensures Full(s) == t + t
  {
    JoinSnoc([] + [id], id, s.thoughts);
    JoinSnoc([], id, s.thoughts);
    assert [] + t == t;
  }
}
