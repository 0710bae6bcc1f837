/** When a streaming Trae client ends up with the text a non-streaming one is given, said of the
    items alone: their ids, thoughts and places, without the renderer's state. */
module TraeAgreement {
  import opened Prelude
  import opened TraeText

  // ---------- The answer, read off the items ----------

  /** The longest thought of an item, the latest of equally long ones; empty if it has no text. */
  function Best(items: seq<Item>, id: string): Text {
    if items == [] then []
    else
      var best, it := Best(items[..|items| - 1], id), items[|items| - 1];
      if it.id == id && it.thought != [] && |it.thought| >= |best| then it.thought else best
  }

  /** An item is listed whenever it comes and has had no text before. */
  function Listing(items: seq<Item>): seq<string> {
    if items == [] then []
    else
      var init, it := items[..|items| - 1], items[|items| - 1];
      if it.id == "" || Best(init, it.id) != [] then Listing(init) else Listing(init) + [it.id]
  }

  /** The best thoughts of a list of items, one after another. */
  function Gather(items: seq<Item>, ids: seq<string>): Text {
    if ids == [] then [] else Gather(items, ids[..|ids| - 1]) + Best(items, ids[|ids| - 1])
  }

  function Answer(items: seq<Item>): Text {
    Gather(items, Listing(items))
  }

  lemma {:induction false} StateIs(items: seq<Item>, id: string)
    requires id != ""
    ensures After(items).order == Listing(items) && "" !in Listing(items)
    ensures ThoughtOf(After(items).thoughts, id) == Best(items, id)
    ensures id in After(items).thoughts <==> Best(items, id) != []
  {
    if items != [] {
      var init, it := items[..|items| - 1], items[|items| - 1];
      StateIs(init, id);
      if it.id != "" {
        StateIs(init, it.id);
      }
    }
  }

  lemma {:induction false} JoinIsGather(items: seq<Item>, ids: seq<string>)
    requires "" !in ids
    ensures Join(ids, After(items).thoughts) == Gather(items, ids)
  {
    if ids != [] {
      JoinIsGather(items, ids[..|ids| - 1]);
      StateIs(items, ids[|ids| - 1]);
    }
  }

  /** The non-streaming answer is the gathered best thoughts. */
  lemma {:induction false} AnswerIsFull(items: seq<Item>)
    ensures Full(After(items)) == Answer(items)
  {
    StateIs(items, "x");
    JoinIsGather(items, Listing(items));
  }

  /** No other thought of that item is longer, and no later one as long. */
  predicate Outlasts(items: seq<Item>, i: nat)
    requires i < |items|
  {
    forall j :: 0 <= j < |items| && items[j].id == items[i].id ==>
      |items[j].thought| < |items[i].thought| || (j <= i && |items[j].thought| == |items[i].thought|)
  }

  /** The longest thought, and the latest of that length. */
  lemma {:induction false} BestIsLongest(items: seq<Item>, id: string, i: nat)
    requires i < |items| && items[i].id == id
    ensures |items[i].thought| <= |Best(items, id)|
    ensures items[i].thought != [] && Outlasts(items, i) ==> Best(items, id) == items[i].thought
  {
    var init, last := items[..|items| - 1], items[|items| - 1];
    if i < |items| - 1 {
      BestIsLongest(init, id, i);
      assert forall j :: 0 <= j < |init| ==> init[j] == items[j];
      assert items[|items| - 1] == last;
    } else {
      if Best(init, id) != [] {
        var k := BestIsThere(init, id);
        assert items[k] == init[k];
      }
    }
  }

  lemma {:induction false} BestIsThere(items: seq<Item>, id: string) returns (k: nat)
    requires Best(items, id) != []
    ensures k < |items| && items[k].id == id && items[k].thought == Best(items, id)
  {
    var init, last := items[..|items| - 1], items[|items| - 1];
    if last.id == id && last.thought != [] && |last.thought| >= |Best(init, id)| {
      k := |items| - 1;
    } else {
      k := BestIsThere(init, id);
    }
  }

  // ---------- One item ----------

  /** The first place of an item. */
  function Place(ids: seq<string>, id: string): (p: nat)
    requires id in ids
    ensures p < |ids| && ids[p] == id && id !in ids[..p]
  {
    if ids[0] == id then 0 else 1 + Place(ids[1..], id)
  }

  /** The text of a list of items with t for the thought of id. */
  function Weave(past: seq<Item>, ids: seq<string>, id: string, t: Text): Text {
    if ids == [] then []
    else
      var last := ids[|ids| - 1];
      Weave(past, ids[..|ids| - 1], id, t) + (if last == id then t else Best(past, last))
  }

  /** The list from the item's first place on, after it has come once more. */
  function FromPlace(past: seq<Item>, id: string): seq<string>
    requires id in Listing(past)
  {
    var ids := Listing(past);
    ids[Place(ids, id)..] + (if Best(past, id) == [] then [id] else [])
  }

  /** The text from the item's first place on, with its old thought and then with its new one. */
  function FromPlaceBefore(past: seq<Item>, id: string): Text
    requires id in Listing(past)
  {
    Weave(past, Listing(past)[Place(Listing(past), id)..], id, Best(past, id))
  }

  function FromPlaceAfter(past: seq<Item>, it: Item): Text
    requires it.id in Listing(past)
  {
    Weave(past, FromPlace(past, it.id), it.id, it.thought)
  }

  /** An item changes nothing: it has no id, no text, or a shorter text than before. */
  predicate Idle(past: seq<Item>, it: Item) {
    it.id == "" || it.thought == [] || |it.thought| < |Best(past, it.id)|
  }

  /** The item is idle, comes for the first time, or from its first place on the text with its old
      thought is a prefix of the text with its new one. */
  predicate Fits(past: seq<Item>, it: Item) {
    Idle(past, it) || it.id !in Listing(past) || FromPlaceBefore(past, it.id) <= FromPlaceAfter(past, it)
  }

  lemma {:induction false} JoinIsWeave(past: seq<Item>, ids: seq<string>, id: string, t: Text,
      thoughts: map<string, Text>)
    requires "" !in ids
    requires forall x :: x in ids ==> ThoughtOf(thoughts, x) == if x == id then t else Best(past, x)
    ensures Join(ids, thoughts) == Weave(past, ids, id, t)
  {
    if ids != [] {
      JoinIsWeave(past, ids[..|ids| - 1], id, t, thoughts);
    }
  }

  lemma {:induction false} ThoughtsAre(past: seq<Item>, ids: seq<string>)
    requires "" !in ids
    ensures forall x :: x in ids ==> ThoughtOf(After(past).thoughts, x) == Best(past, x)
  {
    forall x | x in ids
      ensures ThoughtOf(After(past).thoughts, x) == Best(past, x)
    {
      StateIs(past, x);
    }
  }

  /** An item extends the text exactly when it fits. */
  lemma {:induction false} ExtendsIff(past: seq<Item>, it: Item)
    ensures Extends(After(past), it) <==> Fits(past, it)
  {
    var s := After(past);
    if it.id == "" {
      NewItemExtends(s, it);
    } else {
      StateIs(past, it.id);
      if Idle(past, it) || it.id !in Listing(past) {
        NewItemExtends(s, it);
      } else {
        WinningExtends(past, it);
      }
    }
  }

  /** The text before and after a winning item that is listed. */
  lemma {:induction false} WinningText(past: seq<Item>, it: Item) returns (head: Text)
    requires !Idle(past, it) && it.id in Listing(past)
    ensures Full(After(past)) == head + FromPlaceBefore(past, it.id)
    ensures Full(Note(After(past), it)) == head + FromPlaceAfter(past, it)
  {
    var ids, s := Listing(past), After(past);
    var p := Place(ids, it.id);
    var rest, rest' := ids[p..], FromPlace(past, it.id);
    NotedFromPlace(past, it);
    StateIs(past, it.id);
    assert ids == ids[..p] + rest;
    SplitAtPlace(s, it, ids[..p], rest, rest');
    PlaceLacks(ids, p, "", it.id);
    WovenBefore(past, rest, it.id);
    WovenAfter(past, rest', it.id, it.thought);
    head := Join(ids[..p], s.thoughts);
  }

  lemma {:induction false} WinningExtends(past: seq<Item>, it: Item)
    requires !Idle(past, it) && it.id in Listing(past)
    ensures Extends(After(past), it) <==> FromPlaceBefore(past, it.id) <= FromPlaceAfter(past, it)
  {
    var head := WinningText(past, it);
    PrefixBehind(head, FromPlaceBefore(past, it.id), FromPlaceAfter(past, it));
  }

  lemma PlaceLacks(ids: seq<string>, p: nat, x: string, id: string)
    requires p <= |ids| && x !in ids && id != x
    ensures x !in ids[p..] && x !in ids[p..] + [id] && x !in ids[p..] + []
  {
  }

  lemma {:induction false} WovenBefore(past: seq<Item>, ids: seq<string>, id: string)
    requires "" !in ids
    ensures Join(ids, After(past).thoughts) == Weave(past, ids, id, Best(past, id))
  {
    ThoughtsAre(past, ids);
    JoinIsWeave(past, ids, id, Best(past, id), After(past).thoughts);
  }

  lemma {:induction false} WovenAfter(past: seq<Item>, ids: seq<string>, id: string, t: Text)
    requires "" !in ids
    ensures Join(ids, After(past).thoughts[id := t]) == Weave(past, ids, id, t)
  {
    ThoughtsAre(past, ids);
    JoinIsWeave(past, ids, id, t, After(past).thoughts[id := t]);
  }

  lemma {:induction false} NotedFromPlace(past: seq<Item>, it: Item)
    requires !Idle(past, it) && it.id in Listing(past)
    ensures var ids := Listing(past);
      Note(After(past), it) ==
        State(ids[..Place(ids, it.id)] + FromPlace(past, it.id), After(past).thoughts[it.id := it.thought])
  {
    var ids := Listing(past);
    var p := Place(ids, it.id);
    StateIs(past, it.id);
    InTwo(ids, p, if Best(past, it.id) == [] then [it.id] else []);
  }

  lemma InTwo(ids: seq<string>, p: nat, more: seq<string>)
    requires p <= |ids|
    ensures ids + more == ids[..p] + (ids[p..] + more) && ids + [] == ids
  {
  }

  /** What stands ahead of the item's first place stays. */
  lemma SplitAtPlace(s: State, it: Item, head: seq<string>, rest: seq<string>, rest': seq<string>)
    requires s.order == head + rest && it.id !in head
    requires Note(s, it) == State(head + rest', s.thoughts[it.id := it.thought])
    ensures Full(s) == Join(head, s.thoughts) + Join(rest, s.thoughts)
    ensures Full(Note(s, it)) == Join(head, s.thoughts) + Join(rest', s.thoughts[it.id := it.thought])
  {
    var thoughts := s.thoughts[it.id := it.thought];
    JoinAppend(head, rest, s.thoughts);
    JoinAppend(head, rest', thoughts);
    JoinFrame(head, s.thoughts, it.id, it.thought);
  }

  // ---------- Main results ----------

  predicate AllFit(items: seq<Item>) {
    items == [] || (AllFit(items[..|items| - 1]) && Fits(items[..|items| - 1], items[|items| - 1]))
  }

  /** Main result: a streaming client has the whole text at every moment of a turn if and only if
      every item fits. */
  lemma {:induction false} StreamedIsFullIff(items: seq<Item>)
    ensures AlwaysFull(items) <==> AllFit(items)
  {
    ExtendingStreamIff(items);
    AllFitIff(items);
  }

  lemma {:induction false} AllFitIff(items: seq<Item>)
    ensures AlwaysExtends(items) <==> AllFit(items)
  {
    if items != [] {
      AllFitIff(items[..|items| - 1]);
      ExtendsIff(items[..|items| - 1], items[|items| - 1]);
    }
  }

  // ---------- In the end ----------

  /** What an item adds to the stream: its thought if it is new; if it is listed, what the text from its
      first place on has with the new thought beyond the length it had with the old one. */
  function Adds(past: seq<Item>, it: Item): Text {
    if Idle(past, it) then []
    else if it.id !in Listing(past) then it.thought
    else
      var was, now := FromPlaceBefore(past, it.id), FromPlaceAfter(past, it);
      if |was| <= |now| then now[|was|..] else []
  }

  lemma {:induction false} AddsIs(past: seq<Item>, it: Item)
    ensures |Answer(past)| <= |Answer(past + [it])|
    ensures Answer(past + [it])[|Answer(past)|..] == Adds(past, it)
  {
    AnswerIsFull(past);
    AnswerIsFull(past + [it]);
    assert (past + [it])[..|past|] == past;
    NoteGrows(After(past), it);
    if !Idle(past, it) && it.id in Listing(past) {
      var head := WinningText(past, it);
      BeyondHead(head, FromPlaceBefore(past, it.id), FromPlaceAfter(past, it));
    } else {
      PlainItemAdds(past, it);
    }
  }

  lemma BeyondHead(head: Text, was: Text, now: Text)
    requires |was| <= |now|
    ensures (head + now)[|head + was|..] == now[|was|..]
  {
  }

  lemma {:induction false} BestIsListed(items: seq<Item>, id: string)
    requires id != "" && Best(items, id) != []
    ensures id in Listing(items)
  {
    var init := items[..|items| - 1];
    if Best(init, id) != [] {
      BestIsListed(init, id);
    }
  }

  lemma {:induction false} PlainItemAdds(past: seq<Item>, it: Item)
    requires Idle(past, it) || it.id !in Listing(past)
    ensures Full(Note(After(past), it)) == Full(After(past)) + (if Idle(past, it) then [] else it.thought)
  {
    var s := After(past);
    assert Full(s) + [] == Full(s);
    if it.id != "" {
      StateIs(past, it.id);
      if Idle(past, it) {
        JoinSnoc(s.order, it.id, s.thoughts);
      } else {
        if Best(past, it.id) != [] {
          BestIsListed(past, it.id);
        }
        JoinSnoc(s.order, it.id, s.thoughts[it.id := it.thought]);
        JoinFrame(s.order, s.thoughts, it.id, it.thought);
      }
    }
  }

  /** t is what final has from byte at on. */
  predicate StandsAt(final: Text, at: nat, t: Text) {
    at + |t| <= |final| && final[at..at + |t|] == t
  }

  /** What every item added, when it came, is what final has in its place. */
  predicate Stands(items: seq<Item>, final: Text) {
    forall i :: 0 <= i < |items| ==> StandsAt(final, |Answer(items[..i])|, Adds(items[..i], items[i]))
  }

  lemma {:induction false} StandsSnoc(items: seq<Item>, it: Item, final: Text)
    ensures Stands(items + [it], final) <==> Stands(items, final) && StandsAt(final, |Answer(items)|, Adds(items, it))
  {
    var all := items + [it];
    assert all[..|items|] == items && all[|items|] == it;
    assert forall i :: 0 <= i < |items| ==> all[..i] == items[..i] && all[i] == items[i];
  }

  lemma {:induction false} StandsIff(items: seq<Item>, final: Text)
    ensures Streamed(items) <= final <==> Stands(items, final)
  {
    if items != [] {
      var init, it := items[..|items| - 1], items[|items| - 1];
      assert items == init + [it];
      StandsIff(init, final);
      StandsSnoc(init, it, final);
      LengthsAgree(init);
      AnswerIsFull(init);
      AnswerIsFull(items);
      AddsIs(init, it);
      PrefixInTwo(Streamed(init), Adds(init, it), final);
    }
  }

  lemma PrefixInTwo(a: Text, b: Text, final: Text)
    ensures a + b <= final <==> a <= final && StandsAt(final, |a|, b)
  {
    if a + b <= final {
      assert final[..|a| + |b|] == a + b;
      assert final[|a|..|a| + |b|] == (a + b)[|a|..] == b;
      assert final[..|a|] == (a + b)[..|a|] == a;
    }
    if a <= final && StandsAt(final, |a|, b) {
      assert final[..|a| + |b|] == final[..|a|] + final[|a|..|a| + |b|] == a + b;
    }
  }

  /** Main result: in the end the streamed answer is the non-streaming one if and only if every new
      item's thought, and every listed item's growth from its first place on, is what the best
      thoughts, in order of listing, have where it was sent. */
  lemma {:induction false} AnswersAgreeIff(items: seq<Item>)
    ensures Streamed(items) == Full(After(items)) <==> Stands(items, Answer(items))
  {
    StandsIff(items, Answer(items));
    AnswerIsFull(items);
    LengthsAgree(items);
  }

  // ---------- Items listed once ----------

  /** b goes on as x repeated. */
  predicate Repeats(x: Text, b: Text) {
    x == [] || forall i :: 0 <= i < |b| ==> b[i] == x[i % |x|]
  }

  lemma {:induction false} RepeatsUpTo(x: Text, b: Text, i: nat)
    requires x != [] && b <= x + b && i < |b|
    ensures b[i] == x[i % |x|]
  {
    var n := |x|;
    assert b[i] == (x + b)[i];
    if i < n {
      ModUnique(i, 0, i, n);
    } else {
      RepeatsUpTo(x, b, i - n);
      StepBack(i, n);
    }
  }

  lemma StepBack(i: nat, n: nat)
    requires 0 < n <= i
    ensures (i - n) % n == i % n
  {
    Distribute(n, (i - n) / n, -1);
    ModUnique(i, (i - n) / n + 1, (i - n) % n, n);
  }

  lemma RepeatsIff(x: Text, b: Text)
    ensures b <= x + b <==> Repeats(x, b)
  {
    if x == [] {
      assert x + b == b;
    } else {
      if b <= x + b {
        forall i | 0 <= i < |b|
          ensures b[i] == x[i % |x|]
        {
          RepeatsUpTo(x, b, i);
        }
      }
      if Repeats(x, b) {
        forall i | 0 <= i < |b|
          ensures b[i] == (x + b)[i]
        {
          if i < |x| {
            ModUnique(i, 0, i, |x|);
          } else {
            StepBack(i, |x|);
          }
        }
      }
    }
  }

  /** A thought with text behind it grows without harm exactly when the text behind repeats what
      was added. */
  lemma GrowthIff(was: Text, now: Text, behind: Text)
    requires |was| <= |now|
    ensures was + behind <= now + behind <==> was <= now && Repeats(now[|was|..], behind)
  {
    if was + behind <= now + behind {
      PrefixHead(was, now, behind);
    }
    if was <= now {
      var x := now[|was|..];
      assert now == was + x;
      Assoc(was, x, behind);
      PrefixBehind(was, behind, x + behind);
      RepeatsIff(x, behind);
    }
  }

  lemma PrefixHead(was: Text, now: Text, behind: Text)
    requires |was| <= |now| && was + behind <= now + behind
    ensures was <= now
  {
    forall i | 0 <= i < |was|
      ensures was[i] == now[i]
    {
      assert (was + behind)[i] == (now + behind)[i];
    }
  }

  /** What stands behind an item. */
  function Behind(past: seq<Item>, id: string): Text
    requires id in Listing(past)
  {
    Gather(past, Listing(past)[Place(Listing(past), id) + 1..])
  }

  /** The item is idle or new, or its thought only grows and the text behind it repeats the growth;
      with no text behind it, it only has to grow. */
  predicate FitsOnce(past: seq<Item>, it: Item) {
    Idle(past, it) || it.id !in Listing(past) ||
    (Best(past, it.id) <= it.thought && Repeats(it.thought[|Best(past, it.id)|..], Behind(past, it.id)))
  }

  lemma {:induction false} WeaveElsewhere(past: seq<Item>, ids: seq<string>, id: string, t: Text)
    requires id !in ids
    ensures Weave(past, ids, id, t) == Gather(past, ids)
  {
    if ids != [] {
      WeaveElsewhere(past, ids[..|ids| - 1], id, t);
    }
  }

  lemma {:induction false} WeaveAhead(past: seq<Item>, ids: seq<string>, id: string, t: Text)
    ensures Weave(past, [id] + ids, id, t) == t + Weave(past, ids, id, t)
  {
    if ids == [] {
      assert [id] + ids == [id] && [id][..0] == [];
      assert Weave(past, [id], id, t) == Weave(past, [id][..0], id, t) + t;
      assert [] + t == t && t + [] == t;
    } else {
      assert ([id] + ids)[..|ids|] == [id] + ids[..|ids| - 1];
      WeaveAhead(past, ids[..|ids| - 1], id, t);
      Assoc(t, Weave(past, ids[..|ids| - 1], id, t), if ids[|ids| - 1] == id then t else Best(past, ids[|ids| - 1]));
    }
  }

  lemma {:induction false} FitsOnceIff(past: seq<Item>, it: Item)
    requires NoDuplicates(Listing(past)) && (it.id in Listing(past) ==> Best(past, it.id) != [])
    ensures Fits(past, it) <==> FitsOnce(past, it)
  {
    if !Idle(past, it) && it.id in Listing(past) {
      var ids := Listing(past);
      var p := Place(ids, it.id);
      var rest := ids[p + 1..];
      assert ids[p..] == [it.id] + rest && FromPlace(past, it.id) == ids[p..];
      assert it.id !in rest;
      WeaveAhead(past, rest, it.id, Best(past, it.id));
      WeaveAhead(past, rest, it.id, it.thought);
      WeaveElsewhere(past, rest, it.id, Best(past, it.id));
      WeaveElsewhere(past, rest, it.id, it.thought);
      GrowthIff(Best(past, it.id), it.thought, Gather(past, rest));
    }
  }

  predicate AllFitOnce(items: seq<Item>) {
    items == [] || (AllFitOnce(items[..|items| - 1]) && FitsOnce(items[..|items| - 1], items[|items| - 1]))
  }

  /** Main result, for turns in which no item comes back before its first text: the client has the
      whole text at every moment if and only if thoughts only grow, and one with text behind it
      only by what that text repeats. */
  lemma {:induction false} ListedOnceIff(items: seq<Item>)
    requires !Relisted(items)
    ensures AlwaysFull(items) <==> AllFitOnce(items)
  {
    OrderIsDistinctIff(items);
    StateIs(items, "x");
    StreamedIsFullIff(items);
    AllFitOnceIff(items);
  }

  lemma {:induction false} AllFitOnceIff(items: seq<Item>)
    requires NoDuplicates(Listing(items))
    ensures AllFit(items) <==> AllFitOnce(items)
  {
    if items != [] {
      var init, it := items[..|items| - 1], items[|items| - 1];
      if it.id != "" && Best(init, it.id) == [] {
        DistinctSnoc(Listing(init), it.id);
      }
      StateIs(init, "x");
      AllFitOnceIff(init);
      FitsOnceIff(init, it);
    }
  }

  // ---------- What one item adds to the stream ----------

  lemma {:induction false} GatherIsWeave(past: seq<Item>, it: Item, ids: seq<string>)
    ensures Gather(past, ids) == Weave(past, ids, it.id, Best(past, it.id))
    ensures !Idle(past, it) ==> Gather(past + [it], ids) == Weave(past, ids, it.id, it.thought)
    ensures Idle(past, it) && "" !in ids ==> Gather(past + [it], ids) == Gather(past, ids)
  {
    if ids != [] {
      GatherIsWeave(past, it, ids[..|ids| - 1]);
      assert (past + [it])[..|past|] == past;
    }
  }

  lemma {:induction false} WeaveAppend(past: seq<Item>, a: seq<string>, b: seq<string>, id: string, t: Text)
    ensures Weave(past, a + b, id, t) == Weave(past, a, id, t) + Weave(past, b, id, t)
  {
    if b == [] {
      assert a + b == a;
    } else {
      var init, last := b[..|b| - 1], b[|b| - 1];
      WeaveAppend(past, a, init, id, t);
      assert (a + b)[..|a + b| - 1] == a + init && (a + b)[|a + b| - 1] == last;
      Assoc(Weave(past, a, id, t), Weave(past, init, id, t), if last == id then t else Best(past, last));
    }
  }

  /** What the stream gains by an item that is listed once and has text already: the end of its new
      thought and the text behind it, as long as the growth, whatever that text has been before. */
  lemma {:induction false} StretchIs(past: seq<Item>, it: Item)
    requires NoDuplicates(Listing(past)) && it.id in Listing(past)
    requires Best(past, it.id) != [] && !Idle(past, it)
    ensures var was, now := Answer(past), Answer(past + [it]);
      && |now| - |was| == |it.thought| - |Best(past, it.id)|
      && now[|was|..] == (it.thought + Behind(past, it.id))[|Best(past, it.id)| + |Behind(past, it.id)|..]
  {
    var head := AnswersThrough(past, it);
    Stretch(head, Best(past, it.id), it.thought, Behind(past, it.id));
  }

  lemma Stretch(head: Text, was: Text, now: Text, behind: Text)
    requires |was| <= |now|
    ensures |head + (now + behind)| - |head + (was + behind)| == |now| - |was|
    ensures (head + (now + behind))[|head + (was + behind)|..] == (now + behind)[|was| + |behind|..]
  {
  }

  lemma {:induction false} AnswersThrough(past: seq<Item>, it: Item) returns (head: Text)
    requires NoDuplicates(Listing(past)) && it.id in Listing(past)
    requires Best(past, it.id) != [] && !Idle(past, it)
    ensures Answer(past) == head + (Best(past, it.id) + Behind(past, it.id))
    ensures Answer(past + [it]) == head + (it.thought + Behind(past, it.id))
  {
    var ids := Listing(past);
    var p := Place(ids, it.id);
    ListingStays(past, it);
    GatheredThrough(past, it, ids, p);
    head := Gather(past, ids[..p]);
  }

  lemma {:induction false} GatheredThrough(past: seq<Item>, it: Item, ids: seq<string>, p: nat)
    requires NoDuplicates(ids) && p < |ids| && ids[p] == it.id && !Idle(past, it)
    ensures Gather(past, ids) == Gather(past, ids[..p]) + (Best(past, it.id) + Gather(past, ids[p + 1..]))
    ensures Gather(past + [it], ids) == Gather(past, ids[..p]) + (it.thought + Gather(past, ids[p + 1..]))
  {
    OncePlaced(ids, p);
    GatherIsWeave(past, it, ids);
    WovenThrough(past, ids[..p], ids[p + 1..], it.id, Best(past, it.id));
    WovenThrough(past, ids[..p], ids[p + 1..], it.id, it.thought);
  }

  lemma ListingStays(past: seq<Item>, it: Item)
    requires Best(past, it.id) != []
    ensures Listing(past + [it]) == Listing(past)
  {
    assert (past + [it])[..|past|] == past;
  }

  lemma OncePlaced(ids: seq<string>, p: nat)
    requires NoDuplicates(ids) && p < |ids|
    ensures ids == ids[..p] + ([ids[p]] + ids[p + 1..]) && ids[p] !in ids[p + 1..] && ids[p] !in ids[..p]
  {
  }

  lemma WovenThrough(past: seq<Item>, head: seq<string>, rest: seq<string>, id: string, t: Text)
    requires id !in head && id !in rest
    ensures Weave(past, head + ([id] + rest), id, t) == Gather(past, head) + (t + Gather(past, rest))
  {
    WeaveAppend(past, head, [id] + rest, id, t);
    WeaveAhead(past, rest, id, t);
    WeaveElsewhere(past, rest, id, t);
    WeaveElsewhere(past, head, id, t);
  }

  /** Listed once, an item adds its thought when it is new, and later the end of its new thought and
      the text behind it, as long as the growth. */
  function AddsOnce(past: seq<Item>, it: Item): Text {
    if Idle(past, it) then []
    else if it.id !in Listing(past) then it.thought
    else
      var t, n := it.thought + Behind(past, it.id), |Best(past, it.id)| + |Behind(past, it.id)|;
      if n <= |t| then t[n..] else []
  }

  predicate StandsOnce(items: seq<Item>, final: Text) {
    forall i :: 0 <= i < |items| ==> StandsAt(final, |Answer(items[..i])|, AddsOnce(items[..i], items[i]))
  }

  lemma {:induction false} AddsOnceIs(past: seq<Item>, it: Item)
    requires NoDuplicates(Listing(past)) && (!Idle(past, it) && it.id in Listing(past) ==> Best(past, it.id) != [])
    ensures Adds(past, it) == AddsOnce(past, it)
  {
    if !Idle(past, it) && it.id in Listing(past) {
      AddsIs(past, it);
      StretchIs(past, it);
    }
  }

  /** Main result, for turns in which no item comes back before its first text: the two answers agree
      in the end if and only if every new item's thought, and of every item that grew the end of its
      thought and the text behind it, stands in the finished answer where it was sent. */
  lemma {:induction false} AnswersAgreeOnceIff(items: seq<Item>)
    requires !Relisted(items)
    ensures Streamed(items) == Full(After(items)) <==> StandsOnce(items, Answer(items))
  {
    AnswersAgreeIff(items);
    OrderIsDistinctIff(items);
    StateIs(items, "x");
    forall i | 0 <= i < |items|
      ensures Adds(items[..i], items[i]) == AddsOnce(items[..i], items[i])
    {
      ListedOnceTo(items, i);
      AddsOnceIs(items[..i], items[i]);
    }
  }

  /** The same holds up to any item, and a listed item has text when it comes back. */
  lemma {:induction false} ListedOnceTo(items: seq<Item>, i: nat)
    requires NoDuplicates(Listing(items)) && i < |items|
    ensures NoDuplicates(Listing(items[..i]))
    ensures items[i].id in Listing(items[..i]) ==> Best(items[..i], items[i].id) != []
    decreases |items|
  {
    var init, it := items[..|items| - 1], items[|items| - 1];
    if it.id != "" && Best(init, it.id) == [] {
      DistinctSnoc(Listing(init), it.id);
    }
    if i < |items| - 1 {
      assert init[..i] == items[..i];
      ListedOnceTo(init, i);
    } else {
      StateIs(init, "x");
    }
  }

  // ---------- Where the answers part, and where they meet again ----------

  lemma StreamedMore(items: seq<Item>, it: Item)
    ensures var was, now := Full(After(items)), Full(After(items + [it]));
      |was| <= |now| && Streamed(items + [it]) == Streamed(items) + now[|was|..]
  {
    assert (items + [it])[..|items|] == items;
    NoteGrows(After(items), it);
  }

  lemma TwoThoughts(a: string, b: string, t: Text, u: Text)
    requires a != b
    ensures Full(State([a, b], map[a := t, b := u])) == t + u
  {
    var thoughts := map[a := t, b := u];
    assert [a, b] == [] + [a] + [b];
    JoinSnoc([] + [a], b, thoughts);
    JoinSnoc([], a, thoughts);
    assert [] + t == t;
  }

  lemma OneItem(a: string, t: Text) returns (items: seq<Item>)
    requires a != "" && t != []
    ensures items == [Item(a, t)]
    ensures After(items) == State([a], map[a := t]) && Full(After(items)) == t == Streamed(items)
  {
    items := [Item(a, t)];
    assert [] + items == items;
    JoinSnoc([], a, map[a := t]);
    assert [] + [a] == [a] && [] + t == t;
    StreamedMore([], Item(a, t));
  }

  lemma TwoItems(a: string, b: string, t: Text, u: Text) returns (items: seq<Item>)
    requires a != b && a != "" && b != "" && t != [] && u != []
    ensures items == [Item(a, t)] + [Item(b, u)]
    ensures After(items) == State([a, b], map[a := t, b := u])
    ensures Full(After(items)) == t + u == Streamed(items)
  {
    var one := OneItem(a, t);
    items := one + [Item(b, u)];
    SecondNoted(a, b, t, u);
    TwoThoughts(a, b, t, u);
    StreamedMore(one, Item(b, u));
  }

  lemma SecondNoted(a: string, b: string, t: Text, u: Text)
    requires a != b && b != "" && u != []
    ensures Note(State([a], map[a := t]), Item(b, u)) == State([a, b], map[a := t, b := u])
  {
    assert [a] + [b] == [a, b];
    assert map[a := t][b := u] == map[a := t, b := u];
  }

  /** Two items, the first of which grows after the second has come. */
  lemma LateGrowth(a: string, b: string, t: Text, u: Text, t': Text) returns (items: seq<Item>)
    requires a != b && a != "" && b != "" && t != [] && u != [] && |t| <= |t'|
    ensures items == [Item(a, t)] + [Item(b, u)] + [Item(a, t')]
    ensures After(items) == State([a, b], map[a := t', b := u]) && Full(After(items)) == t' + u
    ensures Streamed(items) == t + u + (t' + u)[|t| + |u|..]
  {
    var two := TwoItems(a, b, t, u);
    items := two + [Item(a, t')];
    assert map[a := t, b := u][a := t'] == map[a := t', b := u];
    TwoThoughts(a, b, t', u);
    StreamedMore(two, Item(a, t'));
  }

  /** The streaming client is left with "abxx" where the answer is "abcx". */
  lemma LateGrowthDiffers() returns (items: seq<Item>)
    ensures Streamed(items) == [97, 98, 120, 120] && Full(After(items)) == [97, 98, 99, 120]
  {
    items := LateGrowth("A", "B", [97, 98], [120], [97, 98, 99]);
  }

  /** And if "abc" then becomes "abx", both have "abxx" again: agreement in the end is weaker than
      agreement throughout. */
  lemma AgreesOnlyInTheEnd() returns (items: seq<Item>)
    ensures Streamed(items) == Full(After(items)) && !AlwaysFull(items)
  {
    var three := LateGrowth("A", "B", [97, 98], [120], [97, 98, 99]);
    items := three + [Item("A", [97, 98, 120])];
    assert After(items) == State(["A", "B"], map["A" := [97, 98, 120], "B" := [120]]);
    TwoThoughts("A", "B", [97, 98, 120], [120]);
    StreamedMore(three, Item("A", [97, 98, 120]));
    assert items[..|items| - 1] == three;
    assert Streamed(three)[2] == 120 && Full(After(three))[2] == 99;
  }
}
