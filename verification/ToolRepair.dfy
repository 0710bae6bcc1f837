/** Repair of missing tool responses (fixMissingToolResponsesOpenAI, internal/translator/request.go). */
module ToolRepair {
  import opened Prelude

  datatype Role = System | User | Assistant | ToolRole

  datatype Message = Message(role: Role, content: string, toolCalls: seq<string>, toolCallID: string)

  predicate Calls(m: Message) {
    m.role == Assistant && m.toolCalls != []
  }

  /** A message the scan after a call counts as a response. */
  predicate Responds(m: Message) {
    m.role == ToolRole && m.toolCallID != ""
  }

  function Placeholder(id: string): Message {
    Message(ToolRole, "[No response received]", [], id)
  }

  /** The unbroken run of responses at the head of ms. */
  function Responses(ms: seq<Message>): (n: nat)
    ensures n <= |ms|
    ensures forall i :: 0 <= i < n ==> Responds(ms[i])
    ensures n < |ms| ==> !Responds(ms[n])
  {
    if ms == [] || !Responds(ms[0]) then 0 else 1 + Responses(ms[1..])
  }

  function Ids(ms: seq<Message>): set<string> {
    set m | m in ms :: m.toolCallID
  }

  /** The calls with no response, in call order; an id called twice is missing twice. */
  function Missing(calls: seq<string>, responded: set<string>): seq<string> {
    if calls == [] then []
    else
      var last := calls[|calls| - 1];
      Missing(calls[..|calls| - 1], responded) + (if last in responded then [] else [last])
  }

  function Placeholders(ids: seq<string>): seq<Message> {
    if ids == [] then [] else Placeholders(ids[..|ids| - 1]) + [Placeholder(ids[|ids| - 1])]
  }

  function MissingAfter(m: Message, rest: seq<Message>): seq<string> {
    Missing(m.toolCalls, Ids(rest[..Responses(rest)]))
  }

  /** They are missing in the order in which they were called. */
  function MissingAt(calls: seq<string>, responded: set<string>): seq<nat> {
    if calls == [] then []
    else
      MissingAt(calls[..|calls| - 1], responded) + (if calls[|calls| - 1] in responded then [] else [|calls| - 1])
  }

  lemma {:induction false} MissingInOrder(calls: seq<string>, responded: set<string>)
    ensures var at, ids := MissingAt(calls, responded), Missing(calls, responded);
      && |at| == |ids|
      && (forall i :: 0 <= i < |at| ==> at[i] < |calls| && calls[at[i]] == ids[i])
      && (forall i, j :: 0 <= i < j < |at| ==> at[i] < at[j])
      && (forall k: nat :: k in at <==> k < |calls| && calls[k] !in responded)
  {
    if calls != [] {
      MissingInOrder(calls[..|calls| - 1], responded);
    }
  }

  /** One placeholder each. */
  lemma {:induction false} PlaceholdersAre(ids: seq<string>)
    ensures |Placeholders(ids)| == |ids|
    ensures forall i :: 0 <= i < |ids| ==>
              Placeholders(ids)[i] == Message(ToolRole, "[No response received]", [], ids[i])
  {
    if ids != [] {
      PlaceholdersAre(ids[..|ids| - 1]);
    }
  }

  /** The repaired conversation: after a calling message and its responses come the placeholders. */
  function Repair(ms: seq<Message>): seq<Message>
    decreases |ms|
  {
    if ms == [] then []
    else if !Calls(ms[0]) then [ms[0]] + Repair(ms[1..])
    else
      var rest := ms[1..];
      var n := Responses(rest);
      [ms[0]] + rest[..n] + Placeholders(MissingAfter(ms[0], rest)) + Repair(rest[n..])
  }

  lemma {:induction false} RepairSkipsResponses(ms: seq<Message>, n: nat)
    requires n <= |ms| && forall i :: 0 <= i < n ==> Responds(ms[i])
    ensures Repair(ms) == ms[..n] + Repair(ms[n..])
  {
    if n == 0 {
      assert ms[..0] + Repair(ms[0..]) == Repair(ms);
    } else {
      RepairSkipsResponses(ms[1..], n - 1);
      assert ms[1..][n - 1..] == ms[n..];
      assert [ms[0]] + ms[1..][..n - 1] == ms[..n];
      Assoc([ms[0]], ms[1..][..n - 1], Repair(ms[n..]));
    }
  }

  // ---------- The loop over a list that grows under it ----------

  lemma RepairPlain(m: Message, rest: seq<Message>)
    requires !Calls(m)
    ensures Repair([m] + rest) == [m] + Repair(rest)
  {
    assert ([m] + rest)[1..] == rest;
  }

  lemma RepairCall(m: Message, rest: seq<Message>)
    requires Calls(m)
    ensures var n := Responses(rest);
      Repair([m] + rest) == [m] + rest[..n] + Placeholders(MissingAfter(m, rest)) + Repair(rest[n..])
  {
    assert ([m] + rest)[1..] == rest;
  }

  lemma RepairAnsweredCall(m: Message, rest: seq<Message>)
    requires Calls(m) && MissingAfter(m, rest) == []
    ensures Repair([m] + rest) == [m] + Repair(rest)
  {
    var n := Responses(rest);
    RepairCall(m, rest);
    RepairSkipsResponses(rest, n);
    assert [m] + rest[..n] + [] == [m] + rest[..n];
    Assoc([m], rest[..n], Repair(rest[n..]));
  }

  method FixMissingToolResponses(messages: seq<Message>) returns (result: seq<Message>)
    ensures result == Repair(messages)
  {
    result := messages;
    var i := 0;
    assert result[..0] + Repair(result[0..]) == Repair(messages);
    while i < |result|
      invariant 0 <= i <= |result|
      invariant result[..i] + Repair(result[i..]) == Repair(messages)
      decreases |result| - i
    {
      result, i := FixAt(result, i);
      i := i + 1;
    }
    assert result[..i] == result && result[i..] == [];
  }

  /** The loop body at position i: the index comes back unchanged, or on the last placeholder, and
      everything up to it is as it will be in the end. */
  method FixAt(ms: seq<Message>, i: nat) returns (result: seq<Message>, last: nat)
    requires i < |ms|
    ensures i <= last < |result| && |result| - last <= |ms| - i
    ensures result[..last + 1] + Repair(result[last + 1..]) == ms[..i] + Repair(ms[i..])
  {
    result, last := ms, i;
    var msg := ms[i];
    if Calls(msg) {
      var respondedIds, insertPosition := CollectResponses(ms, i + 1);
      var missingIds := MissingIds(msg.toolCalls, respondedIds);
      SliceOfTail(ms, i + 1, insertPosition);
      if missingIds != [] {
        var missingResponses := BuildPlaceholders(missingIds);
        PlaceholderCount(missingIds);
        result := ms[..insertPosition] + missingResponses + ms[insertPosition..];
        last := insertPosition + |missingResponses| - 1;
        Filled(ms, i, insertPosition, missingIds);
        return;
      }
    }
    NothingToAdd(ms, i);
  }

  lemma SliceOfTail(ms: seq<Message>, i: nat, j: nat)
    requires i <= j <= |ms|
    ensures ms[i..][..j - i] == ms[i..j]
  {
  }

  lemma NothingToAdd(ms: seq<Message>, i: nat)
    requires i < |ms| && (Calls(ms[i]) ==> MissingAfter(ms[i], ms[i + 1..]) == [])
    ensures ms[..i + 1] + Repair(ms[i + 1..]) == ms[..i] + Repair(ms[i..])
  {
    var msg, rest := ms[i], ms[i + 1..];
    assert ms[i..] == [msg] + rest && ms[..i + 1] == ms[..i] + [msg];
    if Calls(msg) {
      RepairAnsweredCall(msg, rest);
    } else {
      RepairPlain(msg, rest);
    }
    Assoc(ms[..i], [msg], Repair(rest));
  }

  lemma Cut<T>(ms: seq<T>, i: nat, pos: nat)
    requires i < pos <= |ms|
    ensures ms[i..] == [ms[i]] + ms[i + 1..]
    ensures ms[..pos] == ms[..i] + ([ms[i]] + ms[i + 1..][..pos - i - 1])
    ensures ms[i + 1..][pos - i - 1..] == ms[pos..]
  {
  }

  lemma Filled(ms: seq<Message>, i: nat, pos: nat, ids: seq<string>)
    requires i < |ms| && Calls(ms[i]) && pos == i + 1 + Responses(ms[i + 1..])
    requires ids == MissingAfter(ms[i], ms[i + 1..])
    ensures var result, last := ms[..pos] + Placeholders(ids) + ms[pos..], pos + |Placeholders(ids)|;
      result[..last] + Repair(result[last..]) == ms[..i] + Repair(ms[i..])
  {
    Cut(ms, i, pos);
    RepairAt(ms, i, pos, ids);
    Regroup(ms[..i], [ms[i]] + ms[i + 1..][..pos - i - 1], Placeholders(ids), Repair(ms[pos..]));
  }

  lemma RepairAt(ms: seq<Message>, i: nat, pos: nat, ids: seq<string>)
    requires i < |ms| && Calls(ms[i]) && pos == i + 1 + Responses(ms[i + 1..])
    requires ids == MissingAfter(ms[i], ms[i + 1..])
    ensures Repair(ms[i..]) == [ms[i]] + ms[i + 1..][..pos - i - 1] + Placeholders(ids) + Repair(ms[pos..])
  {
    var m, rest := ms[i], ms[i + 1..];
    Cut(ms, i, pos);
    RepairCall(m, rest);
    assert [m] + rest == ms[i..] && rest[pos - i - 1..] == ms[pos..];
  }

  lemma OneMore(ms: seq<Message>, i: nat, j: nat)
    requires i <= j < |ms|
    ensures ms[i..j + 1] == ms[i..j] + [ms[j]] && ms[j..] == [ms[j]] + ms[j + 1..] && ms[j..][1..] == ms[j + 1..]
  {
  }

  method CollectResponses(ms: seq<Message>, start: nat) returns (ids: set<string>, insertPosition: nat)
    requires start <= |ms|
    ensures insertPosition == start + Responses(ms[start..])
    ensures ids == Ids(ms[start..insertPosition])
  {
    ids, insertPosition := {}, start;
    while insertPosition < |ms| && Responds(ms[insertPosition])
      invariant start <= insertPosition <= |ms|
      invariant Responses(ms[start..]) == insertPosition - start + Responses(ms[insertPosition..])
      invariant ids == Ids(ms[start..insertPosition])
    {
      OneMore(ms, start, insertPosition);
      ids := ids + {ms[insertPosition].toolCallID};
      insertPosition := insertPosition + 1;
    }
  }

  method MissingIds(calls: seq<string>, responded: set<string>) returns (missing: seq<string>)
    ensures missing == Missing(calls, responded)
  {
    missing := [];
    for i := 0 to |calls|
      invariant missing == Missing(calls[..i], responded)
    {
      assert calls[..i + 1][..i] == calls[..i];
      if calls[i] !in responded {
        missing := missing + [calls[i]];
      }
    }
    assert calls[..|calls|] == calls;
  }

  method BuildPlaceholders(ids: seq<string>) returns (ms: seq<Message>)
    ensures ms == Placeholders(ids)
  {
    ms := [];
    for i := 0 to |ids|
      invariant ms == Placeholders(ids[..i])
    {
      assert ids[..i + 1][..i] == ids[..i];
      ms := ms + [Placeholder(ids[i])];
    }
    assert ids[..|ids|] == ids;
  }

  // ---------- Facts about the pieces ----------

  lemma {:induction false} PlaceholderCount(ids: seq<string>)
    ensures |Placeholders(ids)| == |ids|
    ensures forall i :: 0 <= i < |ids| ==> Placeholders(ids)[i] == Placeholder(ids[i])
  {
    if ids != [] {
      PlaceholderCount(ids[..|ids| - 1]);
    }
  }

  lemma {:induction false} MissingExact(calls: seq<string>, responded: set<string>)
    ensures forall id :: id in Missing(calls, responded) <==> id in calls && id !in responded
    ensures (forall id :: id in calls ==> id in responded) ==> Missing(calls, responded) == []
  {
    if calls != [] {
      MissingExact(calls[..|calls| - 1], responded);
      assert calls == calls[..|calls| - 1] + [calls[|calls| - 1]];
    }
  }

  // ---------- Every call is answered ----------

  /** ids are all answered in the run of tool messages at the head of ms. */
  ghost predicate Answered(ids: seq<string>, ms: seq<Message>) {
    exists n :: 0 <= n <= |ms| && AnsweredWithin(ids, ms, n)
  }

  ghost predicate AnsweredWithin(ids: seq<string>, ms: seq<Message>, n: nat)
    requires n <= |ms|
  {
    && (forall i :: 0 <= i < n ==> ms[i].role == ToolRole)
    && (forall id :: id in ids ==> exists i :: 0 <= i < n && ms[i].toolCallID == id)
  }

  ghost predicate AllAnswered(ms: seq<Message>) {
    forall i :: 0 <= i < |ms| && Calls(ms[i]) ==> Answered(ms[i].toolCalls, ms[i + 1..])
  }

  lemma AllAnsweredConcat(a: seq<Message>, b: seq<Message>)
    requires AllAnswered(b) && forall i :: 0 <= i < |a| ==> !Calls(a[i])
    ensures AllAnswered(a + b)
  {
    var s := a + b;
    forall i | 0 <= i < |s| && Calls(s[i])
      ensures Answered(s[i].toolCalls, s[i + 1..])
    {
      assert s[i] == b[i - |a|] && s[i + 1..] == b[i - |a| + 1..];
    }
  }

  /** Right behind a calling message, its responses and the placeholders answer every call. */
  lemma HeadIsAnswered(m: Message, rest: seq<Message>, after: seq<Message>)
    requires Calls(m)
    ensures var n := Responses(rest);
      Answered(m.toolCalls, rest[..n] + Placeholders(MissingAfter(m, rest)) + after)
  {
    var had, ids := rest[..Responses(rest)], MissingAfter(m, rest);
    PlaceholderCount(ids);
    MissingExact(m.toolCalls, Ids(had));
    forall id | id in m.toolCalls
      ensures id in Ids(had) || id in Ids(Placeholders(ids))
    {
      if id !in Ids(had) {
        var i :| 0 <= i < |ids| && ids[i] == id;
        assert Placeholders(ids)[i].toolCallID == id;
      }
    }
    AnsweredByTwo(m.toolCalls, had, Placeholders(ids), after);
  }

  lemma AnsweredByTwo(calls: seq<string>, a: seq<Message>, b: seq<Message>, after: seq<Message>)
    requires forall m :: m in a || m in b ==> m.role == ToolRole
    requires forall id :: id in calls ==> id in Ids(a) || id in Ids(b)
    ensures Answered(calls, a + b + after)
  {
    var all := a + b + after;
    forall i | 0 <= i < |a + b|
      ensures all[i].role == ToolRole
    {
      assert all[i] == if i < |a| then a[i] else b[i - |a|];
    }
    forall id | id in calls
      ensures exists i :: 0 <= i < |a + b| && all[i].toolCallID == id
    {
      if id in Ids(a) {
        var r :| r in a && r.toolCallID == id;
        var i :| 0 <= i < |a| && a[i] == r;
        assert all[i] == r;
      } else {
        var r :| r in b && r.toolCallID == id;
        var i :| 0 <= i < |b| && b[i] == r;
        assert all[|a| + i] == r;
      }
    }
    assert AnsweredWithin(calls, all, |a + b|);
  }

  /** Main result: in the repaired conversation every call is answered in the unbroken run of
      tool messages right behind it. */
  lemma {:induction false} RepairAnswersAll(ms: seq<Message>)
    ensures AllAnswered(Repair(ms))
    decreases |ms|
  {
    if ms == [] {
    } else if !Calls(ms[0]) {
      RepairAnswersAll(ms[1..]);
      AllAnsweredConcat([ms[0]], Repair(ms[1..]));
    } else {
      var m, rest := ms[0], ms[1..];
      var n := Responses(rest);
      var fill, after := Placeholders(MissingAfter(m, rest)), Repair(rest[n..]);
      RepairAnswersAll(rest[n..]);
      PlaceholderCount(MissingAfter(m, rest));
      AllAnsweredConcat(rest[..n] + fill, after);
      HeadIsAnswered(m, rest, after);
      AllAnsweredCons(m, rest[..n] + fill + after);
      Assoc([m], rest[..n], fill);
      Assoc([m], rest[..n] + fill, after);
    }
  }

  lemma AllAnsweredCons(m: Message, tail: seq<Message>)
    requires AllAnswered(tail) && Answered(m.toolCalls, tail)
    ensures AllAnswered([m] + tail)
  {
    var s := [m] + tail;
    forall i | 0 <= i < |s| && Calls(s[i])
      ensures Answered(s[i].toolCalls, s[i + 1..])
    {
      if i == 0 {
        assert s[1..] == tail;
      } else {
        assert s[i] == tail[i - 1] && s[i + 1..] == tail[i..];
      }
    }
  }

  // ---------- Nothing else changes ----------

  /** s is t with some placeholders put in. */
  predicate Padded(t: seq<Message>, s: seq<Message>) {
    if s == [] then t == []
    else || (t != [] && s[0] == t[0] && Padded(t[1..], s[1..]))
         || (s[0] == Placeholder(s[0].toolCallID) && Padded(t, s[1..]))
  }

  lemma {:induction false} PaddedPrefix(a: seq<Message>, t: seq<Message>, s: seq<Message>)
    requires Padded(t, s)
    ensures Padded(a + t, a + s)
  {
    if a == [] {
      assert a + t == t && a + s == s;
    } else {
      PaddedPrefix(a[1..], t, s);
      assert (a + t)[1..] == a[1..] + t && (a + s)[1..] == a[1..] + s;
    }
  }

  lemma {:induction false} PaddedFill(ids: seq<string>, t: seq<Message>, s: seq<Message>)
    requires Padded(t, s)
    ensures Padded(t, Placeholders(ids) + s)
  {
    if ids == [] {
      assert Placeholders(ids) + s == s;
    } else {
      var last := [Placeholder(ids[|ids| - 1])];
      assert (last + s)[1..] == s;
      assert Padded(t, last + s);
      PaddedFill(ids[..|ids| - 1], t, last + s);
      Assoc(Placeholders(ids[..|ids| - 1]), last, s);
    }
  }

  /** Main result: dropping inserted placeholders gives back the input, in order. */
  lemma {:induction false} RepairOnlyPads(ms: seq<Message>)
    ensures Padded(ms, Repair(ms))
    decreases |ms|
  {
    if ms == [] {
    } else if !Calls(ms[0]) {
      RepairOnlyPads(ms[1..]);
      PaddedPrefix([ms[0]], ms[1..], Repair(ms[1..]));
      assert [ms[0]] + ms[1..] == ms;
    } else {
      var rest := ms[1..];
      var n := Responses(rest);
      var ids := MissingAfter(ms[0], rest);
      RepairOnlyPads(rest[n..]);
      PaddedFill(ids, rest[n..], Repair(rest[n..]));
      PaddedPrefix([ms[0]] + rest[..n], rest[n..], Placeholders(ids) + Repair(rest[n..]));
      assert [ms[0]] + rest[..n] + rest[n..] == ms;
      Assoc([ms[0]] + rest[..n], Placeholders(ids), Repair(rest[n..]));
    }
  }

  // ---------- Repairing twice ----------

  predicate NamesEveryCall(ms: seq<Message>) {
    forall i :: 0 <= i < |ms| && Calls(ms[i]) ==> "" !in ms[i].toolCalls
  }

  lemma {:induction false} ResponsesThrough(a: seq<Message>, b: seq<Message>)
    requires forall i :: 0 <= i < |a| ==> Responds(a[i])
    ensures Responses(a + b) == |a| + Responses(b)
  {
    if a == [] {
      assert a + b == b;
    } else {
      assert (a + b)[1..] == a[1..] + b;
      ResponsesThrough(a[1..], b);
    }
  }

  lemma AnsweredIsNotMissing(calls: seq<string>, answers: seq<Message>, ids: seq<string>)
    requires forall id :: id in calls && id !in Ids(answers) ==> id in ids
    ensures Missing(calls, Ids(answers + Placeholders(ids))) == []
  {
    var all := answers + Placeholders(ids);
    PlaceholderCount(ids);
    forall id | id in calls
      ensures id in Ids(all)
    {
      if id in Ids(answers) {
        var r :| r in answers && r.toolCallID == id;
        assert r in all;
      } else {
        var i :| 0 <= i < |ids| && ids[i] == id;
        assert all[|answers| + i] == Placeholder(id);
        assert Placeholder(id) in all;
      }
    }
    MissingExact(calls, Ids(all));
  }

  /** With every call named, a second repair finds nothing missing. */
  lemma {:induction false} RepairTwice(ms: seq<Message>)
    requires NamesEveryCall(ms)
    ensures Repair(Repair(ms)) == Repair(ms)
    decreases |ms|
  {
    if ms == [] {
    } else if !Calls(ms[0]) {
      RepairTwice(ms[1..]);
      assert Repair(ms)[1..] == Repair(ms[1..]);
    } else {
      var rest := ms[1..];
      RepairTwice(rest[Responses(rest)..]);
      RepairCallTwice(ms[0], rest);
      assert [ms[0]] + rest == ms;
    }
  }

  lemma RepairCallTwice(m: Message, rest: seq<Message>)
    requires Calls(m) && "" !in m.toolCalls
    requires var after := Repair(rest[Responses(rest)..]); Repair(after) == after
    ensures Repair(Repair([m] + rest)) == Repair([m] + rest)
  {
    var n := Responses(rest);
    var ids := MissingAfter(m, rest);
    var answers, after := rest[..n] + Placeholders(ids), Repair(rest[n..]);
    RepairedBlock(m, rest[..n], ids, after);
    RepairCall(m, rest);
  }

  /** A block with its placeholders in has nothing missing. */
  lemma RepairedBlock(m: Message, given: seq<Message>, ids: seq<string>, after: seq<Message>)
    requires Calls(m) && "" !in m.toolCalls && ids == Missing(m.toolCalls, Ids(given))
    requires forall i :: 0 <= i < |given| ==> Responds(given[i])
    requires (after != [] ==> !Responds(after[0])) && Repair(after) == after
    ensures Repair([m] + given + Placeholders(ids) + after) == [m] + given + Placeholders(ids) + after
  {
    PlaceholderCount(ids);
    MissingExact(m.toolCalls, Ids(given));
    AnsweredIsNotMissing(m.toolCalls, given, ids);
    RepairOfBlock(m, given + Placeholders(ids), after);
    Assoc([m], given, Placeholders(ids));
  }

  lemma RepairOfBlock(m: Message, answers: seq<Message>, after: seq<Message>)
    requires Calls(m) && Missing(m.toolCalls, Ids(answers)) == []
    requires forall i :: 0 <= i < |answers| ==> Responds(answers[i])
    requires after != [] ==> !Responds(after[0])
    ensures Repair([m] + answers + after) == [m] + answers + Repair(after)
  {
    var rest := answers + after;
    ResponsesThrough(answers, after);
    Assoc([m], answers, after);
    RepairCall(m, rest);
    assert rest[..|answers|] == answers && rest[|answers|..] == after;
    assert [m] + answers + Placeholders([]) == [m] + answers;
  }

  lemma {:induction false} RepairGrows(ms: seq<Message>)
    ensures |Repair(ms)| >= |ms|
    ensures !NamesEveryCall(ms) ==> |Repair(ms)| > |ms|
    decreases |ms|
  {
    if ms == [] {
    } else if !Calls(ms[0]) {
      RepairGrows(ms[1..]);
      if NamesEveryCall(ms[1..]) {
        NamesSplit(ms, 1);
      }
    } else {
      var m, rest := ms[0], ms[1..];
      var n := Responses(rest);
      var ids := MissingAfter(m, rest);
      PlaceholderCount(ids);
      MissingExact(m.toolCalls, Ids(rest[..n]));
      RepairGrows(rest[n..]);
      if "" in m.toolCalls {
        assert "" in ids;
      } else if NamesEveryCall(rest[n..]) {
        assert rest[n..] == ms[n + 1..];
        NamesSplit(ms, n + 1);
      }
    }
  }

  /** The calls of ms are those before position k and those after it. */
  lemma NamesSplit(ms: seq<Message>, k: nat)
    requires k <= |ms| && NamesEveryCall(ms[k..])
    requires forall i :: 0 <= i < k && Calls(ms[i]) ==> "" !in ms[i].toolCalls
    ensures NamesEveryCall(ms)
  {
    forall i | 0 <= i < |ms| && Calls(ms[i])
      ensures "" !in ms[i].toolCalls
    {
      if i >= k {
        assert ms[i] == ms[k..][i - k];
      }
    }
  }

  lemma {:induction false} PaddingKeepsUnnamed(t: seq<Message>, s: seq<Message>)
    requires Padded(t, s) && NamesEveryCall(s)
    ensures NamesEveryCall(t)
    decreases |s|
  {
    if s != [] {
      assert forall i :: 0 <= i < |s[1..]| ==> s[1..][i] == s[i + 1];
      if t != [] && s[0] == t[0] && Padded(t[1..], s[1..]) {
        PaddingKeepsUnnamed(t[1..], s[1..]);
        assert Calls(t[0]) ==> "" !in t[0].toolCalls;
        NamesSplit(t, 1);
      } else {
        PaddingKeepsUnnamed(t, s[1..]);
      }
    }
  }

  /** Main result: repairing twice is repairing once if and only if no call has an empty id. A
      placeholder for an empty id does not count as a response, so another is added every time. */
  lemma RepairIdempotentIff(ms: seq<Message>)
    ensures Repair(Repair(ms)) == Repair(ms) <==> NamesEveryCall(ms)
  {
    if NamesEveryCall(ms) {
      RepairTwice(ms);
    } else {
      RepairOnlyPads(ms);
      if NamesEveryCall(Repair(ms)) {
        PaddingKeepsUnnamed(ms, Repair(ms));
      }
      RepairGrows(Repair(ms));
    }
  }

  /** The smallest failing conversation: one call without an id is padded at every repair. */
  lemma EmptyIdPadsAgain(content: string)
    ensures var ms := [Message(Assistant, content, [""], "")];
      Repair(Repair(ms)) != Repair(ms)
  {
    var ms := [Message(Assistant, content, [""], "")];
    assert Calls(ms[0]) && "" in ms[0].toolCalls;
    RepairIdempotentIff(ms);
  }
}
