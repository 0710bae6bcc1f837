/** Line compression of tool results (internal/tokensaver/compress.go). */
module Compress {
  const SMART_TRUNC_HEAD := 120
  const SMART_TRUNC_TAIL := 60
  const SMART_TRUNC_MIN := 250
  const GREP_PER_FILE_MAX := 10

  // ---------- Lines ----------

  predicate OneLine(s: string) {
    '\n' !in s
  }

  /** strings.Split(s, "\n"). */
  function Split(s: string): (lines: seq<string>)
    ensures lines != []
  {
    if s == "" then [""]
    else
      var rest := Split(s[1..]);
      if s[0] == '\n' then [""] + rest else [[s[0]] + rest[0]] + rest[1..]
  }

  /** strings.Join(lines, "\n"). */
  function Join(lines: seq<string>): string {
    if lines == [] then ""
    else if |lines| == 1 then lines[0]
    else lines[0] + "\n" + Join(lines[1..])
  }

  lemma {:induction false} SplitOne(line: string)
    requires OneLine(line)
    ensures Split(line) == [line]
  {
    if line != "" {
      SplitOne(line[1..]);
      assert line == [line[0]] + line[1..];
    }
  }

  lemma {:induction false} SplitAtBreak(line: string, rest: string)
    requires OneLine(line)
    ensures Split(line + "\n" + rest) == [line] + Split(rest)
  {
    var s := line + "\n" + rest;
    if line == "" {
      assert s[0] == '\n' && s[1..] == rest;
    } else {
      assert s[0] == line[0] && s[1..] == line[1..] + "\n" + rest;
      SplitAtBreak(line[1..], rest);
      assert line == [line[0]] + line[1..];
      assert ([line[1..]] + Split(rest))[1..] == Split(rest);
    }
  }

  /** Joining lines and splitting the text again gives the lines back. */
  lemma {:induction false} SplitJoin(lines: seq<string>)
    requires lines != [] && forall i :: 0 <= i < |lines| ==> OneLine(lines[i])
    ensures Split(Join(lines)) == lines
  {
    if |lines| == 1 {
      SplitOne(lines[0]);
    } else {
      SplitJoin(lines[1..]);
      SplitAtBreak(lines[0], Join(lines[1..]));
    }
  }

  lemma {:induction false} SplitLinesAreOne(s: string)
    ensures forall i :: 0 <= i < |Split(s)| ==> OneLine(Split(s)[i])
  {
    if s != "" {
      SplitLinesAreOne(s[1..]);
    }
  }

  // ---------- Numbers ----------

  function Digit(d: nat): char
    requires d < 10
  {
    "0123456789"[d]
  }

  function Itoa(n: nat): (s: string)
    ensures s != "" && forall i :: 0 <= i < |s| ==> '0' <= s[i] <= '9'
  {
    if n < 10 then [Digit(n)] else Itoa(n / 10) + [Digit(n % 10)]
  }

  function Atoi(s: string): int {
    if s == "" then 0 else 10 * Atoi(s[..|s| - 1]) + (s[|s| - 1] as int - '0' as int)
  }

  lemma {:induction false} AtoiItoa(n: nat)
    ensures Atoi(Itoa(n)) == n
  {
    if n >= 10 {
      AtoiItoa(n / 10);
      assert Itoa(n)[..|Itoa(n)| - 1] == Itoa(n / 10);
    }
  }

  /** The count stands in the marker: two markers of a kind are equal only for equal counts. */
  function Marker(dropped: nat, noun: string): string {
    "... (" + Itoa(dropped) + noun
  }

  lemma MarkerIsInjective(a: nat, b: nat, noun: string)
    requires Marker(a, noun) == Marker(b, noun)
    ensures a == b
  {
    var m := Marker(a, noun);
    assert m[5..|m| - |noun|] == Itoa(a) && m[5..|m| - |noun|] == Itoa(b);
    AtoiItoa(a);
    AtoiItoa(b);
  }

  // ---------- smartTruncate ----------

  function Truncated(lines: seq<string>): seq<string> {
    if |lines| <= SMART_TRUNC_MIN then lines
    else
      lines[..SMART_TRUNC_HEAD]
      + [Marker(|lines| - SMART_TRUNC_HEAD - SMART_TRUNC_TAIL, " lines truncated)")]
      + lines[|lines| - SMART_TRUNC_TAIL..]
  }

  /** append(lines[:head], marker) and then append(.., lines[len(lines)-tail:]...): the first finds room
      behind the head in the array that also holds the tail; so does the second when it ends within
      that array, and otherwise it goes into a new one. */
  method AppendBehindHead(lines: array<string>, head: nat, tail: nat, marker: string) returns (out: seq<string>)
    requires head < lines.Length && tail <= lines.Length
    modifies lines
    ensures out == AppendedInPlace(old(lines[..]), head, tail, marker)
  {
    var n := lines.Length;
    lines[head] := marker;
    ghost var marked := lines[..];
    assert marked == old(lines[..])[head := marker];
    if head + 1 + tail > n {
      assert lines[..head + 1] == marked[..head + 1] && lines[n - tail..] == marked[n - tail..];
      return lines[..head + 1] + lines[n - tail..];
    }
    assert lines[..head + 1] == marked[..head + 1] && lines[n - tail..n - tail + tail] == marked[n - tail..];
    CopyDown(lines, head + 1, n - tail, tail);
    return lines[..head + 1 + tail];
  }

  /** Go's copy within one array, towards its head. */
  method CopyDown(a: array<string>, dst: nat, src: nat, len: nat)
    requires dst <= src && src + len <= a.Length
    modifies a
    ensures a[..dst + len] == old(a[..dst]) + old(a[src..src + len])
  {
    ghost var was := a[..];
    for i := 0 to len
      invariant forall k :: 0 <= k < dst ==> a[k] == was[k]
      invariant forall k :: dst <= k < dst + i ==> a[k] == was[k + (src - dst)]
      invariant forall k :: dst + i <= k < a.Length ==> a[k] == was[k]
    {
      a[dst + i] := a[src + i];
    }
    Spliced(a[..], was, dst, src, len);
  }

  lemma Spliced(s: seq<string>, was: seq<string>, dst: nat, src: nat, len: nat)
    requires dst + len <= |s| && dst <= |was| && src + len <= |was|
    requires forall k :: 0 <= k < dst ==> s[k] == was[k]
    requires forall k :: dst <= k < dst + len ==> s[k] == was[k + (src - dst)]
    ensures s[..dst + len] == was[..dst] + was[src..src + len]
  {
  }

  /** What appending a marker behind `head` lines and then the last `tail` lines leaves, when both
      appends write into the array they read from. */
  function AppendedInPlace(lines: seq<string>, head: nat, tail: nat, marker: string): seq<string>
    requires head < |lines| && tail <= |lines|
  {
    var marked := lines[head := marker];
    marked[..head + 1] + marked[|lines| - tail..]
  }

  /** Why the minimum of 250 lines matters: sharing the array is harmless if and only if the
      marker does not land in the tail. */
  lemma TailIsSafeIff(lines: seq<string>, head: nat, tail: nat, marker: string)
    requires head < |lines| && tail <= |lines| && lines[head] != marker
    ensures AppendedInPlace(lines, head, tail, marker) == lines[..head] + [marker] + lines[|lines| - tail..]
       <==> head + tail < |lines| || (head + tail == |lines| && tail == 0)
  {
    var marked := lines[head := marker];
    var got, want := AppendedInPlace(lines, head, tail, marker), lines[..head] + [marker] + lines[|lines| - tail..];
    assert marked[..head + 1] == lines[..head] + [marker];
    if head < |lines| - tail {
      assert marked[|lines| - tail..] == lines[|lines| - tail..];
    } else {
      var j := head - (|lines| - tail);
      assert got[head + 1 + j] == marker && want[head + 1 + j] == lines[head];
    }
  }

  method SmartTruncate(lines: array<string>) returns (out: seq<string>)
    modifies lines
    ensures out == Truncated(old(lines[..]))
    ensures lines.Length <= 250 ==> out == old(lines[..])
    ensures lines.Length > 250 ==>
      var n := lines.Length;
      out == old(lines[..120]) + ["... (" + Itoa(n - 180) + " lines truncated)"] + old(lines[n - 60..])
  {
    var n := lines.Length;
    if n <= SMART_TRUNC_MIN {
      return lines[..];
    }
    ghost var was := lines[..];
    var marker := Marker(n - SMART_TRUNC_HEAD - SMART_TRUNC_TAIL, " lines truncated)");
    out := AppendBehindHead(lines, SMART_TRUNC_HEAD, SMART_TRUNC_TAIL, marker);
    if was[SMART_TRUNC_HEAD] != marker {
      TailIsSafeIff(was, SMART_TRUNC_HEAD, SMART_TRUNC_TAIL, marker);
    } else {
      assert was[SMART_TRUNC_HEAD := marker] == was;
      assert was[..SMART_TRUNC_HEAD + 1] == was[..SMART_TRUNC_HEAD] + [marker];
    }
  }

  method SmartTruncateText(s: string) returns (out: string)
    ensures Split(out) == Truncated(Split(s))
    ensures |Split(s)| <= 250 ==> out == s
  {
    var parts := Split(s);
    if |parts| <= SMART_TRUNC_MIN {
      return s;
    }
    var lines := new string[|parts|](i requires 0 <= i < |parts| => parts[i]);
    assert lines[..] == parts;
    var kept := SmartTruncate(lines);
    SplitLinesAreOne(s);
    SplitJoin(kept);
    out := Join(kept);
  }

  // ---------- compressGrep ----------

  /** The file of a grep line: what stands before the first colon. */
  function FileOf(line: string): string {
    if line == "" || line[0] == ':' then "" else [line[0]] + FileOf(line[1..])
  }

  lemma {:induction false} FileIsBeforeColon(line: string)
    ensures ':' !in FileOf(line) && (FileOf(line) == line || FileOf(line) + ":" <= line)
  {
    if line != "" && line[0] != ':' {
      FileIsBeforeColon(line[1..]);
    }
  }

  /** The lines of one file, in order. */
  function Of(file: string, lines: seq<string>): seq<string> {
    if lines == [] then []
    else
      var last := lines[|lines| - 1];
      Of(file, lines[..|lines| - 1]) + (if FileOf(last) == file then [last] else [])
  }

  function Kept(lines: seq<string>): seq<string> {
    if lines == [] then []
    else
      var init, last := lines[..|lines| - 1], lines[|lines| - 1];
      Kept(init) + (if |Of(FileOf(last), init)| < GREP_PER_FILE_MAX then [last] else [])
  }

  function Grepped(lines: seq<string>): seq<string> {
    if |lines| <= GREP_PER_FILE_MAX * 20 then lines
    else
      var kept := Kept(lines);
      if |kept| < |lines| then kept + [Marker(|lines| - |kept|, " matches filtered)")] else kept
  }

  function Least(a: nat, b: nat): nat {
    if a < b then a else b
  }

  method CompressGrep(lines: seq<string>) returns (result: seq<string>)
    ensures result == Grepped(lines)
    ensures |lines| <= 200 ==> result == lines
    ensures |lines| > 200 && |Kept(lines)| < |lines| ==>
      result == Kept(lines) + ["... (" + Itoa(|lines| - |Kept(lines)|) + " matches filtered)"]
    ensures Kept(lines) == lines ==> result == lines
  {
    if |lines| <= GREP_PER_FILE_MAX * 20 {
      return lines;
    }
    result := KeepLines(lines);
    KeptIsShorter(lines);
    AllKept(lines);
    if |result| < |lines| {
      result := result + [Marker(|lines| - |result|, " matches filtered)")];
    }
  }

  method KeepLines(lines: seq<string>) returns (result: seq<string>)
    ensures result == Kept(lines)
  {
    var fileCount: map<string, nat> := map[];
    result := [];
    for i := 0 to |lines|
      invariant result == Kept(lines[..i])
      invariant forall f ::
        (if f in fileCount then fileCount[f] else 0) == Least(|Of(f, lines[..i])|, GREP_PER_FILE_MAX)
    {
      assert lines[..i + 1][..i] == lines[..i];
      var file := FileOf(lines[i]);
      var count := if file in fileCount then fileCount[file] else 0;
      if count >= GREP_PER_FILE_MAX {
        continue;
      }
      fileCount := fileCount[file := count + 1];
      result := result + [lines[i]];
    }
    assert lines[..|lines|] == lines;
  }

  /** The same for the text. */
  method CompressGrepText(s: string) returns (out: string)
    ensures Split(out) == Grepped(Split(s))
  {
    var lines := Split(s);
    var result := CompressGrep(lines);
    SplitLinesAreOne(s);
    KeptLinesAreOne(lines);
    SplitJoin(result);
    out := Join(result);
  }

  lemma {:induction false} KeptLinesAreOne(lines: seq<string>)
    requires forall i :: 0 <= i < |lines| ==> OneLine(lines[i])
    ensures forall i :: 0 <= i < |Kept(lines)| ==> OneLine(Kept(lines)[i])
  {
    if lines != [] {
      KeptLinesAreOne(lines[..|lines| - 1]);
    }
  }

  lemma {:induction false} AllKept(lines: seq<string>)
    ensures |Kept(lines)| == |lines| ==> Kept(lines) == lines
  {
    if lines != [] {
      KeptIsShorter(lines[..|lines| - 1]);
      AllKept(lines[..|lines| - 1]);
    }
  }

  lemma {:induction false} KeptIsShorter(lines: seq<string>)
    ensures |Kept(lines)| <= |lines|
  {
    if lines != [] {
      KeptIsShorter(lines[..|lines| - 1]);
    }
  }

  /** Main result: of every file exactly the first ten lines are kept. */
  lemma {:induction false} FirstTenAreKept(lines: seq<string>, file: string)
    ensures Of(file, Kept(lines)) == if |Of(file, lines)| <= 10 then Of(file, lines) else Of(file, lines)[..10]
  {
    if lines != [] {
      var init, last := lines[..|lines| - 1], lines[|lines| - 1];
      FirstTenAreKept(init, file);
      if FileOf(last) != file {
        assert Of(file, lines) == Of(file, init);
      }
      if |Of(FileOf(last), init)| >= GREP_PER_FILE_MAX {
        assert Kept(lines) == Kept(init);
      }
    }
  }

  /** The kept lines stand at these indices of the input. */
  function KeptAt(lines: seq<string>): seq<nat> {
    if lines == [] then []
    else
      var init, last := lines[..|lines| - 1], lines[|lines| - 1];
      KeptAt(init) + (if |Of(FileOf(last), init)| < GREP_PER_FILE_MAX then [|init|] else [])
  }

  /** And in the order of the input. */
  lemma {:induction false} KeptInOrder(lines: seq<string>)
    ensures var at := KeptAt(lines);
      && |at| == |Kept(lines)|
      && (forall i :: 0 <= i < |at| ==> at[i] < |lines| && Kept(lines)[i] == lines[at[i]])
      && (forall i, j :: 0 <= i < j < |at| ==> at[i] < at[j])
  {
    if lines != [] {
      KeptInOrder(lines[..|lines| - 1]);
    }
  }

  ghost predicate NoFileOver(lines: seq<string>) {
    forall f :: |Of(f, lines)| <= 10
  }

  /** Nothing is dropped if and only if no file has more than ten lines. */
  lemma NothingDroppedIff(lines: seq<string>)
    ensures Kept(lines) == lines <==> NoFileOver(lines)
  {
    if NoFileOver(lines) {
      NothingDropped(lines);
    } else {
      var f :| |Of(f, lines)| > GREP_PER_FILE_MAX;
      FirstTenAreKept(lines, f);
    }
  }

  lemma {:induction false} NothingDropped(lines: seq<string>)
    requires NoFileOver(lines)
    ensures Kept(lines) == lines
  {
    if lines != [] {
      var init, last := lines[..|lines| - 1], lines[|lines| - 1];
      forall f
        ensures |Of(f, init)| <= GREP_PER_FILE_MAX
      {
        assert |Of(f, lines)| <= GREP_PER_FILE_MAX;
      }
      NothingDropped(init);
      assert |Of(FileOf(last), lines)| <= GREP_PER_FILE_MAX;
    }
  }

  // ---------- Cuts at a threshold: git diff, git log, tree ----------

  function CutAt(lines: seq<string>, max: nat, noun: string): seq<string> {
    if |lines| <= max then lines else lines[..max] + [Marker(|lines| - max, noun)]
  }

  const GIT_DIFF_MAX_LINES := 100
  const GIT_LOG_MAX_LINES := 200
  const TREE_MAX_LINES := 200

  method CompressGitDiff(s: string) returns (out: string)
    ensures var lines := Split(s);
      if |lines| <= 100 then out == s
      else Split(out) == lines[..100] + ["... (" + Itoa(|lines| - 100) + " more lines)"]
  {
    out := CutText(s, GIT_DIFF_MAX_LINES, " more lines)");
  }

  method CompressGitLog(s: string) returns (out: string)
    ensures var lines := Split(s);
      if |lines| <= 200 then out == s
      else Split(out) == lines[..200] + ["... (" + Itoa(|lines| - 200) + " more commits)"]
  {
    out := CutText(s, GIT_LOG_MAX_LINES, " more commits)");
  }

  method CompressTree(s: string) returns (out: string)
    ensures var lines := Split(s);
      if |lines| <= 200 then out == s
      else Split(out) == lines[..200] + ["... (" + Itoa(|lines| - 200) + " more entries)"]
  {
    out := CutText(s, TREE_MAX_LINES, " more entries)");
  }

  /** What the three have in common: the first lines, and the marker on a line of its own. */
  lemma MarkerIsOneLine(dropped: nat, noun: string)
    requires OneLine(noun)
    ensures OneLine(Marker(dropped, noun))
  {
  }

  method CutText(s: string, max: nat, noun: string) returns (out: string)
    requires max > 0 && OneLine(noun)
    ensures Split(out) == CutAt(Split(s), max, noun)
    ensures |Split(s)| <= max ==> out == s
  {
    hide Split, Join, Marker;
    var lines := Split(s);
    if |lines| <= max {
      return s;
    }
    var marker := Marker(|lines| - max, noun);
    SplitLinesAreOne(s);
    MarkerIsOneLine(|lines| - max, noun);
    JoinOneMore(lines[..max], marker);
    SplitJoin(lines[..max] + [marker]);
    out := Join(lines[..max]) + "\n" + marker;
  }

  lemma {:induction false} JoinOneMore(lines: seq<string>, line: string)
    requires lines != []
    ensures Join(lines + [line]) == Join(lines) + "\n" + line
  {
    if |lines| == 1 {
      assert (lines + [line])[1..] == [line] && lines + [line] == [lines[0], line];
    } else {
      assert (lines + [line])[1..] == lines[1..] + [line];
      JoinOneMore(lines[1..], line);
    }
  }

  /** A cut text is one line over the threshold, so cutting it again rewrites the marker to say
      that one line is missing: cutting twice is cutting once only up to one line too many. */
  lemma CutTwiceIff(lines: seq<string>, max: nat, noun: string)
    ensures CutAt(CutAt(lines, max, noun), max, noun) == CutAt(lines, max, noun) <==> |lines| <= max + 1
  {
    if |lines| > max {
      var once := CutAt(lines, max, noun);
      var twice := CutAt(once, max, noun);
      assert once[..max] == lines[..max];
      assert once[max] == Marker(|lines| - max, noun) && twice[max] == Marker(1, noun);
      if once == twice {
        MarkerIsInjective(|lines| - max, 1, noun);
      }
    }
  }
}
