/** What a Windsurf frame carries: the nested message is decoded by hand, field by field
    (internal/proxy/executor/windsurf.go). */
module CompletionChunk {
  import opened Prelude
  import opened Protobuf
  import GrpcWeb

  datatype Chunk = Content(text: seq<byte>) | Done(usage: Usage) | Error(message: seq<byte>) | Unknown

  datatype Usage = Usage(prompt: int, completion: int)

  const NO_USAGE := Usage(0, 0)

  const TWO_TO_THE_63 := 0x8000_0000_0000_0000

  /** Go's int(v) on a 64-bit machine. */
  function AsInt(v: uint64): int {
    if v < TWO_TO_THE_63 then v else v - TWO_TO_THE_64
  }

  function Set(u: Usage, num: nat, v: uint64): Usage {
    if num == 1 then u.(prompt := AsInt(v)) else if num == 2 then u.(completion := AsInt(v)) else u
  }

  // ---------- UsageStats ----------

  /** How a call ends: with a value, with an index out of range, or not at all. */
  datatype Outcome<+T> = Returned(value: T) | Panics | LoopsForever

  datatype Hop = Next(off: nat, u: Usage) | Stop(u: Usage) | OutOfRange

  /** One turn of the usage loop. It skips a length-delimited field by adding its length as a Go int,
      without looking whether the field fits: the sum may be negative, and the next read is then
      out of range, or smaller than before, and the loop reads the same bytes again. */
  function HopAt(buf: seq<byte>, off: nat, u: Usage): Hop
    requires off < |buf|
  {
    var (tag, o) := ReadVarint(buf, off);
    var (v, o2) := ReadVarint(buf, o);
    if tag % 8 == 0 then Next(o2, Set(u, tag / 8, v))
    else if tag % 8 == 2 then
      var sum := AddInt(o2, AsInt(v));
      if sum < 0 then OutOfRange else Next(sum, u)
    else Stop(u)
  }

  /** Addition of Go ints wraps around. */
  function AddInt(a: int, b: int): int {
    if a + b >= TWO_TO_THE_63 then a + b - TWO_TO_THE_64 else a + b
  }

  /** The loop from offset off, having been at the offsets in seen. What it does next depends on the
      offset alone, so once back at one of them it never ends. */
  function UsageFrom(buf: seq<byte>, off: nat, u: Usage, seen: set<nat>): Outcome<Usage>
    decreases Offsets(|buf|) - seen
  {
    if off >= |buf| then Returned(u)
    else if off in seen then LoopsForever
    else
      assert off in Offsets(|buf|) - seen;
      match HopAt(buf, off, u)
      case Next(off', u') => UsageFrom(buf, off', u', seen + {off})
      case Stop(u') => Returned(u')
      case OutOfRange => Panics
  }

  function Offsets(n: nat): (s: set<nat>)
    ensures forall i: nat :: i in s <==> i < n
  {
    if n == 0 then {} else Offsets(n - 1) + {n - 1}
  }

  /** seen stands for nothing in the source: it notices that the loop is back where it was. */
  method DecodeUsage(buf: seq<byte>) returns (r: Outcome<Usage>)
    ensures r == UsageFrom(buf, 0, NO_USAGE, {})
  {
    var off: nat, u, seen: set<nat> := 0, NO_USAGE, {};
    while off < |buf|
      invariant UsageFrom(buf, off, u, seen) == UsageFrom(buf, 0, NO_USAGE, {})
      decreases Offsets(|buf|) - seen
    {
      if off in seen {
        return LoopsForever;
      }
      assert off in Offsets(|buf|) - seen;
      seen := seen + {off};
      var tag, o := DecodeVarint(buf, off);
      var fieldNum, wireType := tag / 8, tag % 8;
      if wireType == 0 {
        var v, o2 := DecodeVarint(buf, o);
        u, off := Set(u, fieldNum, v), o2;
      } else if wireType == 2 {
        var ln, o2 := DecodeVarint(buf, o);
        if AddInt(o2, AsInt(ln)) < 0 {
          return Panics;
        }
        off := AddInt(o2, AsInt(ln));
      } else {
        return Returned(u);
      }
    }
    return Returned(u);
  }

  /** Where the loop is after some turns. */
  datatype Trail = At(off: nat, u: Usage) | Ended(u: Usage) | Crashed

  function TurnFrom(buf: seq<byte>, t: Trail): Trail {
    if !t.At? then t
    else if t.off >= |buf| then Ended(t.u)
    else
      match HopAt(buf, t.off, t.u)
      case Next(off, u) => At(off, u)
      case Stop(u) => Ended(u)
      case OutOfRange => Crashed
  }

  function Turns(buf: seq<byte>, t: Trail, n: nat): Trail {
    if n == 0 then t else TurnFrom(buf, Turns(buf, t, n - 1))
  }

  function After(buf: seq<byte>, n: nat): Trail {
    Turns(buf, At(0, NO_USAGE), n)
  }

  /** From equal offsets one turn, and so any number, goes on alike. */
  predicate Alike(a: Trail, b: Trail) {
    a.At? == b.At? && (a.At? ==> a.off == b.off)
  }

  lemma {:induction false} SameTrack(buf: seq<byte>, a: Trail, b: Trail, n: nat)
    requires Alike(a, b)
    ensures Alike(Turns(buf, a, n), Turns(buf, b, n))
  {
    if n > 0 {
      SameTrack(buf, a, b, n - 1);
    }
  }

  lemma {:induction false} TurnsAdd(buf: seq<byte>, t: Trail, m: nat, n: nat)
    ensures Turns(buf, t, m + n) == Turns(buf, Turns(buf, t, m), n)
  {
    if n > 0 {
      TurnsAdd(buf, t, m, n - 1);
      assert Turns(buf, t, m + n) == TurnFrom(buf, Turns(buf, t, m + (n - 1)));
    }
  }

  lemma {:induction false} StillAt(buf: seq<byte>, t: Trail, m: nat, n: nat)
    requires m <= n && Turns(buf, t, n).At?
    ensures Turns(buf, t, m).At?
    decreases n
  {
    if m < n {
      StillAt(buf, t, m, n - 1);
    }
  }

  /** Once the loop is back where it was p turns before, it stays at some offset for good. */
  lemma {:induction false} RoundForever(buf: seq<byte>, t: Trail, p: nat, n: nat)
    requires p > 0 && t.At? && Alike(t, Turns(buf, t, p))
    ensures Turns(buf, t, n).At?
  {
    if n <= p {
      StillAt(buf, t, n, p);
    } else {
      RoundForever(buf, t, p, n - p);
      TurnsAdd(buf, t, p, n - p);
      SameTrack(buf, t, Turns(buf, t, p), n - p);
    }
  }

  /** r is what the loop's own turns come to: some turn ends it, some turn reads out of range, or no
      turn does either. */
  ghost predicate ComesTo(buf: seq<byte>, r: Outcome<Usage>) {
    match r
    case Returned(u) => exists m :: After(buf, m) == Ended(u)
    case Panics => exists m :: After(buf, m) == Crashed
    case LoopsForever => forall m :: After(buf, m).At?
  }

  lemma {:induction false} StaysOn(buf: seq<byte>, start: Trail, i: nat, p: nat, n: nat)
    requires p > 0 && Turns(buf, start, i).At? && Alike(Turns(buf, start, i), Turns(buf, start, i + p))
    ensures Turns(buf, start, i + n).At?
  {
    var t := Turns(buf, start, i);
    TurnsAdd(buf, start, i, p);
    RoundForever(buf, t, p, n);
    TurnsAdd(buf, start, i, n);
  }

  lemma {:induction false} LoopsOn(buf: seq<byte>, i: nat, n: nat)
    requires i < n && After(buf, i).At? && Alike(After(buf, i), After(buf, n))
    ensures ComesTo(buf, LoopsForever)
  {
    var start := At(0, NO_USAGE);
    forall m: nat
      ensures After(buf, m).At?
    {
      if m <= i {
        StillAt(buf, start, m, i);
      } else {
        StaysOn(buf, start, i, n - i, m - i);
      }
    }
  }

  ghost predicate Visited(buf: seq<byte>, n: nat, seen: set<nat>) {
    forall x :: x in seen ==> exists i: nat :: i < n && After(buf, i).At? && After(buf, i).off == x
  }

  lemma VisitedNext(buf: seq<byte>, n: nat, seen: set<nat>)
    requires Visited(buf, n, seen) && After(buf, n).At?
    ensures Visited(buf, n + 1, seen + {After(buf, n).off})
  {
    forall x | x in seen + {After(buf, n).off}
      ensures exists i: nat :: i < n + 1 && After(buf, i).At? && After(buf, i).off == x
    {
      if x in seen {
        var i: nat :| i < n && After(buf, i).At? && After(buf, i).off == x;
        assert i < n + 1;
      }
    }
  }

  /** One turn of the loop and of the specification. */
  lemma OneTurn(buf: seq<byte>, here: Trail, seen: set<nat>)
    requires here.At?
    ensures var next, r := TurnFrom(buf, here), UsageFrom(buf, here.off, here.u, seen);
      if here.off < |buf| && here.off in seen then r == LoopsForever
      else
        match next
        case At(off, u) =>
          here.off in Offsets(|buf|) - seen && r == UsageFrom(buf, off, u, seen + {here.off})
        case Ended(u) => r == Returned(u)
        case Crashed => r == Panics
  {
  }

  lemma ComesToAt(buf: seq<byte>, n: nat)
    ensures After(buf, n).Ended? ==> ComesTo(buf, Returned(After(buf, n).u))
    ensures After(buf, n).Crashed? ==> ComesTo(buf, Panics)
  {
  }

  lemma {:induction false} TrailOf(buf: seq<byte>, n: nat, here: Trail, seen: set<nat>)
    requires After(buf, n) == here && here.At? && Visited(buf, n, seen)
    ensures ComesTo(buf, UsageFrom(buf, here.off, here.u, seen))
    decreases Offsets(|buf|) - seen
  {
    var next := TurnFrom(buf, here);
    AfterNext(buf, n);
    OneTurn(buf, here, seen);
    if here.off < |buf| && here.off in seen {
      var i: nat :| i < n && After(buf, i).At? && After(buf, i).off == here.off;
      LoopsOn(buf, i, n);
    } else if next.At? {
      VisitedNext(buf, n, seen);
      TrailOf(buf, n + 1, next, seen + {here.off});
    } else {
      ComesToAt(buf, n + 1);
    }
  }

  lemma AfterNext(buf: seq<byte>, n: nat)
    ensures After(buf, n + 1) == TurnFrom(buf, After(buf, n))
  {
  }

  /** The outcome is that of the loop itself: it returns if some turn ends it, panics if some turn
      reads out of range, and loops exactly when no turn does either. */
  lemma {:induction false} UsageEndsIff(buf: seq<byte>)
    ensures ComesTo(buf, UsageFrom(buf, 0, NO_USAGE, {}))
  {
    TrailOf(buf, 0, At(0, NO_USAGE), {});
  }

  /** What the lengths of a payload do to the loop: every skip goes forward, or the first one that does
      not, because the sum leaves the int range, goes to offset to, after the offsets in passed. */
  datatype Walk = AllForward | Backward(to: int, passed: set<nat>)

  function WalkFrom(buf: seq<byte>, off: nat, passed: set<nat>): Walk
    decreases |buf| - off
  {
    if off >= |buf| then AllForward
    else
      var (tag, o) := ReadVarint(buf, off);
      var (v, o2) := ReadVarint(buf, o);
      if tag % 8 == 0 then WalkFrom(buf, o2, passed + {off})
      else if tag % 8 == 2 then
        if v < TWO_TO_THE_63 - o2 then WalkFrom(buf, o2 + v, passed + {off})
        else Backward(o2 + v - TWO_TO_THE_64, passed + {off})
      else AllForward
  }

  lemma {:induction false} WalkDecidesFrom(buf: seq<byte>, off: nat, u: Usage, passed: set<nat>)
    requires |buf| < TWO_TO_THE_63 && forall x :: x in passed ==> x < off && x < |buf|
    ensures match WalkFrom(buf, off, passed)
      case AllForward => UsageFrom(buf, off, u, passed).Returned?
      case Backward(to, before) =>
        && to < |buf|
        && (to < 0 ==> UsageFrom(buf, off, u, passed) == Panics)
        && (to in before ==> UsageFrom(buf, off, u, passed) == LoopsForever)
    decreases |buf| - off
  {
    if off < |buf| {
      var hop := HopAt(buf, off, u);
      if hop.Next? && hop.off > off {
        WalkDecidesFrom(buf, hop.off, hop.u, passed + {off});
      }
    }
  }

  /** The lengths decide: if every skip goes forward the loop returns; the first one that does not
      panics when it goes before the start, and makes the loop endless when it goes back to where a
      field was read. (Else it lands inside a field, and reads on from there.) */
  lemma {:induction false} LengthsDecide(buf: seq<byte>)
    requires |buf| < TWO_TO_THE_63
    ensures match WalkFrom(buf, 0, {})
      case AllForward => UsageFrom(buf, 0, NO_USAGE, {}).Returned?
      case Backward(to, passed) =>
        && (to < 0 ==> UsageFrom(buf, 0, NO_USAGE, {}) == Panics)
        && (to in passed ==> UsageFrom(buf, 0, NO_USAGE, {}) == LoopsForever)
  {
    WalkDecidesFrom(buf, 0, NO_USAGE, {});
  }

  /** Two payloads that never return: a skip of length 2^64 - 11 from offset 11 back to the start,
      and one of 2^64 - 12 to before it. */
  lemma UsageNeedNotEnd()
    ensures UsageFrom([2] + Varint(TWO_TO_THE_64 - 11), 0, NO_USAGE, {}) == LoopsForever
    ensures UsageFrom([2] + Varint(TWO_TO_THE_64 - 12), 0, NO_USAGE, {}) == Panics
  {
    BackwardSkip(TWO_TO_THE_64 - 11);
    BackwardSkip(TWO_TO_THE_64 - 12);
  }

  lemma BackwardSkip(v: uint64)
    requires v == TWO_TO_THE_64 - 11 || v == TWO_TO_THE_64 - 12
    ensures var buf := [2] + Varint(v);
      |buf| == 11 && HopAt(buf, 0, NO_USAGE) == if v == TWO_TO_THE_64 - 11 then Next(0, NO_USAGE) else OutOfRange
  {
    VarintIsTenAtMost(v);
    VarintRoundTrip([], 2, Varint(v));
    VarintRoundTrip([2], v, []);
    assert Varint(2) == [2] && [] + [2] + Varint(v) == [2] + Varint(v) && [2] + Varint(v) + [] == [2] + Varint(v);
  }

  // ---------- DoneChunk ----------

  /** The last field-1 payload from offset off on; the loop ends at anything it does not know. */
  function UsageFieldFrom(buf: seq<byte>, off: nat, usage: seq<byte>): seq<byte>
    requires off <= |buf|
    decreases |buf| - off
  {
    if off == |buf| then usage
    else
      var (tag, o) := ReadVarint(buf, off);
      var (v, o2) := ReadVarint(buf, o);
      if tag % 8 == 2 then
        if v > |buf| - o2 then usage
        else UsageFieldFrom(buf, o2 + v, if tag / 8 == 1 then buf[o2..o2 + v] else usage)
      else if tag % 8 == 0 then UsageFieldFrom(buf, o2, usage)
      else usage
  }

  function DoneUsage(buf: seq<byte>): Outcome<Usage> {
    UsageFrom(UsageFieldFrom(buf, 0, []), 0, NO_USAGE, {})
  }

  method DecodeDoneChunk(buf: seq<byte>) returns (r: Outcome<Usage>)
    ensures r == DoneUsage(buf)
  {
    var off: nat, usage := 0, [];
    while off < |buf|
      invariant off <= |buf|
      invariant UsageFieldFrom(buf, off, usage) == UsageFieldFrom(buf, 0, [])
      decreases |buf| - off
    {
      var tag, o := DecodeVarint(buf, off);
      var fieldNum, wireType := tag / 8, tag % 8;
      if wireType == 2 {
        var ln, o2 := DecodeVarint(buf, o);
        if ln > |buf| - o2 {
          break;
        }
        if fieldNum == 1 {
          usage := buf[o2..o2 + ln];
        }
        off := o2 + ln;
      } else if wireType == 0 {
        var _, o2 := DecodeVarint(buf, o);
        off := o2;
      } else {
        break;
      }
    }
    r := DecodeUsage(usage);
  }

  // ---------- CompletionChunk ----------

  /** The bytes of an ASCII text. */
  function Ascii(s: string): seq<byte> {
    seq(|s|, i requires 0 <= i < |s| => s[i] as int % 0x80)
  }

  const UNKNOWN_ERROR := Ascii("unknown windsurf error")

  /** What one length-delimited field says, if it decides the chunk. */
  datatype Verdict = Undecided | Decided(chunk: Outcome<Chunk>)

  function AsDone(u: Outcome<Usage>): Outcome<Chunk> {
    match u
    case Returned(usage) => Returned(Done(usage))
    case Panics => Panics
    case LoopsForever => LoopsForever
  }

  function Judge(num: nat, payload: seq<byte>): Verdict {
    var text := StringFieldFrom(payload, 0, 1);
    if num == 1 then (if text != [] then Decided(Returned(Content(text))) else Undecided)
    else if num == 3 then
      Decided(AsDone(DoneUsage(payload)))
    else if num == 4 then Decided(Returned(Error(if text != [] then text else UNKNOWN_ERROR)))
    else Undecided
  }

  function ChunkFrom(buf: seq<byte>, off: nat): Outcome<Chunk>
    decreases |buf| - off
  {
    if off >= |buf| then Returned(Unknown)
    else
      var (tag, o) := ReadVarint(buf, off);
      var (v, o2) := ReadVarint(buf, o);
      if tag % 8 == 2 then
        if v > |buf| - o2 then Returned(Unknown)
        else
          var verdict := Judge(tag / 8, buf[o2..o2 + v]);
          if verdict.Decided? then verdict.chunk else ChunkFrom(buf, o2 + v)
      else if tag % 8 == 0 then ChunkFrom(buf, o2)
      else if tag % 8 == 1 then ChunkFrom(buf, o + 8)
      else if tag % 8 == 5 then ChunkFrom(buf, o + 4)
      else Returned(Unknown)
  }

  method DecodeCompletionChunk(buf: seq<byte>) returns (r: Outcome<Chunk>)
    ensures r == ChunkFrom(buf, 0)
  {
    var off: nat := 0;
    while off < |buf|
      invariant ChunkFrom(buf, off) == ChunkFrom(buf, 0)
      decreases |buf| - off
    {
      var tag, o := DecodeVarint(buf, off);
      var fieldNum, wireType := tag / 8, tag % 8;
      if wireType == 2 {
        var ln, o2 := DecodeVarint(buf, o);
        if ln > |buf| - o2 {
          break;
        }
        var verdict := JudgeField(fieldNum, buf[o2..o2 + ln]);
        if verdict.Decided? {
          return verdict.chunk;
        }
        off := o2 + ln;
      } else if wireType == 0 {
        var _, o2 := DecodeVarint(buf, o);
        off := o2;
      } else if wireType == 1 {
        off := o + 8;
      } else if wireType == 5 {
        off := o + 4;
      } else {
        break;
      }
    }
    return Returned(Unknown);
  }

  method JudgeField(num: nat, payload: seq<byte>) returns (verdict: Verdict)
    ensures verdict == Judge(num, payload)
  {
    if num == 1 {
      var text := DecodeStringField(payload, 1);
      if text != [] {
        return Decided(Returned(Content(text)));
      }
    } else if num == 3 {
      var u := DecodeDoneChunk(payload);
      return Decided(AsDone(u));
    } else if num == 4 {
      var msg := DecodeStringField(payload, 1);
      if msg == [] {
        msg := UNKNOWN_ERROR;
      }
      return Decided(Returned(Error(msg)));
    }
    return Undecided;
  }

  // ---------- Against the encoded message ----------

  /** The number fields, the last of a kind winning; at a fixed field the reading stops. */
  function Numbers(fs: seq<Field>, u: Usage): Usage {
    if fs == [] || fs[0].Fixed? then u
    else Numbers(fs[1..], if fs[0].Num? then Set(u, fs[0].num, fs[0].v) else u)
  }

  function LastString(fs: seq<Field>, target: nat, s: seq<byte>): seq<byte> {
    if fs == [] || fs[0].Fixed? then s
    else LastString(fs[1..], target, if fs[0].Str? && fs[0].num == target then fs[0].payload else s)
  }

  function Deciding(fs: seq<Field>): Outcome<Chunk> {
    if fs == [] then Returned(Unknown)
    else if fs[0].Str? && Judge(fs[0].num, fs[0].payload).Decided? then Judge(fs[0].num, fs[0].payload).chunk
    else Deciding(fs[1..])
  }

  ghost predicate AllEncodable(fs: seq<Field>) {
    forall f :: f in fs ==> Encodable(f)
  }

  lemma UsageStep(buf: seq<byte>, off: nat, end: nat, f: Field, u: Usage)
    requires StandsAt(buf, off, end, f) && end < TWO_TO_THE_63
    ensures HopAt(buf, off, u) == if f.Fixed? then Stop(u) else Next(end, if f.Num? then Set(u, f.num, f.v) else u)
  {
  }

  lemma UsageFieldStep(buf: seq<byte>, off: nat, end: nat, f: Field, s: seq<byte>)
    requires StandsAt(buf, off, end, f)
    ensures UsageFieldFrom(buf, off, s) ==
            if f.Fixed? then s else UsageFieldFrom(buf, end, if f.Str? && f.num == 1 then f.payload else s)
  {
  }

  lemma ChunkStep(buf: seq<byte>, off: nat, end: nat, f: Field)
    requires StandsAt(buf, off, end, f)
    ensures ChunkFrom(buf, off) == if f.Str? && Judge(f.num, f.payload).Decided? then Judge(f.num, f.payload).chunk
                                   else ChunkFrom(buf, end)
  {
  }

  lemma {:induction false} UsageReadBack(pre: seq<byte>, fs: seq<Field>, u: Usage, seen: set<nat>)
    requires AllEncodable(fs) && |pre + EncodeMessage(fs)| < TWO_TO_THE_63
    requires forall x :: x in seen ==> x < |pre|
    ensures UsageFrom(pre + EncodeMessage(fs), |pre|, u, seen) == Returned(Numbers(fs, u))
    decreases fs
  {
    if fs != [] {
      var f, rest := fs[0], EncodeMessage(fs[1..]);
      Assoc(pre, EncodeField(f), rest);
      FieldStands(pre, f, rest);
      UsageStep(pre + EncodeField(f) + rest, |pre|, |pre + EncodeField(f)|, f, u);
      if f.Fixed? {
        return;
      }
      UsageReadBack(pre + EncodeField(f), fs[1..], if f.Num? then Set(u, f.num, f.v) else u, seen + {|pre|});
    }
  }

  lemma {:induction false} UsageFieldReadBack(pre: seq<byte>, fs: seq<Field>, s: seq<byte>)
    requires AllEncodable(fs)
    ensures UsageFieldFrom(pre + EncodeMessage(fs), |pre|, s) == LastString(fs, 1, s)
    decreases fs
  {
    if fs != [] {
      var f, rest := fs[0], EncodeMessage(fs[1..]);
      Assoc(pre, EncodeField(f), rest);
      FieldStands(pre, f, rest);
      UsageFieldStep(pre + EncodeField(f) + rest, |pre|, |pre + EncodeField(f)|, f, s);
      if f.Fixed? {
        return;
      }
      UsageFieldReadBack(pre + EncodeField(f), fs[1..], if f.Str? && f.num == 1 then f.payload else s);
    }
  }

  lemma {:induction false} ChunkReadBack(pre: seq<byte>, fs: seq<Field>)
    requires AllEncodable(fs)
    ensures ChunkFrom(pre + EncodeMessage(fs), |pre|) == Deciding(fs)
    decreases fs
  {
    if fs != [] {
      var f, rest := fs[0], EncodeMessage(fs[1..]);
      Assoc(pre, EncodeField(f), rest);
      FieldStands(pre, f, rest);
      ChunkStep(pre + EncodeField(f) + rest, |pre|, |pre + EncodeField(f)|, f);
      ChunkReadBack(pre + EncodeField(f), fs[1..]);
    }
  }

  /** For any message: the usage numbers of the last field 1 are read, the last of each kind winning
      (the string decoder takes the first), up to a field of fixed length. */
  lemma DoneRoundTrip(fs: seq<Field>, stats: seq<Field>)
    requires AllEncodable(fs) && AllEncodable(stats)
    requires LastString(fs, 1, []) == EncodeMessage(stats) && |EncodeMessage(stats)| < TWO_TO_THE_63
    ensures DoneUsage(EncodeMessage(fs)) == Returned(Numbers(stats, NO_USAGE))
  {
    UsageFieldReadBack([], fs, []);
    UsageReadBack([], stats, NO_USAGE, {});
    assert [] + EncodeMessage(fs) == EncodeMessage(fs) && [] + EncodeMessage(stats) == EncodeMessage(stats);
  }

  /** And the first field that decides is the chunk. */
  lemma ChunkRoundTrip(fs: seq<Field>)
    requires AllEncodable(fs)
    ensures ChunkFrom(EncodeMessage(fs), 0) == Deciding(fs)
  {
    ChunkReadBack([], fs);
    assert [] + EncodeMessage(fs) == EncodeMessage(fs);
  }

  // ---------- A whole turn ----------

  lemma {:induction false} VarintIsShort(v: uint64)
    ensures |Varint(v)| <= 1 + v
  {
    if v >= 128 {
      VarintIsShort(v / 128);
    }
  }

  /** A message with one string field. */
  function Single(num: nat, payload: seq<byte>): seq<byte>
    requires num < 16 && |payload| < TWO_TO_THE_63
  {
    EncodeField(Str(num, payload))
  }

  lemma SingleIsMessage(num: nat, payload: seq<byte>)
    requires num < 16 && |payload| < TWO_TO_THE_63
    ensures Single(num, payload) == EncodeMessage([Str(num, payload)])
    ensures |Single(num, payload)| <= 2 * |payload| + 2
  {
    var fs := [Str(num, payload)];
    assert fs[1..] == [] && EncodeMessage(fs) == EncodeField(fs[0]) + EncodeMessage(fs[1..]);
    VarintIsShort(|payload|);
  }

  /** Far beyond any message: a bound that keeps nested lengths within 64 bits. */
  const TEXT_LIMIT := 0x1000_0000_0000_0000

  /** The chunk a server sends for a piece of text. */
  function TextMessage(text: seq<byte>): seq<byte>
    requires |text| < TEXT_LIMIT
  {
    SingleIsMessage(1, text);
    Single(1, Single(1, text))
  }

  /** For an error. */
  function ErrorMessage(message: seq<byte>): seq<byte>
    requires |message| < TEXT_LIMIT
  {
    SingleIsMessage(1, message);
    Single(4, Single(1, message))
  }

  /** And for the end of the answer: UsageStats within a DoneChunk. */
  function DoneMessage(prompt: uint64, completion: uint64): seq<byte> {
    StatsAreShort(prompt, completion);
    SingleIsMessage(1, Stats(prompt, completion));
    Single(3, Single(1, Stats(prompt, completion)))
  }

  function Stats(prompt: uint64, completion: uint64): seq<byte> {
    EncodeField(Num(1, prompt)) + EncodeField(Num(2, completion))
  }

  lemma EncodeTwo(f: Field, g: Field)
    requires Encodable(f) && Encodable(g)
    ensures EncodeMessage([f, g]) == EncodeField(f) + EncodeField(g)
  {
    assert [f, g][1..] == [g] && [g][1..] == [];
    assert EncodeMessage([g]) == EncodeField(g) + [] == EncodeField(g);
  }

  lemma StatsAreShort(prompt: uint64, completion: uint64)
    ensures |Stats(prompt, completion)| <= 22
    ensures Stats(prompt, completion) == EncodeMessage([Num(1, prompt), Num(2, completion)])
  {
    VarintIsTenAtMost(prompt);
    VarintIsTenAtMost(completion);
    EncodeTwo(Num(1, prompt), Num(2, completion));
  }

  /** The decoder on a chunk of one field. */
  lemma OneField(num: nat, inner: seq<byte>)
    requires num < 16 && |inner| < TWO_TO_THE_63
    ensures ChunkFrom(Single(num, inner), 0) ==
            if Judge(num, inner).Decided? then Judge(num, inner).chunk else Returned(Unknown)
  {
    var fs := [Str(num, inner)];
    SingleIsMessage(num, inner);
    ChunkRoundTrip(fs);
    assert fs[1..] == [];
  }

  lemma InnerText(text: seq<byte>)
    requires |text| < TEXT_LIMIT
    ensures StringFieldFrom(Single(1, text), 0, 1) == text && |Single(1, text)| < TWO_TO_THE_63
  {
    var fs := [Str(1, text)];
    SingleIsMessage(1, text);
    StringFieldRoundTrip(fs, 1);
    assert FirstString(fs, 1) == text;
  }

  /** A text survives unless it is empty, in which case the chunk says nothing. */
  lemma TextRoundTrip(text: seq<byte>)
    requires |text| < TEXT_LIMIT
    ensures ChunkFrom(TextMessage(text), 0) == Returned(if text != [] then Content(text) else Unknown)
  {
    InnerText(text);
    OneField(1, Single(1, text));
  }

  /** So does the message of an error; an error without one gets a fixed message. */
  lemma ErrorRoundTrip(message: seq<byte>)
    requires |message| < TEXT_LIMIT
    ensures ChunkFrom(ErrorMessage(message), 0) ==
            Returned(Error(if message != [] then message else Ascii("unknown windsurf error")))
  {
    InnerText(message);
    OneField(4, Single(1, message));
  }

  /** The numbers of prompt and completion tokens come back, as Go's int. */
  lemma UsageRoundTrip(prompt: uint64, completion: uint64)
    ensures ChunkFrom(DoneMessage(prompt, completion), 0) == Returned(Done(Usage(
              if prompt < 0x8000_0000_0000_0000 then prompt else prompt - 0x1_0000_0000_0000_0000,
              if completion < 0x8000_0000_0000_0000 then completion else completion - 0x1_0000_0000_0000_0000)))
  {
    var stats := Stats(prompt, completion);
    StatsAreShort(prompt, completion);
    SingleIsMessage(1, stats);
    OneField(3, Single(1, stats));
    DoneRoundTrip([Str(1, stats)], [Num(1, prompt), Num(2, completion)]);
    StatsRead(prompt, completion);
  }

  lemma StatsRead(prompt: uint64, completion: uint64)
    ensures Numbers([Num(1, prompt), Num(2, completion)], NO_USAGE) == Usage(AsInt(prompt), AsInt(completion))
    ensures LastString([Str(1, Stats(prompt, completion))], 1, []) == Stats(prompt, completion)
  {
    var fs, u := [Num(1, prompt), Num(2, completion)], Usage(AsInt(prompt), 0);
    assert fs[1..] == [Num(2, completion)] && fs[1..][1..] == [];
    assert Numbers(fs, NO_USAGE) == Numbers(fs[1..], u) == Numbers(fs[1..][1..], u.(completion := AsInt(completion)));
    assert [Str(1, Stats(prompt, completion))][1..] == [];
  }

  lemma SingleBytes(num: nat, payload: seq<byte>)
    requires num < 16 && |payload| < 128
    ensures Single(num, payload) == [num * 8 + 2, |payload|] + payload
  {
  }

  lemma NestedBytes(num: nat, payload: seq<byte>)
    requires num < 16 && |payload| < 126
    ensures Single(1, payload) == [0x0A, |payload|] + payload
    ensures Single(num, Single(1, payload)) == [num * 8 + 2, |payload| + 2, 0x0A, |payload|] + payload
  {
    SingleBytes(1, payload);
    SingleBytes(num, Single(1, payload));
  }

  lemma StatsBytes(prompt: uint64, completion: uint64)
    requires prompt < 128 && completion < 128
    ensures Stats(prompt, completion) == [0x08, prompt, 0x10, completion]
  {
  }

  /** The same on the wire, byte by byte: field 1 is text, field 3 the end of the answer, with the prompt
      tokens in its field 1 and the completion tokens in 2, and field 4 is an error. */
  lemma ChunkBytes(text: seq<byte>, p: byte, c: byte)
    requires 0 < |text| < 100 && p < 128 && c < 128
    ensures ChunkFrom([0x0A, |text| + 2, 0x0A, |text|] + text, 0) == Returned(Content(text))
    ensures ChunkFrom([0x1A, 0x06, 0x0A, 0x04] + [0x08, p, 0x10, c], 0) == Returned(Done(Usage(p, c)))
    ensures ChunkFrom([0x22, |text| + 2, 0x0A, |text|] + text, 0) == Returned(Error(text))
  {
    TextRoundTrip(text);
    NestedBytes(1, text);
    UsageRoundTrip(p, c);
    StatsBytes(p, c);
    NestedBytes(3, [0x08, p, 0x10, c]);
    ErrorRoundTrip(text);
    NestedBytes(4, text);
  }

  /** What a turn has gathered so far. */
  datatype Turn = Turn(text: seq<byte>, usage: Usage, error: seq<byte>)

  const START := Turn([], NO_USAGE, [])

  /** One frame; when the decoder of a chunk does not return, neither does the callback. */
  function Receive(t: Turn, frame: GrpcWeb.Frame, status: seq<byte> -> seq<byte>): Outcome<Turn> {
    if frame.flag == 0x80 then
      Returned(if status(frame.payload) != [] then t.(error := status(frame.payload)) else t)
    else if frame.flag != 0 then Returned(t)
    else
      match ChunkFrom(frame.payload, 0)
      case Returned(Content(text)) => Returned(t.(text := t.text + text))
      case Returned(Done(usage)) => Returned(t.(usage := usage))
      case Returned(Error(message)) => Returned(t.(error := message))
      case Returned(Unknown) => Returned(t)
      case Panics => Panics
      case LoopsForever => LoopsForever
  }

  /** The turn a list of frames makes; status reads a trailer. */
  function TurnOf(frames: seq<GrpcWeb.Frame>, status: seq<byte> -> seq<byte>): Outcome<Turn> {
    if frames == [] then Returned(START)
    else
      var past := TurnOf(frames[..|frames| - 1], status);
      if past.Returned? then Receive(past.value, frames[|frames| - 1], status) else past
  }

  method GatherTurn(frames: seq<GrpcWeb.Frame>, status: seq<byte> -> seq<byte>) returns (r: Outcome<Turn>)
    ensures r == TurnOf(frames, status)
  {
    var t := START;
    for i := 0 to |frames|
      invariant Returned(t) == TurnOf(frames[..i], status)
    {
      assert frames[..i + 1][..i] == frames[..i];
      r := GatherFrame(t, frames[i], status);
      if !r.Returned? {
        StaysStopped(frames, i + 1, status);
        return;
      }
      t := r.value;
    }
    assert frames[..|frames|] == frames;
    return Returned(t);
  }

  method GatherFrame(t: Turn, frame: GrpcWeb.Frame, status: seq<byte> -> seq<byte>) returns (r: Outcome<Turn>)
    ensures r == Receive(t, frame, status)
  {
    if frame.flag == 0x80 {
      var m := status(frame.payload);
      return Returned(if m != [] then t.(error := m) else t);
    }
    if frame.flag != 0 {
      return Returned(t);
    }
    var c := DecodeCompletionChunk(frame.payload);
    match c {
      case Returned(Content(text)) => return Returned(t.(text := t.text + text));
      case Returned(Done(usage)) => return Returned(t.(usage := usage));
      case Returned(Error(message)) => return Returned(t.(error := message));
      case Returned(Unknown) => return Returned(t);
      case Panics => return Panics;
      case LoopsForever => return LoopsForever;
    }
  }

  /** Nothing is gathered once a chunk has not returned. */
  lemma {:induction false} StaysStopped(frames: seq<GrpcWeb.Frame>, n: nat, status: seq<byte> -> seq<byte>)
    requires n <= |frames| && !TurnOf(frames[..n], status).Returned?
    ensures TurnOf(frames, status) == TurnOf(frames[..n], status)
    decreases |frames|
  {
    if n < |frames| {
      var init := frames[..|frames| - 1];
      assert init[..n] == frames[..n];
      StaysStopped(init, n, status);
    } else {
      assert frames[..n] == frames;
    }
  }

  // ---------- What a server says, and what arrives ----------

  /** A message of the server: a piece of text, the token counts, an error, a trailer, or a frame with a
      flag of another kind. */
  datatype Said =
    | Text(text: seq<byte>)
    | Counts(prompt: uint64, completion: uint64)
    | Failure(message: seq<byte>)
    | Trailer(payload: seq<byte>)
    | Other(flag: byte, payload: seq<byte>)

  function FrameOf(s: Said): GrpcWeb.Frame
    requires s.Text? ==> |s.text| < TEXT_LIMIT
    requires s.Failure? ==> |s.message| < TEXT_LIMIT
  {
    match s
    case Text(text) => GrpcWeb.Frame(0, TextMessage(text))
    case Counts(prompt, completion) => GrpcWeb.Frame(0, DoneMessage(prompt, completion))
    case Failure(message) => GrpcWeb.Frame(0, ErrorMessage(message))
    case Trailer(payload) => GrpcWeb.Frame(0x80, payload)
    case Other(flag, payload) => GrpcWeb.Frame(flag, payload)
  }

  /** It fits a frame. */
  predicate Sendable(s: Said) {
    && (s.Text? ==> |s.text| < TEXT_LIMIT)
    && (s.Failure? ==> |s.message| < TEXT_LIMIT)
    && (s.Other? ==> s.flag != 0 && s.flag != 0x80)
    && |FrameOf(s).payload| < 0x1_0000_0000
  }

  ghost predicate AllSendable(said: seq<Said>) {
    forall s :: s in said ==> Sendable(s)
  }

  function FramesOf(said: seq<Said>): seq<GrpcWeb.Frame>
    requires AllSendable(said)
  {
    if said == [] then []
    else
      assert Sendable(said[|said| - 1]);
      FramesOf(said[..|said| - 1]) + [FrameOf(said[|said| - 1])]
  }

  /** All its text, in order. */
  function TextSaid(said: seq<Said>): seq<byte> {
    if said == [] then []
    else TextSaid(said[..|said| - 1]) + (if said[|said| - 1].Text? then said[|said| - 1].text else [])
  }

  function SignedInt(v: uint64): int {
    if v < 0x8000_0000_0000_0000 then v else v - 0x1_0000_0000_0000_0000
  }

  /** The last counts; zero when there are none. */
  function UsageSaid(said: seq<Said>): Usage {
    if said == [] then Usage(0, 0)
    else match said[|said| - 1]
      case Counts(prompt, completion) => Usage(SignedInt(prompt), SignedInt(completion))
      case _ => UsageSaid(said[..|said| - 1])
  }

  /** The last error, or message of a trailer that has one; nothing when there is none. */
  function ErrorSaid(said: seq<Said>, status: seq<byte> -> seq<byte>): seq<byte> {
    if said == [] then []
    else
      var before := ErrorSaid(said[..|said| - 1], status);
      match said[|said| - 1]
      case Failure(message) => if message != [] then message else Ascii("unknown windsurf error")
      case Trailer(payload) => if status(payload) != [] then status(payload) else before
      case _ => before
  }

  lemma TurnSnoc(frames: seq<GrpcWeb.Frame>, frame: GrpcWeb.Frame, status: seq<byte> -> seq<byte>)
    requires TurnOf(frames, status).Returned?
    ensures TurnOf(frames + [frame], status) == Receive(TurnOf(frames, status).value, frame, status)
  {
    assert (frames + [frame])[..|frames|] == frames;
  }

  /** What one message adds to a turn. */
  function Heard(t: Turn, s: Said, status: seq<byte> -> seq<byte>): Turn {
    match s
    case Text(text) => t.(text := t.text + text)
    case Counts(prompt, completion) => t.(usage := Usage(SignedInt(prompt), SignedInt(completion)))
    case Failure(message) => t.(error := if message != [] then message else Ascii("unknown windsurf error"))
    case Trailer(payload) => if status(payload) != [] then t.(error := status(payload)) else t
    case Other(_, _) => t
  }

  lemma IsHeard(t: Turn, s: Said, status: seq<byte> -> seq<byte>)
    requires Sendable(s)
    ensures Receive(t, FrameOf(s), status) == Returned(Heard(t, s, status))
  {
    match s {
      case Text(text) =>
        TextRoundTrip(text);
        assert t.text + [] == t.text;
      case Counts(prompt, completion) => UsageRoundTrip(prompt, completion);
      case Failure(message) => ErrorRoundTrip(message);
      case _ =>
    }
  }

  lemma TurnNext(frames: seq<GrpcWeb.Frame>, s: Said, status: seq<byte> -> seq<byte>)
    requires TurnOf(frames, status).Returned? && Sendable(s)
    ensures TurnOf(frames + [FrameOf(s)], status) == Returned(Heard(TurnOf(frames, status).value, s, status))
  {
    TurnSnoc(frames, FrameOf(s), status);
    IsHeard(TurnOf(frames, status).value, s, status);
  }

  /** The turn made of the frames is what was said: all the text, the last counts, the last error. */
  lemma {:induction false} TurnTells(said: seq<Said>, status: seq<byte> -> seq<byte>)
    requires AllSendable(said)
    ensures TurnOf(FramesOf(said), status) == Returned(Turn(TextSaid(said), UsageSaid(said), ErrorSaid(said, status)))
  {
    if said != [] {
      var init, s := said[..|said| - 1], said[|said| - 1];
      TurnTells(init, status);
      assert Sendable(s);
      TurnNext(FramesOf(init), s, status);
      HeardIsSaid(said, status);
    }
  }

  lemma HeardIsSaid(said: seq<Said>, status: seq<byte> -> seq<byte>)
    requires said != []
    ensures var init, s := said[..|said| - 1], said[|said| - 1];
      Heard(Turn(TextSaid(init), UsageSaid(init), ErrorSaid(init, status)), s, status) ==
      Turn(TextSaid(said), UsageSaid(said), ErrorSaid(said, status))
  {
    var init := said[..|said| - 1];
    assert TextSaid(init) + [] == TextSaid(init);
  }

  lemma {:induction false} FramesFit(said: seq<Said>)
    requires AllSendable(said)
    ensures forall f :: f in FramesOf(said) ==> |f.payload| < 0x1_0000_0000
  {
    if said != [] {
      FramesFit(said[..|said| - 1]);
      assert Sendable(said[|said| - 1]);
    }
  }

  function Texts(texts: seq<seq<byte>>): seq<Said> {
    if texts == [] then [] else Texts(texts[..|texts| - 1]) + [Text(texts[|texts| - 1])]
  }

  lemma {:induction false} TextsSay(texts: seq<seq<byte>>, status: seq<byte> -> seq<byte>)
    ensures TextSaid(Texts(texts)) == Concat(texts)
    ensures UsageSaid(Texts(texts)) == Usage(0, 0) && ErrorSaid(Texts(texts), status) == []
  {
    if texts != [] {
      var init, text := texts[..|texts| - 1], texts[|texts| - 1];
      assert texts == init + [text];
      TextsSay(init, status);
      ConcatOne(init, text);
      assert Texts(texts)[..|Texts(texts)| - 1] == Texts(init);
    }
  }

  /** An ordinary answer is pieces of text, the counts and a trailer that says OK; a trailer that does
      not say so makes it an error, and so does an error chunk in place of the counts. */
  lemma OrdinaryAnswer(texts: seq<seq<byte>>, p: uint64, c: uint64, trailer: seq<byte>, status: seq<byte> -> seq<byte>,
                       message: seq<byte>)
    requires p < 0x8000_0000_0000_0000 && c < 0x8000_0000_0000_0000 && message != []
    ensures var said := Texts(texts) + [Counts(p, c), Trailer(trailer)];
      TextSaid(said) == Concat(texts) && UsageSaid(said) == Usage(p, c) && ErrorSaid(said, status) == status(trailer)
    ensures var said := Texts(texts) + [Failure(message)];
      TextSaid(said) == Concat(texts) && UsageSaid(said) == Usage(0, 0) && ErrorSaid(said, status) == message
  {
    hide TextSaid, UsageSaid, ErrorSaid, Texts, Concat, Ascii;
    var said, counted := Texts(texts), Texts(texts) + [Counts(p, c)];
    TextsSay(texts, status);
    SaidNext(said, Counts(p, c), status);
    SaidNext(counted, Trailer(trailer), status);
    assert said + [Counts(p, c), Trailer(trailer)] == counted + [Trailer(trailer)];
    SaidNext(said, Failure(message), status);
  }

  lemma SaidNext(said: seq<Said>, s: Said, status: seq<byte> -> seq<byte>)
    requires !s.Text?
    ensures TextSaid(said + [s]) == TextSaid(said)
    ensures UsageSaid(said + [s]) ==
            if s.Counts? then Usage(SignedInt(s.prompt), SignedInt(s.completion)) else UsageSaid(said)
    ensures ErrorSaid(said + [s], status) == Heard(Turn([], NO_USAGE, ErrorSaid(said, status)), s, status).error
  {
    assert (said + [s])[..|said|] == said;
    assert TextSaid(said) + [] == TextSaid(said);
  }

  /** The non-streaming answer: read the body, however it comes, and gather what its frames say. The
      callback never stops the reading. */
  method AnswerTurn(cuts: seq<seq<byte>>, ending: GrpcWeb.Ending, status: seq<byte> -> seq<byte>)
      returns (t: Outcome<Turn>, failed: bool)
    ensures t == TurnOf(GrpcWeb.Drain(Concat(cuts)).0, status)
    ensures failed <==> ending != GrpcWeb.Eof
  {
    var sink := new GrpcWeb.FrameSink(None);
    failed := GrpcWeb.ReadFrames(cuts, ending, sink);
    t := GatherTurn(sink.delivered, status);
  }

  /** Main result, across both layers: what a server says in frames arrives, however the bytes are cut
      into reads: all its text, the last counts it gave, its last error. */
  method AnswerArrives(ghost said: seq<Said>, cuts: seq<seq<byte>>, status: seq<byte> -> seq<byte>)
      returns (t: Outcome<Turn>)
    requires AllSendable(said) && Concat(cuts) == GrpcWeb.AllBytes(FramesOf(said))
    ensures t == Returned(Turn(TextSaid(said), UsageSaid(said), ErrorSaid(said, status)))
  {
    var failed;
    t, failed := AnswerTurn(cuts, GrpcWeb.Eof, status);
    TurnTells(said, status);
    FramesFit(said);
    GrpcWeb.FramesRoundTrip(FramesOf(said));
  }
}
