/** The hand-written protobuf codec (internal/proxy/executor/windsurf.go). Bytes and words are
    numbers here: `byte(v)|0x80` is v % 128 + 128, `v >>= 7` is v / 128, `tag & 0x07` is tag % 8,
    and shifting into a 64-bit word keeps the value modulo 2^64. */
module Protobuf {
  import opened Prelude

  const TWO_TO_THE_64 := 0x1_0000_0000_0000_0000

  type uint64 = v: int | 0 <= v < 0x1_0000_0000_0000_0000

  // ---------- Varints (Protocol Buffers Encoding, "Base 128 Varints") ----------

  function Varint(v: uint64): seq<byte> {
    if v < 128 then [v] else [v % 128 + 128] + Varint(v / 128)
  }

  method EncodeVarint(v: uint64) returns (out: seq<byte>)
    ensures out == Varint(v)
  {
    out := [];
    var rest := v;
    while rest >= 0x80
      invariant out + Varint(rest) == Varint(v)
    {
      Assoc(out, [rest % 128 + 128], Varint(rest / 128));
      out := out + [rest % 128 + 128];
      rest := rest / 128;
    }
    out := out + [rest];
  }

  /** One step of the decoder's loop: the low seven bits of b go in at shift. The bits below shift
      are all there is in result, so the `|=` is an addition. */
  function Deposit(result: uint64, b: byte, shift: nat): uint64 {
    (result + b % 128 * Pow2(shift)) % TWO_TO_THE_64
  }

  /** The decoder from offset off with result and shift so far. */
  function ReadFrom(buf: seq<byte>, off: nat, result: uint64, shift: nat): (r: (uint64, nat))
    requires off <= |buf|
    ensures off <= r.1 <= |buf|
    ensures off < |buf| ==> off < r.1
    decreases |buf| - off
  {
    if off == |buf| then (result, off)
    else
      var result' := Deposit(result, buf[off], shift);
      if buf[off] < 128 then (result', off + 1) else ReadFrom(buf, off + 1, result', shift + 7)
  }

  function ReadVarint(buf: seq<byte>, off: nat): (r: (uint64, nat))
    requires off <= |buf|
    ensures off <= r.1 <= |buf|
    ensures off < |buf| ==> off < r.1
  {
    ReadFrom(buf, off, 0, 0)
  }

  method DecodeVarint(buf: seq<byte>, start: nat) returns (result: uint64, off: nat)
    requires start <= |buf|
    ensures (result, off) == ReadVarint(buf, start)
  {
    result, off := 0, start;
    var shift := 0;
    while off < |buf|
      invariant start <= off <= |buf|
      invariant ReadFrom(buf, off, result, shift) == ReadVarint(buf, start)
    {
      var b := buf[off];
      off := off + 1;
      result := Deposit(result, b, shift);
      if b < 128 {
        return;
      }
      shift := shift + 7;
    }
  }

  lemma TwiceProduct(x: int, y: int)
    ensures 2 * (x * y) == (2 * x) * y
  {
  }

  lemma {:induction false} Pow2Add(a: nat, b: nat)
    ensures Pow2(a + b) == Pow2(a) * Pow2(b)
  {
    if a > 0 {
      Pow2Add(a - 1, b);
      assert Pow2(a + b) == 2 * Pow2(a - 1 + b);
      TwiceProduct(Pow2(a - 1), Pow2(b));
    }
  }

  lemma Pow2Seven(shift: nat)
    ensures Pow2(shift + 7) == 128 * Pow2(shift)
  {
    Pow2Add(7, shift);
    assert Pow2(7) == 128 by {
      assert Pow2(3) == 8 && Pow2(5) == 4 * Pow2(3);
      assert Pow2(7) == 4 * Pow2(5);
    }
  }

  lemma SevenMoreBits(result: uint64, v: uint64, p: nat)
    requires result + v * p < TWO_TO_THE_64
    ensures (result + v % 128 * p) + v / 128 * (128 * p) == result + v * p
    ensures result + v % 128 * p < TWO_TO_THE_64
  {
    assert v == v % 128 + 128 * (v / 128);
    assert v * p == (v % 128) * p + (v / 128) * (128 * p);
    assert (v / 128) * (128 * p) >= 0;
  }

  lemma ByteMoves(pre: seq<byte>, b: byte, rest: seq<byte>, post: seq<byte>)
    ensures pre + ([b] + rest) + post == pre + [b] + rest + post
    ensures (pre + ([b] + rest) + post)[|pre|] == b
  {
  }

  lemma {:induction false} VarintReadBack(pre: seq<byte>, v: uint64, post: seq<byte>, result: uint64, shift: nat)
    requires result + v * Pow2(shift) < TWO_TO_THE_64
    ensures ReadFrom(pre + Varint(v) + post, |pre|, result, shift) ==
            (result + v * Pow2(shift), |pre| + |Varint(v)|)
    decreases v
  {
    var p := Pow2(shift);
    SevenMoreBits(result, v, p);
    if v < 128 {
      ByteMoves(pre, v, [], post);
      assert [v] + [] == [v];
      ReadByte(pre + [v] + post, |pre|, result, shift, v);
    } else {
      var low, rest := v % 128, Varint(v / 128);
      ByteMoves(pre, low + 128, rest, post);
      ReadByte(pre + ([low + 128] + rest) + post, |pre|, result, shift, low);
      Pow2Seven(shift);
      VarintReadBack(pre + [low + 128], v / 128, post, result + low * p, shift + 7);
    }
  }

  lemma ReadByte(buf: seq<byte>, off: nat, result: uint64, shift: nat, low: nat)
    requires off < |buf| && low < 128 && (buf[off] == low || buf[off] == low + 128)
    requires result + low * Pow2(shift) < TWO_TO_THE_64
    ensures ReadFrom(buf, off, result, shift) ==
            if buf[off] < 128 then (result + low * Pow2(shift), off + 1)
            else ReadFrom(buf, off + 1, result + low * Pow2(shift), shift + 7)
  {
    DepositFits(result, buf[off], shift, low);
  }

  lemma DepositFits(result: uint64, b: byte, shift: nat, low: nat)
    requires low < 128 && (b == low || b == low + 128)
    requires result + low * Pow2(shift) < TWO_TO_THE_64
    ensures Deposit(result, b, shift) == result + low * Pow2(shift)
  {
    assert b % 128 == low;
  }

  /** Every 64-bit value survives encoding, wherever in a buffer it stands; the reader stops
      exactly at its end. */
  lemma VarintRoundTrip(pre: seq<byte>, v: uint64, post: seq<byte>)
    ensures ReadVarint(pre + Varint(v) + post, |pre|) == (v, |pre| + |Varint(v)|)
  {
    VarintReadBack(pre, v, post, 0, 0);
  }

  /** A varint takes one byte per started group of seven bits. */
  lemma {:induction false} VarintLength(v: uint64, groups: nat)
    requires groups > 0
    ensures 1 <= |Varint(v)| <= groups <==> v < Pow2(7 * groups)
    decreases groups
  {
    Pow2Seven(7 * (groups - 1));
    if v >= 128 {
      if groups == 1 {
        assert |Varint(v / 128)| >= 1;
      } else {
        VarintLength(v / 128, groups - 1);
      }
    }
  }

  /** A byte below 128 is a varint by itself. */
  lemma OneByte(buf: seq<byte>, off: nat)
    requires off < |buf| && buf[off] < 128
    ensures ReadVarint(buf, off) == (buf[off], off + 1)
  {
    ReadByte(buf, off, 0, 0, buf[off]);
  }

  /** The low bits come first: 300 is 2 * 128 + 44. */
  lemma LowBitsFirst()
    ensures Varint(300) == [0xAC, 0x02]
    ensures ReadVarint([0xAC, 0x02], 0) == (300, 2)
  {
    assert Varint(300) == [300 % 128 + 128] + Varint(2);
    VarintRoundTrip([], 300, []);
    assert [] + Varint(300) + [] == Varint(300);
  }

  lemma TwentyOneBits()
    ensures Pow2(21) == 0x20_0000
  {
    Pow2Seven(0);
    Pow2Seven(7);
    Pow2Seven(14);
  }

  lemma SixtyThreeBits()
    ensures Pow2(63) == 0x8000_0000_0000_0000
  {
    TwentyOneBits();
    Pow2Add(21, 21);
    Pow2Add(21, 42);
  }

  /** So ten at most. */
  lemma VarintIsTenAtMost(v: uint64)
    ensures |Varint(v)| <= 10
    ensures |Varint(v)| == 10 <==> v >= 0x8000_0000_0000_0000
  {
    SixtyThreeBits();
    Pow2Seven(63);
    VarintLength(v, 9);
    VarintLength(v, 10);
  }

  // ---------- Messages (Protocol Buffers Encoding, "Length-Delimited Records") ----------

  /** A field of wire type 2, 0, or 1 or 5: the fixed ones are of eight or four bytes. */
  datatype Field = Str(num: nat, payload: seq<byte>) | Num(num: nat, v: uint64) | Fixed(num: nat, payload: seq<byte>)

  /** fieldNum<<3 | wireType must fit the 64-bit tag, and so must the payload's length. */
  predicate Encodable(f: Field) {
    && f.num < 0x2000_0000_0000_0000
    && (f.Str? ==> |f.payload| < TWO_TO_THE_64)
    && (f.Fixed? ==> |f.payload| == 8 || |f.payload| == 4)
  }

  function Tag(num: nat, wireType: nat): seq<byte>
    requires num < 0x2000_0000_0000_0000 && wireType < 8
  {
    Varint(num * 8 + wireType)
  }

  function EncodeField(f: Field): seq<byte>
    requires Encodable(f)
  {
    match f
    case Str(num, payload) => Tag(num, 2) + Varint(|payload|) + payload
    case Num(num, v) => Tag(num, 0) + Varint(v)
    case Fixed(num, payload) => Tag(num, if |payload| == 8 then 1 else 5) + payload
  }

  function EncodeMessage(fs: seq<Field>): seq<byte>
    requires forall f :: f in fs ==> Encodable(f)
  {
    if fs == [] then [] else EncodeField(fs[0]) + EncodeMessage(fs[1..])
  }

  /** The first string field with the target number; "" when there is none. */
  function FirstString(fs: seq<Field>, target: nat): seq<byte> {
    if fs == [] then []
    else if fs[0].Str? && fs[0].num == target then fs[0].payload
    else FirstString(fs[1..], target)
  }

  /** wsDecodeStringField from offset off on any bytes at all. */
  function StringFieldFrom(buf: seq<byte>, off: nat, target: nat): seq<byte>
    decreases |buf| - off
  {
    if off >= |buf| then []
    else
      var (tag, o) := ReadVarint(buf, off);
      if tag % 8 == 2 then
        var (ln, o2) := ReadVarint(buf, o);
        if ln > |buf| - o2 then []
        else if tag / 8 == target then buf[o2..o2 + ln]
        else StringFieldFrom(buf, o2 + ln, target)
      else if tag % 8 == 0 then StringFieldFrom(buf, ReadVarint(buf, o).1, target)
      else if tag % 8 == 1 then StringFieldFrom(buf, o + 8, target)
      else if tag % 8 == 5 then StringFieldFrom(buf, o + 4, target)
      else []
  }

  method DecodeStringField(buf: seq<byte>, target: nat) returns (s: seq<byte>)
    ensures s == StringFieldFrom(buf, 0, target)
  {
    var off: nat := 0;
    while off < |buf|
      invariant StringFieldFrom(buf, off, target) == StringFieldFrom(buf, 0, target)
      decreases |buf| - off
    {
      var tag, o := DecodeVarint(buf, off);
      off := o;
      var fieldNum, wireType := tag / 8, tag % 8;
      if wireType == 2 {
        var ln, o2 := DecodeVarint(buf, off);
        off := o2;
        if ln > |buf| - off {
          return [];
        }
        if fieldNum == target {
          return buf[off..off + ln];
        }
        off := off + ln;
      } else if wireType == 0 {
        var _, o2 := DecodeVarint(buf, off);
        off := o2;
      } else if wireType == 1 {
        off := off + 8;
      } else if wireType == 5 {
        off := off + 4;
      } else {
        return [];
      }
    }
    return [];
  }

  lemma FieldParts<T>(pre: seq<T>, t: seq<T>, l: seq<T>, p: seq<T>, post: seq<T>)
    ensures pre + (t + l + p) + post == pre + t + (l + p + post) == (pre + t) + l + (p + post)
    ensures (pre + (t + l + p) + post)[|pre| + |t| + |l|..|pre| + |t| + |l| + |p|] == p
  {
  }

  lemma StrFieldReads(pre: seq<byte>, num: nat, payload: seq<byte>, post: seq<byte>)
    requires Encodable(Str(num, payload))
    ensures var buf := pre + EncodeField(Str(num, payload)) + post;
      var (tag, o) := ReadVarint(buf, |pre|);
      var (ln, o2) := ReadVarint(buf, o);
      && tag == num * 8 + 2 && ln == |payload|
      && o2 + ln == |pre| + |EncodeField(Str(num, payload))| <= |buf|
      && buf[o2..o2 + ln] == payload
  {
    hide ReadVarint, Varint;
    var t, l := Tag(num, 2), Varint(|payload|);
    FieldParts(pre, t, l, payload, post);
    VarintRoundTrip(pre, num * 8 + 2, l + payload + post);
    VarintRoundTrip(pre + t, |payload|, payload + post);
  }

  lemma NumFieldReads(pre: seq<byte>, num: nat, v: uint64, post: seq<byte>)
    requires Encodable(Num(num, v))
    ensures var buf := pre + EncodeField(Num(num, v)) + post;
      var (tag, o) := ReadVarint(buf, |pre|);
      tag == num * 8 && ReadVarint(buf, o) == (v, |pre| + |EncodeField(Num(num, v))|)
  {
    var t, x := Tag(num, 0), Varint(v);
    Assoc(pre, t, x);
    Assoc(pre + t, x, post);
    Assoc(pre, t + x, post);
    VarintRoundTrip(pre, num * 8, x + post);
    VarintRoundTrip(pre + t, v, post);
  }

  lemma FixedFieldReads(pre: seq<byte>, num: nat, payload: seq<byte>, post: seq<byte>)
    requires Encodable(Fixed(num, payload))
    ensures var buf := pre + EncodeField(Fixed(num, payload)) + post;
      var (tag, o) := ReadVarint(buf, |pre|);
      tag == num * 8 + (if |payload| == 8 then 1 else 5) && o + |payload| == |pre + EncodeField(Fixed(num, payload))|
  {
    var t := Tag(num, if |payload| == 8 then 1 else 5);
    Assoc(pre, t, payload);
    Assoc(pre + t, payload, post);
    VarintRoundTrip(pre, num * 8 + (if |payload| == 8 then 1 else 5), payload + post);
  }

  /** Field f stands in buf from off to end: its tag, then its number, its length and payload, or just
      that many bytes. */
  ghost predicate StandsAt(buf: seq<byte>, off: nat, end: nat, f: Field) {
    && off < end <= |buf|
    && var (tag, o) := ReadVarint(buf, off);
       var (v, o2) := ReadVarint(buf, o);
       && tag / 8 == f.num
       && (f.Str? ==> tag % 8 == 2 && o2 + v == end && buf[o2..o2 + v] == f.payload)
       && (f.Num? ==> tag % 8 == 0 && v == f.v && o2 == end)
       && (f.Fixed? ==> (tag % 8 == 1 && o + 8 == end) || (tag % 8 == 5 && o + 4 == end))
  }

  lemma FieldStands(pre: seq<byte>, f: Field, post: seq<byte>)
    requires Encodable(f)
    ensures StandsAt(pre + EncodeField(f) + post, |pre|, |pre + EncodeField(f)|, f)
  {
    match f {
      case Str(num, payload) =>
        StrFieldReads(pre, num, payload, post);
      case Num(num, v) =>
        NumFieldReads(pre, num, v, post);
      case Fixed(num, payload) =>
        FixedFieldReads(pre, num, payload, post);
    }
  }

  lemma StringFieldStep(buf: seq<byte>, off: nat, end: nat, f: Field, target: nat)
    requires StandsAt(buf, off, end, f)
    ensures StringFieldFrom(buf, off, target) ==
            if f.Str? && f.num == target then f.payload else StringFieldFrom(buf, end, target)
  {
  }

  lemma {:induction false} StringFieldReadBack(pre: seq<byte>, fs: seq<Field>, target: nat)
    requires forall f :: f in fs ==> Encodable(f)
    ensures StringFieldFrom(pre + EncodeMessage(fs), |pre|, target) == FirstString(fs, target)
    decreases fs
  {
    if fs != [] {
      var f, rest := fs[0], EncodeMessage(fs[1..]);
      Assoc(pre, EncodeField(f), rest);
      FieldStands(pre, f, rest);
      StringFieldStep(pre + EncodeField(f) + rest, |pre|, |pre + EncodeField(f)|, f, target);
      StringFieldReadBack(pre + EncodeField(f), fs[1..], target);
    }
  }

  /** For any message of fields the decoder returns the first payload with the
      target number, or the empty string. */
  lemma StringFieldRoundTrip(fs: seq<Field>, target: nat)
    requires forall f :: f in fs ==> Encodable(f)
    ensures StringFieldFrom(EncodeMessage(fs), 0, target) == FirstString(fs, target)
  {
    StringFieldReadBack([], fs, target);
    assert [] + EncodeMessage(fs) == EncodeMessage(fs);
  }
}
