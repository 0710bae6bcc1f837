/** AWS EventStream frames (internal/providers/eventstream.go): a 12-byte prelude (total length,
    header length, CRC), typed headers, the payload, a trailing CRC. */
module EventStream {
  import opened Prelude

  type Headers = map<seq<byte>, seq<byte>>

  datatype Frame = Frame(headers: Headers, payload: seq<byte>)

  /** ReadFrame's three results: a frame, the clean end of the stream (nil, nil), an error. */
  datatype Outcome = Got(frame: Frame) | End | Bad

  const MAX_FRAME := 10 * 1024 * 1024

  function BigEndian(b: seq<byte>): nat {
    if b == [] then 0
    else
      var last: int := b[|b| - 1];
      BigEndian(b[..|b| - 1]) * 256 + last
  }

  function Bytes(n: nat, width: nat): (b: seq<byte>)
    ensures |b| == width
  {
    if width == 0 then [] else Bytes(n / 256, width - 1) + [n % 256]
  }

  function Pow256(width: nat): nat {
    if width == 0 then 1 else 256 * Pow256(width - 1)
  }

  lemma {:induction false} BytesReadBack(n: nat, width: nat)
    requires n < Pow256(width)
    ensures BigEndian(Bytes(n, width)) == n
  {
    if width > 0 {
      BytesReadBack(n / 256, width - 1);
      assert Bytes(n, width)[..width - 1] == Bytes(n / 256, width - 1);
    }
  }

  // ---------- Reading ----------

  datatype Step = Stop | More(pos: nat, headers: Headers)

  /** One turn of the header loop; it stops where a length runs past the end. */
  function HeaderAt(h: seq<byte>, pos: nat, m: Headers): (r: Step)
    requires pos <= |h|
    ensures r.More? ==> pos < r.pos <= |h|
  {
    if pos == |h| then Stop
    else
      var nameLen: int := h[pos];
      var p := pos + 1 + nameLen;
      if p > |h| || p + 3 > |h| then Stop
      else
        var name := h[pos + 1..p];
        var valLen := BigEndian(h[p + 1..p + 3]);
        if p + 3 + valLen > |h| then Stop
        else
          var keep := h[p] == 7 || h[p] == 6 || h[p] == 3;
          More(p + 3 + valLen, if keep then m[name := h[p + 3..p + 3 + valLen]] else m)
  }

  /** The header loop from pos with the map so far. */
  function ParseHeaders(h: seq<byte>, pos: nat, m: Headers): Headers
    requires pos <= |h|
    decreases |h| - pos
  {
    match HeaderAt(h, pos, m)
    case Stop => m
    case More(next, m') => ParseHeaders(h, next, m')
  }

  function Lengths(input: seq<byte>): (int, int)
    requires |input| >= 12
  {
    (BigEndian(input[0..4]), BigEndian(input[4..8]))
  }

  function FrameOf(input: seq<byte>, totalLen: int, headerLen: int): Frame
    requires 0 <= headerLen <= totalLen - 12 && totalLen <= |input|
  {
    var start, stop := 12 + headerLen, totalLen - 4;
    Frame(ParseHeaders(input[12..start], 0, map[]), if stop > start then input[start..stop] else [])
  }

  /** One call: the outcome and the bytes left unread. A short read uses up what there was. */
  function Read(input: seq<byte>): (Outcome, seq<byte>) {
    if |input| < 12 then (End, [])
    else
      var (totalLen, headerLen) := Lengths(input);
      if totalLen < 12 || totalLen > MAX_FRAME || headerLen > totalLen - 12 then (Bad, input[12..])
      else if |input| < totalLen then (Bad, [])
      else
        (Got(FrameOf(input, totalLen, headerLen)), input[totalLen..])
  }

  /** The headers and the payload of a whole frame. */
  method TakeFrame(frame: seq<byte>, headerLen: nat) returns (read: Frame)
    requires headerLen <= |frame| - 12
    ensures read == FrameOf(frame, |frame|, headerLen)
  {
    var headers := ReadHeaders(frame[12..12 + headerLen]);
    var payloadStart := 12 + headerLen;
    var payloadEnd := |frame| - 4;
    if payloadEnd > payloadStart {
      return Frame(headers, frame[payloadStart..payloadEnd]);
    }
    return Frame(headers, []);
  }

  lemma FrameOfPrefix(input: seq<byte>, totalLen: nat, headerLen: nat)
    requires headerLen <= totalLen - 12 && totalLen <= |input|
    ensures FrameOf(input[..totalLen], totalLen, headerLen) == FrameOf(input, totalLen, headerLen)
  {
    PrefixSlice(input, totalLen, 12, 12 + headerLen);
    if totalLen - 4 > 12 + headerLen {
      PrefixSlice(input, totalLen, 12 + headerLen, totalLen - 4);
    }
  }

  class EventStreamReader {
    /** What the underlying reader has still to give. */
    var input: seq<byte>

    constructor (input: seq<byte>)
      ensures this.input == input
    {
      this.input := input;
    }

    /** io.ReadFull: n bytes, or everything there is and false. */
    method ReadFull(n: nat) returns (buf: seq<byte>, full: bool)
      modifies this
      ensures full <==> |old(input)| >= n
      ensures full ==> buf == old(input)[..n] && input == old(input)[n..]
      ensures !full ==> buf == old(input) && input == []
    {
      if |input| < n {
        buf, full, input := input, false, [];
      } else {
        buf, full, input := input[..n], true, input[n..];
      }
    }

    method ReadFrame() returns (out: Outcome)
      modifies this
      ensures (out, input) == Read(old(input))
    {
      var prelude, gotPrelude := ReadFull(12);
      if !gotPrelude {
        return End;
      }
      PrefixSlice(old(input), 12, 0, 4);
      PrefixSlice(old(input), 12, 4, 8);
      var totalLen := BigEndian(prelude[0..4]);
      var headerLen := BigEndian(prelude[4..8]);
      if totalLen < 12 || totalLen > MAX_FRAME {
        return Bad;
      }
      if headerLen > totalLen - 12 {
        return Bad;
      }
      var body, gotBody := ReadFull(totalLen - 12);
      if !gotBody {
        return Bad;
      }
      var frame := prelude + body;
      PrefixInTwo(old(input), 12, totalLen);
      var read := TakeFrame(frame, headerLen);
      assert FrameOf(frame, totalLen, headerLen) == FrameOf(old(input), totalLen, headerLen) by {
        FrameOfPrefix(old(input), totalLen, headerLen);
      }
      return Got(read);
    }
  }

  lemma PrefixSlice(s: seq<byte>, n: nat, a: nat, b: nat)
    requires a <= b <= n <= |s|
    ensures s[..n][a..b] == s[a..b]
  {
  }

  lemma PrefixInTwo(s: seq<byte>, a: nat, n: nat)
    requires a <= n <= |s|
    ensures s[..a] + s[a..][..n - a] == s[..n] && s[a..][n - a..] == s[n..]
  {
  }

  method ReadHeaders(h: seq<byte>) returns (headers: Headers)
    ensures headers == ParseHeaders(h, 0, map[])
  {
    headers := map[];
    var pos := 0;
    while pos < |h|
      invariant pos <= |h|
      invariant ParseHeaders(h, pos, headers) == ParseHeaders(h, 0, map[])
      decreases |h| - pos
    {
      var step := ReadHeader(h, pos, headers);
      if step.Stop? {
        return;
      }
      pos, headers := step.pos, step.headers;
    }
  }

  /** The body of that loop. */
  method ReadHeader(h: seq<byte>, start: nat, headers: Headers) returns (step: Step)
    requires start < |h|
    ensures step == HeaderAt(h, start, headers)
  {
    var pos := start;
    var nameLen: int := h[pos];
    pos := pos + 1;
    if pos + nameLen > |h| {
      return Stop;
    }
    var name := h[pos..pos + nameLen];
    pos := pos + nameLen;
    if pos + 3 > |h| {
      return Stop;
    }
    var valueType := h[pos];
    pos := pos + 1;
    var valLen := BigEndian(h[pos..pos + 2]);
    pos := pos + 2;
    if pos + valLen > |h| {
      return Stop;
    }
    step := More(pos + valLen, if valueType == 7 || valueType == 6 || valueType == 3
                               then headers[name := h[pos..pos + valLen]] else headers);
  }

  // ---------- The format, written the other way ----------

  /** A header with a 16-bit length; 7 is a string, 6 a byte array. */
  datatype Header = Header(name: seq<byte>, kind: byte, value: seq<byte>)

  predicate WellSized(h: Header) {
    |h.name| <= 255 && |h.value| <= 65535
  }

  function EncodeHeader(h: Header): seq<byte>
    requires WellSized(h)
  {
    [|h.name|] + h.name + [h.kind] + Bytes(|h.value|, 2) + h.value
  }

  function EncodeHeaders(hs: seq<Header>): seq<byte>
    requires forall h :: h in hs ==> WellSized(h)
  {
    if hs == [] then [] else EncodeHeader(hs[0]) + EncodeHeaders(hs[1..])
  }

  /** Of all kinds three are kept. */
  predicate IsKept(h: Header) {
    h.kind in {3, 6, 7}
  }

  function AsMap(hs: seq<Header>, m: Headers): Headers {
    if hs == [] then m else AsMap(hs[1..], if IsKept(hs[0]) then m[hs[0].name := hs[0].value] else m)
  }

  datatype Source = Source(headers: seq<Header>, payload: seq<byte>, preludeCrc: seq<byte>, crc: seq<byte>)

  function TotalLength(f: Source): nat
    requires forall h :: h in f.headers ==> WellSized(h)
  {
    16 + |EncodeHeaders(f.headers)| + |f.payload|
  }

  predicate Sendable(f: Source) {
    && (forall h :: h in f.headers ==> WellSized(h))
    && |f.preludeCrc| == |f.crc| == 4
    && TotalLength(f) <= MAX_FRAME
  }

  function EncodeFrame(f: Source): seq<byte>
    requires Sendable(f)
  {
    var h := EncodeHeaders(f.headers);
    (Bytes(TotalLength(f), 4) + Bytes(|h|, 4) + f.preludeCrc) + h + (f.payload + f.crc)
  }

  lemma HeaderParts<T>(pre: seq<T>, n: T, name: seq<T>, k: T, l: seq<T>, value: seq<T>, post: seq<T>)
    requires |l| == 2
    ensures var s := pre + ([n] + name + [k] + l + value) + post;
      var p := |pre| + 1 + |name|;
      && |s| == p + 3 + |value| + |post|
      && s[|pre|] == n && s[|pre| + 1..p] == name && s[p] == k
      && s[p + 1..p + 3] == l && s[p + 3..p + 3 + |value|] == value
  {
  }

  lemma HeaderReadBack(pre: seq<byte>, h: Header, post: seq<byte>, m: Headers)
    requires WellSized(h)
    ensures HeaderAt(pre + EncodeHeader(h) + post, |pre|, m) ==
            More(|pre + EncodeHeader(h)|, if IsKept(h) then m[h.name := h.value] else m)
  {
    assert BigEndian(Bytes(|h.value|, 2)) == |h.value| by {
      BytesReadBack(|h.value|, 2);
    }
    HeaderParts(pre, |h.name| as byte, h.name, h.kind, Bytes(|h.value|, 2), h.value, post);
  }

  lemma {:induction false} HeadersReadBack(pre: seq<byte>, hs: seq<Header>, m: Headers)
    requires forall h :: h in hs ==> WellSized(h)
    ensures ParseHeaders(pre + EncodeHeaders(hs), |pre|, m) == AsMap(hs, m)
    decreases hs
  {
    if hs != [] {
      var rest := EncodeHeaders(hs[1..]);
      HeaderReadBack(pre, hs[0], rest, m);
      Assoc(pre, EncodeHeader(hs[0]), rest);
      HeadersReadBack(pre + EncodeHeader(hs[0]), hs[1..], if IsKept(hs[0]) then m[hs[0].name := hs[0].value] else m);
    }
  }

  /** With distinct names the map holds exactly the headers sent whose kind is kept. */
  lemma {:induction false} AsMapIsExact(hs: seq<Header>, m: Headers)
    requires forall i, j :: 0 <= i < j < |hs| ==> hs[i].name != hs[j].name
    requires forall i :: 0 <= i < |hs| ==> hs[i].name !in m
    ensures forall i :: 0 <= i < |hs| && hs[i].kind in {3, 6, 7} ==>
              hs[i].name in AsMap(hs, m) && AsMap(hs, m)[hs[i].name] == hs[i].value
    ensures forall n :: n in m ==> n in AsMap(hs, m) && AsMap(hs, m)[n] == m[n]
    ensures forall n :: n in AsMap(hs, m) ==>
              n in m || exists i :: 0 <= i < |hs| && hs[i].name == n && hs[i].kind in {3, 6, 7}
    decreases hs
  {
    if hs != [] {
      var m' := if IsKept(hs[0]) then m[hs[0].name := hs[0].value] else m;
      AsMapIsExact(hs[1..], m');
      forall i | 0 <= i < |hs| && hs[i].kind in {3, 6, 7}
        ensures hs[i].name in AsMap(hs, m) && AsMap(hs, m)[hs[i].name] == hs[i].value
      {
        if i > 0 {
          assert hs[i] == hs[1..][i - 1];
        } else {
          assert hs[0].name in m';
        }
      }
      forall n | n in AsMap(hs, m)
        ensures n in m || exists i :: 0 <= i < |hs| && hs[i].name == n && hs[i].kind in {3, 6, 7}
      {
        if n !in m' {
          var i :| 0 <= i < |hs[1..]| && hs[1..][i].name == n && hs[1..][i].kind in {3, 6, 7};
          assert hs[i + 1].name == n;
        } else if n !in m {
          assert hs[0].name == n;
        }
      }
    }
  }

  /** Where the parts of a frame stand. */
  lemma FrameParts<T>(t: seq<T>, l: seq<T>, c: seq<T>, h: seq<T>, p: seq<T>, crc: seq<T>, post: seq<T>)
    requires |t| == |l| == |c| == |crc| == 4
    ensures var s := (t + l + c) + h + (p + crc) + post;
      && |s| == 16 + |h| + |p| + |post|
      && s[0..4] == t && s[4..8] == l
      && s[12..12 + |h|] == h
      && s[12 + |h|..12 + |h| + |p|] == p
      && s[16 + |h| + |p|..] == post
  {
  }

  lemma ReadWhen(input: seq<byte>, h: seq<byte>, payload: seq<byte>, post: seq<byte>, total: nat)
    requires total == 16 + |h| + |payload| <= MAX_FRAME && |input| == total + |post|
    requires Lengths(input) == (total, |h|)
    requires input[12..12 + |h|] == h && input[12 + |h|..total - 4] == payload && input[total..] == post
    ensures Read(input) == (Got(Frame(ParseHeaders(h, 0, map[]), payload)), post)
  {
    FrameWhen(input, h, payload, total);
    ReadIs(input, total, |h|);
  }

  lemma ReadIs(input: seq<byte>, totalLen: int, headerLen: int)
    requires |input| >= 12 && Lengths(input) == (totalLen, headerLen)
    requires 0 <= headerLen <= totalLen - 12 && totalLen <= MAX_FRAME && totalLen <= |input|
    ensures Read(input) == (Got(FrameOf(input, totalLen, headerLen)), input[totalLen..])
  {
  }

  lemma FrameWhen(input: seq<byte>, h: seq<byte>, payload: seq<byte>, total: nat)
    requires total == 16 + |h| + |payload| && |input| >= total
    requires input[12..12 + |h|] == h && input[12 + |h|..total - 4] == payload
    ensures FrameOf(input, total, |h|) == Frame(ParseHeaders(h, 0, map[]), payload)
  {
  }

  lemma FrameReadBack(f: Source, post: seq<byte>)
    requires Sendable(f)
    ensures Read(EncodeFrame(f) + post) == (Got(Frame(AsMap(f.headers, map[]), f.payload)), post)
  {
    var h := EncodeHeaders(f.headers);
    assert BigEndian(Bytes(TotalLength(f), 4)) == TotalLength(f) && BigEndian(Bytes(|h|, 4)) == |h| by {
      BytesReadBack(TotalLength(f), 4);
      BytesReadBack(|h|, 4);
    }
    FrameParts(Bytes(TotalLength(f), 4), Bytes(|h|, 4), f.preludeCrc, h, f.payload, f.crc, post);
    ReadWhen(EncodeFrame(f) + post, h, f.payload, post, TotalLength(f));
    assert ParseHeaders(h, 0, map[]) == AsMap(f.headers, map[]) by {
      HeadersReadBack([], f.headers, map[]);
      assert [] + h == h;
    }
  }

  function EncodeAll(fs: seq<Source>): seq<byte>
    requires forall f :: f in fs ==> Sendable(f)
  {
    if fs == [] then [] else EncodeFrame(fs[0]) + EncodeAll(fs[1..])
  }

  // ---------- Frames that are not whole ----------

  /** Lengths have their high byte first. */
  lemma HighByteFirst()
    ensures Bytes(0x0102_0304, 4) == [1, 2, 3, 4]
  {
    assert Bytes(0x01, 1) == Bytes(0, 0) + [1] == [1];
    assert Bytes(0x0102, 2) == [1, 2];
    assert Bytes(0x01_0203, 3) == [1, 2, 3];
  }

  lemma PreludeParts(t: seq<byte>, l: seq<byte>, crc: seq<byte>, rest: seq<byte>)
    requires |t| == |l| == |crc| == 4
    ensures var s := t + l + crc + rest;
      |s| == 12 + |rest| && s[0..4] == t && s[4..8] == l && s[12..] == rest
      && forall n :: 12 <= n <= |s| ==> s[n..] == rest[n - 12..]
  {
  }

  lemma FourBytes(n: nat)
    requires n < 0x1_0000_0000
    ensures BigEndian(Bytes(n, 4)) == n
  {
    assert Pow256(4) == 256 * (256 * Pow256(2)) && Pow256(2) == 256 * (256 * Pow256(0));
    BytesReadBack(n, 4);
  }

  /** What a prelude does, whatever follows it: lengths that cannot be are an error and leave the rest
      unread; a body cut short is one, too, and uses it up; otherwise there is a frame, and exactly its
      length is read. */
  lemma PreludeDecides(total: nat, headerLen: nat, crc: seq<byte>, rest: seq<byte>)
    requires total < 0x1_0000_0000 && headerLen < 0x1_0000_0000 && |crc| == 4
    ensures var (out, unread) := Read(Bytes(total, 4) + Bytes(headerLen, 4) + crc + rest);
      if total < 12 || total > 10 * 1024 * 1024 || headerLen + 12 > total then out == Bad && unread == rest
      else if 12 + |rest| < total then out == Bad && unread == []
      else out.Got? && unread == rest[total - 12..]
  {
    FourBytes(total);
    FourBytes(headerLen);
    PreludeParts(Bytes(total, 4), Bytes(headerLen, 4), crc, rest);
  }

  lemma TakeHead<T>(a: seq<T>, b: seq<T>, k: nat)
    requires |a| <= k <= |a + b|
    ensures (a + b)[..k] == a + b[..k - |a|]
  {
  }

  /** A frame cut short: within the prelude that passes for the end of the stream, later it is an error. */
  lemma CutShort(f: Source, k: nat)
    requires Sendable(f) && k < |EncodeFrame(f)|
    ensures Read(EncodeFrame(f)[..k]) == (if k < 12 then End else Bad, [])
  {
    var h := EncodeHeaders(f.headers);
    var prelude := Bytes(TotalLength(f), 4) + Bytes(|h|, 4) + f.preludeCrc;
    if k >= 12 {
      var rest := h + (f.payload + f.crc);
      assert EncodeFrame(f) == prelude + rest;
      TakeHead(prelude, rest, k);
      PreludeDecides(TotalLength(f), |h|, f.preludeCrc, rest[..k - 12]);
    }
  }

  /** Reading n frames one after another. */
  function ReadMany(input: seq<byte>, n: nat): (seq<Outcome>, seq<byte>)
    decreases n
  {
    if n == 0 then ([], input)
    else
      var (o, rest) := Read(input);
      var (os, rest') := ReadMany(rest, n - 1);
      ([o] + os, rest')
  }

  /** Repeated reads give back exactly the frames sent, using up exactly their bytes; the next
      read reports the end. */
  lemma {:induction false} StreamRoundTrip(fs: seq<Source>)
    requires forall f :: f in fs ==> Sendable(f)
    ensures var (os, rest) := ReadMany(EncodeAll(fs), |fs|);
      && |os| == |fs| && (forall i :: 0 <= i < |fs| ==> os[i] == Got(Frame(AsMap(fs[i].headers, map[]), fs[i].payload)))
      && rest == [] && Read(rest).0 == End
  {
    if fs != [] {
      FrameReadBack(fs[0], EncodeAll(fs[1..]));
      StreamRoundTrip(fs[1..]);
    }
  }
}
