/** gRPC-web frames reassembled from arbitrary reads (internal/proxy/executor/windsurf.go):
    one flag byte, a big-endian 32-bit length, the payload. */
module GrpcWeb {
  import opened Prelude

  datatype Frame = Frame(flag: byte, payload: seq<byte>)

  // ---------- The frame format ----------

  /** A frame on the wire; each length byte is truncated as byte(len>>k) truncates it. */
  function FrameBytes(f: Frame): seq<byte> {
    var n := |f.payload|;
    [f.flag, n / 0x100_0000 % 0x100, n / 0x1_0000 % 0x100, n / 0x100 % 0x100, n % 0x100] + f.payload
  }

  /** wsGRPCWebFrame. */
  function Wrap(payload: seq<byte>): seq<byte> {
    FrameBytes(Frame(0, payload))
  }

  function PayloadLength(bytes: seq<byte>): nat
    requires |bytes| >= 5
  {
    var b1: int, b2: int, b3: int, b4: int := bytes[1], bytes[2], bytes[3], bytes[4];
    b1 * 0x100_0000 + b2 * 0x1_0000 + b3 * 0x100 + b4
  }

  /** A complete frame stands at the head of bytes. */
  predicate HasFrame(bytes: seq<byte>) {
    |bytes| >= 5 && 5 + PayloadLength(bytes) <= |bytes|
  }

  function HeadFrame(bytes: seq<byte>): Frame
    requires HasFrame(bytes)
  {
    Frame(bytes[0], bytes[5..5 + PayloadLength(bytes)])
  }

  function AfterHead(bytes: seq<byte>): seq<byte>
    requires HasFrame(bytes)
  {
    bytes[5 + PayloadLength(bytes)..]
  }

  /** All complete frames of bytes, in order, and what is left over. */
  function Drain(bytes: seq<byte>): (r: (seq<Frame>, seq<byte>))
    ensures !HasFrame(r.1)
    decreases |bytes|
  {
    if !HasFrame(bytes) then ([], bytes)
    else
      var (fs, rest) := Drain(AfterHead(bytes));
      ([HeadFrame(bytes)] + fs, rest)
  }

  // ---------- Chunk-boundary independence ----------

  lemma HeadIsStable(a: seq<byte>, b: seq<byte>)
    requires HasFrame(a)
    ensures HasFrame(a + b) && HeadFrame(a + b) == HeadFrame(a) && AfterHead(a + b) == AfterHead(a) + b
  {
    assert (a + b)[5..5 + PayloadLength(a)] == a[5..5 + PayloadLength(a)];
  }

  /** Draining a and then the rest together with b is draining a + b. */
  lemma {:induction false} DrainAppend(a: seq<byte>, b: seq<byte>)
    ensures Drain(a + b) == (Drain(a).0 + Drain(Drain(a).1 + b).0, Drain(Drain(a).1 + b).1)
    decreases |a|
  {
    if HasFrame(a) {
      HeadIsStable(a, b);
      DrainAppend(AfterHead(a), b);
      Assoc([HeadFrame(a)], Drain(AfterHead(a)).0, Drain(Drain(a).1 + b).0);
    } else {
      assert [] + Drain(a + b).0 == Drain(a + b).0;
    }
  }

  // ---------- Round trip ----------

  lemma LengthBytes(n: nat)
    requires n < 0x1_0000_0000
    ensures n / 0x100_0000 % 0x100 * 0x100_0000 + n / 0x1_0000 % 0x100 * 0x1_0000
            + n / 0x100 % 0x100 * 0x100 + n % 0x100 == n
  {
  }

  lemma FrameReadBack(f: Frame, rest: seq<byte>)
    requires |f.payload| < 0x1_0000_0000
    ensures HasFrame(FrameBytes(f) + rest)
    ensures HeadFrame(FrameBytes(f) + rest) == f && AfterHead(FrameBytes(f) + rest) == rest
  {
    LengthBytes(|f.payload|);
    var bytes := FrameBytes(f) + rest;
    assert PayloadLength(bytes) == |f.payload|;
    assert bytes[5..5 + |f.payload|] == f.payload;
  }

  function AllBytes(frames: seq<Frame>): seq<byte> {
    if frames == [] then [] else FrameBytes(frames[0]) + AllBytes(frames[1..])
  }

  /** Concatenated frames drain to the original ones, each once and in order, and nothing is left
      over. The four length bytes bound a payload by 2^32. */
  lemma {:induction false} FramesRoundTrip(frames: seq<Frame>)
    requires forall f :: f in frames ==> |f.payload| < 0x1_0000_0000
    ensures Drain(AllBytes(frames)) == (frames, [])
  {
    if frames != [] {
      FrameReadBack(frames[0], AllBytes(frames[1..]));
      FramesRoundTrip(frames[1..]);
      assert frames == [frames[0]] + frames[1..];
    }
  }

  /** What wsGRPCWebFrame makes is such a frame, with the length's high byte first. */
  lemma WrapIsFrame(payload: seq<byte>)
    requires |payload| < 0x1_0000_0000
    ensures Drain(Wrap(payload)) == ([Frame(0, payload)], [])
    ensures |payload| == 0x0102_0304 ==> Wrap(payload) == [0, 1, 2, 3, 4] + payload
  {
    var f := Frame(0, payload);
    assert AllBytes([f]) == FrameBytes(f) by {
      assert [f][1..] == [] && FrameBytes(f) + [] == FrameBytes(f);
    }
    FramesRoundTrip([f]);
  }

  // ---------- The reader ----------

  /** The callback. It accepts frames and says stop on the one numbered stopAt, if it gets there. */
  class FrameSink {
    const stopAt: Option<nat>
    var delivered: seq<Frame>

    constructor (stopAt: Option<nat>)
      ensures this.stopAt == stopAt && delivered == []
    {
      this.stopAt := stopAt;
      delivered := [];
    }

    /** It has not said stop. */
    predicate Willing()
      reads this
    {
      Within(delivered, stopAt)
    }

    method OnFrame(flag: byte, payload: seq<byte>) returns (more: bool)
      modifies this
      ensures delivered == old(delivered) + [Frame(flag, payload)]
      ensures more <==> stopAt != Some(|old(delivered)|)
    {
      more := stopAt != Some(|delivered|);
      delivered := delivered + [Frame(flag, payload)];
    }
  }

  predicate Within<T>(s: seq<T>, stopAt: Option<nat>) {
    stopAt.Some? ==> |s| <= stopAt.value
  }

  /** What a sink with that limit takes of s. */
  function Upto<T>(s: seq<T>, stopAt: Option<nat>): seq<T> {
    if stopAt.Some? && stopAt.value + 1 <= |s| then s[..stopAt.value + 1] else s
  }

  lemma DrainStep(bytes: seq<byte>)
    ensures if HasFrame(bytes)
            then Drain(bytes) == ([HeadFrame(bytes)] + Drain(AfterHead(bytes)).0, Drain(AfterHead(bytes)).1)
            else Drain(bytes) == ([], bytes)
  {
  }

  /** wsDrainFrames: deliver the complete frames until told to stop. */
  method DrainFrames(pending: seq<byte>, sink: FrameSink) returns (rest: seq<byte>, more: bool)
    requires sink.Willing()
    modifies sink
    ensures sink.delivered == Upto(old(sink.delivered) + Drain(pending).0, sink.stopAt)
    ensures more <==> Within(old(sink.delivered) + Drain(pending).0, sink.stopAt)
    ensures more ==> rest == Drain(pending).1
  {
    hide Drain;
    var off := 0;
    ghost var all := sink.delivered + Drain(pending).0;
    while off + 5 <= |pending|
      invariant off <= |pending|
      invariant sink.Willing()
      invariant all == sink.delivered + Drain(pending[off..]).0
      invariant Drain(pending).1 == Drain(pending[off..]).1
      decreases |pending| - off
    {
      ghost var left := pending[off..];
      DrainStep(left);
      var flag := pending[off];
      var b1: int, b2: int, b3: int, b4: int := pending[off + 1], pending[off + 2], pending[off + 3], pending[off + 4];
      var ln := b1 * 0x100_0000 + b2 * 0x1_0000 + b3 * 0x100 + b4;
      assert ln == PayloadLength(left);
      if off + 5 + ln > |pending| {
        break;
      }
      assert pending[off + 5..off + 5 + ln] == left[5..5 + ln];
      assert pending[off + 5 + ln..] == AfterHead(left);
      Assoc(sink.delivered, [HeadFrame(left)], Drain(AfterHead(left)).0);
      var go := sink.OnFrame(flag, pending[off + 5..off + 5 + ln]);
      if !go {
        return pending[off..], false;
      }
      off := off + 5 + ln;
    }
    DrainStep(pending[off..]);
    assert sink.delivered + [] == sink.delivered;
    return pending[off..], true;
  }

  /** How the body ends: cleanly, with a read error, or because the client went away. */
  datatype Ending = Eof | ReadError | Cancelled

  lemma NothingYet(cuts: seq<seq<byte>>)
    ensures Drain(Concat(cuts[..0])) == ([], [])
  {
  }

  lemma OneMoreCut(cuts: seq<seq<byte>>, i: nat)
    requires i < |cuts|
    ensures var before, now := Drain(Concat(cuts[..i])), Drain(Drain(Concat(cuts[..i])).1 + cuts[i]);
      Drain(Concat(cuts[..i + 1])) == (before.0 + now.0, now.1)
  {
    assert cuts[..i + 1] == cuts[..i] + [cuts[i]];
    ConcatOne(cuts[..i], cuts[i]);
    DrainAppend(Concat(cuts[..i]), cuts[i]);
  }

  /** wsReadFrames: the same bytes give the same frames however they are cut into reads, and at
      every kind of ending; the drain at end of input delivers nothing new. */
  method ReadFrames(cuts: seq<seq<byte>>, ending: Ending, sink: FrameSink) returns (error: bool)
    requires sink.delivered == []
    modifies sink
    ensures sink.delivered == Upto(Drain(Concat(cuts)).0, sink.stopAt)
    ensures error <==> ending != Eof && Within(Drain(Concat(cuts)).0, sink.stopAt)
  {
    hide Drain, Concat, HasFrame;
    var pending: seq<byte> := [];
    NothingYet(cuts);
    for i := 0 to |cuts|
      invariant sink.Willing()
      invariant (sink.delivered, pending) == Drain(Concat(cuts[..i]))
    {
      OneMoreCut(cuts, i);
      var more;
      pending, more := DrainFrames(pending + cuts[i], sink);
      if !more {
        DeliveredSoFar(cuts, i + 1, sink.stopAt.value + 1);
        return false;
      }
    }
    assert cuts[..|cuts|] == cuts;
    if ending != Eof {
      return true;
    }
    DrainStep(pending);
    var _, _ := DrainFrames(pending, sink);
    assert sink.delivered + [] == sink.delivered;
    return false;
  }

  lemma DeliveredSoFar(cuts: seq<seq<byte>>, i: nat, n: nat)
    requires i <= |cuts| && n <= |Drain(Concat(cuts[..i])).0|
    ensures n <= |Drain(Concat(cuts)).0| && Drain(Concat(cuts)).0[..n] == Drain(Concat(cuts[..i])).0[..n]
  {
    assert cuts == cuts[..i] + cuts[i..];
    ConcatAppend(cuts[..i], cuts[i..]);
    DrainAppend(Concat(cuts[..i]), Concat(cuts[i..]));
  }

  /** Two ways of cutting the same bytes deliver the same frames. */
  method SameBytesSameFrames(cuts: seq<seq<byte>>, cuts': seq<seq<byte>>, stopAt: Option<nat>)
      returns (a: seq<Frame>, b: seq<Frame>)
    requires Concat(cuts) == Concat(cuts')
    ensures a == b == Upto(Drain(Concat(cuts)).0, stopAt)
  {
    var sink := new FrameSink(stopAt);
    var sink' := new FrameSink(stopAt);
    var _ := ReadFrames(cuts, Eof, sink);
    var _ := ReadFrames(cuts', Eof, sink');
    a, b := sink.delivered, sink'.delivered;
  }
}
