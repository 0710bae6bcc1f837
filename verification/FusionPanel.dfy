/** The fusion panel's collector (internal/handlers/chat/combo_fusion.go): n calls send their
    outcomes into a channel of capacity n; the collector receives until everything has settled,
    a grace timer fires after a quorum, or the hard timer fires. A protocol over steps: the calls
    and the collector interleave as they please. */
module FusionPanel {
  import opened Prelude

  /** What a call returns; Nil is Go's nil pointer. */
  datatype Outcome = Nil | Answer(ok: bool, body: string)

  predicate Succeeded(o: Outcome) {
    o.Answer? && o.ok
  }

  datatype Reason = AllSettled | Grace | HardTimeout

  datatype Collector = Collector(
    sent: set<nat>,
    channel: seq<(nat, Outcome)>,
    results: seq<Outcome>,
    settled: nat,
    okCount: nat,
    graceArmed: bool,
    returned: Option<Reason>)

  /** What happens next. Send(i) is call i finishing; the others are the branches of the select. */
  datatype Event = Send(i: nat) | Receive | GraceFires | HardFires

  /** The calls, by what each will return, and the quorum. */
  datatype Panel = Panel(outcomes: seq<Outcome>, minPanel: int)

  function Size(p: Panel): nat {
    |p.outcomes|
  }

  function Start(p: Panel): Collector {
    Collector({}, [], seq(Size(p), _ => Nil), 0, 0, false, if Size(p) == 0 then Some(AllSettled) else None)
  }

  /** Whether e can happen in c. A send blocks while the channel is full. */
  predicate Enabled(p: Panel, c: Collector, e: Event) {
    match e
    case Send(i) => i < Size(p) && i !in c.sent && |c.channel| < Size(p)
    case Receive => c.returned == None && c.channel != []
    case GraceFires => c.returned == None && c.graceArmed
    case HardFires => c.returned == None
  }

  function Step(p: Panel, c: Collector, e: Event): Collector
    requires Enabled(p, c, e)
  {
    match e
    case Send(i) => c.(sent := c.sent + {i}, channel := c.channel + [(i, p.outcomes[i])])
    case Receive =>
      var (idx, res) := c.channel[0];
      var results := if idx < |c.results| then c.results[idx := res] else c.results;
      var okCount := if Succeeded(res) then c.okCount + 1 else c.okCount;
      c.(channel := c.channel[1..], results := results, settled := c.settled + 1, okCount := okCount,
         graceArmed := c.graceArmed || (Succeeded(res) && okCount >= p.minPanel),
         returned := if c.settled + 1 >= Size(p) then Some(AllSettled) else None)
    case GraceFires => c.(returned := Some(Grace))
    case HardFires => c.(returned := Some(HardTimeout))
  }

  /** The collector after the events of run, if they can happen in that order. */
  function After(p: Panel, run: seq<Event>): Option<Collector> {
    if run == [] then Some(Start(p))
    else
      var b := After(p, run[..|run| - 1]);
      if b.Some? && Enabled(p, b.value, run[|run| - 1]) then Some(Step(p, b.value, run[|run| - 1])) else None
  }

  /** e is offered: it happens if it can. */
  function Offer(p: Panel, c: Collector, e: Event): Collector {
    if Enabled(p, c, e) then Step(p, c, e) else c
  }

  /** The collector once all of events have been offered. */
  function Play(p: Panel, c: Collector, events: seq<Event>): Collector
    decreases events
  {
    if events == [] then c else Play(p, Offer(p, c, events[0]), events[1..])
  }

  // ---------- The invariant ----------

  function Successes(rs: seq<Outcome>): nat {
    if rs == [] then 0 else Successes(rs[..|rs| - 1]) + (if Succeeded(rs[|rs| - 1]) then 1 else 0)
  }

  predicate InChannel(c: Collector, i: nat) {
    exists k :: 0 <= k < |c.channel| && c.channel[k].0 == i
  }

  /** Each call's outcome is on exactly one side: not sent yet, in the channel, or in its slot. */
  ghost predicate Sound(p: Panel, c: Collector) {
    && |c.results| == Size(p)
    && (forall i :: i in c.sent ==> i < Size(p))
    && (forall k :: 0 <= k < |c.channel| ==> c.channel[k].0 in c.sent && c.channel[k].1 == p.outcomes[c.channel[k].0])
    && (forall j, k :: 0 <= j < k < |c.channel| ==> c.channel[j].0 != c.channel[k].0)
    && (forall i :: 0 <= i < Size(p) ==>
          c.results[i] == if i in c.sent && !InChannel(c, i) then p.outcomes[i] else Nil)
    && c.settled + |c.channel| == |c.sent|
    && c.okCount == Successes(c.results)
    && (c.graceArmed <==> c.okCount >= 1 && c.okCount >= p.minPanel)
    && (c.returned == None ==> c.settled < Size(p))
    && (c.returned == Some(AllSettled) ==> c.settled == Size(p))
    && (c.returned == Some(Grace) ==> c.graceArmed)
  }

  lemma {:induction false} RunSound(p: Panel, run: seq<Event>)
    requires After(p, run).Some?
    ensures Sound(p, After(p, run).value)
  {
    if run == [] {
      InitiallySound(p);
    } else {
      RunSound(p, run[..|run| - 1]);
      StepSound(p, After(p, run[..|run| - 1]).value, run[|run| - 1]);
    }
  }

  // ---------- Main results ----------

  /** Whatever the interleaving: a slot is empty or holds that call's own outcome; if everything
      settled every slot is its call's outcome; a return by the grace timer has a quorum of
      successes in the results; and the channel never outgrows its buffer. */
  lemma CollectorIsFaithful(p: Panel, run: seq<Event>)
    requires After(p, run).Some?
    ensures var c := After(p, run).value;
      && |c.results| == Size(p)
      && (forall i :: 0 <= i < Size(p) ==> c.results[i] == Nil || c.results[i] == p.outcomes[i])
      && (c.returned == Some(AllSettled) ==> c.results == p.outcomes)
      && (c.returned == Some(Grace) ==> |Oks(c.results)| >= 1 && |Oks(c.results)| >= p.minPanel)
      && |c.channel| <= Size(p)
  {
    var c := After(p, run).value;
    RunSound(p, run);
    SentFits(p, c);
    SuccessesCount(c.results);
    if c.returned == Some(AllSettled) {
      SettledIsFaithful(p, c);
    }
  }

  /** A call that has not sent can always send at once, also long after the collector returned,
      so no goroutine is left blocked. */
  lemma LateSenderNeverBlocks(p: Panel, run: seq<Event>, i: nat)
    requires After(p, run).Some? && i < Size(p) && i !in After(p, run).value.sent
    ensures After(p, run + [Send(i)]).Some?
  {
    var c := After(p, run).value;
    RunSound(p, run);
    BoundedSet(c.sent, Size(p));
    assert (run + [Send(i)])[..|run|] == run;
  }

  /** The slots that hold a successful answer. */
  ghost function Oks(rs: seq<Outcome>): set<nat> {
    set i: nat | i < |rs| && rs[i].Answer? && rs[i].ok
  }

  /** The grace timer can fire exactly while the collector waits with a quorum in hand. */
  lemma GraceNeedsQuorum(p: Panel, run: seq<Event>)
    requires After(p, run).Some?
    ensures var c := After(p, run).value;
      After(p, run + [GraceFires]).Some? <==>
        c.returned == None && |Oks(c.results)| >= 1 && |Oks(c.results)| >= p.minPanel
  {
    RunSound(p, run);
    SuccessesCount(After(p, run).value.results);
    assert (run + [GraceFires])[..|run|] == run;
  }

  /** What has been returned is final: later events only fill the channel. */
  lemma {:induction false} ReturnIsFinal(p: Panel, run: seq<Event>, more: seq<Event>)
    requires After(p, run + more).Some? && After(p, run).Some? && After(p, run).value.returned.Some?
    ensures var c, d := After(p, run).value, After(p, run + more).value;
      d.results == c.results && d.returned == c.returned
  {
    if more == [] {
      assert run + more == run;
    } else {
      var init := more[..|more| - 1];
      assert (run + more)[..|run + more| - 1] == run + init;
      ReturnIsFinal(p, run, init);
    }
  }

  /** The collector has at most n receives and one timer to go through. */
  lemma {:induction false} RunsAreShort(p: Panel, run: seq<Event>)
    requires After(p, run).Some?
    ensures var c := After(p, run).value;
      |run| <= |c.sent| + c.settled + (if c.returned.Some? then 1 else 0) && |run| <= 2 * Size(p) + 1
  {
    if run != [] {
      var b := After(p, run[..|run| - 1]).value;
      RunsAreShort(p, run[..|run| - 1]);
      RunSound(p, run[..|run| - 1]);
      StepSound(p, b, run[|run| - 1]);
    }
    RunSound(p, run);
    SentFits(p, After(p, run).value);
  }

  // ---------- The loop ----------

  /** The receive branch of the select; ok says whether the outcome is a success. */
  method ReceiveOne(p: Panel, was: seq<Outcome>, idx: nat, res: Outcome, okCount: nat, graceTimeout: bool)
      returns (results: seq<Outcome>, oks: nat, grace: bool)
    requires idx < |was|
    ensures results == was[idx := res]
    ensures oks == if Succeeded(res) then okCount + 1 else okCount
    ensures grace == (graceTimeout || (Succeeded(res) && oks >= p.minPanel))
  {
    results, oks, grace := was[idx := res], okCount, graceTimeout;
    if res.Answer? && res.ok {
      oks := oks + 1;
      if oks >= p.minPanel && !graceTimeout {
        grace := true;
      }
    }
  }

  /** collectPanel, with the calls running beside it: ch is the channel and sent the calls that have
      put their outcome into it. events is what the environment offers, in its order: a call that
      finishes, a value that is ready, a timer that goes off; what cannot happen when it is offered
      does not. Without a result the events are used up and the collector still waits. */
  method CollectPanel(p: Panel, events: seq<Event>) returns (results: Option<seq<Outcome>>)
    ensures var c := Play(p, Start(p), events);
      results == if c.returned.Some? then Some(c.results) else None
  {
    hide Sound, Play;
    var n := |p.outcomes|;
    var slots := seq(n, _ => Nil);
    ghost var c := Start(p);
    if n == 0 {
      PlayReturned(p, c, events);
      return Some(slots);
    }
    var sent: set<nat>, ch: seq<(nat, Outcome)> := {}, [];
    var settled: nat, okCount: nat, graceTimeout := 0, 0, false;
    InitiallySound(p);
    for i := 0 to |events|
      invariant settled < n && Sound(p, c)
      invariant c == Collector(sent, ch, slots, settled, okCount, graceTimeout, None)
      invariant Play(p, Start(p), events) == Play(p, c, events[i..])
    {
      var e := events[i];
      PlayNext(p, c, events, i);
      match e {
        case Send(k) =>
          if k < n && k !in sent && |ch| < n {
            sent, ch := sent + {k}, ch + [(k, p.outcomes[k])];
          }
        case Receive =>
          if ch != [] {
            slots, okCount, graceTimeout := ReceiveOne(p, slots, ch[0].0, ch[0].1, okCount, graceTimeout);
            settled, ch := settled + 1, ch[1..];
          }
        case GraceFires =>
          if graceTimeout {
            PlayReturned(p, Offer(p, c, e), events[i + 1..]);
            return Some(slots);
          }
        case HardFires =>
          PlayReturned(p, Offer(p, c, e), events[i + 1..]);
          return Some(slots);
      }
      c := Offer(p, c, e);
      if settled == n {
        PlayReturned(p, c, events[i + 1..]);
        return Some(slots);
      }
    }
    PlayOver(p, c, events);
    return None;
  }

  // ---------- What a schedule comes to ----------

  lemma PlayOver(p: Panel, c: Collector, events: seq<Event>)
    ensures Play(p, c, events[|events|..]) == c
  {
  }

  lemma PlayNext(p: Panel, c: Collector, events: seq<Event>, i: nat)
    requires i < |events| && Sound(p, c)
    ensures Play(p, c, events[i..]) == Play(p, Offer(p, c, events[i]), events[i + 1..])
    ensures Sound(p, Offer(p, c, events[i]))
    ensures events[i].Receive? && c.channel != [] ==> c.channel[0].0 < |c.results|
  {
    if Enabled(p, c, events[i]) {
      StepSound(p, c, events[i]);
    }
  }

  /** After the return only the calls go on. */
  lemma {:induction false} PlayReturned(p: Panel, c: Collector, events: seq<Event>)
    requires c.returned.Some?
    ensures Play(p, c, events).results == c.results && Play(p, c, events).returned == c.returned
    decreases events
  {
    if events != [] {
      PlayReturned(p, Offer(p, c, events[0]), events[1..]);
    }
  }

  /** Those of the events that happened. */
  function Happened(p: Panel, c: Collector, events: seq<Event>): seq<Event>
    decreases events
  {
    if events == [] then []
    else (if Enabled(p, c, events[0]) then [events[0]] else []) + Happened(p, Offer(p, c, events[0]), events[1..])
  }

  lemma {:induction false} PlayGoesOn(p: Panel, run: seq<Event>, c: Collector, events: seq<Event>)
    requires After(p, run) == Some(c)
    ensures After(p, run + Happened(p, c, events)) == Some(Play(p, c, events))
    decreases events
  {
    if events == [] {
      assert run + [] == run;
    } else {
      var e := events[0];
      var now := if Enabled(p, c, e) then [e] else [];
      assert (run + [e])[..|run|] == run && run + [] == run;
      PlayGoesOn(p, run + now, Offer(p, c, e), events[1..]);
      Assoc(run, now, Happened(p, Offer(p, c, e), events[1..]));
    }
  }

  /** What is played is a run, so all that holds of runs holds of what CollectPanel returns. */
  lemma PlayIsRun(p: Panel, events: seq<Event>)
    ensures After(p, Happened(p, Start(p), events)) == Some(Play(p, Start(p), events))
  {
    PlayGoesOn(p, [], Start(p), events);
    assert [] + Happened(p, Start(p), events) == Happened(p, Start(p), events);
  }

  predicate IsTimer(e: Event) {
    e.GraceFires? || e.HardFires?
  }

  function Sends(events: seq<Event>): nat {
    if events == [] then 0 else (if events[0].Send? then 1 else 0) + Sends(events[1..])
  }

  function Receives(events: seq<Event>): nat {
    if events == [] then 0 else (if events[0].Receive? then 1 else 0) + Receives(events[1..])
  }

  /** Every value that is sent can be received behind it: of any last part of the schedule. */
  predicate Drains(events: seq<Event>) {
    forall k :: 0 <= k <= |events| ==> Receives(events[k..]) >= Sends(events[k..])
  }

  /** No timer goes off, and every call finishes once. */
  ghost predicate Undisturbed(p: Panel, events: seq<Event>) {
    && (forall e :: e in events ==> !IsTimer(e) && (e.Send? ==> e.i < Size(p)))
    && (forall j, k :: 0 <= j < k < |events| && events[j].Send? ==> events[j] != events[k])
    && (forall i: nat :: i < Size(p) ==> Send(i) in events)
  }

  /** In a schedule without timers in which every call finishes once, everything settles if and only if
      every value that is sent can be received behind it; and then every call's own outcome is returned,
      whatever comes afterwards. */
  lemma AllAnswersArriveIff(p: Panel, events: seq<Event>, more: seq<Event>)
    requires Undisturbed(p, events)
    ensures Play(p, Start(p), events).returned == if Drains(events) then Some(AllSettled) else None
    ensures Drains(events) ==>
      var c := Play(p, Start(p), events + more);
      c.results == p.outcomes && c.returned == Some(AllSettled)
  {
    DrainsIff(events);
    UndisturbedEnds(p, events);
    EndsFor(p, events, more);
  }

  lemma UndisturbedEnds(p: Panel, events: seq<Event>)
    requires Undisturbed(p, events)
    ensures var c := Play(p, Start(p), events);
      Sound(p, c) && c.returned == if Backlog(0, events) == 0 then Some(AllSettled) else None
  {
    InitiallySound(p);
    assert forall k :: 0 <= k < |events| ==> events[k] in events;
    PlayKeeps(p, Start(p), events);
    AllSent(p, Play(p, Start(p), events));
  }

  lemma EndsFor(p: Panel, events: seq<Event>, more: seq<Event>)
    requires Sound(p, Play(p, Start(p), events))
    ensures Play(p, Start(p), events).returned == Some(AllSettled) ==>
      var c := Play(p, Start(p), events + more);
      c.results == p.outcomes && c.returned == Some(AllSettled)
  {
    var c := Play(p, Start(p), events);
    if c.returned == Some(AllSettled) {
      SettledIsFaithful(p, c);
      PlayReturned(p, c, more);
      PlayAppend(p, Start(p), events, more);
    }
  }

  /** How many values wait in a channel that held q of them. */
  function Backlog(q: nat, events: seq<Event>): nat
    decreases events
  {
    if events == [] then q
    else
      match events[0]
      case Send(_) => Backlog(q + 1, events[1..])
      case Receive => Backlog(if q == 0 then 0 else q - 1, events[1..])
      case _ => Backlog(q, events[1..])
  }

  lemma {:induction false} BacklogZeroIff(q: nat, events: seq<Event>)
    ensures Backlog(q, events) == 0 <==> Drains(events) && Receives(events) >= q + Sends(events)
    decreases events
  {
    if events == [] {
    } else {
      var rest := events[1..];
      assert forall k :: 0 <= k <= |rest| ==> rest[k..] == events[k + 1..];
      assert forall k :: 1 <= k <= |events| ==> events[k..] == rest[k - 1..];
      assert events[0..] == events;
      match events[0] {
        case Send(_) => BacklogZeroIff(q + 1, rest);
        case Receive => BacklogZeroIff(if q == 0 then 0 else q - 1, rest);
        case _ => BacklogZeroIff(q, rest);
      }
    }
  }

  lemma DrainsIff(events: seq<Event>)
    ensures Backlog(0, events) == 0 <==> Drains(events)
  {
    BacklogZeroIff(0, events);
    assert events[0..] == events;
  }

  /** Before any timer the collector either waits or has everything. */
  predicate Untimed(p: Panel, c: Collector) {
    if c.settled < Size(p) then c.returned == None else c.returned == Some(AllSettled)
  }

  /** What is left of a schedule: the calls that finish in it have not done so yet. */
  ghost predicate Ahead(p: Panel, c: Collector, events: seq<Event>) {
    && (forall k :: 0 <= k < |events| ==> !IsTimer(events[k]))
    && (forall k :: 0 <= k < |events| && events[k].Send? ==> events[k].i < Size(p) && events[k].i !in c.sent)
    && (forall j, k :: 0 <= j < k < |events| && events[j].Send? ==> events[j] != events[k])
  }

  lemma {:induction false} PlayKeeps(p: Panel, c: Collector, events: seq<Event>)
    requires Sound(p, c) && Untimed(p, c) && Ahead(p, c, events)
    ensures var d := Play(p, c, events);
      && Sound(p, d) && Untimed(p, d) && |d.channel| == Backlog(|c.channel|, events)
      && (forall i: nat :: i in c.sent || Send(i) in events ==> i in d.sent)
    decreases events
  {
    if events != [] {
      var d := Offer(p, c, events[0]);
      OfferKeeps(p, c, events[0]);
      assert forall k :: 0 <= k < |events[1..]| ==> events[1..][k] == events[k + 1];
      PlayKeeps(p, d, events[1..]);
    }
  }

  lemma OfferKeeps(p: Panel, c: Collector, e: Event)
    requires Sound(p, c) && Untimed(p, c) && !IsTimer(e) && (e.Send? ==> e.i < Size(p) && e.i !in c.sent)
    ensures var d := Offer(p, c, e);
      && Sound(p, d) && Untimed(p, d) && d.sent == (if e.Send? then c.sent + {e.i} else c.sent)
      && |d.channel| == (if e.Send? then |c.channel| + 1 else if c.channel == [] then 0 else |c.channel| - 1)
  {
    SentFits(p, c);
    if e.Send? {
      RoomToSend(p, c, e.i);
    }
    if Enabled(p, c, e) {
      StepSound(p, c, e);
      SentFits(p, Step(p, c, e));
    }
  }

  lemma RoomToSend(p: Panel, c: Collector, i: nat)
    requires Sound(p, c) && i < Size(p) && i !in c.sent
    ensures Enabled(p, c, Send(i))
  {
    BoundedSet(c.sent, Size(p));
  }

  lemma {:induction false} PlayAppend(p: Panel, c: Collector, a: seq<Event>, b: seq<Event>)
    ensures Play(p, c, a + b) == Play(p, Play(p, c, a), b)
    decreases a
  {
    if a == [] {
      assert a + b == b;
    } else {
      assert (a + b)[0] == a[0] && (a + b)[1..] == a[1..] + b;
      PlayAppend(p, Offer(p, c, a[0]), a[1..], b);
    }
  }

  lemma AllSent(p: Panel, c: Collector)
    requires Sound(p, c) && forall i: nat :: i < Size(p) ==> i in c.sent
    ensures |c.sent| == Size(p) && c.settled == Size(p) - |c.channel|
  {
    BoundedSet(c.sent, Size(p));
    Covers(c.sent, Size(p));
  }

  lemma {:induction false} Covers(s: set<nat>, n: nat)
    requires forall i: nat :: i < n ==> i in s
    ensures |s| >= n
  {
    if n > 0 {
      Covers(s - {n - 1}, n - 1);
    }
  }

  lemma SettledIsFaithful(p: Panel, c: Collector)
    requires Sound(p, c) && c.returned == Some(AllSettled)
    ensures c.results == p.outcomes
  {
    SentFits(p, c);
    BoundedSet(c.sent, Size(p));
    assert c.channel == [];
  }

  lemma StepSound(p: Panel, c: Collector, e: Event)
    requires Sound(p, c) && Enabled(p, c, e)
    ensures Sound(p, Step(p, c, e))
    ensures e.Send? ==> |Step(p, c, e).sent| == |c.sent| + 1 && Step(p, c, e).settled == c.settled
  {
    match e {
      case Send(i) => SendSound(p, c, i);
      case Receive => ReceiveSound(p, c);
      case _ =>
        assert forall n :: InChannel(Step(p, c, e), n) <==> InChannel(c, n);
    }
  }

  lemma SendSound(p: Panel, c: Collector, i: nat)
    requires Sound(p, c) && Enabled(p, c, Send(i))
    ensures Sound(p, Step(p, c, Send(i)))
  {
    var d := Step(p, c, Send(i));
    assert d.channel[|c.channel|] == (i, p.outcomes[i]);
    forall n: nat | n < Size(p)
      ensures InChannel(d, n) <==> InChannel(c, n) || n == i
    {
      if InChannel(c, n) {
        var k :| 0 <= k < |c.channel| && c.channel[k].0 == n;
        assert d.channel[k].0 == n;
      }
    }
  }

  lemma ReceiveSound(p: Panel, c: Collector)
    requires Sound(p, c) && Enabled(p, c, Receive)
    ensures Sound(p, Step(p, c, Receive))
  {
    var idx := c.channel[0].0;
    ReceivedLeaves(c, Step(p, c, Receive));
    SuccessesUpdate(c.results, idx, p.outcomes[idx]);
    BoundedSet(c.sent, Size(p));
  }

  /** Only the outcome that was first leaves the channel. */
  lemma ReceivedLeaves(c: Collector, d: Collector)
    requires c.channel != [] && d.channel == c.channel[1..]
    requires forall j, k :: 0 <= j < k < |c.channel| ==> c.channel[j].0 != c.channel[k].0
    ensures InChannel(c, c.channel[0].0) && !InChannel(d, c.channel[0].0)
    ensures forall n: nat :: n != c.channel[0].0 ==> (InChannel(d, n) <==> InChannel(c, n))
  {
    forall n: nat | n != c.channel[0].0
      ensures InChannel(d, n) <==> InChannel(c, n)
    {
      if InChannel(c, n) {
        var k :| 0 <= k < |c.channel| && c.channel[k].0 == n;
        assert d.channel[k - 1].0 == n;
      }
      if InChannel(d, n) {
        var k :| 0 <= k < |d.channel| && d.channel[k].0 == n;
        assert c.channel[k + 1].0 == n;
      }
    }
  }

  lemma {:induction false} SuccessesCount(rs: seq<Outcome>)
    ensures Successes(rs) == |Oks(rs)|
  {
    if rs != [] {
      var n := |rs| - 1;
      SuccessesCount(rs[..n]);
      assert Oks(rs) == Oks(rs[..n]) + (if rs[n].Answer? && rs[n].ok then {n} else {});
    }
  }

  lemma InitiallySound(p: Panel)
    ensures Sound(p, Start(p))
  {
    NilsHaveNoSuccess(Start(p).results);
  }

  lemma SentFits(p: Panel, c: Collector)
    requires Sound(p, c)
    ensures |c.sent| <= Size(p) && c.settled <= Size(p) && |c.channel| <= Size(p)
  {
    BoundedSet(c.sent, Size(p));
  }

  lemma {:induction false} NilsHaveNoSuccess(rs: seq<Outcome>)
    requires forall i :: 0 <= i < |rs| ==> rs[i] == Nil
    ensures Successes(rs) == 0
  {
    if rs != [] {
      NilsHaveNoSuccess(rs[..|rs| - 1]);
    }
  }

  lemma {:induction false} SuccessesUpdate(rs: seq<Outcome>, i: nat, o: Outcome)
    requires i < |rs| && rs[i] == Nil
    ensures Successes(rs[i := o]) == Successes(rs) + (if Succeeded(o) then 1 else 0)
  {
    var init := rs[..|rs| - 1];
    if i == |rs| - 1 {
      assert rs[i := o][..|rs| - 1] == init;
    } else {
      assert rs[i := o][..|rs| - 1] == init[i := o];
      SuccessesUpdate(init, i, o);
    }
  }

  lemma {:induction false} BoundedSet(s: set<nat>, n: nat)
    requires forall i :: i in s ==> i < n
    ensures |s| <= n
    ensures |s| == n ==> forall i :: 0 <= i < n ==> i in s
    decreases n
  {
    if n > 0 {
      BoundedSet(s - {n - 1}, n - 1);
      if |s| == n {
        assert n - 1 in s;
        forall i | 0 <= i < n
          ensures i in s
        {
          if i < n - 1 {
            assert i in s - {n - 1};
          }
        }
      }
    } else {
      assert s == {};
    }
  }
}
