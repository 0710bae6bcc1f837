/** In-flight counters and the ring of recent requests (internal/usagetracker/tracker.go). */
module InFlight {
  datatype Request = Request(model: string, provider: string, connection: string)
  {
    function Key(): string {
      if provider != "" then model + " (" + provider + ")" else model
    }
  }

  /** The two calls a request makes: one when it starts, one when it ends. */
  datatype Event = Start(r: Request) | Finish(r: Request, isError: bool)

  /** One completed request, as the dashboard shows it. */
  datatype Recent = Recent(timestamp: string, model: string, provider: string, promptTokens: int,
                           completionTokens: int, cachedTokens: int, status: string)

  type Counts = map<string, int>

  datatype Counters = Counters(byModel: Counts, byAccount: map<string, Counts>)

  const NONE := Counters(map[], map[])

  function CountAt(m: Counts, k: string): int {
    if k in m then m[k] else 0
  }

  function AccountAt(m: map<string, Counts>, c: string): Counts {
    if c in m then m[c] else map[]
  }

  function Adjust(m: Counts, k: string, delta: int): Counts {
    if CountAt(m, k) + delta <= 0 then m - {k} else m[k := CountAt(m, k) + delta]
  }

  function AdjustAccount(m: map<string, Counts>, c: string, k: string, delta: int): map<string, Counts> {
    var counts := Adjust(AccountAt(m, c), k, delta);
    if counts == map[] then m - {c} else m[c := counts]
  }

  function Track(s: Counters, r: Request, delta: int): Counters {
    Counters(Adjust(s.byModel, r.Key(), delta),
             if r.connection == "" then s.byAccount else AdjustAccount(s.byAccount, r.connection, r.Key(), delta))
  }

  const RING_CAP := 50

  class Tracker {
    var byModel: Counts
    var byAccount: map<string, Counts>
    var lastErrorProvider: string
    var recentRing: seq<Recent>

    function View(): Counters
      reads this
    {
      Counters(byModel, byAccount)
    }

    constructor ()
      ensures View() == NONE && recentRing == [] && lastErrorProvider == ""
    {
      byModel, byAccount, recentRing, lastErrorProvider := map[], map[], [], "";
    }

    method TrackPending(r: Request, started: bool, isError: bool)
      modifies `byModel, `byAccount, `lastErrorProvider
      ensures View() == Track(old(View()), r, if started then 1 else -1)
      ensures lastErrorProvider ==
              if !started && isError && r.provider != "" then r.provider else old(lastErrorProvider)
    {
      var modelKey := r.model;
      if r.provider != "" {
        modelKey := r.model + " (" + r.provider + ")";
      }
      var delta := if started then 1 else -1;
      var newModelCount := CountAt(byModel, modelKey) + delta;
      if newModelCount <= 0 {
        byModel := byModel - {modelKey};
      } else {
        byModel := byModel[modelKey := newModelCount];
      }
      if r.connection != "" {
        TrackAccount(r.connection, modelKey, started, delta);
      }
      if !started && isError && r.provider != "" {
        lastErrorProvider := r.provider;
      }
    }

    method TrackAccount(connection: string, modelKey: string, started: bool, delta: int)
      requires delta == if started then 1 else -1
      modifies `byAccount
      ensures byAccount == AdjustAccount(old(byAccount), connection, modelKey, delta)
    {
      if connection !in byAccount && started {
        byAccount := byAccount[connection := map[]];
      }
      if connection in byAccount {
        var accountMap := byAccount[connection];
        var newAccCount := CountAt(accountMap, modelKey) + delta;
        if newAccCount <= 0 {
          accountMap := accountMap - {modelKey};
          byAccount := byAccount[connection := accountMap];
          if accountMap == map[] {
            byAccount := byAccount - {connection};
          }
        } else {
          accountMap := accountMap[modelKey := newAccCount];
          assert modelKey in accountMap;
          byAccount := byAccount[connection := accountMap];
        }
      }
    }

    /** One process serving any interleaving of requests. */
    method Serve(h: seq<Event>)
      requires View() == NONE
      modifies this
      ensures View() == After(h)
    {
      for i := 0 to |h|
        invariant View() == After(h[..i])
      {
        assert h[..i + 1][..i] == h[..i];
        match h[i]
        case Start(r) => TrackPending(r, true, false);
        case Finish(r, isError) => TrackPending(r, false, isError);
      }
      assert h[..|h|] == h;
    }

    method PushRecent(req: Recent)
      modifies `recentRing
      ensures |old(recentRing)| <= RING_CAP ==> recentRing == Newest([req] + old(recentRing))
    {
      if |recentRing| >= RING_CAP {
        recentRing := [req] + recentRing[..RING_CAP - 1];
      } else {
        recentRing := [req] + recentRing;
      }
    }

    /** The ring holds the latest requests, newest first, and never more than its capacity. */
    method PushAll(reqs: seq<Recent>)
      requires recentRing == []
      modifies `recentRing
      ensures |recentRing| == if |reqs| < 50 then |reqs| else 50
      ensures forall i :: 0 <= i < |recentRing| ==> recentRing[i] == reqs[|reqs| - 1 - i]
    {
      for n := 0 to |reqs|
        invariant |recentRing| == if n < RING_CAP then n else RING_CAP
        invariant forall i :: 0 <= i < |recentRing| ==> recentRing[i] == reqs[n - 1 - i]
      {
        ghost var was := recentRing;
        PushRecent(reqs[n]);
        assert forall i :: 0 < i < |recentRing| ==> recentRing[i] == was[i - 1];
      }
    }
  }

  function Newest(s: seq<Recent>): seq<Recent> {
    if |s| <= RING_CAP then s else s[..RING_CAP]
  }

  function After(h: seq<Event>): Counters {
    if h == [] then NONE
    else
      var s, e := After(h[..|h| - 1]), h[|h| - 1];
      Track(s, e.r, if e.Start? then 1 else -1)
  }

  /** One request is counted under its model, and the provider in brackets if it has one, and on its
      connection if it has one; its finish takes it off again. */
  lemma OneInFlight(r: Request, isError: bool)
    ensures var key := if r.provider == "" then r.model else r.model + " (" + r.provider + ")";
      var accounts := if r.connection == "" then map[] else map[r.connection := map[key := 1]];
      After([Start(r)]) == Counters(map[key := 1], accounts)
    ensures After([Start(r), Finish(r, isError)]) == Counters(map[], map[])
  {
    var s, f := [Start(r)], [Start(r), Finish(r, isError)];
    assert s[..0] == [] && f[..1] == s;
    assert After(s) == Track(NONE, r, 1) && After(f) == Track(After(s), r, -1);
    assert r.Key() in map[r.Key() := 1];
  }

  // ---------- What is really running ----------

  function Without(rs: seq<Request>, r: Request): seq<Request> {
    if rs == [] then []
    else if rs[0] == r then rs[1..]
    else [rs[0]] + Without(rs[1..], r)
  }

  /** The requests in flight after h. */
  function Running(h: seq<Event>): seq<Request> {
    if h == [] then []
    else
      var rs, e := Running(h[..|h| - 1]), h[|h| - 1];
      if e.Start? then rs + [e.r] else Without(rs, e.r)
  }

  /** Every finish ends a request that is in flight. */
  ghost predicate Matched(h: seq<Event>) {
    forall i :: 0 <= i < |h| && h[i].Finish? ==> h[i].r in Running(h[..i])
  }

  /** A question about a request: whose key is it, and on which connection is it? */
  datatype Query = OfKey(key: string) | On(connection: string, key: string)

  predicate Asks(w: Query, r: Request) {
    r.Key() == w.key && (w.On? ==> r.connection == w.connection)
  }

  function Count(rs: seq<Request>, w: Query): nat {
    if rs == [] then 0 else (if Asks(w, rs[0]) then 1 else 0) + Count(rs[1..], w)
  }

  lemma {:induction false} CountSnoc(rs: seq<Request>, r: Request, w: Query)
    ensures Count(rs + [r], w) == Count(rs, w) + if Asks(w, r) then 1 else 0
  {
    if rs == [] {
      assert ([] + [r])[1..] == [];
    } else {
      assert (rs + [r])[1..] == rs[1..] + [r];
      CountSnoc(rs[1..], r, w);
    }
  }

  lemma {:induction false} CountWithout(rs: seq<Request>, r: Request, w: Query)
    requires r in rs
    ensures Count(Without(rs, r), w) == Count(rs, w) - if Asks(w, r) then 1 else 0
  {
    if rs[0] != r {
      assert ([rs[0]] + Without(rs[1..], r))[1..] == Without(rs[1..], r);
      CountWithout(rs[1..], r, w);
    }
  }

  lemma {:induction false} CountedIsThere(rs: seq<Request>, w: Query)
    ensures Count(rs, w) > 0 <==> exists r :: r in rs && Asks(w, r)
  {
    if rs != [] {
      CountedIsThere(rs[1..], w);
      assert rs == [rs[0]] + rs[1..];
    }
  }

  /** The counter a question is about. */
  function Counter(s: Counters, w: Query): int {
    match w
    case OfKey(k) => CountAt(s.byModel, k)
    case On(c, k) => CountAt(AccountAt(s.byAccount, c), k)
  }

  /** Nothing is stored that counts nothing. */
  ghost predicate Tidy(s: Counters) {
    && (forall k :: k in s.byModel ==> s.byModel[k] > 0)
    && (forall c :: c in s.byAccount ==> c != "" && s.byAccount[c] != map[])
    && (forall c, k :: c in s.byAccount && k in s.byAccount[c] ==> s.byAccount[c][k] > 0)
  }

  /** Requests without a connection are not counted by account. */
  predicate IsCounted(w: Query) {
    w.On? ==> w.connection != ""
  }

  ghost predicate Exact(s: Counters, rs: seq<Request>) {
    Tidy(s) && forall w :: IsCounted(w) ==> Counter(s, w) == Count(rs, w)
  }

  lemma TrackIsTidy(s: Counters, r: Request, delta: int)
    requires Tidy(s)
    ensures Tidy(Track(s, r, delta))
  {
  }

  // ---------- Main results ----------

  /** In any interleaving of requests the counters are exact: byModel[k] is the number in flight
      with key k, byAccount[c][k] the number of those on connection c, and nothing else is kept. */
  lemma {:induction false} CountersAreExact(h: seq<Event>)
    requires Matched(h)
    ensures Exact(After(h), Running(h))
  {
    if h != [] {
      var init, e := h[..|h| - 1], h[|h| - 1];
      forall i | 0 <= i < |init| && init[i].Finish?
        ensures init[i].r in Running(init[..i])
      {
        assert init[i] == h[i] && init[..i] == h[..i];
      }
      CountersAreExact(init);
      ExactStep(After(init), Running(init), e);
    }
  }

  lemma TrackMoves(s: Counters, r: Request, delta: int, w: Query)
    requires Tidy(s) && delta >= -1 && IsCounted(w)
    ensures var c := Counter(s, w) + if Asks(w, r) then delta else 0;
      Counter(Track(s, r, delta), w) == if c < 0 then 0 else c
  {
  }

  lemma ExactStep(s: Counters, rs: seq<Request>, e: Event)
    requires Exact(s, rs) && (e.Finish? ==> e.r in rs)
    ensures Exact(Track(s, e.r, if e.Start? then 1 else -1), if e.Start? then rs + [e.r] else Without(rs, e.r))
  {
    var delta := if e.Start? then 1 else -1;
    TrackIsTidy(s, e.r, delta);
    forall w | IsCounted(w)
      ensures Counter(Track(s, e.r, delta), w) == Count(if e.Start? then rs + [e.r] else Without(rs, e.r), w)
    {
      TrackMoves(s, e.r, delta, w);
      assert Counter(s, w) == Count(rs, w);
      if e.Start? {
        CountSnoc(rs, e.r, w);
      } else {
        CountWithout(rs, e.r, w);
      }
    }
  }

  /** A key is listed if and only if a request with that key is in flight; so when nothing is,
      both maps are empty. */
  lemma ListedIffRunning(h: seq<Event>, w: Query)
    requires Matched(h) && IsCounted(w)
    ensures var s := After(h);
      var listed := if w.OfKey? then w.key in s.byModel else w.key in AccountAt(s.byAccount, w.connection);
      listed <==> exists r :: r in Running(h) && Asks(w, r)
  {
    CountersAreExact(h);
    CountedIsThere(Running(h), w);
    assert Counter(After(h), w) == Count(Running(h), w);
  }

  lemma IdleIsEmpty(h: seq<Event>)
    requires Matched(h) && Running(h) == []
    ensures After(h) == NONE
  {
    CountersAreExact(h);
    var s := After(h);
    forall k
      ensures k !in s.byModel
    {
      ListedIffRunning(h, OfKey(k));
    }
    forall c
      ensures c !in s.byAccount
    {
      if c in s.byAccount {
        var k :| k in s.byAccount[c];
        ListedIffRunning(h, On(c, k));
        assert false;
      }
    }
  }

  /** A finish that matches no running request does no harm if and only if no running request has
      its key: otherwise it uncounts somebody else's. */
  lemma StrayFinishIsHarmlessIff(s: Counters, rs: seq<Request>, r: Request)
    requires Exact(s, rs) && r !in rs
    ensures Exact(Track(s, r, -1), rs) <==> forall x :: x in rs ==> x.Key() != r.Key()
  {
    TrackIsTidy(s, r, -1);
    var mine := OfKey(r.Key());
    CountedIsThere(rs, mine);
    assert Counter(s, mine) == Count(rs, mine);
    if Count(rs, mine) == 0 {
      forall w | IsCounted(w)
        ensures Counter(Track(s, r, -1), w) == Count(rs, w)
      {
        CountedIsThere(rs, w);
        assert Counter(s, w) == Count(rs, w);
      }
    }
  }

  /** The smallest case that does harm: a request is running on one connection, and a finish with its
      key comes for another. */
  lemma StrayFinishUncounts(model: string, provider: string, here: string, there: string)
    requires here != there
    ensures var running, stray := Request(model, provider, here), Request(model, provider, there);
      && Exact(After([Start(running)]), [running])
      && !Exact(Track(After([Start(running)]), stray, -1), [running])
  {
    var running, stray := Request(model, provider, here), Request(model, provider, there);
    var h := [Start(running)];
    assert h[..0] == [] && [] + [running] == [running];
    assert Running(h) == [running];
    CountersAreExact(h);
    assert running in [running];
    StrayFinishIsHarmlessIff(After(h), [running], stray);
  }
}
