/** The combo loop (internal/handlers/chat/combo.go, connections.go): try every model of a combo,
    each on up to ten connections, and the whole list at most twice. Everything the loop does
    not control (time, other requests, the upstream) is nondeterministic. */
module ComboFallback {
  import opened Prelude
  import opened Backoff

  datatype Outcome = Delivered | Upstream(status: int, text: string, retryAfter: bool) | Broken

  /** What an entry resolves to; connectionID is set for entries pinned to one connection. */
  datatype ModelInfo = ModelInfo(provider: string, model: string, connectionID: string, noAuth: bool)

  /** One request sent upstream. conn is "" for providers that need no account; the outcome of a
      failed one is not examined when the client has left in the meantime. */
  datatype Forward = Forward(pass: nat, conn: string, model: string, pinned: bool, locked: bool, outcome: Outcome,
                             examined: bool)

  predicate FailedRetryably(f: Forward) {
    f.examined && f.outcome.Upstream? && Retryable(f.outcome.status) && f.conn != ""
  }

  /** The status a client is told when o is the last error. */
  function StatusOf(o: Outcome): int {
    match o
    case Delivered => 200
    case Upstream(status, _, _) => status
    case Broken => 502
  }

  /** What a forward makes the loop lock: its connection for its model, when it is answered with one of six
      statuses while the client is there to see, and nothing otherwise. */
  function LockedBy(f: Forward): (r: seq<(string, string)>)
    ensures r == [(f.conn, f.model)] <==> f.examined && f.conn != "" && f.outcome.Upstream?
                                           && f.outcome.status in {401, 403, 429, 502, 503, 504}
  {
    if FailedRetryably(f) then [(f.conn, f.model)] else []
  }

  /** And what it puts on the exclusion list. */
  function ExcludedBy(f: Forward): seq<string> {
    if FailedRetryably(f) then [f.conn] else []
  }

  function LocksOf(log: seq<Forward>): seq<(string, string)> {
    if log == [] then [] else LocksOf(log[..|log| - 1]) + LockedBy(log[|log| - 1])
  }

  // ---------- What the loop asks and is told ----------

  /** One answer of the surroundings. A wait is asked for with what is known of a Retry-After: moment is
      the whole seconds until it, if it can be read. */
  datatype Answer =
    | Resolved(entry: string, info: Option<ModelInfo>)
    | Listed(provider: string, conns: seq<string>)
    | Available(provider: string, model: string, yes: bool)
    | LockSeen(conn: string, model: string, locked: bool)
    | ReadBack(conn: string, ok: bool)
    | Sent(conn: string, model: string, outcome: Outcome, left: bool)
    | RetryAsked(saw: bool, moment: Option<int>, seconds: int)
    | WaitEnded(timer: bool)

  /** Clock, client, connection table and upstream. trace is all they have answered. */
  class World {
    const store: LockStore
    var now: int
    var cancelled: bool
    ghost var trace: seq<Answer>

    constructor (store: LockStore)
      ensures this.store == store && trace == []
    {
      this.store, now, cancelled := store, 0, false;
      trace := [];
    }

    /** Time passes; the client may leave; other requests lock and unlock as they please. */
    method Meanwhile()
      modifies this`now, this`cancelled, store
      ensures now >= old(now) && (old(cancelled) ==> cancelled)
    {
      var d: int := *;
      var gone: bool := *;
      now, cancelled := now + (if d > 0 then d else 0), cancelled || gone;
      store.rows := *;
    }

    /** resolveModelEntry. */
    method Resolve(entry: string) returns (info: Option<ModelInfo>)
      modifies this`trace
      ensures trace == old(trace) + [Resolved(entry, info)]
    {
      info := *;
      trace := trace + [Resolved(entry, info)];
    }

    /** GetProviderConnections: the active connections, best first. */
    method Connections(provider: string) returns (conns: seq<string>)
      modifies this`trace
      ensures trace == old(trace) + [Listed(provider, conns)]
    {
      conns := *;
      trace := trace + [Listed(provider, conns)];
    }

    /** IsProviderAvailable. */
    method IsAvailable(info: ModelInfo) returns (yes: bool, ghost conns: seq<string>)
      modifies this, store
      ensures old(cancelled) ==> cancelled
      ensures trace == old(trace) + Asked(info, conns, yes)
      ensures yes <==> info.provider == "" || conns == [] || exists c :: c in conns && !store.Locked(c, info.model, now)
    {
      conns, yes := [], true;
      if info.provider != "" {
        var active := Connections(info.provider);
        Meanwhile();
        yes := store.IsProviderAvailable(active, info.model, now);
        conns := active;
      }
      trace := trace + [Available(info.provider, info.model, yes)];
    }

    /** IsConnectionModelLocked. */
    method IsLocked(conn: string, model: string) returns (locked: bool)
      modifies this`trace
      ensures locked == store.Locked(conn, model, now)
      ensures trace == old(trace) + [LockSeen(conn, model, locked)]
    {
      locked := store.Locked(conn, model, now);
      trace := trace + [LockSeen(conn, model, locked)];
    }

    /** GetProviderConnectionByID, and reading the connection's data. */
    method Readable(conn: string) returns (ok: bool)
      modifies this`trace
      ensures trace == old(trace) + [ReadBack(conn, ok)]
    {
      ok := *;
      trace := trace + [ReadBack(conn, ok)];
    }

    /** One request upstream; of a failed one it is told whether the client had left by then. */
    method Send(conn: string, model: string) returns (o: Outcome)
      modifies this, store
      ensures now >= old(now) && (old(cancelled) ==> cancelled)
      ensures trace == old(trace) + [Sent(conn, model, o, o != Delivered && cancelled)]
    {
      Meanwhile();
      o := *;
      if o == Delivered {
        store.UnlockConnectionModel(conn, model);
      }
      trace := trace + [Sent(conn, model, o, o != Delivered && cancelled)];
    }

    /** comboRetryAfter: no wait without a Retry-After that can be read, at least a second otherwise, and
        none again when that is more than eight. */
    method RetryWait(sawRetryAfter: bool) returns (seconds: int, ghost moment: Option<int>)
      modifies this`trace
      ensures trace == old(trace) + [RetryAsked(sawRetryAfter, moment, seconds)]
      ensures 0 <= seconds <= 8
      ensures seconds > 0 <==> sawRetryAfter && moment.Some? && moment.value <= 8
      ensures seconds > 0 ==> seconds == if moment.value < 1 then 1 else moment.value
    {
      var until: Option<int> := *;
      seconds := 0;
      if sawRetryAfter && until.Some? {
        seconds := until.value;
        if seconds < 1 {
          seconds := 1;
        }
        if seconds > 8 {
          seconds := 0;
        }
      }
      moment := until;
      trace := trace + [RetryAsked(sawRetryAfter, until, seconds)];
    }

    /** The wait ends with the timer or with the client, and with either when both are ready. */
    method Wait(seconds: int) returns (timer: bool)
      modifies this, store
      ensures trace == old(trace) + [WaitEnded(timer)]
      ensures (old(cancelled) ==> cancelled) && (!timer ==> cancelled)
    {
      Meanwhile();
      timer := *;
      timer := timer || !cancelled;
      trace := trace + [WaitEnded(timer)];
    }
  }

  /** What asking whether a provider is available leaves in the trace. */
  function Asked(info: ModelInfo, conns: seq<string>, yes: bool): seq<Answer> {
    (if info.provider == "" then [] else [Listed(info.provider, conns)]) + [Available(info.provider, info.model, yes)]
  }

  // ---------- How an entry is gone through ----------

  /** This answer takes connection id out of the rest of the pass: it was seen locked, or a request on it
      failed retryably. */
  predicate SpentBy(a: Answer, id: string) {
    || (a.LockSeen? && a.locked && a.conn == id)
    || (a.Sent? && a.conn == id && !a.left && a.outcome.Upstream? && Retryable(a.outcome.status))
  }

  ghost predicate AllSpent(past: seq<Answer>, ids: seq<string>) {
    forall id :: id in ids ==> exists a :: a in past && SpentBy(a, id)
  }

  /** The first n connections were passed over: each is in ids, or was just seen locked. */
  ghost predicate PassedOver(conns: seq<string>, ids: seq<string>, model: string, n: nat, looks: seq<Answer>) {
    n <= |conns| &&
    forall i :: 0 <= i < n ==> conns[i] in ids || (model != "" && LockSeen(conns[i], model, true) in looks)
  }

  /** Nothing is sent while a connection is being selected. */
  ghost predicate Quiet(looks: seq<Answer>) {
    forall a :: a in looks ==> !a.Sent?
  }

  /** What the looks at the connections of info say when conn is chosen, and can be read or not. It is the
      pinned one; or the first that is neither in ids nor locked. */
  ghost predicate Chosen(info: ModelInfo, ids: seq<string>, conn: string, ok: bool, looks: seq<Answer>) {
    Quiet(looks) && looks != [] && looks[|looks| - 1] == ReadBack(conn, ok) &&
    if info.connectionID != "" then conn == info.connectionID && |looks| == 1
    else
      && looks[0].Listed? && looks[0].provider == info.provider
      && var conns := looks[0].conns;
         exists n: nat :: n < |conns| && PassedOver(conns, ids, info.model, n, looks)
           && conns[n] == conn && conn !in ids && (info.model != "" ==> LockSeen(conn, info.model, false) in looks)
  }

  /** And when none is left: all are in ids or locked. */
  ghost predicate AllPassedOver(info: ModelInfo, ids: seq<string>, looks: seq<Answer>) {
    && Quiet(looks) && info.connectionID == "" && looks != [] && looks[0].Listed? && looks[0].provider == info.provider
    && PassedOver(looks[0].conns, ids, info.model, |looks[0].conns|, looks)
  }

  /** Nothing can be selected: all connections were spent before, or are locked; or the one to be taken
      cannot be read. */
  ghost predicate NoneLeft(info: ModelInfo, past: seq<Answer>, ids: seq<string>, looks: seq<Answer>) {
    && !info.noAuth && AllSpent(past, ids)
    && (AllPassedOver(info, ids, looks) || exists conn :: Chosen(info, ids, conn, false, looks))
  }

  /** One of the up to ten rounds over an entry: the looks after which conn was chosen, and whether it was
      then seen locked or used, to no avail. */
  datatype Round = Round(ids: seq<string>, looks: seq<Answer>, conn: string, locked: bool, outcome: Outcome)

  function Used(r: Round, model: string): seq<Answer> {
    (if r.conn == "" then [] else [LockSeen(r.conn, model, r.locked)])
    + (if r.locked then [] else [Sent(r.conn, model, r.outcome, false)])
  }

  function Played(r: Round, model: string): seq<Answer> {
    r.looks + Used(r, model)
  }

  ghost predicate RoundFits(info: ModelInfo, past: seq<Answer>, r: Round) {
    && (if info.noAuth then r.conn == "" && r.looks == []
        else AllSpent(past, r.ids) && Chosen(info, r.ids, r.conn, true, r.looks))
    && (if r.locked then r.conn != "" else r.outcome != Delivered)
  }

  function PlayedAll(rounds: seq<Round>, model: string): seq<Answer> {
    if rounds == [] then []
    else PlayedAll(rounds[..|rounds| - 1], model) + Played(rounds[|rounds| - 1], model)
  }

  ghost predicate RoundsFit(info: ModelInfo, past: seq<Answer>, rounds: seq<Round>) {
    forall i :: 0 <= i < |rounds| ==> RoundFits(info, past + PlayedAll(rounds[..i], info.model), rounds[i])
  }

  /** An entry has been gone through: ten rounds, or one for a provider that needs no account, or fewer
      after which nothing was left. */
  ghost predicate GoneThrough(info: ModelInfo, past: seq<Answer>, rounds: seq<Round>, last: seq<Answer>) {
    && RoundsFit(info, past, rounds)
    && if last == [] then |rounds| == (if info.noAuth then 1 else 10)
       else |rounds| < 10 && exists ids :: NoneLeft(info, past + PlayedAll(rounds, info.model), ids, last)
  }

  /** What became of one entry of the list. */
  datatype Visit =
    | Unresolved(entry: string)
    | Unavailable(entry: string, info: ModelInfo, conns: seq<string>)
    | Tried(entry: string, info: ModelInfo, conns: seq<string>, rounds: seq<Round>, last: seq<Answer>)

  function Head(v: Visit): seq<Answer> {
    match v
    case Unresolved(entry) => [Resolved(entry, None)]
    case Unavailable(entry, info, conns) => [Resolved(entry, Some(info))] + Asked(info, conns, false)
    case Tried(entry, info, conns, _, _) => [Resolved(entry, Some(info))] + Asked(info, conns, true)
  }

  function TraceOf(v: Visit): seq<Answer> {
    if v.Tried? then Head(v) + (PlayedAll(v.rounds, v.info.model) + v.last) else Head(v)
  }

  ghost predicate VisitFits(past: seq<Answer>, v: Visit) {
    && (v.Unavailable? ==> v.info.provider != "" && v.conns != [])
    && (v.Tried? ==> GoneThrough(v.info, past + Head(v), v.rounds, v.last))
  }

  function Joined(visits: seq<Visit>): seq<Answer> {
    if visits == [] then [] else Joined(visits[..|visits| - 1]) + TraceOf(visits[|visits| - 1])
  }

  /** Every entry was visited, in order, and each for all it was worth. */
  ghost predicate Covers(visits: seq<Visit>, entries: seq<string>) {
    && |visits| == |entries|
    && forall i :: 0 <= i < |visits| ==> visits[i].entry == entries[i] && VisitFits(Joined(visits[..i]), visits[i])
  }

  /** A Retry-After was heard. */
  ghost predicate Heeds(tr: seq<Answer>) {
    exists a :: a in tr && a.Sent? && !a.left && a.outcome.Upstream? && a.outcome.retryAfter
  }

  /** The requests of a trace. */
  function SentsIn(tr: seq<Answer>): seq<Answer> {
    if tr == [] then []
    else SentsIn(tr[..|tr| - 1]) + (if tr[|tr| - 1].Sent? then [tr[|tr| - 1]] else [])
  }

  lemma SentsSnoc(tr: seq<Answer>, a: Answer)
    ensures SentsIn(tr + [a]) == SentsIn(tr) + (if a.Sent? then [a] else [])
  {
    assert (tr + [a])[..|tr|] == tr;
  }

  lemma {:induction false} QuietSendsNothing(tr: seq<Answer>, looks: seq<Answer>)
    requires Quiet(looks)
    ensures SentsIn(tr + looks) == SentsIn(tr) && !Heeds(looks)
  {
    if looks == [] {
      assert tr + looks == tr;
    } else {
      var init, a := looks[..|looks| - 1], looks[|looks| - 1];
      QuietSendsNothing(tr, init);
      SentsSnoc(tr + init, a);
      assert tr + looks == tr + init + [a];
    }
  }

  lemma HeedsBoth(a: seq<Answer>, b: seq<Answer>)
    ensures Heeds(a + b) <==> Heeds(a) || Heeds(b)
  {
    assert forall x :: x in a + b <==> x in a || x in b;
  }

  lemma AllSpentMore(past: seq<Answer>, more: seq<Answer>, ids: seq<string>)
    requires AllSpent(past, ids)
    ensures AllSpent(past + more, ids)
  {
    forall id | id in ids
      ensures exists a :: a in past + more && SpentBy(a, id)
    {
      var a :| a in past && SpentBy(a, id);
      assert a in past + more;
    }
  }

  lemma OneMoreSpent(past: seq<Answer>, more: seq<Answer>, ids: seq<string>, id: string, a: Answer)
    requires AllSpent(past, ids) && a in more && SpentBy(a, id)
    ensures AllSpent(past + more, ids + [id])
  {
    AllSpentMore(past, more, ids);
    assert a in past + more;
  }

  lemma RoundsSnoc(info: ModelInfo, past: seq<Answer>, rounds: seq<Round>, r: Round)
    requires RoundsFit(info, past, rounds) && RoundFits(info, past + PlayedAll(rounds, info.model), r)
    ensures RoundsFit(info, past, rounds + [r])
    ensures PlayedAll(rounds + [r], info.model) == PlayedAll(rounds, info.model) + Played(r, info.model)
  {
    var all := rounds + [r];
    assert all[..|rounds|] == rounds;
    forall i | 0 <= i < |all|
      ensures RoundFits(info, past + PlayedAll(all[..i], info.model), all[i])
    {
      assert i < |rounds| ==> all[..i] == rounds[..i];
    }
  }

  lemma NoRoundYet(info: ModelInfo, past: seq<Answer>, tr: seq<Answer>)
    ensures RoundsFit(info, past, []) && !Heeds(PlayedAll([], info.model))
    ensures past + PlayedAll([], info.model) == past && tr + PlayedAll([], info.model) == tr
  {
  }

  lemma OneMoreRound(info: ModelInfo, past: seq<Answer>, rounds: seq<Round>, r: Round, tr: seq<Answer>)
    requires RoundsFit(info, past, rounds) && RoundFits(info, past + PlayedAll(rounds, info.model), r)
    ensures var was, now := PlayedAll(rounds, info.model), Played(r, info.model);
      var all := PlayedAll(rounds + [r], info.model);
      && RoundsFit(info, past, rounds + [r])
      && tr + all == tr + was + now && past + all == past + was + now
      && (Heeds(all) <==> Heeds(was) || Heeds(now))
  {
    hide RoundsFit, RoundFits, Heeds, Played, PlayedAll;
    var was, now := PlayedAll(rounds, info.model), Played(r, info.model);
    RoundsSnoc(info, past, rounds, r);
    HeedsBoth(was, now);
    Assoc(tr, was, now);
    Assoc(past, was, now);
  }

  /** The looks after which nothing was left come on top. */
  lemma EntryEnds(past: seq<Answer>, all: seq<Answer>, last: seq<Answer>, ids: seq<string>, tr: seq<Answer>)
    requires AllSpent(past + all, ids)
    ensures AllSpent(past + (all + last), ids) && tr + (all + last) == tr + all + last
    ensures Heeds(all + last) <==> Heeds(all) || Heeds(last)
  {
    AllSpentMore(past + all, last, ids);
    HeedsBoth(all, last);
    Assoc(tr, all, last);
    Assoc(past, all, last);
  }

  lemma NothingYet(entries: seq<string>, tr: seq<Answer>)
    ensures Covers([], entries[..0]) && Joined([]) == [] && tr + Joined([]) == tr
    ensures AllSpent([], []) && !Heeds([]) && !SomeUnavailable([])
  {
  }

  lemma OneMoreVisit(visits: seq<Visit>, entries: seq<string>, i: nat, v: Visit, tr: seq<Answer>)
    requires i < |entries| && v.entry == entries[i] && Covers(visits, entries[..i]) && VisitFits(Joined(visits), v)
    ensures var all := Joined(visits + [v]);
      && Covers(visits + [v], entries[..i + 1])
      && all == Joined(visits) + TraceOf(v) && tr + all == tr + Joined(visits) + TraceOf(v)
      && (Heeds(all) <==> Heeds(Joined(visits)) || Heeds(TraceOf(v)))
      && (SomeUnavailable(visits + [v]) <==> SomeUnavailable(visits) || v.Unavailable?)
  {
    hide Covers, VisitFits, Joined, TraceOf, Heeds, SomeUnavailable;
    assert entries[..i + 1] == entries[..i] + [v.entry];
    VisitsSnoc(visits, entries[..i], v);
    HeedsBoth(Joined(visits), TraceOf(v));
    UnavailableSnoc(visits, v);
    Assoc(tr, Joined(visits), TraceOf(v));
  }

  lemma UnavailableSnoc(visits: seq<Visit>, v: Visit)
    ensures SomeUnavailable(visits + [v]) <==> SomeUnavailable(visits) || v.Unavailable?
  {
    assert forall x :: x in visits + [v] <==> x in visits || x == v;
  }

  lemma VisitsSnoc(visits: seq<Visit>, entries: seq<string>, v: Visit)
    requires Covers(visits, entries) && VisitFits(Joined(visits), v)
    ensures Covers(visits + [v], entries + [v.entry]) && Joined(visits + [v]) == Joined(visits) + TraceOf(v)
  {
    var all := visits + [v];
    assert all[..|visits|] == visits;
    forall i | 0 <= i < |all|
      ensures all[i].entry == (entries + [v.entry])[i] && VisitFits(Joined(all[..i]), all[i])
    {
      assert i < |visits| ==> all[..i] == visits[..i];
    }
  }

  /** No locked connection was used; and within one pass, once a connection has failed retryably,
      only entries pinned to a connection use it again, whatever the model. */
  ghost predicate Disciplined(log: seq<Forward>) {
    && (forall i :: 0 <= i < |log| ==> !log[i].locked)
    && (forall i, j :: 0 <= i < j < |log| && log[i].pass == log[j].pass && FailedRetryably(log[i])
          && log[j].conn == log[i].conn
          ==> log[j].pinned)
  }

  ghost predicate NoneDelivered(log: seq<Forward>) {
    forall i :: 0 <= i < |log| ==> log[i].outcome != Delivered
  }

  /** The failures of the current pass are all on the exclusion list. */
  ghost predicate Excludes(ids: seq<string>, log: seq<Forward>, pass: nat) {
    forall i :: 0 <= i < |log| && log[i].pass == pass && FailedRetryably(log[i]) ==> log[i].conn in ids
  }

  lemma DisciplinedAppend(log: seq<Forward>, f: Forward, ids: seq<string>)
    requires Disciplined(log) && Excludes(ids, log, f.pass)
    requires !f.locked && (f.pinned || f.conn == "" || f.conn !in ids)
    ensures Disciplined(log + [f])
  {
  }

  lemma ExcludesAppend(log: seq<Forward>, f: Forward, ids: seq<string>)
    requires Excludes(ids, log, f.pass)
    ensures Excludes(ids + ExcludedBy(f), log + [f], f.pass)
  {
    var ids' := ids + ExcludedBy(f);
    forall i | 0 <= i < |log + [f]| && (log + [f])[i].pass == f.pass && FailedRetryably((log + [f])[i])
      ensures (log + [f])[i].conn in ids'
    {
      assert i < |log| ==> (log + [f])[i] == log[i];
      assert FailedRetryably(f) ==> ids'[|ids|] == f.conn;
    }
  }

  /** What the loop keeps of its log, its exclusion list and its locks. */
  ghost predicate Kept(log: seq<Forward>, ids: seq<string>, locks: seq<(string, string)>, pass: nat) {
    && Disciplined(log) && NoneDelivered(log) && Excludes(ids, log, pass)
    && (forall i :: 0 <= i < |log| ==> log[i].pass <= pass)
    && locks == LocksOf(log)
  }

  /** A longer exclusion list does no harm. */
  lemma ExcludeMore(log: seq<Forward>, ids: seq<string>, locks: seq<(string, string)>, pass: nat, id: string)
    requires Kept(log, ids, locks, pass)
    ensures Kept(log, ids + [id], locks, pass)
  {
    assert forall x :: x in ids ==> x in ids + [id];
  }

  /** A log that ends with the answer. */
  ghost predicate Answered(log: seq<Forward>, locks: seq<(string, string)>) {
    && log != [] && log[|log| - 1].outcome == Delivered
    && Disciplined(log) && NoneDelivered(log[..|log| - 1]) && locks == LocksOf(log)
  }

  /** All of it is kept across one more forward. */
  lemma OneMore(log: seq<Forward>, f: Forward, ids: seq<string>, locks: seq<(string, string)>)
    requires Kept(log, ids, locks, f.pass)
    requires !f.locked && (f.pinned || f.conn == "" || f.conn !in ids)
    ensures if f.outcome == Delivered then Answered(log + [f], locks + LockedBy(f))
            else Kept(log + [f], ids + ExcludedBy(f), locks + LockedBy(f), f.pass)
  {
    DisciplinedAppend(log, f, ids);
    ExcludesAppend(log, f, ids);
    assert (log + [f])[..|log|] == log;
  }

  /** A forward as it stands in the trace. */
  function SentAs(f: Forward): Answer {
    Sent(f.conn, f.model, f.outcome, f.outcome != Delivered && !f.examined)
  }

  function AllSent(log: seq<Forward>): seq<Answer> {
    seq(|log|, i requires 0 <= i < |log| => SentAs(log[i]))
  }

  ghost predicate SomeUnavailable(visits: seq<Visit>) {
    exists visit :: visit in visits && visit.Unavailable?
  }

  /** How the passes follow each other: each goes through the list in order; a second one comes after a whole
      first in which a Retry-After was seen that ends within eight seconds, once the timer has gone off;
      without one there was no such Retry-After, if it was asked for at all. */
  ghost predicate Course(entries: seq<string>, first: seq<Visit>, again: seq<Answer>, second: seq<Visit>, pass: nat) {
    && |first| <= |entries| && Covers(first, entries[..|first|])
    && |second| <= |entries| && Covers(second, entries[..|second|])
    && (again != [] ==> |first| == |entries| && again[0].RetryAsked? && (again[0].saw <==> Heeds(Joined(first))))
    && match pass
       case 0 => second == [] && (again == [] || (again == [again[0]] && !Retries(again[0])) || GoneWaiting(again))
       case 1 => |again| == 2 && Retries(again[0]) && again[1] == WaitEnded(true)
       case _ => false
  }

  predicate GoneWaiting(again: seq<Answer>) {
    |again| == 2 && Retries(again[0]) && again[1] == WaitEnded(false)
  }

  /** A Retry-After was seen whose moment is at most eight seconds away. */
  predicate Retries(a: Answer) {
    a.RetryAsked? && a.saw && a.moment.Some? && a.moment.value <= 8
  }

  lemma StillPassedOver(conns: seq<string>, ids: seq<string>, model: string, n: nat, looks: seq<Answer>, a: Answer)
    requires PassedOver(conns, ids, model, n, looks) && n < |conns| && model != ""
    ensures PassedOver(conns, ids, model, n, looks + [a])
    ensures a == LockSeen(conns[n], model, true) ==> PassedOver(conns, ids, model, n + 1, looks + [a])
  {
    assert forall x :: x in looks ==> x in looks + [a];
    assert a in looks + [a];
  }

  lemma FirstIsChosen(info: ModelInfo, ids: seq<string>, n: nat, looks: seq<Answer>)
    requires Quiet(looks) && info.connectionID == ""
    requires looks != [] && looks[0].Listed? && looks[0].provider == info.provider
    requires n < |looks[0].conns| && PassedOver(looks[0].conns, ids, info.model, n, looks)
    requires looks[0].conns[n] !in ids && (info.model != "" ==> LockSeen(looks[0].conns[n], info.model, false) in looks)
    ensures forall ok :: Chosen(info, ids, looks[0].conns[n], ok, looks + [ReadBack(looks[0].conns[n], ok)])
  {
    forall ok: bool
      ensures Chosen(info, ids, looks[0].conns[n], ok, looks + [ReadBack(looks[0].conns[n], ok)])
    {
      var more := looks + [ReadBack(looks[0].conns[n], ok)];
      assert forall x :: x in looks ==> x in more;
      assert PassedOver(more[0].conns, ids, info.model, n, more);
    }
  }

  lemma RoundPassesOver(past: seq<Answer>, ids: seq<string>, r: Round, model: string)
    requires AllSpent(past, ids) && r.locked && r.conn != "" && Quiet(r.looks)
    ensures AllSpent(past + Played(r, model), ids + [r.conn]) && !Heeds(Played(r, model))
  {
    var a := LockSeen(r.conn, model, true);
    assert Used(r, model) == [a];
    assert Played(r, model)[|r.looks|] == a;
    OneMoreSpent(past, Played(r, model), ids, r.conn, a);
  }

  lemma RoundSends(past: seq<Answer>, ids: seq<string>, r: Round, f: Forward)
    requires AllSpent(past, ids) && !r.locked && Quiet(r.looks) && f.examined
    requires SentAs(f) == Sent(r.conn, f.model, r.outcome, false)
    ensures AllSpent(past + Played(r, f.model), ids + ExcludedBy(f))
    ensures Heeds(Played(r, f.model)) <==> f.outcome.Upstream? && f.outcome.retryAfter
  {
    var tr := Played(r, f.model);
    assert tr[|tr| - 1] == SentAs(f);
    if FailedRetryably(f) {
      OneMoreSpent(past, tr, ids, f.conn, SentAs(f));
    } else {
      AllSpentMore(past, tr, ids);
    }
  }

  lemma AnsweredSays(log: seq<Forward>, locks: seq<(string, string)>)
    requires Answered(log, locks)
    ensures Disciplined(log) && locks == LocksOf(log)
    ensures log != [] && log[|log| - 1].outcome == Delivered && NoneDelivered(log[..|log| - 1])
  {
  }

  lemma KeptSays(log: seq<Forward>, ids: seq<string>, locks: seq<(string, string)>, pass: nat)
    requires Kept(log, ids, locks, pass)
    ensures Disciplined(log) && NoneDelivered(log) && locks == LocksOf(log)
    ensures log != [] ==> log[|log| - 1].outcome != Delivered && NoneDelivered(log[..|log| - 1])
  {
  }

  datatype Result = Streamed | Failed(status: int) | NoValidEntries | BadRequest | ClientGone

  /** How a stretch of the loop ended: the client has its answer, everything was tried, the client
      left and nothing more is sent, or the request body does not parse. */
  datatype Verdict = Served | Exhausted | Gone | Malformed

  class ComboRun {
    const world: World
    const parses: bool
    var excludeIDs: seq<string>
    var lastErr: Option<int>
    var sawRetryAfter: bool
    var log: seq<Forward>
    var pass: nat
    /** The connections and models the loop has locked, in order. */
    ghost var locks: seq<(string, string)>
    /** A model of this pass was passed over because all its connections were locked. */
    ghost var skipped: bool

    ghost predicate Sound()
      reads this
    {
      Kept(log, excludeIDs, locks, pass)
    }

    predicate SentInPass()
      reads this
    {
      log != [] && log[|log| - 1].pass == pass
    }

    /** lastErr is the status of the last forward of the pass; without one it is 429 if a model was
        passed over, and nothing otherwise. */
    ghost predicate ErrFits()
      reads this
    {
      lastErr == if SentInPass() then Some(StatusOf(log[|log| - 1].outcome)) else if skipped then Some(429) else None
    }

    ghost predicate Valid()
      reads this
    {
      Sound() && ErrFits()
    }

    /** What every forward keeps, the one cut short by a leaving client included. */
    ghost predicate Held(v: Verdict)
      reads this
    {
      match v
      case Served => Answered(log, locks)
      case Gone => Sound()
      case _ => Valid()
    }

    /** Every request sent upstream stands in the log. */
    ghost predicate Logged()
      reads this, world
    {
      SentsIn(world.trace) == AllSent(log)
    }

    constructor (world: World, parses: bool)
      ensures Valid() && this.world == world && log == [] && pass == 0 && lastErr == None
      ensures excludeIDs == [] && !sawRetryAfter && !skipped
    {
      this.parses := parses;
      this.world, excludeIDs, lastErr, sawRetryAfter, log, pass := world, [], None, false, [], 0;
      locks, skipped := [], false;
    }

    /** getBestConnection for a provider that needs an account. */
    method SelectConnection(info: ModelInfo) returns (conn: Option<string>, ghost looks: seq<Answer>)
      modifies world, world.store
      ensures world.trace == old(world.trace) + looks && looks != [] && Quiet(looks)
      ensures conn.Some? ==> Chosen(info, excludeIDs, conn.value, true, looks)
      ensures conn == None ==>
                AllPassedOver(info, excludeIDs, looks) || exists c :: Chosen(info, excludeIDs, c, false, looks)
      ensures conn.Some? && info.connectionID == "" && info.model != ""
              ==> !world.store.Locked(conn.value, info.model, world.now)
    {
      var chosen: string;
      looks := [];
      if info.connectionID != "" {
        chosen := info.connectionID;
      } else {
        var first;
        first, looks := FirstFree(info);
        if first == None {
          return None, looks;
        }
        chosen := first.value;
      }
      var ok := world.Readable(chosen);
      looks := looks + [ReadBack(chosen, ok)];
      conn := if ok then Some(chosen) else None;
      assert Chosen(info, excludeIDs, chosen, ok, looks);
    }

    /** The first connection of the provider that is not excluded and not locked. */
    method FirstFree(info: ModelInfo) returns (conn: Option<string>, ghost looks: seq<Answer>)
      requires info.connectionID == ""
      modifies world, world.store
      ensures world.trace == old(world.trace) + looks
      ensures conn == None ==> AllPassedOver(info, excludeIDs, looks)
      ensures conn.Some? ==> forall ok :: Chosen(info, excludeIDs, conn.value, ok, looks + [ReadBack(conn.value, ok)])
      ensures conn.Some? && info.model != "" ==> !world.store.Locked(conn.value, info.model, world.now)
    {
      var conns := world.Connections(info.provider);
      looks := [Listed(info.provider, conns)];
      for i := 0 to |conns|
        invariant world.trace == old(world.trace) + looks
        invariant Quiet(looks) && looks != [] && looks[0] == Listed(info.provider, conns)
        invariant PassedOver(conns, excludeIDs, info.model, i, looks)
      {
        if conns[i] in excludeIDs {
          continue;
        }
        world.Meanwhile();
        if info.model != "" {
          var locked := world.IsLocked(conns[i], info.model);
          ghost var was := looks;
          looks := looks + [LockSeen(conns[i], info.model, locked)];
          StillPassedOver(conns, excludeIDs, info.model, i, was, LockSeen(conns[i], info.model, locked));
          if locked {
            continue;
          }
        }
        FirstIsChosen(info, excludeIDs, i, looks);
        return Some(conns[i]), looks;
      }
      return None, looks;
    }

    /** Send once and note the result. A failure after the client has left is not looked at. */
    method SendOnce(info: ModelInfo, conn: string) returns (v: Verdict)
      requires Valid() && Logged() && (info.noAuth ==> conn == "")
      requires info.noAuth || info.connectionID != "" || conn !in excludeIDs
      requires conn == "" || !world.store.Locked(conn, info.model, world.now)
      modifies this, world, world.store
      ensures Logged() && |log| == |old(log)| + 1 && old(log) <= log && pass == old(pass) && skipped == old(skipped)
      ensures v in {Served, Exhausted, Gone} && Held(v)
      ensures v == Gone ==> world.cancelled && lastErr == Some(499) && !log[|log| - 1].examined
      ensures v == Exhausted ==> log[|log| - 1].examined && log[|log| - 1].outcome != Delivered
      ensures locks == old(locks) + LockedBy(log[|log| - 1])
      ensures excludeIDs == old(excludeIDs) + ExcludedBy(log[|log| - 1])
      ensures world.trace == old(world.trace) + [SentAs(log[|log| - 1])]
      ensures log[|log| - 1].conn == conn && log[|log| - 1].model == info.model
      ensures v == Exhausted ==>
        var o := log[|log| - 1].outcome;
        sawRetryAfter == (old(sawRetryAfter) || (o.Upstream? && o.retryAfter))
    {
      ghost var ids, was, locked, tr := excludeIDs, log, locks, world.trace;
      var outcome, f := SendAndLog(info, conn);
      OneMore(was, f, ids, locked);
      SentsSnoc(tr, SentAs(f));
      v := NoteResult(conn, info.model, outcome, f);
    }

    /** What the loop makes of the result it got. */
    method NoteResult(conn: string, model: string, outcome: Outcome, ghost f: Forward) returns (v: Verdict)
      requires f.outcome == outcome && f.conn == conn && f.model == model
      requires f.examined <==> outcome != Delivered && !world.cancelled
      modifies this`excludeIDs, this`locks, this`lastErr, this`sawRetryAfter, world, world.store
      ensures excludeIDs == old(excludeIDs) + ExcludedBy(f) && locks == old(locks) + LockedBy(f)
      ensures v == if outcome == Delivered then Served else if f.examined then Exhausted else Gone
      ensures v == Gone ==> world.cancelled && lastErr == Some(499)
      ensures v == Exhausted ==> lastErr == Some(StatusOf(outcome))
      ensures v == Exhausted ==>
                sawRetryAfter == (old(sawRetryAfter) || (outcome.Upstream? && outcome.retryAfter))
      ensures world.trace == old(world.trace)
    {
      assert locks + [] == locks && excludeIDs + [] == excludeIDs;
      if outcome == Delivered {
        return Served;
      }
      if world.cancelled {
        lastErr := Some(499);
        return Gone;
      }
      NoteFailure(conn, model, outcome, f);
      return Exhausted;
    }

    /** tryForwardWithConnection, and its entry in the log. */
    method SendAndLog(info: ModelInfo, conn: string) returns (outcome: Outcome, f: Forward)
      requires conn == "" || !world.store.Locked(conn, info.model, world.now)
      modifies this`log, world, world.store
      ensures log == old(log) + [f]
      ensures f == Forward(pass, conn, info.model, info.connectionID != "", false, outcome, f.examined)
      ensures f.examined <==> outcome != Delivered && !world.cancelled
      ensures world.trace == old(world.trace) + [SentAs(f)]
    {
      var locked := conn != "" && world.store.Locked(conn, info.model, world.now);
      outcome := world.Send(conn, info.model);
      var examined := outcome != Delivered && !world.cancelled;
      f := Forward(pass, conn, info.model, info.connectionID != "", locked, outcome, examined);
      log := log + [f];
    }

    /** What a failed forward leaves behind. */
    method NoteFailure(conn: string, model: string, outcome: Outcome, ghost f: Forward)
      requires outcome != Delivered && f.outcome == outcome && f.examined && f.conn == conn && f.model == model
      modifies this`excludeIDs, this`locks, this`lastErr, this`sawRetryAfter, world, world.store
      ensures excludeIDs == old(excludeIDs) + ExcludedBy(f)
      ensures locks == old(locks) + LockedBy(f)
      ensures lastErr == Some(StatusOf(outcome))
      ensures sawRetryAfter == (old(sawRetryAfter) || (outcome.Upstream? && outcome.retryAfter))
      ensures world.trace == old(world.trace)
    {
      assert locks + [] == locks && excludeIDs + [] == excludeIDs;
      if outcome.Upstream? {
        if Retryable(outcome.status) {
          LockRetryable(conn, model, outcome);
        }
        world.Meanwhile();
        sawRetryAfter := sawRetryAfter || outcome.retryAfter;
        lastErr := Some(outcome.status);
      } else {
        lastErr := Some(502);
      }
    }

    /** comboLockRetryable. */
    method LockRetryable(conn: string, model: string, o: Outcome)
      requires o.Upstream?
      modifies this`excludeIDs, this`locks, world.store
      ensures excludeIDs == if conn == "" then old(excludeIDs) else old(excludeIDs) + [conn]
      ensures locks == if conn == "" then old(locks) else old(locks) + [(conn, model)]
      ensures conn == "" || conn !in old(world.store.rows) ==> world.store.rows == old(world.store.rows)
      ensures conn != "" && conn in old(world.store.rows) ==>
        var cls := ClassifyError(o.status, o.text, old(world.store.Level(conn)));
        world.store.rows == old(world.store.rows)[conn :=
          LockRow(old(world.store.rows)[conn].locks[model := LockedUntil(world.now, LockSeconds(cls.cooldownMs))],
              cls.newBackoffLevel)]
    {
      if conn == "" {
        return;
      }
      var level := world.store.Level(conn);
      var cls := ClassifyError(o.status, o.text, level);
      CooldownIsPositive(o.status, o.text, level);
      if cls.cooldownMs <= 0 {
        return;
      }
      world.store.LockConnectionModel(conn, model, world.now, LockSeconds(cls.cooldownMs), cls.newBackoffLevel);
      excludeIDs := excludeIDs + [conn];
      locks := locks + [(conn, model)];
    }

    /** One round over an entry: select a connection, pass it over if it is locked by now, else send. past is
        what the pass has been told so far; without a verdict the round sent nothing. */
    method TryConnection(info: ModelInfo, ghost past: seq<Answer>)
        returns (found: bool, v: Option<Verdict>, ghost looks: seq<Answer>, ghost r: Round)
      requires Valid() && Logged() && AllSpent(past, excludeIDs)
      modifies this, world, world.store
      ensures Logged() && |old(log)| <= |log| <= |old(log)| + 1 && pass == old(pass) && skipped == old(skipped)
      ensures if v.Some? then Held(v.value) else Valid()
      ensures (v == Some(Malformed) ==> !parses) && (v == Some(Gone) ==> world.cancelled)
      ensures old(world.trace) <= world.trace
      ensures !found ==> v == None && world.trace == old(world.trace) + looks && excludeIDs == old(excludeIDs)
      ensures !found ==> looks != [] && NoneLeft(info, past, excludeIDs, looks)
      ensures !found ==> sawRetryAfter == old(sawRetryAfter) && !Heeds(looks)
      ensures found && v in {None, Some(Exhausted)} ==>
                && RoundFits(info, past, r) && (r.locked <==> v == None)
                && world.trace == old(world.trace) + Played(r, info.model)
                && AllSpent(past + Played(r, info.model), excludeIDs)
                && sawRetryAfter == (old(sawRetryAfter) || Heeds(Played(r, info.model)))
    {
      hide Kept, AllSpent, Answered, SentsIn, Heeds, Chosen, AllPassedOver, Quiet, RoundFits;
      var connID := "";
      looks := [];
      r := Round([], [], "", false, Broken);
      if !info.noAuth {
        var selected;
        ghost var tr := world.trace;
        selected, looks := SelectConnection(info);
        QuietSendsNothing(tr, looks);
        if selected == None {
          return false, None, looks, r;
        }
        connID := selected.value;
      }
      found := true;
      world.Meanwhile();
      v, r := UseConnection(info, connID, looks, past);
    }

    /** The rest of the round, once a connection is selected. */
    method UseConnection(info: ModelInfo, conn: string, ghost looks: seq<Answer>, ghost past: seq<Answer>)
        returns (v: Option<Verdict>, ghost r: Round)
      requires Valid() && Logged() && AllSpent(past, excludeIDs)
      requires if info.noAuth then conn == "" && looks == [] else Chosen(info, excludeIDs, conn, true, looks)
      modifies this, world, world.store
      ensures Logged() && |old(log)| <= |log| <= |old(log)| + 1 && pass == old(pass) && skipped == old(skipped)
      ensures if v.Some? then Held(v.value) else Valid()
      ensures (v == Some(Malformed) ==> !parses) && (v == Some(Gone) ==> world.cancelled)
      ensures old(world.trace) <= world.trace
      ensures v in {None, Some(Exhausted)} ==>
                && r.looks == looks && RoundFits(info, past, r) && (r.locked <==> v == None)
                && world.trace == old(world.trace) + Used(r, info.model)
                && AllSpent(past + Played(r, info.model), excludeIDs)
                && sawRetryAfter == (old(sawRetryAfter) || Heeds(Played(r, info.model)))
    {
      hide Kept, AllSpent, Answered, SentsIn;
      ghost var ids, tr := excludeIDs, world.trace;
      r := Round(ids, looks, conn, true, Broken);
      if conn != "" {
        var locked := world.IsLocked(conn, info.model);
        SentsSnoc(tr, LockSeen(conn, info.model, locked));
        if locked {
          ExcludeMore(log, excludeIDs, locks, pass, conn);
          RoundPassesOver(past, ids, r, info.model);
          excludeIDs := excludeIDs + [conn];
          return None, r;
        }
      }
      if !parses {
        return Some(Malformed), r;
      }
      var w := SendOnce(info, conn);
      r := Round(ids, looks, conn, false, log[|log| - 1].outcome);
      if w == Exhausted {
        RoundSends(past, ids, r, log[|log| - 1]);
      }
      return Some(w), r;
    }

    /** One entry of the list: up to ten connections. */
    method TryEntry(info: ModelInfo, ghost past: seq<Answer>)
        returns (v: Verdict, ghost rounds: seq<Round>, ghost last: seq<Answer>)
      requires Valid() && Logged() && AllSpent(past, excludeIDs)
      modifies this, world, world.store
      ensures Logged() && |old(log)| <= |log| <= |old(log)| + 10 && pass == old(pass) && skipped == old(skipped)
      ensures Held(v) && (v == Malformed ==> !parses) && (v == Gone ==> world.cancelled)
      ensures old(world.trace) <= world.trace
      ensures v == Exhausted ==>
                && GoneThrough(info, past, rounds, last)
                && world.trace == old(world.trace) + (PlayedAll(rounds, info.model) + last)
                && AllSpent(past + (PlayedAll(rounds, info.model) + last), excludeIDs)
                && sawRetryAfter == (old(sawRetryAfter) || Heeds(PlayedAll(rounds, info.model) + last))
    {
      hide Kept, AllSpent, Answered, SentsIn, Heeds, RoundsFit, RoundFits, NoneLeft, Played, PlayedAll;
      rounds, last := [], [];
      NoRoundYet(info, past, world.trace);
      for connAttempt := 0 to 10
        invariant Valid() && Logged() && pass == old(pass) && skipped == old(skipped)
        invariant |old(log)| <= |log| <= |old(log)| + connAttempt
        invariant last == [] && |rounds| == connAttempt && (info.noAuth ==> connAttempt == 0)
        invariant RoundsFit(info, past, rounds)
        invariant world.trace == old(world.trace) + PlayedAll(rounds, info.model)
        invariant AllSpent(past + PlayedAll(rounds, info.model), excludeIDs)
        invariant sawRetryAfter == (old(sawRetryAfter) || Heeds(PlayedAll(rounds, info.model)))
      {
        var found, w, looks, r := TryConnection(info, past + PlayedAll(rounds, info.model));
        if !found {
          last := looks;
          break;
        }
        if w.Some? && w.value != Exhausted {
          return w.value, rounds, last;
        }
        OneMoreRound(info, past, rounds, r, old(world.trace));
        rounds := rounds + [r];
        if info.noAuth {
          break;
        }
      }
      EntryEnds(past, PlayedAll(rounds, info.model), last, excludeIDs, old(world.trace));
      v := if world.cancelled then Gone else Exhausted;
    }

    /** One entry, from what it resolves to. */
    method VisitEntry(entry: string, ghost past: seq<Answer>) returns (v: Verdict, ghost visit: Visit)
      requires Valid() && Logged() && AllSpent(past, excludeIDs)
      modifies this, world, world.store
      ensures Logged() && |old(log)| <= |log| <= |old(log)| + 10 && pass == old(pass)
      ensures Held(v) && (v == Malformed ==> !parses) && (v == Gone ==> world.cancelled)
      ensures old(world.trace) <= world.trace
      ensures v == Exhausted ==>
                && visit.entry == entry && VisitFits(past, visit)
                && world.trace == old(world.trace) + TraceOf(visit)
                && AllSpent(past + TraceOf(visit), excludeIDs)
                && sawRetryAfter == (old(sawRetryAfter) || Heeds(TraceOf(visit)))
                && skipped == (old(skipped) || visit.Unavailable?)
    {
      hide Kept, AllSpent, Answered, SentsIn, Heeds, GoneThrough;
      ghost var tr := world.trace;
      var info := world.Resolve(entry);
      visit := Unresolved(entry);
      if info == None {
        QuietSendsNothing(tr, TraceOf(visit));
        AllSpentMore(past, TraceOf(visit), excludeIDs);
        return Exhausted, visit;
      }
      var available, conns := world.IsAvailable(info.value);
      ghost var head := [Resolved(entry, info)] + Asked(info.value, conns, available);
      assert world.trace == tr + head && Quiet(head);
      QuietSendsNothing(tr, head);
      AllSpentMore(past, head, excludeIDs);
      if !available {
        visit := Unavailable(entry, info.value, conns);
        if lastErr == None {
          lastErr := Some(429);
        }
        skipped := true;
        return Exhausted, visit;
      }
      ghost var rounds, last;
      v, rounds, last := TryEntry(info.value, past + head);
      visit := Tried(entry, info.value, conns, rounds, last);
      ghost var rest := PlayedAll(rounds, info.value.model) + last;
      Assoc(tr, head, rest);
      Assoc(past, head, rest);
      HeedsBoth(head, rest);
    }

    /** One pass over the list. */
    method Pass(entries: seq<string>) returns (v: Verdict, ghost visits: seq<Visit>)
      requires Valid() && Logged() && excludeIDs == [] && !sawRetryAfter && !skipped
      modifies this, world, world.store
      ensures Logged() && |log| <= |old(log)| + 10 * |entries| && pass == old(pass) && Held(v)
      ensures (v == Malformed ==> !parses) && (v == Gone ==> world.cancelled)
      ensures |visits| <= |entries| && Covers(visits, entries[..|visits|])
      ensures old(world.trace) + Joined(visits) <= world.trace
      ensures v == Exhausted ==>
                && |visits| == |entries| && world.trace == old(world.trace) + Joined(visits)
                && (sawRetryAfter <==> Heeds(Joined(visits)))
                && (skipped <==> SomeUnavailable(visits))
    {
      hide Kept, AllSpent, Answered, SentsIn, Heeds, Covers, SomeUnavailable, Joined, TraceOf, VisitFits;
      visits := [];
      NothingYet(entries, world.trace);
      for i := 0 to |entries|
        invariant Valid() && Logged() && pass == old(pass)
        invariant |log| <= |old(log)| + 10 * i
        invariant |visits| == i && Covers(visits, entries[..i])
        invariant world.trace == old(world.trace) + Joined(visits) && AllSpent(Joined(visits), excludeIDs)
        invariant sawRetryAfter <==> Heeds(Joined(visits))
        invariant skipped <==> SomeUnavailable(visits)
      {
        ghost var visit;
        v, visit := VisitEntry(entries[i], Joined(visits));
        if v != Exhausted {
          return;
        }
        OneMoreVisit(visits, entries, i, visit, old(world.trace));
        visits := visits + [visit];
      }
      assert entries[..|entries|] == entries;
      v := Exhausted;
    }

    method StartFreshPass()
      requires Valid()
      modifies this
      ensures Valid() && log == old(log) && pass == old(pass) + 1 && lastErr == None
      ensures excludeIDs == [] && !sawRetryAfter && !skipped
    {
      lastErr, sawRetryAfter, excludeIDs, pass := None, false, [], pass + 1;
      skipped := false;
    }

    /** The wait between the passes, if there is to be one: None says there is not, otherwise whether the timer
        came first. */
    method AwaitRetry() returns (timer: Option<bool>, ghost again: seq<Answer>)
      requires Logged()
      modifies world, world.store
      ensures Logged() && world.trace == old(world.trace) + again
      ensures |again| == (if timer == None then 1 else 2) && again[0].RetryAsked? && again[0].saw == sawRetryAfter
      ensures timer.Some? <==> Retries(again[0])
      ensures timer.Some? ==> again[1] == WaitEnded(timer.value)
      ensures timer == Some(false) ==> world.cancelled
    {
      ghost var tr := world.trace;
      var wait, moment := world.RetryWait(sawRetryAfter);
      again := [RetryAsked(sawRetryAfter, moment, wait)];
      SentsSnoc(tr, again[0]);
      if wait == 0 {
        return None, again;
      }
      var first := world.Wait(wait);
      SentsSnoc(tr + again, WaitEnded(first));
      again := again + [WaitEnded(first)];
      assert world.trace == tr + again;
      timer := Some(first);
    }

    /** What the client is told when the passes are over. */
    method Conclude() returns (result: Result)
      requires Valid()
      ensures result.Failed? || result == NoValidEntries
      ensures result == NoValidEntries <==> lastErr == None
      ensures result.Failed? && SentInPass() ==>
        match log[|log| - 1].outcome
        case Delivered => false
        case Upstream(status, _, _) => result.status == status
        case Broken => result.status == 502
      ensures result.Failed? && !SentInPass() ==> skipped && result.status == 429
      ensures result == NoValidEntries ==> !SentInPass() && !skipped
    {
      result := if lastErr.Some? then Failed(lastErr.value) else NoValidEntries;
    }

    /** handleComboFallback once the list has been rotated and reordered. first and second are the passes, and
        again what was asked between them. */
    method Handle(entries: seq<string>)
        returns (result: Result, ghost first: seq<Visit>, ghost again: seq<Answer>, ghost second: seq<Visit>)
      requires Valid() && Logged() && log == [] && pass == 0 && excludeIDs == [] && !sawRetryAfter && !skipped
      modifies this, world, world.store
      ensures Logged() && |log| <= 2 * 10 * |entries|
      ensures Disciplined(log)
      ensures result == Streamed <==> log != [] && log[|log| - 1].outcome == Delivered
      ensures log != [] ==> NoneDelivered(log[..|log| - 1])
      ensures locks == LocksOf(log)
      ensures result.Failed? && SentInPass() ==>
        match log[|log| - 1].outcome
        case Delivered => false
        case Upstream(status, _, _) => result.status == status
        case Broken => result.status == 502
      ensures result.Failed? && !SentInPass() ==> skipped && result.status == 429
      ensures result == NoValidEntries ==> !SentInPass() && !skipped
      ensures result == BadRequest ==> !parses
      ensures result == ClientGone ==> world.cancelled
      ensures Course(entries, first, again, second, pass)
      ensures old(world.trace) + Joined(first) + again + Joined(second) <= world.trace
      ensures result.Failed? || result == NoValidEntries ==>
                && |first| == |entries| && (pass == 1 ==> |second| == |entries|)
                && world.trace == old(world.trace) + Joined(first) + again + Joined(second)
                && (skipped <==> SomeUnavailable(if pass == 1 then second else first))
                && (again == [] ==> result == NoValidEntries || world.cancelled)
    {
      hide Kept, Answered, Disciplined, NoneDelivered, LocksOf;
      hide SentsIn, AllSent, Heeds, Covers, SomeUnavailable, Joined;
      var attempt := 0;
      first, again, second := [], [], [];
      NothingYet(entries, world.trace);
      while attempt < 2
        invariant 0 <= attempt <= 1 && pass == 0 && again == [] && second == []
        invariant Valid() && Logged() && (if attempt == 0 then log == [] else |log| <= 10 * |entries|)
        invariant |first| <= |entries| && Covers(first, entries[..|first|])
        invariant world.trace == old(world.trace) + Joined(first)
        invariant attempt == 0 ==> first == [] && excludeIDs == [] && !sawRetryAfter && !skipped
        invariant attempt == 1 ==> |first| == |entries| && (sawRetryAfter <==> Heeds(Joined(first)))
        invariant attempt == 1 ==> (skipped <==> SomeUnavailable(first))
        decreases 2 - attempt
      {
        if attempt > 0 {
          var timer;
          timer, again := AwaitRetry();
          if timer == None {
            break;
          }
          if !timer.value {
            KeptSays(log, excludeIDs, locks, pass);
            return ClientGone, first, again, second;
          }
          StartFreshPass();
        }
        var v, visits := Pass(entries);
        if attempt > 0 {
          second := visits;
        } else {
          first := visits;
        }
        match v {
          case Served =>
            AnsweredSays(log, locks);
            return Streamed, first, again, second;
          case Gone =>
            KeptSays(log, excludeIDs, locks, pass);
            return ClientGone, first, again, second;
          case Malformed =>
            KeptSays(log, excludeIDs, locks, pass);
            return BadRequest, first, again, second;
          case Exhausted =>
        }
        if lastErr == None || world.cancelled || attempt == 1 {
          break;
        }
        attempt := attempt + 1;
      }
      KeptSays(log, excludeIDs, locks, pass);
      result := Conclude();
    }
  }
}
