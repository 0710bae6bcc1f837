/** The daily usage roll-up (upsertDailyUsage, internal/handlers/chat/usage.go): one request is
    added to the totals and to one row in each of six breakdowns. */
module DailyUsage {
  import opened Prelude

  /** The counters of a row. The legacy provider rows keep no cached tokens and no cost. */
  datatype Row = Row(requests: int, prompt: int, completion: int, cached: int, cost: real)

  const ZERO := Row(0, 0, 0, 0, 0.0)

  function Plus(a: Row, b: Row): Row {
    Row(a.requests + b.requests, a.prompt + b.prompt, a.completion + b.completion, a.cached + b.cached, a.cost + b.cost)
  }

  datatype Request = Request(provider: string, model: string, endpoint: string, connection: string, apiKey: string,
                             prompt: int, completion: int, cached: int, cost: real)
  {
    function Amount(): Row {
      Row(1, prompt, completion, cached, cost)
    }

    /** What the legacy format records of it. */
    function LegacyAmount(): Row {
      Row(1, prompt, completion, 0, 0.0)
    }

    /** The row a breakdown keeps it in; requests without a connection have none in ByAccount. */
    function Key(dim: Dimension): Option<string> {
      match dim
      case ByProvider => Some(provider)
      case ByModel => Some(model + "|" + provider)
      case ByApiKey => Some(MaskAPIKey(apiKey) + "|" + model + "|" + provider)
      case ByEndpoint => Some(endpoint + "|" + model + "|" + provider)
      case ByAccount => if connection == "" then None else Some(connection)
    }
  }

  datatype Dimension = ByProvider | ByModel | ByApiKey | ByEndpoint | ByAccount

  /** Never empty, so the "local-no-key" branch of the source is never taken. */
  function MaskAPIKey(key: string): (masked: string)
    ensures |key| <= 8 ==> masked == "***"
    ensures |key| > 8 ==>
      |masked| == 11 && masked[..4] == key[..4] && masked[4..7] == "***" && masked[7..] == key[|key| - 4..]
  {
    if |key| <= 8 then "***" else key[..4] + "***" + key[|key| - 4..]
  }

  type Table = map<string, Row>

  function RowAt(t: Table, k: string): Row {
    if k in t then t[k] else ZERO
  }

  function Add(t: Table, k: string, r: Row): Table {
    t[k := Plus(RowAt(t, k), r)]
  }

  datatype Legacy = Legacy(row: Row, models: Table)

  function LegacyAt(t: map<string, Legacy>, k: string): Legacy {
    if k in t then t[k] else Legacy(ZERO, map[])
  }

  function LegacyAdd(t: map<string, Legacy>, k: string, model: string, r: Row): map<string, Legacy> {
    var l := LegacyAt(t, k);
    t[k := Legacy(Plus(l.row, r), Add(l.models, model, r))]
  }

  datatype Day = Day(total: Row, legacyTotal: Row, byProvider: Table, byModel: Table, byApiKey: Table,
                     byEndpoint: Table, byAccount: Table, providers: map<string, Legacy>)

  const EMPTY_DAY := Day(ZERO, ZERO, map[], map[], map[], map[], map[], map[])

  function Breakdown(d: Day, dim: Dimension): Table {
    match dim
    case ByProvider => d.byProvider
    case ByModel => d.byModel
    case ByApiKey => d.byApiKey
    case ByEndpoint => d.byEndpoint
    case ByAccount => d.byAccount
  }

  function AddTo(t: Table, dim: Dimension, q: Request): Table {
    if q.Key(dim).Some? then Add(t, q.Key(dim).value, q.Amount()) else t
  }

  function RecordTotals(d: Day, q: Request): Day {
    d.(total := Plus(d.total, q.Amount()), legacyTotal := Plus(d.legacyTotal, q.LegacyAmount()))
  }

  function RecordBreakdowns(d: Day, q: Request): Day {
    d.(byProvider := AddTo(d.byProvider, ByProvider, q),
       byModel := AddTo(d.byModel, ByModel, q),
       byApiKey := AddTo(d.byApiKey, ByApiKey, q),
       byEndpoint := AddTo(d.byEndpoint, ByEndpoint, q),
       byAccount := AddTo(d.byAccount, ByAccount, q))
  }

  function RecordLegacy(d: Day, q: Request): Day {
    d.(providers := LegacyAdd(d.providers, q.provider, q.model, q.LegacyAmount()))
  }

  function Record(d: Day, q: Request): Day {
    RecordLegacy(RecordBreakdowns(RecordTotals(d, q), q), q)
  }

  function RecordAll(qs: seq<Request>): Day {
    if qs == [] then EMPTY_DAY else Record(RecordAll(qs[..|qs| - 1]), qs[|qs| - 1])
  }

  /** The stored day: each field is the JSON value the source reads, changes and writes back. */
  class UsageStore {
    var requests: int
    var promptTokens: int
    var completionTokens: int
    var cachedTokens: int
    var cost: real
    var totalPromptTokens: int
    var totalCompletionTokens: int
    var totalRequests: int
    var byProvider: Table
    var byModel: Table
    var byApiKey: Table
    var byEndpoint: Table
    var byAccount: Table
    var providers: map<string, Legacy>

    function Totals(): Row
      reads `requests, `promptTokens, `completionTokens, `cachedTokens, `cost
    {
      Row(requests, promptTokens, completionTokens, cachedTokens, cost)
    }

    function LegacyTotals(): Row
      reads `totalPromptTokens, `totalCompletionTokens, `totalRequests
    {
      Row(totalRequests, totalPromptTokens, totalCompletionTokens, 0, 0.0)
    }

    function View(): Day
      reads this
    {
      Day(Totals(), LegacyTotals(),
          byProvider, byModel, byApiKey, byEndpoint, byAccount, providers)
    }

    constructor ()
      ensures View() == EMPTY_DAY
    {
      requests, promptTokens, completionTokens, cachedTokens, cost := 0, 0, 0, 0, 0.0;
      totalPromptTokens, totalCompletionTokens, totalRequests := 0, 0, 0;
      byProvider, byModel, byApiKey, byEndpoint, byAccount, providers := map[], map[], map[], map[], map[], map[];
    }

    method Upsert(q: Request)
      modifies this
      ensures View() == Record(old(View()), q)
    {
      ghost var d := View();
      UpsertTotals(q);
      ghost var e := View();
      assert e == RecordTotals(d, q);
      UpsertBreakdowns(q);
      assert View() == RecordBreakdowns(e, q);
      UpsertLegacy(q);
    }

    method UpsertTotals(q: Request)
      modifies `requests, `promptTokens, `completionTokens, `cachedTokens, `cost
      modifies `totalPromptTokens, `totalCompletionTokens, `totalRequests
      ensures Totals() == Plus(old(Totals()), q.Amount())
      ensures LegacyTotals() == Plus(old(LegacyTotals()), q.LegacyAmount())
    {
      requests := requests + 1;
      promptTokens := promptTokens + q.prompt;
      completionTokens := completionTokens + q.completion;
      cachedTokens := cachedTokens + q.cached;
      cost := cost + q.cost;
      totalPromptTokens := totalPromptTokens + q.prompt;
      totalCompletionTokens := totalCompletionTokens + q.completion;
      totalRequests := totalRequests + 1;
    }

    method UpsertBreakdowns(q: Request)
      modifies `byProvider, `byModel, `byApiKey, `byEndpoint, `byAccount
      ensures byProvider == AddTo(old(byProvider), ByProvider, q)
      ensures byModel == AddTo(old(byModel), ByModel, q)
      ensures byApiKey == AddTo(old(byApiKey), ByApiKey, q)
      ensures byEndpoint == AddTo(old(byEndpoint), ByEndpoint, q)
      ensures byAccount == AddTo(old(byAccount), ByAccount, q)
    {
      byProvider := AddToRow(byProvider, q.provider, q);
      var modelKey := q.model + "|" + q.provider;
      byModel := AddToRow(byModel, modelKey, q);
      var apiKeyVal := MaskAPIKey(q.apiKey);
      if apiKeyVal == "" {
        apiKeyVal := "local-no-key";
      }
      var akKey := apiKeyVal + "|" + q.model + "|" + q.provider;
      byApiKey := AddToRow(byApiKey, akKey, q);
      var epKey := q.endpoint + "|" + q.model + "|" + q.provider;
      byEndpoint := AddToRow(byEndpoint, epKey, q);
      if q.connection != "" {
        byAccount := AddToRow(byAccount, q.connection, q);
      }
    }

    method UpsertLegacy(q: Request)
      modifies `providers
      ensures View() == RecordLegacy(old(View()), q)
    {
      providers := AddToLegacy(providers, q);
    }

    method UpsertAll(qs: seq<Request>)
      requires View() == EMPTY_DAY
      modifies this
      ensures View() == RecordAll(qs)
    {
      for i := 0 to |qs|
        invariant View() == RecordAll(qs[..i])
      {
        assert qs[..i + 1][..i] == qs[..i];
        Upsert(qs[i]);
      }
      assert qs[..|qs|] == qs;
    }
  }

  method AddToRow(t: Table, k: string, q: Request) returns (t': Table)
    ensures t' == Add(t, k, q.Amount())
  {
    var r := RowAt(t, k);
    r := r.(requests := r.requests + 1);
    r := r.(prompt := r.prompt + q.prompt);
    r := r.(completion := r.completion + q.completion);
    r := r.(cached := r.cached + q.cached);
    r := r.(cost := r.cost + q.cost);
    t' := t[k := r];
  }

  method AddToLegacy(t: map<string, Legacy>, q: Request) returns (t': map<string, Legacy>)
    ensures t' == LegacyAdd(t, q.provider, q.model, q.LegacyAmount())
  {
    var pd := LegacyAt(t, q.provider);
    var row := pd.row;
    row := row.(prompt := row.prompt + q.prompt);
    row := row.(completion := row.completion + q.completion);
    row := row.(requests := row.requests + 1);
    var md := RowAt(pd.models, q.model);
    md := md.(prompt := md.prompt + q.prompt);
    md := md.(completion := md.completion + q.completion);
    md := md.(requests := md.requests + 1);
    t' := t[q.provider := Legacy(row, pd.models[q.model := md])];
  }

  // ---------- Sums ----------

  /** The sum of all rows of a table, taken in any order. */
  ghost function Sum(t: Table): Row
    decreases |t|
  {
    if t == map[] then ZERO
    else
      var k :| k in t;
      Plus(t[k], Sum(t - {k}))
  }

  lemma PlusSwaps(a: Row, b: Row, c: Row)
    ensures Plus(a, Plus(b, c)) == Plus(b, Plus(a, c))
  {
  }

  lemma {:induction false} SumSplit(t: Table, k: string)
    requires k in t
    ensures Sum(t) == Plus(t[k], Sum(t - {k}))
    decreases |t|
  {
    var c :| c in t && Sum(t) == Plus(t[c], Sum(t - {c}));
    if c != k {
      SumSplit(t - {c}, k);
      SumSplit(t - {k}, c);
      assert t - {c} - {k} == t - {k} - {c};
      PlusSwaps(t[c], t[k], Sum(t - {c} - {k}));
    }
  }

  lemma SumAdd(t: Table, k: string, r: Row)
    ensures Sum(Add(t, k, r)) == Plus(Sum(t), r)
  {
    var t' := Add(t, k, r);
    SumSplit(t', k);
    if k in t {
      SumSplit(t, k);
      assert t' - {k} == t - {k};
    } else {
      assert t' - {k} == t;
    }
  }

  ghost function Rows(t: map<string, Legacy>): Table {
    map k | k in t :: t[k].row
  }

  /** A question about a request. */
  datatype Query = Any | Keyed(dim: Dimension) | WithKey(dim: Dimension, k: string) | OfModel(p: string, m: string)

  predicate Asks(w: Query, q: Request) {
    match w
    case Any => true
    case Keyed(dim) => q.Key(dim).Some?
    case WithKey(dim, k) => q.Key(dim) == Some(k)
    case OfModel(p, m) => q.provider == p && q.model == m
  }

  /** The requests of qs that w asks for, summed up. */
  function Total(qs: seq<Request>, w: Query): Row {
    if qs == [] then ZERO
    else
      var rest := Total(qs[..|qs| - 1], w);
      if Asks(w, qs[|qs| - 1]) then Plus(rest, qs[|qs| - 1].Amount()) else rest
  }

  function LegacyPart(r: Row): Row {
    r.(cached := 0, cost := 0.0)
  }

  lemma RecordAllSnoc(qs: seq<Request>, dim: Dimension)
    requires qs != []
    ensures Breakdown(RecordAll(qs), dim) == AddTo(Breakdown(RecordAll(qs[..|qs| - 1]), dim), dim, qs[|qs| - 1])
  {
    RecordTable(RecordAll(qs[..|qs| - 1]), qs[|qs| - 1], dim);
  }

  lemma RecordTable(d: Day, q: Request, dim: Dimension)
    ensures Breakdown(Record(d, q), dim) == AddTo(Breakdown(d, dim), dim, q)
  {
  }

  /** The day after one request and after two, written out. */
  lemma OneRequest(q: Request)
    ensures var d, r := RecordAll([q]), Row(1, q.prompt, q.completion, q.cached, q.cost);
      && d.total == r && d.legacyTotal == Row(1, q.prompt, q.completion, 0, 0.0)
      && d.byProvider == map[q.provider := r]
      && d.byModel == map[q.model + "|" + q.provider := r]
      && d.byApiKey == map[MaskAPIKey(q.apiKey) + "|" + q.model + "|" + q.provider := r]
      && d.byEndpoint == map[q.endpoint + "|" + q.model + "|" + q.provider := r]
      && d.byAccount == (if q.connection == "" then map[] else map[q.connection := r])
      && d.providers == map[q.provider := Legacy(d.legacyTotal, map[q.model := d.legacyTotal])]
  {
    assert [q][..0] == [];
    assert RecordAll([q]) == Record(EMPTY_DAY, q);
  }

  lemma TwoRequests(p: Request, q: Request)
    ensures RecordAll([p, q]).total ==
            Row(2, p.prompt + q.prompt, p.completion + q.completion, p.cached + q.cached, p.cost + q.cost)
  {
    assert [p, q][..1] == [p] && [p][..0] == [];
    assert RecordAll([p]) == Record(EMPTY_DAY, p) && RecordAll([p, q]) == Record(RecordAll([p]), q);
  }

  // ---------- Main results ----------

  /** A breakdown sums to the requests it has a row for. */
  lemma {:induction false} BreakdownSum(qs: seq<Request>, dim: Dimension)
    ensures Sum(Breakdown(RecordAll(qs), dim)) == Total(qs, Keyed(dim))
  {
    if qs != [] {
      var q, t := qs[|qs| - 1], Breakdown(RecordAll(qs[..|qs| - 1]), dim);
      BreakdownSum(qs[..|qs| - 1], dim);
      RecordAllSnoc(qs, dim);
      if q.Key(dim).Some? {
        SumAdd(t, q.Key(dim).value, q.Amount());
      }
    }
  }

  /** Attribution: every row of every breakdown is exactly what its own requests add up to. */
  lemma {:induction false} RowIsExact(qs: seq<Request>, dim: Dimension, k: string)
    ensures RowAt(Breakdown(RecordAll(qs), dim), k) == Total(qs, WithKey(dim, k))
  {
    if qs != [] {
      RowIsExact(qs[..|qs| - 1], dim, k);
      RecordAllSnoc(qs, dim);
    }
  }

  lemma {:induction false} TotalsAreExact(qs: seq<Request>)
    ensures RecordAll(qs).total == Total(qs, Any) && RecordAll(qs).legacyTotal == LegacyPart(Total(qs, Any))
  {
    if qs != [] {
      TotalsAreExact(qs[..|qs| - 1]);
    }
  }

  lemma {:induction false} EverythingIsKeyed(qs: seq<Request>, dim: Dimension)
    requires dim != ByAccount
    ensures Total(qs, Keyed(dim)) == Total(qs, Any)
  {
    if qs != [] {
      EverythingIsKeyed(qs[..|qs| - 1], dim);
    }
  }

  /** Conservation: after any requests the totals are the sums over every breakdown but byAccount,
      which sums to the requests that had a connection. */
  lemma BreakdownsAddUp(qs: seq<Request>, dim: Dimension)
    ensures var d := RecordAll(qs);
      Sum(Breakdown(d, dim)) == if dim == ByAccount then Total(qs, Keyed(ByAccount)) else d.total
  {
    BreakdownSum(qs, dim);
    TotalsAreExact(qs);
    if dim != ByAccount {
      EverythingIsKeyed(qs, dim);
    }
  }

  lemma LegacyStep(t: map<string, Legacy>, p: string, m: string, r: Row)
    ensures Rows(LegacyAdd(t, p, m, r)) == Add(Rows(t), p, r)
    ensures LegacyAt(t, p).row == Sum(LegacyAt(t, p).models)
            ==> LegacyAdd(t, p, m, r)[p].row == Sum(LegacyAdd(t, p, m, r)[p].models)
  {
    SumAdd(LegacyAt(t, p).models, m, r);
  }

  /** The legacy provider rows sum to the legacy totals, and each is the sum of its model rows. */
  lemma {:induction false} LegacyAddsUp(qs: seq<Request>)
    ensures var d := RecordAll(qs);
      && Sum(Rows(d.providers)) == d.legacyTotal
      && forall p :: p in d.providers ==> d.providers[p].row == Sum(d.providers[p].models)
  {
    if qs != [] {
      var d, q := RecordAll(qs[..|qs| - 1]), qs[|qs| - 1];
      LegacyAddsUp(qs[..|qs| - 1]);
      LegacyStep(d.providers, q.provider, q.model, q.LegacyAmount());
      SumAdd(Rows(d.providers), q.provider, q.LegacyAmount());
    }
  }

  /** Attribution for the legacy format: every provider row and every model row under it. */
  lemma {:induction false} LegacyRowIsExact(qs: seq<Request>, p: string)
    ensures LegacyAt(RecordAll(qs).providers, p).row == LegacyPart(Total(qs, WithKey(ByProvider, p)))
  {
    if qs != [] {
      LegacyRowIsExact(qs[..|qs| - 1], p);
    }
  }

  lemma {:induction false} LegacyModelRowIsExact(qs: seq<Request>, p: string, m: string)
    ensures RowAt(LegacyAt(RecordAll(qs).providers, p).models, m) == LegacyPart(Total(qs, OfModel(p, m)))
  {
    if qs != [] {
      LegacyModelRowIsExact(qs[..|qs| - 1], p, m);
    }
  }
}
