/** Error classification, exponential backoff and the per-connection model locks
    (internal/providers/errorclassify.go, internal/db/accounts.go). Error texts are taken after
    strings.ToLower; the clock is a parameter, in milliseconds. */
module Backoff {
  import opened Prelude

  const BASE_MS := 2000
  const MAX_MS := 5 * 60 * 1000
  const MAX_LEVEL := 15
  const TRANSIENT_MS := 30 * 1000
  const LONG_MS := 2 * 60 * 1000
  const SHORT_MS := 5 * 1000

  // ---------- Classification ----------

  datatype Rule =
    | TextRule(text: string, cooldownMs: nat)
    | TextBackoff(text: string)
    | StatusRule(status: int, cooldownMs: nat)
    | StatusBackoff(status: int)

  const FIXED_TEXT_RULES := [
    TextRule("no credentials", LONG_MS),
    TextRule("request not allowed", SHORT_MS),
    TextRule("improperly formed request", LONG_MS)]

  const LIMIT_TEXT_RULES := [
    TextBackoff("rate limit"),
    TextBackoff("too many requests"),
    TextBackoff("quota exceeded"),
    TextBackoff("capacity"),
    TextBackoff("overloaded")]

  const STATUS_RULES := [
    StatusRule(401, LONG_MS),
    StatusRule(402, LONG_MS),
    StatusRule(403, LONG_MS),
    StatusRule(404, LONG_MS),
    StatusBackoff(429)]

  /** Checked top to bottom. */
  const RULES := FIXED_TEXT_RULES + (LIMIT_TEXT_RULES + STATUS_RULES)

  datatype Classification = Classification(cooldownMs: int, newBackoffLevel: int)

  predicate Contains(s: string, t: string) {
    |t| <= |s| && (s[..|t|] == t || (s != "" && Contains(s[1..], t)))
  }

  predicate StandsAt(s: string, t: string, i: nat) {
    i + |t| <= |s| && s[i..i + |t|] == t
  }

  /** strings.Contains. */
  lemma {:induction false} ContainsIs(s: string, t: string)
    ensures Contains(s, t) <==> exists i: nat :: StandsAt(s, t, i)
  {
    if |t| <= |s| {
      assert StandsAt(s, t, 0) <==> s[..|t|] == t;
      if s != "" {
        var rest := s[1..];
        ContainsIs(rest, t);
        forall i: nat
          ensures StandsAt(rest, t, i) <==> StandsAt(s, t, i + 1)
        {
          assert i + |t| <= |rest| ==> rest[i..i + |t|] == s[i + 1..i + 1 + |t|];
        }
        if exists i: nat :: StandsAt(s, t, i) {
          var i: nat :| StandsAt(s, t, i);
          assert i > 0 ==> StandsAt(rest, t, i - 1);
        }
      }
    }
  }

  predicate Matches(r: Rule, status: int, text: string) {
    match r
    case TextRule(t, _) => text != "" && Contains(text, t)
    case TextBackoff(t) => text != "" && Contains(text, t)
    case StatusRule(s, _) => s == status
    case StatusBackoff(s) => s == status
  }

  function Min(a: int, b: int): int {
    if a < b then a else b
  }

  function QuotaCooldown(level: int): int {
    Min(BASE_MS * Pow2(if level - 1 > 0 then level - 1 else 0), MAX_MS)
  }

  function Apply(r: Rule, level: int): Classification {
    match r
    case TextRule(_, ms) => Classification(ms, level)
    case StatusRule(_, ms) => Classification(ms, level)
    case _ =>
      var newLevel := Min(level + 1, MAX_LEVEL);
      Classification(QuotaCooldown(newLevel), newLevel)
  }

  function FirstMatch(rules: seq<Rule>, status: int, text: string): Option<Rule> {
    if rules == [] then None
    else if Matches(rules[0], status, text) then Some(rules[0])
    else FirstMatch(rules[1..], status, text)
  }

  /** The first rule that matches decides. */
  function ClassifyError(status: int, text: string, level: int): Classification {
    match FirstMatch(RULES, status, text)
    case Some(r) => Apply(r, level)
    case None => Classification(TRANSIENT_MS, level)
  }

  predicate Says(text: string, t: string) {
    text != "" && Contains(text, t)
  }

  predicate SaysFixed(text: string) {
    Says(text, "no credentials") || Says(text, "request not allowed") || Says(text, "improperly formed request")
  }

  predicate SaysLimited(text: string) {
    || Says(text, "rate limit") || Says(text, "too many requests") || Says(text, "quota exceeded")
    || Says(text, "capacity") || Says(text, "overloaded")
  }

  /** An error of the exponential kind: a rate-limit phrase, or a bare 429, and none of the
      phrases with a cooldown of their own. */
  predicate BackoffClass(status: int, text: string) {
    !SaysFixed(text) && (SaysLimited(text) || status == 429)
  }

  function FixedCooldown(status: int, text: string): nat {
    if Says(text, "request not allowed") && !Says(text, "no credentials") then 5_000
    else if SaysFixed(text) || 401 <= status <= 404 then 120_000
    else 30_000
  }

  lemma {:induction false} FirstMatchAppend(a: seq<Rule>, b: seq<Rule>, status: int, text: string)
    ensures FirstMatch(a + b, status, text) ==
            if FirstMatch(a, status, text).Some? then FirstMatch(a, status, text) else FirstMatch(b, status, text)
  {
    if a == [] {
      assert a + b == b;
    } else {
      assert (a + b)[0] == a[0] && (a + b)[1..] == a[1..] + b;
      FirstMatchAppend(a[1..], b, status, text);
    }
  }

  lemma {:induction false} FirstMatchAt(rules: seq<Rule>, i: nat, status: int, text: string)
    requires i < |rules|
    ensures FirstMatch(rules[i..], status, text) ==
            if Matches(rules[i], status, text) then Some(rules[i]) else FirstMatch(rules[i + 1..], status, text)
  {
    assert rules[i..][0] == rules[i] && rules[i..][1..] == rules[i + 1..];
  }

  lemma FixedTextMatch(status: int, text: string)
    ensures FirstMatch(FIXED_TEXT_RULES, status, text) ==
      if Says(text, "no credentials") then Some(FIXED_TEXT_RULES[0])
      else if Says(text, "request not allowed") then Some(FIXED_TEXT_RULES[1])
      else if Says(text, "improperly formed request") then Some(FIXED_TEXT_RULES[2])
      else None
  {
    var rules := FIXED_TEXT_RULES;
    assert rules[0..] == rules && rules[3..] == [];
    FirstMatchAt(rules, 0, status, text);
    FirstMatchAt(rules, 1, status, text);
    FirstMatchAt(rules, 2, status, text);
  }

  lemma LimitTextMatch(status: int, text: string)
    ensures var r := FirstMatch(LIMIT_TEXT_RULES, status, text);
      (r.Some? <==> SaysLimited(text)) && (r.Some? ==> r.value.TextBackoff?)
  {
    var rules := LIMIT_TEXT_RULES;
    assert rules[0..] == rules && rules[5..] == [];
    FirstMatchAt(rules, 0, status, text);
    FirstMatchAt(rules, 1, status, text);
    FirstMatchAt(rules, 2, status, text);
    FirstMatchAt(rules, 3, status, text);
    FirstMatchAt(rules, 4, status, text);
  }

  lemma StatusMatch(status: int, text: string)
    ensures FirstMatch(STATUS_RULES, status, text) ==
      if 401 <= status <= 404 then Some(StatusRule(status, LONG_MS))
      else if status == 429 then Some(StatusBackoff(429))
      else None
  {
    var rules := STATUS_RULES;
    assert rules[0..] == rules && rules[5..] == [];
    FirstMatchAt(rules, 0, status, text);
    FirstMatchAt(rules, 1, status, text);
    FirstMatchAt(rules, 2, status, text);
    FirstMatchAt(rules, 3, status, text);
    FirstMatchAt(rules, 4, status, text);
  }

  /** The ordered table read as one decision: the exponential kind raises the level by one up to
      15, every other kind keeps it and has a fixed cooldown. */
  lemma ClassifyExact(status: int, text: string, level: int)
    ensures ClassifyError(status, text, level) ==
      if BackoffClass(status, text)
      then Classification(QuotaCooldown(Min(level + 1, 15)), Min(level + 1, 15))
      else Classification(FixedCooldown(status, text), level)
  {
    FirstMatchAppend(FIXED_TEXT_RULES, LIMIT_TEXT_RULES + STATUS_RULES, status, text);
    FirstMatchAppend(LIMIT_TEXT_RULES, STATUS_RULES, status, text);
    FixedTextMatch(status, text);
    LimitTextMatch(status, text);
    StatusMatch(status, text);
  }

  lemma {:induction false} Pow2Monotone(m: nat, n: nat)
    requires m <= n
    ensures 1 <= Pow2(m) <= Pow2(n)
    decreases n
  {
    if m < n {
      Pow2Monotone(m, n - 1);
    } else if m > 0 {
      Pow2Monotone(m - 1, n - 1);
    }
  }

  /** Between 2 s and 5 min, never shorter at a higher level, and at the cap from level 9 on. */
  lemma QuotaCooldownShape(level: int, higher: int)
    requires level <= higher
    ensures 2_000 <= QuotaCooldown(level) <= QuotaCooldown(higher) <= 300_000
    ensures level >= 9 ==> QuotaCooldown(level) == 300_000
  {
    var n := if level - 1 > 0 then level - 1 else 0;
    var n' := if higher - 1 > 0 then higher - 1 else 0;
    Pow2Monotone(n, n');
    if level >= 9 {
      Pow2Monotone(8, n);
      assert Pow2(4) == 16 && Pow2(6) == 4 * Pow2(4) && Pow2(8) == 4 * Pow2(6);
    }
  }

  /** Every classification makes the caller wait, so a retryable failure always locks. */
  lemma CooldownIsPositive(status: int, text: string, level: int)
    ensures ClassifyError(status, text, level).cooldownMs > 0
  {
    ClassifyExact(status, text, level);
    QuotaCooldownShape(Min(level + 1, MAX_LEVEL), MAX_LEVEL);
  }

  predicate Retryable(status: int) {
    status == 401 || status == 403 || status == 429 || status == 502 || status == 503 || status == 504
  }

  // ---------- The lock store ----------

  /** One providerConnections row: modelLock_<model> timestamps, in whole seconds, and backoffLevel. */
  datatype LockRow = LockRow(locks: map<string, int>, level: int)

  function LockSeconds(cooldownMs: int): int {
    (cooldownMs + 999) / 1000
  }

  /** RFC 3339 without fractions keeps whole seconds only. */
  function LockedUntil(now: int, seconds: int): int {
    now / 1000 + seconds
  }

  class LockStore {
    var rows: map<string, LockRow>

    constructor (rows: map<string, LockRow>)
      ensures this.rows == rows
    {
      this.rows := rows;
    }

    predicate Locked(conn: string, model: string, now: int)
      reads this
    {
      conn in rows && model in rows[conn].locks && now < rows[conn].locks[model] * 1000
    }

    function Level(conn: string): int
      reads this
    {
      if conn in rows then rows[conn].level else 0
    }

    predicate Available(conns: seq<string>, model: string, now: int)
      reads this
    {
      conns == [] || exists c :: c in conns && !Locked(c, model, now)
    }

    method LockConnectionModel(conn: string, model: string, now: int, seconds: int, level: int)
      modifies this
      ensures rows == if conn in old(rows)
        then old(rows)[conn := LockRow(old(rows)[conn].locks[model := LockedUntil(now, seconds)], level)]
        else old(rows)
    {
      if conn in rows {
        rows := rows[conn := LockRow(rows[conn].locks[model := LockedUntil(now, seconds)], level)];
      }
    }

    method UnlockConnectionModel(conn: string, model: string)
      modifies this
      ensures rows == if conn in old(rows)
        then old(rows)[conn := LockRow(old(rows)[conn].locks - {model}, 0)]
        else old(rows)
    {
      if conn in rows {
        rows := rows[conn := LockRow(rows[conn].locks - {model}, 0)];
      }
    }

    /** IsProviderAvailable over the active connections of a provider. */
    method IsProviderAvailable(conns: seq<string>, model: string, now: int) returns (ok: bool)
      ensures ok == Available(conns, model, now)
    {
      if conns == [] {
        return true;
      }
      for i := 0 to |conns|
        invariant forall j :: 0 <= j < i ==> Locked(conns[j], model, now)
      {
        if !Locked(conns[i], model, now) {
          return true;
        }
      }
      return false;
    }

    /** The lock step both fallback loops run after a retryable failure. */
    method LockOnFailure(conn: string, model: string, status: int, text: string, now: int) returns (cls: Classification)
      modifies this
      ensures cls == ClassifyError(status, text, old(Level(conn)))
      ensures conn in old(rows) ==>
        rows == old(rows)[conn := LockRow(old(rows)[conn].locks[model := LockedUntil(now, LockSeconds(cls.cooldownMs))],
                                          cls.newBackoffLevel)]
      ensures conn !in old(rows) ==> rows == old(rows)
    {
      var level := Level(conn);
      cls := ClassifyError(status, text, level);
      LockConnectionModel(conn, model, now, LockSeconds(cls.cooldownMs), cls.newBackoffLevel);
    }

    /** A run of attempts on one connection, one after another, each for a model of its own. A
        non-retryable failure leaves the store alone. */
    method RunAttempts(conn: string, attempts: seq<Attempt>)
      requires conn in rows && rows[conn].level == 0
      modifies this
      ensures rows == old(rows)[conn := RunRow(old(rows)[conn], attempts)]
      ensures rows[conn].level == Min(15, BackoffsSinceSuccess(attempts))
      ensures forall m :: Get(rows[conn].locks, m) == LockOf(Get(old(rows)[conn].locks, m), attempts, m)
    {
      for i := 0 to |attempts|
        invariant rows == old(rows)[conn := RunRow(old(rows)[conn], attempts[..i])]
      {
        assert attempts[..i + 1][..i] == attempts[..i];
        match attempts[i] {
          case Success(model) => UnlockConnectionModel(conn, model);
          case Failure(model, status, text, now) =>
            if Retryable(status) {
              var _ := LockOnFailure(conn, model, status, text, now);
            }
        }
        assert rows == old(rows)[conn := RunRow(old(rows)[conn], attempts[..i + 1])];
      }
      assert attempts[..|attempts|] == attempts;
      RunLevel(old(rows)[conn], attempts);
      forall m
        ensures Get(rows[conn].locks, m) == LockOf(Get(old(rows)[conn].locks, m), attempts, m)
      {
        RunLock(old(rows)[conn], attempts, m);
      }
    }
  }

  datatype Attempt = Success(model: string) | Failure(model: string, status: int, text: string, now: int)

  function Get(locks: map<string, int>, model: string): Option<int> {
    if model in locks then Some(locks[model]) else None
  }

  /** What one attempt does to the connection's row. */
  function AttemptRow(row: LockRow, a: Attempt): LockRow {
    match a
    case Success(model) => LockRow(row.locks - {model}, 0)
    case Failure(model, status, text, now) =>
      if !Retryable(status) then row
      else
        var cls := ClassifyError(status, text, row.level);
        LockRow(row.locks[model := LockedUntil(now, LockSeconds(cls.cooldownMs))], cls.newBackoffLevel)
  }

  function RunRow(row: LockRow, attempts: seq<Attempt>): LockRow {
    if attempts == [] then row else AttemptRow(RunRow(row, attempts[..|attempts| - 1]), attempts[|attempts| - 1])
  }

  /** How many retryable failures of the exponential kind followed the last success, whatever their
      models: the level belongs to the connection. */
  function BackoffsSinceSuccess(attempts: seq<Attempt>): nat {
    if attempts == [] then 0
    else
      var n := BackoffsSinceSuccess(attempts[..|attempts| - 1]);
      match attempts[|attempts| - 1]
      case Success(_) => 0
      case Failure(_, status, text, _) => if Retryable(status) && BackoffClass(status, text) then n + 1 else n
  }

  /** How long the last of these attempts makes its model wait, in milliseconds: the n-th exponential
      failure since the last success 2 s doubled n - 1 times, five minutes at most, and every other
      retryable failure its fixed time. */
  function WaitMs(attempts: seq<Attempt>): int
    requires attempts != [] && attempts[|attempts| - 1].Failure? && Retryable(attempts[|attempts| - 1].status)
  {
    var last := attempts[|attempts| - 1];
    if BackoffClass(last.status, last.text)
    then Min(2_000 * Pow2(BackoffsSinceSuccess(attempts) - 1), 300_000)
    else FixedCooldown(last.status, last.text)
  }

  /** Until when a model is locked after these attempts: the last of them that succeeded or failed
      retryably for it decides, and before any did it is what it was. */
  function LockOf(was: Option<int>, attempts: seq<Attempt>, model: string): Option<int> {
    if attempts == [] then was
    else
      var last := attempts[|attempts| - 1];
      if last.model != model then LockOf(was, attempts[..|attempts| - 1], model)
      else
        match last
        case Success(_) => None
        case Failure(_, status, _, now) =>
          if Retryable(status) then Some(LockedUntil(now, LockSeconds(WaitMs(attempts))))
          else LockOf(was, attempts[..|attempts| - 1], model)
  }

  lemma {:induction false} RunLevel(row: LockRow, attempts: seq<Attempt>)
    requires row.level == 0
    ensures RunRow(row, attempts).level == Min(MAX_LEVEL, BackoffsSinceSuccess(attempts))
  {
    if attempts != [] {
      var last := attempts[|attempts| - 1];
      RunLevel(row, attempts[..|attempts| - 1]);
      if last.Failure? {
        ClassifyExact(last.status, last.text, RunRow(row, attempts[..|attempts| - 1]).level);
      }
    }
  }

  lemma {:induction false} RunLock(row: LockRow, attempts: seq<Attempt>, model: string)
    requires row.level == 0
    ensures Get(RunRow(row, attempts).locks, model) == LockOf(Get(row.locks, model), attempts, model)
  {
    if attempts != [] {
      var init, last := attempts[..|attempts| - 1], attempts[|attempts| - 1];
      RunLock(row, init, model);
      RunLevel(row, init);
      if last.Failure? && Retryable(last.status) {
        AttemptWaits(init, last, RunRow(row, init).level);
      }
    }
  }

  lemma AttemptWaits(init: seq<Attempt>, last: Attempt, level: int)
    requires last.Failure? && Retryable(last.status) && level == Min(MAX_LEVEL, BackoffsSinceSuccess(init))
    ensures ClassifyError(last.status, last.text, level).cooldownMs == WaitMs(init + [last])
  {
    assert (init + [last])[..|init|] == init;
    ClassifyExact(last.status, last.text, level);
    if BackoffClass(last.status, last.text) {
      CooldownClosedForm(BackoffsSinceSuccess(init) + 1, last.status, last.text);
    }
  }

  /** The n-th exponential failure in a row waits 2 s doubled n - 1 times, five minutes at most;
      the store needs no more than 15 levels to know that. */
  lemma CooldownClosedForm(n: nat, status: int, text: string)
    requires n > 0 && BackoffClass(status, text)
    ensures ClassifyError(status, text, Min(15, n - 1)).cooldownMs == Min(2_000 * Pow2(n - 1), 300_000)
  {
    ClassifyExact(status, text, Min(MAX_LEVEL, n - 1));
    if n > MAX_LEVEL {
      QuotaCooldownShape(MAX_LEVEL, n);
    }
  }

  /** A lock for a cooldown of ms milliseconds, set at lockedAt: whole seconds are rounded up in the
      cooldown and down in the timestamp, so it holds for all but the last second of the cooldown
      and is over less than a second after it. */
  lemma LockHonoursCooldown(store: LockStore, conn: string, model: string, lockedAt: int, ms: int, now: int)
    requires conn in store.rows && model in store.rows[conn].locks
    requires store.rows[conn].locks[model] == LockedUntil(lockedAt, LockSeconds(ms))
    ensures now <= lockedAt + ms - 1000 ==> store.Locked(conn, model, now)
    ensures now >= lockedAt + ms + 999 ==> !store.Locked(conn, model, now)
  {
  }
}
