/** Combo rotation with turn awareness (applyComboStrategy, internal/handlers/chat/combo.go). */
module StickyRotation {
  import opened Prelude

  datatype Sticky = Sticky(index: nat, consecutiveUseCount: nat, servingIndex: nat)

  const FRESH := Sticky(0, 0, 0)

  datatype Strategy = RoundRobin | StickyLimit | Other

  /** What round-robin and sticky have in common: at least one use per model. */
  function Limit(strategy: Strategy, stickyLimit: int): nat {
    if strategy == RoundRobin || stickyLimit <= 1 then 1 else stickyLimit
  }

  /** The new rotation state and the index that serves the request, for a list of n models. */
  function Turn(st: Sticky, n: nat, limit: nat, newTurn: bool): (Sticky, nat)
    requires n > 0
  {
    if newTurn then
      var serving := st.index % n;
      var uses := st.consecutiveUseCount + 1;
      if uses >= limit then (Sticky((serving + 1) % n, 0, serving), serving)
      else (Sticky(st.index, uses, serving), serving)
    else (st, st.servingIndex)
  }

  function Rotate<T>(models: seq<T>, shift: nat): seq<T>
    requires models != []
  {
    seq(|models|, i requires 0 <= i < |models| => models[(shift + i) % |models|])
  }

  class ComboRotation {
    var stickyState: map<string, Sticky>

    constructor ()
      ensures stickyState == map[]
    {
      stickyState := map[];
    }

    function StateOf(comboName: string): Sticky
      reads this
    {
      if Key(comboName) in stickyState then stickyState[Key(comboName)] else FRESH
    }

    static function Key(comboName: string): string {
      if comboName == "" then "__default__" else comboName
    }

    method ApplyComboStrategy(strategy: Strategy, models: seq<string>, comboName: string, stickyLimit: int,
        newTurn: bool)
        returns (out: seq<string>)
      modifies this
      ensures |models| <= 1 || strategy == Other ==> out == models && stickyState == old(stickyState)
      ensures |models| > 1 && strategy != Other ==>
        var key := if comboName == "" then "__default__" else comboName;
        var limit := if strategy == StickyLimit && stickyLimit > 1 then stickyLimit else 1;
        var was := if key in old(stickyState) then old(stickyState)[key] else Sticky(0, 0, 0);
        var (st, serving) := Turn(was, |models|, limit, newTurn);
        out == Rotate(models, serving) && stickyState == old(stickyState)[key := st]
    {
      if |models| <= 1 || strategy == Other {
        return models;
      }
      var limit := if strategy == RoundRobin || stickyLimit <= 1 then 1 else stickyLimit;
      var key := Key(comboName);
      if key !in stickyState {
        stickyState := stickyState[key := FRESH];
      }
      var state := stickyState[key];
      var servingIndex := state.index % |models|;
      if newTurn {
        state := state.(consecutiveUseCount := state.consecutiveUseCount + 1);
        if state.consecutiveUseCount >= limit {
          state := state.(index := (servingIndex + 1) % |models|, consecutiveUseCount := 0);
        }
        state := state.(servingIndex := servingIndex);
      } else {
        servingIndex := state.servingIndex;
      }
      stickyState := stickyState[key := state];
      out := [];
      for i := 0 to |models|
        invariant out == Rotate(models, servingIndex)[..i]
      {
        out := out + [models[(servingIndex + i) % |models|]];
      }
    }
  }

  // ---------- Every result is a rotation ----------

  lemma AddMod(shift: nat, i: nat, n: nat)
    requires 0 < n && i < n
    ensures (shift + i) % n == if shift % n + i < n then shift % n + i else shift % n + i - n
  {
    var r := shift % n + i;
    if r < n {
      ModUnique(shift + i, shift / n, r, n);
    } else {
      Distribute(n, shift / n, -1);
      ModUnique(shift + i, shift / n + 1, r - n, n);
    }
  }

  /** A rotation is the list cut in two and put together the other way round; nothing is lost. */
  lemma RotationIsCut<T>(models: seq<T>, shift: nat)
    requires models != []
    ensures var k := shift % |models|;
      Rotate(models, shift) == models[k..] + models[..k] && multiset(Rotate(models, shift)) == multiset(models)
  {
    var n, k := |models|, shift % |models|;
    forall i | 0 <= i < n
      ensures Rotate(models, shift)[i] == (models[k..] + models[..k])[i]
    {
      AddMod(shift, i, n);
    }
    assert models == models[..k] + models[k..];
  }

  // ---------- Runs over a fixed list ----------

  /** The state after a run of requests (true: a new turn), the list having n models. */
  function RunState(turns: seq<bool>, n: nat, limit: nat): Sticky
    requires n > 0
  {
    if turns == [] then FRESH else Turn(RunState(turns[..|turns| - 1], n, limit), n, limit, turns[|turns| - 1]).0
  }

  /** The index serving the last request of the run. */
  function Lead(turns: seq<bool>, n: nat, limit: nat): nat
    requires n > 0 && turns != []
  {
    Turn(RunState(turns[..|turns| - 1], n, limit), n, limit, turns[|turns| - 1]).1
  }

  function NewTurns(turns: seq<bool>): nat {
    if turns == [] then 0 else NewTurns(turns[..|turns| - 1]) + (if turns[|turns| - 1] then 1 else 0)
  }

  /** The model that leads new turn number k, counting from 0. */
  function Leader(k: nat, n: nat, limit: nat): nat
    requires n > 0 && limit > 0
  {
    k / limit % n
  }

  lemma NextMod(q: nat, n: nat)
    requires n > 0
    ensures (q + 1) % n == (q % n + 1) % n
  {
    if q % n + 1 < n {
      ModUnique(q + 1, q / n, q % n + 1, n);
      ModUnique(q % n + 1, 0, q % n + 1, n);
    } else {
      Distribute(n, q / n, -1);
      ModUnique(q + 1, q / n + 1, 0, n);
      ModUnique(q % n + 1, 1, 0, n);
    }
  }

  lemma NextTurn(k: nat, n: nat, limit: nat)
    requires n > 0 && limit > 0
    ensures if k % limit + 1 == limit
            then (k + 1) % limit == 0 && Leader(k + 1, n, limit) == (Leader(k, n, limit) + 1) % n
            else (k + 1) % limit == k % limit + 1 && Leader(k + 1, n, limit) == Leader(k, n, limit)
  {
    var q, r := k / limit, k % limit;
    if r + 1 == limit {
      Distribute(limit, q, -1);
      ModUnique(k + 1, q + 1, 0, limit);
      NextMod(q, n);
    } else {
      ModUnique(k + 1, q, r + 1, limit);
    }
  }

  /** Closed form of the state: mid-turn requests leave no trace in it. */
  lemma {:induction false} RunClosedForm(turns: seq<bool>, n: nat, limit: nat)
    requires n > 0 && limit > 0
    ensures var k := NewTurns(turns);
      RunState(turns, n, limit) ==
      Sticky(Leader(k, n, limit), k % limit, if k == 0 then 0 else Leader(k - 1, n, limit))
  {
    if turns == [] {
      ModUnique(0, 0, 0, limit);
      ModUnique(0, 0, 0, n);
    } else {
      var init := turns[..|turns| - 1];
      var k := NewTurns(init);
      RunClosedForm(init, n, limit);
      if turns[|turns| - 1] {
        NextTurn(k, n, limit);
        ModUnique(Leader(k, n, limit), 0, Leader(k, n, limit), n);
      }
    }
  }

  /** Main result: new turn number k leads with model (k / limit) mod n, however many mid-turn
      requests came in between; a mid-turn request leads with the model of the latest new turn. */
  lemma LeadClosedForm(turns: seq<bool>, n: nat, limit: nat)
    requires n > 0 && limit > 0 && turns != []
    ensures var k := NewTurns(turns);
      Lead(turns, n, limit) == if k == 0 then 0 else Leader(k - 1, n, limit)
  {
    var init := turns[..|turns| - 1];
    RunClosedForm(init, n, limit);
    ModUnique(Leader(NewTurns(init), n, limit), 0, Leader(NewTurns(init), n, limit), n);
  }

  /** The object serves a run of requests on one combo with exactly these leads. */
  method ServeTurns(rotation: ComboRotation, models: seq<string>, comboName: string, stickyLimit: int, turns: seq<bool>)
      returns (leads: seq<string>)
    requires |models| > 1 && rotation.StateOf(comboName) == FRESH
    modifies rotation
    ensures |leads| == |turns|
    ensures forall i :: 0 <= i < |turns| ==>
      var k := NewTurns(turns[..i + 1]);
      leads[i] == models[if k == 0 then 0 else (k - 1) / (if stickyLimit > 1 then stickyLimit else 1) % |models|]
  {
    leads := [];
    var n, limit := |models|, Limit(StickyLimit, stickyLimit);
    for i := 0 to |turns|
      invariant |leads| == i
      invariant rotation.StateOf(comboName) == RunState(turns[..i], n, limit)
      invariant forall j :: 0 <= j < i ==>
        var k := NewTurns(turns[..j + 1]);
        leads[j] == models[if k == 0 then 0 else Leader(k - 1, n, limit)]
    {
      var soFar := turns[..i + 1];
      assert soFar[..i] == turns[..i];
      LeadClosedForm(soFar, n, limit);
      var out := rotation.ApplyComboStrategy(StickyLimit, models, comboName, stickyLimit, turns[i]);
      ModUnique(Lead(soFar, n, limit), 0, Lead(soFar, n, limit), n);
      leads := leads + [out[0]];
    }
  }

  // ---------- Fairness ----------

  /** How many of the new turns lo, ..., hi - 1 model j leads. */
  function Led(lo: nat, hi: nat, j: nat, n: nat, limit: nat): nat
    requires n > 0 && limit > 0 && lo <= hi
  {
    if lo == hi then 0 else Led(lo, hi - 1, j, n, limit) + (if Leader(hi - 1, n, limit) == j then 1 else 0)
  }

  lemma {:induction false} LedSplit(lo: nat, mid: nat, hi: nat, j: nat, n: nat, limit: nat)
    requires n > 0 && limit > 0 && lo <= mid <= hi
    ensures Led(lo, hi, j, n, limit) == Led(lo, mid, j, n, limit) + Led(mid, hi, j, n, limit)
    decreases hi
  {
    if mid < hi {
      LedSplit(lo, mid, hi - 1, j, n, limit);
    }
  }

  /** limit turns in a row from a multiple of limit all have the same leader. */
  lemma {:induction false} LedBlock(q: nat, len: nat, j: nat, n: nat, limit: nat)
    requires n > 0 && limit > 0 && len <= limit
    ensures Led(limit * q, limit * q + len, j, n, limit) == if q % n == j then len else 0
  {
    if len > 0 {
      LedBlock(q, len - 1, j, n, limit);
      ModUnique(limit * q + (len - 1), q, len - 1, limit);
    }
  }

  lemma {:induction false} LedRounds(m: nat, j: nat, n: nat, limit: nat)
    requires n > 0 && limit > 0 && m <= n && j < n
    ensures limit * m >= 0 && Led(0, limit * m, j, n, limit) == if j < m then limit else 0
  {
    if m > 0 {
      LedRounds(m - 1, j, n, limit);
      assert limit * m == limit * (m - 1) + limit;
      LedSplit(0, limit * (m - 1), limit * m, j, n, limit);
      LedBlock(m - 1, limit, j, n, limit);
      ModUnique(m - 1, 0, m - 1, n);
    }
  }

  lemma LeaderIsPeriodic(k: nat, n: nat, limit: nat)
    requires n > 0 && limit > 0
    ensures limit * n >= 0 && Leader(k + limit * n, n, limit) == Leader(k, n, limit)
  {
    var q, r := k / limit, k % limit;
    assert k + limit * n == limit * (q + n) + r;
    ModUnique(k + limit * n, q + n, r, limit);
    assert q + n == n * (q / n + 1) + q % n;
    ModUnique(q + n, q / n + 1, q % n, n);
  }

  /** Main result: any limit * n consecutive new turns are led by each of the n models exactly
      limit times, wherever one starts counting. */
  lemma {:induction false} RotationIsFair(start: nat, j: nat, n: nat, limit: nat)
    requires n > 0 && limit > 0 && j < n
    ensures limit * n >= 0 && Led(start, start + limit * n, j, n, limit) == limit
  {
    var w := limit * n;
    if start == 0 {
      LedRounds(n, j, n, limit);
    } else {
      assert w >= 1;
      RotationIsFair(start - 1, j, n, limit);
      LedSplit(start - 1, start, start - 1 + w, j, n, limit);
      LeaderIsPeriodic(start - 1, n, limit);
    }
  }
}
