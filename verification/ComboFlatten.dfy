/** Expansion of combo names into concrete models (internal/handlers/chat/resolution.go). Combos
    may refer to each other, and to themselves. */
module ComboFlatten {
  import opened Prelude

  /** What the database holds: the model list of every combo that has a readable one, and the
      target of every model alias. */
  datatype Registry = Registry(combos: map<string, seq<string>>, aliases: map<string, string>)

  predicate IsConcrete(m: string) {
    '/' in m
  }

  /** A reference the walk expands; a name with a slash never is. */
  predicate IsCombo(reg: Registry, m: string) {
    !IsConcrete(m) && m in reg.combos
  }

  /** What an entry that is not a combo contributes. */
  function Leaf(reg: Registry, m: string): string {
    if !IsConcrete(m) && m in reg.aliases && IsConcrete(reg.aliases[m]) then reg.aliases[m] else m
  }

  function Emit(out: seq<string>, m: string): seq<string> {
    if out == [] || out[|out| - 1] != m then out + [m] else out
  }

  /** The walk over ms with the combos on the path to it; out is what has been emitted so far. */
  function Walk(reg: Registry, ms: seq<string>, seen: set<string>, out: seq<string>): seq<string>
    decreases reg.combos.Keys - seen, |ms|
  {
    if ms == [] then out
    else
      var m := ms[0];
      var out' :=
        if !IsCombo(reg, m) then (if !IsConcrete(m) && m in seen then out else Emit(out, Leaf(reg, m)))
        else if m in seen then out
        else
          assert reg.combos.Keys - (seen + {m}) < reg.combos.Keys - seen by {
            assert m in reg.combos.Keys - seen;
          }
          Walk(reg, reg.combos[m], seen + {m}, out);
      Walk(reg, ms[1..], seen, out')
  }

  function Flatten(reg: Registry, ms: seq<string>): Option<seq<string>> {
    var out := Walk(reg, ms, {}, []);
    if out == [] then None else Some(out)
  }

  /** An alias stands for its target if and only if it has no slash, is no combo, and the target has one. */
  lemma OneAlias(reg: Registry, alias: string, target: string)
    requires alias in reg.aliases && reg.aliases[alias] == target && alias !in reg.combos
    ensures Flatten(reg, [alias]) == Some([if '/' !in alias && '/' in target then target else alias])
  {
    var out := Emit([], Leaf(reg, alias));
    assert [alias][1..] == [];
    assert Walk(reg, [alias], {}, []) == Walk(reg, [alias][1..], {}, out) == out;
    assert out == [Leaf(reg, alias)];
  }

  /** A combo stands for its models; a name with a slash is never looked up, whatever it may name. */
  lemma OneName(reg: Registry, name: string, model: string)
    requires '/' in model
    ensures '/' in name ==> Flatten(reg, [name]) == Some([name])
    ensures '/' !in name && name in reg.combos && reg.combos[name] == [model] ==> Flatten(reg, [name]) == Some([model])
  {
    var m, n := [model], [name];
    assert m[1..] == [] && n[1..] == [];
    assert Walk(reg, m, {name}, []) == Walk(reg, m[1..], {name}, [model]) == [model];
    if IsCombo(reg, name) && reg.combos[name] == [model] {
      assert Walk(reg, n, {}, []) == Walk(reg, n[1..], {}, Walk(reg, m, {} + {name}, []));
      assert {} + {name} == {name};
    } else if '/' in name {
      assert Walk(reg, n, {}, []) == Walk(reg, n[1..], {}, [name]);
    }
  }

  class ComboFlattener {
    const reg: Registry
    var out: seq<string>
    var seen: set<string>

    constructor (reg: Registry)
      ensures this.reg == reg && out == [] && seen == {}
    {
      this.reg, out, seen := reg, [], {};
    }

    method WalkList(ms: seq<string>)
      modifies this
      ensures out == Walk(reg, ms, old(seen), old(out)) && seen == old(seen)
      decreases reg.combos.Keys - seen, |ms|
    {
      for i := 0 to |ms|
        invariant seen == old(seen)
        invariant Walk(reg, ms[i..], seen, out) == Walk(reg, ms, old(seen), old(out))
      {
        var m := ms[i];
        assert ms[i..][1..] == ms[i + 1..];
        if !IsConcrete(m) {
          if m in seen {
            continue;
          }
          if m in reg.combos {
            assert m in reg.combos.Keys - seen;
            seen := seen + {m};
            WalkList(reg.combos[m]);
            seen := seen - {m};
            continue;
          }
          if m in reg.aliases && IsConcrete(reg.aliases[m]) {
            m := reg.aliases[m];
          }
        }
        if out == [] || out[|out| - 1] != m {
          out := out + [m];
        }
      }
    }
  }

  /** flattenComboModels; None stands for "combo has no valid leaf models". */
  method FlattenComboModels(reg: Registry, models: seq<string>) returns (flat: Option<seq<string>>)
    ensures flat == Flatten(reg, models)
  {
    var f := new ComboFlattener(reg);
    f.WalkList(models);
    flat := if f.out == [] then None else Some(f.out);
  }

  // ---------- Reachability, stated without the walk ----------

  /** path is a chain of combo references starting in ms. */
  predicate Chain(reg: Registry, ms: seq<string>, path: seq<string>)
    decreases path
  {
    path == [] ||
    (path[0] in ms && IsCombo(reg, path[0]) && Chain(reg, reg.combos[path[0]], path[1..]))
  }

  /** The list at the end of a chain. */
  function ListAt(reg: Registry, ms: seq<string>, path: seq<string>): seq<string>
    requires Chain(reg, ms, path)
    decreases path
  {
    if path == [] then ms else ListAt(reg, reg.combos[path[0]], path[1..])
  }

  ghost predicate ReachedBy(reg: Registry, ms: seq<string>, path: seq<string>, x: string) {
    Chain(reg, ms, path) && exists e :: e in ListAt(reg, ms, path) && !IsCombo(reg, e) && Leaf(reg, e) == x
  }

  ghost predicate Reachable(reg: Registry, ms: seq<string>, x: string) {
    exists path :: ReachedBy(reg, ms, path, x)
  }

  /** The names on the path are all combos; that is what `seen` only ever holds. */
  predicate OnPath(reg: Registry, seen: set<string>) {
    forall c :: c in seen ==> IsCombo(reg, c)
  }

  lemma EmitKeeps(out: seq<string>, m: string)
    ensures forall x :: x in Emit(out, m) <==> x in out || x == m
  {
    if out != [] && out[|out| - 1] == m {
      assert m in out;
    }
  }

  lemma {:induction false} WalkExtends(reg: Registry, ms: seq<string>, seen: set<string>, out: seq<string>)
    ensures forall x :: x in out ==> x in Walk(reg, ms, seen, out)
    decreases reg.combos.Keys - seen, |ms|
  {
    if ms != [] {
      var m := ms[0];
      if !IsCombo(reg, m) {
        EmitKeeps(out, Leaf(reg, m));
        WalkExtends(reg, ms[1..], seen, if !IsConcrete(m) && m in seen then out else Emit(out, Leaf(reg, m)));
      } else if m in seen {
        WalkExtends(reg, ms[1..], seen, out);
      } else {
        assert m in reg.combos.Keys - seen;
        WalkExtends(reg, reg.combos[m], seen + {m}, out);
        WalkExtends(reg, ms[1..], seen, Walk(reg, reg.combos[m], seen + {m}, out));
      }
    }
  }

  lemma ChainWiden(reg: Registry, ms: seq<string>, ms': seq<string>, path: seq<string>, x: string)
    requires ReachedBy(reg, ms, path, x) && forall m :: m in ms ==> m in ms'
    ensures ReachedBy(reg, ms', path, x)
  {
  }

  lemma ReachableWiden(reg: Registry, ms: seq<string>, ms': seq<string>, x: string)
    requires Reachable(reg, ms, x) && forall m :: m in ms ==> m in ms'
    ensures Reachable(reg, ms', x)
  {
    var path :| ReachedBy(reg, ms, path, x);
    ChainWiden(reg, ms, ms', path, x);
  }

  lemma ReachableThrough(reg: Registry, ms: seq<string>, c: string, x: string)
    requires c in ms && IsCombo(reg, c) && Reachable(reg, reg.combos[c], x)
    ensures Reachable(reg, ms, x)
  {
    var path :| ReachedBy(reg, reg.combos[c], path, x);
    assert ([c] + path)[1..] == path;
    assert ReachedBy(reg, ms, [c] + path, x);
  }

  /** Soundness: whatever the walk adds is reachable. */
  lemma {:induction false} WalkSound(reg: Registry, ms: seq<string>, seen: set<string>, out: seq<string>, x: string)
    requires x in Walk(reg, ms, seen, out)
    ensures x in out || Reachable(reg, ms, x)
    decreases reg.combos.Keys - seen, |ms|
  {
    if ms != [] {
      var m := ms[0];
      var out' := if !IsCombo(reg, m) then (if !IsConcrete(m) && m in seen then out else Emit(out, Leaf(reg, m)))
                  else if m in seen then out
                  else Walk(reg, reg.combos[m], seen + {m}, out);
      WalkSound(reg, ms[1..], seen, out', x);
      if x !in out' {
        ReachableWiden(reg, ms[1..], ms, x);
      } else if x !in out {
        if !IsCombo(reg, m) {
          EmitKeeps(out, Leaf(reg, m));
          assert ReachedBy(reg, ms, [], x);
        } else {
          assert m in reg.combos.Keys - seen;
          WalkSound(reg, reg.combos[m], seen + {m}, out, x);
          ReachableThrough(reg, ms, m, x);
        }
      }
    }
  }

  predicate Avoids(path: seq<string>, seen: set<string>) {
    forall c :: c in path ==> c !in seen
  }

  /** Cutting a chain after the last time it visits c: what is left starts in c's own list and
      never comes back to c. */
  lemma {:induction false} CutAfterLast(reg: Registry, ms: seq<string>, path: seq<string>, c: string, x: string,
      seen: set<string>)
      returns (rest: seq<string>)
    requires ReachedBy(reg, ms, path, x) && Avoids(path, seen) && c in path
    ensures IsCombo(reg, c) && ReachedBy(reg, reg.combos[c], rest, x)
    ensures Avoids(rest, seen + {c}) && |rest| < |path|
    decreases |path|
  {
    assert ReachedBy(reg, reg.combos[path[0]], path[1..], x);
    if c in path[1..] {
      rest := CutAfterLast(reg, reg.combos[path[0]], path[1..], c, x, seen);
    } else {
      rest := path[1..];
    }
  }

  /** Completeness: a leaf reachable by a chain that avoids the path is found. The chain may
      loop; each descent cuts its loop through the combo entered. */
  lemma {:induction false} WalkComplete(reg: Registry, ms: seq<string>, seen: set<string>, out: seq<string>,
      path: seq<string>, x: string)
    requires OnPath(reg, seen)
    requires ReachedBy(reg, ms, path, x) && Avoids(path, seen)
    ensures x in Walk(reg, ms, seen, out)
    decreases reg.combos.Keys - seen, |ms|
  {
    var m := ms[0];
    var out' := if !IsCombo(reg, m) then (if !IsConcrete(m) && m in seen then out else Emit(out, Leaf(reg, m)))
                else if m in seen then out
                else Walk(reg, reg.combos[m], seen + {m}, out);
    if path == [] {
      var e :| e in ms && !IsCombo(reg, e) && Leaf(reg, e) == x;
      if e == m {
        EmitKeeps(out, x);
        WalkExtends(reg, ms[1..], seen, out');
      } else {
        assert ReachedBy(reg, ms[1..], [], x);
        WalkComplete(reg, ms[1..], seen, out', [], x);
      }
    } else if path[0] == m {
      var rest := CutAfterLast(reg, ms, path, m, x, seen);
      assert m in reg.combos.Keys - seen;
      WalkComplete(reg, reg.combos[m], seen + {m}, out, rest, x);
      WalkExtends(reg, ms[1..], seen, out');
    } else {
      assert ReachedBy(reg, ms[1..], path, x);
      WalkComplete(reg, ms[1..], seen, out', path, x);
    }
  }

  predicate NoRepeats(out: seq<string>) {
    forall i :: 0 < i < |out| ==> out[i - 1] != out[i]
  }

  lemma {:induction false} WalkNoRepeats(reg: Registry, ms: seq<string>, seen: set<string>, out: seq<string>)
    requires NoRepeats(out)
    ensures NoRepeats(Walk(reg, ms, seen, out)) && out <= Walk(reg, ms, seen, out)
    decreases reg.combos.Keys - seen, |ms|
  {
    if ms != [] {
      var m := ms[0];
      if !IsCombo(reg, m) {
        WalkNoRepeats(reg, ms[1..], seen, if !IsConcrete(m) && m in seen then out else Emit(out, Leaf(reg, m)));
      } else if m in seen {
        WalkNoRepeats(reg, ms[1..], seen, out);
      } else {
        assert m in reg.combos.Keys - seen;
        WalkNoRepeats(reg, reg.combos[m], seen + {m}, out);
        WalkNoRepeats(reg, ms[1..], seen, Walk(reg, reg.combos[m], seen + {m}, out));
      }
    }
  }

  /** Main result: on any registry, cyclic or not, the flattened list holds exactly the reachable
      leaves, no two neighbours are equal, and it fails only when there is no leaf at all. */
  lemma FlattenExact(reg: Registry, ms: seq<string>)
    ensures Flatten(reg, ms) == None <==> !exists x :: Reachable(reg, ms, x)
    ensures Flatten(reg, ms).Some? ==>
      NoRepeats(Flatten(reg, ms).value) && forall x :: x in Flatten(reg, ms).value <==> Reachable(reg, ms, x)
  {
    var out := Walk(reg, ms, {}, []);
    WalkNoRepeats(reg, ms, {}, []);
    forall x
      ensures x in out <==> Reachable(reg, ms, x)
    {
      if x in out {
        WalkSound(reg, ms, {}, [], x);
      }
      if Reachable(reg, ms, x) {
        var path :| ReachedBy(reg, ms, path, x);
        WalkComplete(reg, ms, {}, [], path, x);
      }
    }
    if out != [] {
      assert out[0] in out;
    }
  }

  // ---------- A reference means its list, in place ----------

  lemma {:induction false} WalkAppend(reg: Registry, a: seq<string>, b: seq<string>, seen: set<string>,
      out: seq<string>)
    ensures Walk(reg, a + b, seen, out) == Walk(reg, b, seen, Walk(reg, a, seen, out))
    decreases |a|
  {
    if a == [] {
      assert a + b == b;
    } else {
      var m := a[0];
      var out' := if !IsCombo(reg, m) then (if !IsConcrete(m) && m in seen then out else Emit(out, Leaf(reg, m)))
                  else if m in seen then out
                  else Walk(reg, reg.combos[m], seen + {m}, out);
      assert (a + b)[0] == m && (a + b)[1..] == a[1..] + b;
      WalkAppend(reg, a[1..], b, seen, out');
    }
  }

  /** c is met while expanding ms. */
  ghost predicate Meets(reg: Registry, ms: seq<string>, c: string) {
    exists path :: Chain(reg, ms, path) && c in path
  }

  lemma MeetsThrough(reg: Registry, ms: seq<string>, m: string, c: string)
    requires m in ms && IsCombo(reg, m)
    ensures Meets(reg, ms, m)
    ensures Meets(reg, reg.combos[m], c) ==> Meets(reg, ms, c)
  {
    assert [m][1..] == [] && Chain(reg, ms, [m]);
    if Meets(reg, reg.combos[m], c) {
      var path :| Chain(reg, reg.combos[m], path) && c in path;
      assert ([m] + path)[1..] == path;
      assert Chain(reg, ms, [m] + path);
    }
  }

  lemma MeetsLater(reg: Registry, ms: seq<string>, c: string)
    requires ms != [] && Meets(reg, ms[1..], c)
    ensures Meets(reg, ms, c)
  {
    var path :| Chain(reg, ms[1..], path) && c in path;
    assert Chain(reg, ms, path);
  }

  /** The cycle guard does nothing for a combo that is not met. */
  lemma {:induction false} GuardIsIdle(reg: Registry, ms: seq<string>, seen: set<string>, c: string, out: seq<string>)
    requires IsCombo(reg, c) && !Meets(reg, ms, c)
    ensures Walk(reg, ms, seen + {c}, out) == Walk(reg, ms, seen, out)
    decreases reg.combos.Keys - seen, |ms|
  {
    if ms != [] {
      var m := ms[0];
      assert !Meets(reg, ms[1..], c) by {
        if Meets(reg, ms[1..], c) {
          MeetsLater(reg, ms, c);
        }
      }
      if !IsCombo(reg, m) {
        GuardIsIdle(reg, ms[1..], seen, c, if !IsConcrete(m) && m in seen then out else Emit(out, Leaf(reg, m)));
      } else {
        MeetsThrough(reg, ms, m, c);
        if m in seen {
          GuardIsIdle(reg, ms[1..], seen, c, out);
        } else {
          assert m in reg.combos.Keys - seen;
          assert seen + {c} + {m} == seen + {m} + {c};
          GuardIsIdle(reg, reg.combos[m], seen + {m}, c, out);
          GuardIsIdle(reg, ms[1..], seen, c, Walk(reg, reg.combos[m], seen + {m}, out));
        }
      }
    }
  }

  lemma WalkOne(reg: Registry, c: string)
    requires IsCombo(reg, c)
    ensures forall out :: Walk(reg, [c], {}, out) == Walk(reg, reg.combos[c], {c}, out)
  {
    assert [c][1..] == [] && {} + {c} == {c};
  }

  /** Main result: replacing a combo that does not refer back to itself by its own list, where it
      stands, changes nothing: nesting is only a way of writing lists, order included. */
  lemma InliningPreserves(reg: Registry, a: seq<string>, c: string, b: seq<string>)
    requires IsCombo(reg, c) && !Meets(reg, reg.combos[c], c)
    ensures Flatten(reg, a + [c] + b) == Flatten(reg, a + reg.combos[c] + b)
  {
    var out := Walk(reg, a, {}, []);
    WalkAppend(reg, a + [c], b, {}, []);
    WalkAppend(reg, a, [c], {}, []);
    WalkAppend(reg, a + reg.combos[c], b, {}, []);
    WalkAppend(reg, a, reg.combos[c], {}, []);
    WalkOne(reg, c);
    GuardIsIdle(reg, reg.combos[c], {}, c, out);
    assert {} + {c} == {c};
  }
}
