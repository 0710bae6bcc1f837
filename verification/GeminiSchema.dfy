/** Recursive clean-up of a JSON schema for Gemini (internal/translator/schema.go). */
module GeminiSchema {
  import opened Prelude

  /** Decoded JSON. Strings is Go's []string, which the cleaner writes for `enum` and `required`
      and which, unlike a decoded array, it never walks into. */
  datatype Json = Null | Bool(b: bool) | Number(n: real) | Str(s: string)
                | Arr(items: seq<Json>) | Obj(fields: Schema) | Strings(names: seq<string>)

  type Schema = map<string, Json>

  /** A keyword Gemini's schema has no field for. */
  predicate Unsupported(k: string) {
    || k == "minLength" || k == "maxLength" || k == "exclusiveMinimum" || k == "exclusiveMaximum"
    || k == "minItems" || k == "maxItems" || k == "format" || k == "multipleOf"
    || k == "uniqueItems" || k == "contains" || k == "unevaluatedProperties" || k == "unevaluatedItems"
    || k == "contentSchema"
    || k == "default" || k == "examples"
    || k == "$schema" || k == "$defs" || k == "definitions" || k == "const" || k == "$ref" || k == "$comment"
    || k == "deprecated" || k == "readOnly" || k == "writeOnly"
    || k == "additionalProperties" || k == "propertyNames" || k == "patternProperties" || k == "enumDescriptions"
    || k == "allOf" || k == "not"
    || k == "dependencies" || k == "dependentSchemas" || k == "dependentRequired"
    || k == "title" || k == "optional" || k == "if" || k == "then" || k == "else"
    || k == "contentMediaType" || k == "contentEncoding"
    || k == "cornerRadius" || k == "fillColor" || k == "fontFamily" || k == "fontSize" || k == "fontWeight"
    || k == "gap" || k == "padding" || k == "strokeColor" || k == "strokeThickness" || k == "textColor"
  }

  predicate Vendor(k: string) {
    |k| > 2 && k[0] == 'x' && k[1] == '-'
  }

  /** What the cleaner is told: which keys to strip, and how json.Marshal prints an enum item
      that is not a string, without quotes. */
  datatype Rules = Rules(strip: string -> bool, render: Json -> string)

  function GeminiRules(render: Json -> string): Rules {
    Rules(k => Unsupported(k) || Vendor(k), render)
  }

  /** No key the cleaner itself looks at or writes is stripped. */
  predicate Lawful(r: Rules) {
    && !r.strip("type") && !r.strip("properties") && !r.strip("enum") && !r.strip("anyOf") && !r.strip("oneOf")
    && !r.strip("required") && !r.strip("reason") && !r.strip("description")
  }

  lemma TypeAndPropertiesSurvive()
    ensures !Unsupported("type") && !Unsupported("properties")
  {
  }

  lemma EnumAndAnyOfSurvive()
    ensures !Unsupported("enum") && !Unsupported("anyOf")
  {
  }

  lemma OneOfAndRequiredSurvive()
    ensures !Unsupported("oneOf") && !Unsupported("required")
  {
  }

  lemma PlaceholderNamesSurvive()
    ensures !Unsupported("reason") && !Unsupported("description")
  {
  }

  lemma GeminiRulesAreLawful(render: Json -> string)
    ensures Lawful(GeminiRules(render))
  {
    TypeAndPropertiesSurvive();
    EnumAndAnyOfSurvive();
    OneOfAndRequiredSurvive();
    PlaceholderNamesSurvive();
    NamesAreNotVendor();
  }

  lemma NamesAreNotVendor()
    ensures !Vendor("type") && !Vendor("properties") && !Vendor("enum") && !Vendor("anyOf")
    ensures !Vendor("oneOf") && !Vendor("required") && !Vendor("reason") && !Vendor("description")
  {
  }

  const REASON := map["type" := Str("string"),
                      "description" := Str("Brief explanation of why you are calling this tool")]

  const PLACEHOLDER := map["reason" := Obj(REASON)]

  // ---------- One object, before its children are visited ----------

  function Strip(m: Schema, r: Rules): Schema {
    map k | k in m && !r.strip(k) :: m[k]
  }

  function DefaultType(m: Schema): Schema {
    if "properties" in m && "type" !in m then m["type" := Str("object")] else m
  }

  function EnumNames(items: seq<Json>, r: Rules): seq<string> {
    if items == [] then []
    else
      var last := items[|items| - 1];
      EnumNames(items[..|items| - 1], r) + [if last.Str? then last.s else r.render(last)]
  }

  function FixEnum(m: Schema, r: Rules): Schema {
    if "enum" in m && m["enum"].Arr?
    then
      var m' := m["enum" := Strings(EnumNames(m["enum"].items, r))];
      if "type" in m then m' else m'["type" := Str("string")]
    else m
  }

  predicate NotJustNull(j: Json) {
    j.Obj? && ("type" in j.fields ==> j.fields["type"] != Str("null"))
  }

  /** The fields of the first branch that is an object and not just type null; empty if none. */
  function Branch(items: seq<Json>): Schema {
    if items == [] then map[]
    else if NotJustNull(items[0]) then items[0].fields
    else Branch(items[1..])
  }

  function BranchAt(m: Schema, key: string): Schema {
    if key in m && m[key].Arr? then Branch(m[key].items) else map[]
  }

  function Hoist(m: Schema, key: string): Schema {
    if key in m then (m + BranchAt(m, key)) - {key} else m
  }

  /** The first entry that is a string other than "null"; "" if none. */
  function FirstType(items: seq<Json>): string {
    if items == [] then ""
    else if items[0].Str? && items[0].s != "null" then items[0].s
    else FirstType(items[1..])
  }

  function FlattenType(m: Schema): Schema {
    if "type" in m && m["type"].Arr? && m["type"].items != []
    then
      var t := FirstType(m["type"].items);
      m["type" := Str(if t != "" then t else "string")]
    else m
  }

  function Names(items: seq<Json>, props: Schema): seq<string> {
    if items == [] then []
    else
      var last := items[|items| - 1];
      Names(items[..|items| - 1], props) + (if last.Str? && last.s in props then [last.s] else [])
  }

  function Properties(m: Schema): Schema {
    if "properties" in m && m["properties"].Obj? then m["properties"].fields else map[]
  }

  function PruneRequired(m: Schema): Schema {
    if "required" !in m then m
    else
      var valid := if m["required"].Arr? then Names(m["required"].items, Properties(m)) else [];
      if valid != [] then m["required" := Strings(valid)] else m - {"required"}
  }

  function WithPlaceholder(m: Schema): Schema {
    m["properties" := Obj(PLACEHOLDER)]["required" := Strings(["reason"])]
  }

  function FillObject(m: Schema): Schema {
    if "type" in m && m["type"] == Str("object") && Properties(m) == map[] then WithPlaceholder(m) else m
  }

  function FillEmpty(m: Schema): Schema {
    if m == map[] then WithPlaceholder(m["type" := Str("object")]) else m
  }

  /** The object with types and enums settled, then with anyOf and oneOf hoisted. */
  function Settled(m: Schema, r: Rules): Schema {
    FixEnum(DefaultType(Strip(m, r)), r)
  }

  function Hoisted(m: Schema, r: Rules): Schema {
    Hoist(Hoist(Settled(m, r), "anyOf"), "oneOf")
  }

  function Finished(m: Schema): Schema {
    FillEmpty(FillObject(PruneRequired(FlattenType(m))))
  }

  function Prepare(m: Schema, r: Rules): Schema {
    Finished(Strip(Hoisted(m, r), r))
  }

  // ---------- Termination ----------

  /** Objects the cleaner makes itself rank below all others, so that inserting one still
      descends. */
  function Rank(j: Json): nat {
    if j == Obj(REASON) then 0 else if j == Obj(PLACEHOLDER) then 1 else 2
  }

  ghost predicate Leaf(j: Json) {
    !j.Obj? && !j.Arr?
  }

  ghost predicate Below(v: Json, j: Json) {
    Leaf(v) || v < j || v == Obj(PLACEHOLDER)
  }

  lemma BranchBelow(items: seq<Json>, j: Json)
    requires forall i :: 0 <= i < |items| ==> items[i] < j
    ensures forall k :: k in Branch(items) ==> Branch(items)[k] < j
  {
    if items != [] && !NotJustNull(items[0]) {
      assert forall i :: 0 <= i < |items[1..]| ==> items[1..][i] == items[i + 1];
      BranchBelow(items[1..], j);
    } else if items != [] {
      forall k | k in items[0].fields
        ensures items[0].fields[k] < j
      {
        assert items[0].fields[k] < items[0];
      }
    }
  }

  lemma HoistBelow(m: Schema, key: string, j: Json)
    requires forall k :: k in m ==> Below(m[k], j)
    ensures forall k :: k in Hoist(m, key) ==> Below(Hoist(m, key)[k], j)
  {
    if key in m && m[key].Arr? {
      var items := m[key].items;
      forall i | 0 <= i < |items|
        ensures items[i] < j
      {
        assert items[i] < m[key];
      }
      BranchBelow(items, j);
    }
  }

  lemma SettledBelow(m: Schema, r: Rules, j: Json)
    requires forall k :: k in m ==> Below(m[k], j)
    ensures forall k :: k in Settled(m, r) ==> Below(Settled(m, r)[k], j)
  {
    var s := DefaultType(Strip(m, r));
    assert forall k :: k in s ==> Below(s[k], j);
  }

  lemma FinishedBelow(m: Schema, j: Json)
    requires forall k :: k in m ==> Below(m[k], j)
    ensures forall k :: k in Finished(m) ==> Below(Finished(m)[k], j)
  {
    var s := PruneRequired(FlattenType(m));
    assert forall k :: k in s ==> Below(s[k], j);
  }

  lemma PrepareBelow(m: Schema, r: Rules)
    ensures forall k :: k in Prepare(m, r) ==> Below(Prepare(m, r)[k], Obj(m))
  {
    var j := Obj(m);
    assert forall k :: k in m ==> m[k] < j;
    SettledBelow(m, r, j);
    HoistBelow(Settled(m, r), "anyOf", j);
    HoistBelow(Hoist(Settled(m, r), "anyOf"), "oneOf", j);
    FinishedBelow(Strip(Hoisted(m, r), r), j);
  }

  /** What the cleaner inserted it leaves alone. */
  lemma PlaceholderIsPrepared(r: Rules)
    requires Lawful(r)
    ensures Prepare(PLACEHOLDER, r) == PLACEHOLDER
    ensures Prepare(REASON, r) == REASON
  {
    assert Strip(PLACEHOLDER, r) == PLACEHOLDER && Strip(REASON, r) == REASON;
    assert "type" in REASON && "reason" in PLACEHOLDER;
  }

  lemma ChildDescends(m: Schema, r: Rules, k: string)
    requires Lawful(r) && k in Prepare(m, r)
    ensures var v := Prepare(m, r)[k];
      && (v.Obj? ==> Rank(v) < Rank(Obj(m)) || (Rank(v) == Rank(Obj(m)) && v < Obj(m)))
      && (v.Arr? ==> v < Obj(m) && Rank(Obj(m)) == 2)
  {
    if Rank(Obj(m)) == 2 {
      PrepareBelow(m, r);
      assert Below(Prepare(m, r)[k], Obj(m));
    } else {
      InsertedDescends(m, r, k);
    }
  }

  /** The inserted objects have no children but each other, so they rank last. */
  lemma InsertedDescends(m: Schema, r: Rules, k: string)
    requires Lawful(r) && k in Prepare(m, r) && Rank(Obj(m)) < 2
    ensures !Prepare(m, r)[k].Arr?
    ensures Prepare(m, r)[k].Obj? ==> Rank(Prepare(m, r)[k]) < Rank(Obj(m))
  {
    PlaceholderIsPrepared(r);
    if m == PLACEHOLDER {
      assert PLACEHOLDER.Keys == {"reason"} && PLACEHOLDER["reason"] == Obj(REASON);
    } else {
      assert m == REASON && REASON.Keys == {"type", "description"};
    }
  }

  // ---------- The recursion ----------

  /** cleanGeminiSchema: prepare the object, then clean every child that is an object, and every
      object directly inside a child that is an array. */
  function Clean(j: Json, r: Rules): (out: Json)
    requires Lawful(r)
    ensures out.Obj? <==> j.Obj?
    decreases Rank(j), j
  {
    match j
    case Obj(m) => Obj(map k | k in Prepare(m, r) :: CleanChild(m, r, k))
    case _ => j
  }

  function CleanChild(m: Schema, r: Rules, k: string): Json
    requires Lawful(r) && k in Prepare(m, r)
    decreases Rank(Obj(m)), Obj(m), 0
  {
    ChildDescends(m, r, k);
    match Prepare(m, r)[k]
    case Obj(_) => Clean(Prepare(m, r)[k], r)
    case Arr(items) =>
      Arr(seq(|items|, i requires 0 <= i < |items| =>
        ItemDescends(items, Obj(m), i);
        if items[i].Obj? then Clean(items[i], r) else items[i]))
    case v => v
  }

  lemma ItemDescends(items: seq<Json>, j: Json, i: nat)
    requires Arr(items) < j && i < |items| && Rank(j) == 2
    ensures items[i] < j && Rank(items[i]) <= 2
  {
    assert items[i] < Arr(items);
  }

  // ---------- The same, step by step ----------

  method StripUnsupported(m: Schema, r: Rules) returns (out: Schema)
    ensures out == Strip(m, r)
  {
    out := m;
    var order := RangeOrder(m.Keys);
    for i := 0 to |order|
      invariant out == map k | k in m && !(r.strip(k) && k in order[..i]) :: m[k]
    {
      assert order[..i + 1] == order[..i] + [order[i]];
      if r.strip(order[i]) {
        out := out - {order[i]};
      }
    }
    assert order[..|order|] == order;
  }

  method ConvertEnum(items: seq<Json>, r: Rules) returns (names: seq<string>)
    ensures names == EnumNames(items, r)
  {
    names := [];
    for i := 0 to |items|
      invariant names == EnumNames(items[..i], r)
    {
      assert items[..i + 1][..i] == items[..i];
      names := names + [if items[i].Str? then items[i].s else r.render(items[i])];
    }
    assert items[..|items|] == items;
  }

  method HoistKey(m: Schema, key: string) returns (out: Schema)
    ensures out == Hoist(m, key)
  {
    out := m;
    if key in m {
      if m[key].Arr? {
        var items := m[key].items;
        for i := 0 to |items|
          invariant Branch(items) == Branch(items[i..])
          invariant out == m
        {
          if NotJustNull(items[i]) {
            out := out + items[i].fields;
            break;
          }
        }
      }
      out := out - {key};
    }
  }

  method PickType(items: seq<Json>) returns (t: string)
    ensures t == FirstType(items)
  {
    t := "";
    for i := 0 to |items|
      invariant t == "" && FirstType(items) == FirstType(items[i..])
    {
      if items[i].Str? && items[i].s != "null" {
        t := items[i].s;
        break;
      }
    }
  }

  method ValidNames(items: seq<Json>, props: Schema) returns (names: seq<string>)
    ensures names == Names(items, props)
  {
    names := [];
    for i := 0 to |items|
      invariant names == Names(items[..i], props)
    {
      assert items[..i + 1][..i] == items[..i];
      if items[i].Str? && items[i].s in props {
        names := names + [items[i].s];
      }
    }
    assert items[..|items|] == items;
  }

  method PrepareObject(schema: Schema, r: Rules) returns (m: Schema)
    ensures m == Prepare(schema, r)
  {
    m := StripUnsupported(schema, r);
    if "properties" in m && "type" !in m {
      m := m["type" := Str("object")];
    }
    if "enum" in m && m["enum"].Arr? {
      var names := ConvertEnum(m["enum"].items, r);
      m := m["enum" := Strings(names)];
      if "type" !in m {
        m := m["type" := Str("string")];
      }
    }
    assert m == Settled(schema, r);
    m := HoistKey(m, "anyOf");
    m := HoistKey(m, "oneOf");
    m := StripUnsupported(m, r);
    m := FinishObject(m);
  }

  method FinishObject(schema: Schema) returns (m: Schema)
    ensures m == Finished(schema)
  {
    m := schema;
    if "type" in m && m["type"].Arr? && m["type"].items != [] {
      var firstValid := PickType(m["type"].items);
      m := m["type" := Str(if firstValid != "" then firstValid else "string")];
    }
    m := KeepValidRequired(m);
    m := FillPlaceholders(m);
  }

  method KeepValidRequired(schema: Schema) returns (m: Schema)
    ensures m == PruneRequired(schema)
  {
    m := schema;
    if "required" in m {
      if m["required"].Arr? {
        var validReqs := ValidNames(m["required"].items, Properties(m));
        if validReqs != [] {
          m := m["required" := Strings(validReqs)];
        } else {
          m := m - {"required"};
        }
      } else {
        m := m - {"required"};
      }
    }
  }

  method FillPlaceholders(schema: Schema) returns (m: Schema)
    ensures m == FillEmpty(FillObject(schema))
  {
    m := schema;
    if "type" in m && m["type"] == Str("object") {
      var needsPlaceholder := true;
      if "properties" in m && m["properties"].Obj? && m["properties"].fields != map[] {
        needsPlaceholder := false;
      }
      if needsPlaceholder {
        m := m["properties" := Obj(PLACEHOLDER)];
        m := m["required" := Strings(["reason"])];
      }
    }
    if m == map[] {
      m := m["type" := Str("object")];
      m := m["properties" := Obj(PLACEHOLDER)];
      m := m["required" := Strings(["reason"])];
    }
  }

  method CleanGeminiSchema(schema: Schema, r: Rules) returns (out: Schema)
    requires Lawful(r)
    ensures Obj(out) == Clean(Obj(schema), r)
    decreases Rank(Obj(schema)), Obj(schema)
  {
    out := PrepareObject(schema, r);
    ghost var m, cleaned := out, Clean(Obj(schema), r).fields;
    var remaining := out.Keys;
    while remaining != {}
      invariant out.Keys == m.Keys && remaining <= m.Keys
      invariant forall k :: k in m ==> out[k] == if k in remaining then m[k] else cleaned[k]
      decreases remaining
    {
      var k :| k in remaining;
      var child := CleanEntry(schema, r, k, out[k]);
      out, remaining := out[k := child], remaining - {k};
    }
    assert out == cleaned;
  }

  method CleanEntry(ghost schema: Schema, r: Rules, ghost k: string, v: Json) returns (out: Json)
    requires Lawful(r) && k in Prepare(schema, r) && v == Prepare(schema, r)[k]
    ensures out == CleanChild(schema, r, k)
    decreases Rank(Obj(schema)), Obj(schema), 1
  {
    ChildDescends(schema, r, k);
    match v {
      case Obj(fields) =>
        var child := CleanGeminiSchema(fields, r);
        out := Obj(child);
      case Arr(items) =>
        var cleaned := CleanItems(items, r, schema);
        out := Arr(cleaned);
      case _ =>
        out := v;
    }
  }

  method CleanItems(items: seq<Json>, r: Rules, ghost schema: Schema) returns (out: seq<Json>)
    requires Lawful(r) && Arr(items) < Obj(schema) && Rank(Obj(schema)) == 2
    ensures |out| == |items|
    ensures forall i :: 0 <= i < |items| ==> out[i] == if items[i].Obj? then Clean(items[i], r) else items[i]
    decreases Rank(Obj(schema)), Obj(schema), 0
  {
    out := [];
    for i := 0 to |items|
      invariant |out| == i
      invariant forall j :: 0 <= j < i ==> out[j] == if items[j].Obj? then Clean(items[j], r) else items[j]
    {
      ItemDescends(items, Obj(schema), i);
      if items[i].Obj? {
        var elem := CleanGeminiSchema(items[i].fields, r);
        out := out + [Obj(elem)];
      } else {
        out := out + [items[i]];
      }
    }
  }

  // ---------- What every visited object looks like afterwards ----------

  predicate Tidy(m: Schema, r: Rules) {
    && m != map[]
    && (forall k :: k in m ==> !r.strip(k))
    && "oneOf" !in m
    && ("type" in m && m["type"] == Str("object") ==> Properties(m) != map[])
    && ("type" in m && m["type"].Arr? ==> m["type"].items == [])
  }

  /** j and every object the recursion visits below it are tidy. */
  ghost predicate AllTidy(j: Json, r: Rules) {
    match j
    case Obj(m) => Tidy(m, r) && forall k :: k in m ==> AllTidy(m[k], r)
    case Arr(items) => forall i :: 0 <= i < |items| && items[i].Obj? ==> AllTidy(items[i], r)
    case _ => true
  }

  lemma FinishedIsTidy(m: Schema, r: Rules)
    requires Lawful(r) && "oneOf" !in m && forall k :: k in m ==> !r.strip(k)
    ensures Tidy(Finished(m), r)
  {
    var p := PruneRequired(FlattenType(m));
    assert forall k :: k in p ==> k in m;
    assert "reason" in PLACEHOLDER;
    assert "type" in p && p["type"].Arr? ==> p["type"].items == [];
    if "type" in p && p["type"] == Str("object") && Properties(p) == map[] {
      assert Properties(WithPlaceholder(p)) == PLACEHOLDER != map[];
    }
    assert "type" in FillObject(p) || FillObject(p) == p;
  }

  lemma PreparedIsTidy(m: Schema, r: Rules)
    requires Lawful(r)
    ensures Tidy(Prepare(m, r), r)
  {
    FinishedIsTidy(Strip(Hoisted(m, r), r), r);
  }

  lemma CleanFields(m: Schema, r: Rules)
    requires Lawful(r)
    ensures Clean(Obj(m), r).fields.Keys == Prepare(m, r).Keys
    ensures forall k :: k in Prepare(m, r) ==> Clean(Obj(m), r).fields[k] == CleanChild(m, r, k)
  {
  }

  lemma ChildKind(m: Schema, r: Rules, k: string)
    requires Lawful(r) && k in Prepare(m, r)
    ensures var p, c := Prepare(m, r)[k], CleanChild(m, r, k);
      if p.Obj? then c.Obj? else if p.Arr? then c.Arr? && |c.items| == |p.items| else c == p
  {
  }

  /** Cleaning the children does not untidy the parent. */
  lemma ChildrenKeepTidy(m: Schema, r: Rules)
    requires Lawful(r)
    ensures Tidy(Clean(Obj(m), r).fields, r)
    decreases Rank(Obj(m)), Obj(m)
  {
    PreparedIsTidy(m, r);
    CleanFields(m, r);
    if "type" in Prepare(m, r) {
      ChildKind(m, r, "type");
      if CleanChild(m, r, "type") == Str("object") {
        PropertiesStay(m, r);
      }
    }
    var k :| k in Prepare(m, r);
    assert k in Clean(Obj(m), r).fields;
  }

  lemma PropertiesStay(m: Schema, r: Rules)
    requires Lawful(r) && Properties(Prepare(m, r)) != map[]
    ensures Properties(Clean(Obj(m), r).fields) != map[]
    decreases Rank(Obj(m)), Obj(m), 0
  {
    ChildDescends(m, r, "properties");
    ChildrenKeepTidy(Properties(Prepare(m, r)), r);
  }

  /** Main result: after cleaning, no visited object is empty, holds a stripped key or `oneOf`, or
      is an "object" without properties. */
  lemma {:induction false} CleanIsTidy(j: Json, r: Rules)
    requires Lawful(r) && j.Obj?
    ensures AllTidy(Clean(j, r), r)
    decreases Rank(j), j
  {
    var m := j.fields;
    ChildrenKeepTidy(m, r);
    forall k | k in Prepare(m, r)
      ensures AllTidy(CleanChild(m, r, k), r)
    {
      ChildIsTidy(m, r, k);
    }
  }

  lemma {:induction false} ChildIsTidy(m: Schema, r: Rules, k: string)
    requires Lawful(r) && k in Prepare(m, r)
    ensures AllTidy(CleanChild(m, r, k), r)
    decreases Rank(Obj(m)), Obj(m), 0
  {
    ChildDescends(m, r, k);
    match Prepare(m, r)[k] {
      case Obj(_) => CleanIsTidy(Prepare(m, r)[k], r);
      case Arr(items) =>
        forall i | 0 <= i < |items| && items[i].Obj?
          ensures AllTidy(Clean(items[i], r), r)
        {
          ItemDescends(items, Obj(m), i);
          CleanIsTidy(items[i], r);
        }
      case _ =>
    }
  }

  // ---------- What hoisting can bring back ----------

  /** The branch of m that anyOf brings, and the one that oneOf brings after that. */
  function FirstBranch(m: Schema): Schema {
    BranchAt(m, "anyOf")
  }

  function SecondBranch(m: Schema): Schema {
    BranchAt(m + FirstBranch(m), "oneOf")
  }

  /** What m gives for k once its branches are hoisted: the last one to have it decides. */
  function Given(m: Schema, k: string): Option<Json> {
    if k in SecondBranch(m) then Some(SecondBranch(m)[k])
    else if k in FirstBranch(m) then Some(FirstBranch(m)[k])
    else if k in m then Some(m[k])
    else None
  }

  lemma HoistedGiven(m: Schema, r: Rules, k: string)
    requires Lawful(r) && !r.strip(k) && k !in {"anyOf", "oneOf", "type", "enum"}
    ensures var h := Strip(Hoisted(m, r), r);
      (k in h <==> Given(m, k).Some?) && (k in h ==> h[k] == Given(m, k).value)
  {
    BranchesAre(m, r);
    assert k in Settled(m, r) <==> k in m;
    assert k in m ==> Settled(m, r)[k] == m[k];
  }

  /** m has a type, or something it is given one for before hoisting. */
  predicate Typed(m: Schema) {
    "type" in m || "properties" in m || ("enum" in m && m["enum"].Arr?)
  }

  lemma BranchesAre(m: Schema, r: Rules)
    requires Lawful(r)
    ensures BranchAt(Settled(m, r), "anyOf") == FirstBranch(m)
    ensures BranchAt(Hoist(Settled(m, r), "anyOf"), "oneOf") == SecondBranch(m)
  {
  }

  lemma FinishedKeys(m: Schema)
    ensures forall k :: k in Finished(m) && k !in {"type", "required", "properties"} ==> k in m
    ensures "type" in Finished(m) <==> "type" in m || PruneRequired(m) == map[]
    ensures "properties" in Finished(m) && "properties" !in m ==> "type" in Finished(m)
    ensures forall k :: k in m && k !in {"type", "required", "properties"} ==>
              k in Finished(m) && Finished(m)[k] == m[k]
  {
  }

  /** Finishing an object neither causes nor cures properties without a type. */
  lemma FinishedTypeless(m: Schema)
    ensures "properties" in Finished(m) && "type" !in Finished(m) <==> "properties" in m && "type" !in m
  {
    assert "properties" in m ==> "properties" in PruneRequired(FlattenType(m));
  }

  lemma HoistedKeys(m: Schema, r: Rules)
    requires Lawful(r)
    ensures forall k :: k in Hoisted(m, r) <==>
      k != "oneOf" && (k in SecondBranch(m) || (k != "anyOf" && (k in FirstBranch(m) || k in Settled(m, r))))
    ensures forall k | k in Settled(m, r) && k !in FirstBranch(m) && k !in SecondBranch(m)
              && k !in {"anyOf", "oneOf"} ::
              Hoisted(m, r)[k] == Settled(m, r)[k]
  {
    BranchesAre(m, r);
  }

  /** `anyOf` is meant to go away. It survives, unhoisted, exactly when the chosen oneOf branch
      carries one, because anyOf has been dealt with by then. */
  lemma AnyOfSurvivesIff(m: Schema, r: Rules)
    requires Lawful(r)
    ensures "anyOf" in Clean(Obj(m), r).fields <==> "anyOf" in SecondBranch(m)
  {
    HoistedKeys(m, r);
    FinishedKeys(Strip(Hoisted(m, r), r));
  }

  /** An object with properties is meant to have a type. It ends without one exactly when a
      hoisted branch brings the properties and nothing brings a type. */
  lemma PropertiesWithoutTypeIff(m: Schema, r: Rules)
    requires Lawful(r)
    ensures var out := Clean(Obj(m), r).fields;
      "properties" in out && "type" !in out <==>
        && ("properties" in FirstBranch(m) || "properties" in SecondBranch(m))
        && "type" !in FirstBranch(m) && "type" !in SecondBranch(m) && !Typed(m)
  {
    FinishedTypeless(Strip(Hoisted(m, r), r));
    HoistedKeys(m, r);
  }

  /** The branch that has the last word on the enum brings a list. */
  predicate BringsEnumList(m: Schema) {
    if "enum" in SecondBranch(m) then SecondBranch(m)["enum"].Arr?
    else "enum" in FirstBranch(m) && FirstBranch(m)["enum"].Arr?
  }

  /** An enum is meant to be a list of strings. It ends as the list it came as exactly when a hoisted
      branch brings it, because enums have been converted by then. */
  lemma EnumUnconvertedIff(m: Schema, r: Rules)
    requires Lawful(r)
    ensures var out := Clean(Obj(m), r).fields;
      "enum" in out && out["enum"].Arr? <==> BringsEnumList(m)
  {
    HoistedKeys(m, r);
    FinishedKeys(Strip(Hoisted(m, r), r));
    HoistedEnum(m, r);
  }

  lemma HoistedEnum(m: Schema, r: Rules)
    requires Lawful(r)
    ensures var h := Strip(Hoisted(m, r), r);
      "enum" in h && h["enum"].Arr? <==> BringsEnumList(m)
  {
    BranchesAre(m, r);
    assert "enum" in Settled(m, r) ==> !Settled(m, r)["enum"].Arr?;
  }

  // ---------- What the cleaner must not lose ----------

  /** An enum keeps its items, one by one: strings as they are, the rest printed. */
  lemma {:induction false} EnumNamesAt(items: seq<Json>, r: Rules, i: nat)
    requires i < |items|
    ensures |EnumNames(items, r)| == |items|
    ensures EnumNames(items, r)[i] == if items[i].Str? then items[i].s else r.render(items[i])
  {
    EnumNamesLength(items, r);
    EnumNamesLength(items[..|items| - 1], r);
    if i < |items| - 1 {
      EnumNamesAt(items[..|items| - 1], r, i);
    }
  }

  lemma {:induction false} EnumNamesLength(items: seq<Json>, r: Rules)
    ensures |EnumNames(items, r)| == |items|
  {
    if items != [] {
      EnumNamesLength(items[..|items| - 1], r);
    }
  }

  /** Hoisting takes the first branch that is an object and not just null, and of a type list the
      first type that is not "null". */
  lemma {:induction false} FirstIsTaken(items: seq<Json>, i: nat)
    requires i < |items|
    ensures items[i].Obj? && !("type" in items[i].fields && items[i].fields["type"] == Str("null"))
            && (forall j :: 0 <= j < i ==>
                  !items[j].Obj? || ("type" in items[j].fields && items[j].fields["type"] == Str("null"))) ==>
              Branch(items) == items[i].fields
    ensures items[i].Str? && items[i].s != "null"
            && (forall j :: 0 <= j < i ==> !items[j].Str? || items[j].s == "null") ==>
              FirstType(items) == items[i].s
  {
    if i > 0 {
      FirstIsTaken(items[1..], i - 1);
      assert forall j :: 0 <= j < i - 1 ==> items[1..][j] == items[j + 1];
    }
  }

  /** Nothing that an object and its hoisted branches give is dropped but stripped keys, anyOf, oneOf and
      required; and a value is only rewritten under type, enum and properties. */
  lemma PrepareKeepsTheRest(m: Schema, r: Rules, k: string)
    requires Lawful(r)
    requires Given(m, k).Some? && !r.strip(k) && k !in {"anyOf", "oneOf", "required"}
    ensures k in Prepare(m, r)
    ensures k !in {"type", "enum", "properties"} ==> Prepare(m, r)[k] == Given(m, k).value
  {
    HoistedKeys(m, r);
    var h := Strip(Hoisted(m, r), r);
    assert k in h;
    if k !in {"type", "enum"} {
      HoistedGiven(m, r, k);
    }
    FinishedKeys(h);
    FinishedKeepsThree(h);
  }

  lemma FinishedKeepsThree(h: Schema)
    ensures "type" in h ==> "type" in Finished(h)
    ensures "properties" in h ==> "properties" in Finished(h)
  {
  }

  lemma {:induction false} NamesAreProperties(items: seq<Json>, props: Schema)
    ensures forall n :: n in Names(items, props) ==> n in props
  {
    if items != [] {
      NamesAreProperties(items[..|items| - 1], props);
    }
  }

  /** Before the children are cleaned, `required` names properties only. */
  lemma RequiredNamesProperties(m: Schema, r: Rules)
    ensures NamesProperties(Prepare(m, r))
  {
    var t := FlattenType(Strip(Hoisted(m, r), r));
    PrunedNames(t);
    FilledNamesProperties(PruneRequired(t));
  }

  predicate NamesProperties(m: Schema) {
    "required" in m ==> m["required"].Strings? && forall n :: n in m["required"].names ==> n in Properties(m)
  }

  lemma PrunedNames(t: Schema)
    ensures NamesProperties(PruneRequired(t))
  {
    if "required" in t && t["required"].Arr? {
      NamesAreProperties(t["required"].items, Properties(t));
    }
    assert Properties(PruneRequired(t)) == Properties(t);
  }

  lemma FilledNamesProperties(p: Schema)
    requires NamesProperties(p)
    ensures NamesProperties(FillEmpty(FillObject(p)))
  {
    assert "reason" in PLACEHOLDER;
  }

  /** The names a schema uses for itself and the cleaner takes away. */
  const CONSUMED := {"anyOf", "oneOf", "required"}

  /** But the properties map is then cleaned as if it were a schema: a required property stays if and
      only if its own name is not one that gets stripped, nor anyOf, oneOf or required. For those
      three see PropertyNamedLikeKeywordIsLost. */
  lemma RequiredPropertyStaysIff(m: Schema, r: Rules, n: string)
    requires Lawful(r) && "required" in Prepare(m, r)
    requires Prepare(m, r)["required"].Strings? && n in Prepare(m, r)["required"].names
    ensures var props, out := Properties(Prepare(m, r)), Properties(Clean(Obj(m), r).fields);
      if n in CONSUMED then n in out ==> Stands(props, n, out[n]) else n in out <==> !r.strip(n)
  {
    RequiredNamesProperties(m, r);
    if n in CONSUMED {
      PropertyNamedLikeKeywordIsLost(m, r, n);
    } else {
      StaysInResultIff(m, r, n);
    }
  }

  lemma StaysInResultIff(m: Schema, r: Rules, n: string)
    requires Lawful(r) && n in Properties(Prepare(m, r)) && n !in CONSUMED
    ensures n in Properties(Clean(Obj(m), r).fields) <==> !r.strip(n)
  {
    PropertiesAreCleaned(m, r);
    PropertyStaysIff(Properties(Prepare(m, r)), r, n);
  }

  lemma PropertyStaysIff(props: Schema, r: Rules, n: string)
    requires Lawful(r) && n in props && n !in CONSUMED
    ensures n in Prepare(props, r) <==> !r.strip(n)
  {
    if r.strip(n) {
      PreparedIsTidy(props, r);
    } else {
      PrepareKeepsTheRest(props, r, n);
    }
  }

  lemma PropertiesAreCleaned(m: Schema, r: Rules)
    requires Lawful(r)
    ensures Properties(Clean(Obj(m), r).fields) == map[]
         || Properties(Clean(Obj(m), r).fields) == Clean(Obj(Properties(Prepare(m, r))), r).fields
    ensures Properties(Prepare(m, r)) != map[] ==>
              Properties(Clean(Obj(m), r).fields) == Clean(Obj(Properties(Prepare(m, r))), r).fields
  {
    if "properties" in Prepare(m, r) {
      PropertiesChild(m, r);
    }
  }

  lemma PropertiesChild(m: Schema, r: Rules)
    requires Lawful(r) && "properties" in Prepare(m, r)
    ensures var p, c := Prepare(m, r)["properties"], CleanChild(m, r, "properties");
      if p.Obj? then c == Clean(Obj(p.fields), r) && c.Obj? else !c.Obj?
  {
  }

  /** What can stand under the name of a consumed property: a placeholder's own list of names, or the
      anyOf of a oneOf branch, should the property oneOf be a list. */
  predicate Stands(props: Schema, n: string, v: Json) {
    (n == "required" && v.Strings?) || (n == "anyOf" && "anyOf" in SecondBranch(props))
  }

  /** A property named `anyOf`, `oneOf` or `required` is always lost. */
  lemma PropertyNamedLikeKeywordIsLost(m: Schema, r: Rules, n: string)
    requires Lawful(r) && n in CONSUMED
    ensures var out := Properties(Clean(Obj(m), r).fields);
      n in out ==> Stands(Properties(Prepare(m, r)), n, out[n])
  {
    var props := Properties(Prepare(m, r));
    PropertiesAreCleaned(m, r);
    KeywordIsLost(props, r, n);
    if n == "required" {
      CleanedKeyword(props, r, n);
    }
  }

  lemma CleanedKeyword(m: Schema, r: Rules, n: string)
    requires Lawful(r) && (n in Prepare(m, r) ==> Prepare(m, r)[n].Strings?)
    ensures n in Clean(Obj(m), r).fields ==> n in Prepare(m, r) && Clean(Obj(m), r).fields[n].Strings?
  {
  }

  lemma KeywordIsLost(props: Schema, r: Rules, n: string)
    requires Lawful(r) && n in CONSUMED
    ensures n in Prepare(props, r) ==> Stands(props, n, Prepare(props, r)[n])
  {
    PreparedIsTidy(props, r);
    RequiredNamesProperties(props, r);
    HoistedKeys(props, r);
    FinishedKeys(Strip(Hoisted(props, r), r));
  }

  // ---------- What it adds ----------

  function GivenProperties(m: Schema): Schema {
    var p := Given(m, "properties");
    if p.Some? && p.value.Obj? then p.value.fields else map[]
  }

  /** There is a properties map, and it is empty. */
  predicate GivesEmpty(m: Schema) {
    Given(m, "properties") == Some(Obj(map[]))
  }

  /** Finishing leaves properties as they are, or puts the placeholder into an object that has none. */
  lemma FinishedProperties(h: Schema)
    ensures var f := Finished(h);
      if "properties" in f && f["properties"] == Obj(PLACEHOLDER) && Properties(h) == map[]
      then "type" in f && f["type"] == Str("object")
      else && ("properties" in f <==> "properties" in h)
           && ("properties" in f ==> f["properties"] == h["properties"])
           && (Properties(h) == map[] ==> !("type" in f && f["type"] == Str("object")))
  {
    var p := PruneRequired(FlattenType(h));
    assert "properties" in p <==> "properties" in h;
    assert "properties" in p ==> p["properties"] == h["properties"];
    assert Properties(p) == Properties(h) && "reason" in PLACEHOLDER;
  }

  // ---------- What is required ----------

  /** What the incoming `required` lists. */
  function GivenRequired(m: Schema): seq<Json> {
    var q := Given(m, "required");
    if q.Some? && q.value.Arr? then q.value.items else []
  }

  /** The places at which items name a property. */
  function NamedAt(items: seq<Json>, props: Schema): seq<nat> {
    if items == [] then []
    else
      var last := items[|items| - 1];
      NamedAt(items[..|items| - 1], props) + (if last.Str? && last.s in props then [|items| - 1] else [])
  }

  /** Names are exactly the strings that name a property, in their order. */
  lemma {:induction false} NamesInOrder(items: seq<Json>, props: Schema)
    ensures var at, names := NamedAt(items, props), Names(items, props);
      && |at| == |names|
      && (forall i :: 0 <= i < |at| ==> at[i] < |items| && items[at[i]] == Str(names[i]))
      && (forall i, j :: 0 <= i < j < |at| ==> at[i] < at[j])
      && (forall k: nat :: k in at <==> k < |items| && items[k].Str? && items[k].s in props)
  {
    if items != [] {
      NamesInOrder(items[..|items| - 1], props);
    }
  }

  /** Each as often as it was listed. */
  lemma {:induction false} NamesCounted(items: seq<Json>, props: Schema, n: string)
    ensures multiset(Names(items, props))[n] == if n in props then multiset(items)[Str(n)] else 0
  {
    if items != [] {
      var init, last := items[..|items| - 1], items[|items| - 1];
      assert items == init + [last];
      NamesCounted(init, props, n);
    }
  }

  lemma PrunedRequired(t: Schema)
    ensures "required" in PruneRequired(t) <==>
            "required" in t && t["required"].Arr? && Names(t["required"].items, Properties(t)) != []
    ensures "required" in PruneRequired(t) ==>
      && t["required"].Arr?
      && PruneRequired(t)["required"] == Strings(Names(t["required"].items, Properties(t)))
    ensures Properties(PruneRequired(t)) == Properties(t)
  {
  }

  /** The placeholder brings its own list. */
  lemma FilledRequired(p: Schema)
    requires "required" in p ==> Properties(p) != map[]
    ensures var out := FillEmpty(FillObject(p));
      if "required" in p then "required" in out && out["required"] == p["required"]
      else if Properties(p) != map[] then "required" !in out
      else
        && ("required" in out <==> "type" in out && out["type"] == Str("object"))
        && ("required" in out ==> out["required"] == Strings(["reason"]))
  {
    assert "required" in p ==> p != map[];
    assert "reason" in PLACEHOLDER;
  }

  lemma {:induction false} NoNamesOfNothing(items: seq<Json>)
    ensures Names(items, map[]) == []
  {
    if items != [] {
      NoNamesOfNothing(items[..|items| - 1]);
    }
  }

  /** `required` ends as the list of exactly those strings of the incoming list that name a property, in
      order and each as often as it came (NamesInOrder, NamesCounted). When there is none it goes away; only
      an object without any properties gets the placeholder's. */
  lemma RequiredIsExact(m: Schema, r: Rules)
    requires Lawful(r)
    ensures var names, out := Names(GivenRequired(m), GivenProperties(m)), Clean(Obj(m), r).fields;
      if names != [] then "required" in out && out["required"] == Strings(names)
      else if GivenProperties(m) != map[] then "required" !in out
      else
        && ("required" in out <==> "type" in out && out["type"] == Str("object"))
        && ("required" in out ==> out["required"] == Strings(["reason"]))
  {
    var h := Strip(Hoisted(m, r), r);
    HoistedGiven(m, r, "required");
    HoistedGiven(m, r, "properties");
    var t := FlattenType(h);
    assert Properties(t) == GivenProperties(m);
    PrunedRequired(t);
    NoNamesOfNothing(GivenRequired(m));
    FilledRequired(PruneRequired(t));
    TypeIsKept(m, r);
    RequiredIsKept(m, r);
  }

  /** The list of required names is not looked into again. */
  lemma RequiredIsKept(m: Schema, r: Rules)
    requires Lawful(r)
    ensures var p, out := Prepare(m, r), Clean(Obj(m), r).fields;
      && ("required" in out <==> "required" in p)
      && ("required" in p && p["required"].Strings? ==> out["required"] == p["required"])
  {
    CleanFields(m, r);
  }

  // ---------- The type and the enum ----------

  /** The type an object is given: by a hoisted branch, by itself, or because it has properties or a list
      for an enum. */
  function GivenType(m: Schema): Option<Json> {
    if Given(m, "type").Some? then Given(m, "type")
    else if "properties" in m then Some(Str("object"))
    else if "enum" in m && m["enum"].Arr? then Some(Str("string"))
    else None
  }

  predicate NamesType(j: Json) {
    j.Str? && j.s != "null"
  }

  /** t is what a list of types comes to: its first string other than "null", and "string" when there is
      none or that is empty. */
  ghost predicate Flattened(items: seq<Json>, t: string) {
    if exists i :: 0 <= i < |items| && NamesType(items[i])
    then exists i :: 0 <= i < |items| && NamesType(items[i]) && (forall j :: 0 <= j < i ==> !NamesType(items[j]))
           && t == if items[i].s == "" then "string" else items[i].s
    else t == "string"
  }

  lemma {:induction false} FirstTypeIs(items: seq<Json>)
    ensures Flattened(items, if FirstType(items) != "" then FirstType(items) else "string")
  {
    var t := FirstType(items);
    if items != [] {
      if NamesType(items[0]) {
        assert t == items[0].s;
      } else {
        var rest := items[1..];
        FirstTypeIs(rest);
        assert forall i :: 0 <= i < |rest| ==> rest[i] == items[i + 1];
        assert forall i :: 1 <= i < |items| ==> items[i] == rest[i - 1];
      }
    }
  }

  lemma HoistedType(m: Schema, r: Rules)
    requires Lawful(r)
    ensures var h := Strip(Hoisted(m, r), r);
      ("type" in h <==> GivenType(m).Some?) && ("type" in h ==> h["type"] == GivenType(m).value)
  {
    BranchesAre(m, r);
  }

  lemma FinishedType(h: Schema)
    ensures var f := Finished(h);
      if "type" !in h then "type" in f ==> f["type"] == Str("object")
      else if h["type"].Arr? && h["type"].items != []
      then "type" in f && f["type"].Str? && Flattened(h["type"].items, f["type"].s)
      else "type" in f && f["type"] == h["type"]
  {
    var t := FlattenType(h);
    if "type" in h && h["type"].Arr? {
      FirstTypeIs(h["type"].items);
    }
    assert "type" in PruneRequired(t) <==> "type" in t;
    assert "type" in t ==> PruneRequired(t)["type"] == t["type"];
    TypeIsFilled(PruneRequired(t));
  }

  lemma TypeIsFilled(p: Schema)
    ensures var f := FillEmpty(FillObject(p));
      if "type" in p then "type" in f && f["type"] == p["type"] else "type" in f ==> f["type"] == Str("object")
  {
  }

  /** What the type ends as. */
  lemma TypeIsExact(m: Schema, r: Rules)
    requires Lawful(r)
    ensures var out := Clean(Obj(m), r).fields;
      match GivenType(m)
      case None => "type" in out ==> out["type"] == Str("object")
      case Some(Arr(items)) =>
        items != [] ==> "type" in out && out["type"].Str? && Flattened(items, out["type"].s)
      case Some(v) => !v.Obj? ==> "type" in out && out["type"] == v
  {
    HoistedType(m, r);
    FinishedType(Strip(Hoisted(m, r), r));
    CleanFields(m, r);
    if "type" in Prepare(m, r) {
      ChildKind(m, r, "type");
    }
  }

  /** An object's own enum, unless a branch brings one, ends as a list of as many strings. */
  lemma EnumIsExact(m: Schema, r: Rules)
    requires Lawful(r) && "enum" in m && m["enum"].Arr? && "enum" !in FirstBranch(m) && "enum" !in SecondBranch(m)
    ensures var items, out := m["enum"].items, Clean(Obj(m), r).fields;
      && "enum" in out && out["enum"].Strings? && |out["enum"].names| == |items|
      && forall i :: 0 <= i < |items| ==>
           out["enum"].names[i] == if items[i].Str? then items[i].s else r.render(items[i])
  {
    var items, h := m["enum"].items, Strip(Hoisted(m, r), r);
    OwnEnum(m, r);
    FinishedKeys(h);
    CleanFields(m, r);
    ChildKind(m, r, "enum");
    EnumNamesLength(items, r);
    forall i | 0 <= i < |items|
      ensures EnumNames(items, r)[i] == if items[i].Str? then items[i].s else r.render(items[i])
    {
      EnumNamesAt(items, r, i);
    }
  }

  lemma OwnEnum(m: Schema, r: Rules)
    requires Lawful(r) && "enum" in m && m["enum"].Arr? && "enum" !in FirstBranch(m) && "enum" !in SecondBranch(m)
    ensures var h := Strip(Hoisted(m, r), r);
      "enum" in h && h["enum"] == Strings(EnumNames(m["enum"].items, r))
  {
    BranchesAre(m, r);
  }

  /** What an empty schema becomes. */
  lemma EmptySchemaIsFilled(r: Rules)
    requires Lawful(r)
    ensures Clean(Obj(map[]), r) == Obj(map[
              "type" := Str("object"),
              "properties" := Obj(map["reason" := Obj(map[
                "type" := Str("string"),
                "description" := Str("Brief explanation of why you are calling this tool")])]),
              "required" := Strings(["reason"])])
  {
    var filled := FilledEmpty();
    EmptyIsPrepared(r);
    PlaceholderIsKept(r);
    CleanedTo(map[], filled, r);
  }

  function FilledEmpty(): Schema {
    map["type" := Str("object"), "properties" := Obj(PLACEHOLDER), "required" := Strings(["reason"])]
  }

  lemma EmptyIsPrepared(r: Rules)
    ensures Prepare(map[], r) == FilledEmpty()
  {
    var m: Schema := map[];
    assert Strip(m, r) == m && Hoisted(m, r) == m && PruneRequired(FlattenType(m)) == m;
  }

  lemma EmptyIsFilled(r: Rules)
    ensures Prepare(map[], r).Keys == {"type", "properties", "required"}
  {
    EmptyIsPrepared(r);
  }

  /** A prepared object whose children stay as they are is the result. */
  lemma CleanedTo(m: Schema, p: Schema, r: Rules)
    requires Lawful(r) && Prepare(m, r) == p
    requires forall k :: k in p ==> p[k].Str? || p[k].Strings? || (p[k].Obj? && Clean(p[k], r) == p[k])
    ensures Clean(Obj(m), r) == Obj(p)
  {
    CleanFields(m, r);
    forall k | k in p
      ensures CleanChild(m, r, k) == p[k]
    {
      ChildDescends(m, r, k);
    }
    assert Clean(Obj(m), r).fields == p;
  }

  lemma PlaceholderIsKept(r: Rules)
    requires Lawful(r)
    ensures Clean(Obj(PLACEHOLDER), r) == Obj(PLACEHOLDER)
  {
    PlaceholderIsPrepared(r);
    CleanedTo(REASON, REASON, r);
    CleanedTo(PLACEHOLDER, PLACEHOLDER, r);
  }

  lemma GivenAreKept(m: Schema, r: Rules)
    requires Lawful(r) && GivenProperties(m) != map[]
    ensures Properties(Prepare(m, r)) == GivenProperties(m)
  {
    HoistedGiven(m, r, "properties");
    FinishedProperties(Strip(Hoisted(m, r), r));
  }

  /** Every property is a schema: an object or a boolean. */
  predicate AreSchemas(props: Schema) {
    forall k :: k in props ==> props[k].Obj? || props[k].Bool?
  }

  predicate Stays(k: string, r: Rules) {
    !r.strip(k) && k !in CONSUMED
  }

  function Staying(props: Schema, r: Rules): set<string> {
    set k | k in props && Stays(k, r)
  }

  /** What a property called properties, and none called type, makes the cleaner add. */
  function AddedBeside(props: Schema): set<string> {
    if "properties" !in props || "type" in props then {}
    else if Properties(props) == map[] then {"type", "required"}
    else {"type"}
  }

  function NamesLeft(props: Schema, r: Rules): set<string> {
    if Staying(props, r) == {} then {"type", "properties", "required"} else Staying(props, r) + AddedBeside(props)
  }

  lemma SchemasSettle(props: Schema, r: Rules)
    requires Lawful(r) && AreSchemas(props)
    ensures Settled(props, r) == DefaultType(Strip(props, r))
    ensures Strip(Hoisted(props, r), r) == Settled(props, r) - {"anyOf", "oneOf"}
  {
    assert Settled(props, r) == DefaultType(Strip(props, r));
    assert Hoist(Settled(props, r), "anyOf") == Settled(props, r) - {"anyOf"};
    assert Hoisted(props, r) == Settled(props, r) - {"anyOf"} - {"oneOf"};
  }

  /** No value that an object of schemas has is looked into when it is finished. */
  lemma SchemasFinish(h: Schema)
    requires forall k :: k in h && k != "type" ==> !h[k].Arr?
    requires "type" in h ==> !h["type"].Arr?
    ensures PruneRequired(FlattenType(h)) == h - {"required"}
  {
    assert FlattenType(h) == h;
  }

  /** The properties map cleaned as a schema of its own: the names that stay and what is added beside
      them, or the placeholder's fields when no name stays. */
  lemma PropertyNamesAre(props: Schema, r: Rules)
    requires Lawful(r) && AreSchemas(props)
    ensures Prepare(props, r).Keys == NamesLeft(props, r)
  {
    var h := Strip(Hoisted(props, r), r);
    SchemasSettle(props, r);
    SchemasFinish(h);
    LeftAre(props, r, h - {"required"});
    FilledNames(props, h - {"required"}, Staying(props, r));
  }

  /** What is left of the properties when only a missing type is added. */
  lemma LeftAre(props: Schema, r: Rules, p: Schema)
    requires Lawful(r) && p == DefaultType(Strip(props, r)) - {"anyOf", "oneOf"} - {"required"}
    requires AreSchemas(props)
    ensures p.Keys == Staying(props, r) + (if "properties" in props && "type" !in props then {"type"} else {})
    ensures "properties" in p <==> "properties" in props
    ensures "properties" in props ==> "properties" in Staying(props, r)
    ensures Properties(p) == Properties(props)
    ensures "type" in p && p["type"] == Str("object") <==> "properties" in props && "type" !in props
  {
  }

  lemma FilledNames(props: Schema, p: Schema, stay: set<string>)
    requires p.Keys == stay + (if "properties" in props && "type" !in props then {"type"} else {})
    requires ("properties" in p <==> "properties" in props) && ("properties" in props ==> "properties" in stay)
    requires Properties(p) == Properties(props)
    requires "type" in p && p["type"] == Str("object") <==> "properties" in props && "type" !in props
    ensures FillEmpty(FillObject(p)).Keys ==
            if stay == {} then {"type", "properties", "required"} else stay + AddedBeside(props)
  {
    if stay == {} {
      assert p == map[];
    } else {
      var k :| k in stay;
      assert k in p;
    }
  }

  lemma NamesAddedIff(props: Schema, r: Rules)
    requires Lawful(r)
    ensures NamesLeft(props, r) <= props.Keys
            <==> Staying(props, r) != {} && ("properties" in props ==> "type" in props)
  {
    assert "type" in props ==> "type" in Staying(props, r);
    assert "type" in AddedBeside(props) <==> "properties" in props && "type" !in props;
  }

  /** The properties of the result are among those of the schema, its branches hoisted, if and only if
      some name stays and one called properties is not without one called type. */
  lemma PropertiesAddedIff(m: Schema, r: Rules)
    requires Lawful(r) && AreSchemas(GivenProperties(m)) && GivenProperties(m) != map[]
    ensures var props := GivenProperties(m);
      Properties(Clean(Obj(m), r).fields).Keys <= props.Keys <==>
        Staying(props, r) != {} && ("properties" in props ==> "type" in props)
  {
    CleanedNamesAre(m, r);
    NamesAddedIff(GivenProperties(m), r);
  }

  lemma CleanedNamesAre(m: Schema, r: Rules)
    requires Lawful(r) && AreSchemas(GivenProperties(m)) && GivenProperties(m) != map[]
    ensures Properties(Clean(Obj(m), r).fields).Keys == NamesLeft(GivenProperties(m), r)
  {
    GivenAreKept(m, r);
    PropertiesAreCleaned(m, r);
    PropertyNamesAre(GivenProperties(m), r);
  }

  /** With no properties given, an object ends with the placeholder's; anything else with none, except
      that an empty properties map, cleaned as a schema, is filled like an empty schema. */
  lemma NoPropertiesGiven(m: Schema, r: Rules)
    requires Lawful(r) && GivenProperties(m) == map[]
    ensures var out := Clean(Obj(m), r).fields;
      Properties(out).Keys ==
        if "type" in out && out["type"] == Str("object") then {"reason"}
        else if GivesEmpty(m) then {"type", "properties", "required"}
        else {}
  {
    var p := Prepare(m, r);
    HoistedGiven(m, r, "properties");
    FinishedProperties(Strip(Hoisted(m, r), r));
    TypeIsKept(m, r);
    CleanedProperties(m, r);
    PlaceholderIsPrepared(r);
    EmptyIsFilled(r);
  }

  lemma CleanedProperties(m: Schema, r: Rules)
    requires Lawful(r)
    ensures var p, out := Prepare(m, r), Clean(Obj(m), r).fields;
      Properties(out).Keys ==
        if "properties" in p && p["properties"].Obj? then Prepare(p["properties"].fields, r).Keys else {}
  {
    if "properties" in Prepare(m, r) {
      PropertiesChild(m, r);
    }
  }

  lemma TypeIsKept(m: Schema, r: Rules)
    requires Lawful(r)
    ensures var p, out := Prepare(m, r), Clean(Obj(m), r).fields;
      "type" in out && out["type"] == Str("object") <==> "type" in p && p["type"] == Str("object")
  {
    if "type" in Prepare(m, r) {
      ChildDescends(m, r, "type");
    }
  }

  // ---------- The smallest schemas that come out wrong ----------

  /** oneOf brings an anyOf, which stays. */
  lemma AnyOfSurvives(r: Rules, inner: Json)
    requires Lawful(r)
    ensures "anyOf" in Clean(Obj(map["oneOf" := Arr([Obj(map["anyOf" := inner])])]), r).fields
  {
    var fields: Schema := map["anyOf" := inner];
    var m: Schema := map["oneOf" := Arr([Obj(fields)])];
    assert FirstBranch(m) == map[] && m + map[] == m;
    assert SecondBranch(m) == fields;
    AnyOfSurvivesIff(m, r);
  }

  /** anyOf brings properties, and nothing gives the object a type any more. */
  lemma PropertiesWithoutType(r: Rules, props: Json)
    requires Lawful(r)
    ensures var out := Clean(Obj(map["anyOf" := Arr([Obj(map["properties" := props])])]), r).fields;
      "properties" in out && "type" !in out
  {
    var fields: Schema := map["properties" := props];
    var m: Schema := map["anyOf" := Arr([Obj(fields)])];
    assert FirstBranch(m) == fields;
    assert "oneOf" !in m + fields;
    PropertiesWithoutTypeIff(m, r);
  }

  /** anyOf brings an enum of numbers: it stays one, and without a type. */
  lemma EnumStays(r: Rules, items: seq<Json>)
    requires Lawful(r)
    ensures var out := Clean(Obj(map["anyOf" := Arr([Obj(map["enum" := Arr(items)])])]), r).fields;
      "enum" in out && out["enum"].Arr? && "type" !in out
  {
    var fields: Schema := map["enum" := Arr(items)];
    var m: Schema := map["anyOf" := Arr([Obj(fields)])];
    OneBranch(m, fields);
    EnumUnconvertedIff(m, r);
    TypelessStays(m, r, "enum");
  }

  /** An object that anyOf alone makes is its branch. */
  lemma OneBranch(m: Schema, fields: Schema)
    requires m == map["anyOf" := Arr([Obj(fields)])] && "type" !in fields && "oneOf" !in fields
    ensures FirstBranch(m) == fields && SecondBranch(m) == map[]
  {
    assert NotJustNull(Obj(fields));
    assert "oneOf" !in m + fields;
  }

  lemma TypelessStays(m: Schema, r: Rules, k: string)
    requires Lawful(r) && !Typed(m) && "type" !in FirstBranch(m) && "type" !in SecondBranch(m)
    requires k in FirstBranch(m) && !r.strip(k) && k !in {"type", "properties", "required", "oneOf", "anyOf"}
    ensures "type" !in Clean(Obj(m), r).fields
  {
    var h := Strip(Hoisted(m, r), r);
    HoistedKeys(m, r);
    assert k in h && k in PruneRequired(h);
    FinishedKeys(h);
  }

  /** All properties are stripped, and names that are not properties take their place. */
  lemma StrippedNamesGiveWay(r: Rules, n: string, schema: Json)
    requires Lawful(r) && r.strip(n) && (schema.Obj? || schema.Bool?)
    ensures var m: Schema := map["properties" := Obj(map[n := schema])];
      Properties(Clean(Obj(m), r).fields).Keys == {"type", "properties", "required"}
  {
    var m: Schema := map["properties" := Obj(map[n := schema])];
    assert FirstBranch(m) == map[] && SecondBranch(m) == map[];
    assert n in map[n := schema];
    CleanedNamesAre(m, r);
    assert Staying(GivenProperties(m), r) == {};
  }

  /** A property called properties makes one called type appear. */
  lemma PropertiesMakeType(r: Rules, schema: Json)
    requires Lawful(r) && (schema.Obj? || schema.Bool?)
    ensures var m: Schema := map["properties" := Obj(map["properties" := schema])];
      "type" in Properties(Clean(Obj(m), r).fields)
  {
    var m: Schema := map["properties" := Obj(map["properties" := schema])];
    assert FirstBranch(m) == map[] && SecondBranch(m) == map[];
    assert "properties" in map["properties" := schema];
    CleanedNamesAre(m, r);
    assert "properties" in Staying(GivenProperties(m), r);
  }

  /** An object with one required property. */
  function OneProperty(n: string, schema: Json): Schema {
    map["type" := Str("object"), "properties" := Obj(map[n := schema]), "required" := Arr([Str(n)])]
  }

  lemma OnePropertyPrepared(n: string, schema: Json, r: Rules)
    requires Lawful(r) && !r.strip("required")
    ensures var p := Prepare(OneProperty(n, schema), r);
      && "properties" in p && p["properties"] == Obj(map[n := schema])
      && "required" in p && p["required"] == Strings([n])
  {
    var m := OneProperty(n, schema);
    assert Strip(m, r) == m && Settled(m, r) == m && Hoisted(m, r) == m;
    assert FlattenType(m) == m;
    assert [Str(n)][..0] == [] && Names([Str(n)], map[n := schema]) == Names([Str(n)][..0], map[n := schema]) + [n];
    assert n in map[n := schema];
  }

  /** A required property whose name is stripped is lost and still required. */
  lemma StrippedPropertyIsLost(r: Rules, n: string, schema: Json)
    requires Lawful(r) && r.strip(n)
    ensures var out := Clean(Obj(OneProperty(n, schema)), r).fields;
      "required" in out && out["required"] == Strings([n]) && n !in Properties(out)
  {
    var m := OneProperty(n, schema);
    OnePropertyPrepared(n, schema, r);
    assert n in map[n := schema];
    RequiredIsKept(m, r);
    StaysInResultIff(m, r, n);
  }

  /** Such as one called title. */
  lemma TitleIsStripped(render: Json -> string)
    ensures Lawful(GeminiRules(render)) && GeminiRules(render).strip("title")
  {
    GeminiRulesAreLawful(render);
  }

  /** Or one whose name begins with "x-" and goes on. */
  lemma VendorIsStripped(render: Json -> string, n: string)
    ensures "x-" < n ==> GeminiRules(render).strip(n)
    ensures Vendor(n) <==> "x-" < n
  {
    assert "x-" < n ==> n[0] == 'x' && n[1] == '-';
  }

  /** And one called required, whose place the placeholder takes. */
  lemma RequiredIsLost(r: Rules, fields: Schema)
    requires Lawful(r)
    ensures var out := Clean(Obj(OneProperty("required", Obj(fields))), r).fields;
      "required" in Properties(out) ==> Properties(out)["required"].Strings?
  {
    OnePropertyPrepared("required", Obj(fields), r);
    PropertyNamedLikeKeywordIsLost(OneProperty("required", Obj(fields)), r, "required");
  }
}
