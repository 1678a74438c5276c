/**
 The checker and the normaliser of `json_utils.py` as the loops they are: error lists filled
 branch by branch, and a copied node rewritten entry by entry. Dictionaries are visited in any
 order.
 */
module JsonSchemaLoops {
  import opened Values
  import opened JsonSchema

  /** The violations of an error list. */
  function Listed(errors: seq<Violation>): set<Violation> {
    set e | e in errors
  }

  lemma ListedAppend(a: seq<Violation>, b: seq<Violation>)
    ensures Listed(a + b) == Listed(a) + Listed(b)
  {
    assert forall e :: e in a + b <==> e in a || e in b;
  }

  /** What `f` finds for the numbers below `n`, and for the members of `keys`. */
  ghost function Below(n: nat, f: nat -> set<Violation>): set<Violation> {
    set i: nat, e | i < n && e in f(i) :: e
  }

  ghost function Across(keys: set<string>, f: string -> set<Violation>): set<Violation> {
    set k, e | k in keys && e in f(k) :: e
  }

  lemma BelowNext(errors: seq<Violation>, found: seq<Violation>, n: nat, f: nat -> set<Violation>)
    requires Listed(errors) == Below(n, f) && Listed(found) == f(n)
    ensures Listed(errors + found) == Below(n + 1, f)
  {
    ListedAppend(errors, found);
    forall e ensures e in Below(n + 1, f) <==> e in Below(n, f) || e in f(n) {
      if e in Below(n, f) {
        var i: nat :| i < n && e in f(i);
        assert i < n + 1;
      }
    }
  }

  lemma AcrossNext(errors: seq<Violation>, found: seq<Violation>, keys: set<string>, k: string,
                   f: string -> set<Violation>)
    requires Listed(errors) == Across(keys, f) && Listed(found) == f(k)
    ensures Listed(errors + found) == Across(keys + {k}, f)
  {
    ListedAppend(errors, found);
    forall e ensures e in Across(keys + {k}, f) <==> e in Across(keys, f) || e in f(k) {
      if e in Across(keys, f) {
        var x :| x in keys && e in f(x);
        assert x in keys + {k};
      }
      if e in f(k) {
        assert k in keys + {k};
      }
    }
  }

  function Note(broken: bool, path: Path, rule: Rule): (r: seq<Violation>)
    ensures Listed(r) == When(broken, path, rule)
  {
    if broken then [Violation(path, rule)] else []
  }

  method SchemaErrors(search: (string, string) -> bool, v: Json, schema: Json, path: Path)
    returns (errors: seq<Violation>)
    ensures Listed(errors) == Errors(search, v, schema, path)
    decreases schema, 4
  {
    if !schema.Obj? { return []; }
    var m := schema.fields;
    errors := Note("const" in m && !PyEq(v, m["const"]), path, Const);
    var composed := ComposedErrors(search, v, schema, path);
    ListedAppend(errors, composed);
    errors := errors + composed;
    if Mismatched(v, m) {
      ListedAppend(errors, [Violation(path, Type)]);
      return errors + [Violation(path, Type)];
    }
    var shape := ShapeList(search, v, schema, path);
    ListedAppend(errors, shape);
    errors := errors + shape;
  }

  /** Everything after the type test. */
  method ShapeList(search: (string, string) -> bool, v: Json, schema: Json, path: Path)
    returns (errors: seq<Violation>)
    requires schema.Obj?
    ensures Listed(errors) == EnumErrors(v, schema.fields, path) + ObjectErrors(search, v, schema, path)
                              + ArrayErrors(search, v, schema, path) + ScalarErrors(search, v, schema.fields, path)
    decreases schema, 3
  {
    var m := schema.fields;
    errors := Note(ListAt(m, "enum") && !(exists i :: 0 <= i < |m["enum"].items| && PyEq(v, m["enum"].items[i])),
                   path, Enum);
    var objects := ObjectList(search, v, schema, path);
    ListedAppend(errors, objects);
    var arrays := ArrayList(search, v, schema, path);
    ListedAppend(errors + objects, arrays);
    var scalars := ScalarList(search, v, m, path);
    ListedAppend(errors + objects + arrays, scalars);
    errors := errors + objects + arrays + scalars;
  }

  method ComposedErrors(search: (string, string) -> bool, v: Json, schema: Json, path: Path)
    returns (errors: seq<Violation>)
    requires schema.Obj?
    ensures Listed(errors) == CompositionErrors(search, v, schema, path)
    decreases schema, 3
  {
    var all := AllOfList(search, v, schema, path);
    var any_ := AnyOfList(search, v, schema, path);
    ListedAppend(all, any_);
    var one := OneOfList(search, v, schema, path);
    ListedAppend(all + any_, one);
    var conditional := IfList(search, v, schema, path);
    ListedAppend(all + any_ + one, conditional);
    errors := all + any_ + one + conditional;
  }

  method AllOfList(search: (string, string) -> bool, v: Json, schema: Json, path: Path)
    returns (errors: seq<Violation>)
    requires schema.Obj?
    ensures Listed(errors) == AllOfErrors(search, v, schema, path)
    decreases schema, 2
  {
    errors := [];
    if !ListAt(schema.fields, "allOf") { return; }
    var branches := schema.fields["allOf"].items;
    ghost var f := (i: nat) => if i < |branches| then Errors(search, v, branches[i], path) else {};
    for k := 0 to |branches|
      invariant Listed(errors) == Below(k, f)
    {
      assert branches[k] < schema.fields["allOf"] < schema;
      var found := SchemaErrors(search, v, branches[k], path);
      BelowNext(errors, found, k, f);
      errors := errors + found;
    }
    AllOfBelow(search, v, schema, path, f);
  }

  lemma AllOfBelow(search: (string, string) -> bool, v: Json, schema: Json, path: Path, f: nat -> set<Violation>)
    requires schema.Obj? && ListAt(schema.fields, "allOf")
    requires var branches := schema.fields["allOf"].items;
      forall i: nat :: f(i) == if i < |branches| then Errors(search, v, branches[i], path) else {}
    ensures Below(|schema.fields["allOf"].items|, f) == AllOfErrors(search, v, schema, path)
  {
    var branches := schema.fields["allOf"].items;
    forall e | e in AllOfErrors(search, v, schema, path) ensures e in Below(|branches|, f) {
      var i :| 0 <= i < |branches| && e in Errors(search, v, branches[i], path);
      assert e in f(i);
    }
  }

  /** How many of the verdicts are positive. */
  function CountTrue(verdicts: seq<bool>): nat {
    if verdicts == [] then 0
    else CountTrue(verdicts[..|verdicts| - 1]) + if verdicts[|verdicts| - 1] then 1 else 0
  }

  function Positive(verdicts: seq<bool>): set<nat> {
    set i: nat | i < |verdicts| && verdicts[i]
  }

  lemma {:induction false} CountIsSize(verdicts: seq<bool>)
    ensures |Positive(verdicts)| == CountTrue(verdicts)
  {
    if verdicts != [] {
      var init, n := verdicts[..|verdicts| - 1], |verdicts| - 1;
      CountIsSize(init);
      assert n !in Positive(init);
      assert Positive(verdicts) == Positive(init) + if verdicts[n] then {n} else {};
    }
  }

  lemma CountSnoc(verdicts: seq<bool>, verdict: bool)
    ensures CountTrue(verdicts + [verdict]) == CountTrue(verdicts) + if verdict then 1 else 0
  {
    assert (verdicts + [verdict])[..|verdicts|] == verdicts;
  }

  lemma MatchedAll(search: (string, string) -> bool, v: Json, schema: Json, k: string, path: Path, verdicts: seq<bool>)
    requires schema.Obj? && ListAt(schema.fields, k) && |verdicts| == |schema.fields[k].items|
    requires var branches := schema.fields[k].items;
      forall i: nat :: i < |branches| ==>
        (verdicts[i] <==> branches[i].Obj? && Errors(search, v, branches[i], path) == {})
    ensures CountTrue(verdicts) == |Matches(search, v, schema, k, path)|
  {
    CountIsSize(verdicts);
    assert Positive(verdicts) == Matches(search, v, schema, k, path);
  }

  lemma EmptyListed(errors: seq<Violation>)
    ensures errors == [] <==> Listed(errors) == {}
  {
    if errors != [] { assert errors[0] in Listed(errors); }
  }

  method Accepts(search: (string, string) -> bool, v: Json, schema: Json, path: Path) returns (ok: bool)
    ensures ok <==> Errors(search, v, schema, path) == {}
    decreases schema, 5
  {
    var found := SchemaErrors(search, v, schema, path);
    EmptyListed(found);
    ok := found == [];
  }

  predicate SomeSchema(branches: seq<Json>, n: nat)
    requires n <= |branches|
  {
    exists i :: 0 <= i < n && branches[i].Obj?
  }

  lemma SomeNext(branches: seq<Json>, n: nat)
    requires n < |branches|
    ensures SomeSchema(branches, n + 1) <==> SomeSchema(branches, n) || branches[n].Obj?
  {
  }

  /** One verdict a branch: it is a schema and accepts the value. */
  method Verdicts(search: (string, string) -> bool, v: Json, schema: Json, k: string, path: Path)
    returns (verdicts: seq<bool>)
    requires schema.Obj? && ListAt(schema.fields, k)
    ensures |verdicts| == |schema.fields[k].items|
    ensures var branches := schema.fields[k].items;
      forall i: nat :: i < |branches| ==>
        (verdicts[i] <==> branches[i].Obj? && Errors(search, v, branches[i], path) == {})
    decreases schema, 0
  {
    var branches := schema.fields[k].items;
    verdicts := [];
    for n := 0 to |branches|
      invariant |verdicts| == n
      invariant forall i: nat :: i < n ==>
                  (verdicts[i] <==> branches[i].Obj? && Errors(search, v, branches[i], path) == {})
    {
      var ok := false;
      if branches[n].Obj? {
        assert branches[n] < schema.fields[k] < schema;
        ok := Accepts(search, v, branches[n], path);
      }
      verdicts := verdicts + [ok];
    }
  }

  /** Whether any branch of a combinator is a schema, and how many of the schemas accept the value. */
  method CountMatches(search: (string, string) -> bool, v: Json, schema: Json, k: string, path: Path)
    returns (any_: bool, matches: nat)
    requires schema.Obj? && ListAt(schema.fields, k)
    ensures any_ <==> SomeSchema(schema.fields[k].items, |schema.fields[k].items|)
    ensures matches == |Matches(search, v, schema, k, path)|
    decreases schema, 1
  {
    var verdicts := Verdicts(search, v, schema, k, path);
    MatchedAll(search, v, schema, k, path, verdicts);
    any_, matches := Tally(schema.fields[k].items, verdicts);
  }

  /** The sums over the verdicts. */
  method Tally(branches: seq<Json>, verdicts: seq<bool>) returns (any_: bool, matches: nat)
    requires |branches| == |verdicts|
    ensures any_ <==> SomeSchema(branches, |branches|)
    ensures matches == CountTrue(verdicts)
  {
    any_, matches := false, 0;
    for n := 0 to |branches|
      invariant any_ <==> SomeSchema(branches, n)
      invariant matches == CountTrue(verdicts[..n])
    {
      SomeNext(branches, n);
      CountSnoc(verdicts[..n], verdicts[n]);
      assert verdicts[..n + 1] == verdicts[..n] + [verdicts[n]];
      if branches[n].Obj? { any_ := true; }
      if verdicts[n] { matches := matches + 1; }
    }
    assert verdicts[..|branches|] == verdicts;
  }

  method AnyOfList(search: (string, string) -> bool, v: Json, schema: Json, path: Path)
    returns (errors: seq<Violation>)
    requires schema.Obj?
    ensures Listed(errors) == AnyOfErrors(search, v, schema, path)
    decreases schema, 2
  {
    errors := [];
    if !ListAt(schema.fields, "anyOf") { return; }
    var any_, matches := CountMatches(search, v, schema, "anyOf", path);
    errors := Note(any_ && matches == 0, path, AnyOf);
  }

  method OneOfList(search: (string, string) -> bool, v: Json, schema: Json, path: Path)
    returns (errors: seq<Violation>)
    requires schema.Obj?
    ensures Listed(errors) == OneOfErrors(search, v, schema, path)
    decreases schema, 2
  {
    errors := [];
    if !ListAt(schema.fields, "oneOf") || schema.fields["oneOf"].items == [] { return; }
    var any_, matches := CountMatches(search, v, schema, "oneOf", path);
    errors := Note(matches != 1, path, OneOf);
  }

  method IfList(search: (string, string) -> bool, v: Json, schema: Json, path: Path)
    returns (errors: seq<Violation>)
    requires schema.Obj?
    ensures Listed(errors) == IfErrors(search, v, schema, path)
    decreases schema, 2
  {
    errors := [];
    var m := schema.fields;
    if !DictAt(m, "if") { return; }
    var matched := Accepts(search, v, m["if"], path);
    var key := if matched then "then" else "else";
    if DictAt(m, key) {
      errors := SchemaErrors(search, v, m[key], path);
    }
  }

  method ObjectList(search: (string, string) -> bool, v: Json, schema: Json, path: Path)
    returns (errors: seq<Violation>)
    requires schema.Obj?
    ensures Listed(errors) == ObjectErrors(search, v, schema, path)
    decreases schema, 2
  {
    errors := [];
    var m := schema.fields;
    if !ObjectLike(m) || !v.Obj? { return; }
    errors := RequiredList(v.fields, m, path);
    if DictAt(m, "properties") {
      var declared := PropertyList(search, v.fields, schema, path);
      ListedAppend(errors, declared);
      var others := AdditionalList(search, v.fields, schema, path);
      ListedAppend(errors + declared, others);
      errors := errors + declared + others;
    }
    var counts := CountList(v.fields, m, path);
    ListedAppend(errors, counts);
    errors := errors + counts;
  }

  method RequiredList(v: Fields, m: Fields, path: Path) returns (errors: seq<Violation>)
    ensures Listed(errors) == RequiredErrors(v, m, path)
  {
    errors := [];
    if !ListAt(m, "required") { return; }
    var required := m["required"].items;
    for k := 0 to |required|
      invariant Listed(errors) == set i | 0 <= i < k && required[i].Str? && required[i].s !in v
                                    :: Violation(path + [Key(required[i].s)], Required)
    {
      if required[k].Str? && required[k].s !in v {
        ListedAppend(errors, [Violation(path + [Key(required[k].s)], Required)]);
        errors := errors + [Violation(path + [Key(required[k].s)], Required)];
      }
    }
  }

  method CountList(v: Fields, m: Fields, path: Path) returns (errors: seq<Violation>)
    ensures Listed(errors) == CountErrors(v, m, path)
  {
    var least, most := IntegerOf(Get(m, "minProperties")), IntegerOf(Get(m, "maxProperties"));
    var few := Note(least.Some? && |v| < least.value, path, MinProperties);
    var many := Note(most.Some? && |v| > most.value, path, MaxProperties);
    ListedAppend(few, many);
    errors := few + many;
  }

  method PropertyList(search: (string, string) -> bool, v: Fields, schema: Json, path: Path)
    returns (errors: seq<Violation>)
    requires schema.Obj? && DictAt(schema.fields, "properties")
    ensures Listed(errors) == PropertyErrors(search, v, schema, path)
    decreases schema, 1
  {
    var props := schema.fields["properties"].fields;
    errors := [];
    ghost var f := k => if k in props && k in v then Errors(search, v[k], props[k], path + [Key(k)]) else {};
    var rest := props.Keys;
    while rest != {}
      invariant rest <= props.Keys && Listed(errors) == Across(props.Keys - rest, f)
      decreases |rest|
    {
      var k :| k in rest;
      var found := [];
      if k in v {
        assert props[k] < schema.fields["properties"] < schema;
        found := SchemaErrors(search, v[k], props[k], path + [Key(k)]);
      }
      AcrossNext(errors, found, props.Keys - rest, k, f);
      assert props.Keys - rest + {k} == props.Keys - (rest - {k});
      errors := errors + found;
      rest := rest - {k};
    }
    PropertiesAcross(search, v, schema, path, f);
    assert props.Keys - rest == props.Keys;
  }

  lemma PropertiesAcross(search: (string, string) -> bool, v: Fields, schema: Json, path: Path,
                         f: string -> set<Violation>)
    requires schema.Obj? && DictAt(schema.fields, "properties")
    requires var props := schema.fields["properties"].fields;
      forall k :: f(k) == if k in props && k in v then Errors(search, v[k], props[k], path + [Key(k)]) else {}
    ensures Across(schema.fields["properties"].fields.Keys, f) == PropertyErrors(search, v, schema, path)
  {
  }

  method AdditionalList(search: (string, string) -> bool, v: Fields, schema: Json, path: Path)
    returns (errors: seq<Violation>)
    requires schema.Obj? && DictAt(schema.fields, "properties")
    ensures Listed(errors) == AdditionalErrors(search, v, schema, path)
    decreases schema, 1
  {
    var m := schema.fields;
    var props := m["properties"].fields;
    errors := [];
    if "additionalProperties" !in m { return; }
    var additional := m["additionalProperties"];
    if !additional.Obj? && additional != Bool(false) {
      assert forall x, p :: Errors(search, x, additional, p) == {};
      return;
    }
    if additional.Obj? {
      errors := UndeclaredAgainst(search, v, schema, path);
    } else {
      errors := UndeclaredList(v, props, path);
      assert Listed(errors) == AdditionalErrors(search, v, schema, path);
    }
  }

  /** The fields among `keys` that are not declared. */
  function UndeclaredOf(keys: set<string>, props: Fields, path: Path): set<Violation> {
    set k | k in keys && k !in props :: Violation(path + [Key(k)], Undeclared)
  }

  lemma UndeclaredNext(keys: set<string>, props: Fields, path: Path, k: string)
    ensures UndeclaredOf(keys + {k}, props, path)
         == UndeclaredOf(keys, props, path) + if k in props then {} else {Violation(path + [Key(k)], Undeclared)}
  {
  }

  /** `additionalProperties` is false. */
  method UndeclaredList(v: Fields, props: Fields, path: Path) returns (errors: seq<Violation>)
    ensures Listed(errors) == UndeclaredOf(v.Keys, props, path)
  {
    errors := [];
    var rest := v.Keys;
    while rest != {}
      invariant rest <= v.Keys && Listed(errors) == UndeclaredOf(v.Keys - rest, props, path)
      decreases |rest|
    {
      var k :| k in rest;
      UndeclaredNext(v.Keys - rest, props, path, k);
      assert v.Keys - rest + {k} == v.Keys - (rest - {k});
      if k !in props {
        ListedAppend(errors, [Violation(path + [Key(k)], Undeclared)]);
        errors := errors + [Violation(path + [Key(k)], Undeclared)];
      }
      rest := rest - {k};
    }
    assert v.Keys - rest == v.Keys;
  }

  /** `additionalProperties` is a schema. */
  method UndeclaredAgainst(search: (string, string) -> bool, v: Fields, schema: Json, path: Path)
    returns (errors: seq<Violation>)
    requires schema.Obj? && DictAt(schema.fields, "properties") && DictAt(schema.fields, "additionalProperties")
    ensures Listed(errors) == AdditionalErrors(search, v, schema, path)
    decreases schema, 0
  {
    var props, additional := schema.fields["properties"].fields, schema.fields["additionalProperties"];
    errors := [];
    ghost var f := k => if k !in v || k in props then {} else Errors(search, v[k], additional, path + [Key(k)]);
    var rest := v.Keys;
    while rest != {}
      invariant rest <= v.Keys && Listed(errors) == Across(v.Keys - rest, f)
      decreases |rest|
    {
      var k :| k in rest;
      var found := [];
      if k !in props {
        found := SchemaErrors(search, v[k], additional, path + [Key(k)]);
      }
      AcrossNext(errors, found, v.Keys - rest, k, f);
      assert v.Keys - rest + {k} == v.Keys - (rest - {k});
      errors := errors + found;
      rest := rest - {k};
    }
    AdditionalAcross(search, v, schema, path, f);
    assert v.Keys - rest == v.Keys;
  }

  lemma AdditionalAcross(search: (string, string) -> bool, v: Fields, schema: Json, path: Path,
                         f: string -> set<Violation>)
    requires schema.Obj? && DictAt(schema.fields, "properties") && DictAt(schema.fields, "additionalProperties")
    requires var props, additional := schema.fields["properties"].fields, schema.fields["additionalProperties"];
      forall k :: f(k) == if k !in v || k in props then {} else Errors(search, v[k], additional, path + [Key(k)])
    ensures Across(v.Keys, f) == AdditionalErrors(search, v, schema, path)
  {
  }

  method ArrayList(search: (string, string) -> bool, v: Json, schema: Json, path: Path)
    returns (errors: seq<Violation>)
    requires schema.Obj?
    ensures Listed(errors) == ArrayErrors(search, v, schema, path)
    decreases schema, 2
  {
    errors := [];
    var m := schema.fields;
    if !("array" in SchemaTypes(m) || (SchemaTypes(m) == {} && "items" in m)) || !v.Arr? { return; }
    if DictAt(m, "items") {
      errors := ItemList(search, v.items, schema, path);
    }
    var counts := ListCounts(v.items, m, path);
    ListedAppend(errors, counts);
    errors := errors + counts;
  }

  method ItemList(search: (string, string) -> bool, v: seq<Json>, schema: Json, path: Path)
    returns (errors: seq<Violation>)
    requires schema.Obj? && DictAt(schema.fields, "items")
    ensures Listed(errors) == ItemErrors(search, v, schema, path)
    decreases schema, 1
  {
    errors := [];
    var item := schema.fields["items"];
    ghost var f := (i: nat) => if i < |v| then Errors(search, v[i], item, path + [Index(i)]) else {};
    for k := 0 to |v|
      invariant Listed(errors) == Below(k, f)
    {
      var found := SchemaErrors(search, v[k], item, path + [Index(k)]);
      BelowNext(errors, found, k, f);
      errors := errors + found;
    }
    ItemsBelow(search, v, schema, path, f);
  }

  lemma ItemsBelow(search: (string, string) -> bool, v: seq<Json>, schema: Json, path: Path, f: nat -> set<Violation>)
    requires schema.Obj? && DictAt(schema.fields, "items")
    requires forall i: nat :: f(i) == if i < |v| then Errors(search, v[i], schema.fields["items"], path + [Index(i)])
        else {}
    ensures Below(|v|, f) == ItemErrors(search, v, schema, path)
  {
    forall e | e in ItemErrors(search, v, schema, path) ensures e in Below(|v|, f) {
      var i: nat :| i < |v| && e in Errors(search, v[i], schema.fields["items"], path + [Index(i)]);
      assert e in f(i);
    }
  }

  method ListCounts(v: seq<Json>, m: Fields, path: Path) returns (errors: seq<Violation>)
    ensures Listed(errors) == ListErrors(v, m, path)
  {
    var least, most := IntegerOf(Get(m, "minItems")), IntegerOf(Get(m, "maxItems"));
    var few := Note(least.Some? && |v| < least.value, path, MinItems);
    var many := Note(most.Some? && |v| > most.value, path, MaxItems);
    ListedAppend(few, many);
    var repeated := [];
    if Get(m, "uniqueItems") == Some(Bool(true)) {
      DuplicatesCollapse(v);
      repeated := Note(|v| != |ItemSet(v)|, path, UniqueItems);
    }
    ListedAppend(few + many, repeated);
    errors := few + many + repeated;
  }

  predicate Repeats(v: seq<Json>) {
    exists i, j :: 0 <= i < j < |v| && v[i] == v[j]
  }

  function ItemSet(v: seq<Json>): set<Json> {
    set item | item in v
  }

  lemma RepeatsNext(v: seq<Json>, last: Json)
    ensures Repeats(v + [last]) <==> Repeats(v) || last in v
  {
    var w := v + [last];
    if Repeats(v) {
      var i, j :| 0 <= i < j < |v| && v[i] == v[j];
      assert w[i] == w[j];
    }
    if last in v {
      var i :| 0 <= i < |v| && v[i] == last;
      assert w[i] == w[|v|];
    }
  }

  lemma ItemSetNext(v: seq<Json>, last: Json)
    ensures ItemSet(v + [last]) == ItemSet(v) + {last}
  {
    assert forall item :: item in v + [last] <==> item in v || item == last;
  }

  /** A list is longer than the set of its items exactly when two of them are equal. */
  lemma {:induction false} DuplicatesCollapse(v: seq<Json>)
    ensures |ItemSet(v)| <= |v|
    ensures |v| != |ItemSet(v)| <==> Repeats(v)
  {
    if v != [] {
      var init, last := v[..|v| - 1], v[|v| - 1];
      assert v == init + [last];
      DuplicatesCollapse(init);
      RepeatsNext(init, last);
      ItemSetNext(init, last);
      if last in init { assert ItemSet(init) + {last} == ItemSet(init); }
    }
  }

  method ScalarList(search: (string, string) -> bool, v: Json, m: Fields, path: Path)
    returns (errors: seq<Violation>)
    ensures Listed(errors) == ScalarErrors(search, v, m, path)
  {
    var strings := StringList(search, v, m, path);
    var numbers := NumberList(v, m, path);
    ListedAppend(strings, numbers);
    errors := strings + numbers;
  }

  method StringList(search: (string, string) -> bool, v: Json, m: Fields, path: Path)
    returns (errors: seq<Violation>)
    ensures Listed(errors) == StringErrors(search, v, m, path)
  {
    errors := [];
    if "string" !in SchemaTypes(m) || !v.Str? { return; }
    var least, most := IntegerOf(Get(m, "minLength")), IntegerOf(Get(m, "maxLength"));
    var short := Note(least.Some? && |v.s| < least.value, path, MinLength);
    var long := Note(most.Some? && |v.s| > most.value, path, MaxLength);
    ListedAppend(short, long);
    var odd := Note("pattern" in m && m["pattern"].Str? && !search(m["pattern"].s, v.s), path, Pattern);
    ListedAppend(short + long, odd);
    errors := short + long + odd;
  }

  /** One entry of the `bounds` table: the keyword, whether it is violated, and the rule. */
  predicate Violates(x: real, bound: real, rule: Rule) {
    match rule
    case Minimum => x < bound
    case Maximum => x > bound
    case ExclusiveMinimum => x <= bound
    case ExclusiveMaximum => x >= bound
    case _ => false
  }

  const BOUNDS: seq<(string, Rule)> :=
    [("minimum", Minimum), ("maximum", Maximum),
     ("exclusiveMinimum", ExclusiveMinimum), ("exclusiveMaximum", ExclusiveMaximum)]

  function BoundError(x: real, m: Fields, bound: (string, Rule), path: Path): set<Violation> {
    When(BoundAt(m, bound.0) && Violates(x, NumberOf(m[bound.0]).value, bound.1), path, bound.1)
  }

  method NumberList(v: Json, m: Fields, path: Path) returns (errors: seq<Violation>)
    ensures Listed(errors) == NumberErrors(v, m, path)
  {
    errors := [];
    if !(v.Int? || v.Float?) || !("integer" in SchemaTypes(m) || "number" in SchemaTypes(m)) { return; }
    var x := NumberOf(v).value;
    ghost var f := (i: nat) => if i < |BOUNDS| then BoundError(x, m, BOUNDS[i], path) else {};
    for k := 0 to |BOUNDS|
      invariant Listed(errors) == Below(k, f)
    {
      var (key, rule) := BOUNDS[k];
      var found := Note(BoundAt(m, key) && Violates(x, NumberOf(m[key]).value, rule), path, rule);
      BelowNext(errors, found, k, f);
      errors := errors + found;
    }
    FourBounds(f);
    BoundsAre(v, m, path);
  }

  lemma BoundsAre(v: Json, m: Fields, path: Path)
    requires (v.Int? || v.Float?) && ("integer" in SchemaTypes(m) || "number" in SchemaTypes(m))
    ensures var x := NumberOf(v).value;
      NumberErrors(v, m, path) == BoundError(x, m, BOUNDS[0], path) + BoundError(x, m, BOUNDS[1], path)
                                  + BoundError(x, m, BOUNDS[2], path) + BoundError(x, m, BOUNDS[3], path)
  {
  }

  lemma FourBounds(f: nat -> set<Violation>)
    ensures Below(4, f) == f(0) + f(1) + f(2) + f(3)
  {
    forall e | e in f(0) + f(1) + f(2) + f(3) ensures e in Below(4, f) {
      var i: nat := if e in f(0) then 0 else if e in f(1) then 1 else if e in f(2) then 2 else 3;
      assert i < 4 && e in f(i);
    }
  }

  // ---- normalize_json_schema ----

  /** `visit` on a copied node, one keyword after the other. */
  method VisitNode(node: Json) returns (r: Json)
    requires node.Obj?
    ensures r == Visit(node)
    decreases node, 2
  {
    var n := node.fields;
    if DictAt(n, "properties") {
      if "additionalProperties" !in n { n := n["additionalProperties" := Bool(false)]; }
    }
    n := VisitEntries(node, n);
    VisitedWhole(node, n);
    r := Obj(n);
  }

  /** The keywords of a node, each rewritten in place; an added `additionalProperties` is left as it is. */
  method VisitEntries(node: Json, start: Fields) returns (n: Fields)
    requires node.Obj? && node.fields.Keys <= start.Keys
    ensures n.Keys == start.Keys
    ensures forall k :: k in n ==> n[k] == if k in node.fields then VisitKey(k, node.fields[k]) else start[k]
    decreases node, 1
  {
    n := start;
    var rest := node.fields.Keys;
    while rest != {}
      invariant rest <= node.fields.Keys && n.Keys == start.Keys
      invariant forall k :: k in node.fields && k !in rest ==> n[k] == VisitKey(k, node.fields[k])
      invariant forall k :: k in n && k !in node.fields ==> n[k] == start[k]
      decreases |rest|
    {
      var k :| k in rest;
      rest := rest - {k};
      var visited := VisitEntry(k, node.fields[k]);
      n := n[k := visited];
    }
  }

  lemma VisitedWhole(node: Json, n: Fields)
    requires node.Obj?
    requires n.Keys == node.fields.Keys + if Closes(node.fields) then {"additionalProperties"} else {}
    requires forall k :: k in n ==> n[k] == if k in node.fields then VisitKey(k, node.fields[k]) else Bool(false)
    ensures Visit(node) == Obj(n)
  {
    assert Visit(node).fields == n;
  }

  /** What `visit` does below one keyword. */
  method VisitEntry(k: string, j: Json) returns (r: Json)
    ensures r == VisitKey(k, j)
    decreases j, 3
  {
    r := j;
    if k == "properties" {
      if j.Obj? { r := VisitChildren(j); }
    } else if k in {"items", "additionalProperties", "if", "then", "else"} {
      if j.Obj? { r := VisitNode(j); }
    } else if k in {"allOf", "anyOf", "oneOf"} {
      if j.Arr? { r := VisitBranchList(j); }
    }
  }

  method VisitChildren(j: Json) returns (r: Json)
    requires j.Obj?
    ensures r == Obj(map c | c in j.fields :: Visit(j.fields[c]))
    decreases j, 2
  {
    var children := j.fields;
    var rest := j.fields.Keys;
    while rest != {}
      invariant rest <= j.fields.Keys && children.Keys == j.fields.Keys
      invariant forall c :: c in children ==> children[c] == if c in rest then j.fields[c] else Visit(j.fields[c])
      decreases |rest|
    {
      var c :| c in rest;
      rest := rest - {c};
      if children[c].Obj? {
        var visited := VisitNode(j.fields[c]);
        children := children[c := visited];
      }
    }
    r := Obj(children);
  }

  method VisitBranchList(j: Json) returns (r: Json)
    requires j.Arr?
    ensures r == Arr(seq(|j.items|, i requires 0 <= i < |j.items| => Visit(j.items[i])))
    decreases j, 2
  {
    var branches := j.items;
    for k := 0 to |j.items|
      invariant |branches| == |j.items|
      invariant forall i :: 0 <= i < |branches| ==> branches[i] == if i < k then Visit(j.items[i]) else j.items[i]
    {
      if branches[k].Obj? {
        var visited := VisitNode(j.items[k]);
        branches := branches[k := visited];
      }
    }
    r := Arr(branches);
  }

  method NormalizeJsonSchema(schema: Json) returns (r: Json)
    ensures r == Normalize(schema)
  {
    var normalized := Obj(map[]);
    if schema.Obj? { normalized := schema; }
    EmptyStays();
    r := VisitNode(normalized);
  }

  lemma EmptyStays()
    ensures Visit(Obj(map[])) == Obj(map[])
  {
    assert Visit(Obj(map[])).fields == map[];
  }
}
