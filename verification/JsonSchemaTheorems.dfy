/** Normalising a schema is idempotent and, with closed guards, only tightens it. */
module JsonSchemaTheorems {
  import opened Values
  import opened JsonSchema

  /** The fields of a visited node. */
  lemma VisitFields(node: Json)
    requires node.Obj?
    ensures Visit(node).Obj?
    ensures var m, n := node.fields, Visit(node).fields;
            && (forall k :: k in m ==> k in n && n[k] == VisitKey(k, m[k]))
            && (forall k :: k in n && k !in m ==> k == "additionalProperties" && n[k] == Bool(false) && Closes(m))
            && (Closes(m) ==> "additionalProperties" in n)
            && SchemaTypes(n) == SchemaTypes(m)
            && ObjectLike(n) == ObjectLike(m)
            && (forall k :: k != "additionalProperties" ==>
                  DictAt(n, k) == DictAt(m, k) && ListAt(n, k) == ListAt(m, k))
  {
  }

  lemma {:induction false} VisitTwice(node: Json)
    ensures Visit(Visit(node)) == Visit(node)
    decreases node, 1
  {
    if node.Obj? {
      VisitFields(node);
      var m, n := node.fields, Visit(node).fields;
      VisitFields(Visit(node));
      forall k | k in n
        ensures VisitKey(k, n[k]) == n[k]
      {
        if k in m {
          VisitKeyTwice(k, m[k]);
        }
      }
      assert !Closes(n);
      assert Visit(Visit(node)).fields == n;
    }
  }

  lemma {:induction false} VisitKeyTwice(k: string, j: Json)
    ensures VisitKey(k, VisitKey(k, j)) == VisitKey(k, j)
    decreases j, 2
  {
    if k == "properties" {
      if j.Obj? {
        forall c | c in j.fields
          ensures Visit(Visit(j.fields[c])) == Visit(j.fields[c])
        {
          VisitTwice(j.fields[c]);
        }
      }
    } else if k in {"items", "additionalProperties", "if", "then", "else"} {
      VisitTwice(j);
    } else if k in {"allOf", "anyOf", "oneOf"} {
      if j.Arr? {
        forall i | 0 <= i < |j.items|
          ensures Visit(Visit(j.items[i])) == Visit(j.items[i])
        {
          VisitTwice(j.items[i]);
        }
      }
    }
  }

  /** Normalising twice changes nothing more, for every input including non-objects. */
  lemma NormalizeIdempotent(schema: Json)
    ensures Normalize(Normalize(schema)) == Normalize(schema)
  {
    VisitTwice(schema);
    if !schema.Obj? {
      assert Visit(Obj(map[])).fields == map[];
    } else {
      VisitFields(schema);
    }
  }

  /**
   The guards a stricter branch could flip, the branches of `oneOf` and the condition of
   `if`, are already normal, everywhere the checker looks. A schema without `oneOf` and `if`
   satisfies this.
   */
  ghost predicate Guarded(node: Json)
    decreases node, 1
  {
    node.Obj? ==> forall k :: k in node.fields ==> GuardedKey(k, node.fields[k])
  }

  ghost predicate GuardedKey(k: string, j: Json)
    decreases j, 2
  {
    && (k == "properties" && j.Obj? ==> forall c :: c in j.fields ==> Guarded(j.fields[c]))
    && (k in {"items", "additionalProperties", "then", "else"} ==> Guarded(j))
    && (k in {"allOf", "anyOf"} && j.Arr? ==> forall i :: 0 <= i < |j.items| ==> Guarded(j.items[i]))
    && (k == "oneOf" && j.Arr? ==> forall i :: 0 <= i < |j.items| ==> Visit(j.items[i]) == j.items[i])
    && (k == "if" ==> Visit(j) == j)
  }

  /** Nothing is lost, and what is new is an undeclared field or an `anyOf` it leaves without a match. */
  ghost predicate Sharper(before: set<Violation>, after: set<Violation>) {
    before <= after && forall e :: e in after && e !in before ==> e.rule in {Undeclared, AnyOf}
  }

  lemma SharperUnion(a: set<Violation>, a': set<Violation>, b: set<Violation>, b': set<Violation>)
    requires Sharper(a, a') && Sharper(b, b')
    ensures Sharper(a + b, a' + b')
  {
  }

  lemma {:induction false} VisitSharpens(search: (string, string) -> bool, v: Json, schema: Json, path: Path)
    requires Guarded(schema)
    ensures Sharper(Errors(search, v, schema, path), Errors(search, v, Visit(schema), path))
    decreases schema, 4
  {
    if schema.Obj? {
      CompositionSharpens(search, v, schema, path);
      ShapeSharpens(search, v, schema, path);
      KeyKept(schema, "const");
      var const_ := When("const" in schema.fields && !PyEq(v, schema.fields["const"]), path, Const);
      var m, n := schema.fields, Visit(schema).fields;
      assert const_ == When("const" in n && !PyEq(v, n["const"]), path, Const);
      SharperUnion(const_, const_, CompositionErrors(search, v, schema, path),
                   CompositionErrors(search, v, Visit(schema), path));
      SharperUnion(const_ + CompositionErrors(search, v, schema, path),
                   const_ + CompositionErrors(search, v, Visit(schema), path),
                   ShapeErrors(search, v, schema, path), ShapeErrors(search, v, Visit(schema), path));
    }
  }

  /** The part of the checker after the type test. */
  ghost function ShapeErrors(search: (string, string) -> bool, v: Json, schema: Json, path: Path): set<Violation>
    requires schema.Obj?
  {
    var m := schema.fields;
    if Mismatched(v, m) then {Violation(path, Type)}
    else
      EnumErrors(v, m, path) + ObjectErrors(search, v, schema, path)
      + ArrayErrors(search, v, schema, path) + ScalarErrors(search, v, m, path)
  }

  lemma {:induction false} ShapeSharpens(search: (string, string) -> bool, v: Json, schema: Json, path: Path)
    requires schema.Obj? && Guarded(schema)
    ensures Visit(schema).Obj?
    ensures Sharper(ShapeErrors(search, v, schema, path), ShapeErrors(search, v, Visit(schema), path))
    decreases schema, 3
  {
    VisitFields(schema);
    var m, n := schema.fields, Visit(schema).fields;
    assert Mismatched(v, m) == Mismatched(v, n);
    if !Mismatched(v, m) {
      ScalarErrorsKept(search, v, schema, path);
      ObjectSharpens(search, v, schema, path);
      ArraySharpens(search, v, schema, path);
      var o, o' := ObjectErrors(search, v, schema, path), ObjectErrors(search, v, Visit(schema), path);
      var a, a' := ArrayErrors(search, v, schema, path), ArrayErrors(search, v, Visit(schema), path);
      SharperUnion(EnumErrors(v, m, path), EnumErrors(v, m, path), o, o');
      SharperUnion(EnumErrors(v, m, path) + o, EnumErrors(v, m, path) + o', a, a');
    }
  }

  /** The keywords `visit` looks into or adds; every other entry is kept as it is. */
  predicate Rewritten(k: string) {
    k in {"properties", "items", "additionalProperties", "if", "then", "else", "allOf", "anyOf", "oneOf"}
  }

  lemma KeyKept(schema: Json, k: string)
    requires schema.Obj? && !Rewritten(k)
    ensures Visit(schema).Obj? && Get(Visit(schema).fields, k) == Get(schema.fields, k)
  {
    VisitFields(schema);
  }

  lemma ScalarErrorsKept(search: (string, string) -> bool, v: Json, schema: Json, path: Path)
    requires schema.Obj?
    ensures Visit(schema).Obj?
    ensures ScalarErrors(search, v, Visit(schema).fields, path) == ScalarErrors(search, v, schema.fields, path)
    ensures EnumErrors(v, Visit(schema).fields, path) == EnumErrors(v, schema.fields, path)
  {
    VisitFields(schema);
    var m, n := schema.fields, Visit(schema).fields;
    assert StringErrors(search, v, n, path) == StringErrors(search, v, m, path) by {
      KeyKept(schema, "minLength");
      KeyKept(schema, "maxLength");
      KeyKept(schema, "pattern");
      StringErrorsSame(search, v, m, n, path);
    }
    assert NumberErrors(v, n, path) == NumberErrors(v, m, path) by {
      KeyKept(schema, "minimum");
      KeyKept(schema, "maximum");
      KeyKept(schema, "exclusiveMinimum");
      KeyKept(schema, "exclusiveMaximum");
      NumberErrorsSame(v, m, n, path);
    }
    assert EnumErrors(v, n, path) == EnumErrors(v, m, path) by {
      KeyKept(schema, "enum");
      EnumErrorsSame(v, m, n, path);
    }
  }

  lemma EnumErrorsSame(v: Json, m: Fields, n: Fields, path: Path)
    requires Get(m, "enum") == Get(n, "enum")
    ensures EnumErrors(v, m, path) == EnumErrors(v, n, path)
  {
  }

  lemma ObjectCountsKept(v: Fields, schema: Json, path: Path)
    requires schema.Obj?
    ensures Visit(schema).Obj?
    ensures RequiredErrors(v, Visit(schema).fields, path) == RequiredErrors(v, schema.fields, path)
    ensures CountErrors(v, Visit(schema).fields, path) == CountErrors(v, schema.fields, path)
  {
    KeyKept(schema, "required");
    KeyKept(schema, "minProperties");
    KeyKept(schema, "maxProperties");
    RequiredErrorsSame(v, schema.fields, Visit(schema).fields, path);
  }

  lemma RequiredErrorsSame(v: Fields, m: Fields, n: Fields, path: Path)
    requires Get(m, "required") == Get(n, "required")
    ensures RequiredErrors(v, m, path) == RequiredErrors(v, n, path)
  {
  }

  lemma StringErrorsSame(search: (string, string) -> bool, v: Json, m: Fields, n: Fields, path: Path)
    requires SchemaTypes(m) == SchemaTypes(n)
    requires Get(m, "minLength") == Get(n, "minLength") && Get(m, "maxLength") == Get(n, "maxLength")
    requires Get(m, "pattern") == Get(n, "pattern")
    ensures StringErrors(search, v, m, path) == StringErrors(search, v, n, path)
  {
  }

  lemma NumberErrorsSame(v: Json, m: Fields, n: Fields, path: Path)
    requires SchemaTypes(m) == SchemaTypes(n)
    requires Get(m, "minimum") == Get(n, "minimum") && Get(m, "maximum") == Get(n, "maximum")
    requires Get(m, "exclusiveMinimum") == Get(n, "exclusiveMinimum")
    requires Get(m, "exclusiveMaximum") == Get(n, "exclusiveMaximum")
    ensures NumberErrors(v, m, path) == NumberErrors(v, n, path)
  {
  }

  lemma {:induction false} BranchSharpens(search: (string, string) -> bool, v: Json, schema: Json, k: string,
                                          path: Path)
    requires schema.Obj? && Guarded(schema) && k in {"allOf", "anyOf"} && ListAt(schema.fields, k)
    ensures Visit(schema).Obj? && ListAt(Visit(schema).fields, k)
    ensures |Visit(schema).fields[k].items| == |schema.fields[k].items|
    ensures forall i :: 0 <= i < |schema.fields[k].items| ==>
              && Visit(schema).fields[k].items[i].Obj? == schema.fields[k].items[i].Obj?
              && Sharper(Errors(search, v, schema.fields[k].items[i], path),
                         Errors(search, v, Visit(schema).fields[k].items[i], path))
    decreases schema, 0
  {
    VisitFields(schema);
    var m := schema.fields;
    assert GuardedKey(k, m[k]);
    var branches := m[k].items;
    forall i | 0 <= i < |branches|
      ensures Sharper(Errors(search, v, branches[i], path), Errors(search, v, Visit(branches[i]), path))
    {
      assert branches[i] < m[k] < schema;
      VisitSharpens(search, v, branches[i], path);
    }
  }

  lemma {:induction false} AllOfSharpens(search: (string, string) -> bool, v: Json, schema: Json, path: Path)
    requires schema.Obj? && Guarded(schema)
    ensures Visit(schema).Obj?
    ensures Sharper(AllOfErrors(search, v, schema, path), AllOfErrors(search, v, Visit(schema), path))
    decreases schema, 1
  {
    VisitFields(schema);
    if ListAt(schema.fields, "allOf") {
      BranchSharpens(search, v, schema, "allOf", path);
      var a, b := schema.fields["allOf"].items, Visit(schema).fields["allOf"].items;
      forall e | e in AllOfErrors(search, v, Visit(schema), path) && e !in AllOfErrors(search, v, schema, path)
        ensures e.rule in {Undeclared, AnyOf}
      {
        var i :| 0 <= i < |b| && e in Errors(search, v, b[i], path);
        assert Sharper(Errors(search, v, a[i], path), Errors(search, v, b[i], path));
      }
      forall e | e in AllOfErrors(search, v, schema, path)
        ensures e in AllOfErrors(search, v, Visit(schema), path)
      {
        var i :| 0 <= i < |a| && e in Errors(search, v, a[i], path);
        assert Sharper(Errors(search, v, a[i], path), Errors(search, v, b[i], path));
      }
    }
  }

  lemma {:induction false} AnyOfSharpens(search: (string, string) -> bool, v: Json, schema: Json, path: Path)
    requires schema.Obj? && Guarded(schema)
    ensures Visit(schema).Obj?
    ensures Sharper(AnyOfErrors(search, v, schema, path), AnyOfErrors(search, v, Visit(schema), path))
    decreases schema, 1
  {
    VisitFields(schema);
    if ListAt(schema.fields, "anyOf") {
      BranchSharpens(search, v, schema, "anyOf", path);
      var a, b := schema.fields["anyOf"].items, Visit(schema).fields["anyOf"].items;
      forall i | i in Matches(search, v, Visit(schema), "anyOf", path)
        ensures i in Matches(search, v, schema, "anyOf", path)
      {
        assert Sharper(Errors(search, v, a[i], path), Errors(search, v, b[i], path));
      }
    }
  }

  lemma OneOfKept(search: (string, string) -> bool, v: Json, schema: Json, path: Path)
    requires schema.Obj? && Guarded(schema)
    ensures Visit(schema).Obj?
    ensures OneOfErrors(search, v, Visit(schema), path) == OneOfErrors(search, v, schema, path)
  {
    VisitFields(schema);
    if ListAt(schema.fields, "oneOf") {
      assert GuardedKey("oneOf", schema.fields["oneOf"]);
      var items := schema.fields["oneOf"].items;
      assert seq(|items|, i requires 0 <= i < |items| => Visit(items[i])) == items;
      assert Visit(schema).fields["oneOf"] == schema.fields["oneOf"];
      assert Matches(search, v, Visit(schema), "oneOf", path) == Matches(search, v, schema, "oneOf", path);
    }
  }

  lemma {:induction false} ConsequenceSharpens(search: (string, string) -> bool, v: Json, schema: Json, k: string,
                                               path: Path)
    requires schema.Obj? && Guarded(schema) && k in {"then", "else"} && k in schema.fields
    ensures Visit(schema).Obj? && k in Visit(schema).fields
    ensures Sharper(Errors(search, v, schema.fields[k], path), Errors(search, v, Visit(schema).fields[k], path))
    decreases schema, 0
  {
    VisitFields(schema);
    assert GuardedKey(k, schema.fields[k]);
    VisitSharpens(search, v, schema.fields[k], path);
  }

  lemma ConditionKept(schema: Json)
    requires schema.Obj? && Guarded(schema) && "if" in schema.fields
    ensures Visit(schema).Obj? && "if" in Visit(schema).fields && Visit(schema).fields["if"] == schema.fields["if"]
  {
    VisitFields(schema);
    assert GuardedKey("if", schema.fields["if"]);
  }

  lemma IfFields(schema: Json)
    requires schema.Obj?
    ensures Visit(schema).Obj?
    ensures var m, n := schema.fields, Visit(schema).fields;
            && DictAt(n, "if") == DictAt(m, "if")
            && ("then" in n <==> "then" in m) && ("else" in n <==> "else" in m)
  {
    VisitFields(schema);
  }

  lemma {:induction false} IfSharpens(search: (string, string) -> bool, v: Json, schema: Json, path: Path)
    requires schema.Obj? && Guarded(schema)
    ensures Visit(schema).Obj?
    ensures Sharper(IfErrors(search, v, schema, path), IfErrors(search, v, Visit(schema), path))
    decreases schema, 1
  {
    IfFields(schema);
    var m := schema.fields;
    if DictAt(m, "if") {
      ConditionKept(schema);
      var branch := if Errors(search, v, m["if"], path) == {} then "then" else "else";
      if branch in m {
        ConsequenceSharpens(search, v, schema, branch, path);
      }
    }
  }

  lemma {:induction false} CompositionSharpens(search: (string, string) -> bool, v: Json, schema: Json, path: Path)
    requires schema.Obj? && Guarded(schema)
    ensures Visit(schema).Obj?
    ensures Sharper(CompositionErrors(search, v, schema, path), CompositionErrors(search, v, Visit(schema), path))
    decreases schema, 2
  {
    AllOfSharpens(search, v, schema, path);
    AnyOfSharpens(search, v, schema, path);
    OneOfKept(search, v, schema, path);
    IfSharpens(search, v, schema, path);
    var visited := Visit(schema);
    var a, a' := AllOfErrors(search, v, schema, path), AllOfErrors(search, v, visited, path);
    var b, b' := AnyOfErrors(search, v, schema, path), AnyOfErrors(search, v, visited, path);
    var c := OneOfErrors(search, v, schema, path);
    SharperUnion(a, a', b, b');
    SharperUnion(a + b, a' + b', c, c);
    SharperUnion(a + b + c, a' + b' + c, IfErrors(search, v, schema, path), IfErrors(search, v, visited, path));
  }

  lemma {:induction false} PropertiesSharpen(search: (string, string) -> bool, v: Fields, schema: Json, path: Path)
    requires schema.Obj? && Guarded(schema) && DictAt(schema.fields, "properties")
    ensures Visit(schema).Obj? && DictAt(Visit(schema).fields, "properties")
    ensures Sharper(PropertyErrors(search, v, schema, path), PropertyErrors(search, v, Visit(schema), path))
    decreases schema, 0
  {
    VisitFields(schema);
    var a, b := schema.fields["properties"].fields, Visit(schema).fields["properties"].fields;
    assert GuardedKey("properties", schema.fields["properties"]);
    assert b == map c | c in a :: Visit(a[c]);
    forall k | k in a && k in v
      ensures Sharper(Errors(search, v[k], a[k], path + [Key(k)]), Errors(search, v[k], b[k], path + [Key(k)]))
    {
      assert a[k] < schema.fields["properties"] < schema;
      VisitSharpens(search, v[k], a[k], path + [Key(k)]);
    }
  }

  lemma {:induction false} AdditionalSharpens(search: (string, string) -> bool, v: Fields, schema: Json, path: Path)
    requires schema.Obj? && Guarded(schema) && DictAt(schema.fields, "properties")
    ensures Visit(schema).Obj? && DictAt(Visit(schema).fields, "properties")
    ensures Sharper(AdditionalErrors(search, v, schema, path), AdditionalErrors(search, v, Visit(schema), path))
    decreases schema, 0
  {
    VisitFields(schema);
    var m, n := schema.fields, Visit(schema).fields;
    if "additionalProperties" in m {
      assert GuardedKey("additionalProperties", m["additionalProperties"]);
      forall k | k in v
        ensures Sharper(Errors(search, v[k], m["additionalProperties"], path + [Key(k)]),
                        Errors(search, v[k], n["additionalProperties"], path + [Key(k)]))
      {
        VisitSharpens(search, v[k], m["additionalProperties"], path + [Key(k)]);
      }
    }
  }

  lemma {:induction false} ObjectSharpens(search: (string, string) -> bool, v: Json, schema: Json, path: Path)
    requires schema.Obj? && Guarded(schema)
    ensures Visit(schema).Obj?
    ensures Sharper(ObjectErrors(search, v, schema, path), ObjectErrors(search, v, Visit(schema), path))
    decreases schema, 1
  {
    VisitFields(schema);
    var m, n := schema.fields, Visit(schema).fields;
    if v.Obj? {
      ObjectCountsKept(v.fields, schema, path);
      if DictAt(m, "properties") {
        PropertiesSharpen(search, v.fields, schema, path);
        AdditionalSharpens(search, v.fields, schema, path);
        SharperUnion(PropertyErrors(search, v.fields, schema, path),
                     PropertyErrors(search, v.fields, Visit(schema), path),
                     AdditionalErrors(search, v.fields, schema, path),
                     AdditionalErrors(search, v.fields, Visit(schema), path));
      }
    }
  }

  lemma {:induction false} ItemsSharpen(search: (string, string) -> bool, v: seq<Json>, schema: Json, path: Path)
    requires schema.Obj? && Guarded(schema) && DictAt(schema.fields, "items")
    ensures Visit(schema).Obj? && DictAt(Visit(schema).fields, "items")
    ensures Sharper(ItemErrors(search, v, schema, path), ItemErrors(search, v, Visit(schema), path))
    decreases schema, 0
  {
    VisitFields(schema);
    var m, n := schema.fields, Visit(schema).fields;
    assert GuardedKey("items", m["items"]);
    forall i: nat | i < |v|
      ensures Sharper(Errors(search, v[i], m["items"], path + [Index(i)]),
                      Errors(search, v[i], n["items"], path + [Index(i)]))
    {
      VisitSharpens(search, v[i], m["items"], path + [Index(i)]);
    }
  }

  lemma {:induction false} ArraySharpens(search: (string, string) -> bool, v: Json, schema: Json, path: Path)
    requires schema.Obj? && Guarded(schema)
    ensures Visit(schema).Obj?
    ensures Sharper(ArrayErrors(search, v, schema, path), ArrayErrors(search, v, Visit(schema), path))
    decreases schema, 1
  {
    VisitFields(schema);
    if v.Arr? {
      KeyKept(schema, "minItems");
      KeyKept(schema, "maxItems");
      KeyKept(schema, "uniqueItems");
      ListErrorsSame(v.items, schema.fields, Visit(schema).fields, path);
      if DictAt(schema.fields, "items") {
        ItemsSharpen(search, v.items, schema, path);
      }
    }
  }

  lemma ListErrorsSame(v: seq<Json>, m: Fields, n: Fields, path: Path)
    requires Get(m, "minItems") == Get(n, "minItems") && Get(m, "maxItems") == Get(n, "maxItems")
    requires Get(m, "uniqueItems") == Get(n, "uniqueItems")
    ensures ListErrors(v, m, path) == ListErrors(v, n, path)
  {
  }

  /**
   Normalising only tightens: a value the normalised schema accepts is accepted by the
   original, every old violation is still reported at the same place, and every new one is
   an undeclared field or an `anyOf` that lost its last match to one.
   */
  lemma NormalizeTightens(search: (string, string) -> bool, v: Json, schema: Json, path: Path)
    requires Guarded(schema)
    ensures Sharper(Errors(search, v, schema, path), Errors(search, v, Normalize(schema), path))
    ensures Errors(search, v, Normalize(schema), path) == {} ==> Errors(search, v, schema, path) == {}
  {
    VisitSharpens(search, v, schema, path);
    assert !schema.Obj? ==> Errors(search, v, Normalize(schema), path) == {};
  }

  /** No `oneOf` and no `if` anywhere the checker looks. */
  ghost predicate Plain(node: Json)
    decreases node, 1
  {
    node.Obj? ==>
      && "oneOf" !in node.fields && "if" !in node.fields
      && forall k :: k in node.fields ==> PlainKey(k, node.fields[k])
  }

  ghost predicate PlainKey(k: string, j: Json)
    decreases j, 2
  {
    && (k == "properties" && j.Obj? ==> forall c :: c in j.fields ==> Plain(j.fields[c]))
    && (k in {"items", "additionalProperties", "then", "else"} ==> Plain(j))
    && (k in {"allOf", "anyOf"} && j.Arr? ==> forall i :: 0 <= i < |j.items| ==> Plain(j.items[i]))
  }

  lemma {:induction false} PlainIsGuarded(node: Json)
    requires Plain(node)
    ensures Guarded(node)
    decreases node, 1
  {
    if node.Obj? {
      forall k | k in node.fields ensures GuardedKey(k, node.fields[k]) {
        PlainKeyIsGuarded(k, node.fields[k]);
      }
    }
  }

  lemma {:induction false} PlainKeyIsGuarded(k: string, j: Json)
    requires PlainKey(k, j) && k != "oneOf" && k != "if"
    ensures GuardedKey(k, j)
    decreases j, 2
  {
    if k == "properties" && j.Obj? {
      forall c | c in j.fields ensures Guarded(j.fields[c]) { PlainIsGuarded(j.fields[c]); }
    } else if k in {"items", "additionalProperties", "then", "else"} {
      PlainIsGuarded(j);
    } else if k in {"allOf", "anyOf"} && j.Arr? {
      forall i | 0 <= i < |j.items| ensures Guarded(j.items[i]) { PlainIsGuarded(j.items[i]); }
    }
  }

  /** In particular for every schema without `oneOf` and `if`. */
  lemma PlainTightens(search: (string, string) -> bool, v: Json, schema: Json, path: Path)
    requires Plain(schema) && Errors(search, v, Normalize(schema), path) == {}
    ensures Errors(search, v, schema, path) == {}
  {
    PlainIsGuarded(schema);
    NormalizeTightens(search, v, schema, path);
  }

  // ---- The guards are needed ----

  /** An object schema declaring the single property `k`, open or closed. */
  function Declares(k: string): Json {
    Obj(map["properties" := Obj(map[k := Obj(map[])])])
  }

  function DeclaresOnly(k: string): Json {
    Obj(map["properties" := Obj(map[k := Obj(map[])]), "additionalProperties" := Bool(false)])
  }

  lemma DeclaresIsClosed(k: string)
    ensures Visit(Declares(k)) == DeclaresOnly(k)
  {
    var props := Obj(map[k := Obj(map[])]);
    assert Visit(Obj(map[])).fields == map[];
    assert VisitKey("properties", props).fields == props.fields;
    assert Visit(Declares(k)).fields == DeclaresOnly(k).fields;
  }

  lemma DeclaresGuarded(k: string)
    ensures Guarded(Declares(k))
  {
    assert Guarded(Obj(map[]));
    assert GuardedKey("properties", Obj(map[k := Obj(map[])]));
  }

  lemma EmptySchemaAccepts(search: (string, string) -> bool, v: Json, path: Path)
    ensures Errors(search, v, Obj(map[]), path) == {}
  {
  }

  /** Without `type`, `const` and `enum` only combinators, object and array keywords can object. */
  lemma UntypedErrors(search: (string, string) -> bool, v: Json, schema: Json, path: Path)
    requires schema.Obj? && Untyped(schema.fields)
    ensures Errors(search, v, schema, path)
            == CompositionErrors(search, v, schema, path) + ObjectErrors(search, v, schema, path)
               + ArrayErrors(search, v, schema, path)
  {
    var m := schema.fields;
    assert SchemaTypes(m) == {};
    assert ScalarErrors(search, v, m, path) == {};
  }

  predicate Untyped(m: Fields) {
    "type" !in m && "const" !in m && "enum" !in m
  }

  predicate Shapeless(m: Fields) {
    "type" !in m && "properties" !in m && "required" !in m && "items" !in m
  }

  lemma NoShape(search: (string, string) -> bool, v: Json, schema: Json, path: Path)
    requires schema.Obj? && Shapeless(schema.fields)
    ensures ObjectErrors(search, v, schema, path) == {} && ArrayErrors(search, v, schema, path) == {}
  {
  }

  // What nodes with few keywords lack, a few names at a time.

  lemma PropertyNodesUntyped(m: Fields)
    requires m.Keys <= {"properties", "additionalProperties"}
    ensures Untyped(m)
  {
    assert "type" !in m;
    assert "const" !in m && "enum" !in m;
  }

  lemma PropertyNodesUncombined(m: Fields)
    requires m.Keys <= {"properties", "additionalProperties"}
    ensures "allOf" !in m && "anyOf" !in m && "oneOf" !in m && "if" !in m
  {
    assert "allOf" !in m && "anyOf" !in m;
    assert "oneOf" !in m && "if" !in m;
  }

  lemma PropertyNodesUncounted(m: Fields)
    requires m.Keys <= {"properties", "additionalProperties"}
    ensures "required" !in m && "items" !in m && "minProperties" !in m && "maxProperties" !in m
  {
    assert "required" !in m && "items" !in m;
    assert "minProperties" !in m;
    assert "maxProperties" !in m;
  }

  lemma ConditionalNodesUntyped(m: Fields)
    requires m.Keys <= {"if", "then", "else"}
    ensures Untyped(m)
  {
    assert "type" !in m;
    assert "const" !in m && "enum" !in m;
  }

  lemma ConditionalNodesShapeless(m: Fields)
    requires m.Keys <= {"if", "then", "else"}
    ensures Shapeless(m)
  {
    assert "type" !in m && "properties" !in m;
    assert "required" !in m && "items" !in m;
  }

  lemma ConditionalNodesUncombined(m: Fields)
    requires m.Keys <= {"if", "then", "else"}
    ensures "allOf" !in m && "anyOf" !in m && "oneOf" !in m
  {
    assert "allOf" !in m;
    assert "anyOf" !in m && "oneOf" !in m;
  }

  lemma ChoiceNodesUntyped(m: Fields)
    requires m.Keys == {"oneOf"}
    ensures Untyped(m) && Shapeless(m)
  {
    assert "const" !in m && "enum" !in m && "type" !in m;
    assert "properties" !in m && "required" !in m && "items" !in m;
  }

  lemma ChoiceNodesUncombined(m: Fields)
    requires m.Keys == {"oneOf"}
    ensures "allOf" !in m && "anyOf" !in m && "if" !in m
  {
  }

  lemma NoCombinators(search: (string, string) -> bool, v: Json, schema: Json, path: Path)
    requires schema.Obj?
    requires var m := schema.fields; "allOf" !in m && "anyOf" !in m && "oneOf" !in m && "if" !in m
    ensures CompositionErrors(search, v, schema, path) == {}
  {
  }

  lemma NoRequired(v: Fields, m: Fields, path: Path)
    requires "required" !in m
    ensures RequiredErrors(v, m, path) == {}
  {
  }

  lemma NoCounts(v: Fields, m: Fields, path: Path)
    requires "minProperties" !in m && "maxProperties" !in m
    ensures CountErrors(v, m, path) == {}
  {
  }

  lemma NoItems(search: (string, string) -> bool, v: Json, schema: Json, path: Path)
    requires schema.Obj? && "type" !in schema.fields && "items" !in schema.fields
    ensures ArrayErrors(search, v, schema, path) == {}
  {
  }

  lemma OnlyPropertyErrors(search: (string, string) -> bool, v: Fields, schema: Json, path: Path)
    requires schema.Obj? && DictAt(schema.fields, "properties") && "type" !in schema.fields
    requires RequiredErrors(v, schema.fields, path) == {} && CountErrors(v, schema.fields, path) == {}
    ensures ObjectErrors(search, Obj(v), schema, path)
            == PropertyErrors(search, v, schema, path) + AdditionalErrors(search, v, schema, path)
  {
  }

  lemma OnlyPropertyKeys(search: (string, string) -> bool, v: Fields, schema: Json, path: Path)
    requires schema.Obj? && DictAt(schema.fields, "properties")
    requires schema.fields.Keys <= {"properties", "additionalProperties"}
    ensures Errors(search, Obj(v), schema, path)
            == PropertyErrors(search, v, schema, path) + AdditionalErrors(search, v, schema, path)
  {
    PropertyNodesUntyped(schema.fields);
    PropertyNodesUncombined(schema.fields);
    PropertyNodesUncounted(schema.fields);
    UntypedErrors(search, Obj(v), schema, path);
    NoCombinators(search, Obj(v), schema, path);
    NoRequired(v, schema.fields, path);
    NoCounts(v, schema.fields, path);
    NoItems(search, Obj(v), schema, path);
    OnlyPropertyErrors(search, v, schema, path);
  }

  lemma OnlyOneOfKey(search: (string, string) -> bool, v: Json, schema: Json, path: Path)
    requires schema.Obj? && schema.fields.Keys == {"oneOf"}
    ensures Errors(search, v, schema, path) == OneOfErrors(search, v, schema, path)
  {
    ChoiceNodesUntyped(schema.fields);
    ChoiceNodesUncombined(schema.fields);
    UntypedErrors(search, v, schema, path);
    NoShape(search, v, schema, path);
  }

  lemma OnlyIfKeys(search: (string, string) -> bool, v: Json, schema: Json, path: Path)
    requires schema.Obj? && schema.fields.Keys <= {"if", "then", "else"}
    ensures Errors(search, v, schema, path) == IfErrors(search, v, schema, path)
  {
    ConditionalNodesUntyped(schema.fields);
    ConditionalNodesShapeless(schema.fields);
    ConditionalNodesUncombined(schema.fields);
    UntypedErrors(search, v, schema, path);
    NoShape(search, v, schema, path);
  }

  lemma DeclaredObjectErrors(search: (string, string) -> bool, v: Fields, schema: Json, k: string, path: Path)
    requires schema == Declares(k) || schema == DeclaresOnly(k)
    ensures Errors(search, Obj(v), schema, path) == AdditionalErrors(search, v, schema, path)
  {
    OnlyPropertyKeys(search, v, schema, path);
    assert schema.fields["properties"].fields == map[k := Obj(map[])];
    forall e | e in PropertyErrors(search, v, schema, path)
      ensures false
    {
      if k in v {
        EmptySchemaAccepts(search, v[k], path + [Key(k)]);
      }
    }
  }

  lemma OpenAccepts(search: (string, string) -> bool, k: string, v: Fields, path: Path)
    ensures Errors(search, Obj(v), Declares(k), path) == {}
  {
    DeclaredObjectErrors(search, v, Declares(k), k, path);
  }

  lemma ClosedRejectsOthers(search: (string, string) -> bool, k: string, name: string, path: Path)
    ensures Errors(search, Obj(map[name := Null]), DeclaresOnly(k), path) == {} <==> name == k
  {
    var v := map[name := Null];
    DeclaredObjectErrors(search, v, DeclaresOnly(k), k, path);
    assert DeclaresOnly(k).fields["properties"].fields.Keys == {k};
    assert AdditionalErrors(search, v, DeclaresOnly(k), path)
        == set n | n in v && n !in DeclaresOnly(k).fields["properties"].fields
            :: Violation(path + [Key(n)], Undeclared);
    assert name != k ==> Violation(path + [Key(name)], Undeclared) in AdditionalErrors(search, v, DeclaresOnly(k),
                                                                                       path);
  }

  lemma DeclaredVerdicts(search: (string, string) -> bool, k: string, name: string, path: Path)
    ensures Errors(search, Obj(map[name := Null]), Declares(k), path) == {}
    ensures Errors(search, Obj(map[name := Null]), DeclaresOnly(k), path) == {} <==> name == k
  {
    OpenAccepts(search, k, map[name := Null], path);
    ClosedRejectsOthers(search, k, name, path);
  }

  // ---- oneOf ----

  function Choice(branches: seq<Json>): Json {
    Obj(map["oneOf" := Arr(branches)])
  }

  function Closed(branches: seq<Json>): seq<Json> {
    seq(|branches|, i requires 0 <= i < |branches| => Visit(branches[i]))
  }

  /** The branches that are schemas and accept the value. */
  function Accepting(search: (string, string) -> bool, v: Json, branches: seq<Json>, path: Path): set<nat> {
    set i: nat | i < |branches| && branches[i].Obj? && Errors(search, v, branches[i], path) == {}
  }

  lemma ChoiceVerdict(search: (string, string) -> bool, v: Json, branches: seq<Json>, path: Path)
    ensures Errors(search, v, Choice(branches), path) == {}
            <==> branches == [] || |Accepting(search, v, branches, path)| == 1
  {
    OnlyOneOfKey(search, v, Choice(branches), path);
    assert Matches(search, v, Choice(branches), "oneOf", path) == Accepting(search, v, branches, path);
  }

  lemma VisitWithoutProperties(node: Json)
    requires node.Obj? && "properties" !in node.fields
    ensures Visit(node) == Obj(map k | k in node.fields :: VisitKey(k, node.fields[k]))
  {
  }

  lemma VisitBranches(items: seq<Json>)
    ensures VisitKey("oneOf", Arr(items)) == Arr(seq(|items|, i requires 0 <= i < |items| => Visit(items[i])))
  {
  }

  lemma ChoiceIsClosed(branches: seq<Json>)
    ensures Normalize(Choice(branches)) == Choice(Closed(branches))
  {
    VisitWithoutProperties(Choice(branches));
    VisitBranches(branches);
    assert Visit(Choice(branches)).fields == map["oneOf" := Arr(Closed(branches))];
  }

  /** Closing guarded branches only makes them reject more. */
  lemma ClosedAcceptFewer(search: (string, string) -> bool, v: Json, branches: seq<Json>, path: Path)
    requires forall i :: 0 <= i < |branches| ==> Guarded(branches[i])
    ensures Accepting(search, v, Closed(branches), path) <= Accepting(search, v, branches, path)
  {
    forall i | i in Accepting(search, v, Closed(branches), path)
      ensures i in Accepting(search, v, branches, path)
    {
      VisitSharpens(search, v, branches[i], path);
    }
  }

  lemma Fewer(a: set<nat>, b: set<nat>)
    requires a <= b
    ensures |a| <= |b|
  {
    assert b == a + (b - a);
  }

  /**
   For any list of guarded branches, normalising `oneOf` turns a rejected value into an
   accepted one exactly when at least two branches accept it and closing leaves exactly one.
   */
  lemma OneOfLoosensIff(search: (string, string) -> bool, v: Json, branches: seq<Json>, path: Path)
    requires forall i :: 0 <= i < |branches| ==> Guarded(branches[i])
    ensures Errors(search, v, Choice(branches), path) != {}
            && Errors(search, v, Normalize(Choice(branches)), path) == {}
            <==> |Accepting(search, v, branches, path)| >= 2
                 && |Accepting(search, v, Closed(branches), path)| == 1
  {
    ChoiceIsClosed(branches);
    ChoiceVerdict(search, v, branches, path);
    ChoiceVerdict(search, v, Closed(branches), path);
    ClosedAcceptFewer(search, v, branches, path);
    Fewer(Accepting(search, v, Closed(branches), path), Accepting(search, v, branches, path));
  }

  /** With an open branch under `oneOf`, normalising accepts a value the original rejects. */
  lemma OneOfCanLoosen(search: (string, string) -> bool, path: Path)
    ensures Errors(search, Obj(map["a" := Null]), Choice([Declares("a"), Declares("b")]), path) != {}
    ensures Errors(search, Obj(map["a" := Null]), Normalize(Choice([Declares("a"), Declares("b")])), path) == {}
  {
    OpenPairAccepts(search, path);
    ClosedPairAccepts(search, path);
    PairLoosens(search, Obj(map["a" := Null]), "a", "b", path);
  }

  lemma PairLoosens(search: (string, string) -> bool, v: Json, a: string, b: string, path: Path)
    requires |Accepting(search, v, [Declares(a), Declares(b)], path)| == 2
    requires |Accepting(search, v, Closed([Declares(a), Declares(b)]), path)| == 1
    ensures Errors(search, v, Choice([Declares(a), Declares(b)]), path) != {}
    ensures Errors(search, v, Normalize(Choice([Declares(a), Declares(b)])), path) == {}
  {
    DeclaresGuarded(a);
    DeclaresGuarded(b);
    GuardedPairLoosens(search, v, Declares(a), Declares(b), path);
  }

  lemma GuardedPairLoosens(search: (string, string) -> bool, v: Json, a: Json, b: Json, path: Path)
    requires Guarded(a) && Guarded(b)
    requires |Accepting(search, v, [a, b], path)| == 2 && |Accepting(search, v, Closed([a, b]), path)| == 1
    ensures Errors(search, v, Choice([a, b]), path) != {}
    ensures Errors(search, v, Normalize(Choice([a, b])), path) == {}
  {
    OneOfLoosensIff(search, v, [a, b], path);
  }

  lemma OpenPairAccepts(search: (string, string) -> bool, path: Path)
    ensures |Accepting(search, Obj(map["a" := Null]), [Declares("a"), Declares("b")], path)| == 2
  {
    OpenAccepts(search, "a", map["a" := Null], path);
    OpenAccepts(search, "b", map["a" := Null], path);
    PairAccepts(search, Obj(map["a" := Null]), Declares("a"), Declares("b"), path);
  }

  lemma PairCloses(a: string, b: string)
    ensures Closed([Declares(a), Declares(b)]) == [DeclaresOnly(a), DeclaresOnly(b)]
  {
    DeclaresIsClosed(a);
    DeclaresIsClosed(b);
  }

  lemma ClosedPairAccepts(search: (string, string) -> bool, path: Path)
    ensures |Accepting(search, Obj(map["a" := Null]), Closed([Declares("a"), Declares("b")]), path)| == 1
  {
    ClosedRejectsOthers(search, "a", "a", path);
    ClosedRejectsOthers(search, "b", "a", path);
    PairCloses("a", "b");
    PairAccepts(search, Obj(map["a" := Null]), DeclaresOnly("a"), DeclaresOnly("b"), path);
  }

  lemma PairAccepts(search: (string, string) -> bool, v: Json, a: Json, b: Json, path: Path)
    requires a.Obj? && b.Obj?
    ensures |Accepting(search, v, [a, b], path)|
         == (if Errors(search, v, a, path) == {} then 1 else 0) + (if Errors(search, v, b, path) == {} then 1 else 0)
  {
    PairMembers(search, v, a, b, path);
    PairCount(Accepting(search, v, [a, b], path));
  }

  lemma PairMembers(search: (string, string) -> bool, v: Json, a: Json, b: Json, path: Path)
    requires a.Obj? && b.Obj?
    ensures 0 in Accepting(search, v, [a, b], path) <==> Errors(search, v, a, path) == {}
    ensures 1 in Accepting(search, v, [a, b], path) <==> Errors(search, v, b, path) == {}
    ensures Accepting(search, v, [a, b], path) <= {0, 1}
  {
  }

  lemma PairCount(s: set<nat>)
    requires s <= {0, 1}
    ensures |s| == (if 0 in s then 1 else 0) + (if 1 in s then 1 else 0)
  {
    if 0 in s && 1 in s { assert s == {0, 1}; }
    else if 0 in s { assert s == {0}; }
    else if 1 in s { assert s == {1}; }
    else { assert s == {}; }
  }

  // ---- if, then, else ----

  function Conditional(cond: Json, thenBranch: Option<Json>, elseBranch: Option<Json>): Json {
    Obj(map["if" := cond] + Entry("then", thenBranch) + Entry("else", elseBranch))
  }

  function Entry(k: string, j: Option<Json>): Fields {
    match j
    case None => map[]
    case Some(value) => map[k := value]
  }

  function VisitOption(j: Option<Json>): Option<Json> {
    match j
    case None => None
    case Some(value) => Some(Visit(value))
  }

  ghost predicate GuardedOption(j: Option<Json>) {
    j.Some? ==> Guarded(j.value)
  }

  /** An absent branch accepts everything. */
  function BranchErrors(search: (string, string) -> bool, v: Json, branch: Option<Json>, path: Path): set<Violation> {
    match branch
    case None => {}
    case Some(schema) => Errors(search, v, schema, path)
  }

  lemma VisitIf(j: Json)
    ensures VisitKey("if", j) == Visit(j)
  {
  }

  lemma VisitThen(j: Json)
    ensures VisitKey("then", j) == Visit(j)
  {
  }

  lemma VisitElse(j: Json)
    ensures VisitKey("else", j) == Visit(j)
  {
  }

  lemma ConditionalFields(cond: Json, thenBranch: Option<Json>, elseBranch: Option<Json>)
    ensures var m := Conditional(cond, thenBranch, elseBranch).fields;
            && m.Keys <= {"if", "then", "else"}
            && Get(m, "if") == Some(cond) && Get(m, "then") == thenBranch && Get(m, "else") == elseBranch
  {
  }

  lemma SameEntries(m: Fields, n: Fields)
    requires m.Keys <= {"if", "then", "else"} && n.Keys <= {"if", "then", "else"}
    requires Get(m, "if") == Get(n, "if") && Get(m, "then") == Get(n, "then") && Get(m, "else") == Get(n, "else")
    ensures m == n
  {
    forall k ensures (k in m <==> k in n) && (k in m ==> m[k] == n[k]) {
      assert k in m || k in n ==> k in {"if", "then", "else"};
      assert Get(m, k) == Get(n, k) || (k !in m && k !in n);
    }
  }

  /** A visited node without `properties`, key by key. */
  lemma VisitedEntry(node: Json, k: string)
    requires node.Obj? && "properties" !in node.fields
    ensures Visit(node).Obj? && Visit(node).fields.Keys == node.fields.Keys
    ensures k in node.fields ==> Get(Visit(node).fields, k) == Some(VisitKey(k, node.fields[k]))
    ensures k !in node.fields ==> Get(Visit(node).fields, k) == None
  {
    VisitWithoutProperties(node);
  }

  lemma ConditionalIsClosed(cond: Json, thenBranch: Option<Json>, elseBranch: Option<Json>)
    ensures Normalize(Conditional(cond, thenBranch, elseBranch))
         == Conditional(Visit(cond), VisitOption(thenBranch), VisitOption(elseBranch))
  {
    var schema := Conditional(cond, thenBranch, elseBranch);
    var closed := Conditional(Visit(cond), VisitOption(thenBranch), VisitOption(elseBranch));
    ConditionalFields(cond, thenBranch, elseBranch);
    ConditionalFields(Visit(cond), VisitOption(thenBranch), VisitOption(elseBranch));
    assert "properties" !in schema.fields;
    VisitedEntry(schema, "if");
    VisitedEntry(schema, "then");
    VisitedEntry(schema, "else");
    VisitIf(cond);
    if thenBranch.Some? { VisitThen(thenBranch.value); }
    if elseBranch.Some? { VisitElse(elseBranch.value); }
    SameEntries(Visit(schema).fields, closed.fields);
  }

  lemma ConditionalVerdict(search: (string, string) -> bool, v: Json, cond: Json, thenBranch: Option<Json>,
                           elseBranch: Option<Json>, path: Path)
    requires cond.Obj?
    ensures Errors(search, v, Conditional(cond, thenBranch, elseBranch), path)
         == BranchErrors(search, v, if Errors(search, v, cond, path) == {} then thenBranch else elseBranch, path)
  {
    var schema := Conditional(cond, thenBranch, elseBranch);
    ConditionalFields(cond, thenBranch, elseBranch);
    OnlyIfKeys(search, v, schema, path);
  }

  lemma OptionSharpens(search: (string, string) -> bool, v: Json, branch: Option<Json>, path: Path)
    requires GuardedOption(branch)
    ensures BranchErrors(search, v, VisitOption(branch), path) == {} ==> BranchErrors(search, v, branch, path) == {}
  {
    if branch.Some? {
      VisitSharpens(search, v, branch.value, path);
    }
  }

  /**
   With guarded parts, normalising a conditional turns a rejected value into an accepted one
   exactly when the condition accepts the value until it is closed, `then` rejects it, and the
   closed `else`, if there is one, accepts it. In particular an `else` alone never loosens.
   */
  lemma ConditionalLoosensIff(search: (string, string) -> bool, v: Json, cond: Json, thenBranch: Option<Json>,
                              elseBranch: Option<Json>, path: Path)
    requires cond.Obj? && Guarded(cond) && GuardedOption(thenBranch) && GuardedOption(elseBranch)
    ensures var schema := Conditional(cond, thenBranch, elseBranch);
            Errors(search, v, schema, path) != {} && Errors(search, v, Normalize(schema), path) == {}
            <==> Errors(search, v, cond, path) == {} && Errors(search, v, Visit(cond), path) != {}
                 && BranchErrors(search, v, thenBranch, path) != {}
                 && BranchErrors(search, v, VisitOption(elseBranch), path) == {}
  {
    VisitFields(cond);
    ConditionalIsClosed(cond, thenBranch, elseBranch);
    ConditionalVerdict(search, v, cond, thenBranch, elseBranch, path);
    ConditionalVerdict(search, v, Visit(cond), VisitOption(thenBranch), VisitOption(elseBranch), path);
    VisitSharpens(search, v, cond, path);
    OptionSharpens(search, v, thenBranch, path);
    OptionSharpens(search, v, elseBranch, path);
  }

  lemma ConstNullRejects(search: (string, string) -> bool, v: Json, path: Path)
    requires !v.Null?
    ensures Errors(search, v, Obj(map["const" := Null]), path) != {}
  {
    var never := Obj(map["const" := Null]);
    assert !PyEq(v, Null);
    assert Violation(path, Const) in Errors(search, v, never, path);
  }

  /** An open condition that accepts a value until it is closed, guarding a branch that rejects it. */
  lemma IfCanLoosen(search: (string, string) -> bool, path: Path)
    ensures var schema := Conditional(Declares("b"), Some(Obj(map["const" := Null])), None);
            && Errors(search, Obj(map["a" := Null]), schema, path) != {}
            && Errors(search, Obj(map["a" := Null]), Normalize(schema), path) == {}
  {
    var v, never := Obj(map["a" := Null]), Obj(map["const" := Null]);
    DeclaresIsClosed("b");
    DeclaresGuarded("b");
    DeclaredVerdicts(search, "b", "a", path);
    ConstNullRejects(search, v, path);
    ConstGuarded();
    ConditionalLoosensIff(search, v, Declares("b"), Some(never), None, path);
  }

  lemma ConstGuarded()
    ensures Guarded(Obj(map["const" := Null]))
  {
    assert GuardedKey("const", Null);
  }
}
