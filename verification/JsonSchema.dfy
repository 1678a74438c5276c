/**
 The schema checker and normaliser of `json_utils.py`. A schema is an arbitrary JSON value,
 as in the code: malformed keywords are ignored. The checker returns the set of violations,
 each a path and the rule broken there. `search` is `re.search(pattern, value) is not None`.
 */
module JsonSchema {
  import opened Values

  type Fields = map<string, Json>

  datatype Hop = Key(key: string) | Index(i: nat)

  type Path = seq<Hop>

  datatype Rule =
    | Const | AnyOf | OneOf | Type | Enum
    | Required | Undeclared | MinProperties | MaxProperties
    | MinItems | MaxItems | UniqueItems
    | MinLength | MaxLength | Pattern
    | Minimum | Maximum | ExclusiveMinimum | ExclusiveMaximum

  datatype Violation = Violation(path: Path, rule: Rule)

  /** The numeric value of a Python `int`, `float` or `bool`. */
  function NumberOf(j: Json): Option<real> {
    match j
    case Bool(b) => Some(if b then 1.0 else 0.0)
    case Int(i) => Some(i as real)
    case Float(r) => Some(r)
    case _ => None
  }

  /** `isinstance(j, int)`, which includes `bool`. */
  function IntegerOf(j: Option<Json>): Option<int> {
    match j
    case Some(Int(i)) => Some(i)
    case Some(Bool(b)) => Some(if b then 1 else 0)
    case _ => None
  }

  /** Python `==`: numbers compare across types, dicts ignore order. */
  predicate PyEq(a: Json, b: Json) {
    match a
    case Arr(items) =>
      b.Arr? && |items| == |b.items| && forall i :: 0 <= i < |items| ==> PyEq(items[i], b.items[i])
    case Obj(fields) =>
      b.Obj? && fields.Keys == b.fields.Keys && forall k :: k in fields ==> PyEq(fields[k], b.fields[k])
    case Null => b.Null?
    case Str(s) => b == Str(s)
    case _ => NumberOf(a) == NumberOf(b)
  }

  function SchemaTypes(m: Fields): set<string> {
    match Get(m, "type")
    case Some(Str(s)) => {s}
    case Some(Arr(items)) => set i | 0 <= i < |items| && items[i].Str? :: items[i].s
    case _ => {}
  }

  predicate TypeMatches(v: Json, name: string) {
    || (name == "object" && v.Obj?)
    || (name == "array" && v.Arr?)
    || (name == "string" && v.Str?)
    || (name == "integer" && v.Int?)
    || (name == "number" && (v.Int? || v.Float?))
    || (name == "boolean" && v.Bool?)
    || (name == "null" && v.Null?)
  }

  function When(broken: bool, path: Path, rule: Rule): set<Violation> {
    if broken then {Violation(path, rule)} else {}
  }

  predicate DictAt(m: Fields, k: string) {
    k in m && m[k].Obj?
  }

  predicate ListAt(m: Fields, k: string) {
    k in m && m[k].Arr?
  }

  predicate Mismatched(v: Json, m: Fields) {
    SchemaTypes(m) != {} && !(exists t :: t in SchemaTypes(m) && TypeMatches(v, t))
  }

  function EnumErrors(v: Json, m: Fields, path: Path): set<Violation> {
    When(ListAt(m, "enum") && !(exists i :: 0 <= i < |m["enum"].items| && PyEq(v, m["enum"].items[i])), path, Enum)
  }

  /** `json_schema_errors`; a type mismatch skips every later keyword. */
  function Errors(search: (string, string) -> bool, v: Json, schema: Json, path: Path): set<Violation>
    decreases schema, 3
  {
    if !schema.Obj? then {}
    else
      var m := schema.fields;
      When("const" in m && !PyEq(v, m["const"]), path, Const)
      + CompositionErrors(search, v, schema, path)
      + (if Mismatched(v, m)
         then {Violation(path, Type)}
         else
           EnumErrors(v, m, path)
           + ObjectErrors(search, v, schema, path)
           + ArrayErrors(search, v, schema, path)
           + ScalarErrors(search, v, m, path))
  }

  /** The branches of a combinator that are schemas and accept the value. */
  function Matches(search: (string, string) -> bool, v: Json, schema: Json, k: string, path: Path): set<nat>
    requires schema.Obj? && ListAt(schema.fields, k)
    decreases schema, 0
  {
    var branches := schema.fields[k].items;
    set i: nat | i < |branches| && branches[i].Obj? && Errors(search, v, branches[i], path) == {}
  }

  function AllOfErrors(search: (string, string) -> bool, v: Json, schema: Json, path: Path): set<Violation>
    requires schema.Obj?
    decreases schema, 1
  {
    if !ListAt(schema.fields, "allOf") then {}
    else
      var branches := schema.fields["allOf"].items;
      set i, e | 0 <= i < |branches| && e in Errors(search, v, branches[i], path) :: e
  }

  /** At least one schema among the branches must match; a list without schemas demands nothing. */
  function AnyOfErrors(search: (string, string) -> bool, v: Json, schema: Json, path: Path): set<Violation>
    requires schema.Obj?
    decreases schema, 1
  {
    if !ListAt(schema.fields, "anyOf") then {}
    else
      var branches := schema.fields["anyOf"].items;
      When((exists i :: 0 <= i < |branches| && branches[i].Obj?) && Matches(search, v, schema, "anyOf", path) == {},
           path, AnyOf)
  }

  /** Exactly one branch must match; a nonempty list without schemas is never met. */
  function OneOfErrors(search: (string, string) -> bool, v: Json, schema: Json, path: Path): set<Violation>
    requires schema.Obj?
    decreases schema, 1
  {
    if !ListAt(schema.fields, "oneOf") then {}
    else
      When(schema.fields["oneOf"].items != [] && |Matches(search, v, schema, "oneOf", path)| != 1, path, OneOf)
  }

  function IfErrors(search: (string, string) -> bool, v: Json, schema: Json, path: Path): set<Violation>
    requires schema.Obj?
    decreases schema, 1
  {
    var m := schema.fields;
    if !DictAt(m, "if") then {}
    else
      var branch := if Errors(search, v, m["if"], path) == {} then "then" else "else";
      if branch in m then Errors(search, v, m[branch], path) else {}
  }

  /** `_composition_errors` */
  function CompositionErrors(search: (string, string) -> bool, v: Json, schema: Json, path: Path): set<Violation>
    requires schema.Obj?
    decreases schema, 2
  {
    AllOfErrors(search, v, schema, path) + AnyOfErrors(search, v, schema, path)
    + OneOfErrors(search, v, schema, path) + IfErrors(search, v, schema, path)
  }

  predicate ObjectLike(m: Fields) {
    "object" in SchemaTypes(m) || (SchemaTypes(m) == {} && ("properties" in m || "required" in m))
  }

  function PropertyErrors(search: (string, string) -> bool, v: Fields, schema: Json, path: Path): set<Violation>
    requires schema.Obj? && DictAt(schema.fields, "properties")
    decreases schema, 0
  {
    var props := schema.fields["properties"].fields;
    set k, e | k in props && k in v && e in Errors(search, v[k], props[k], path + [Key(k)]) :: e
  }

  /** Fields of the value that `properties` does not declare, against `additionalProperties`. */
  function AdditionalErrors(search: (string, string) -> bool, v: Fields, schema: Json, path: Path): set<Violation>
    requires schema.Obj? && DictAt(schema.fields, "properties")
    decreases schema, 0
  {
    var m := schema.fields;
    var props := m["properties"].fields;
    if "additionalProperties" !in m then {}
    else if m["additionalProperties"] == Bool(false) then
      set k | k in v && k !in props :: Violation(path + [Key(k)], Undeclared)
    else
      set k, e | k in v && k !in props && e in Errors(search, v[k], m["additionalProperties"], path + [Key(k)]) :: e
  }

  function RequiredErrors(v: Fields, m: Fields, path: Path): set<Violation> {
    if ListAt(m, "required") then
      var required := m["required"].items;
      set i | 0 <= i < |required| && required[i].Str? && required[i].s !in v
        :: Violation(path + [Key(required[i].s)], Required)
    else {}
  }

  function CountErrors(v: Fields, m: Fields, path: Path): set<Violation> {
    var least, most := IntegerOf(Get(m, "minProperties")), IntegerOf(Get(m, "maxProperties"));
    When(least.Some? && |v| < least.value, path, MinProperties)
    + When(most.Some? && |v| > most.value, path, MaxProperties)
  }

  /** `_object_errors` */
  function ObjectErrors(search: (string, string) -> bool, v: Json, schema: Json, path: Path): set<Violation>
    requires schema.Obj?
    decreases schema, 1
  {
    var m := schema.fields;
    if !ObjectLike(m) || !v.Obj? then {}
    else
      RequiredErrors(v.fields, m, path)
      + (if DictAt(m, "properties")
         then PropertyErrors(search, v.fields, schema, path) + AdditionalErrors(search, v.fields, schema, path)
         else {})
      + CountErrors(v.fields, m, path)
  }

  function ItemErrors(search: (string, string) -> bool, v: seq<Json>, schema: Json, path: Path): set<Violation>
    requires schema.Obj? && DictAt(schema.fields, "items")
    decreases schema, 0
  {
    set i: nat, e | i < |v| && e in Errors(search, v[i], schema.fields["items"], path + [Index(i)]) :: e
  }

  /** Item counts and uniqueness; serialized items are equal exactly when the JSON values are. */
  function ListErrors(v: seq<Json>, m: Fields, path: Path): set<Violation> {
    var least, most := IntegerOf(Get(m, "minItems")), IntegerOf(Get(m, "maxItems"));
    When(least.Some? && |v| < least.value, path, MinItems)
    + When(most.Some? && |v| > most.value, path, MaxItems)
    + When(Get(m, "uniqueItems") == Some(Bool(true)) && exists i, j :: 0 <= i < j < |v| && v[i] == v[j],
           path, UniqueItems)
  }

  /** `_array_errors` */
  function ArrayErrors(search: (string, string) -> bool, v: Json, schema: Json, path: Path): set<Violation>
    requires schema.Obj?
    decreases schema, 1
  {
    var m := schema.fields;
    if !("array" in SchemaTypes(m) || (SchemaTypes(m) == {} && "items" in m)) || !v.Arr? then {}
    else
      (if DictAt(m, "items") then ItemErrors(search, v.items, schema, path) else {})
      + ListErrors(v.items, m, path)
  }

  function StringErrors(search: (string, string) -> bool, v: Json, m: Fields, path: Path): set<Violation> {
    if "string" in SchemaTypes(m) && v.Str? then
      var least, most := IntegerOf(Get(m, "minLength")), IntegerOf(Get(m, "maxLength"));
      When(least.Some? && |v.s| < least.value, path, MinLength)
      + When(most.Some? && |v.s| > most.value, path, MaxLength)
      + When("pattern" in m && m["pattern"].Str? && !search(m["pattern"].s, v.s), path, Pattern)
    else {}
  }

  function NumberErrors(v: Json, m: Fields, path: Path): set<Violation> {
    if (v.Int? || v.Float?) && ("integer" in SchemaTypes(m) || "number" in SchemaTypes(m)) then
      var x := NumberOf(v).value;
      When(BoundAt(m, "minimum") && x < NumberOf(m["minimum"]).value, path, Minimum)
      + When(BoundAt(m, "maximum") && x > NumberOf(m["maximum"]).value, path, Maximum)
      + When(BoundAt(m, "exclusiveMinimum") && x <= NumberOf(m["exclusiveMinimum"]).value, path, ExclusiveMinimum)
      + When(BoundAt(m, "exclusiveMaximum") && x >= NumberOf(m["exclusiveMaximum"]).value, path, ExclusiveMaximum)
    else {}
  }

  /** `_scalar_errors` */
  function ScalarErrors(search: (string, string) -> bool, v: Json, m: Fields, path: Path): set<Violation> {
    StringErrors(search, v, m, path) + NumberErrors(v, m, path)
  }

  predicate BoundAt(m: Fields, k: string) {
    k in m && NumberOf(m[k]).Some?
  }

  // ---- normalize_json_schema ----

  /** Whether `setdefault("additionalProperties", False)` adds the key. */
  predicate Closes(m: Fields) {
    DictAt(m, "properties") && "additionalProperties" !in m
  }

  /** `visit` on a schema node; anything that is not an object is left alone. */
  function Visit(node: Json): Json
    decreases node, 1
  {
    if !node.Obj? then node
    else
      var m := node.fields;
      var visited := map k | k in m :: VisitKey(k, m[k]);
      Obj(if Closes(m) then visited["additionalProperties" := Bool(false)] else visited)
  }

  /** What `visit` makes of one entry of a node. */
  function VisitKey(k: string, j: Json): Json
    decreases j, 2
  {
    if k == "properties" then
      if j.Obj? then Obj(map c | c in j.fields :: Visit(j.fields[c])) else j
    else if k in {"items", "additionalProperties", "if", "then", "else"} then Visit(j)
    else if k in {"allOf", "anyOf", "oneOf"} then
      if j.Arr? then Arr(seq(|j.items|, i requires 0 <= i < |j.items| => Visit(j.items[i]))) else j
    else j
  }

  function Normalize(schema: Json): Json {
    if schema.Obj? then Visit(schema) else Obj(map[])
  }
}
