/**
 The bounded projection of facts for model prompts (`model_facts.py`, `text_utils.py`).
 `redact` is the secret redaction applied to every string; the value has already been
 redacted as a whole.
 */
module ModelFacts {
  import opened Values

  function Larger(a: int, b: int): (r: int)
    ensures r >= a && r >= b && (r == a || r == b)
  {
    if a >= b then a else b
  }

  function Smaller(a: int, b: int): (r: int)
    ensures r <= a && r <= b && (r == a || r == b)
  {
    if a <= b then a else b
  }

  /** Decimal digits of a nonnegative number. */
  function Decimal(n: nat): (s: string)
    ensures |s| >= 1
  {
    var digit := ["0", "1", "2", "3", "4", "5", "6", "7", "8", "9"][n % 10];
    if n < 10 then digit else Decimal(n / 10) + digit
  }

  function Frame(omitted: int): string {
    "\n... [truncated " + (if omitted >= 0 then Decimal(omitted) else "-" + Decimal(-omitted))
    + " chars from the middle] ...\n"
  }

  /** `text[:n]` and `text[-n:]` for positive `n`. */
  function FirstChars(text: string, n: nat): string {
    if n >= |text| then text else text[..n]
  }

  function LastChars(text: string, n: nat): string {
    if n >= |text| then text else text[|text| - n..]
  }

  /** `truncate_middle` */
  function TruncateMiddle(text: string, limit: int): string {
    if |text| <= limit then text
    else
      var head := Larger(1, limit / 2);
      var tail := Larger(1, limit - head);
      FirstChars(text, head) + Frame(|text| - head - tail) + LastChars(text, tail)
  }

  /** `_ProjectionBudget.take`: the text handed out and the budget left. */
  function Take(text: string, limit: int, remaining: nat): (string, nat) {
    var allowed := Larger(0, Smaller(limit, remaining));
    if allowed == 0 then ("", remaining)
    else
      var projected := TruncateMiddle(text, allowed);
      (projected, Larger(0, remaining - |projected|))
  }

  /** What is copied without touching the budget: null, booleans and numbers. */
  type Scalar = j: Json | j.Null? || j.Bool? || j.Int? || j.Float? witness Null

  /** A fact. `SetOf` lists the members of a set in the order the code sorts them. */
  datatype Value =
    | Text(text: string)
    | Plain(value: Scalar)
    | Dict(entries: seq<Entry>)
    | ListOf(items: seq<Value>)
    | SetOf(members: seq<Value>)
    | Bytes(length: nat)
    | Other(rendered: string)

  /** A dictionary entry under its key as a string. */
  datatype Entry = Entry(key: string, fact: Value)

  /** The projection. Markers stand for the two fixed dictionaries the code emits. */
  datatype Projected =
    | OutText(text: string)
    | OutPlain(value: Scalar)
    | OutDict(fields: seq<Field>)
    | OutList(items: seq<Projected>)
    | TruncatedMarker
    | BytesMarker(length: nat)

  datatype Field = Field(key: string, out: Projected)

  datatype Limits = Limits(chars: int, depth: int, items: int)

  /** Assignment to a key of an ordered dictionary. */
  function Assign(fields: seq<Field>, key: string, out: Projected): seq<Field> {
    if fields == [] then [Field(key, out)]
    else if fields[0].key == key then [Field(key, out)] + fields[1..]
    else [fields[0]] + Assign(fields[1..], key, out)
  }

  /** The dictionary that assigning the fields one after the other builds. */
  function Collapse(fields: seq<Field>): seq<Field> {
    if fields == [] then []
    else
      var last := fields[|fields| - 1];
      Assign(Collapse(fields[..|fields| - 1]), last.key, last.out)
  }

  /** How many of `n` entries the slice `[:limit]` keeps. */
  function Kept(n: nat, limit: int): (r: nat)
    ensures r <= n && (limit >= 0 ==> r <= limit)
  {
    if limit < 0 then if n + limit >= 0 then n + limit else 0
    else if n <= limit then n else limit
  }

  /** What a hand-out makes of a text and a budget. */
  type Taker = (string, nat) -> (string, nat)

  /** The hand-outs of a budget object under a limit for each string. */
  function Taking(limit: int): Taker {
    (text: string, remaining: nat) => Take(text, limit, remaining)
  }

  /** `_project`: the projection of a value and the budget it leaves. */
  function Project(v: Value, redact: string -> string, take: Taker, remaining: nat, depth: nat,
                   limits: Limits): (Projected, nat)
    decreases v, 0
  {
    if v.Text? then
      var (text, left) := take(redact(v.text), remaining);
      (OutText(text), left)
    else if v.Plain? then (OutPlain(v.value), remaining)
    else if depth >= limits.depth then (TruncatedMarker, remaining)
    else if v.Dict? then
      var (fields, left) := ProjectEntries(v.entries, Kept(|v.entries|, limits.items), redact, take, remaining,
                                           depth + 1, limits);
      (OutDict(Collapse(fields)), left)
    else if v.ListOf? then
      var (outs, left) := ProjectItems(v.items, Kept(|v.items|, limits.items), redact, take, remaining, depth + 1,
                                       limits);
      (OutList(outs), left)
    else if v.SetOf? then
      var (outs, left) := ProjectItems(v.members, Kept(|v.members|, limits.items), redact, take, remaining,
                                       depth + 1, limits);
      (OutList(outs), left)
    else if v.Bytes? then (BytesMarker(v.length), remaining)
    else
      var (text, left) := take(v.rendered, remaining);
      (OutText(text), left)
  }

  function ProjectItems(items: seq<Value>, count: nat, redact: string -> string, take: Taker, remaining: nat,
                        depth: nat, limits: Limits): (seq<Projected>, nat)
    requires count <= |items|
    decreases items, count
  {
    if count == 0 then ([], remaining)
    else
      var (outs, mid) := ProjectItems(items, count - 1, redact, take, remaining, depth, limits);
      var (out, left) := Project(items[count - 1], redact, take, mid, depth, limits);
      (outs + [out], left)
  }

  /** The assignments of a projected dictionary, in order. */
  function ProjectEntries(entries: seq<Entry>, count: nat, redact: string -> string, take: Taker, remaining: nat,
                          depth: nat, limits: Limits): (seq<Field>, nat)
    requires count <= |entries|
    decreases entries, count
  {
    if count == 0 then ([], remaining)
    else
      var (fields, mid) := ProjectEntries(entries, count - 1, redact, take, remaining, depth, limits);
      var (out, left) := Project(entries[count - 1].fact, redact, take, mid, depth, limits);
      (fields + [Field(entries[count - 1].key, out)], left)
  }

  /** The limits `project_model_facts` works with: each raised to at least one. */
  function AtLeastOne(given: Limits): (limits: Limits)
    ensures limits.chars >= 1 && limits.depth >= 1 && limits.items >= 1
  {
    Limits(Larger(1, given.chars), Larger(1, given.depth), Larger(1, given.items))
  }

  /** `project_model_facts` */
  function ProjectFacts(v: Value, redact: string -> string, maxCharacters: int, given: Limits): Projected {
    Project(v, redact, Taking(AtLeastOne(given).chars), Larger(0, maxCharacters), 0, AtLeastOne(given)).0
  }

  class ProjectionBudget {
    var remaining: nat

    constructor (remaining: nat)
      ensures this.remaining == remaining
    {
      this.remaining := remaining;
    }

    method TakeText(text: string, limit: int) returns (projected: string)
      modifies this
      ensures (projected, remaining) == Take(text, limit, old(remaining))
    {
      var allowed := Larger(0, Smaller(limit, remaining));
      if allowed == 0 { return ""; }
      projected := TruncateMiddle(text, allowed);
      remaining := Larger(0, remaining - |projected|);
    }
  }

  /** `_project` with the budget object threaded through in place. */
  method ProjectInPlace(v: Value, redact: string -> string, budget: ProjectionBudget, depth: nat, limits: Limits)
    returns (out: Projected)
    modifies budget
    ensures (out, budget.remaining) == Project(v, redact, Taking(limits.chars), old(budget.remaining), depth, limits)
    decreases v, 0
  {
    if v.Text? {
      var text := budget.TakeText(redact(v.text), limits.chars);
      return OutText(text);
    }
    if v.Plain? { return OutPlain(v.value); }
    if depth >= limits.depth { return TruncatedMarker; }
    if v.Dict? {
      var fields := ProjectDict(v.entries, redact, budget, depth + 1, limits);
      return OutDict(fields);
    }
    if v.ListOf? {
      var outs := ProjectList(v.items, redact, budget, depth + 1, limits);
      return OutList(outs);
    }
    if v.SetOf? {
      var outs := ProjectList(v.members, redact, budget, depth + 1, limits);
      return OutList(outs);
    }
    if v.Bytes? { return BytesMarker(v.length); }
    var text := budget.TakeText(v.rendered, limits.chars);
    return OutText(text);
  }

  method ProjectList(items: seq<Value>, redact: string -> string, budget: ProjectionBudget, depth: nat, limits: Limits)
    returns (outs: seq<Projected>)
    modifies budget
    ensures (outs, budget.remaining) ==
            ProjectItems(items, Kept(|items|, limits.items), redact, Taking(limits.chars), old(budget.remaining),
                         depth, limits)
    decreases items, 1
  {
    outs := [];
    for k := 0 to Kept(|items|, limits.items)
      invariant (outs, budget.remaining) == ProjectItems(items, k, redact, Taking(limits.chars),
                                                         old(budget.remaining), depth, limits)
    {
      var nested := ProjectInPlace(items[k], redact, budget, depth, limits);
      outs := outs + [nested];
    }
  }

  method ProjectDict(entries: seq<Entry>, redact: string -> string, budget: ProjectionBudget, depth: nat,
                     limits: Limits)
    returns (fields: seq<Field>)
    modifies budget
    ensures var (pairs, left) := ProjectEntries(entries, Kept(|entries|, limits.items), redact,
                                                  Taking(limits.chars), old(budget.remaining), depth, limits);
            fields == Collapse(pairs) && budget.remaining == left
    decreases entries, 1
  {
    fields := [];
    ghost var pairs: seq<Field> := [];
    for k := 0 to Kept(|entries|, limits.items)
      invariant (pairs, budget.remaining) == ProjectEntries(entries, k, redact, Taking(limits.chars),
                                                            old(budget.remaining), depth, limits)
      invariant fields == Collapse(pairs)
    {
      var nested := ProjectInPlace(entries[k].fact, redact, budget, depth, limits);
      CollapseSnoc(pairs, Field(entries[k].key, nested));
      pairs := pairs + [Field(entries[k].key, nested)];
      fields := Assign(fields, entries[k].key, nested);
    }
  }

  lemma CollapseSnoc(fields: seq<Field>, f: Field)
    ensures Collapse(fields + [f]) == Assign(Collapse(fields), f.key, f.out)
  {
    assert (fields + [f])[..|fields|] == fields;
  }

  /** `project_model_facts` with its budget object. */
  method ProjectModelFacts(v: Value, redact: string -> string, maxCharacters: int, given: Limits)
    returns (out: Projected)
    ensures out == ProjectFacts(v, redact, maxCharacters, given)
  {
    var budget := new ProjectionBudget(Larger(0, maxCharacters));
    out := ProjectInPlace(v, redact, budget, 0, AtLeastOne(given));
  }
}
