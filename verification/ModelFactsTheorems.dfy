/** What the projection of facts promises: a character budget, bounded shape, and no loss within the limits. */
module ModelFactsTheorems {
  import opened Values
  import opened ModelFacts

  /** Total length of the string leaves of a projection. */
  function Total(p: Projected): nat
    decreases p, 0
  {
    match p
    case OutText(text) => |text|
    case OutDict(fields) => TotalOfFields(fields)
    case OutList(items) => TotalOfItems(items)
    case _ => 0
  }

  function TotalOfItems(items: seq<Projected>): nat {
    if items == [] then 0 else TotalOfItems(items[..|items| - 1]) + Total(items[|items| - 1])
  }

  function TotalOfFields(fields: seq<Field>): nat {
    if fields == [] then 0 else TotalOfFields(fields[..|fields| - 1]) + Total(fields[|fields| - 1].out)
  }

  /** The longest string leaf of a value, after redaction. */
  function Longest(v: Value, redact: string -> string): nat
    decreases v, 0
  {
    match v
    case Text(text) => |redact(text)|
    case Dict(entries) => LongestEntry(entries, |entries|, redact)
    case ListOf(items) => LongestItem(items, |items|, redact)
    case SetOf(members) => LongestItem(members, |members|, redact)
    case Other(rendered) => |rendered|
    case _ => 0
  }

  function LongestItem(items: seq<Value>, count: nat, redact: string -> string): nat
    requires count <= |items|
    decreases items, count
  {
    if count == 0 then 0 else Larger(LongestItem(items, count - 1, redact), Longest(items[count - 1], redact))
  }

  function LongestEntry(entries: seq<Entry>, count: nat, redact: string -> string): nat
    requires count <= |entries|
    decreases entries, count
  {
    if count == 0 then 0 else Larger(LongestEntry(entries, count - 1, redact), Longest(entries[count - 1].fact, redact))
  }

  lemma {:induction false} LongerNumbersAreLonger(a: nat, b: nat)
    requires a <= b
    ensures |Decimal(a)| <= |Decimal(b)|
  {
    if a >= 10 {
      LongerNumbersAreLonger(a / 10, b / 10);
    }
  }

  lemma FrameGrows(a: nat, b: nat)
    requires a <= b
    ensures |Frame(a)| <= |Frame(b)|
  {
    LongerNumbersAreLonger(a, b);
  }

  /** One hand-out overshoots the budget by at most a frame and a character, and only by emptying it. */
  lemma TakeBound(text: string, limit: int, remaining: nat, longest: nat)
    requires |text| <= longest
    ensures var (out, left) := Take(text, limit, remaining);
      Spent(|out|, remaining, left, longest)
  {
    var allowed := Larger(0, Smaller(limit, remaining));
    if allowed != 0 && |text| > allowed {
      var head := Larger(1, allowed / 2);
      var tail := Larger(1, allowed - head);
      var omitted := |text| - head - tail;
      FrameGrows(omitted, longest);
      assert |TruncateMiddle(text, allowed)| == head + |Frame(omitted)| + tail;
    }
  }

  /** Characters emitted between two budgets: all were taken off, but for one overshoot that empties it. */
  predicate Spent(emitted: nat, before: nat, after: nat, longest: nat) {
    && after <= before
    && (before == 0 ==> emitted == 0)
    && (after > 0 ==> emitted <= before - after)
    && (after == 0 ==> emitted <= before + |Frame(longest)| + 1)
  }

  /** Every hand-out of a text no longer than `longest` stays within that. */
  ghost predicate Frugal(take: Taker, longest: nat) {
    forall text, remaining :: |text| <= longest ==>
      var (out, left) := take(text, remaining);
      Spent(|out|, remaining, left, longest)
  }

  lemma TakingIsFrugal(limit: int, longest: nat)
    ensures Frugal(Taking(limit), longest)
  {
    forall text, remaining: nat | |text| <= longest
      ensures var (out, left) := Taking(limit)(text, remaining); Spent(|out|, remaining, left, longest)
    {
      TakeBound(text, limit, remaining, longest);
    }
  }

  lemma {:induction false} TotalCons(f: Field, fields: seq<Field>)
    ensures TotalOfFields([f] + fields) == Total(f.out) + TotalOfFields(fields)
  {
    if fields == [] {
      assert [f] + fields == [f] && [f][..0] == [];
    } else {
      TotalCons(f, fields[..|fields| - 1]);
      assert ([f] + fields)[..|fields|] == [f] + fields[..|fields| - 1];
    }
  }

  lemma {:induction false} AssignTotal(fields: seq<Field>, key: string, out: Projected)
    ensures TotalOfFields(Assign(fields, key, out)) <= TotalOfFields(fields) + Total(out)
  {
    if fields == [] {
      TotalCons(Field(key, out), []);
      assert [Field(key, out)] + [] == [Field(key, out)];
    } else {
      TotalCons(fields[0], fields[1..]);
      assert fields == [fields[0]] + fields[1..];
      if fields[0].key == key {
        TotalCons(Field(key, out), fields[1..]);
      } else {
        AssignTotal(fields[1..], key, out);
        TotalCons(fields[0], Assign(fields[1..], key, out));
      }
    }
  }

  lemma {:induction false} ProjectSpends(v: Value, redact: string -> string, take: Taker, remaining: nat, depth: nat,
                                         limits: Limits, longest: nat)
    requires Longest(v, redact) <= longest && Frugal(take, longest)
    ensures var (out, left) := Project(v, redact, take, remaining, depth, limits);
      Spent(Total(out), remaining, left, longest)
    decreases v, 0
  {
    if v.Text? || v.Plain? || depth >= limits.depth {
    } else if v.Dict? {
      LongestEntryGrows(v.entries, Kept(|v.entries|, limits.items), |v.entries|, redact);
      EntriesSpend(v.entries, Kept(|v.entries|, limits.items), redact, take, remaining, depth + 1, limits, longest);
      CollapseTotal(ProjectEntries(v.entries, Kept(|v.entries|, limits.items), redact, take, remaining, depth + 1,
                                   limits).0);
    } else if v.ListOf? {
      LongestItemGrows(v.items, Kept(|v.items|, limits.items), |v.items|, redact);
      ItemsSpend(v.items, Kept(|v.items|, limits.items), redact, take, remaining, depth + 1, limits, longest);
    } else if v.SetOf? {
      LongestItemGrows(v.members, Kept(|v.members|, limits.items), |v.members|, redact);
      ItemsSpend(v.members, Kept(|v.members|, limits.items), redact, take, remaining, depth + 1, limits, longest);
    }
  }

  lemma LongestItemGrows(items: seq<Value>, count: nat, more: nat, redact: string -> string)
    requires count <= more <= |items|
    ensures LongestItem(items, count, redact) <= LongestItem(items, more, redact)
  {
    if count < more { LongestItemGrows(items, count, more - 1, redact); }
  }

  lemma LongestEntryGrows(entries: seq<Entry>, count: nat, more: nat, redact: string -> string)
    requires count <= more <= |entries|
    ensures LongestEntry(entries, count, redact) <= LongestEntry(entries, more, redact)
  {
    if count < more { LongestEntryGrows(entries, count, more - 1, redact); }
  }

  lemma SpentBoth(first: nat, second: nat, before: nat, mid: nat, after: nat, longest: nat)
    requires Spent(first, before, mid, longest) && Spent(second, mid, after, longest)
    ensures Spent(first + second, before, after, longest)
  {
  }

  lemma {:induction false} CollapseTotal(fields: seq<Field>)
    ensures TotalOfFields(Collapse(fields)) <= TotalOfFields(fields)
  {
    if fields != [] {
      var init, last := fields[..|fields| - 1], fields[|fields| - 1];
      assert fields == init + [last];
      CollapseTotal(init);
      CollapseSnoc(init, last);
      AssignTotal(Collapse(init), last.key, last.out);
      TotalSnoc(init, last);
    }
  }

  lemma TotalSnoc(fields: seq<Field>, f: Field)
    ensures TotalOfFields(fields + [f]) == TotalOfFields(fields) + Total(f.out)
  {
    assert (fields + [f])[..|fields|] == fields;
  }

  lemma NextItem(items: seq<Value>, count: nat, redact: string -> string, take: Taker, remaining: nat, depth: nat,
                 limits: Limits, outs: seq<Projected>, mid: nat, out: Projected, left: nat)
    requires 0 < count <= |items|
    requires ProjectItems(items, count - 1, redact, take, remaining, depth, limits) == (outs, mid)
    requires Project(items[count - 1], redact, take, mid, depth, limits) == (out, left)
    ensures ProjectItems(items, count, redact, take, remaining, depth, limits) == (outs + [out], left)
  {
  }

  lemma NextEntry(entries: seq<Entry>, count: nat, redact: string -> string, take: Taker, remaining: nat, depth: nat,
                  limits: Limits, fields: seq<Field>, mid: nat, out: Projected, left: nat)
    requires 0 < count <= |entries|
    requires ProjectEntries(entries, count - 1, redact, take, remaining, depth, limits) == (fields, mid)
    requires Project(entries[count - 1].fact, redact, take, mid, depth, limits) == (out, left)
    ensures ProjectEntries(entries, count, redact, take, remaining, depth, limits)
         == (fields + [Field(entries[count - 1].key, out)], left)
  {
  }

  lemma TotalOfItemsSnoc(outs: seq<Projected>, out: Projected)
    ensures TotalOfItems(outs + [out]) == TotalOfItems(outs) + Total(out)
  {
    assert (outs + [out])[..|outs|] == outs;
  }

  lemma {:induction false} ItemsSpend(items: seq<Value>, count: nat, redact: string -> string, take: Taker,
                                      remaining: nat, depth: nat, limits: Limits, longest: nat)
    requires count <= |items| && LongestItem(items, count, redact) <= longest && Frugal(take, longest)
    ensures var (outs, left) := ProjectItems(items, count, redact, take, remaining, depth, limits);
      Spent(TotalOfItems(outs), remaining, left, longest)
    decreases items, count
  {
    if count > 0 {
      ItemsSpend(items, count - 1, redact, take, remaining, depth, limits, longest);
      var (outs, mid) := ProjectItems(items, count - 1, redact, take, remaining, depth, limits);
      ProjectSpends(items[count - 1], redact, take, mid, depth, limits, longest);
      var (out, left) := Project(items[count - 1], redact, take, mid, depth, limits);
      NextItem(items, count, redact, take, remaining, depth, limits, outs, mid, out, left);
      SpentBoth(TotalOfItems(outs), Total(out), remaining, mid, left, longest);
      TotalOfItemsSnoc(outs, out);
    }
  }

  lemma {:induction false} EntriesSpend(entries: seq<Entry>, count: nat, redact: string -> string, take: Taker,
                                        remaining: nat, depth: nat, limits: Limits, longest: nat)
    requires count <= |entries| && LongestEntry(entries, count, redact) <= longest && Frugal(take, longest)
    ensures var (fields, left) := ProjectEntries(entries, count, redact, take, remaining, depth, limits);
      Spent(TotalOfFields(fields), remaining, left, longest)
    decreases entries, count
  {
    if count > 0 {
      EntriesSpend(entries, count - 1, redact, take, remaining, depth, limits, longest);
      var (fields, mid) := ProjectEntries(entries, count - 1, redact, take, remaining, depth, limits);
      ProjectSpends(entries[count - 1].fact, redact, take, mid, depth, limits, longest);
      var (out, left) := Project(entries[count - 1].fact, redact, take, mid, depth, limits);
      NextEntry(entries, count, redact, take, remaining, depth, limits, fields, mid, out, left);
      SpentBoth(TotalOfFields(fields), Total(out), remaining, mid, left, longest);
      TotalSnoc(fields, Field(entries[count - 1].key, out));
    }
  }

  /** The string leaves total at most the budget, one truncation frame and one character. */
  lemma BudgetBound(v: Value, redact: string -> string, maxCharacters: int, given: Limits)
    ensures Total(ProjectFacts(v, redact, maxCharacters, given))
         <= Larger(0, maxCharacters) + |Frame(Longest(v, redact))| + 1
  {
    TakingIsFrugal(AtLeastOne(given).chars, Longest(v, redact));
    ProjectSpends(v, redact, Taking(AtLeastOne(given).chars), Larger(0, maxCharacters), 0, AtLeastOne(given),
                  Longest(v, redact));
  }

  /**
   Containers no deeper than `depth` and no wider than `items`; a marker, itself a small
   dictionary, may sit below.
   */
  predicate Shaped(p: Projected, depth: int, items: int)
    decreases p
  {
    match p
    case OutDict(fields) =>
      && depth > 0
      && |fields| <= items
      && Apart(fields)
      && (forall f :: f in fields ==> Shaped(f.out, depth - 1, items))
    case OutList(outs) =>
      && depth > 0
      && |outs| <= items
      && (forall i :: 0 <= i < |outs| ==> Shaped(outs[i], depth - 1, items))
    case _ => depth >= 0
  }

  predicate HasKey(fields: seq<Field>, key: string) {
    exists i :: 0 <= i < |fields| && fields[i].key == key
  }

  /** No key twice. */
  predicate Apart(fields: seq<Field>) {
    fields == [] || (!HasKey(fields[1..], fields[0].key) && Apart(fields[1..]))
  }

  lemma {:induction false} AssignAbsent(fields: seq<Field>, key: string, out: Projected)
    requires !HasKey(fields, key)
    ensures Assign(fields, key, out) == fields + [Field(key, out)]
  {
    if fields != [] {
      assert fields[0].key != key;
      assert !HasKey(fields[1..], key);
      AssignAbsent(fields[1..], key, out);
      assert fields == [fields[0]] + fields[1..];
    }
  }

  lemma {:induction false} AssignKeys(fields: seq<Field>, key: string, out: Projected, other: string)
    requires key != other && !HasKey(fields, other)
    ensures !HasKey(Assign(fields, key, out), other)
  {
    if fields != [] && fields[0].key != key {
      assert fields[0].key != other;
      AssignKeys(fields[1..], key, out, other);
    }
  }

  lemma {:induction false} AssignApart(fields: seq<Field>, key: string, out: Projected)
    requires Apart(fields)
    ensures Apart(Assign(fields, key, out)) && |Assign(fields, key, out)| <= |fields| + 1
  {
    if fields == [] {
      assert [Field(key, out)][1..] == [];
    } else if fields[0].key == key {
      assert ([Field(key, out)] + fields[1..])[1..] == fields[1..];
    } else {
      AssignApart(fields[1..], key, out);
      AssignKeys(fields[1..], key, out, fields[0].key);
      assert Assign(fields, key, out)[1..] == Assign(fields[1..], key, out);
    }
  }

  predicate AllShaped(fields: seq<Field>, depth: int, items: int) {
    forall f :: f in fields ==> Shaped(f.out, depth, items)
  }

  lemma {:induction false} AssignShaped(fields: seq<Field>, key: string, out: Projected, depth: int, items: int)
    requires AllShaped(fields, depth, items) && Shaped(out, depth, items)
    ensures AllShaped(Assign(fields, key, out), depth, items)
  {
    if fields != [] && fields[0].key != key {
      AssignShaped(fields[1..], key, out, depth, items);
    }
  }

  predicate Fine(fields: seq<Field>, count: nat, depth: int, items: int) {
    |fields| <= count && Apart(fields) && AllShaped(fields, depth, items)
  }

  lemma AssignFine(fields: seq<Field>, count: nat, key: string, out: Projected, depth: int, items: int)
    requires Fine(fields, count, depth, items) && Shaped(out, depth, items)
    ensures Fine(Assign(fields, key, out), count + 1, depth, items)
  {
    AssignApart(fields, key, out);
    AssignShaped(fields, key, out, depth, items);
  }

  lemma {:induction false} CollapseFine(fields: seq<Field>, depth: int, items: int)
    requires AllShaped(fields, depth, items)
    ensures Fine(Collapse(fields), |fields|, depth, items)
  {
    if fields != [] {
      var init, last := fields[..|fields| - 1], fields[|fields| - 1];
      assert fields == init + [last];
      CollapseFine(init, depth, items);
      CollapseSnoc(init, last);
      AssignFine(Collapse(init), |init|, last.key, last.out, depth, items);
    }
  }

  lemma AppendField(fields: seq<Field>, f: Field, depth: int, items: int)
    requires AllShaped(fields, depth, items) && Shaped(f.out, depth, items)
    ensures AllShaped(fields + [f], depth, items)
  {
  }

  lemma {:induction false} ProjectShape(v: Value, redact: string -> string, take: Taker, remaining: nat, depth: nat,
                                        limits: Limits)
    requires limits.items >= 1 && depth <= limits.depth
    ensures Shaped(Project(v, redact, take, remaining, depth, limits).0, limits.depth - depth, limits.items)
    decreases v, 0
  {
    if v.Text? || v.Plain? || depth >= limits.depth {
    } else if v.Dict? {
      EntriesShape(v.entries, Kept(|v.entries|, limits.items), redact, take, remaining, depth + 1, limits);
      CollapseFine(ProjectEntries(v.entries, Kept(|v.entries|, limits.items), redact, take, remaining, depth + 1,
                                  limits).0,
                   limits.depth - depth - 1, limits.items);
    } else if v.ListOf? {
      ItemsShape(v.items, Kept(|v.items|, limits.items), redact, take, remaining, depth + 1, limits);
    } else if v.SetOf? {
      ItemsShape(v.members, Kept(|v.members|, limits.items), redact, take, remaining, depth + 1, limits);
    }
  }

  predicate AllItemsShaped(outs: seq<Projected>, depth: int, items: int) {
    forall i :: 0 <= i < |outs| ==> Shaped(outs[i], depth, items)
  }

  lemma AppendShaped(outs: seq<Projected>, out: Projected, depth: int, items: int)
    requires AllItemsShaped(outs, depth, items) && Shaped(out, depth, items)
    ensures AllItemsShaped(outs + [out], depth, items)
  {
  }

  lemma {:induction false} ItemsShape(items: seq<Value>, count: nat, redact: string -> string, take: Taker,
                                      remaining: nat, depth: nat, limits: Limits)
    requires count <= |items| && limits.items >= 1 && depth <= limits.depth
    ensures var outs := ProjectItems(items, count, redact, take, remaining, depth, limits).0;
      |outs| == count && AllItemsShaped(outs, limits.depth - depth, limits.items)
    decreases items, count
  {
    if count > 0 {
      ItemsShape(items, count - 1, redact, take, remaining, depth, limits);
      var (outs, mid) := ProjectItems(items, count - 1, redact, take, remaining, depth, limits);
      ProjectShape(items[count - 1], redact, take, mid, depth, limits);
      var (out, left) := Project(items[count - 1], redact, take, mid, depth, limits);
      AppendShaped(outs, out, limits.depth - depth, limits.items);
      NextItem(items, count, redact, take, remaining, depth, limits, outs, mid, out, left);
    }
  }

  lemma {:induction false} EntriesShape(entries: seq<Entry>, count: nat, redact: string -> string, take: Taker,
                                        remaining: nat, depth: nat, limits: Limits)
    requires count <= |entries| && limits.items >= 1 && depth <= limits.depth
    ensures var fields := ProjectEntries(entries, count, redact, take, remaining, depth, limits).0;
      |fields| == count && AllShaped(fields, limits.depth - depth, limits.items)
    decreases entries, count
  {
    if count > 0 {
      EntriesShape(entries, count - 1, redact, take, remaining, depth, limits);
      var (fields, mid) := ProjectEntries(entries, count - 1, redact, take, remaining, depth, limits);
      ProjectShape(entries[count - 1].fact, redact, take, mid, depth, limits);
      var (out, left) := Project(entries[count - 1].fact, redact, take, mid, depth, limits);
      AppendField(fields, Field(entries[count - 1].key, out), limits.depth - depth, limits.items);
      NextEntry(entries, count, redact, take, remaining, depth, limits, fields, mid, out, left);
    }
  }

  /** Every projected list or dict is within `max_items`, and containers nest at most `max_depth` deep. */
  lemma ShapeBound(v: Value, redact: string -> string, maxCharacters: int, given: Limits)
    ensures Shaped(ProjectFacts(v, redact, maxCharacters, given), AtLeastOne(given).depth, AtLeastOne(given).items)
  {
    ProjectShape(v, redact, Taking(AtLeastOne(given).chars), Larger(0, maxCharacters), 0, AtLeastOne(given));
  }

  /** The value copied leaf by leaf, with nothing cut. */
  function Mirror(v: Value, redact: string -> string): Projected
    decreases v, 0
  {
    match v
    case Text(text) => OutText(redact(text))
    case Plain(value) => OutPlain(value)
    case Dict(entries) => OutDict(MirrorEntries(entries, |entries|, redact))
    case ListOf(items) => OutList(MirrorItems(items, |items|, redact))
    case SetOf(members) => OutList(MirrorItems(members, |members|, redact))
    case Bytes(length) => BytesMarker(length)
    case Other(rendered) => OutText(rendered)
  }

  function MirrorItems(items: seq<Value>, count: nat, redact: string -> string): seq<Projected>
    requires count <= |items|
    decreases items, count
  {
    if count == 0 then [] else MirrorItems(items, count - 1, redact) + [Mirror(items[count - 1], redact)]
  }

  function MirrorEntries(entries: seq<Entry>, count: nat, redact: string -> string): seq<Field>
    requires count <= |entries|
    decreases entries, count
  {
    if count == 0 then []
    else
      var last := entries[count - 1];
      MirrorEntries(entries, count - 1, redact) + [Field(last.key, Mirror(last.fact, redact))]
  }

  /** Every limit but the budget is respected, and no two keys of a dict read the same as strings. */
  predicate Fits(v: Value, redact: string -> string, depth: nat, limits: Limits)
    decreases v, 0
  {
    match v
    case Text(text) => |redact(text)| <= limits.chars
    case Plain(_) => true
    case Dict(entries) =>
      && depth < limits.depth && |entries| <= limits.items && DistinctKeys(entries, |entries|)
      && FitEntries(entries, |entries|, redact, depth + 1, limits)
    case ListOf(items) =>
      depth < limits.depth && |items| <= limits.items && FitItems(items, |items|, redact, depth + 1, limits)
    case SetOf(members) =>
      depth < limits.depth && |members| <= limits.items && FitItems(members, |members|, redact, depth + 1, limits)
    case Bytes(_) => depth < limits.depth
    case Other(rendered) => depth < limits.depth && |rendered| <= limits.chars
  }

  predicate FitItems(items: seq<Value>, count: nat, redact: string -> string, depth: nat, limits: Limits)
    requires count <= |items|
    decreases items, count
  {
    count == 0 || (FitItems(items, count - 1, redact, depth, limits) && Fits(items[count - 1], redact, depth, limits))
  }

  predicate FitEntries(entries: seq<Entry>, count: nat, redact: string -> string, depth: nat, limits: Limits)
    requires count <= |entries|
    decreases entries, count
  {
    count == 0
    || (FitEntries(entries, count - 1, redact, depth, limits) && Fits(entries[count - 1].fact, redact, depth, limits))
  }

  /** The keys of the first entries. */
  function KeySet(entries: seq<Entry>, count: nat): set<string>
    requires count <= |entries|
  {
    if count == 0 then {} else KeySet(entries, count - 1) + {entries[count - 1].key}
  }

  predicate DistinctKeys(entries: seq<Entry>, count: nat)
    requires count <= |entries|
  {
    count == 0 || (DistinctKeys(entries, count - 1) && entries[count - 1].key !in KeySet(entries, count - 1))
  }

  /** A text within the limit and the budget is handed out whole. */
  ghost predicate Lossless(take: Taker, limit: int) {
    forall text, left: nat :: |text| <= limit ==> take(text, |text| + left) == (text, left)
  }

  lemma TakingIsLossless(limit: int)
    ensures Lossless(Taking(limit), limit)
  {
  }

  /** With a budget of exactly what the value needs and `left` more, nothing is cut and `left` is left. */
  lemma {:induction false} ProjectsExactly(v: Value, redact: string -> string, take: Taker, left: nat, depth: nat,
                                           limits: Limits) returns (out: Projected, remaining: nat)
    requires Fits(v, redact, depth, limits) && Lossless(take, limits.chars)
    ensures out == Mirror(v, redact) && remaining == Total(out) + left
    ensures Project(v, redact, take, remaining, depth, limits) == (out, left)
    decreases v, 0
  {
    out := Mirror(v, redact);
    if v.Dict? {
      remaining := EntriesExactly(v.entries, |v.entries|, redact, take, left, depth + 1, limits);
      DictExactly(v.entries, redact, take, left, depth, limits, remaining);
    } else if v.ListOf? {
      remaining := ItemsExactly(v.items, |v.items|, redact, take, left, depth + 1, limits);
      ListExactly(v.items, redact, take, left, depth, limits, remaining);
    } else if v.SetOf? {
      remaining := ItemsExactly(v.members, |v.members|, redact, take, left, depth + 1, limits);
      SetExactly(v.members, redact, take, left, depth, limits, remaining);
    } else {
      remaining := Total(out) + left;
      LeafExactly(v, redact, take, left, depth, limits);
    }
  }

  lemma DictExactly(entries: seq<Entry>, redact: string -> string, take: Taker, left: nat, depth: nat, limits: Limits,
                    remaining: nat)
    requires Fits(Dict(entries), redact, depth, limits)
    requires ProjectEntries(entries, |entries|, redact, take, remaining, depth + 1, limits)
          == (MirrorEntries(entries, |entries|, redact), left)
    ensures Project(Dict(entries), redact, take, remaining, depth, limits) == (Mirror(Dict(entries), redact), left)
  {
    DistinctKeysStay(entries, |entries|, redact);
  }

  lemma ListExactly(items: seq<Value>, redact: string -> string, take: Taker, left: nat, depth: nat, limits: Limits,
                    remaining: nat)
    requires Fits(ListOf(items), redact, depth, limits)
    requires ProjectItems(items, |items|, redact, take, remaining, depth + 1, limits)
          == (MirrorItems(items, |items|, redact), left)
    ensures Project(ListOf(items), redact, take, remaining, depth, limits) == (Mirror(ListOf(items), redact), left)
  {
  }

  lemma SetExactly(members: seq<Value>, redact: string -> string, take: Taker, left: nat, depth: nat, limits: Limits,
                   remaining: nat)
    requires Fits(SetOf(members), redact, depth, limits)
    requires ProjectItems(members, |members|, redact, take, remaining, depth + 1, limits)
          == (MirrorItems(members, |members|, redact), left)
    ensures Project(SetOf(members), redact, take, remaining, depth, limits) == (Mirror(SetOf(members), redact), left)
  {
  }

  lemma LeafExactly(v: Value, redact: string -> string, take: Taker, left: nat, depth: nat, limits: Limits)
    requires v.Text? || v.Plain? || v.Bytes? || v.Other?
    requires Fits(v, redact, depth, limits) && Lossless(take, limits.chars)
    ensures Project(v, redact, take, Total(Mirror(v, redact)) + left, depth, limits) == (Mirror(v, redact), left)
  {
    if v.Text? {
      assert take(redact(v.text), |redact(v.text)| + left) == (redact(v.text), left);
    } else if v.Other? {
      assert take(v.rendered, |v.rendered| + left) == (v.rendered, left);
    }
  }

  /** One more item, from what is known of the earlier ones and of itself. */
  lemma ItemExactly(items: seq<Value>, count: nat, redact: string -> string, take: Taker, depth: nat, limits: Limits,
                    outs: seq<Projected>, mid: nat, out: Projected, left: nat, remaining: nat)
    requires 0 < count <= |items|
    requires outs == MirrorItems(items, count - 1, redact) && out == Mirror(items[count - 1], redact)
    requires mid == Total(out) + left && remaining == TotalOfItems(outs) + mid
    requires ProjectItems(items, count - 1, redact, take, remaining, depth, limits) == (outs, mid)
    requires Project(items[count - 1], redact, take, mid, depth, limits) == (out, left)
    ensures remaining == TotalOfItems(MirrorItems(items, count, redact)) + left
    ensures ProjectItems(items, count, redact, take, remaining, depth, limits)
         == (MirrorItems(items, count, redact), left)
  {
    TotalOfItemsSnoc(outs, out);
  }

  lemma {:induction false} ItemsExactly(items: seq<Value>, count: nat, redact: string -> string, take: Taker, left: nat,
                                        depth: nat, limits: Limits) returns (remaining: nat)
    requires count <= |items| && FitItems(items, count, redact, depth, limits) && Lossless(take, limits.chars)
    ensures remaining == TotalOfItems(MirrorItems(items, count, redact)) + left
    ensures ProjectItems(items, count, redact, take, remaining, depth, limits)
         == (MirrorItems(items, count, redact), left)
    decreases items, count
  {
    if count == 0 {
      remaining := left;
    } else {
      var out, mid := ProjectsExactly(items[count - 1], redact, take, left, depth, limits);
      remaining := ItemsExactly(items, count - 1, redact, take, mid, depth, limits);
      ItemExactly(items, count, redact, take, depth, limits, MirrorItems(items, count - 1, redact), mid, out, left,
                  remaining);
    }
  }

  lemma {:induction false} MirrorKeys(entries: seq<Entry>, count: nat, redact: string -> string, key: string)
    requires count <= |entries| && key !in KeySet(entries, count)
    ensures !HasKey(MirrorEntries(entries, count, redact), key)
  {
    if count > 0 {
      MirrorKeys(entries, count - 1, redact, key);
    }
  }

  lemma NewKey(entries: seq<Entry>, count: nat, redact: string -> string, out: Projected)
    requires 0 < count <= |entries| && entries[count - 1].key !in KeySet(entries, count - 1)
    ensures var key := entries[count - 1].key;
      var fields := MirrorEntries(entries, count - 1, redact);
      Assign(fields, key, out) == fields + [Field(key, out)]
  {
    MirrorKeys(entries, count - 1, redact, entries[count - 1].key);
    AssignAbsent(MirrorEntries(entries, count - 1, redact), entries[count - 1].key, out);
  }

  /** Under distinct keys every assignment adds a field. */
  lemma {:induction false} DistinctKeysStay(entries: seq<Entry>, count: nat, redact: string -> string)
    requires count <= |entries| && DistinctKeys(entries, count)
    ensures Collapse(MirrorEntries(entries, count, redact)) == MirrorEntries(entries, count, redact)
  {
    if count > 0 {
      DistinctKeysStay(entries, count - 1, redact);
      var last := entries[count - 1];
      CollapseSnoc(MirrorEntries(entries, count - 1, redact), Field(last.key, Mirror(last.fact, redact)));
      NewKey(entries, count, redact, Mirror(last.fact, redact));
    }
  }

  /** One more entry, from what is known of the earlier ones and of its fact. */
  lemma EntryExactly(entries: seq<Entry>, count: nat, redact: string -> string, take: Taker, depth: nat, limits: Limits,
                     fields: seq<Field>, mid: nat, out: Projected, left: nat, remaining: nat)
    requires 0 < count <= |entries|
    requires fields == MirrorEntries(entries, count - 1, redact) && out == Mirror(entries[count - 1].fact, redact)
    requires mid == Total(out) + left && remaining == TotalOfFields(fields) + mid
    requires ProjectEntries(entries, count - 1, redact, take, remaining, depth, limits) == (fields, mid)
    requires Project(entries[count - 1].fact, redact, take, mid, depth, limits) == (out, left)
    ensures remaining == TotalOfFields(MirrorEntries(entries, count, redact)) + left
    ensures ProjectEntries(entries, count, redact, take, remaining, depth, limits)
         == (MirrorEntries(entries, count, redact), left)
  {
    TotalSnoc(fields, Field(entries[count - 1].key, out));
  }

  lemma {:induction false} EntriesExactly(entries: seq<Entry>, count: nat, redact: string -> string, take: Taker,
                                          left: nat,
                                          depth: nat, limits: Limits) returns (remaining: nat)
    requires count <= |entries| && FitEntries(entries, count, redact, depth, limits) && Lossless(take, limits.chars)
    ensures remaining == TotalOfFields(MirrorEntries(entries, count, redact)) + left
    ensures ProjectEntries(entries, count, redact, take, remaining, depth, limits)
         == (MirrorEntries(entries, count, redact), left)
    decreases entries, count
  {
    if count == 0 {
      remaining := left;
    } else {
      var out, mid := ProjectsExactly(entries[count - 1].fact, redact, take, left, depth, limits);
      remaining := EntriesExactly(entries, count - 1, redact, take, mid, depth, limits);
      EntryExactly(entries, count, redact, take, depth, limits, MirrorEntries(entries, count - 1, redact), mid, out,
                   left, remaining);
    }
  }

  /** A value within every limit is projected leaf by leaf, nothing cut. */
  lemma NothingLostWithinLimits(v: Value, redact: string -> string, maxCharacters: int, given: Limits)
    requires Fits(v, redact, 0, AtLeastOne(given)) && Total(Mirror(v, redact)) <= Larger(0, maxCharacters)
    ensures ProjectFacts(v, redact, maxCharacters, given) == Mirror(v, redact)
  {
    TakingIsLossless(AtLeastOne(given).chars);
    var left := Larger(0, maxCharacters) - Total(Mirror(v, redact));
    var out, remaining := ProjectsExactly(v, redact, Taking(AtLeastOne(given).chars), left, 0, AtLeastOne(given));
  }

  /** The bound is met: a budget of one character spent on a long text. */
  lemma BudgetBoundIsTight(text: string, given: Limits)
    requires |text| == 12
    ensures Total(ProjectFacts(Text(text), (t: string) => t, 1, given)) == 1 + |Frame(|text|)| + 1
  {
    TakeOne(text, AtLeastOne(given).chars);
  }

  lemma TakeOne(text: string, limit: int)
    requires |text| == 12 && limit >= 1
    ensures |Take(text, limit, 1).0| == 1 + |Frame(12)| + 1
  {
    assert Decimal(1) == "1";
    assert |Decimal(10)| == 2 && |Decimal(12)| == 2;
    assert |TruncateMiddle(text, 1)| == 1 + |Frame(10)| + 1;
  }
}
