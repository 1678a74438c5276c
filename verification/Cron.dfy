/**
 Cron search (`cron.py`). Times are minutes of the local calendar counted from Thursday,
 1 January 1970; the day of the month and the month are given by a calendar, and `toInt`
 is the conversion of a string to an integer, which may refuse.
 */
module Cron {
  import opened Values

  datatype Calendar = Calendar(day: int -> int, month: int -> int) {
    ghost predicate Valid() {
      forall t :: 1 <= day(t) <= 31 && 1 <= month(t) <= 12
    }
  }

  function Minute(t: int): int { t % 60 }

  function Hour(t: int): int { t / 60 % 24 }

  /** Sunday is 0. */
  function Weekday(t: int): int { (t / 1440 + 4) % 7 }

  const SEARCH_MINUTES := 366 * 24 * 60 - 1

  const WEEK := 7 * 24 * 60

  /** `field.split(",")` */
  function SplitCommas(s: string): (parts: seq<string>)
    ensures parts != []
  {
    if s == "" then [""]
    else
      var rest := SplitCommas(s[1..]);
      if s[0] == ',' then [""] + rest else [[s[0]] + rest[0]] + rest[1..]
  }

  function JoinCommas(parts: seq<string>): string {
    if parts == [] then ""
    else if |parts| == 1 then parts[0]
    else parts[0] + "," + JoinCommas(parts[1..])
  }

  /** `set(range(low, high + 1, step))` */
  function Range(low: int, high: int, step: int): set<int>
    requires step >= 1
    decreases high - low
  {
    if low > high then {} else {low} + Range(low + step, high, step)
  }

  function Numbers(parts: seq<string>, toInt: string -> Option<int>): Result<set<int>> {
    if parts == [] then Ok({})
    else
      match toInt(parts[0])
      case None => Raised(ValueError)
      case Some(n) =>
        match Numbers(parts[1..], toInt)
        case Raised(error) => Raised(error)
        case Ok(ns) => Ok({n} + ns)
  }

  function Checked(values: set<int>, low: int, high: int): Result<set<int>> {
    if exists v :: v in values && (v < low || v > high) then Raised(ValueError) else Ok(values)
  }

  predicate IsStep(field: string) {
    |field| >= 2 && field[..2] == "*/"
  }

  /** `_parse_field` */
  function ParseField(field: string, low: int, high: int, toInt: string -> Option<int>): Result<set<int>> {
    if field == "*" then Ok(Range(low, high, 1))
    else if IsStep(field) then
      match toInt(field[2..])
      case None => Raised(ValueError)
      case Some(step) =>
        if step <= 0 then Raised(ValueError) else Checked(Range(low, high, step), low, high)
    else
      match Numbers(SplitCommas(field), toInt)
      case Raised(error) => Raised(error)
      case Ok(values) => Checked(values, low, high)
  }

  /** `_matches` */
  function Matches(field: string, value: int, low: int, high: int, toInt: string -> Option<int>): Result<bool> {
    match ParseField(field, low, high, toInt)
    case Raised(error) => Raised(error)
    case Ok(values) => Ok(value in values)
  }

  /** Python's `and` over two conditions that may raise. */
  function And(first: Result<bool>, second: Result<bool>): Result<bool> {
    if first == Ok(true) then second else first
  }

  /** The condition of the search loop at one candidate. */
  function MatchesAt(fields: seq<string>, t: int, cal: Calendar, toInt: string -> Option<int>): Result<bool>
    requires |fields| == 5
  {
    And(Matches(fields[0], Minute(t), 0, 59, toInt),
    And(Matches(fields[1], Hour(t), 0, 23, toInt),
    And(Matches(fields[2], cal.day(t), 1, 31, toInt),
    And(Matches(fields[3], cal.month(t), 1, 12, toInt),
        Matches(fields[4], Weekday(t), 0, 6, toInt)))))
  }

  const BOUNDS := [(0, 59), (0, 23), (1, 31), (1, 12), (0, 6)]

  function Parsed(fields: seq<string>, i: nat, toInt: string -> Option<int>): Result<set<int>>
    requires |fields| == 5 && i < 5
  {
    ParseField(fields[i], BOUNDS[i].0, BOUNDS[i].1, toInt)
  }

  /** `validate_cron`, on the fields the expression splits into. */
  method ValidateCron(fields: seq<string>, toInt: string -> Option<int>) returns (result: Result<bool>)
    ensures result == Ok(true) || result == Raised(ValueError)
    ensures result.Ok? <==> |fields| == 5 && forall i :: 0 <= i < 5 ==> Parsed(fields, i, toInt).Ok?
  {
    if |fields| != 5 { return Raised(ValueError); }
    for i := 0 to 5
      invariant forall j :: 0 <= j < i ==> Parsed(fields, j, toInt).Ok?
    {
      var values := ParseField(fields[i], BOUNDS[i].0, BOUNDS[i].1, toInt);
      if values.Raised? {
        ParseRaises(fields[i], BOUNDS[i].0, BOUNDS[i].1, toInt);
        assert !Parsed(fields, i, toInt).Ok?;
        return Raised(values.error);
      }
    }
    return Ok(true);
  }

  /** What `next_cron_time` decides for a base minute: the first candidate that matches or raises, if any. */
  predicate Decides(fields: seq<string>, base: int, cal: Calendar, toInt: string -> Option<int>, result: Result<int>) {
    if |fields| != 5 then result == Raised(ValueError)
    else if result.Ok? then
      && base < result.value <= base + SEARCH_MINUTES
      && MatchesAt(fields, result.value, cal, toInt) == Ok(true)
      && forall t :: base < t < result.value ==> MatchesAt(fields, t, cal, toInt) == Ok(false)
    else
      && result == Raised(ValueError)
      && ((forall t :: base < t <= base + SEARCH_MINUTES ==> MatchesAt(fields, t, cal, toInt) == Ok(false))
          || exists t :: base < t <= base + SEARCH_MINUTES && RaisesFirstAt(fields, base, t, cal, toInt))
  }

  predicate RaisesFirstAt(fields: seq<string>, base: int, t: int, cal: Calendar, toInt: string -> Option<int>)
    requires |fields| == 5
  {
    && MatchesAt(fields, t, cal, toInt).Raised?
    && forall u :: base < u < t ==> MatchesAt(fields, u, cal, toInt) == Ok(false)
  }

  /** `next_cron_time`, from the minute of `now`. */
  method NextCronTime(fields: seq<string>, base: int, cal: Calendar, toInt: string -> Option<int>)
    returns (result: Result<int>)
    ensures Decides(fields, base, cal, toInt, result)
  {
    if |fields| != 5 { return Raised(ValueError); }
    for offset := 1 to SEARCH_MINUTES + 1
      invariant forall t :: base < t < base + offset ==> MatchesAt(fields, t, cal, toInt) == Ok(false)
    {
      var candidate := base + offset;
      var matched := MatchesAt(fields, candidate, cal, toInt);
      MatchRaises(fields, candidate, cal, toInt);
      if matched.Raised? {
        assert RaisesFirstAt(fields, base, candidate, cal, toInt);
        return Raised(matched.error);
      }
      if matched.value { return Ok(candidate); }
    }
    return Raised(ValueError);
  }

  // ----- parsing -----

  lemma {:induction false} NumbersRaise(parts: seq<string>, toInt: string -> Option<int>)
    ensures Numbers(parts, toInt).Raised? ==> Numbers(parts, toInt) == Raised(ValueError)
  {
    if parts != [] {
      NumbersRaise(parts[1..], toInt);
    }
  }

  /** The only exception of a field is a `ValueError`. */
  lemma ParseRaises(field: string, low: int, high: int, toInt: string -> Option<int>)
    ensures ParseField(field, low, high, toInt).Raised? ==> ParseField(field, low, high, toInt) == Raised(ValueError)
  {
    NumbersRaise(SplitCommas(field), toInt);
  }

  lemma MatchRaises(fields: seq<string>, t: int, cal: Calendar, toInt: string -> Option<int>)
    requires |fields| == 5
    ensures MatchesAt(fields, t, cal, toInt).Raised? ==> MatchesAt(fields, t, cal, toInt) == Raised(ValueError)
  {
    ParseRaises(fields[0], 0, 59, toInt);
    ParseRaises(fields[1], 0, 23, toInt);
    ParseRaises(fields[2], 1, 31, toInt);
    ParseRaises(fields[3], 1, 12, toInt);
    ParseRaises(fields[4], 0, 6, toInt);
  }

  lemma {:induction false} RangeMembers(low: int, high: int, step: int, v: int)
    requires step >= 1
    ensures v in Range(low, high, step) <==> low <= v <= high && (v - low) % step == 0
    decreases high - low
  {
    if low <= high {
      RangeMembers(low + step, high, step, v);
      if low < v < low + step {
        SmallRemainder(v - low, step);
      } else if v >= low + step {
        RemainderShift(v - low, step);
      }
    }
  }

  lemma SmallRemainder(x: int, step: int)
    requires 0 <= x < step
    ensures x % step == x
  {
  }

  lemma RemainderShift(x: int, step: int)
    requires step >= 1
    ensures x % step == (x - step) % step
  {
    DivMod(x, step, (x - step) / step + 1, (x - step) % step);
  }

  /** Quotient and remainder are unique. */
  lemma DivMod(x: int, n: int, q: int, r: int)
    requires n >= 1 && x == n * q + r && 0 <= r < n
    ensures x / n == q && x % n == r
  {
    var d := q - x / n;
    assert n * d == x % n - r;
    if d >= 1 {
      Grows(n, d);
    } else if d <= -1 {
      Grows(n, -d);
    }
  }

  lemma Grows(step: int, k: int)
    requires step >= 1 && k >= 1
    ensures step * k >= step
  {
  }

  lemma JoinTail(first: string, rest: seq<string>)
    requires rest != []
    ensures JoinCommas([first] + rest) == first + "," + JoinCommas(rest)
  {
    assert ([first] + rest)[1..] == rest;
  }

  lemma Regroup(a: string, b: string, c: string, d: string)
    ensures a + b + c + d == a + (b + c + d)
  {
  }

  lemma JoinFirst(c: char, parts: seq<string>)
    requires parts != []
    ensures JoinCommas([[c] + parts[0]] + parts[1..]) == [c] + JoinCommas(parts)
  {
    if |parts| > 1 {
      var first, rest := parts[0], parts[1..];
      assert parts == [first] + rest;
      JoinTail([c] + first, rest);
      JoinTail(first, rest);
      Regroup([c], first, ",", JoinCommas(rest));
    }
  }

  /** The parts of a list joined by commas give the field back. */
  lemma {:induction false} SplitJoins(s: string)
    ensures JoinCommas(SplitCommas(s)) == s
  {
    if s != "" {
      SplitJoins(s[1..]);
      var rest := SplitCommas(s[1..]);
      assert s == [s[0]] + s[1..];
      if s[0] == ',' {
        JoinTail("", rest);
      } else {
        JoinFirst(s[0], rest);
      }
    }
  }

  lemma {:induction false} PartsHaveNoComma(s: string)
    ensures forall part :: part in SplitCommas(s) ==> ',' !in part
  {
    if s != "" {
      PartsHaveNoComma(s[1..]);
    }
  }

  lemma {:induction false} NumbersMembers(parts: seq<string>, toInt: string -> Option<int>)
    ensures Numbers(parts, toInt).Ok? <==> forall part :: part in parts ==> toInt(part).Some?
    ensures Numbers(parts, toInt).Ok? ==>
      forall v :: v in Numbers(parts, toInt).value <==> exists part :: part in parts && toInt(part) == Some(v)
  {
    if parts != [] {
      NumbersMembers(parts[1..], toInt);
      assert forall part :: part in parts <==> part == parts[0] || part in parts[1..];
    }
  }

  /** A field that parses is nonempty and within its range. */
  lemma ParsedIsUsable(field: string, low: int, high: int, toInt: string -> Option<int>)
    requires low <= high && ParseField(field, low, high, toInt).Ok?
    ensures ParseField(field, low, high, toInt).value != {}
    ensures forall v :: v in ParseField(field, low, high, toInt).value ==> low <= v <= high
  {
    if field == "*" {
      forall v ensures v in Range(low, high, 1) <==> low <= v <= high { RangeMembers(low, high, 1, v); }
      assert low in Range(low, high, 1);
    } else if !IsStep(field) {
      var parts := SplitCommas(field);
      NumbersMembers(parts, toInt);
      assert parts[0] in parts;
      assert toInt(parts[0]).value in Numbers(parts, toInt).value;
    }
  }

  /** A step field means every `step`-th value of the range, and parses exactly when the step is a positive number. */
  lemma StepField(field: string, low: int, high: int, toInt: string -> Option<int>, v: int)
    requires low <= high && IsStep(field)
    ensures ParseField(field, low, high, toInt).Ok? <==>
      toInt(field[2..]).Some? && toInt(field[2..]).value > 0
    ensures ParseField(field, low, high, toInt).Ok? ==>
      (v in ParseField(field, low, high, toInt).value
       <==> low <= v <= high && (v - low) % toInt(field[2..]).value == 0)
  {
    if toInt(field[2..]).Some? && toInt(field[2..]).value > 0 {
      var step := toInt(field[2..]).value;
      forall x ensures x in Range(low, high, step) <==> low <= x <= high && (x - low) % step == 0 {
        RangeMembers(low, high, step, x);
      }
    }
  }

  /** A list field means its numbers, and parses exactly when each part is a number of the range. */
  lemma ListField(field: string, low: int, high: int, toInt: string -> Option<int>, v: int)
    requires field != "*" && !IsStep(field)
    ensures ParseField(field, low, high, toInt).Ok? <==>
      forall part :: part in SplitCommas(field) ==> toInt(part).Some? && low <= toInt(part).value <= high
    ensures ParseField(field, low, high, toInt).Ok? ==>
      (v in ParseField(field, low, high, toInt).value <==>
       exists part :: part in SplitCommas(field) && toInt(part) == Some(v))
  {
    NumbersMembers(SplitCommas(field), toInt);
  }

  // ----- the search -----

  ghost predicate Validated(fields: seq<string>, toInt: string -> Option<int>) {
    |fields| == 5 && forall i :: 0 <= i < 5 ==> Parsed(fields, i, toInt).Ok?
  }

  lemma FieldMatches(fields: seq<string>, i: nat, value: int, toInt: string -> Option<int>)
    requires |fields| == 5 && i < 5 && Parsed(fields, i, toInt).Ok?
    ensures Matches(fields[i], value, BOUNDS[i].0, BOUNDS[i].1, toInt) == Ok(value in Parsed(fields, i, toInt).value)
  {
  }

  /** A validated expression never fails to parse during the search, and matches where all five fields do. */
  lemma ValidatedNeverRaises(fields: seq<string>, t: int, cal: Calendar, toInt: string -> Option<int>)
    requires Validated(fields, toInt)
    ensures MatchesAt(fields, t, cal, toInt) == Ok(
      && Minute(t) in Parsed(fields, 0, toInt).value
      && Hour(t) in Parsed(fields, 1, toInt).value
      && cal.day(t) in Parsed(fields, 2, toInt).value
      && cal.month(t) in Parsed(fields, 3, toInt).value
      && Weekday(t) in Parsed(fields, 4, toInt).value)
  {
    FieldMatches(fields, 0, Minute(t), toInt);
    FieldMatches(fields, 1, Hour(t), toInt);
    FieldMatches(fields, 2, cal.day(t), toInt);
    FieldMatches(fields, 3, cal.month(t), toInt);
    FieldMatches(fields, 4, Weekday(t), toInt);
  }

  lemma MinuteShift(r: int, k: int)
    ensures (r + WEEK * k) % 60 == r % 60 && (r + WEEK * k) / 60 == r / 60 + 168 * k
  {
    DivMod(r + WEEK * k, 60, r / 60 + 168 * k, r % 60);
  }

  lemma HourShift(h: int, k: int)
    ensures (h + 168 * k) % 24 == h % 24
  {
    DivMod(h + 168 * k, 24, h / 24 + 7 * k, h % 24);
  }

  lemma DayShift(r: int, k: int)
    ensures (r + WEEK * k) / 1440 == r / 1440 + 7 * k
  {
    DivMod(r + WEEK * k, 1440, r / 1440 + 7 * k, r % 1440);
  }

  lemma WeekdayShift(d: int, k: int)
    ensures (d + 7 * k) % 7 == d % 7
  {
    DivMod(d + 7 * k, 7, d / 7 + k, d % 7);
  }

  /** The parts of a clock minute depend on its place in the week alone. */
  lemma WeekParts(t: int)
    ensures Minute(t) == Minute(t % WEEK) && Hour(t) == Hour(t % WEEK) && Weekday(t) == Weekday(t % WEEK)
  {
    var weeks, r := t / WEEK, t % WEEK;
    assert t == r + WEEK * weeks;
    MinuteShift(r, weeks);
    HourShift(r / 60, weeks);
    DayShift(r, weeks);
    WeekdayShift(r / 1440 + 4, weeks);
  }

  lemma Parts(t: int)
    ensures t == 1440 * (t / 1440) + 60 * Hour(t) + Minute(t)
  {
    assert t == 60 * (t / 60) + t % 60;
    assert t / 60 == 24 * (t / 1440) + t / 60 % 24;
  }

  /** Every hour and minute of every weekday comes once in any week of minutes. */
  lemma SlotComes(base: int, minute: int, hour: int, weekday: int) returns (t: int)
    requires 0 <= minute < 60 && 0 <= hour < 24 && 0 <= weekday < 7
    ensures base < t <= base + WEEK && Minute(t) == minute && Hour(t) == hour && Weekday(t) == weekday
  {
    var r := (weekday + 3) % 7 * 1440 + hour * 60 + minute;
    t := base + 1 + (r - base - 1) % WEEK;
    DivMod(t, WEEK, (t - r) / WEEK, r);
    WeekParts(t);
    var day := (weekday + 3) % 7;
    DivMod(r, 60, day * 24 + hour, minute);
    DivMod(r, 1440, day, hour * 60 + minute);
    DivMod(day * 24 + hour, 24, day, hour);
  }

  /** A validated search returns no later than any match in its window. */
  lemma FoundBy(fields: seq<string>, base: int, cal: Calendar, toInt: string -> Option<int>, result: Result<int>,
                t: int)
    requires Validated(fields, toInt) && Decides(fields, base, cal, toInt, result)
    requires base < t <= base + SEARCH_MINUTES && MatchesAt(fields, t, cal, toInt) == Ok(true)
    ensures result.Ok? && base < result.value <= t
  {
    if result.Raised? {
      var u :| base < u <= base + SEARCH_MINUTES && RaisesFirstAt(fields, base, u, cal, toInt);
      ValidatedNeverRaises(fields, u, cal, toInt);
      assert false;
    }
  }

  lemma ParsedRange(fields: seq<string>, i: nat, toInt: string -> Option<int>) returns (v: int)
    requires Validated(fields, toInt) && i < 5
    ensures v in Parsed(fields, i, toInt).value && BOUNDS[i].0 <= v <= BOUNDS[i].1
  {
    assert Parsed(fields, i, toInt).Ok?;
    ParsedIsUsable(fields[i], BOUNDS[i].0, BOUNDS[i].1, toInt);
    v :| v in Parsed(fields, i, toInt).value;
  }

  lemma StarParsed(fields: seq<string>, i: nat, v: int, toInt: string -> Option<int>)
    requires Validated(fields, toInt) && i < 5 && fields[i] == "*" && BOUNDS[i].0 <= v <= BOUNDS[i].1
    ensures v in Parsed(fields, i, toInt).value
  {
    RangeMembers(BOUNDS[i].0, BOUNDS[i].1, 1, v);
  }

  /** A clock minute of the coming week that matches. */
  lemma MatchInWeek(fields: seq<string>, base: int, cal: Calendar, toInt: string -> Option<int>) returns (t: int)
    requires Validated(fields, toInt) && cal.Valid() && fields[2] == "*" && fields[3] == "*"
    ensures base < t <= base + WEEK && MatchesAt(fields, t, cal, toInt) == Ok(true)
  {
    var minute := ParsedRange(fields, 0, toInt);
    var hour := ParsedRange(fields, 1, toInt);
    var weekday := ParsedRange(fields, 4, toInt);
    t := SlotComes(base, minute, hour, weekday);
    StarParsed(fields, 2, cal.day(t), toInt);
    StarParsed(fields, 3, cal.month(t), toInt);
    ValidatedNeverRaises(fields, t, cal, toInt);
  }

  /** With any day of any month allowed, a validated schedule is found within a week. */
  lemma WeeklyIsTotal(fields: seq<string>, base: int, cal: Calendar, toInt: string -> Option<int>, result: Result<int>)
    requires Validated(fields, toInt) && cal.Valid() && fields[2] == "*" && fields[3] == "*"
    requires Decides(fields, base, cal, toInt, result)
    ensures result.Ok? && base < result.value <= base + WEEK
  {
    var t := MatchInWeek(fields, base, cal, toInt);
    FoundBy(fields, base, cal, toInt, result, t);
  }

  /** No bound below a week would do: a single weekly slot, asked for at its own minute, comes a week later. */
  lemma WeekIsNeeded(fields: seq<string>, base: int, cal: Calendar, toInt: string -> Option<int>, result: Result<int>)
    requires Validated(fields, toInt) && cal.Valid() && fields[2] == "*" && fields[3] == "*"
    requires Parsed(fields, 0, toInt).value == {Minute(base)} && Parsed(fields, 1, toInt).value == {Hour(base)}
    requires Parsed(fields, 4, toInt).value == {Weekday(base)}
    requires Decides(fields, base, cal, toInt, result)
    ensures result == Ok(base + WEEK)
  {
    WeeklyIsTotal(fields, base, cal, toInt, result);
    FoundOnlyWeekly(fields, base, cal, toInt, result.value);
    SameSlot(base, result.value);
  }

  /** Where only the slot of `base` is allowed, a match falls into that slot. */
  lemma FoundOnlyWeekly(fields: seq<string>, base: int, cal: Calendar, toInt: string -> Option<int>, t: int)
    requires Validated(fields, toInt)
    requires Parsed(fields, 0, toInt).value == {Minute(base)} && Parsed(fields, 1, toInt).value == {Hour(base)}
    requires Parsed(fields, 4, toInt).value == {Weekday(base)}
    requires MatchesAt(fields, t, cal, toInt) == Ok(true)
    ensures Minute(t) == Minute(base) && Hour(t) == Hour(base) && Weekday(t) == Weekday(base)
  {
    ValidatedNeverRaises(fields, t, cal, toInt);
  }

  lemma SameSlot(a: int, b: int)
    requires Minute(a) == Minute(b) && Hour(a) == Hour(b) && Weekday(a) == Weekday(b)
    requires a < b <= a + WEEK
    ensures b == a + WEEK
  {
    Parts(a);
    Parts(b);
    SevenDays(a / 1440, b / 1440);
  }

  lemma SevenDays(d: int, e: int)
    requires (d + 4) % 7 == (e + 4) % 7 && 0 < 1440 * (e - d) <= WEEK
    ensures e == d + 7
  {
    assert d < e <= d + 7;
  }
}
