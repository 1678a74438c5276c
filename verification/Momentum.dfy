/**
 Smoothed parameter steps (`dynamic_parameters.py`). Floats are reals and `round` is any
 function with a bounded error; the clock of the cache is an argument.
 */
module Momentum {
  import opened Values

  function Pow(b: real, n: nat): real {
    if n == 0 then 1.0 else b * Pow(b, n - 1)
  }

  /** The part of the stored metadata the steps read back. */
  datatype Meta = Meta(momentum: Option<real>, step: Option<nat>, previous: Option<real>)

  datatype Entry = Entry(value: real, meta: Meta)

  function MomentumOf(meta: Meta): real {
    match meta.momentum
    case Some(m) => m
    case None => 0.0
  }

  function StepOf(meta: Meta): nat {
    match meta.step
    case Some(n) => n
    case None => 0
  }

  function Blend(b: real, old_: real, gradient: real): real {
    b * old_ + (1.0 - b) * gradient
  }

  /** The bias-corrected momentum that moves the value. */
  function Effective(b: real, momentum: real, step: nat): real {
    var correction := 1.0 - Pow(b, step);
    if correction > 0.0 then momentum / correction else momentum
  }

  /** A value moved along the bias-corrected momentum. */
  function Moved(current: real, rate: real, b: real, meta: Meta, gradient: real): real {
    current + rate * Effective(b, Blend(b, MomentumOf(meta), gradient), StepOf(meta) + 1)
  }

  function Clamp(v: real, bounds: Option<(real, real)>): real {
    match bounds
    case None => v
    case Some((low, high)) => Max(low, Min(high, v))
  }

  /** The stored momentum and step of one parameter. */
  datatype State = State(momentum: real, step: nat)

  /** A gradient step and the momentum it stored, an EMA step, or a plain set. */
  datatype Event = Gradient(gradient: real, stored: real) | Ema | Reset

  function Step(s: State, e: Event): State {
    match e
    case Gradient(_, stored) => State(stored, s.step + 1)
    case Ema => s
    case Reset => State(0.0, 0)
  }

  function Run(es: seq<Event>): State {
    if es == [] then State(0.0, 0) else Step(Run(es[..|es| - 1]), es[|es| - 1])
  }

  function StateOf(meta: Meta): State {
    State(MomentumOf(meta), StepOf(meta))
  }

  const NO_META := Meta(None, None, None)

  // ---- What rollback goes by ----

  /** A parameter and the previous value its metadata records. */
  datatype Slot = Slot(value: real, previous: Option<real>)

  /** A plain set, a gradient or EMA step, or a rollback. */
  datatype Change = Assign(value: real) | Smooth(value: real) | Undo

  /** The previous value is recorded where the metadata written back lacks one. */
  function Changed(s: Slot, c: Change): Slot {
    match c
    case Assign(v) => Slot(v, Some(s.value))
    case Smooth(v) => Slot(v, if s.previous.Some? then s.previous else Some(s.value))
    case Undo => if s.previous.Some? then Slot(s.previous.value, Some(s.value)) else s
  }

  predicate Records(s: Slot, c: Change) {
    match c
    case Assign(_) => true
    case Smooth(_) => s.previous.None?
    case Undo => s.previous.Some?
  }

  function After(s: Slot, changes: seq<Change>): Slot {
    if changes == [] then s else Changed(After(s, changes[..|changes| - 1]), changes[|changes| - 1])
  }

  /** The last change that recorded a previous value. */
  function LastRecord(s: Slot, changes: seq<Change>): (k: Option<nat>)
    ensures k.Some? ==> k.value < |changes|
  {
    if changes == [] then None
    else
      var n := |changes| - 1;
      if Records(After(s, changes[..n]), changes[n]) then Some(n) else LastRecord(s, changes[..n])
  }

  /** Over any run of changes, a rollback returns the value from just before the last recording change. */
  lemma {:induction false} RollbackReturns(s: Slot, changes: seq<Change>)
    ensures After(s, changes).previous ==
            match LastRecord(s, changes)
            case None => s.previous
            case Some(k) => Some(After(s, changes[..k]).value)
  {
    if changes != [] {
      var n := |changes| - 1;
      if !Records(After(s, changes[..n]), changes[n]) {
        RollbackReturns(s, changes[..n]);
        var k := LastRecord(s, changes[..n]);
        assert k.Some? ==> changes[..n][..k.value] == changes[..k.value];
      }
    }
  }

  /**
   After one or more gradient or EMA steps a rollback returns the value before the first of
   them if and only if no other previous value was recorded when they began.
   */
  lemma {:induction false} FirstStepUndoneIff(s: Slot, steps: seq<Change>)
    requires steps != [] && forall k :: 0 <= k < |steps| ==> steps[k].Smooth?
    ensures After(s, steps).previous == Some(s.value) <==> s.previous.None? || s.previous == Some(s.value)
    ensures After(s, steps).previous.Some? && (s.previous.Some? ==> After(s, steps).previous == s.previous)
  {
    var n := |steps| - 1;
    if n > 0 {
      FirstStepUndoneIff(s, steps[..n]);
    } else {
      assert steps[..0] == [];
    }
  }

  /** A set followed by two steps: the rollback goes back past the set. */
  lemma StepsUndonePastSet(x: real, a: real, b: real, c: real)
    requires x != a
    ensures var changes := [Assign(a), Smooth(b), Smooth(c)];
            After(Slot(x, None), changes).previous == Some(x) && After(Slot(x, None), changes[..1]).value == a
  {
    var set_, first, both := [Assign(a)], [Assign(a), Smooth(b)], [Assign(a), Smooth(b), Smooth(c)];
    assert set_[..0] == [] && first[..1] == set_ && both[..2] == first && both[..1] == set_;
    assert After(Slot(x, None), set_) == Slot(a, Some(x));
    assert After(Slot(x, None), first) == Slot(b, Some(x));
  }

  class DynamicParameterRegistry {
    const defaults: map<string, real>
    const round4: real -> real
    const round6: real -> real
    var stored: map<string, Entry>
    var cache: map<string, real>
    var lastLoadedAt: real
    var seeded: bool

    constructor (defaults: map<string, real>, round4: real -> real, round6: real -> real, stored: map<string, Entry>)
      ensures this.defaults == defaults && this.round4 == round4 && this.round6 == round6
      ensures this.stored == stored && cache == map[] && !seeded && Coherent()
    {
      this.defaults, this.round4, this.round6 := defaults, round4, round6;
      this.stored := stored;
      cache, lastLoadedAt, seeded := map[], 0.0, false;
    }

    /** The stored table after seeding: absent defaults are added, nothing else changes. */
    function Seeded(): map<string, Entry>
      reads this
    {
      if seeded then stored
      else (map k | k in defaults :: Entry(defaults[k], NO_META)) + stored
    }

    /** Whether the cache may be used as it is: loaded less than five seconds ago and not empty. */
    predicate Fresh(now: real)
      reads this
    {
      seeded && now - lastLoadedAt < 5.0 && cache != map[]
    }

    /** The cache a read at `now` goes by. */
    function Loaded(now: real): map<string, real>
      reads this
    {
      if Fresh(now) then cache else map k | k in Seeded() :: Seeded()[k].value
    }

    /** The value a read at `now` returns. */
    function Reading(name: string, now: real): real
      reads this
    {
      if name in Loaded(now) then Loaded(now)[name] else Default(name)
    }

    function Default(name: string): real {
      if name in defaults then defaults[name] else 0.0
    }

    function MetaOf(name: string): Meta
      reads this
    {
      if name in Seeded() then Seeded()[name].meta else NO_META
    }

    /** The cache agrees with the table, as long as nobody else writes to it. */
    predicate Coherent()
      reads this
    {
      seeded ==> cache == map k | k in stored :: stored[k].value
    }

    /** The parameter as stored, or its default. */
    function SlotOf(name: string): Slot
      reads this
    {
      Slot(if name in Seeded() then Seeded()[name].value else Default(name), MetaOf(name).previous)
    }

    /** `_sync`: seed once, and reload the cache when it is empty or older than five seconds. */
    method Sync(now: real)
      modifies this`stored, this`cache, this`lastLoadedAt, this`seeded
      ensures seeded && stored == old(Seeded()) && cache == old(Loaded(now))
      ensures lastLoadedAt == if old(Fresh(now)) then old(lastLoadedAt) else now
      ensures Loaded(now) == cache && (old(Coherent()) ==> Coherent())
    {
      if seeded && now - lastLoadedAt < 5.0 && cache != map[] { return; }
      if !seeded {
        stored := (map k | k in defaults :: Entry(defaults[k], NO_META)) + stored;
        seeded := true;
      }
      cache := map k | k in stored :: stored[k].value;
      lastLoadedAt := now;
    }

    method GetValue(name: string, now: real) returns (v: real)
      modifies this`stored, this`cache, this`lastLoadedAt, this`seeded
      ensures seeded && stored == old(Seeded()) && cache == old(Loaded(now))
      ensures v == old(Reading(name, now)) && v == if name in cache then cache[name] else Default(name)
      ensures Reading(name, now) == v && (old(Coherent()) ==> Coherent() && v == old(SlotOf(name)).value)
    {
      Sync(now);
      v := if name in cache then cache[name] else Default(name);
    }

    /**
     `set`: the new metadata replaces the old, so a plain set forgets momentum and step. The
     previous value is read only when the caller does not pass one.
     */
    method SetValue(name: string, value: real, meta: Meta, now: real)
      modifies this`stored, this`cache, this`lastLoadedAt, this`seeded
      ensures meta.previous.None? ==>
                && seeded && cache == old(Loaded(now))[name := value]
                && stored == old(Seeded())[name := Entry(value, meta.(previous := Some(old(Reading(name, now)))))]
      ensures meta.previous.Some? ==>
                && seeded == old(seeded) && cache == old(cache)[name := value]
                && stored == old(stored)[name := Entry(value, meta)]
      ensures old(Coherent()) ==> Coherent()
      ensures old(Coherent()) && meta.previous.None? ==> SlotOf(name) == Changed(old(SlotOf(name)), Assign(value))
    {
      var m := meta;
      if meta.previous.None? {
        var v := GetValue(name, now);
        m := m.(previous := Some(v));
      }
      cache := cache[name := value];
      stored := stored[name := Entry(value, m)];
    }

    /** The metadata a step writes back: the first previous value is kept. */
    function WithPrevious(meta: Meta, current: real): Meta {
      if meta.previous.Some? then meta else meta.(previous := Some(current))
    }

    /** `apply_gradient` with momentum decay `b`. */
    method ApplyGradient(name: string, gradient: real, rate: real, b: real, bounds: Option<(real, real)>, now: real)
      returns (v: real)
      modifies this`stored, this`cache, this`lastLoadedAt, this`seeded
      ensures var meta, current := old(MetaOf(name)), old(Reading(name, now));
              && v == Clamp(round4(Moved(current, rate, b, meta, gradient)), bounds)
              && name in stored && stored == old(Seeded())[name := stored[name]] && stored[name].value == v
              && StateOf(stored[name].meta)
                 == Step(StateOf(meta), Gradient(gradient, round6(Blend(b, MomentumOf(meta), gradient))))
              && stored[name].meta.previous == WithPrevious(meta, current).previous
      ensures old(Coherent()) ==> Coherent() && SlotOf(name) == Changed(old(SlotOf(name)), Smooth(v))
      ensures bounds.Some? && bounds.value.0 <= bounds.value.1 ==> bounds.value.0 <= v <= bounds.value.1
    {
      var current := GetValue(name, now);
      var meta := if name in stored then stored[name].meta else NO_META;
      assert meta == old(MetaOf(name));
      var step := StepOf(meta) + 1;
      var momentum := b * MomentumOf(meta) + (1.0 - b) * gradient;
      var correction := 1.0 - Pow(b, step);
      var effective := momentum;
      if correction > 0.0 { effective := momentum / correction; }
      assert momentum == Blend(b, MomentumOf(meta), gradient);
      assert effective == Effective(b, momentum, step);
      var moved := current + rate * effective;
      assert moved == Moved(current, rate, b, meta, gradient);
      v := round4(moved);
      if bounds.Some? { v := Max(bounds.value.0, Min(bounds.value.1, v)); }
      assert v == Clamp(round4(Moved(current, rate, b, meta, gradient)), bounds);
      SetValue(name, v, meta.(momentum := Some(round6(momentum)), step := Some(step)), now);
    }

    /** `apply_ema` with weight `alpha` on the current value: momentum and step are kept. */
    method ApplyEma(name: string, candidate: real, alpha: real, bounds: Option<(real, real)>, now: real)
      returns (v: real)
      modifies this`stored, this`cache, this`lastLoadedAt, this`seeded
      ensures var meta, current := old(MetaOf(name)), old(Reading(name, now));
              && v == Clamp(round4(Blend(alpha, current, candidate)), bounds)
              && name in stored && stored == old(Seeded())[name := stored[name]] && stored[name].value == v
              && StateOf(stored[name].meta) == Step(StateOf(meta), Ema)
              && stored[name].meta.previous == WithPrevious(meta, current).previous
      ensures old(Coherent()) ==> Coherent() && SlotOf(name) == Changed(old(SlotOf(name)), Smooth(v))
    {
      var current := GetValue(name, now);
      v := round4(alpha * current + (1.0 - alpha) * candidate);
      assert v == round4(Blend(alpha, current, candidate));
      if bounds.Some? { v := Max(bounds.value.0, Min(bounds.value.1, v)); }
      var meta := if name in stored then stored[name].meta else NO_META;
      SetValue(name, v, meta, now);
    }

    /** `rollback`: the recorded previous value and the current one trade places; momentum and step are dropped. */
    method Rollback(name: string, now: real) returns (r: Option<real>)
      modifies this`stored, this`cache, this`lastLoadedAt, this`seeded
      ensures r == old(MetaOf(name)).previous
      ensures r.None? ==> stored == old(Seeded())
      ensures r.Some? ==>
                && stored == old(Seeded())[name := Entry(r.value, Meta(None, None, Some(old(Reading(name, now)))))]
                && cache == old(Loaded(now))[name := r.value]
                && StateOf(stored[name].meta) == Step(StateOf(old(MetaOf(name))), Reset)
      ensures old(Coherent()) ==> Coherent() && SlotOf(name) == Changed(old(SlotOf(name)), Undo)
    {
      Sync(now);
      if name !in stored || stored[name].meta.previous.None? { return None; }
      var previous := stored[name].meta.previous.value;
      var current := GetValue(name, now);
      SetValue(name, previous, NO_META.(previous := Some(current)), now);
      return Some(previous);
    }
  }

  /** A second rollback brings value and previous value back; momentum and step stay dropped. */
  method RollbackTwice(registry: DynamicParameterRegistry, name: string, first: real, second: real)
    returns (r: Option<real>)
    requires registry.Coherent()
    modifies registry
    ensures registry.Coherent() && registry.SlotOf(name) == old(registry.SlotOf(name))
    ensures r == if old(registry.SlotOf(name)).previous.Some? then Some(old(registry.SlotOf(name)).value) else None
    ensures r.Some? ==> StateOf(registry.MetaOf(name)) == State(0.0, 0)
  {
    r := registry.Rollback(name, first);
    r := registry.Rollback(name, second);
  }

  // ---- Bounded momentum ----

  /** Gradients in `[low, high]`, stored momentum off by at most `e`. */
  predicate Accurate(b: real, s: State, event: Event, low: real, high: real, e: real) {
    event.Gradient? ==>
      && low <= event.gradient <= high
      && -e <= event.stored - Blend(b, s.momentum, event.gradient) <= e
  }

  lemma Scale(a: real, x: real, y: real)
    requires a >= 0.0 && x <= y
    ensures a * x <= a * y
  {
  }

  lemma SumMonotone(x: real, y: real, x': real, y': real)
    requires x <= x' && y <= y'
    ensures x + y <= x' + y'
  {
  }

  lemma BlendMonotone(b: real, m: real, g: real, m': real, g': real)
    requires 0.0 <= b < 1.0 && m <= m' && g <= g'
    ensures Blend(b, m, g) <= Blend(b, m', g')
  {
    var a := 1.0 - b;
    Scale(b, m, m');
    Scale(a, g, g');
    SumMonotone(b * m, a * g, b * m', a * g');
  }

  lemma BlendScales(b: real, k: real, d: real)
    ensures Blend(b, k * d, k) == k * Blend(b, d, 1.0)
  {
  }

  lemma BlendShifts(b: real, x: real, h: real, c: real)
    ensures Blend(b, x, h + c) == Blend(b, x, h) + c * (1.0 - b)
  {
  }

  lemma BlendNegates(b: real, m: real, g: real)
    ensures Blend(b, -m, -g) == -Blend(b, m, g)
  {
  }

  /** The bias correction follows the same recurrence as the momentum, fed with ones. */
  function Correction(b: real, n: nat): real {
    if n == 0 then 0.0 else Blend(b, Correction(b, n - 1), 1.0)
  }

  lemma {:induction false} CorrectionIsPower(b: real, n: nat)
    ensures Correction(b, n) == 1.0 - Pow(b, n)
  {
    if n > 0 {
      CorrectionIsPower(b, n - 1);
      assert b * (1.0 - Pow(b, n - 1)) == b - b * Pow(b, n - 1);
    }
  }

  lemma {:induction false} CorrectionInRange(b: real, n: nat)
    requires 0.0 <= b < 1.0
    ensures 0.0 <= Correction(b, n) <= 1.0
    ensures n > 0 ==> Correction(b, n) > 0.0
  {
    if n > 0 {
      CorrectionInRange(b, n - 1);
      Scale(b, Correction(b, n - 1), 1.0);
      Scale(b, 0.0, Correction(b, n - 1));
    }
  }

  /** The blend before rounding, against `k = h + c` times the next correction `d'`. */
  lemma BlendBelow(b: real, h: real, c: real, d: real, d': real, m: real, g: real)
    requires 0.0 <= b < 1.0 && d' == Blend(b, d, 1.0)
    requires m <= (h + c) * d && g <= h
    ensures Blend(b, m, g) + c * (1.0 - b) <= (h + c) * d'
  {
    var k := h + c;
    var kd := k * d;
    BlendMonotone(b, m, g, kd, h);
    BlendShifts(b, kd, h, c);
    BlendScales(b, k, d);
  }

  lemma DivideBelow(x: real, y: real, d: real)
    requires d > 0.0 && x <= y * d
    ensures x / d <= y
  {
    assert (y * d) / d == y;
  }

  lemma Distribute(k: real, e: real, d: real)
    ensures (k - e) * d == k * d - e * d
  {
  }

  /** Dividing by a correction of at most one. */
  lemma CorrectedBelow(x: real, k: real, e: real, d: real)
    requires 0.0 < d <= 1.0 && e >= 0.0 && x + e <= k * d
    ensures x / d <= k - e
  {
    Scale(e, d, 1.0);
    Distribute(k, e, d);
    assert e * 1.0 == e;
    assert x <= k * d - e;
    DivideBelow(x, k - e, d);
  }

  predicate Below(b: real, m: real, n: nat, h: real, c: real) {
    m <= (h + c) * Correction(b, n)
  }

  ghost predicate Bounded(b: real, s: State, low: real, high: real, c: real) {
    Below(b, s.momentum, s.step, high, c) && Below(b, -s.momentum, s.step, -low, c)
  }

  ghost predicate AccurateRun(b: real, es: seq<Event>, low: real, high: real, e: real) {
    forall i :: 0 <= i < |es| ==> Accurate(b, Run(es[..i]), es[i], low, high, e)
  }

  lemma StoredBelow(b: real, h: real, c: real, n: nat, m: real, g: real, stored: real)
    requires 0.0 <= b < 1.0 && Below(b, m, n, h, c) && g <= h
    requires stored <= Blend(b, m, g) + c * (1.0 - b)
    ensures Below(b, stored, n + 1, h, c)
  {
    BlendBelow(b, h, c, Correction(b, n), Correction(b, n + 1), m, g);
  }

  lemma StepBelow(b: real, s: State, event: Event, low: real, high: real, e: real, c: real)
    requires 0.0 <= b < 1.0 && c * (1.0 - b) == e
    requires Accurate(b, s, event, low, high, e) && Bounded(b, s, low, high, c)
    ensures Bounded(b, Step(s, event), low, high, c)
  {
    match event
    case Gradient(g, stored) =>
      BlendNegates(b, s.momentum, g);
      StoredBelow(b, high, c, s.step, s.momentum, g, stored);
      StoredBelow(b, -low, c, s.step, -s.momentum, -g, -stored);
    case Ema =>
    case Reset =>
  }

  /** The stored momentum over every run, from above and, negated, from below. */
  lemma {:induction false} StoredBounded(b: real, es: seq<Event>, low: real, high: real, e: real, c: real)
    requires 0.0 <= b < 1.0 && c * (1.0 - b) == e
    requires AccurateRun(b, es, low, high, e)
    ensures Bounded(b, Run(es), low, high, c)
  {
    if es != [] {
      var rest, last := es[..|es| - 1], es[|es| - 1];
      assert AccurateRun(b, rest, low, high, e) by {
        forall i | 0 <= i < |rest|
          ensures Accurate(b, Run(rest[..i]), rest[i], low, high, e)
        {
          assert rest[..i] == es[..i];
        }
      }
      StoredBounded(b, rest, low, high, e, c);
      StepBelow(b, Run(rest), last, low, high, e, c);
    }
  }

  /**
   Momentum stays bounded despite rounding: after any run of gradient, EMA and plain set
   steps, the bias-corrected momentum of the next gradient step lies within
   `e * b / (1 - b)` of the range of the gradients.
   */
  lemma MomentumBounded(b: real, es: seq<Event>, gradient: real, low: real, high: real, e: real)
    requires 0.0 <= b < 1.0 && e >= 0.0 && low <= gradient <= high
    requires AccurateRun(b, es, low, high, e)
    ensures var s := Run(es);
            low - e * b / (1.0 - b) <= Effective(b, Blend(b, s.momentum, gradient), s.step + 1)
                <= high + e * b / (1.0 - b)
  {
    var c := e / (1.0 - b);
    StoredBounded(b, es, low, high, e, c);
    EffectiveBounded(b, Run(es), gradient, low, high, e, c);
    QuotientIdentity(b, e);
  }

  lemma QuotientIdentity(b: real, e: real)
    requires b < 1.0
    ensures e / (1.0 - b) - e == e * b / (1.0 - b)
  {
    var d := 1.0 - b;
    assert e * b == e - e * d;
    assert (e * d) / d == e;
  }

  lemma NegatedQuotient(x: real, d: real)
    requires d > 0.0
    ensures (-x) / d == -(x / d)
  {
  }

  lemma EffectiveBelow(b: real, h: real, c: real, e: real, n: nat, m: real, g: real)
    requires 0.0 <= b < 1.0 && e >= 0.0 && c * (1.0 - b) == e && Below(b, m, n, h, c) && g <= h
    ensures Correction(b, n + 1) > 0.0
    ensures Blend(b, m, g) / Correction(b, n + 1) <= h + (c - e)
  {
    CorrectionInRange(b, n + 1);
    BlendBelow(b, h, c, Correction(b, n), Correction(b, n + 1), m, g);
    CorrectedBelow(Blend(b, m, g), h + c, e, Correction(b, n + 1));
  }

  lemma EffectiveBounded(b: real, s: State, gradient: real, low: real, high: real, e: real, c: real)
    requires 0.0 <= b < 1.0 && e >= 0.0 && c * (1.0 - b) == e && low <= gradient <= high
    requires Bounded(b, s, low, high, c)
    ensures low - (c - e) <= Effective(b, Blend(b, s.momentum, gradient), s.step + 1) <= high + (c - e)
  {
    var m, d := Blend(b, s.momentum, gradient), Correction(b, s.step + 1);
    CorrectionIsPower(b, s.step + 1);
    EffectiveBelow(b, high, c, e, s.step, s.momentum, gradient);
    assert Effective(b, m, s.step + 1) == m / d;
    BlendNegates(b, s.momentum, gradient);
    EffectiveBelow(b, -low, c, e, s.step, -s.momentum, -gradient);
    NegatedQuotient(m, d);
  }
}
