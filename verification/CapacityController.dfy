/** The host's capacity controller: what the next target is, what one tick
    writes, and what runs of ticks come to. Units are reals; the source keeps
    two decimals, rounding half to even. */
module CapacityController {
  import opened Basics

  // ----- two decimals -----

  function RoundEven(x: real): int {
    var f := x.Floor;
    var d := x - f as real;
    if d < 0.5 then f else if d > 0.5 then f + 1 else if f % 2 == 0 then f else f + 1
  }

  /** round(x, 2). */
  function Round2(x: real): real {
    RoundEven(x * 100.0) as real / 100.0
  }

  predicate Hundredth(x: real) {
    (x * 100.0).Floor as real == x * 100.0
  }

  lemma RoundGrows(x: real, y: real)
    requires x <= y
    ensures RoundEven(x) <= RoundEven(y) && Round2(x) <= Round2(y)
  {
    assert x.Floor <= y.Floor;
    assert (x * 100.0).Floor <= (y * 100.0).Floor;
  }

  lemma RoundKeeps(x: real)
    requires Hundredth(x)
    ensures Round2(x) == x
  {
  }

  lemma RoundedIs(x: real)
    ensures Hundredth(Round2(x))
  {
    Cents(RoundEven(x * 100.0));
  }

  lemma Cents(n: int)
    ensures Hundredth(n as real / 100.0)
  {
    assert n as real / 100.0 * 100.0 == n as real;
  }

  // ----- the decision -----

  datatype Config = Config(
    min: real, max: Option<real>, low: real, high: real, step: real, floorMb: int, browserMb: real,
    raiseDwell: int, cutDwell: int, cut: real -> real, leadTtl: int, targetTtl: int, defaultTarget: real)
  {
    ghost predicate Valid() {
      && 0.0 < min && (max.Some? ==> min <= max.value) && low < high && 0.0 < step
      && 0.0 < browserMb && IsCut(cut) && 0 < leadTtl && 0 < targetTtl
    }
  }

  /** Keeping a fixed share: more of more, and more taken off more. */
  ghost predicate IsCut(cut: real -> real) {
    && cut(0.0) == 0.0
    && (forall x: real, y: real :: x < y ==> cut(x) < cut(y) && x - cut(x) < y - cut(y))
  }

  /** Multiplying by cut_factor is a cut. */
  lemma FactorCuts(factor: real, cut: real -> real)
    requires 0.0 < factor < 1.0 && forall x: real :: cut(x) == x * factor
    ensures IsCut(cut)
  {
    forall x: real, y: real | x < y ensures cut(x) < cut(y) && x - cut(x) < y - cut(y) { OneFactor(x, y, factor, cut); }
  }

  lemma OneFactor(x: real, y: real, factor: real, cut: real -> real)
    requires x < y && 0.0 < factor < 1.0 && cut(x) == x * factor && cut(y) == y * factor
    ensures cut(x) < cut(y) && x - cut(x) < y - cut(y)
  {
    FactorGrows(x, y, y - x, factor, 1.0 - factor);
  }

  lemma FactorGrows(x: real, y: real, d: real, factor: real, rest: real)
    requires 0.0 < d == y - x && 0.0 < factor && 0.0 < rest && factor + rest == 1.0
    ensures x * factor < y * factor && x - x * factor < y - y * factor
  {
    Shares(d, factor, rest, d * factor, d * rest);
    assert y * factor == x * factor + d * factor by { Distributes(x, d, y, factor); }
    Apart(x, y, x * factor, y * factor, d * factor, d * rest);
  }

  lemma Shares(d: real, factor: real, rest: real, p: real, q: real)
    requires 0.0 < d && 0.0 < factor && 0.0 < rest && factor + rest == 1.0 && p == d * factor && q == d * rest
    ensures 0.0 < p && 0.0 < q && p + q == d
  {
    assert d * factor + d * rest == d * (factor + rest);
  }

  lemma Distributes(x: real, d: real, y: real, factor: real)
    requires y == x + d
    ensures y * factor == x * factor + d * factor
  {
  }

  lemma Apart(x: real, y: real, px: real, py: real, p: real, q: real)
    requires py == px + p && 0.0 < p && 0.0 < q && p + q == y - x
    ensures px < py && x - px < y - py
  {
  }

  /** What one decision is taken on; `since` is None when no change is on record. */
  datatype Input = Input(cpu: Option<real>, mem: Option<int>, waiters: nat, inUse: real, since: Option<int>, maxUnits: real, browserMb: real)

  function MaxR(a: real, b: real): real { if a < b then b else a }
  function MinR(a: real, b: real): real { if b < a then b else a }

  /** memory_ceiling. */
  function Ceiling(cfg: Config, cpus: nat, memTotal: Option<int>, browserMb: real): real
    requires browserMb > 0.0
  {
    if cfg.max.Some? then cfg.max.value
    else if memTotal.None? then (2 * cpus) as real
    else MaxR(cfg.min, (memTotal.value as real / browserMb).Floor as real)
  }

  function Clamp(cfg: Config, current: real, maxUnits: real): real {
    MinR(MaxR(current, cfg.min), maxUnits)
  }

  predicate Passed(since: Option<int>, dwell: int) {
    since.Some? ==> since.value >= dwell
  }

  predicate Strained(cfg: Config, i: Input) {
    (i.cpu.Some? && i.cpu.value > cfg.high) || (i.mem.Some? && i.mem.value < cfg.floorMb)
  }

  function MidStep(cfg: Config, current: real): real {
    current + MaxR(1.0, current * cfg.step)
  }

  /** Whole browsers the memory above the floor still holds. */
  function Headroom(cfg: Config, mem: int, browserMb: real): int
    requires browserMb > 0.0
  {
    (Max(0, mem - cfg.floorMb) as real / browserMb).Floor
  }

  function Cut(cfg: Config, current: real): real {
    MaxR(cfg.min, Round2(cfg.cut(current)))
  }

  function Wanted(cfg: Config, current: real, i: Input): real
    requires i.browserMb > 0.0 && i.cpu.Some?
  {
    var demand := i.inUse + i.waiters as real;
    var paced := if i.cpu.value >= cfg.low then MinR(demand, MidStep(cfg, current)) else demand;
    if i.mem.Some? then MinR(paced, i.inUse + Headroom(cfg, i.mem.value, i.browserMb) as real) else paced
  }

  /** decide. */
  function Decide(cfg: Config, current: real, i: Input): real
    requires i.browserMb > 0.0
  {
    var current := Clamp(cfg, current, i.maxUnits);
    if Strained(cfg, i) then if Passed(i.since, cfg.cutDwell) then Cut(cfg, current) else current
    else if i.cpu.None? || i.waiters == 0 || !Passed(i.since, cfg.raiseDwell) then current
    else MaxR(current, MinR(i.maxUnits, Round2(Wanted(cfg, current, i))))
  }

  // ----- its range -----

  predicate InRange(cfg: Config, x: real, maxUnits: real) {
    cfg.min <= x <= maxUnits
  }

  /** What a caller can check of the bounds: they are in order, and cutting from
      the upper one does not round past it. */
  predicate Coherent(cfg: Config, maxUnits: real) {
    cfg.min <= maxUnits && Round2(cfg.cut(maxUnits)) <= maxUnits
  }

  lemma InRangeWhenCoherent(cfg: Config, current: real, i: Input)
    requires cfg.Valid() && i.browserMb > 0.0 && Coherent(cfg, i.maxUnits)
    ensures InRange(cfg, Decide(cfg, current, i), i.maxUnits)
  {
    var c := Clamp(cfg, current, i.maxUnits);
    RoundGrows(cfg.cut(c), cfg.cut(i.maxUnits));
  }

  /** Strain that calls for a cut, at bound `maxUnits`. */
  function CutNow(cfg: Config, maxUnits: real): Input {
    Input(Some(cfg.high + 1.0), None, 0, 0.0, None, maxUnits, 1.0)
  }

  /** Every decision lands between the bounds, whatever is read, if and only if
      the bounds are coherent. */
  lemma AlwaysInRange(cfg: Config, maxUnits: real)
    requires cfg.Valid() && maxUnits > 0.0
    ensures Coherent(cfg, maxUnits) <==>
      forall current: real, i: Input :: i.browserMb > 0.0 && i.maxUnits == maxUnits ==> InRange(cfg, Decide(cfg, current, i), maxUnits)
  {
    if Coherent(cfg, maxUnits) {
      forall current: real, i: Input | i.browserMb > 0.0 && i.maxUnits == maxUnits ensures InRange(cfg, Decide(cfg, current, i), maxUnits) {
        InRangeWhenCoherent(cfg, current, i);
      }
    } else {
      assert !InRange(cfg, Decide(cfg, maxUnits, CutNow(cfg, maxUnits)), maxUnits);
    }
  }

  /** The ceiling itself stays in order except in one case: no memory reading and
      a minimum above two units per CPU. */
  lemma CeilingInOrder(cfg: Config, cpus: nat, memTotal: Option<int>, browserMb: real)
    requires cfg.Valid() && browserMb > 0.0
    ensures cfg.min <= Ceiling(cfg, cpus, memTotal, browserMb) <==> cfg.max.Some? || memTotal.Some? || cfg.min <= (2 * cpus) as real
  {
  }

  // ----- what moves it -----

  /** The target rises only on an unstrained host with work waiting, after the
      dwell, and then never past the bound, the demand, the memory headroom, or,
      between the marks, one step. */
  lemma RaisesWithinBounds(cfg: Config, current: real, i: Input)
    requires i.browserMb > 0.0
    ensures var c, next := Clamp(cfg, current, i.maxUnits), Decide(cfg, current, i);
      next > c && !Strained(cfg, i) ==>
        && i.cpu.Some? && i.waiters > 0 && Passed(i.since, cfg.raiseDwell)
        && next <= i.maxUnits && next <= Round2(i.inUse + i.waiters as real)
        && (i.mem.Some? ==> next <= Round2(i.inUse + Headroom(cfg, i.mem.value, i.browserMb) as real))
        && (i.cpu.value >= cfg.low ==> next <= Round2(MidStep(cfg, c)))
  {
    var c := Clamp(cfg, current, i.maxUnits);
    if i.cpu.Some? {
      var w := Wanted(cfg, c, i);
      RoundGrows(w, MaxR(w, i.inUse + i.waiters as real));
      if i.mem.Some? { RoundGrows(w, MaxR(w, i.inUse + Headroom(cfg, i.mem.value, i.browserMb) as real)); }
      if i.cpu.value >= cfg.low { RoundGrows(w, MaxR(w, MidStep(cfg, c))); }
    }
  }

  /** Calm never lowers the target, strain before its dwell leaves it, and a cut
      does not raise it exactly when it is coherent: no less than the minimum, and
      not rounded up past itself. */
  lemma StrainOnlyCuts(cfg: Config, current: real, i: Input)
    requires i.browserMb > 0.0
    ensures var c, next := Clamp(cfg, current, i.maxUnits), Decide(cfg, current, i);
      && (!Strained(cfg, i) ==> c <= next)
      && (Strained(cfg, i) && !Passed(i.since, cfg.cutDwell) ==> next == c)
      && (Strained(cfg, i) && Passed(i.since, cfg.cutDwell) ==> (next <= c <==> Coherent(cfg, c)))
  {
  }

  /** More CPU pressure never raises the target, where a cut would not. */
  lemma FallsWithPressure(cfg: Config, current: real, i: Input, more: real)
    requires i.browserMb > 0.0 && i.cpu.Some? && i.cpu.value <= more && Coherent(cfg, Clamp(cfg, current, i.maxUnits))
    ensures Decide(cfg, current, i.(cpu := Some(more))) <= Decide(cfg, current, i)
  {
    var j := i.(cpu := Some(more));
    var c := Clamp(cfg, current, i.maxUnits);
    StrainOnlyCuts(cfg, current, i);
    StrainOnlyCuts(cfg, current, j);
    RoundGrows(Wanted(cfg, c, j), Wanted(cfg, c, i));
  }

  lemma DivGrows(a: real, b: real, d: real)
    requires 0.0 < d && a <= b
    ensures a / d <= b / d
  {
    var x, y := a / d, b / d;
    Quotient(a, d, x);
    Quotient(b, d, y);
    if y < x { Grows(y, x, d); }
  }

  lemma Quotient(a: real, d: real, x: real)
    requires 0.0 < d && x == a / d
    ensures x * d == a
  {
  }

  lemma Grows(x: real, y: real, d: real)
    requires x < y && 0.0 < d
    ensures x * d < y * d
  {
    assert (y - x) * d > 0.0;
  }

  lemma HeadroomGrows(cfg: Config, m: int, n: int, browserMb: real)
    requires browserMb > 0.0 && m <= n
    ensures Headroom(cfg, m, browserMb) <= Headroom(cfg, n, browserMb)
  {
    DivGrows(Max(0, m - cfg.floorMb) as real, Max(0, n - cfg.floorMb) as real, browserMb);
  }

  /** More free memory never lowers it, where a cut would not raise it. */
  lemma RisesWithMemory(cfg: Config, current: real, i: Input, more: int)
    requires i.browserMb > 0.0 && i.mem.Some? && i.mem.value <= more && Coherent(cfg, Clamp(cfg, current, i.maxUnits))
    ensures Decide(cfg, current, i) <= Decide(cfg, current, i.(mem := Some(more)))
  {
    var j := i.(mem := Some(more));
    var c := Clamp(cfg, current, i.maxUnits);
    StrainOnlyCuts(cfg, current, i);
    StrainOnlyCuts(cfg, current, j);
    HeadroomGrows(cfg, i.mem.value, more, i.browserMb);
    if i.cpu.Some? { RoundGrows(Wanted(cfg, c, i), Wanted(cfg, c, j)); }
  }

  /** Rounding is to the nearest hundredth, and from half way to the even one. */
  lemma RoundsToNearest(x: real)
    ensures Hundredth(Round2(x)) && x - 0.005 <= Round2(x) <= x + 0.005
    ensures forall n: int :: x * 100.0 == n as real + 0.5 ==> Round2(x) * 100.0 == (if n % 2 == 0 then n else n + 1) as real
  {
    RoundedIs(x);
    RoundNear(x);
    forall n: int | x * 100.0 == n as real + 0.5 ensures Round2(x) * 100.0 == (if n % 2 == 0 then n else n + 1) as real {
      assert (x * 100.0).Floor == n;
    }
  }

  /** What limits a raise: work in hand and waiting; whole browsers that the memory above
      the floor still holds; and, from the low mark up, one step. */
  ghost predicate Limits(cfg: Config, c: real, i: Input, limit: real) {
    || limit == i.inUse + i.waiters as real
    || (i.cpu.Some? && i.cpu.value >= cfg.low && limit == c + MaxR(1.0, c * cfg.step))
    || (i.mem.Some? && i.browserMb > 0.0 && limit == i.inUse + ((if i.mem.value > cfg.floorMb then i.mem.value - cfg.floorMb else 0) as real / i.browserMb).Floor as real)
  }

  /** The decision, said whole. A host over the high mark or under the memory floor is
      cut once its dwell is over, and not before. Otherwise, with a reading, work
      waiting and the dwell over, the target goes as far up as the bound and all three
      limits let it: it is the bound or one of them, or stays where the least of them is
      no higher. In every other case it stays. */
  lemma DecidesWhole(cfg: Config, current: real, i: Input)
    requires i.browserMb > 0.0
    ensures var c := if current < cfg.min then MinR(cfg.min, i.maxUnits) else MinR(current, i.maxUnits);
      var next := Decide(cfg, current, i);
      if (i.cpu.Some? && i.cpu.value > cfg.high) || (i.mem.Some? && i.mem.value < cfg.floorMb) then
        next == if i.since.Some? && i.since.value < cfg.cutDwell then c else MaxR(cfg.min, Round2(cfg.cut(c)))
      else if i.cpu.None? || i.waiters == 0 || (i.since.Some? && i.since.value < cfg.raiseDwell) then next == c
      else
        && c <= next
        && (c < next ==> next <= i.maxUnits && forall limit: real :: Limits(cfg, c, i, limit) ==> next <= Round2(limit))
        && (next == i.maxUnits || exists limit: real :: Limits(cfg, c, i, limit) && (next == Round2(limit) || (next == c && Round2(limit) <= c)))
  {
    var c := Clamp(cfg, current, i.maxUnits);
    if !Strained(cfg, i) && i.cpu.Some? {
      var w := Wanted(cfg, c, i);
      WantedLeast(cfg, c, i);
      forall limit: real | Limits(cfg, c, i, limit) ensures Round2(w) <= Round2(limit) { RoundGrows(w, limit); }
      assert Limits(cfg, c, i, w);
    }
  }

  /** What is wanted is the least of the limits. */
  lemma WantedLeast(cfg: Config, c: real, i: Input)
    requires i.browserMb > 0.0 && i.cpu.Some?
    ensures Limits(cfg, c, i, Wanted(cfg, c, i))
    ensures forall limit: real :: Limits(cfg, c, i, limit) ==> Wanted(cfg, c, i) <= limit
  {
  }

  // ----- for every input -----

  /** At bound `maxUnits` no target there can be is cut upwards. */
  ghost predicate CutsDown(cfg: Config, maxUnits: real) {
    forall current: real :: Coherent(cfg, Clamp(cfg, current, maxUnits))
  }

  ghost predicate NeverRisesWithPressure(cfg: Config, maxUnits: real) {
    forall current: real, i: Input, more: real {:trigger Decide(cfg, current, i.(cpu := Some(more)))} ::
      i.browserMb > 0.0 && i.maxUnits == maxUnits && i.cpu.Some? && i.cpu.value <= more ==>
        Decide(cfg, current, i.(cpu := Some(more))) <= Decide(cfg, current, i)
  }

  ghost predicate NeverFallsWithMemory(cfg: Config, maxUnits: real) {
    forall current: real, i: Input, more: int {:trigger Decide(cfg, current, i.(mem := Some(more)))} ::
      i.browserMb > 0.0 && i.maxUnits == maxUnits && i.mem.Some? && i.mem.value <= more ==>
        Decide(cfg, current, i) <= Decide(cfg, current, i.(mem := Some(more)))
  }

  /** Antitone in CPU pressure on every input, and monotone in free memory on every
      input, each if and only if no cut is rounded upwards. */
  lemma MonotoneExactly(cfg: Config, maxUnits: real)
    requires cfg.low < cfg.high
    ensures NeverRisesWithPressure(cfg, maxUnits) <==> CutsDown(cfg, maxUnits)
    ensures NeverFallsWithMemory(cfg, maxUnits) <==> CutsDown(cfg, maxUnits)
  {
    if CutsDown(cfg, maxUnits) {
      forall current: real, i: Input, more: real | i.browserMb > 0.0 && i.maxUnits == maxUnits && i.cpu.Some? && i.cpu.value <= more
        ensures Decide(cfg, current, i.(cpu := Some(more))) <= Decide(cfg, current, i)
      {
        FallsWithPressure(cfg, current, i, more);
      }
      forall current: real, i: Input, more: int | i.browserMb > 0.0 && i.maxUnits == maxUnits && i.mem.Some? && i.mem.value <= more
        ensures Decide(cfg, current, i) <= Decide(cfg, current, i.(mem := Some(more)))
      {
        RisesWithMemory(cfg, current, i, more);
      }
    } else {
      var current :| !Coherent(cfg, Clamp(cfg, current, maxUnits));
      CutUpwards(cfg, current, maxUnits);
    }
  }

  /** A calm, idle host at bound `maxUnits`. */
  function Calm(cfg: Config, maxUnits: real): Input {
    Input(Some(cfg.low), Some(cfg.floorMb), 0, 0.0, None, maxUnits, 1.0)
  }

  lemma CutUpwards(cfg: Config, current: real, maxUnits: real)
    requires cfg.low < cfg.high && !Coherent(cfg, Clamp(cfg, current, maxUnits))
    ensures !NeverRisesWithPressure(cfg, maxUnits) && !NeverFallsWithMemory(cfg, maxUnits)
  {
    var i := Calm(cfg, maxUnits);
    var j := i.(mem := Some(cfg.floorMb - 1));
    assert j.(mem := Some(cfg.floorMb)) == i;
    StrainOnlyCuts(cfg, current, i.(cpu := Some(cfg.high + 1.0)));
    StrainOnlyCuts(cfg, current, j);
    assert Decide(cfg, current, i) == Clamp(cfg, current, maxUnits);
    assert !(Decide(cfg, current, i.(cpu := Some(cfg.high + 1.0))) <= Decide(cfg, current, i));
    assert !(Decide(cfg, current, j) <= Decide(cfg, current, j.(mem := Some(cfg.floorMb))));
  }

  /** Targets and bounds in whole hundredths are never cut upwards. */
  lemma HundredthsCoherent(cfg: Config, x: real)
    requires cfg.Valid() && cfg.min <= x && Hundredth(x)
    ensures Coherent(cfg, x)
  {
    assert cfg.cut(0.0) == 0.0;
    RoundGrows(cfg.cut(x), x);
    RoundKeeps(x);
  }

  lemma HundredthTargets(cfg: Config, current: real, maxUnits: real)
    requires cfg.Valid() && Hundredth(cfg.min) && Hundredth(maxUnits) && Hundredth(current) && cfg.min <= maxUnits
    ensures Coherent(cfg, Clamp(cfg, current, maxUnits))
  {
    HundredthsCoherent(cfg, Clamp(cfg, current, maxUnits));
  }

  /** Nor, whatever the decimals, is any target once a cut at the minimum takes off
      half a hundredth, as it does at the defaults. */
  lemma DeepCutsDown(cfg: Config, maxUnits: real)
    requires cfg.Valid() && cfg.min <= maxUnits && cfg.cut(cfg.min) <= cfg.min - 0.005
    ensures CutsDown(cfg, maxUnits)
  {
    forall current: real ensures Coherent(cfg, Clamp(cfg, current, maxUnits)) {
      var c := Clamp(cfg, current, maxUnits);
      assert cfg.min < c ==> cfg.min - cfg.cut(cfg.min) < c - cfg.cut(c);
      RoundNear(cfg.cut(c));
    }
  }

  lemma RoundNear(y: real)
    ensures y - 0.005 <= Round2(y) <= y + 0.005
  {
  }

  // ----- cuts over a run -----

  /** The least hundredth above `x`. */
  function NextUp(x: real): real {
    ((x * 100.0).Floor + 1) as real / 100.0
  }

  lemma NextUpIs(x: real)
    ensures Hundredth(NextUp(x)) && x < NextUp(x) <= x + 0.01
    ensures forall h: real :: Hundredth(h) && h < NextUp(x) ==> h <= x
  {
    var n := (x * 100.0).Floor + 1;
    Cents(n);
    forall h: real | Hundredth(h) && h < NextUp(x) ensures h <= x { BelowCents(h, n); }
  }

  lemma BelowCents(h: real, n: int)
    requires Hundredth(h) && h < n as real / 100.0
    ensures h * 100.0 <= (n - 1) as real
  {
    assert (h * 100.0).Floor < n;
  }

  /** A cut from the first hundredth above the minimum falls below it: one check
      for all targets. */
  predicate CutBites(cfg: Config, maxUnits: real) {
    Cut(cfg, Clamp(cfg, NextUp(cfg.min), maxUnits)) < NextUp(cfg.min)
  }

  /** It does at the configuration's defaults: one unit at least, and a cut to
      seven tenths. */
  lemma DefaultCutBites(cfg: Config, maxUnits: real)
    requires cfg.min == 1.0 <= maxUnits && forall x: real :: cfg.cut(x) == x * 0.7
    ensures CutBites(cfg, maxUnits)
  {
    assert NextUp(1.0) == 1.01;
    var c := Clamp(cfg, 1.01, maxUnits);
    assert cfg.cut(c) <= 0.707;
    assert RoundEven(70.7) == 71;
    RoundGrows(cfg.cut(c), 0.707);
  }

  lemma RoundsBelow(n: int, y: real)
    ensures RoundEven(y) <= n - 1 ==> y <= n as real - 0.5
    ensures y < n as real - 0.5 ==> RoundEven(y) <= n - 1
  {
  }

  /** Two different hundredths are a hundredth apart. */
  lemma Gap(x: real, y: real)
    requires Hundredth(x) && Hundredth(y) && x < y
    ensures x <= y - 0.01
  {
    assert (x * 100.0).Floor < (y * 100.0).Floor;
  }

  /** A cut that takes a hundredth off `a` takes one off any hundredth above it. */
  lemma ShavesMore(a: real, cutA: real, x: real, cutX: real)
    requires Hundredth(a) && Hundredth(x) && a <= x && Round2(cutA) < a
    requires if a == x then cutA == cutX else a - cutA < x - cutX
    ensures Round2(cutX) <= x - 0.01
  {
    if a == x {
      RoundedIs(cutA);
      Gap(Round2(cutA), a);
    } else {
      BelowHalf(a, cutA);
      HalfBelow(x, cutX);
    }
  }

  /** Rounding lands below hundredth `a` only from half a hundredth below it; and
      from further below it always does. */
  lemma BelowHalf(a: real, y: real)
    requires Hundredth(a) && Round2(y) < a
    ensures y <= a - 0.005
  {
    RoundsBelow((a * 100.0).Floor, y * 100.0);
  }

  lemma HalfBelow(a: real, y: real)
    requires Hundredth(a) && y < a - 0.005
    ensures Round2(y) <= a - 0.01
  {
    RoundsBelow((a * 100.0).Floor, y * 100.0);
  }

  /** Below the first hundredth above the minimum a rounded cut is the minimum. */
  lemma CutToMin(cfg: Config, y: real)
    requires Round2(y) < NextUp(cfg.min)
    ensures MaxR(cfg.min, Round2(y)) == cfg.min
  {
    NextUpIs(cfg.min);
    RoundedIs(y);
  }

  lemma CutGrows(cfg: Config, x: real, y: real)
    requires cfg.Valid() && x <= y
    ensures Round2(cfg.cut(x)) <= Round2(cfg.cut(y)) && Cut(cfg, x) <= Cut(cfg, y)
  {
    RoundGrows(cfg.cut(x), cfg.cut(y));
  }

  /** One cut of a target within `bound`, a hundredth, lands a hundredth below that
      bound, or on the minimum. */
  lemma CutBelow(cfg: Config, c: real, maxUnits: real, bound: real)
    requires cfg.Valid() && cfg.min <= c <= maxUnits && CutBites(cfg, maxUnits)
    requires Hundredth(bound) && c <= MaxR(cfg.min, bound)
    ensures Cut(cfg, c) <= MaxR(cfg.min, bound - 0.01)
  {
    var first := NextUp(cfg.min);
    NextUpIs(cfg.min);
    if maxUnits < first || bound < first {
      CutGrows(cfg, c, Clamp(cfg, first, maxUnits));
      CutToMin(cfg, cfg.cut(c));
    } else {
      CutGrows(cfg, c, bound);
      ShavesMore(first, cfg.cut(first), bound, cfg.cut(bound));
    }
  }

  function Targets(cfg: Config, current: real, run: seq<Input>): real
    requires forall i <- run :: i.browserMb > 0.0
  {
    if run == [] then current else Decide(cfg, Targets(cfg, current, run[..|run| - 1]), run[|run| - 1])
  }

  /** Strained readings that come after the dwell. */
  function Cuts(cfg: Config, run: seq<Input>): nat {
    if run == [] then 0 else Cuts(cfg, run[..|run| - 1]) + if Passed(run[|run| - 1].since, cfg.cutDwell) then 1 else 0
  }

  predicate Straining(cfg: Config, i: Input) {
    i.browserMb > 0.0 && cfg.min <= i.maxUnits && CutBites(cfg, i.maxUnits) && Strained(cfg, i)
  }

  lemma OneCut(cfg: Config, x: real, i: Input, bound: real)
    requires cfg.Valid() && Straining(cfg, i) && Hundredth(bound) && x <= MaxR(cfg.min, bound)
    ensures var y := Decide(cfg, x, i);
      cfg.min <= y <= MaxR(cfg.min, if Passed(i.since, cfg.cutDwell) then bound - 0.01 else bound)
  {
    CutBelow(cfg, Clamp(cfg, x, i.maxUnits), i.maxUnits, bound);
  }

  lemma FromCents(x: real, n: int, k: nat)
    requires x * 100.0 == n as real
    ensures x - k as real / 100.0 == (n - k) as real / 100.0
  {
  }

  lemma ShiftHundredth(top: real, k: nat)
    requires Hundredth(top)
    ensures Hundredth(top - k as real / 100.0)
  {
    var n := (top * 100.0).Floor;
    FromCents(top, n, k);
    Cents(n - k);
  }

  /** While the host stays strained every tick past the dwell takes at least a
      hundredth off `top`, down to the minimum; `top` is any hundredth the target
      starts within, and bounds may change from tick to tick. */
  lemma {:induction false} StrainReachesMin(cfg: Config, current: real, top: real, run: seq<Input>)
    requires forall i <- run :: i.browserMb > 0.0
    requires forall i <- run :: Straining(cfg, i)
    requires cfg.Valid() && Hundredth(top) && current <= top
    ensures var t := Targets(cfg, current, run);
      t <= MaxR(cfg.min, top - Cuts(cfg, run) as real / 100.0) && (run != [] ==> cfg.min <= t)
    decreases |run|
  {
    if run != [] {
      var init, last := run[..|run| - 1], run[|run| - 1];
      StrainReachesMin(cfg, current, top, init);
      ShiftHundredth(top, Cuts(cfg, init));
      OneCut(cfg, Targets(cfg, current, init), last, top - Cuts(cfg, init) as real / 100.0);
    }
  }

  /** Strain brings the target down to the minimum from anywhere, given enough
      ticks past the dwell, if and only if the cut bites at the first hundredth
      above it: for any bounds in order and any targets, whole hundredths or not. */
  lemma StrainReachesMinIff(cfg: Config, maxUnits: real, n: nat)
    requires cfg.Valid() && cfg.min <= maxUnits && n as real / 100.0 >= maxUnits - cfg.min + 0.01
    ensures CutBites(cfg, maxUnits) <==> forall x: real :: Targets(cfg, x, Strain(cfg, maxUnits, n)) == cfg.min
  {
    if CutBites(cfg, maxUnits) {
      forall x: real ensures Targets(cfg, x, Strain(cfg, maxUnits, n)) == cfg.min { StrainWins(cfg, maxUnits, n, x); }
    } else {
      NextUpIs(cfg.min);
      StuckAbove(cfg, maxUnits, n);
    }
  }

  lemma StrainWins(cfg: Config, maxUnits: real, n: nat, x: real)
    requires cfg.Valid() && cfg.min <= maxUnits && CutBites(cfg, maxUnits) && n as real / 100.0 >= maxUnits - cfg.min + 0.01
    ensures Targets(cfg, x, Strain(cfg, maxUnits, n)) == cfg.min
  {
    StrainRun(cfg, maxUnits, n);
    NextUpIs(maxUnits);
    ClampFirst(cfg, maxUnits, n, x);
    StrainReachesMin(cfg, Clamp(cfg, x, maxUnits), NextUp(maxUnits), Strain(cfg, maxUnits, n));
  }

  /** `n` strained readings, each past the dwell. */
  function Strain(cfg: Config, maxUnits: real, n: nat): (r: seq<Input>)
    ensures |r| == n && forall i <- r :: i == CutNow(cfg, maxUnits)
  {
    seq(n, _ => CutNow(cfg, maxUnits))
  }

  lemma {:induction false} StrainRun(cfg: Config, maxUnits: real, n: nat)
    ensures Cuts(cfg, Strain(cfg, maxUnits, n)) == n
    decreases n
  {
    if n > 0 {
      assert Strain(cfg, maxUnits, n)[..n - 1] == Strain(cfg, maxUnits, n - 1);
      StrainRun(cfg, maxUnits, n - 1);
    }
  }

  /** The first decision of a run clamps what it starts from. */
  lemma {:induction false} ClampFirst(cfg: Config, maxUnits: real, n: nat, x: real)
    requires n > 0 && cfg.min <= maxUnits
    ensures Targets(cfg, Clamp(cfg, x, maxUnits), Strain(cfg, maxUnits, n)) == Targets(cfg, x, Strain(cfg, maxUnits, n))
    decreases n
  {
    assert Strain(cfg, maxUnits, n)[..n - 1] == Strain(cfg, maxUnits, n - 1);
    if n > 1 {
      ClampFirst(cfg, maxUnits, n - 1, x);
    } else {
      assert Clamp(cfg, Clamp(cfg, x, maxUnits), maxUnits) == Clamp(cfg, x, maxUnits);
    }
  }

  lemma {:induction false} StuckAbove(cfg: Config, maxUnits: real, n: nat)
    requires cfg.Valid() && cfg.min <= maxUnits && !CutBites(cfg, maxUnits)
    ensures Targets(cfg, NextUp(cfg.min), Strain(cfg, maxUnits, n)) >= NextUp(cfg.min)
    decreases n
  {
    if n > 0 {
      assert Strain(cfg, maxUnits, n)[..n - 1] == Strain(cfg, maxUnits, n - 1);
      StuckAbove(cfg, maxUnits, n - 1);
      var t := Targets(cfg, NextUp(cfg.min), Strain(cfg, maxUnits, n - 1));
      CutGrows(cfg, Clamp(cfg, NextUp(cfg.min), maxUnits), Clamp(cfg, t, maxUnits));
    }
  }

  // ----- raises over a run -----

  /** A reading that lets the target up to `goal`: unstrained, with work waiting, past
      the dwell, and room for `goal` under every limit but the step. */
  predicate Easing(cfg: Config, i: Input, goal: real) {
    && i.browserMb > 0.0 && !Strained(cfg, i) && i.cpu.Some? && i.waiters > 0 && Passed(i.since, cfg.raiseDwell)
    && Round2(goal) <= i.maxUnits && goal <= i.inUse + i.waiters as real
    && (i.mem.Some? ==> goal <= i.inUse + Headroom(cfg, i.mem.value, i.browserMb) as real)
  }

  lemma OneRaise(cfg: Config, x: real, i: Input, goal: real, low: real)
    requires Easing(cfg, i, goal) && MinR(Round2(goal), low) <= x
    ensures MinR(Round2(goal), low + 0.99) <= Decide(cfg, x, i)
  {
    var c := Clamp(cfg, x, i.maxUnits);
    var w := Wanted(cfg, c, i);
    if goal <= c + 1.0 {
      RoundGrows(goal, w);
    } else {
      RoundGrows(c + 1.0, w);
      RoundNear(c + 1.0);
    }
  }

  /** While the host stays unstrained with work waiting, every tick past the dwell brings
      the target up by 0.99 at least, until it is all that the limits allow. */
  lemma {:induction false} RaiseReaches(cfg: Config, current: real, goal: real, run: seq<Input>)
    requires forall i <- run :: i.browserMb > 0.0
    requires forall i <- run :: Easing(cfg, i, goal)
    ensures MinR(Round2(goal), current + 0.99 * |run| as real) <= Targets(cfg, current, run)
    decreases |run|
  {
    if run != [] {
      var init, last := run[..|run| - 1], run[|run| - 1];
      RaiseReaches(cfg, current, goal, init);
      OneRaise(cfg, Targets(cfg, current, init), last, goal, current + 0.99 * |init| as real);
    }
  }

  // ----- one tick -----

  datatype Stored<T> = Stored(value: T, deadline: int)

  /** What one tick reads: PSI, else the load average; memory; the host's line. */
  datatype Reading = Reading(now: int, psi: Option<real>, load: Option<real>, mem: Option<int>, waiters: nat, inUse: real, browserMb: real)

  datatype Keys = Keys(leader: Option<Stored<nat>>, target: Option<Stored<real>>, changed: Option<Stored<int>>)

  function Live<T>(k: Option<Stored<T>>, now: int): Option<T> {
    if k.Some? && now < k.value.deadline then Some(k.value.value) else None
  }

  /** load_pressure. */
  function LoadPressure(cpus: nat, load: real): real {
    MaxR(0.0, load / Max(1, cpus) as real - 1.0) * 100.0
  }

  /** Load reads as pressure above one runnable task a core: 1.4 a core is 40, and one
      or fewer is none. */
  lemma LoadReads(cpus: nat, load: real, x: real)
    requires cpus > 0 && load == (1.0 + x / 100.0) * cpus as real
    ensures LoadPressure(cpus, load) == if x > 0.0 then x else 0.0
  {
    var d, q := cpus as real, 1.0 + x / 100.0;
    Undone(q, d, load);
  }

  lemma Undone(q: real, d: real, p: real)
    requires 0.0 < d && p == q * d
    ensures p / d == q
  {
    Quotient(p, d, p / d);
    if p / d < q { Grows(p / d, q, d); } else if q < p / d { Grows(q, p / d, d); }
  }

  function InputOf(cfg: Config, k: Keys, r: Reading, cpus: nat, memTotal: Option<int>): Input
    requires r.browserMb > 0.0
  {
    var cpu := if r.psi.Some? then r.psi else if r.load.Some? then Some(LoadPressure(cpus, r.load.value)) else None;
    var changed := Live(k.changed, r.now);
    Input(cpu, r.mem, r.waiters, r.inUse, if changed.Some? then Some(r.now - changed.value) else None,
          Ceiling(cfg, cpus, memTotal, r.browserMb), r.browserMb)
  }

  predicate Leads(k: Keys, token: nat, now: int) {
    Live(k.leader, now) in {None, Some(token)}
  }

  /** The target in force, as the host's scripts read it. */
  function InForce(cfg: Config, k: Keys, now: int): real {
    OrElse(Live(k.target, now), cfg.defaultTarget)
  }

  function AfterTick(cfg: Config, k: Keys, token: nat, r: Reading, cpus: nat, memTotal: Option<int>): Keys
    requires r.browserMb > 0.0
  {
    if !Leads(k, token, r.now) then k else
    var was := InForce(cfg, k, r.now);
    var next := Decide(cfg, was, InputOf(cfg, k, r, cpus, memTotal));
    Keys(Some(Stored(token, r.now + cfg.leadTtl)), Some(Stored(next, r.now + cfg.targetTtl)),
         if next != was then Some(Stored(r.now, r.now + cfg.targetTtl * 30)) else k.changed)
  }

  class Controller {
    const cfg: Config
    const cpus: nat
    const memTotal: Option<int>
    var leader: Option<Stored<nat>>
    var target: Option<Stored<real>>
    var changed: Option<Stored<int>>

    constructor (cfg: Config, cpus: nat, memTotal: Option<int>)
      ensures this.cfg == cfg && this.cpus == cpus && this.memTotal == memTotal
      ensures Abs() == Keys(None, None, None)
    {
      this.cfg, this.cpus, this.memTotal := cfg, cpus, memTotal;
      leader, target, changed := None, None, None;
    }

    ghost function Abs(): Keys
      reads this
    {
      Keys(leader, target, changed)
    }

    /** LEAD_LUA: take the lead if it is free, extend it if it is ours. */
    method Lead(token: nat, now: int) returns (leads: bool)
      modifies this`leader
      ensures leads <==> Leads(old(Abs()), token, now)
      ensures leader == if leads then Some(Stored(token, now + cfg.leadTtl)) else old(leader)
    {
      var held := Live(leader, now);
      if held.Some? && held.value != token { return false; }
      leader := Some(Stored(token, now + cfg.leadTtl));
      return true;
    }

    /** One tick by the controller named `token`; a standby writes nothing. */
    method Tick(token: nat, r: Reading) returns (led: bool)
      requires r.browserMb > 0.0
      modifies this
      ensures Abs() == AfterTick(cfg, old(Abs()), token, r, cpus, memTotal)
      ensures led <==> Leads(old(Abs()), token, r.now)
    {
      led := Lead(token, r.now);
      if !led { return; }
      var was := OrElse(Live(target, r.now), cfg.defaultTarget);
      var next := Decide(cfg, was, InputOf(cfg, Keys(leader, target, changed), r, cpus, memTotal));
      if next != was {
        changed := Some(Stored(r.now, r.now + cfg.targetTtl * 30));
      }
      target := Some(Stored(next, r.now + cfg.targetTtl));
    }
  }

  // ----- runs of ticks -----

  datatype Beat = Beat(token: nat, reading: Reading)

  function Run(cfg: Config, cpus: nat, memTotal: Option<int>, beats: seq<Beat>): Keys
    requires forall b <- beats :: b.reading.browserMb > 0.0
  {
    if beats == [] then Keys(None, None, None)
    else
      var last := beats[|beats| - 1];
      AfterTick(cfg, Run(cfg, cpus, memTotal, beats[..|beats| - 1]), last.token, last.reading, cpus, memTotal)
  }

  ghost predicate Usables(beats: seq<Beat>) {
    forall b <- beats :: b.reading.browserMb > 0.0
  }

  /** Beat `i` of the run finds its controller leading. */
  ghost predicate LeadsAt(cfg: Config, cpus: nat, memTotal: Option<int>, beats: seq<Beat>, i: nat)
    requires i < |beats| && Usables(beats)
  {
    Leads(Run(cfg, cpus, memTotal, beats[..i]), beats[i].token, beats[i].reading.now)
  }

  lemma RunStep(cfg: Config, cpus: nat, memTotal: Option<int>, beats: seq<Beat>, i: nat)
    requires i < |beats| && Usables(beats)
    ensures Run(cfg, cpus, memTotal, beats[..i + 1]) ==
      AfterTick(cfg, Run(cfg, cpus, memTotal, beats[..i]), beats[i].token, beats[i].reading, cpus, memTotal)
  {
    assert beats[..i + 1][..i] == beats[..i];
  }

  /** Over any run of ticks, by any controllers, what a tick writes is within the
      bounds of that tick, and a standby changes nothing. */
  lemma TargetsInRange(cfg: Config, cpus: nat, memTotal: Option<int>, beats: seq<Beat>, i: nat)
    requires cfg.Valid() && i < |beats| && Usables(beats)
    ensures var max := Ceiling(cfg, cpus, memTotal, beats[i].reading.browserMb);
      var k, t := Run(cfg, cpus, memTotal, beats[..i]), Run(cfg, cpus, memTotal, beats[..i + 1]);
      if LeadsAt(cfg, cpus, memTotal, beats, i) then t.target.Some? && (Coherent(cfg, max) ==> InRange(cfg, t.target.value.value, max))
      else t == k
  {
    RunStep(cfg, cpus, memTotal, beats, i);
    var k, r := Run(cfg, cpus, memTotal, beats[..i]), beats[i].reading;
    if Coherent(cfg, Ceiling(cfg, cpus, memTotal, r.browserMb)) {
      InRangeWhenCoherent(cfg, InForce(cfg, k, r.now), InputOf(cfg, k, r, cpus, memTotal));
    }
  }

  /** What a tick writes, key by key. With the lead free, lapsed or its own, the
      controller takes it for one lead's time and writes the decision for one target's;
      the time of change moves only with the target. Otherwise nothing is written. */
  lemma TickWrites(cfg: Config, k: Keys, b: Beat, cpus: nat, memTotal: Option<int>)
    requires b.reading.browserMb > 0.0
    ensures var t, r, now := AfterTick(cfg, k, b.token, b.reading, cpus, memTotal), b.reading, b.reading.now;
      if k.leader.Some? && now < k.leader.value.deadline && k.leader.value.value != b.token then t == k
      else
        var was := if k.target.Some? && now < k.target.value.deadline then k.target.value.value else cfg.defaultTarget;
        var changed := k.changed.Some? && now < k.changed.value.deadline;
        var cpu := if r.psi.Some? then r.psi else if r.load.Some? then Some(LoadPressure(cpus, r.load.value)) else None;
        var next := Decide(cfg, was, Input(cpu, r.mem, r.waiters, r.inUse, if changed then Some(now - k.changed.value.value) else None,
                                           Ceiling(cfg, cpus, memTotal, r.browserMb), r.browserMb));
        && t.leader == Some(Stored(b.token, now + cfg.leadTtl)) && t.target == Some(Stored(next, now + cfg.targetTtl))
        && t.changed == if next == was then k.changed else Some(Stored(now, now + cfg.targetTtl * 30))
  {
  }

  /** A target within its bounds is not raised within the raise dwell of the change on
      record, nor cut within the cut dwell. */
  lemma DwellKept(cfg: Config, k: Keys, b: Beat, cpus: nat, memTotal: Option<int>)
    requires b.reading.browserMb > 0.0 && Leads(k, b.token, b.reading.now)
    requires k.changed.Some? && b.reading.now < k.changed.value.deadline
    requires InRange(cfg, InForce(cfg, k, b.reading.now), Ceiling(cfg, cpus, memTotal, b.reading.browserMb))
    ensures var was, next := InForce(cfg, k, b.reading.now), AfterTick(cfg, k, b.token, b.reading, cpus, memTotal).target.value.value;
      var since := b.reading.now - k.changed.value.value;
      (since < cfg.raiseDwell && since < cfg.cutDwell ==> next == was) && (since < cfg.cutDwell ==> was <= next)
  {
    var i := InputOf(cfg, k, b.reading, cpus, memTotal);
    StrainOnlyCuts(cfg, InForce(cfg, k, b.reading.now), i);
  }

  /** Memory bounds a host at as many whole browsers as it holds, or the minimum. */
  lemma CeilingHolds(cfg: Config, cpus: nat, memTotal: int, browserMb: real)
    requires browserMb > 0.0 && cfg.max.None?
    ensures var bound := Ceiling(cfg, cpus, Some(memTotal), browserMb);
      && cfg.min <= bound
      && (bound == cfg.min || (bound * browserMb <= memTotal as real && memTotal as real < bound * browserMb + browserMb))
  {
    var q := memTotal as real / browserMb;
    Quotient(memTotal as real, browserMb, q);
    WholeBelow(q, q.Floor as real, q.Floor as real + 1.0, browserMb, memTotal as real);
    assert Ceiling(cfg, cpus, Some(memTotal), browserMb) == MaxR(cfg.min, q.Floor as real);
  }

  lemma WholeBelow(q: real, n: real, m: real, d: real, total: real)
    requires 0.0 < d && n <= q < m && m == n + 1.0 && q * d == total
    ensures n * d <= total && total < n * d + d
  {
    var pn, pm := n * d, m * d;
    OneMore(n, m, d, pn, pm);
    InOrder(q, m, d, total, pm);
    if n < q { InOrder(n, q, d, pn, total); } else { Equal(n, q, d, pn, total); }
  }

  lemma InOrder(x: real, y: real, d: real, px: real, py: real)
    requires x < y && 0.0 < d && px == x * d && py == y * d
    ensures px < py
  {
    Grows(x, y, d);
  }

  lemma Equal(x: real, y: real, d: real, px: real, py: real)
    requires x == y && px == x * d && py == y * d
    ensures px == py
  {
  }

  lemma OneMore(n: real, m: real, d: real, pn: real, pm: real)
    requires m == n + 1.0 && pn == n * d && pm == m * d
    ensures pm == pn + d
  {
    assert m * d == (n + 1.0) * d;
    assert (n + 1.0) * d == n * d + 1.0 * d;
  }

  predicate Ordered(beats: seq<Beat>) {
    forall i, j :: 0 <= i <= j < |beats| ==> beats[i].reading.now <= beats[j].reading.now
  }

  /** Some beat after `i` and before `j` comes a whole lead TTL after beat `i`. */
  ghost predicate Quiet(cfg: Config, beats: seq<Beat>, i: nat, j: nat)
    requires i < j <= |beats|
  {
    exists m :: i < m < j && beats[m].reading.now >= beats[i].reading.now + cfg.leadTtl
  }

  lemma {:induction false} LeadHolds(cfg: Config, cpus: nat, memTotal: Option<int>, beats: seq<Beat>, i: nat, j: nat)
    requires cfg.Valid() && Usables(beats) && Ordered(beats) && i < j <= |beats| && LeadsAt(cfg, cpus, memTotal, beats, i)
    ensures Quiet(cfg, beats, i, j) || HeldBy(Run(cfg, cpus, memTotal, beats[..j]), beats[i].token, beats[i].reading.now + cfg.leadTtl)
    decreases j
  {
    RunStep(cfg, cpus, memTotal, beats, j - 1);
    var last := beats[j - 1];
    if i < j - 1 {
      LeadHolds(cfg, cpus, memTotal, beats, i, j - 1);
      if Quiet(cfg, beats, i, j - 1) {
        var m :| i < m < j - 1 && beats[m].reading.now >= beats[i].reading.now + cfg.leadTtl;
        assert m < j;
      } else {
        BeatHolds(cfg, Run(cfg, cpus, memTotal, beats[..j - 1]), beats[i].token, beats[i].reading.now + cfg.leadTtl, last, cpus, memTotal);
      }
    }
  }

  /** `token` has the lead at least until `end`. */
  predicate HeldBy(k: Keys, token: nat, end: int) {
    k.leader.Some? && k.leader.value.value == token && k.leader.value.deadline >= end
  }

  lemma BeatHolds(cfg: Config, k: Keys, token: nat, end: int, b: Beat, cpus: nat, memTotal: Option<int>)
    requires HeldBy(k, token, end) && b.reading.browserMb > 0.0 && end <= b.reading.now + cfg.leadTtl
    ensures b.reading.now >= end || HeldBy(AfterTick(cfg, k, b.token, b.reading, cpus, memTotal), token, end)
  {
  }

  /** One leader at a time, over any run: two controllers lead at two beats only
      if the whole lead TTL lies between them. */
  lemma LeadersApart(cfg: Config, cpus: nat, memTotal: Option<int>, beats: seq<Beat>, i: nat, j: nat)
    requires cfg.Valid() && Usables(beats) && Ordered(beats) && i < j < |beats|
    requires LeadsAt(cfg, cpus, memTotal, beats, i) && LeadsAt(cfg, cpus, memTotal, beats, j) && beats[i].token != beats[j].token
    ensures beats[j].reading.now >= beats[i].reading.now + cfg.leadTtl
  {
    LeadHolds(cfg, cpus, memTotal, beats, i, j);
    if Quiet(cfg, beats, i, j) {
      var m :| i < m < j && beats[m].reading.now >= beats[i].reading.now + cfg.leadTtl;
    }
  }
}
