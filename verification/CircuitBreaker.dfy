/** The circuit breaker of one domain: counters that expire, a tumbling window
    of attempts, and a cooldown that doubles with every trip. The counters are
    proved to be the counts of an actual list of recent calls. */
module CircuitBreaker {
  import opened Basics

  datatype Circuit = Closed | Open | HalfOpen

  /** A stored number, with the instant it expires if it was set with one. */
  datatype Key = Key(value: nat, deadline: Option<int>)

  datatype State = State(circuit: Circuit, attempts: Option<Key>, failures: Option<Key>, trips: Option<Key>, until: Option<int>)

  /** `sample` is attempt_threshold, `share` failure_threshold, `ttl` the streak's
      lifetime, `base` and `most` the cooldown's bounds; times in seconds. */
  datatype Config = Config(share: real, sample: nat, base: nat, most: nat, ttl: nat) {
    predicate Valid() { sample > 0 && most > 0 && ttl > 0 }
  }

  const DECAY := 3

  function Init(): State {
    State(Closed, None, None, None, None)
  }

  /** GET: an expired or missing counter counts as zero. */
  function Value(k: Option<Key>, now: int): nat {
    if k.Some? && (k.value.deadline.Some? ==> now < k.value.deadline.value) then k.value.value else 0
  }

  function Pow2(n: nat): nat {
    if n == 0 then 1 else 2 * Pow2(n - 1)
  }

  /** How long the n-th trip lasts. */
  function Cooldown(cfg: Config, n: nat): nat
    requires n > 0
  {
    Min(cfg.base * Pow2(n - 1), cfg.most)
  }

  // ----- the calls -----

  function Allow(s: State, now: int): (State, bool) {
    match s.circuit
    case Closed => (s, true)
    case HalfOpen => (s, true)
    case Open =>
      if s.until.None? || now < s.until.value then (s, false) else (s.(circuit := HalfOpen), true)
  }

  function ResetWindow(s: State): State {
    s.(attempts := Some(Key(0, None)), failures := Some(Key(0, None)))
  }

  function Record(cfg: Config, s: State, failed: bool, now: int): State {
    s.(attempts := Some(Key(Value(s.attempts, now) + 1, Some(now + cfg.ttl))),
       failures := Some(Key(Value(s.failures, now) + if failed then 1 else 0, Some(now + cfg.ttl))))
  }

  function OpenCircuit(cfg: Config, s: State, now: int): State {
    var n := Value(s.trips, now) + 1;
    ResetWindow(s.(circuit := Open, trips := Some(Key(n, Some(now + DECAY * cfg.most))), until := Some(now + Cooldown(cfg, n))))
  }

  function Succeed(cfg: Config, s: State, now: int): State {
    if s.circuit.HalfOpen? then ResetWindow(s.(circuit := Closed)) else
    var s := Record(cfg, s, false, now);
    if s.attempts.value.value >= cfg.sample then ResetWindow(s) else s
  }

  function Fail(cfg: Config, s: State, now: int): State {
    if s.circuit.HalfOpen? then OpenCircuit(cfg, s, now) else
    var s := Record(cfg, s, true, now);
    if s.attempts.value.value < cfg.sample then s
    else if s.failures.value.value as real / s.attempts.value.value as real >= cfg.share then OpenCircuit(cfg, s, now)
    else ResetWindow(s)
  }

  class Breaker {
    var circuit: Circuit
    var attempts: Option<Key>
    var failures: Option<Key>
    var trips: Option<Key>
    var until: Option<int>

    constructor ()
      ensures Abs() == Init()
    {
      circuit, attempts, failures, trips, until := Closed, None, None, None, None;
    }

    ghost function Abs(): State
      reads this
    {
      State(circuit, attempts, failures, trips, until)
    }

    /** False exactly while the circuit is open and its cooldown runs; the first
        call after it lets this and every later request through. */
    method AllowRequest(now: int) returns (allowed: bool)
      modifies this`circuit
      ensures (Abs(), allowed) == Allow(old(Abs()), now)
      ensures !allowed <==> old(circuit) == Open && (until.None? || now < until.value)
      ensures circuit == if allowed && old(circuit) == Open then HalfOpen else old(circuit)
    {
      if circuit == Closed { return true; }
      if circuit == Open {
        if until.None? || now < until.value { return false; }
        circuit := HalfOpen;
      }
      return true;
    }

    method ClearWindow()
      modifies this`attempts, this`failures
      ensures Abs() == ResetWindow(old(Abs()))
    {
      attempts := Some(Key(0, None));
      failures := Some(Key(0, None));
    }

    method RecordAttempt(cfg: Config, failed: bool, now: int) returns (tried: nat, bad: nat)
      modifies this`attempts, this`failures
      ensures Abs() == Record(cfg, old(Abs()), failed, now)
      ensures attempts == Some(Key(tried, Some(now + cfg.ttl))) && failures == Some(Key(bad, Some(now + cfg.ttl)))
    {
      tried := Value(attempts, now) + 1;
      bad := Value(failures, now) + if failed then 1 else 0;
      attempts := Some(Key(tried, Some(now + cfg.ttl)));
      failures := Some(Key(bad, Some(now + cfg.ttl)));
    }

    method RecordSuccess(cfg: Config, now: int)
      modifies this
      ensures Abs() == Succeed(cfg, old(Abs()), now)
    {
      if circuit == HalfOpen {
        circuit := Closed;
        ClearWindow();
        return;
      }
      var tried, _ := RecordAttempt(cfg, false, now);
      if tried >= cfg.sample { ClearWindow(); }
    }

    method RecordFailure(cfg: Config, now: int)
      modifies this
      ensures Abs() == Fail(cfg, old(Abs()), now)
    {
      if circuit == HalfOpen {
        Trip(cfg, now);
        return;
      }
      var tried, bad := RecordAttempt(cfg, true, now);
      if tried >= cfg.sample {
        if bad as real / tried as real >= cfg.share { Trip(cfg, now); } else { ClearWindow(); }
      }
    }

    method Trip(cfg: Config, now: int)
      modifies this
      ensures Abs() == OpenCircuit(cfg, old(Abs()), now)
    {
      var n := Value(trips, now) + 1;
      trips := Some(Key(n, Some(now + DECAY * cfg.most)));
      circuit := Open;
      until := Some(now + Cooldown(cfg, n));
      ClearWindow();
    }
  }

  // ----- the list behind the counters -----

  datatype Call = Call(at: int, failed: bool)

  function Failures(calls: seq<Call>): nat {
    if calls == [] then 0 else Failures(calls[..|calls| - 1]) + if calls[|calls| - 1].failed then 1 else 0
  }

  lemma {:induction false} FailuresBound(calls: seq<Call>)
    ensures Failures(calls) <= |calls|
  {
    if calls != [] { FailuresBound(calls[..|calls| - 1]); }
  }

  /** The calls a new one at `now` joins: none once the last is `ttl` old. */
  function Streak(cfg: Config, window: seq<Call>, now: int): seq<Call> {
    if window != [] && now >= window[|window| - 1].at + cfg.ttl then [] else window
  }

  /** What the window is after call `c`, told without any counter: half-open
      calls and full windows start it over. */
  function NextWindow(cfg: Config, circuit: Circuit, window: seq<Call>, c: Call): seq<Call> {
    var all := Streak(cfg, window, c.at) + [c];
    if circuit.HalfOpen? || |all| >= cfg.sample then [] else all
  }

  /** A failure opens the circuit when it is half-open, or when it completes a
      window whose share of failures reaches the threshold. */
  predicate Trips(cfg: Config, circuit: Circuit, window: seq<Call>, c: Call) {
    var all := Streak(cfg, window, c.at) + [c];
    c.failed && (circuit.HalfOpen? || (|all| >= cfg.sample && Failures(all) as real / |all| as real >= cfg.share))
  }

  function Verdict(cfg: Config, circuit: Circuit, window: seq<Call>, c: Call): Circuit {
    if Trips(cfg, circuit, window, c) then Open else if circuit.HalfOpen? then Closed else circuit
  }

  /** The counters say what the window holds, and expire when it goes stale. */
  ghost predicate Counts(cfg: Config, s: State, window: seq<Call>) {
    if window == [] then (forall now: int :: Value(s.attempts, now) == 0 && Value(s.failures, now) == 0)
    else
      var deadline := window[|window| - 1].at + cfg.ttl;
      s.attempts == Some(Key(|window|, Some(deadline))) && s.failures == Some(Key(Failures(window), Some(deadline)))
  }

  datatype Event = Asked(at: int) | Succeeded(at: int) | Failed(at: int)

  function Step(cfg: Config, s: State, e: Event): State {
    match e
    case Asked(at) => Allow(s, at).0
    case Succeeded(at) => Succeed(cfg, s, at)
    case Failed(at) => Fail(cfg, s, at)
  }

  function Said(e: Event): seq<Call> {
    match e
    case Asked(_) => []
    case Succeeded(at) => [Call(at, false)]
    case Failed(at) => [Call(at, true)]
  }

  function WindowAfter(cfg: Config, s: State, window: seq<Call>, e: Event): seq<Call> {
    if e.Asked? then window else NextWindow(cfg, s.circuit, window, Said(e)[0])
  }

  lemma AddFailure(calls: seq<Call>, c: Call)
    ensures Failures(calls + [c]) == Failures(calls) + if c.failed then 1 else 0
  {
    assert (calls + [c])[..|calls|] == calls;
  }

  lemma RecordCounts(cfg: Config, s: State, window: seq<Call>, c: Call)
    requires cfg.Valid() && Counts(cfg, s, window)
    ensures Counts(cfg, Record(cfg, s, c.failed, c.at), Streak(cfg, window, c.at) + [c])
  {
    AddFailure(Streak(cfg, window, c.at), c);
    assert Value(s.attempts, c.at) == |Streak(cfg, window, c.at)|;
    assert Value(s.failures, c.at) == Failures(Streak(cfg, window, c.at));
  }

  /** The counters refine the list, and the circuit opens exactly when the list
      says so. */
  lemma StepCounts(cfg: Config, s: State, window: seq<Call>, e: Event)
    requires cfg.Valid() && Counts(cfg, s, window)
    ensures Counts(cfg, Step(cfg, s, e), WindowAfter(cfg, s, window, e))
    ensures !e.Asked? ==> Step(cfg, s, e).circuit == Verdict(cfg, s.circuit, window, Said(e)[0])
  {
    if !e.Asked? { RecordCounts(cfg, s, window, Said(e)[0]); }
  }

  // ----- whole histories -----

  function Calls(es: seq<Event>): seq<Call> {
    if es == [] then [] else Calls(es[..|es| - 1]) + Said(es[|es| - 1])
  }

  function Run(cfg: Config, es: seq<Event>): State {
    if es == [] then Init() else Step(cfg, Run(cfg, es[..|es| - 1]), es[|es| - 1])
  }

  ghost function Window(cfg: Config, es: seq<Event>): seq<Call> {
    if es == [] then [] else WindowAfter(cfg, Run(cfg, es[..|es| - 1]), Window(cfg, es[..|es| - 1]), es[|es| - 1])
  }

  /** No two neighbours `ttl` or more apart. */
  predicate Close(cfg: Config, calls: seq<Call>) {
    forall i :: 0 < i < |calls| ==> calls[i].at < calls[i - 1].at + cfg.ttl
  }

  ghost predicate EndsWith(all: seq<Call>, tail: seq<Call>) {
    |tail| <= |all| && all[|all| - |tail|..] == tail
  }

  lemma StreakFits(cfg: Config, all: seq<Call>, window: seq<Call>, c: Call)
    requires EndsWith(all, window) && Close(cfg, window)
    ensures var streak := Streak(cfg, window, c.at) + [c];
      EndsWith(all + [c], streak) && Close(cfg, streak)
  {
  }

  lemma NextFits(cfg: Config, circuit: Circuit, all: seq<Call>, window: seq<Call>, c: Call)
    requires cfg.Valid() && EndsWith(all, window) && Close(cfg, window)
    ensures var next := NextWindow(cfg, circuit, window, c);
      EndsWith(all + [c], next) && Close(cfg, next) && |next| < cfg.sample
  {
    StreakFits(cfg, all, window, c);
  }

  lemma CallsAdd(es: seq<Event>, e: Event)
    ensures Calls(es + [e]) == Calls(es) + Said(e)
  {
    assert (es + [e])[..|es|] == es;
  }

  /** Over any history: attempts and failures are the counts of the window, which
      is the tail of the calls made, has no gap as long as the streak's lifetime,
      and stays short of a full sample. */
  lemma {:induction false} CountersAreCounts(cfg: Config, es: seq<Event>)
    requires cfg.Valid()
    ensures var s, w := Run(cfg, es), Window(cfg, es);
      Counts(cfg, s, w) && EndsWith(Calls(es), w) && Close(cfg, w) && |w| < cfg.sample && Failures(w) <= |w|
    decreases |es|
  {
    if es != [] {
      var init, e := es[..|es| - 1], es[|es| - 1];
      CountersAreCounts(cfg, init);
      StepCounts(cfg, Run(cfg, init), Window(cfg, init), e);
      if !e.Asked? { NextFits(cfg, Run(cfg, init).circuit, Calls(init), Window(cfg, init), Said(e)[0]); }
      FailuresBound(Window(cfg, es));
    }
  }

  /** The last `n` calls. */
  function Last(calls: seq<Call>, n: nat): seq<Call>
    requires n <= |calls|
  {
    calls[|calls| - n..]
  }

  lemma FullStreak(cfg: Config, all: seq<Call>, window: seq<Call>, c: Call)
    requires EndsWith(all, window) && Close(cfg, window) && |window| < cfg.sample <= |Streak(cfg, window, c.at) + [c]|
    ensures cfg.sample <= |all + [c]| && Last(all + [c], cfg.sample) == Streak(cfg, window, c.at) + [c]
    ensures Close(cfg, Last(all + [c], cfg.sample))
  {
    StreakFits(cfg, all, window, c);
  }

  lemma OpensOnSample(cfg: Config, s: State, window: seq<Call>, e: Event)
    requires cfg.Valid() && Counts(cfg, s, window) && |window| < cfg.sample
    requires s.circuit.Closed? && Step(cfg, s, e).circuit.Open?
    ensures e.Failed? && var all := Streak(cfg, window, e.at) + Said(e);
      |all| == cfg.sample && Failures(all) as real / cfg.sample as real >= cfg.share
  {
    StepCounts(cfg, s, window, e);
  }

  /** A closed circuit opens only on a failure, and only if the
      last full sample of calls, with no stale gap among them, failed at least the
      threshold's share of the time: older failures never count. */
  lemma TripMeansFailing(cfg: Config, es: seq<Event>, e: Event)
    requires cfg.Valid() && Run(cfg, es).circuit.Closed? && Run(cfg, es + [e]).circuit.Open?
    ensures e.Failed? && cfg.sample <= |Calls(es + [e])|
    ensures var last := Last(Calls(es + [e]), cfg.sample);
      Close(cfg, last) && Failures(last) as real / cfg.sample as real >= cfg.share
  {
    assert (es + [e])[..|es|] == es;
    CallsAdd(es, e);
    CountersAreCounts(cfg, es);
    OpensOnSample(cfg, Run(cfg, es), Window(cfg, es), e);
    FullStreak(cfg, Calls(es), Window(cfg, es), Said(e)[0]);
  }

  // ----- cooldowns -----

  lemma {:induction false} CooldownGrows(cfg: Config, n: nat, m: nat)
    requires 0 < n <= m
    ensures Min(cfg.base, cfg.most) <= Cooldown(cfg, n) <= Cooldown(cfg, m) <= cfg.most
    decreases m
  {
    if n < m {
      CooldownGrows(cfg, n, m - 1);
      Doubles(cfg.base, Pow2(m - 1), Pow2(m - 2));
    } else if n > 1 {
      CooldownGrows(cfg, n - 1, n - 1);
      Doubles(cfg.base, Pow2(n - 1), Pow2(n - 2));
    }
  }

  /** The first trip waits the base, each further one twice as long, up to the cap. */
  lemma CooldownDoubles(cfg: Config, n: nat)
    requires n > 0
    ensures Cooldown(cfg, 1) == Min(cfg.base, cfg.most)
    ensures Cooldown(cfg, n + 1) == Min(2 * Cooldown(cfg, n), cfg.most)
  {
    Doubles(cfg.base, Pow2(n), Pow2(n - 1));
    assert Pow2(0) == 1;
  }

  lemma Doubles(base: nat, p: nat, half: nat)
    requires p == 2 * half
    ensures base * p == 2 * (base * half) && base * half >= 0
  {
  }

  /** An open circuit has a cooldown, set by its last trip, whose count outlives
      it. */
  ghost predicate Timed(cfg: Config, s: State) {
    && (s.circuit.Open? ==> s.until.Some?)
    && (s.until.Some? ==>
          && s.trips.Some? && s.trips.value.value > 0 && s.trips.value.deadline.Some?
          && var at := s.trips.value.deadline.value - DECAY * cfg.most;
            s.until.value == at + Cooldown(cfg, s.trips.value.value))
  }

  /** Every step keeps that, and never moves the end of a cooldown earlier, even
      when failures of requests let through before the trip open it again. */
  lemma StepTimed(cfg: Config, s: State, e: Event)
    requires cfg.Valid() && Timed(cfg, s)
    requires s.until.Some? ==> s.trips.value.deadline.value - DECAY * cfg.most <= e.at
    ensures Timed(cfg, Step(cfg, s, e))
    ensures s.until.Some? ==> Step(cfg, s, e).until.Some? && s.until.value <= Step(cfg, s, e).until.value
    ensures var t := Step(cfg, s, e);
      t.until.Some? ==> t.trips.value.deadline.value - DECAY * cfg.most <= e.at
  {
    var n := Value(s.trips, e.at);
    CooldownGrows(cfg, n + 1, n + 1);
    if s.until.Some? {
      var k := s.trips.value.value;
      CooldownGrows(cfg, k, k);
      if n > 0 { CooldownGrows(cfg, k, k + 1); }
    }
  }

  /** The clock never runs back. */
  predicate Ordered(es: seq<Event>) {
    forall i :: 0 < i < |es| ==> es[i - 1].at <= es[i].at
  }

  lemma {:induction false} RunTimed(cfg: Config, es: seq<Event>)
    requires cfg.Valid() && Ordered(es)
    ensures Timed(cfg, Run(cfg, es))
    ensures var s := Run(cfg, es);
      s.until.Some? ==> es != [] && s.trips.value.deadline.value - DECAY * cfg.most <= es[|es| - 1].at
    decreases |es|
  {
    if es != [] {
      RunTimed(cfg, es[..|es| - 1]);
      StepTimed(cfg, Run(cfg, es[..|es| - 1]), es[|es| - 1]);
    }
  }

  /** Once open, whatever is reported, every request is refused until the
      cooldown standing now has run out: over any history that goes on from here,
      an event before that instant leaves the circuit open. */
  lemma {:induction false} NoneBeforeCooldown(cfg: Config, es: seq<Event>, more: seq<Event>)
    requires cfg.Valid() && Ordered(es + more) && Run(cfg, es).circuit.Open?
    requires Run(cfg, es).until.Some? ==> forall e <- more :: e.at < Run(cfg, es).until.value
    ensures var s, t := Run(cfg, es), Run(cfg, es + more);
      && s.until.Some? && t.until.Some? && t.circuit.Open? && s.until.value <= t.until.value
      && forall now: int :: now < s.until.value ==> !Allow(t, now).1
    decreases |more|
  {
    assert Ordered(es) by { assert forall i :: 0 <= i < |es| ==> es[i] == (es + more)[i]; }
    RunTimed(cfg, es);
    if more == [] {
      assert es + more == es;
    } else {
      var init, e := more[..|more| - 1], more[|more| - 1];
      assert es + more == (es + init) + [e];
      assert (es + more)[..|es + more| - 1] == es + init;
      assert Ordered(es + init);
      NoneBeforeCooldown(cfg, es, init);
      RunTimed(cfg, es + init);
      assert e in more && (es + more)[|es + more| - 1] == e;
      StepTimed(cfg, Run(cfg, es + init), e);
    }
  }

  /** A trip's length: one more doubling while the last trip is recent enough
      (three longest cooldowns), else the base again; never past the cap. */
  lemma TripLength(cfg: Config, s: State, now: int)
    requires cfg.Valid() && Timed(cfg, s)
    ensures var t := OpenCircuit(cfg, s, now);
      && t.circuit.Open? && t.until == Some(now + Cooldown(cfg, t.trips.value.value))
      && Min(cfg.base, cfg.most) <= t.until.value - now <= cfg.most
      && (s.until.Some? && now < s.trips.value.deadline.value ==>
            t.trips.value.value == s.trips.value.value + 1
            && s.until.value - (s.trips.value.deadline.value - DECAY * cfg.most) <= t.until.value - now)
      && (s.until.Some? && now >= s.trips.value.deadline.value ==> t.until.value - now == Min(cfg.base, cfg.most))
  {
    var n := Value(s.trips, now) + 1;
    CooldownGrows(cfg, n, n);
    if n > 1 { CooldownGrows(cfg, n - 1, n); }
  }

  /** A failure that the window, or a half-open circuit, turns into a trip opens the
      circuit for that trip's cooldown, and starts the count of calls over. */
  lemma TripWrites(cfg: Config, s: State, window: seq<Call>, at: int)
    requires cfg.Valid() && Counts(cfg, s, window) && Trips(cfg, s.circuit, window, Call(at, true))
    ensures var t := Step(cfg, s, Failed(at));
      var n := 1 + if s.trips.Some? && (s.trips.value.deadline.Some? ==> at < s.trips.value.deadline.value) then s.trips.value.value else 0;
      && t.circuit.Open? && t.until == Some(at + Min(cfg.base * Pow2(n - 1), cfg.most))
      && t.trips == Some(Key(n, Some(at + 3 * cfg.most))) && Counts(cfg, t, [])
  {
    StepCounts(cfg, s, window, Failed(at));
    RecordCounts(cfg, s, window, Call(at, true));
  }

  /** Half-open is no single probe: once the cooldown has run out, any number of
      requests pass before anything is reported. */
  lemma {:induction false} ProbesUnlimited(cfg: Config, s: State, at: int, n: nat)
    requires s.circuit.Open? && s.until.Some? && s.until.value <= at
    ensures Asks(s, at, n + 1).circuit.HalfOpen? && Allow(Asks(s, at, n), at).1
  {
    if n > 0 { ProbesUnlimited(cfg, s, at, n - 1); }
  }

  /** The state after `n` requests at `at`. */
  function Asks(s: State, at: int, n: nat): State {
    if n == 0 then s else Allow(Asks(s, at, n - 1), at).0
  }
}
