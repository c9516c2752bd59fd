/** The pace of one site. Level 1 reservations and browser grants write the same
    delay key; each is allotted an instant, and the next one should come at
    least that request's delay later. */
module HostDelays {
  import opened Basics
  import opened Sums
  import opened Host
  import opened HostInvariant

  /** An instant given out on a site, and the delay its owner asked for. */
  datatype Allotment = Allotment(at: int, delayMs: int)

  /** What step `e` allots on site `k`, if anything. */
  ghost function Allotted(s: State, cfg: Config, e: Event, k: Site): Option<Allotment> {
    match e
    case Claims(c) =>
      if Granted(s, cfg, c) && c.info.site == k then Some(Allotment(s.now, c.info.delayMs)) else None
    case ReserveDelay(j, d) =>
      if j == k && d > 0 then Some(Allotment(Earliest(s, k), d)) else None
    case _ => None
  }

  ghost function Allotments(s: State, cfg: Config, es: seq<Event>, k: Site): seq<Allotment>
    decreases |es|
  {
    if es == [] then [] else
    var rest := Allotments(Step(s, cfg, es[0]), cfg, es[1..], k);
    var a := Allotted(s, cfg, es[0], k);
    if a.Some? then [a.value] + rest else rest
  }

  /** Neighbours are in order and the earlier one's delay apart. */
  ghost predicate Spaced(given: seq<Allotment>) {
    forall i :: 0 <= i < |given| - 1 ==> given[i].at <= given[i].at + given[i].delayMs <= given[i + 1].at
  }

  /** The queue a reservation joins ends before its key does. */
  ghost predicate QueueFits(s: State, e: Event) {
    e.ReserveDelay? && e.delayMs > 0 ==> Earliest(s, e.site) + e.delayMs <= s.now + QueueTtl(e.delayMs)
  }

  ghost predicate QueuesFit(s: State, cfg: Config, es: seq<Event>)
    decreases |es|
  {
    es == [] || (QueueFits(s, es[0]) && QueuesFit(Step(s, cfg, es[0]), cfg, es[1..]))
  }

  /** A delay key is not gone before the instant it guards. */
  ghost predicate DelayHeld(s: State) {
    forall k :: k in s.delays ==> s.delays[k].nextAt <= s.delays[k].deadline
  }

  lemma ClaimDelays(s: State, cfg: Config, c: Claim, k: Site)
    requires !(Granted(s, cfg, c) && c.info.site == k)
    ensures k in AfterClaim(s, cfg, c).delays <==> k in s.delays
    ensures k in s.delays ==> AfterClaim(s, cfg, c).delays[k] == s.delays[k]
  {
    var q := Queue(s, cfg, c);
    assert q.delays == s.delays && q.now == s.now;
    assert Seat(q, cfg, c).delays == q.delays || Seat(q, cfg, c).delays.Keys == q.delays.Keys + {c.info.site};
  }

  lemma DelaysStep(s: State, cfg: Config, e: Event, k: Site)
    requires !e.Tick? && Allotted(s, cfg, e, k).None?
    ensures k in Step(s, cfg, e).delays <==> k in s.delays
    ensures k in s.delays ==> Step(s, cfg, e).delays[k] == s.delays[k]
  {
    match e
    case Claims(c) => ClaimDelays(s, cfg, c, k);
    case ReserveDelay(_, _) =>
    case _ => OthersKeepDelays(s, cfg, e);
  }

  lemma OthersKeepDelays(s: State, cfg: Config, e: Event)
    requires !e.Claims? && !e.ReserveDelay?
    ensures Step(s, cfg, e).delays == s.delays
  {
    match e
    case Acquire(j, w, n) => AcquireFrame(s, cfg, j, w, n);
    case Renew(l, k) => RenewFrame(s, cfg, l, k);
    case Refresh(k, w) => RefreshFrame(s, cfg, k, w);
    case Release(l, k) => ReleaseFrame(s, l, k);
    case _ =>
  }

  /** With nothing allotted, the site's next instant never moves forward. */
  lemma EarliestWaits(s: State, cfg: Config, e: Event, k: Site)
    requires DelayHeld(s) && Allotted(s, cfg, e, k).None?
    ensures Earliest(s, k) <= Earliest(Step(s, cfg, e), k)
  {
    if e.Tick? {
      assert k in s.delays ==> s.delays[k].nextAt <= s.delays[k].deadline;
    } else {
      DelaysStep(s, cfg, e, k);
      OnlyTicksPass(s, cfg, e);
      SameEarliest(s, Step(s, cfg, e), k);
    }
  }

  lemma SameEarliest(s: State, t: State, k: Site)
    requires t.now == s.now && (k in t.delays <==> k in s.delays) && (k in s.delays ==> t.delays[k] == s.delays[k])
    ensures Earliest(t, k) == Earliest(s, k)
  {
  }

  /** An allotment is never before the site's next instant, and moves it on by
      its own delay. */
  lemma EarliestMoves(s: State, cfg: Config, e: Event, k: Site)
    requires Inv(s, cfg) && Legal(s, e) && Allotted(s, cfg, e, k).Some?
    ensures var a := Allotted(s, cfg, e, k).value;
      && a.delayMs >= 0 && Earliest(s, k) <= a.at
      && a.at + a.delayMs <= Earliest(Step(s, cfg, e), k)
  {
    match e
    case Claims(c) =>
      var q := Queue(s, cfg, c);
      QueueKeeps(s, cfg, c);
      WinnerFits(q, cfg, c.me);
      assert NextAt(q, k) == NextAt(s, k);
      assert Seat(q, cfg, c).now == s.now;
      assert c.info.delayMs > 0 ==> Seat(q, cfg, c).delays[k] == Delay(s.now + c.info.delayMs, s.now + Max(60000, c.info.delayMs * 4));
    case ReserveDelay(j, d) =>
      TtlCoversOne(d);
  }

  /** The key of a reservation lives at least as long as its own delay. */
  lemma TtlCoversOne(delayMs: int)
    requires delayMs > 0
    ensures QueueTtl(delayMs) >= delayMs
  {
    var n := delayMs / 1000;
    assert delayMs < 1000 * (n + 1);
    if n >= 60 { assert 4 * n >= n + 1; }
  }

  lemma DelayHeldStep(s: State, cfg: Config, e: Event)
    requires DelayHeld(s) && QueueFits(s, e) && (e.Claims? ==> WellFormed(e.claim.info))
    ensures DelayHeld(Step(s, cfg, e))
  {
    forall k | k in Step(s, cfg, e).delays
      ensures Step(s, cfg, e).delays[k].nextAt <= Step(s, cfg, e).delays[k].deadline
    {
      if Allotted(s, cfg, e, k).None? && !e.Tick? {
        DelaysStep(s, cfg, e, k);
      }
    }
  }

  lemma {:induction false} SpacingFrom(s: State, cfg: Config, es: seq<Event>, k: Site, last: Allotment)
    requires Inv(s, cfg) && Timed(cfg) && DelayHeld(s) && LegalRun(s, cfg, es) && QueuesFit(s, cfg, es)
    requires last.delayMs >= 0 && last.at + last.delayMs <= Earliest(s, k)
    ensures Spaced([last] + Allotments(s, cfg, es, k))
    decreases |es|
  {
    if es != [] {
      var e, s' := es[0], Step(s, cfg, es[0]);
      StepKeeps(s, cfg, e);
      DelayHeldStep(s, cfg, e);
      var rest := Allotments(s', cfg, es[1..], k);
      if Allotted(s, cfg, e, k).Some? {
        var a := Allotted(s, cfg, e, k).value;
        EarliestMoves(s, cfg, e, k);
        SpacingFrom(s', cfg, es[1..], k, a);
        SpacedCons(last, [a] + rest);
      } else {
        EarliestWaits(s, cfg, e, k);
        SpacingFrom(s', cfg, es[1..], k, last);
      }
    }
  }

  lemma SpacedCons(a: Allotment, given: seq<Allotment>)
    requires given != [] && Spaced(given) && a.at <= a.at + a.delayMs <= given[0].at
    ensures Spaced([a] + given)
  {
  }

  /** Over any mix of reservations and grants on one site, the instants given
      out are in order, each the previous one's delay after it, as long as no
      reservation queue outruns its key. */
  lemma DelaySpacing(s: State, cfg: Config, es: seq<Event>, k: Site)
    requires Inv(s, cfg) && Timed(cfg) && DelayHeld(s) && LegalRun(s, cfg, es) && QueuesFit(s, cfg, es)
    ensures Spaced(Allotments(s, cfg, es, k))
  {
    SpacingFrom(s, cfg, es, k, Allotment(Earliest(s, k), 0));
    assert Spaced(([Allotment(Earliest(s, k), 0)] + Allotments(s, cfg, es, k))[1..]);
  }

  /** The condition is exact: after a reservation, the site's next instant stays
      the delay away however late the next request comes, if and only if the
      queue it joined ends before the key does. */
  lemma SpacingNeedsTheKey(s: State, k: Site, delayMs: int)
    requires delayMs > 0
    ensures (forall ms: nat :: Earliest(s, k) + delayMs <= Earliest(Later(AfterReserve(s, k, delayMs), ms), k))
       <==> Earliest(s, k) + delayMs <= s.now + QueueTtl(delayMs)
  {
    var s', ttl := AfterReserve(s, k, delayMs), QueueTtl(delayMs);
    var end := Earliest(s, k) + delayMs;
    if end <= s.now + ttl {
      forall ms: nat ensures end <= Earliest(Later(s', ms), k) {
        if ms < ttl { assert NextAt(Later(s', ms), k) == end; }
      }
    } else {
      assert Earliest(Later(s', ttl), k) == s.now + ttl < end;
    }
  }

  function Sum(ds: seq<int>): int {
    if ds == [] then 0 else ds[0] + Sum(ds[1..])
  }

  function Reservations(k: Site, ds: seq<int>): seq<Event> {
    if ds == [] then [] else [ReserveDelay(k, ds[0])] + Reservations(k, ds[1..])
  }

  /** No instant is wasted: of requests made at one moment the first is served at
      once, or when the site's standing instant comes, and each next one exactly its
      predecessor's delay later. */
  lemma {:induction false} BurstTight(s: State, cfg: Config, k: Site, ds: seq<int>)
    requires forall i :: 0 <= i < |ds| ==> ds[i] > 0
    ensures var first := if k in s.delays && s.now < s.delays[k].deadline && s.delays[k].nextAt > s.now then s.delays[k].nextAt else s.now;
      var given := Allotments(s, cfg, Reservations(k, ds), k);
      |given| == |ds| && forall i :: 0 <= i < |ds| ==> given[i] == Allotment(first + Sum(ds[..i]), ds[i])
    decreases |ds|
  {
    if ds != [] {
      var e, t := ReserveDelay(k, ds[0]), Step(s, cfg, ReserveDelay(k, ds[0]));
      BurstTight(t, cfg, k, ds[1..]);
      RunOne(s, cfg, e, Reservations(k, ds[1..]), k);
      assert t.delays[k].nextAt == Earliest(s, k) + ds[0] && t.now == s.now < t.delays[k].deadline;
      var given := Allotments(s, cfg, Reservations(k, ds), k);
      forall i | 0 <= i < |ds| ensures given[i] == Allotment(Earliest(s, k) + Sum(ds[..i]), ds[i]) {
        if i > 0 {
          assert ds[..i][1..] == ds[1..][..i - 1];
          assert given[i] == Allotments(t, cfg, Reservations(k, ds[1..]), k)[i - 1];
        }
      }
    }
  }

  const CFG := Config(90000, 10000, 120000, 4.0, 0.6)
  const K := Site("a", "here.example")
  const LONG := ReserveDelay(K, 100000)
  const SHORT := ReserveDelay(K, 1000)

  function Empty(now: nat, delays: map<Site, Delay>): State {
    State(now, map[], map[], map[], map[], map[], map[], None, map[], delays)
  }

  lemma OutrunSteps()
    ensures Step(Empty(0, map[]), CFG, LONG) == Empty(0, map[K := Delay(100000, 400000)])
    ensures Step(Empty(0, map[K := Delay(100000, 400000)]), CFG, SHORT) == Empty(0, map[K := Delay(101000, 60000)])
    ensures Step(Empty(0, map[K := Delay(101000, 60000)]), CFG, Tick(60000)) == Empty(60000, map[K := Delay(101000, 60000)])
  {
  }

  lemma OutrunAllotments()
    ensures var s, es := Empty(0, map[]), [LONG, SHORT, Tick(60000), SHORT];
      LegalRun(s, CFG, es) && Allotments(s, CFG, es, K) == [Allotment(0, 100000), Allotment(100000, 1000), Allotment(60000, 1000)]
  {
    var s0, s1 := Empty(0, map[]), Empty(0, map[K := Delay(100000, 400000)]);
    var s2 := Empty(0, map[K := Delay(101000, 60000)]);
    OutrunSteps();
    RunOne(Empty(60000, s2.delays), CFG, SHORT, [], K);
    RunOne(s2, CFG, Tick(60000), [SHORT], K);
    RunOne(s1, CFG, SHORT, [Tick(60000), SHORT], K);
    RunOne(s0, CFG, LONG, [SHORT, Tick(60000), SHORT], K);
    assert [LONG] + [SHORT, Tick(60000), SHORT] == [LONG, SHORT, Tick(60000), SHORT];
    assert [SHORT] + [Tick(60000), SHORT] == [SHORT, Tick(60000), SHORT];
    assert [Tick(60000)] + [SHORT] == [Tick(60000), SHORT] && [SHORT] + [] == [SHORT];
  }

  /** Two reservations at one instant, then a third a minute later: the short
      second one gave its key a minute to live, but had queued behind 100 s. */
  lemma OutrunQueue()
    ensures var s, es := Empty(0, map[]), [LONG, SHORT, Tick(60000), SHORT];
      && Inv(s, CFG) && LegalRun(s, CFG, es)
      && Allotments(s, CFG, es, K) == [Allotment(0, 100000), Allotment(100000, 1000), Allotment(60000, 1000)]
      && !Spaced(Allotments(s, CFG, es, K))
  {
    OutrunAllotments();
    var given := [Allotment(0, 100000), Allotment(100000, 1000), Allotment(60000, 1000)];
    assert !Spaced(given) by { assert given[1].at + given[1].delayMs > given[2].at; }
  }

  lemma RunOne(s: State, cfg: Config, e: Event, es: seq<Event>, k: Site)
    ensures LegalRun(s, cfg, [e] + es) <==> Legal(s, e) && LegalRun(Step(s, cfg, e), cfg, es)
    ensures Allotments(s, cfg, [e] + es, k)
         == (if Allotted(s, cfg, e, k).Some? then [Allotted(s, cfg, e, k).value] else []) + Allotments(Step(s, cfg, e), cfg, es, k)
  {
    assert ([e] + es)[1..] == es;
  }
}
