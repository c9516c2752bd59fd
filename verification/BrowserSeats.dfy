/** How a host seat leaves a process: with its claim, with its browser, or by
    lapsing, and in no other way. */
module BrowserSeats {
  import opened Basics
  import opened Tallies
  import opened Browsers
  import opened BrowserInvariant
  import opened BrowserSteps

  /** Seats only went back, and each with the parked browser that kept it. */
  ghost predicate GaveBack(s: State, t: State) {
    && t.live <= s.live && t.kept.Keys <= s.kept.Keys && t.claims == s.claims
    && forall lease <- s.live :: lease !in t.live ==> lease in s.kept && lease !in t.kept
  }

  lemma Chain(s: State, t: State, u: State)
    requires GaveBack(s, t) && GaveBack(t, u)
    ensures GaveBack(s, u)
  {
  }

  lemma CloseSpareGives(s: State, i: nat)
    requires i < |s.queue|
    ensures GaveBack(s, CloseSpare(s, i)) && GaveBack(s, Unpark(s, i))
  {
  }

  lemma DroppedGives(s: State, i: nat)
    requires i < |s.entries|
    ensures GaveBack(s, Dropped(s, i))
  {
  }

  lemma {:induction false} ReclaimedGives(s: State)
    ensures GaveBack(s, Reclaimed(s))
    decreases |s.queue|
  {
    if Locked(s) && !s.poolStopped && s.queue != [] {
      CloseSpareGives(s, 0);
      ReclaimedGives(CloseSpare(s, 0));
      Chain(s, CloseSpare(s, 0), Reclaimed(s));
    }
  }

  lemma {:induction false} EmptiedGives(s: State)
    ensures GaveBack(s, Emptied(s))
    decreases |s.queue|
  {
    if s.queue != [] {
      CloseSpareGives(s, 0);
      EmptiedGives(CloseSpare(s, 0));
      Chain(s, CloseSpare(s, 0), Emptied(s));
    }
  }

  lemma StopEntryGives(s: State, i: nat)
    requires i < |s.entries|
    ensures GaveBack(s, StopEntry(s, i))
  {
    DroppedGives(s, i);
  }

  lemma {:induction false} StopFromGives(s: State, i: nat)
    requires i <= |s.entries|
    ensures GaveBack(s, StopFrom(s, i))
    decreases |s.entries| - i
  {
    if i < |s.entries| {
      var next := if s.entries[i].listed && !s.entries[i].Busy() then i else i + 1;
      StopEntryGives(s, i);
      StopEntryFrame(s, i);
      StopFromStep(s, i);
      StopFromGives(StopEntry(s, i), next);
      Chain(s, StopEntry(s, i), StopFrom(s, i));
    }
  }

  lemma LookGives(cfg: Config, s: State, i: nat, taken: Option<nat>, proxy: Option<Proxy>, domain: Option<nat>, now: int)
    requires i < |s.queue|
    ensures GaveBack(s, Look(cfg, s, i, taken, proxy, domain, now).0)
  {
    CloseSpareGives(s, i);
    var t := Look(cfg, s, i, taken, proxy, domain, now).0;
    assert t == CloseSpare(s, i) || t == Unpark(s, i) || t == s;
  }

  lemma {:induction false} PickGives(cfg: Config, s: State, i: nat, taken: Option<nat>, proxy: Option<Proxy>, domain: Option<nat>, now: int)
    requires i <= |s.queue|
    ensures GaveBack(s, Pick(cfg, s, i, taken, proxy, domain, now).0)
    decreases |s.queue| - i
  {
    if i < |s.queue| {
      LookGives(cfg, s, i, taken, proxy, domain, now);
      var (t, j, got) := Look(cfg, s, i, taken, proxy, domain, now);
      PickGives(cfg, t, j, got, proxy, domain, now);
      Chain(s, t, Pick(cfg, t, j, got, proxy, domain, now).0);
    }
  }

  lemma AskGives(s: State, who: Launch)
    ensures GaveBack(s, AskPermit(s, who))
  {
    ReclaimedGives(s);
  }

  lemma AcquireGives(cfg: Config, s: State, proxy: Option<Proxy>, domain: Option<nat>, now: int, id: nat)
    ensures GaveBack(s, Acquire(cfg, s, proxy, domain, now, id))
  {
    PickGives(cfg, s, 0, None, proxy, domain, now);
    var (t, taken) := Pick(cfg, s, 0, None, proxy, domain, now);
    if taken.None? {
      var u := t.(active := t.active[id := Fox(proxy, None, Waiting, true)]);
      AskGives(u, OfFox(id));
      Chain(s, u, AskPermit(u, OfFox(id)));
    }
  }

  lemma CheckoutGives(cfg: Config, s: State, want: Want, id: nat)
    ensures GaveBack(s, Checkout(cfg, s, want, id))
  {
    var i, j := FirstIdle(s.entries, want.key, want.domain), Oldest(s.entries, None);
    var added := Entry(id, want.key, want.domain, Some(want), 0, None, None, true);
    if i < |s.entries| {
      SeatGives(s, s.entries[i := s.entries[i].(user := Some(want), seat := None)], s.entries[i].seat);
    } else if OnList(s.entries) >= cfg.maxDrivers && j < |s.entries| {
      SeatGives(s, Without(s.entries, j) + [added], s.entries[j].seat);
    }
  }

  lemma SeatGives(s: State, entries: seq<Entry>, seat: Option<nat>)
    ensures GaveBack(s, GiveBack(s.(entries := entries), seat))
  {
  }

  lemma ReclaimGivesBack(s: State, seat: Option<nat>)
    ensures GaveBack(s, Reclaim(s, seat).0)
  {
    var i, j := if seat.Some? then FindSpare(s.queue, seat.value) else 0, Oldest(s.entries, seat);
    if i < |s.queue| {
      CloseSpareGives(s, i);
      assert Reclaim(s, seat).0 == CloseSpare(s, i);
    } else if j < |s.entries| {
      DroppedGives(s, j);
      assert Reclaim(s, seat).0 == Dropped(s, j);
    } else {
      assert Reclaim(s, seat).0 == s;
    }
  }

  lemma RenewOneGives(cfg: Config, s: State, lease: nat, now: int)
    ensures GaveBack(s, RenewOne(cfg, s, lease, now))
  {
    var dropped := s.(kept := s.kept - {lease});
    ReclaimGivesBack(dropped, Some(lease));
    var t := RenewOne(cfg, s, lease, now);
    if lease in s.kept && now - s.kept[lease].lastRenew >= cfg.renewEvery && lease !in s.live {
      assert GaveBack(s, dropped);
      assert t == Reclaim(dropped, Some(lease)).0;
      Chain(s, dropped, t);
    } else {
      assert t.live == s.live && t.kept.Keys == s.kept.Keys && t.claims == s.claims;
    }
  }

  lemma {:induction false} RenewAllGives(cfg: Config, s: State, order: seq<nat>, now: int)
    ensures GaveBack(s, RenewAll(cfg, s, order, now))
    decreases |order|
  {
    if order != [] {
      RenewOneGives(cfg, s, order[0], now);
      RenewAllGives(cfg, RenewOne(cfg, s, order[0], now), order[1..], now);
      Chain(s, RenewOne(cfg, s, order[0], now), RenewAll(cfg, s, order, now));
    }
  }

  lemma {:induction false} ReclaimAllGivesBack(s: State, leases: seq<nat>)
    ensures GaveBack(s, ReclaimAll(s, leases))
    decreases |leases|
  {
    if leases != [] {
      ReclaimGivesBack(s, Some(leases[0]));
      ReclaimAllGivesBack(Reclaim(s, Some(leases[0])).0, leases[1..]);
      Chain(s, Reclaim(s, Some(leases[0])).0, ReclaimAll(s, leases));
    }
  }

  lemma {:induction false} YieldGives(s: State, n: nat)
    ensures GaveBack(s, Yield(s, n))
    decreases n
  {
    if n > 0 && Reclaim(s, None).1 {
      ReclaimGivesBack(s, None);
      YieldGives(Reclaim(s, None).0, n - 1);
      Chain(s, Reclaim(s, None).0, Yield(s, n));
    }
  }

  lemma TickGives(cfg: Config, s: State, order: seq<nat>, now: int, waiters: nat)
    ensures GaveBack(s, Tick(cfg, s, order, now, waiters))
  {
    RenewAllGives(cfg, s, order, now);
    HandBackGives(cfg, RenewAll(cfg, s, order, now), OverheldIn(cfg, RenewAll(cfg, s, order, now), order, now), now, waiters);
    Chain(s, RenewAll(cfg, s, order, now), Tick(cfg, s, order, now, waiters));
  }

  lemma HandBackGives(cfg: Config, s: State, overheld: seq<nat>, now: int, waiters: nat)
    ensures GaveBack(s, HandBack(cfg, s, overheld, now, waiters))
  {
    var t := ReclaimAll(s, overheld);
    var n := Min(IdleSeats(cfg, t.kept, now), waiters);
    ReclaimAllGivesBack(s, overheld);
    YieldGives(t, n);
    Chain(s, t, Yield(t, n));
  }

  /** A parked browser takes over the seat of the render it ran for: nothing
      leaves the host, and the seat has its new owner. */
  ghost predicate HandedOver(s: State, t: State, r: nat) {
    && t.live == s.live && r in s.claims && !s.claims[r].retained
    && t.claims == s.claims[r := s.claims[r].(retained := true)]
    && t.kept.Keys == s.kept.Keys + {s.claims[r].lease}
  }

  lemma ReleaseGives(cfg: Config, s: State, r: nat, id: nat, healthy: bool, domain: Option<nat>, now: int)
    ensures var t := Release(cfg, s, r, id, healthy, domain, now); GaveBack(s, t) || HandedOver(s, t, r)
  {
  }

  lemma DiscardGives(s: State, id: nat)
    ensures GaveBack(s, Discard(s, id))
  {
    var i := Place(s.entries, id);
    if i < |s.entries| { DroppedGives(s, i); }
  }

  lemma FetchFailsGives(s: State, id: nat)
    ensures GaveBack(s, FetchFails(s, id))
  {
    var t := FreePermit(s.(waiting := Leave(s.waiting, OfEntry(id))), id);
    DiscardGives(t, id);
    assert GaveBack(s, t);
    Chain(s, t, Discard(t, id));
  }

  lemma FetchDoneGives(cfg: Config, s: State, r: nat, id: nat, reusable: bool, blank: bool, now: int)
    ensures var t := FetchDone(cfg, s, r, id, reusable, blank, now); GaveBack(s, t) || HandedOver(s, t, r)
  {
    var t := FreePermit(s, id);
    assert GaveBack(s, t);
    DiscardGives(t, id);
    Chain(s, t, Discard(t, id));
  }

  lemma PoolGives(s: State)
    ensures GaveBack(s, ShutdownPool(s))
  {
    EmptiedGives(s.(poolStopped := true));
  }

  lemma DriversGive(s: State)
    ensures GaveBack(s, ShutdownDrivers(s))
  {
    StopFromGives(s.(driversStopped := true), 0);
  }

  /** What a step may do to the process's live seats. */
  ghost predicate SeatsMove(s: State, e: Event, t: State) {
    match e
    case ClaimBegins(_, lease) => t.live == s.live + {lease} && t.kept == s.kept
    case ClaimEnds(r) => t.kept == s.kept && t.live == s.live - (if r in s.claims && !s.claims[r].retained then {s.claims[r].lease} else {})
    case Lapses(lease) => t.live == s.live - {lease} && t.kept == s.kept
    case Releases(r, _, _, _, _) => GaveBack(s, t) || HandedOver(s, t, r)
    case FetchEnds(r, _, _, _, _) => GaveBack(s, t) || HandedOver(s, t, r)
    case KeeperStops => t.live == s.live - s.kept.Keys && t.kept == map[]
    case _ => GaveBack(s, t)
  }

  lemma PoolStepSeats(cfg: Config, s: State, e: Event)
    requires OfPool(e) || e.PoolStops?
    ensures SeatsMove(s, e, Step(cfg, s, e))
  {
    match e
    case Acquires(proxy, domain, now, id) => AcquireGives(cfg, s, proxy, domain, now, id);
    case Releases(r, id, healthy, domain, now) => ReleaseGives(cfg, s, r, id, healthy, domain, now);
    case PoolStops => PoolGives(s);
    case Wakes => WakeGives(s);
    case Fails(id) => FailGives(s, id);
    case Comes(_) =>
  }

  lemma WakeGives(s: State)
    ensures GaveBack(s, Wake(s))
  {
  }

  lemma FailGives(s: State, id: nat)
    ensures GaveBack(s, LaunchFails(s, id))
  {
  }

  predicate OfDrivers(e: Event) {
    e.ChecksOut? || e.Asks? || e.FetchRaises? || e.FetchEnds? || e.DriversStop?
  }

  lemma DriverStepSeats(cfg: Config, s: State, e: Event)
    requires OfDrivers(e)
    ensures SeatsMove(s, e, Step(cfg, s, e))
  {
    match e
    case ChecksOut(want, id) => CheckoutGives(cfg, s, want, id);
    case Asks(id) => AskGives(s, OfEntry(id));
    case FetchRaises(id) => FetchFailsGives(s, id);
    case FetchEnds(r, id, reusable, blank, now) => FetchDoneGives(cfg, s, r, id, reusable, blank, now);
    case DriversStop => DriversGive(s);
  }

  /** Every pool step gives back no seat but those whose parked browser it closed:
      a running render's own seat is never touched. */
  lemma SeatsOnlyLeaveWithTheirBrowser(cfg: Config, s: State, e: Event)
    ensures SeatsMove(s, e, Step(cfg, s, e))
  {
    if OfPool(e) || e.PoolStops? {
      PoolStepSeats(cfg, s, e);
    } else if OfDrivers(e) {
      DriverStepSeats(cfg, s, e);
    } else if e.Ticks? {
      TickGives(cfg, s, e.order, e.now, e.waiters);
    }
  }

  /** So a render's seat stays with the host's count as long as its claim holds it
      and it does not lapse, whatever the pools do. */
  lemma OwnSeatStays(cfg: Config, s: State, e: Event, r: nat)
    requires Inv(cfg, s) && Legal(cfg, s, e) && r in s.claims && !s.claims[r].retained && s.claims[r].lease in s.live
    requires e != ClaimEnds(r) && e != Lapses(s.claims[r].lease)
    ensures s.claims[r].lease in Step(cfg, s, e).live
  {
    var lease := s.claims[r].lease;
    SeatsOnlyLeaveWithTheirBrowser(cfg, s, e);
    assert lease !in s.kept;
  }
}
