/** What the invariant means: no permit lost, no launch starved by idle browsers,
    one owner for every host seat, and one close for every driver. */
module BrowserLaws {
  import opened Basics
  import opened Tallies
  import opened Browsers
  import opened BrowserInvariant
  import opened BrowserSteps

  // ----- permits -----

  /** Every permit is free or with exactly one browser: an instance coming up or
      live, or a Botasaurus fetch. */
  predicate AddsUp(cfg: Config, s: State) {
    s.free + |Holders(s.active)| + |s.fetching| == cfg.ceiling
  }

  /** In every state a run reaches, stops included: the permits exceed the ceiling
      by one for each launch, blocked or granted, that was under way when the pool
      was stopped. */
  lemma PermitConservation(cfg: Config, es: seq<Event>)
    requires LegalRun(cfg, Init(cfg), es)
    ensures var s := Run(cfg, Init(cfg), es);
      s.free + |Holders(s.active)| + |s.fetching| == cfg.ceiling + Excess(cfg, Init(cfg), es)
  {
    RunKeeps(cfg, es);
  }

  /** Every stop of the pool in the run found no launch under way. */
  ghost predicate StopsQuiet(cfg: Config, es: seq<Event>) {
    forall i :: 0 <= i < |es| && es[i].PoolStops? ==> InFlight(Run(cfg, Init(cfg), es[..i]).active) == {}
  }

  lemma {:induction false} QuietNoExcess(cfg: Config, es: seq<Event>)
    ensures StopsQuiet(cfg, es) <==> Excess(cfg, Init(cfg), es) == 0
    decreases |es|
  {
    if es != [] {
      var init := es[..|es| - 1];
      QuietNoExcess(cfg, init);
      assert forall i :: 0 <= i < |init| ==> init[i] == es[i] && init[..i] == es[..i];
      assert es[..|es| - 1] == init;
    }
  }

  /** The exact condition: permits add up at the end of a run, and so in every
      continuation of a stop, if and only if no launch, blocked or granted, was
      under way at a stop. */
  lemma AddsUpExactly(cfg: Config, es: seq<Event>)
    requires LegalRun(cfg, Init(cfg), es)
    ensures AddsUp(cfg, Run(cfg, Init(cfg), es)) <==> StopsQuiet(cfg, es)
  {
    PermitConservation(cfg, es);
    QuietNoExcess(cfg, es);
  }

  /** When all work is over, the semaphore itself holds that many permits more
      than it was built with. */
  lemma ExcessStays(cfg: Config, es: seq<Event>)
    requires LegalRun(cfg, Init(cfg), es)
    requires Holders(Run(cfg, Init(cfg), es).active) == {} && Run(cfg, Init(cfg), es).fetching == {}
    ensures Run(cfg, Init(cfg), es).free == cfg.ceiling + Excess(cfg, Init(cfg), es)
  {
    PermitConservation(cfg, es);
  }

  /** One stop, from any state: one permit too many for each launch under way, so
      conserved if and only if there is none. */
  lemma ShutdownExcess(cfg: Config, s: State)
    requires Inv(cfg, s)
    ensures var t := ShutdownPool(s);
      && t.free + |Holders(t.active)| + |t.fetching| == cfg.ceiling + |InFlight(s.active)|
      && (AddsUp(cfg, t) <==> InFlight(s.active) == {})
  {
    ShutdownPoolKeeps(cfg, s);
  }

  const ONE := Config(1, true, true, false, 300, 1, 20, 2, 45)

  const LAUNCHING := Acquires(None, None, 0, 0)

  lemma RunAdd(cfg: Config, es: seq<Event>, e: Event)
    ensures Run(cfg, Init(cfg), es + [e]) == Step(cfg, Run(cfg, Init(cfg), es), e)
    ensures LegalRun(cfg, Init(cfg), es + [e]) <==> LegalRun(cfg, Init(cfg), es) && Legal(cfg, Run(cfg, Init(cfg), es), e)
  {
    assert (es + [e])[..|es|] == es;
  }

  lemma GrantedAtOnce()
    ensures LegalRun(ONE, Init(ONE), [LAUNCHING])
    ensures Run(ONE, Init(ONE), [LAUNCHING]) == Init(ONE).(free := 0, active := map[0 := Fox(None, None, Launching, true)])
  {
    RunAdd(ONE, [], LAUNCHING);
    assert [] + [LAUNCHING] == [LAUNCHING];
  }

  /** A launch that had its permit when the pool stopped, and then failed: its one
      permit is released twice. */
  lemma GrantedLaunchMints()
    ensures LegalRun(ONE, Init(ONE), [LAUNCHING] + [PoolStops] + [Fails(0)])
    ensures Run(ONE, Init(ONE), [LAUNCHING] + [PoolStops] + [Fails(0)])
      == Init(ONE).(free := 2, poolStopped := true)
  {
    GrantedAtOnce();
    RunAdd(ONE, [LAUNCHING], PoolStops);
    RunAdd(ONE, [LAUNCHING] + [PoolStops], Fails(0));
    var s := Run(ONE, Init(ONE), [LAUNCHING]);
    assert Listed(s.active) == {0};
    assert Unlisted(s.active) == map[0 := Fox(None, None, Launching, false)];
    assert map[0 := Fox(None, None, Launching, false)] - {0} == map[];
  }

  const SECOND := Acquires(None, None, 0, 1)

  lemma BlockedBehind()
    ensures LegalRun(ONE, Init(ONE), [LAUNCHING] + [SECOND])
    ensures Run(ONE, Init(ONE), [LAUNCHING] + [SECOND])
      == Init(ONE).(free := 0, waiting := [OfFox(1)],
                    active := map[0 := Fox(None, None, Launching, true), 1 := Fox(None, None, Waiting, true)])
  {
    GrantedAtOnce();
    RunAdd(ONE, [LAUNCHING], SECOND);
  }

  /** A launch that was still blocked when the pool stopped: a permit it never had
      is released. With the other one up and closed, two are free of one. */
  lemma BlockedLaunchMints()
    ensures var es := [LAUNCHING] + [SECOND] + [Comes(0)] + [PoolStops] + [Fails(1)];
      && LegalRun(ONE, Init(ONE), es)
      && Run(ONE, Init(ONE), es) == Init(ONE).(free := 2, poolStopped := true)
  {
    BlockedBehind();
    var es := [LAUNCHING] + [SECOND];
    RunAdd(ONE, es, Comes(0));
    RunAdd(ONE, es + [Comes(0)], PoolStops);
    RunAdd(ONE, es + [Comes(0)] + [PoolStops], Fails(1));
    var s := Run(ONE, Init(ONE), es + [Comes(0)]);
    assert s.active == map[0 := Fox(None, None, Up, true), 1 := Fox(None, None, Waiting, true)];
    assert Listed(s.active) == {0, 1};
    assert Unlisted(s.active) == map[1 := Fox(None, None, Waiting, false)];
    assert map[1 := Fox(None, None, Waiting, false)] - {1} == map[];
    assert Leave([OfFox(1)], OfFox(1)) == [];
  }

  /** Until the pool stops, a launch is blocked only by browsers at work: no permit
      is on a parked one, in any state a run reaches. */
  lemma BlockedByWorkOnly(cfg: Config, es: seq<Event>)
    requires LegalRun(cfg, Init(cfg), es)
    ensures var s := Run(cfg, Init(cfg), es);
      s.waiting != [] && !s.poolStopped ==>
        && s.queue == []
        && (s.free == 0 && cfg.ceiling > 0 ==> s.fetching != {} || exists id <- s.active :: !s.active[id].phase.Waiting? && !Parked(s, id))
  {
    RunKeeps(cfg, es);
    var s := Run(cfg, Init(cfg), es);
    if s.waiting != [] && !s.poolStopped && s.free == 0 && cfg.ceiling > 0 && s.fetching == {} {
      assert Holders(s.active) != {};
      var id :| id in Holders(s.active);
      assert !Parked(s, id);
    }
  }

  /** A stopped pool no longer reclaims: a launch comes to be blocked while a
      browser is parked exactly when it asks a stopped pool's semaphore with no
      permit to be had and something parked. */
  lemma StarvesExactly(cfg: Config, s: State, who: Launch)
    requires Inv(cfg, s)
    ensures var t := AskPermit(s, who);
      t.waiting != [] && t.queue != [] <==> s.poolStopped && Locked(s) && s.queue != []
  {
    ReclaimedKeeps(cfg, s);
    GrantKeepsQueue(Reclaimed(s), who);
  }

  lemma GrantKeepsQueue(s: State, who: Launch)
    ensures TakeOrWait(s, who).queue == s.queue
    ensures TakeOrWait(s, who).waiting == if Locked(s) then s.waiting + [who] else s.waiting
  {
  }

  /** The browser at work in event `e`, about to end. */
  predicate Ends(s: State, e: Event) {
    match e
    case Releases(_, id, _, _, _) => id in s.active && s.active[id].phase.Up? && s.active[id].listed
    case Fails(id) => id in s.active && s.active[id].phase.Launching?
    case FetchEnds(_, id, _, _, _) => id in s.fetching
    case FetchRaises(id) => id in s.fetching
    case _ => false
  }

  lemma {:induction false} LeaveNothing(line: seq<Launch>, who: Launch)
    requires who !in line
    ensures Leave(line, who) == line
    decreases |line|
  {
    if line != [] {
      assert forall x :: x in line[1..] ==> x in line;
      LeaveNothing(line[1..], who);
    }
  }

  /** A permit came free and nobody has taken it yet. */
  ghost predicate Freed(s: State, t: State) {
    t.free == s.free + 1 && t.waiting == s.waiting
  }

  lemma EndFreesFox(cfg: Config, s: State, r: nat, id: nat, healthy: bool, domain: Option<nat>, now: int)
    requires s.waiting != [] && id in s.active && s.active[id].listed
    ensures Freed(s, Release(cfg, s, r, id, healthy, domain, now))
  {
  }

  lemma FailFreesFox(s: State, id: nat)
    requires id in s.active && s.active[id].phase.Launching?
    ensures Freed(s, LaunchFails(s, id))
  {
  }

  lemma EndFreesFetch(cfg: Config, s: State, r: nat, id: nat, reusable: bool, blank: bool, now: int)
    requires id in s.fetching
    ensures Freed(s, FetchDone(cfg, s, r, id, reusable, blank, now))
  {
  }

  lemma RaiseFreesFetch(s: State, id: nat)
    requires id in s.fetching && OfEntry(id) !in s.waiting
    ensures Freed(s, FetchFails(s, id))
  {
    LeaveNothing(s.waiting, OfEntry(id));
  }

  lemma EndFrees(cfg: Config, s: State, e: Event)
    requires Lined(s) && s.waiting != [] && Ends(s, e)
    ensures Freed(s, Step(cfg, s, e))
  {
    match e
    case Releases(r, id, healthy, domain, now) => EndFreesFox(cfg, s, r, id, healthy, domain, now);
    case Fails(id) => FailFreesFox(s, id);
    case FetchEnds(r, id, reusable, blank, now) => EndFreesFetch(cfg, s, r, id, reusable, blank, now);
    case FetchRaises(id) =>
      assert !InLine(s.waiting, OfEntry(id));
      RaiseFreesFetch(s, id);
    case _ =>
  }

  lemma FreedWakes(s: State, t: State)
    requires Freed(s, t) && s.waiting != []
    ensures Wake(t).waiting == s.waiting[1..]
  {
  }

  /** Deadlock freedom: while a launch is blocked, every browser a pool knows of
      that ends its work, well or badly, frees its permit instead of keeping it
      parked, and the head of the line gets it. */
  lemma HandOver(cfg: Config, s: State, e: Event)
    requires Inv(cfg, s) && s.waiting != [] && Ends(s, e)
    ensures Freed(s, Step(cfg, s, e)) && Wake(Step(cfg, s, e)).waiting == s.waiting[1..]
  {
    EndFrees(cfg, s, e);
    FreedWakes(s, Step(cfg, s, e));
  }

  // ----- seats -----

  /** In every state a run reaches, a live host seat has one owner: one render's
      claim, or the keeper on behalf of one parked browser. */
  lemma OneOwner(cfg: Config, es: seq<Event>, lease: nat)
    requires LegalRun(cfg, Init(cfg), es)
    requires lease in Run(cfg, Init(cfg), es).live
    ensures var s := Run(cfg, Init(cfg), es);
      && (lease in s.kept <==> !Owns(s.claims, lease))
      && (lease in s.kept ==> lease in ParkedSeats(s.queue, s.entries))
      && (lease in s.kept && Tight(s) ==> ParkedSeats(s.queue, s.entries)[lease] == 1)
      && (forall q, r :: q in s.claims && r in s.claims && s.claims[q].lease == s.claims[r].lease == lease ==> q == r)
  {
    RunKeeps(cfg, es);
  }

  lemma TallyTwice<T>(s: seq<T>, i: nat, j: nat, v: nat, of: T -> Option<nat>)
    requires i < j < |s| && of(s[i]) == Some(v) && of(s[j]) == Some(v)
    ensures Tally(s, of)[v] >= 2
  {
    TallyWithout(s, j, of);
    TallyWithout(Without(s, j), i, of);
  }

  lemma TallyOnce<T>(s: seq<T>, i: nat, v: nat, of: T -> Option<nat>)
    requires i < |s| && of(s[i]) == Some(v)
    ensures Tally(s, of)[v] >= 1
  {
    TallyWithout(s, i, of);
  }

  /** Until the Botasaurus pool or the keeper stops, every parked browser keeps a
      seat, and no two keep the same one. */
  lemma ParkedSeatsDiffer(cfg: Config, s: State)
    requires Inv(cfg, s) && cfg.keeper && Tight(s)
    ensures forall i :: 0 <= i < |s.queue| ==> s.queue[i].seat.Some? && s.queue[i].seat.value in s.kept
    ensures forall i, j :: 0 <= i < j < |s.queue| ==> s.queue[i].seat != s.queue[j].seat
    ensures forall i :: 0 <= i < |s.entries| && !s.entries[i].Busy() ==> s.entries[i].seat.Some? && s.entries[i].seat.value in s.kept
    ensures forall i, j :: 0 <= i < j < |s.entries| && !s.entries[i].Busy() ==> s.entries[i].seat != s.entries[j].seat
    ensures forall i, j :: 0 <= i < |s.queue| && 0 <= j < |s.entries| ==> s.queue[i].seat != s.entries[j].seat
  {
    forall i | 0 <= i < |s.queue| ensures s.queue[i].seat.Some? && s.queue[i].seat.value in s.kept {
      SpareKeepsSeat(cfg, s, i);
    }
    forall i, j | 0 <= i < j < |s.queue| ensures s.queue[i].seat != s.queue[j].seat { SparesDiffer(cfg, s, i, j); }
    forall i | 0 <= i < |s.entries| && !s.entries[i].Busy() ensures s.entries[i].seat.Some? && s.entries[i].seat.value in s.kept {
      IdleKeepsSeat(cfg, s, i);
    }
    forall i, j | 0 <= i < j < |s.entries| && !s.entries[i].Busy() ensures s.entries[i].seat != s.entries[j].seat { IdleDiffer(cfg, s, i, j); }
    forall i, j | 0 <= i < |s.queue| && 0 <= j < |s.entries| ensures s.queue[i].seat != s.entries[j].seat { PoolsDiffer(cfg, s, i, j); }
  }

  lemma SeatOnce(cfg: Config, s: State, v: nat)
    requires Seated(cfg, s) && Tight(s)
    ensures Tally(s.queue, SeatOfSpare)[v] + Tally(s.entries, SeatOfEntry)[v] <= 1
  {
    assert ParkedSeats(s.queue, s.entries)[v] == multiset(s.kept.Keys)[v];
  }

  lemma SparesDiffer(cfg: Config, s: State, i: nat, j: nat)
    requires FoxesOk(cfg, s.active, s.queue) && Seated(cfg, s) && Tight(s) && cfg.keeper && i < j < |s.queue|
    ensures s.queue[i].seat != s.queue[j].seat
  {
    SpareKeepsSeat(cfg, s, i);
    SeatOnce(cfg, s, s.queue[i].seat.value);
    if s.queue[i].seat == s.queue[j].seat { TallyTwice(s.queue, i, j, s.queue[i].seat.value, SeatOfSpare); }
  }

  lemma IdleDiffer(cfg: Config, s: State, i: nat, j: nat)
    requires EntriesOk(cfg, s.driversStopped, s.entries) && Seated(cfg, s) && Tight(s) && cfg.keeper && i < j < |s.entries| && !s.entries[i].Busy()
    ensures s.entries[i].seat != s.entries[j].seat
  {
    IdleKeepsSeat(cfg, s, i);
    SeatOnce(cfg, s, s.entries[i].seat.value);
    if s.entries[i].seat == s.entries[j].seat { TallyTwice(s.entries, i, j, s.entries[i].seat.value, SeatOfEntry); }
  }

  lemma PoolsDiffer(cfg: Config, s: State, i: nat, j: nat)
    requires FoxesOk(cfg, s.active, s.queue) && Seated(cfg, s) && Tight(s) && cfg.keeper && i < |s.queue| && j < |s.entries|
    ensures s.queue[i].seat != s.entries[j].seat
  {
    SpareKeepsSeat(cfg, s, i);
    SeatOnce(cfg, s, s.queue[i].seat.value);
    if s.entries[j].seat == s.queue[i].seat { TallyOnce(s.entries, j, s.queue[i].seat.value, SeatOfEntry); }
  }

  lemma SpareKeepsSeat(cfg: Config, s: State, i: nat)
    requires FoxesOk(cfg, s.active, s.queue) && Seated(cfg, s) && Tight(s) && cfg.keeper && i < |s.queue|
    ensures s.queue[i].seat.Some? && s.queue[i].seat.value in s.kept && Tally(s.queue, SeatOfSpare)[s.queue[i].seat.value] >= 1
  {
    assert SpareOk(cfg, s.active, s.queue[i]);
    TallyOnce(s.queue, i, s.queue[i].seat.value, SeatOfSpare);
    assert ParkedSeats(s.queue, s.entries)[s.queue[i].seat.value] >= 1;
  }

  lemma IdleKeepsSeat(cfg: Config, s: State, i: nat)
    requires EntriesOk(cfg, s.driversStopped, s.entries) && Seated(cfg, s) && Tight(s) && cfg.keeper && i < |s.entries| && !s.entries[i].Busy()
    ensures s.entries[i].seat.Some? && s.entries[i].seat.value in s.kept
  {
    assert EntryOk(cfg, s.entries[i]);
    TallyOnce(s.entries, i, s.entries[i].seat.value, SeatOfEntry);
    assert ParkedSeats(s.queue, s.entries)[s.entries[i].seat.value] >= 1;
  }

  /** And every kept seat is some parked browser's, which closing it finds until the
      Botasaurus pool stops. */
  lemma KeptSeatsParked(cfg: Config, s: State, lease: nat)
    requires Inv(cfg, s) && lease in s.kept
    ensures (exists p <- s.queue :: p.seat == Some(lease)) || exists e <- s.entries :: !e.Busy() && e.seat == Some(lease)
    ensures !s.driversStopped ==> Reclaim(s, Some(lease)).1
  {
    if !s.driversStopped { ReclaimFinds(cfg, s, lease); }
    assert lease in ParkedSeats(s.queue, s.entries);
    if lease in Tally(s.queue, SeatOfSpare) {
      var i := TallyFinds(s.queue, lease, SeatOfSpare);
      assert s.queue[i] in s.queue;
    } else {
      var j := TallyFinds(s.entries, lease, SeatOfEntry);
      assert s.entries[j] in s.entries && EntryOk(cfg, s.entries[j]);
    }
  }

  /** A retained seat may go back while its claim block still runs. */
  lemma SeatMayGoFirst(cfg: Config, s: State, r: nat)
    requires Inv(cfg, s) && !s.driversStopped && r in s.claims && s.claims[r].retained && s.claims[r].lease in s.kept
    ensures var t := Reclaim(s, Some(s.claims[r].lease)).0;
      r in t.claims && s.claims[r].lease !in t.live && s.claims[r].lease !in t.kept
  {
    var lease := s.claims[r].lease;
    ReclaimFinds(cfg, s, lease);
    ReclaimIs(s, Some(lease));
    var t := Reclaim(s, Some(lease)).0;
    if i :| 0 <= i < |s.queue| && t == CloseSpare(s, i) && s.queue[i].seat == Some(lease) {
      SpareGone(s, i);
    } else {
      var i :| 0 <= i < |s.entries| && t == Dropped(s, i) && s.entries[i].seat == Some(lease);
      EntryGone(s, i);
    }
  }

  /** Everything closing spare `i` changes. */
  lemma SpareGone(s: State, i: nat)
    requires i < |s.queue|
    ensures var t, u := CloseSpare(s, i), GiveBack(s, s.queue[i].seat);
      && t.queue == Without(s.queue, i) && t.active == s.active - {s.queue[i].id}
      && t.live == u.live && t.kept == u.kept && t.claims == s.claims
  {
    var v := s.(queue := Without(s.queue, i));
    GiveBackFrame(v, s.queue[i].seat);
    SameGiven(s, v, s.queue[i].seat);
    ExitIs(Unpark(s, i), s.queue[i].id);
  }

  lemma SameGiven(s: State, t: State, seat: Option<nat>)
    requires t.kept == s.kept && t.live == s.live
    ensures GiveBack(t, seat).kept == GiveBack(s, seat).kept && GiveBack(t, seat).live == GiveBack(s, seat).live
  {
  }

  lemma ExitIs(s: State, id: nat)
    ensures var t := CloseFox(s, id); t == s.(active := s.active - {id}, free := t.free)
  {
    if id !in s.active { assert s.active - {id} == s.active; }
  }

  lemma EntryGone(s: State, i: nat)
    requires i < |s.entries|
    ensures var t, u := Dropped(s, i), GiveBack(s, s.entries[i].seat);
      t.live == u.live && t.kept == u.kept && t.claims == s.claims
  {
  }

  /** After the keeper's shutdown, whatever is still at work, every live seat is a
      running claim's: none is left to a browser. */
  lemma KeeperLeavesClaims(cfg: Config, s: State)
    requires Inv(cfg, s)
    ensures var t := ShutdownKeeper(s);
      t.kept == map[] && (forall lease <- t.live :: Owns(s.claims, lease)) && (s.claims == map[] ==> t.live == {})
  {
  }

  /** When the job is over, stopping the pools alone gives every seat back; the
      keeper's own shutdown finds none. */
  lemma NothingLeft(cfg: Config, s: State)
    requires Inv(cfg, s) && s.claims == map[] && !s.driversStopped
    requires InFlight(s.active) == {} && (forall e <- s.entries :: !e.Busy()) && forall id <- s.active :: s.active[id].listed
    ensures var t := ShutdownDrivers(ShutdownPool(s));
      && t.kept == map[] && t.live == {} && t.queue == [] && t.entries == [] && t.active == map[]
      && t.free + |t.fetching| == cfg.ceiling
  {
    var u := ShutdownPool(s);
    ShutdownPoolKeeps(cfg, s);
    PoolGone(cfg, s);
    ShutdownDriversKeeps(cfg, u);
    StopsAll(u.(driversStopped := true), 0);
    NothingKept(cfg, ShutdownDrivers(u));
    assert Holders(map[]) == {};
  }

  /** With nothing parked and no claim there is no seat. */
  lemma NothingKept(cfg: Config, s: State)
    requires Seated(cfg, s) && s.queue == [] && s.entries == [] && s.claims == map[]
    ensures s.kept == map[] && s.live == {}
  {
    assert ParkedSeats([], []) == multiset{};
    assert forall lease :: lease !in s.kept;
  }

  lemma PoolGone(cfg: Config, s: State)
    requires Inv(cfg, s) && InFlight(s.active) == {} && forall id <- s.active :: s.active[id].listed
    ensures var t := ShutdownPool(s);
      t.queue == [] && t.active == map[] && t.entries == s.entries && t.claims == s.claims && t.fetching == s.fetching && t.driversStopped == s.driversStopped
  {
    PoolFlagKeeps(cfg, s);
    EmptiedKeeps(cfg, s.(poolStopped := true));
    ClearedGone(s, Emptied(s.(poolStopped := true)));
  }

  lemma ClearedGone(s: State, t: State)
    requires Trims(s.(poolStopped := true), t) && t.queue == [] && InFlight(s.active) == {} && forall id <- s.active :: s.active[id].listed
    ensures Cleared(t).active == map[] && Cleared(t) == t.(active := map[], free := Cleared(t).free)
    ensures t.entries == s.entries && t.claims == s.claims && t.fetching == s.fetching && t.driversStopped == s.driversStopped
  {
    forall id <- t.active ensures t.active[id].listed && t.active[id].phase.Up? {
      assert id in s.active && id !in InFlight(s.active);
    }
  }

  /** What shutting the drivers down leaves alone. */
  ghost predicate OnlyDrivers(s: State, t: State) {
    && t.active == s.active && t.queue == s.queue && t.free == s.free && t.waiting == s.waiting && t.fetching == s.fetching
    && t.claims == s.claims && t.started == s.started && t.driversStopped == s.driversStopped
  }

  lemma StopEntryOnly(s: State, i: nat)
    requires i < |s.entries|
    ensures OnlyDrivers(s, StopEntry(s, i))
  {
    DroppedOnly(s, i);
    GiveBackFrame(s, s.entries[i].seat);
  }

  lemma {:induction false} StopsAll(s: State, i: nat)
    requires i <= |s.entries|
    ensures OnlyDrivers(s, StopFrom(s, i))
    ensures i == 0 && (forall e <- s.entries :: e.listed && !e.Busy()) ==> StopFrom(s, i).entries == []
    decreases |s.entries| - i
  {
    if i < |s.entries| {
      var next := if s.entries[i].listed && !s.entries[i].Busy() then i else i + 1;
      StopEntryOnly(s, i);
      StopEntryFrame(s, i);
      StopFromStep(s, i);
      if next == i { DroppedOnly(s, i); }
      StopsAll(StopEntry(s, i), next);
    }
  }

  // ----- drivers -----

  /** In every state a run reaches: no more entries than the cap, and a fetch is
      at work on a driver launched for its own proxy identity and domain, open,
      and nobody else's. */
  lemma OwnDriver(cfg: Config, es: seq<Event>, i: nat)
    requires LegalRun(cfg, Init(cfg), es)
    requires i < |Run(cfg, Init(cfg), es).entries|
    ensures var s := Run(cfg, Init(cfg), es); var e := s.entries[i];
      && OnList(s.entries) <= cfg.maxDrivers
      && (e.user.Some? && e.driver.Some? ==>
            && e.user.value == Want(e.driver.value.key, e.driver.value.domain)
            && e.driver.value.id in s.started && e.driver.value.id !in s.closed
            && forall j :: 0 <= j < |s.entries| && j != i ==> DriverOf(s.entries[j]) != DriverOf(e))
  {
    RunKeeps(cfg, es);
    OwnEntry(cfg, Run(cfg, Init(cfg), es), i);
  }

  lemma OwnEntry(cfg: Config, s: State, i: nat)
    requires EntriesOk(cfg, s.driversStopped, s.entries) && DriversOk(s.entries, s.started, s.closed) && i < |s.entries|
    ensures var e := s.entries[i];
      e.driver.Some? ==>
        && (e.user.Some? ==> e.user.value == Want(e.driver.value.key, e.driver.value.domain))
        && e.driver.value.id in s.started && e.driver.value.id !in s.closed
        && forall j :: 0 <= j < |s.entries| && j != i ==> DriverOf(s.entries[j]) != DriverOf(e)
  {
    assert EntryOk(cfg, s.entries[i]);
    if s.entries[i].driver.Some? { DriverOnce(s, i); }
  }

  lemma DriverOnce(s: State, i: nat)
    requires DriversOk(s.entries, s.started, s.closed) && i < |s.entries| && s.entries[i].driver.Some?
    ensures var d := s.entries[i].driver.value.id;
      d in s.started && d !in s.closed && forall j :: 0 <= j < |s.entries| && j != i ==> DriverOf(s.entries[j]) != Some(d)
  {
    var d := s.entries[i].driver.value.id;
    TallyOnce(s.entries, i, d, DriverOf);
    assert multiset(s.started)[d] >= 1 + s.closed[d];
    forall j | 0 <= j < |s.entries| && j != i ensures DriverOf(s.entries[j]) != Some(d) {
      if DriverOf(s.entries[j]) == Some(d) { TallyTwice(s.entries, if i < j then i else j, if i < j then j else i, d, DriverOf); }
    }
  }

  /** No driver is ever closed twice, in any state a run reaches, and every driver
      is closed exactly when no entry, listed or not, has one left. */
  lemma AllClosedExactly(cfg: Config, es: seq<Event>)
    requires LegalRun(cfg, Init(cfg), es)
    ensures var s := Run(cfg, Init(cfg), es);
      && (forall d: nat :: s.closed[d] <= 1)
      && (s.closed == multiset(s.started) <==> forall e <- s.entries :: e.driver.None?)
  {
    RunKeeps(cfg, es);
    var s := Run(cfg, Init(cfg), es);
    forall d: nat ensures s.closed[d] <= 1 { assert multiset(s.started)[d] == s.closed[d] + Tally(s.entries, DriverOf)[d]; }
    TallyEmpty(s.entries);
    if s.closed == multiset(s.started) { BagNone(s.closed, Tally(s.entries, DriverOf)); }
  }

  lemma BagNone(a: multiset<nat>, b: multiset<nat>)
    requires a == a + b
    ensures b == multiset{}
  {
    forall v: nat ensures b[v] == 0 { assert a[v] == (a + b)[v]; }
  }

  lemma {:induction false} TallyEmpty(entries: seq<Entry>)
    ensures Tally(entries, DriverOf) == multiset{} <==> forall e <- entries :: e.driver.None?
  {
    if entries != [] {
      var init, last := entries[..|entries| - 1], entries[|entries| - 1];
      TallyEmpty(init);
      assert entries == init + [last];
      TallyAdd(init, last, DriverOf);
    }
  }

  /** The entries before place `i` have been stopped, those from there on have not. */
  ghost predicate Stopping(entries: seq<Entry>, i: nat) {
    && i <= |entries| && (forall k :: 0 <= k < i ==> entries[k].driver.None?)
    && forall k :: i <= k < |entries| ==> entries[k].listed
  }

  lemma StopsOne(s: State, i: nat)
    requires i < |s.entries| && Stopping(s.entries, i)
    ensures Stopping(StopEntry(s, i).entries, if s.entries[i].Busy() then i + 1 else i)
  {
    if s.entries[i].Busy() {
      assert StopEntry(s, i).entries == s.entries[i := s.entries[i].(listed := false, driver := None, seat := None)];
    } else {
      DroppedOnly(s, i);
    }
  }

  lemma {:induction false} StopsDrivers(s: State, i: nat)
    requires i <= |s.entries| && Stopping(s.entries, i)
    ensures forall e <- StopFrom(s, i).entries :: e.driver.None?
    decreases |s.entries| - i
  {
    if i < |s.entries| {
      StopFromStep(s, i);
      StopEntryFrame(s, i);
      StopsOne(s, i);
      StopsDrivers(StopEntry(s, i), if s.entries[i].Busy() then i + 1 else i);
    }
  }

  /** The pool's shutdown leaves every driver launched so far closed, exactly once,
      fetches at work or not. */
  lemma ClosedOnce(cfg: Config, s: State)
    requires Inv(cfg, s) && !s.driversStopped
    ensures ShutdownDrivers(s).closed == multiset(s.started)
  {
    ShutdownDriversKeeps(cfg, s);
    ShutdownEmpties(s);
    AllClosedBag(ShutdownDrivers(s));
  }

  lemma ShutdownEmpties(s: State)
    requires forall e <- s.entries :: e.listed
    ensures (forall e <- ShutdownDrivers(s).entries :: e.driver.None?) && ShutdownDrivers(s).started == s.started
  {
    StopsAll(s.(driversStopped := true), 0);
    StopsDrivers(s.(driversStopped := true), 0);
  }

  lemma AllClosedBag(s: State)
    requires DriversOk(s.entries, s.started, s.closed) && forall e <- s.entries :: e.driver.None?
    ensures s.closed == multiset(s.started)
  {
    TallyEmpty(s.entries);
  }

  // ----- what acquire hands out -----

  predicate SuitsSpare(active: map<nat, Fox>, p: Spare, proxy: Option<Proxy>, domain: Option<nat>) {
    && p.id in active && (proxy.Some? ==> active[p.id].proxy == proxy)
    && (domain.Some? ==> active[p.id].lastDomain == None || active[p.id].lastDomain == domain)
  }

  /** The first `i` spares have been looked at: none is stale, and none would
      have suited unless one was taken. */
  ghost predicate Seen(cfg: Config, s: State, i: nat, taken: Option<nat>, proxy: Option<Proxy>, domain: Option<nat>, now: int) {
    i <= |s.queue| && forall k :: 0 <= k < i ==>
      now - s.queue[k].since <= cfg.maxIdle && (taken.None? ==> !SuitsSpare(s.active, s.queue[k], proxy, domain))
  }

  /** `id` is parked in `s`, fresh, and suits. */
  predicate Choice(cfg: Config, s: State, id: nat, proxy: Option<Proxy>, domain: Option<nat>, now: int) {
    exists p <- s.queue :: p.id == id && now - p.since <= cfg.maxIdle && SuitsSpare(s.active, p, proxy, domain)
  }

  lemma LookRight(cfg: Config, s: State, i: nat, taken: Option<nat>, proxy: Option<Proxy>, domain: Option<nat>, now: int)
    requires FoxesOk(cfg, s.active, s.queue) && i < |s.queue| && Seen(cfg, s, i, taken, proxy, domain, now)
    ensures var (t, j, got) := Look(cfg, s, i, taken, proxy, domain, now);
      && FoxesOk(cfg, t.active, t.queue) && Seen(cfg, t, j, got, proxy, domain, now)
      && (taken.Some? ==> got == taken)
      && (taken.None? && got.Some? ==> Choice(cfg, s, got.value, proxy, domain, now))
      && (forall p <- t.queue :: p in s.queue)
      && (forall id <- t.active :: id in s.active && t.active[id] == s.active[id])
  {
    assert SpareOk(cfg, s.active, s.queue[i]);
    if Stale(cfg, s.queue[i], now) {
      ClosedRight(cfg, s, i, taken, proxy, domain, now);
    } else if taken.None? && Suits(s.active[s.queue[i].id], proxy, domain) {
      TakenRight(cfg, s, i, proxy, domain, now);
    }
  }

  lemma ClosedRight(cfg: Config, s: State, i: nat, taken: Option<nat>, proxy: Option<Proxy>, domain: Option<nat>, now: int)
    requires FoxesOk(cfg, s.active, s.queue) && i < |s.queue| && Seen(cfg, s, i, taken, proxy, domain, now)
    ensures var t := CloseSpare(s, i);
      && FoxesOk(cfg, t.active, t.queue) && Seen(cfg, t, i, taken, proxy, domain, now)
      && (forall p <- t.queue :: p in s.queue) && forall id <- t.active :: id in s.active && t.active[id] == s.active[id]
  {
    WithoutFoxes(cfg, s.active, s.queue, i);
    SpareGone(s, i);
  }

  lemma TakenRight(cfg: Config, s: State, i: nat, proxy: Option<Proxy>, domain: Option<nat>, now: int)
    requires FoxesOk(cfg, s.active, s.queue) && i < |s.queue| && Seen(cfg, s, i, None, proxy, domain, now)
    requires !Stale(cfg, s.queue[i], now) && SuitsSpare(s.active, s.queue[i], proxy, domain)
    ensures var t, id := Unpark(s, i), s.queue[i].id;
      && FoxesOk(cfg, t.active, t.queue) && Seen(cfg, t, i, Some(id), proxy, domain, now) && Choice(cfg, s, id, proxy, domain, now)
      && (forall p <- t.queue :: p in s.queue) && t.active == s.active
  {
    WithoutFoxes(cfg, s.active, s.queue, i);
    UnparkFrame(s, i);
    assert s.queue[i] in s.queue;
  }

  lemma UnparkFrame(s: State, i: nat)
    requires i < |s.queue|
    ensures Unpark(s, i).queue == Without(s.queue, i) && Unpark(s, i).active == s.active
  {
  }

  /** acquire hands out only a parked instance that is fresh and launched for the
      proxy asked for, never one that served another domain; it launches a new
      one only when no fresh spare suits; and it leaves no stale spare parked. */
  lemma {:induction false} PickRight(cfg: Config, s: State, i: nat, taken: Option<nat>, proxy: Option<Proxy>, domain: Option<nat>, now: int)
    requires FoxesOk(cfg, s.active, s.queue) && Seen(cfg, s, i, taken, proxy, domain, now)
    ensures var (t, got) := Pick(cfg, s, i, taken, proxy, domain, now);
      && Seen(cfg, t, |t.queue|, got, proxy, domain, now)
      && (taken.Some? ==> got == taken)
      && (taken.None? && got.Some? ==> Choice(cfg, s, got.value, proxy, domain, now))
    decreases |s.queue| - i
  {
    if i < |s.queue| {
      LookRight(cfg, s, i, taken, proxy, domain, now);
      var (t, j, got) := Look(cfg, s, i, taken, proxy, domain, now);
      PickRight(cfg, t, j, got, proxy, domain, now);
    }
  }

  // ----- what a tick gives back -----

  /** Seats are only given back, never taken. */
  ghost predicate Fewer(s: State, t: State) {
    forall lease <- t.kept :: lease in s.kept && t.kept[lease] == s.kept[lease]
  }

  lemma GiveBackFewer(s: State, seat: Option<nat>)
    ensures Fewer(s, GiveBack(s, seat)) && (seat.Some? ==> seat.value !in GiveBack(s, seat).kept)
  {
  }

  lemma CloseSpareFewer(s: State, i: nat)
    requires i < |s.queue|
    ensures Fewer(s, CloseSpare(s, i)) && CloseSpare(s, i).driversStopped == s.driversStopped
    ensures s.queue[i].seat.Some? ==> s.queue[i].seat.value !in CloseSpare(s, i).kept
  {
    var u := s.(queue := Without(s.queue, i));
    GiveBackFewer(u, s.queue[i].seat);
    GiveBackFrame(u, s.queue[i].seat);
    assert CloseSpare(s, i).kept == GiveBack(u, s.queue[i].seat).kept;
  }

  lemma DroppedFewer(s: State, i: nat)
    requires i < |s.entries|
    ensures Fewer(s, Dropped(s, i)) && Dropped(s, i).driversStopped == s.driversStopped
    ensures s.entries[i].seat.Some? ==> s.entries[i].seat.value !in Dropped(s, i).kept
  {
    GiveBackFewer(s.(entries := Without(s.entries, i)), s.entries[i].seat);
    DroppedIs(s, i);
    DroppedOnly(s, i);
  }

  /** Reclaiming closes one browser at most, the one that keeps the seat asked for. */
  lemma ReclaimIs(s: State, seat: Option<nat>)
    ensures var (t, done) := Reclaim(s, seat);
      || (done && exists i :: 0 <= i < |s.queue| && t == CloseSpare(s, i) && (seat.Some? ==> s.queue[i].seat == seat))
      || (done && exists i :: 0 <= i < |s.entries| && t == Dropped(s, i) && (seat.Some? ==> s.entries[i].seat == seat))
      || (!done && t == s)
  {
    ReclaimCases(s, seat);
    var i := SpareFor(s, seat);
    assert i < |s.queue| && seat.Some? ==> s.queue[i].seat == seat;
  }

  lemma ReclaimFewer(s: State, seat: Option<nat>)
    ensures var (t, done) := Reclaim(s, seat);
      Fewer(s, t) && t.driversStopped == s.driversStopped && (done && seat.Some? ==> seat.value !in t.kept)
  {
    ReclaimIs(s, seat);
    var (t, done) := Reclaim(s, seat);
    if done {
      if i :| 0 <= i < |s.queue| && t == CloseSpare(s, i) && (seat.Some? ==> s.queue[i].seat == seat) {
        CloseSpareFewer(s, i);
      } else {
        var i :| 0 <= i < |s.entries| && t == Dropped(s, i) && (seat.Some? ==> s.entries[i].seat == seat);
        DroppedFewer(s, i);
      }
    }
  }

  lemma ReclaimGives(cfg: Config, s: State, lease: nat)
    requires Inv(cfg, s) && !s.driversStopped
    ensures lease !in Reclaim(s, Some(lease)).0.kept
  {
    ReclaimFewer(s, Some(lease));
    if lease in s.kept { ReclaimFinds(cfg, s, lease); }
  }

  lemma {:induction false} ReclaimAllGives(cfg: Config, s: State, leases: seq<nat>)
    requires Inv(cfg, s) && !s.driversStopped
    ensures Fewer(s, ReclaimAll(s, leases)) && forall x <- leases :: x !in ReclaimAll(s, leases).kept
    decreases |leases|
  {
    if leases != [] {
      var t := Reclaim(s, Some(leases[0])).0;
      ReclaimKeeps(cfg, s, Some(leases[0]));
      ReclaimFewer(s, Some(leases[0]));
      ReclaimGives(cfg, s, leases[0]);
      ReclaimAllGives(cfg, t, leases[1..]);
      GivenOnward(s, t, ReclaimAll(t, leases[1..]), leases);
    }
  }

  lemma GivenOnward(s: State, t: State, u: State, leases: seq<nat>)
    requires leases != [] && Fewer(s, t) && Fewer(t, u) && leases[0] !in t.kept && forall x <- leases[1..] :: x !in u.kept
    ensures Fewer(s, u) && forall x <- leases :: x !in u.kept
  {
    assert leases == [leases[0]] + leases[1..];
  }

  lemma {:induction false} YieldFewer(s: State, n: nat)
    ensures Fewer(s, Yield(s, n))
    decreases n
  {
    if n > 0 && Reclaim(s, None).1 {
      ReclaimFewer(s, None);
      YieldFewer(Reclaim(s, None).0, n - 1);
    }
  }

  lemma {:induction false} OverheldListed(cfg: Config, s: State, order: seq<nat>, now: int)
    ensures forall x <- order :: Overheld(cfg, s, x, now) ==> x in OverheldIn(cfg, s, order, now)
    decreases |order|
  {
    if order != [] {
      OverheldListed(cfg, s, order[1..], now);
      assert order == [order[0]] + order[1..];
    }
  }

  /** After a tick's second half no seat has idled past its limit. */
  lemma HandBackLeaves(cfg: Config, s: State, order: seq<nat>, now: int, waiters: nat)
    requires Inv(cfg, s) && !s.driversStopped && forall lease <- s.kept :: lease in order
    ensures var t := HandBack(cfg, s, OverheldIn(cfg, s, order, now), now, waiters);
      Fewer(s, t) && forall lease <- t.kept :: now - t.kept[lease].idleSince < cfg.idleSeat
  {
    var overheld := OverheldIn(cfg, s, order, now);
    var u := ReclaimAll(s, overheld);
    ReclaimAllGives(cfg, s, overheld);
    OverheldListed(cfg, s, order, now);
    YieldFewer(u, Min(IdleSeats(cfg, u.kept, now), waiters));
  }

  /** Seat `lease`, if still kept, is the host's to count and freshly renewed. */
  predicate Fresh(cfg: Config, s: State, lease: nat, now: int) {
    lease in s.kept ==> now - s.kept[lease].lastRenew < cfg.renewEvery
  }

  lemma RenewOneFresh(cfg: Config, s: State, lease: nat, now: int)
    requires cfg.renewEvery > 0
    ensures var t := RenewOne(cfg, s, lease, now);
      && Fresh(cfg, t, lease, now) && t.driversStopped == s.driversStopped
      && (forall x <- t.kept :: x in s.kept && t.kept[x].idleSince == s.kept[x].idleSince && (Fresh(cfg, s, x, now) ==> Fresh(cfg, t, x, now)))
  {
    RenewOneIs(cfg, s, lease, now);
    ReclaimFewer(s.(kept := s.kept - {lease}), Some(lease));
  }

  lemma RenewOneIs(cfg: Config, s: State, lease: nat, now: int)
    ensures RenewOne(cfg, s, lease, now) ==
      if lease !in s.kept || now - s.kept[lease].lastRenew < cfg.renewEvery then s
      else if lease in s.live then s.(kept := s.kept[lease := Kept(s.kept[lease].idleSince, now)])
      else Reclaim(s.(kept := s.kept - {lease}), Some(lease)).0
  {
  }

  lemma {:induction false} RenewAllFresh(cfg: Config, s: State, order: seq<nat>, now: int)
    requires cfg.renewEvery > 0
    ensures var t := RenewAll(cfg, s, order, now);
      && (forall x <- order :: Fresh(cfg, t, x, now)) && t.driversStopped == s.driversStopped
      && (forall x <- t.kept :: x in s.kept && (Fresh(cfg, s, x, now) ==> Fresh(cfg, t, x, now)))
    decreases |order|
  {
    if order != [] {
      RenewOneFresh(cfg, s, order[0], now);
      RenewAllFresh(cfg, RenewOne(cfg, s, order[0], now), order[1..], now);
      assert order == [order[0]] + order[1..];
    }
  }

  /** After a tick every seat still kept was renewed within the interval and has
      not idled past its limit: the others went back. (Once the Botasaurus pool has
      stopped, a driver its fetch parked is out of the keeper's reach.) */
  lemma TickLeaves(cfg: Config, s: State, order: seq<nat>, now: int, waiters: nat)
    requires Inv(cfg, s) && !s.driversStopped && multiset(order) == multiset(s.kept.Keys) && cfg.renewEvery > 0
    ensures var t := Tick(cfg, s, order, now, waiters);
      forall lease <- t.kept :: lease in s.kept
        && now - t.kept[lease].lastRenew < cfg.renewEvery && now - t.kept[lease].idleSince < cfg.idleSeat
  {
    var u := RenewAll(cfg, s, order, now);
    RenewAllKeeps(cfg, s, order, now);
    RenewAllFresh(cfg, s, order, now);
    forall lease <- u.kept ensures lease in order {
      assert lease in multiset(s.kept.Keys);
      assert lease in multiset(order);
    }
    HandBackLeaves(cfg, u, order, now, waiters);
  }
}
