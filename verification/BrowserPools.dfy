/** The pools, the permit line and the seat keeper of one worker process as they
    run: loops over mutable state, proved against the functions of `Browsers`.
    The source spreads these fields over the budget module and three objects;
    they change together, so one class holds them. */
module BrowserPools {
  import opened Basics
  import opened Tallies
  import opened Browsers
  import BrowserReuse

  /** Closing one instance and giving its seat back leave the queue alone. */
  lemma QueueApart(s: State, q: seq<Spare>, seat: Option<nat>, id: nat)
    ensures GiveBack(s.(queue := q), seat) == GiveBack(s, seat).(queue := q)
    ensures CloseFox(GiveBack(s.(queue := q), seat), id) == CloseFox(GiveBack(s, seat), id).(queue := q)
  {
    ExitApart(GiveBack(s, seat), q, id);
  }

  lemma ExitApart(s: State, q: seq<Spare>, id: nat)
    ensures CloseFox(s.(queue := q), id) == CloseFox(s, id).(queue := q)
  {
  }

  /** acquire's look at a spare, written around the queue that holds it. */
  lemma LookCases(cfg: Config, s: State, item: Spare, keep: seq<Spare>, rest: seq<Spare>, taken: Option<nat>, proxy: Option<Proxy>, domain: Option<nat>, now: int)
    ensures var full, short := s.(queue := keep + [item] + rest), s.(queue := keep + rest);
      Look(cfg, full, |keep|, taken, proxy, domain, now)
        == if now - item.since > cfg.maxIdle then (CloseFox(GiveBack(short, item.seat), item.id), |keep|, taken)
           else if taken.None? && item.id in s.active && Suits(s.active[item.id], proxy, domain) then
             (GiveBack(short, item.seat), |keep|, Some(item.id))
           else (full, |keep| + 1, taken)
  {
    var q := keep + [item] + rest;
    assert q[|keep|] == item && Without(q, |keep|) == keep + rest;
  }

  lemma HandOn(keep: seq<Spare>, drained: seq<Spare>, k: nat)
    requires k < |drained|
    ensures keep + drained[k..] == keep + [drained[k]] + drained[k + 1..]
  {
  }

  lemma PickEnd(cfg: Config, s: State, keep: seq<Spare>, drained: seq<Spare>, taken: Option<nat>, proxy: Option<Proxy>, domain: Option<nat>, now: int)
    ensures Pick(cfg, s.(queue := keep + drained[|drained|..]), |keep|, taken, proxy, domain, now) == (s.(queue := keep), taken)
  {
    assert keep + drained[|drained|..] == keep;
  }

  lemma FreePermitFrame(s: State, id: nat)
    ensures var t := FreePermit(s, id); t == s.(fetching := t.fetching, free := t.free)
  {
  }

  /** Taking a seat over and giving the permit back do not touch each other. */
  lemma RetainApart(s: State, r: nat, id: nat, now: int)
    ensures Retainable(s, r) <==> Retainable(FreePermit(s, id), r)
    ensures Retainable(s, r) ==> FreePermit(Retain(s, r, now), id) == Retain(FreePermit(s, id), r, now)
  {
  }

  lemma ReclaimedStep(s: State)
    ensures Reclaimed(s) == if Locked(s) && !s.poolStopped && s.queue != [] then Reclaimed(CloseSpare(s, 0)) else s
  {
  }

  lemma NoneListed(active: map<nat, Fox>)
    requires Listed(active) == {}
    ensures Unlisted(active) == active
  {
    forall id <- active ensures !active[id].listed { assert id !in Listed(active); }
  }

  class Process {
    var free: nat
    var waiting: seq<Launch>
    var active: map<nat, Fox>
    var queue: seq<Spare>
    var entries: seq<Entry>
    var fetching: set<nat>
    var started: set<nat>
    var closed: multiset<nat>
    var claims: map<nat, Claim>
    var kept: map<nat, Kept>
    var live: set<nat>
    var poolStopped: bool
    var driversStopped: bool
    var keeperStopped: bool

    constructor (cfg: Config)
      ensures Abs() == State(cfg.ceiling, [], map[], [], [], {}, {}, multiset{}, map[], map[], {}, false, false, false)
    {
      free, waiting, active, queue, entries := cfg.ceiling, [], map[], [], [];
      fetching, started, closed, claims, kept, live := {}, {}, multiset{}, map[], map[], {};
      poolStopped, driversStopped, keeperStopped := false, false, false;
    }

    ghost function Abs(): State
      reads this
    {
      State(free, waiting, active, queue, entries, fetching, started, closed, claims, kept, live, poolStopped, driversStopped, keeperStopped)
    }

    // ----- seats -----

    method DiscardSeat(seat: Option<nat>)
      modifies this`kept, this`live
      ensures Abs() == GiveBack(old(Abs()), seat)
    {
      if seat.Some? && seat.value in kept {
        kept := kept - {seat.value};
        live := live - {seat.value};
      }
    }

    method RetainSeat(r: nat, now: int) returns (seat: Option<nat>)
      modifies this`kept, this`claims
      ensures seat.Some? <==> Retainable(old(Abs()), r)
      ensures seat.None? ==> Abs() == old(Abs())
      ensures seat.Some? ==> Abs() == Retain(old(Abs()), r, now) && seat.value == claims[r].lease
    {
      if r !in claims || claims[r].retained { return None; }
      var lease := claims[r].lease;
      claims := claims[r := Claim(lease, true)];
      kept := kept[lease := Kept(now, now)];
      return Some(lease);
    }

    // ----- permits -----

    /** CamoufoxWrapper.__aexit__, once off the list. */
    method ExitFox(id: nat)
      modifies this`active, this`free
      ensures Abs() == CloseFox(old(Abs()), id)
    {
      if id in active {
        active := active - {id};
        free := free + 1;
      }
    }

    method EvictOldest() returns (done: bool)
      modifies this
      ensures done <==> old(queue) != []
      ensures Abs() == if old(queue) != [] then CloseSpare(old(Abs()), 0) else old(Abs())
    {
      if queue == [] { return false; }
      var item := queue[0];
      assert Without(queue, 0) == queue[1..];
      queue := queue[1..];
      DiscardSeat(item.seat);
      ExitFox(item.id);
      return true;
    }

    /** acquire_browser_permit: true when the permit is taken at once. */
    method TakePermit(who: Launch) returns (taken: bool)
      modifies this
      ensures Abs() == AskPermit(old(Abs()), who)
      ensures taken <==> !Locked(Reclaimed(old(Abs())))
    {
      while (free == 0 || waiting != []) && !poolStopped && queue != []
        invariant Reclaimed(Abs()) == Reclaimed(old(Abs()))
        decreases |queue|
      {
        ReclaimedStep(Abs());
        var _ := EvictOldest();
      }
      ReclaimedStep(Abs());
      taken := TakeIfFree(who);
    }

    method TakeIfFree(who: Launch) returns (taken: bool)
      modifies this
      ensures Abs() == TakeOrWait(old(Abs()), who)
      ensures taken <==> !Locked(old(Abs()))
    {
      if free == 0 || waiting != [] {
        waiting := waiting + [who];
        return false;
      }
      free := free - 1;
      Give(who);
      return true;
    }

    method Give(who: Launch)
      modifies this`active, this`fetching
      ensures Abs() == Grant(old(Abs()), who)
    {
      match who {
        case OfFox(id) => if id in active { active := active[id := active[id].(phase := Launching)]; }
        case OfEntry(id) => fetching := fetching + {id};
      }
    }

    method WakeHead()
      modifies this
      ensures Abs() == Wake(old(Abs()))
    {
      if free > 0 && waiting != [] {
        var who := waiting[0];
        free, waiting := free - 1, waiting[1..];
        Give(who);
      }
    }

    // ----- claims -----

    method StartClaim(r: nat, lease: nat)
      modifies this`claims, this`live
      ensures Abs() == BeginClaim(old(Abs()), r, lease)
    {
      claims, live := claims[r := Claim(lease, false)], live + {lease};
    }

    /** The end of a claim block: RELEASE, or RELEASE_SLOT when the seat is kept. */
    method FinishClaim(r: nat)
      modifies this`claims, this`live
      ensures Abs() == EndClaim(old(Abs()), r)
    {
      if r !in claims { return; }
      if !claims[r].retained {
        live := live - {claims[r].lease};
      }
      claims := claims - {r};
    }

    // ----- the Camoufox pool -----

    /** A launch that raised: cancelled in line, or failed with its permit. */
    method FailLaunch(id: nat)
      modifies this
      ensures Abs() == LaunchFails(old(Abs()), id)
    {
      if id !in active { return; }
      if active[id].phase.Waiting? {
        active, waiting := active - {id}, Leave(waiting, OfFox(id));
      } else {
        ExitFox(id);
      }
    }

    /** A spare taken: the queue `q` without it, and its seat goes back. */
    method TakeSpare(item: Spare, ghost q: seq<Spare>)
      modifies this
      ensures Abs().(queue := q) == GiveBack(old(Abs()).(queue := q), item.seat)
      ensures queue == old(queue)
    {
      QueueApart(Abs(), q, item.seat, item.id);
      DiscardSeat(item.seat);
    }

    /** A spare in hand, the queue `q` without it: its seat goes back, it exits. */
    method CloseStale(item: Spare, ghost q: seq<Spare>)
      modifies this
      ensures Abs().(queue := q) == CloseFox(GiveBack(old(Abs()).(queue := q), item.seat), item.id)
      ensures queue == old(queue)
    {
      QueueApart(Abs(), q, item.seat, item.id);
      DiscardSeat(item.seat);
      ExitFox(item.id);
    }

    /** acquire's look at one drained spare: closed, taken, or put on `keep`.
        `rest` is what is still to be looked at. */
    method LookAt(cfg: Config, item: Spare, keep: seq<Spare>, ghost rest: seq<Spare>, taken: Option<nat>, proxy: Option<Proxy>, domain: Option<nat>, now: int)
      returns (kept': seq<Spare>, taken': Option<nat>)
      modifies this
      ensures var s := old(Abs()).(queue := keep + [item] + rest);
        Look(cfg, s, |keep|, taken, proxy, domain, now) == (Abs().(queue := kept' + rest), |kept'|, taken')
      ensures queue == old(queue)
    {
      LookCases(cfg, Abs(), item, keep, rest, taken, proxy, domain, now);
      kept', taken' := keep, taken;
      if now - item.since > cfg.maxIdle {
        CloseStale(item, keep + rest);
      } else if taken.None? && item.id in active && Suits(active[item.id], proxy, domain) {
        taken' := Some(item.id);
        TakeSpare(item, keep + rest);
      } else {
        kept' := keep + [item];
      }
    }

    /** The same, said of the whole pass. */
    method LookNext(cfg: Config, item: Spare, keep: seq<Spare>, ghost rest: seq<Spare>, taken: Option<nat>, proxy: Option<Proxy>, domain: Option<nat>, now: int)
      returns (kept': seq<Spare>, taken': Option<nat>)
      modifies this
      ensures Pick(cfg, old(Abs()).(queue := keep + [item] + rest), |keep|, taken, proxy, domain, now)
        == Pick(cfg, Abs().(queue := kept' + rest), |kept'|, taken', proxy, domain, now)
      ensures queue == old(queue)
    {
      BrowserReuse.PickStep(cfg, Abs().(queue := keep + [item] + rest), |keep|, taken, proxy, domain, now);
      kept', taken' := LookAt(cfg, item, keep, rest, taken, proxy, domain, now);
    }

    method LookAll(cfg: Config, drained: seq<Spare>, proxy: Option<Proxy>, domain: Option<nat>, now: int)
      returns (keep: seq<Spare>, taken: Option<nat>)
      modifies this
      ensures Pick(cfg, old(Abs()).(queue := drained), 0, None, proxy, domain, now) == (Abs().(queue := keep), taken)
    {
      keep, taken := [], None;
      assert [] + drained[0..] == drained;
      for k := 0 to |drained|
        invariant Pick(cfg, old(Abs()).(queue := drained), 0, None, proxy, domain, now)
          == Pick(cfg, Abs().(queue := keep + drained[k..]), |keep|, taken, proxy, domain, now)
      {
        HandOn(keep, drained, k);
        keep, taken := LookNext(cfg, drained[k], keep, drained[k + 1..], taken, proxy, domain, now);
      }
      PickEnd(cfg, Abs(), keep, drained, taken, proxy, domain, now);
    }

    /** The queue is drained, looked through, and what is not taken or closed is
        put back in order. */
    method Sift(cfg: Config, proxy: Option<Proxy>, domain: Option<nat>, now: int) returns (taken: Option<nat>)
      modifies this
      ensures (Abs(), taken) == Pick(cfg, old(Abs()), 0, None, proxy, domain, now)
    {
      var drained := queue;
      queue := [];
      assert Abs().(queue := drained) == old(Abs());
      var keep;
      keep, taken := LookAll(cfg, drained, proxy, domain, now);
      queue := keep;
    }

    /** BrowserPool.acquire. */
    method RunAcquire(cfg: Config, proxy: Option<Proxy>, domain: Option<nat>, now: int, id: nat)
      modifies this
      ensures Abs() == Acquire(cfg, old(Abs()), proxy, domain, now, id)
    {
      var taken := Sift(cfg, proxy, domain, now);
      if taken.None? {
        active := active[id := Fox(proxy, None, Waiting, true)];
        var _ := TakePermit(OfFox(id));
      }
    }

    /** BrowserPool.release, after lease has noted the domain. */
    method RunRelease(cfg: Config, r: nat, id: nat, healthy: bool, domain: Option<nat>, now: int)
      modifies this
      ensures Abs() == Release(cfg, old(Abs()), r, id, healthy, domain, now)
    {
      if id !in active || !active[id].listed { return; }
      if !healthy { ExitFox(id); return; }
      active := active[id := active[id].(lastDomain := domain)];
      var waits := waiting != [] && (free == 0 || waiting != []);
      var close := waits || !cfg.parkSpares || SingleUse(active[id]);
      var seat: Option<nat> := None;
      if !close && cfg.keeper {
        seat := RetainSeat(r, now);
        close := seat.None?;
      }
      if close { ExitFox(id); return; }
      queue := queue + [Spare(id, now, seat)];
    }

    /** BrowserPool._close_parked: drained and put back without the one found. */
    method RunCloseParked(seat: Option<nat>) returns (done: bool)
      modifies this
      ensures (Abs(), done) == CloseParked(old(Abs()), seat)
    {
      if seat.None? {
        done := EvictOldest();
        return;
      }
      ghost var all, at := queue, FindSpare(queue, seat.value);
      var drained := queue;
      var found: Option<Spare> := None;
      var keep: seq<Spare> := [];
      for k := 0 to |drained|
        invariant found.None? ==> k <= at && keep == all[..k]
        invariant found.Some? ==> at < k && found.value == all[at] && keep == all[..at] + all[at + 1..k]
      {
        if found.None? && drained[k].seat == seat {
          found := Some(drained[k]);
        } else {
          keep := keep + [drained[k]];
        }
      }
      queue := keep;
      assert all[..|all|] == all;
      if found.None? { return false; }
      assert keep == Without(all, at);
      DiscardSeat(found.value.seat);
      ExitFox(found.value.id);
      return true;
    }

    /** BrowserPool.shutdown. */
    method StopPool()
      modifies this
      ensures Abs() == ShutdownPool(old(Abs()))
    {
      poolStopped := true;
      ghost var start := Abs();
      while queue != []
        invariant Emptied(Abs()) == Emptied(start)
        decreases |queue|
      {
        var _ := EvictOldest();
      }
      ExitListed();
    }

    /** Every wrapper still listed exits; a launch under way goes on unlisted. */
    method ExitListed()
      modifies this`active, this`free
      ensures Abs() == Cleared(old(Abs()))
    {
      var left := Listed(active);
      while left != {}
        invariant left <= Listed(old(active)) && Unlisted(active) == Unlisted(old(active)) && Listed(active) == left
        invariant free + |left| == old(free) + |Listed(old(active))|
        decreases |left|
      {
        var id :| id in left;
        left := left - {id};
        if active[id].phase.Up? {
          active := active - {id};
        } else {
          active := active[id := active[id].(listed := false)];
        }
        free := free + 1;
      }
      NoneListed(active);
    }

    // ----- the Botasaurus pool -----

    method CloseOff(e: Entry)
      modifies this`kept, this`live, this`closed
      ensures Abs() == CloseEntry(old(Abs()), e)
    {
      DiscardSeat(e.seat);
      if e.driver.Some? {
        closed := closed + multiset{e.driver.value.id};
      }
    }

    /** min(idle, key=last_used) over the entries that may be closed. */
    method FindOldest(seat: Option<nat>) returns (i: nat)
      ensures i == Oldest(entries, seat)
    {
      var best: Option<nat> := None;
      for k := 0 to |entries|
        invariant best == if Oldest(entries[..k], seat) < k then Some(Oldest(entries[..k], seat)) else None
      {
        assert entries[..k + 1][..k] == entries[..k];
        if Closable(entries[k], seat) && (best.None? || entries[k].lastUsed < entries[best.value].lastUsed) {
          best := Some(k);
        }
      }
      assert entries[..|entries|] == entries;
      return if best.Some? then best.value else |entries|;
    }

    method FindIdle(key: nat, domain: nat) returns (i: nat)
      ensures i == FirstIdle(entries, key, domain)
    {
      i := 0;
      while i < |entries| && (!entries[i].listed || entries[i].Busy() || entries[i].key != key || entries[i].domain != domain)
        invariant i <= FirstIdle(entries, key, domain)
      {
        i := i + 1;
      }
    }

    method FindEntry(id: nat) returns (i: nat)
      ensures i == Place(entries, id)
    {
      i := 0;
      while i < |entries| && entries[i].id != id
        invariant i <= Place(entries, id)
      {
        i := i + 1;
      }
    }

    /** len of the pool's list: entries off it are only their fetches' still. */
    method CountListed() returns (n: nat)
      ensures n == OnList(entries)
    {
      n := 0;
      for k := 0 to |entries|
        invariant n == OnList(entries[..k])
      {
        assert entries[..k + 1][..k] == entries[..k];
        if entries[k].listed { n := n + 1; }
      }
      assert entries[..|entries|] == entries;
    }

    /** _checkout; false when the fetch has to wait. */
    method RunCheckout(cfg: Config, want: Want, id: nat) returns (served: bool)
      modifies this
      ensures Abs() == Checkout(cfg, old(Abs()), want, id)
      ensures !served ==> Abs() == old(Abs()) && OnList(entries) >= cfg.maxDrivers && forall e <- entries :: e.listed ==> e.Busy()
    {
      var i := FindIdle(want.key, want.domain);
      if i < |entries| {
        var seat := entries[i].seat;
        entries := entries[i := entries[i].(user := Some(want), seat := None)];
        DiscardSeat(seat);
        return true;
      }
      var added := Entry(id, want.key, want.domain, Some(want), 0, None, None, true);
      var listed := CountListed();
      if listed < cfg.maxDrivers {
        entries := entries + [added];
        return true;
      }
      i := FindOldest(None);
      if i == |entries| {
        assert forall e <- entries :: !Closable(e, None);
        return false;
      }
      var evicted := entries[i];
      entries := Without(entries, i) + [added];
      CloseOff(evicted);
      return true;
    }

    method RunLaunch(id: nat, driver: nat)
      modifies this`entries, this`started
      ensures Abs() == LaunchDriver(old(Abs()), id, driver)
    {
      var i := FindEntry(id);
      if i < |entries| && entries[i].driver.None? {
        entries := entries[i := entries[i].(driver := Some(Driver(driver, entries[i].key, entries[i].domain)))];
        started := started + {driver};
      }
    }

    method RunDiscard(id: nat)
      modifies this
      ensures Abs() == Discard(old(Abs()), id)
    {
      var i := FindEntry(id);
      if i < |entries| {
        var e := entries[i];
        entries := Without(entries, i);
        CloseOff(e);
      }
    }

    method RunFreePermit(id: nat)
      modifies this`fetching, this`free
      ensures Abs() == FreePermit(old(Abs()), id)
    {
      if id in fetching {
        fetching, free := fetching - {id}, free + 1;
      }
    }

    /** A fetch that raised. */
    method FailFetch(id: nat)
      modifies this
      ensures Abs() == FetchFails(old(Abs()), id)
    {
      waiting := Leave(waiting, OfEntry(id));
      RunFreePermit(id);
      RunDiscard(id);
    }

    /** The end of fetch: about:blank, the seat, the permit, then check-in or
        discard. */
    method RunFetchDone(cfg: Config, r: nat, id: nat, reusable: bool, blank: bool, now: int)
      modifies this
      ensures Abs() == FetchDone(cfg, old(Abs()), r, id, reusable, blank, now)
    {
      var i := FindEntry(id);
      FreePermitFrame(Abs(), id);
      if i == |entries| {
        RunFreePermit(id);
      } else if cfg.parkDrivers && reusable && blank && entries[i].driver.Some? {
        RunCheckin(cfg, r, i, now);
      } else {
        RunFreePermit(id);
        RunDiscard(id);
      }
    }

    /** Entry `i` parked with the render's seat, if it has one to give; then its
        permit goes back. */
    method RunCheckin(cfg: Config, r: nat, i: nat, now: int)
      requires i < |entries| && i == Place(entries, entries[i].id)
      modifies this
      ensures var s := FreePermit(old(Abs()), old(entries[i].id));
        Abs() == if cfg.keeper && !Retainable(s, r) then Discard(s, old(entries[i].id)) else Checkin(cfg, s, i, r, now)
    {
      var id, seat := entries[i].id, entries[i].seat;
      FreePermitFrame(Abs(), id);
      if cfg.keeper {
        RetainApart(Abs(), r, id, now);
        seat := RetainSeat(r, now);
        RunFreePermit(id);
        if seat.None? { RunDiscard(id); return; }
      } else {
        RunFreePermit(id);
      }
      entries := entries[i := entries[i].(user := None, lastUsed := now, seat := seat)];
    }

    method RunCloseIdle(seat: Option<nat>) returns (done: bool)
      modifies this
      ensures (Abs(), done) == CloseIdle(old(Abs()), seat)
    {
      var i := FindOldest(seat);
      if i == |entries| { return false; }
      var e := entries[i];
      entries := Without(entries, i);
      CloseOff(e);
      return true;
    }

    method StopDrivers()
      modifies this
      ensures Abs() == ShutdownDrivers(old(Abs()))
    {
      driversStopped := true;
      ghost var start := Abs();
      var i := 0;
      while i < |entries|
        invariant i <= |entries| && StopFrom(Abs(), i) == StopFrom(start, 0)
        decreases |entries| - i
      {
        i := StopAt(i);
      }
    }

    /** One entry of the stopped list closed; the place to go on from. */
    method StopAt(i: nat) returns (next: nat)
      requires i < |entries|
      modifies this`entries, this`kept, this`live, this`closed
      ensures Abs() == StopEntry(old(Abs()), i)
      ensures next == if old(entries[i].listed && !entries[i].Busy()) then i else i + 1
      ensures next <= |entries| && |entries| - next < old(|entries|) - i
    {
      var e := entries[i];
      if !e.listed { return i + 1; }
      if e.Busy() {
        entries := entries[i := e.(listed := false, driver := None, seat := None)];
        CloseOff(e);
        return i + 1;
      }
      entries := Without(entries, i);
      CloseOff(e);
      return i;
    }

    // ----- the seat keeper -----

    method RunReclaim(seat: Option<nat>) returns (done: bool)
      modifies this
      ensures (Abs(), done) == Reclaim(old(Abs()), seat)
    {
      done := RunCloseParked(seat);
      if !done { done := RunCloseIdle(seat); }
    }

    method RunTick(cfg: Config, order: seq<nat>, now: int, waiters: nat)
      modifies this
      ensures Abs() == Tick(cfg, old(Abs()), order, now, waiters)
    {
      for k := 0 to |order|
        invariant RenewAll(cfg, Abs(), order[k..], now) == RenewAll(cfg, old(Abs()), order, now)
      {
        assert order[k..][1..] == order[k + 1..];
        RunRenewOne(cfg, order[k], now);
      }
      var overheld := FindOverheld(cfg, order, now);
      RunHandBack(cfg, overheld, now, waiters);
    }

    method RunRenewOne(cfg: Config, lease: nat, now: int)
      modifies this
      ensures Abs() == RenewOne(cfg, old(Abs()), lease, now)
    {
      if lease in kept && now - kept[lease].lastRenew >= cfg.renewEvery {
        if lease in live {
          kept := kept[lease := kept[lease].(lastRenew := now)];
        } else {
          kept := kept - {lease};
          var _ := RunReclaim(Some(lease));
        }
      }
    }

    method FindOverheld(cfg: Config, order: seq<nat>, now: int) returns (overheld: seq<nat>)
      ensures overheld == OverheldIn(cfg, Abs(), order, now)
    {
      overheld := [];
      for k := 0 to |order|
        invariant overheld + OverheldIn(cfg, Abs(), order[k..], now) == OverheldIn(cfg, Abs(), order, now)
      {
        assert order[k..][1..] == order[k + 1..];
        if order[k] in kept && now - kept[order[k]].idleSince >= cfg.idleSeat {
          overheld := overheld + [order[k]];
        }
      }
    }

    method RunHandBack(cfg: Config, overheld: seq<nat>, now: int, waiters: nat)
      modifies this
      ensures Abs() == HandBack(cfg, old(Abs()), overheld, now, waiters)
    {
      for k := 0 to |overheld|
        invariant ReclaimAll(Abs(), overheld[k..]) == ReclaimAll(old(Abs()), overheld)
      {
        assert overheld[k..][1..] == overheld[k + 1..];
        var _ := RunReclaim(Some(overheld[k]));
      }
      if overheld == [] && kept != map[] {
        RunYield(Min(IdleSeats(cfg, kept, now), waiters));
      }
    }

    method RunYield(n: nat)
      modifies this
      ensures Abs() == Yield(old(Abs()), n)
    {
      var left := n;
      while left > 0
        invariant Yield(Abs(), left) == Yield(old(Abs()), n)
      {
        var done := RunReclaim(None);
        if !done { return; }
        left := left - 1;
      }
    }

    method StopKeeper()
      modifies this`kept, this`live, this`keeperStopped
      ensures Abs() == ShutdownKeeper(old(Abs()))
    {
      keeperStopped := true;
      live := live - kept.Keys;
      kept := map[];
    }
  }
}
