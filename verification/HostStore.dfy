/** The scripts as they run: loops over the store's keys. Every method leaves
    the store exactly as the matching function of `Host` says. */
module HostStore {
  import opened Basics
  import opened Sums
  import opened Host

  ghost function At(m: map<string, real>, t: string): real {
    if t in m then m[t] else 0.0
  }

  /** The weight `tenant` holds through the leases in `seen`. */
  ghost function UseOf(s: State, seen: set<nat>, tenant: string): real {
    Total(Part(s.seatWeight, seen * HeldBy(s, tenant)))
  }

  lemma UseAdd(s: State, seen: set<nat>, l: nat, t: string)
    requires l in s.seatWeight && l !in seen
    ensures UseOf(s, seen + {l}, t) == UseOf(s, seen, t) + if TenantOf(s, l) == t then s.seatWeight[l] else 0.0
  {
    if TenantOf(s, l) == t {
      PartAdd(s.seatWeight, seen * HeldBy(s, t), l);
      assert (seen + {l}) * HeldBy(s, t) == seen * HeldBy(s, t) + {l};
    } else {
      assert (seen + {l}) * HeldBy(s, t) == seen * HeldBy(s, t);
    }
  }

  lemma TenantAside(s: State, sim: Sim, i: Info, tenantUse: map<string, real>, t: string)
    requires At(tenantUse, i.site.tenant) == SimTenant(s, sim, i.site.tenant) && At(tenantUse, t) == SimTenant(s, sim, t)
    ensures At(tenantUse[i.site.tenant := At(tenantUse, i.site.tenant) + i.weight], t) == SimTenant(s, Reserve(s, sim, i), t)
  {
  }

  class Store {
    var now: nat
    var seats: map<nat, int>
    var seatWeight: map<nat, real>
    var seatTenant: map<nat, string>
    var waiters: map<nat, int>
    var waiterExp: map<nat, int>
    var waiterInfo: map<nat, Info>
    var target: Option<real>
    var turns: map<Site, Turns>
    var delays: map<Site, Delay>

    function Abs(): State
      reads this
    {
      State(now, seats, seatWeight, seatTenant, waiters, waiterExp, waiterInfo, target, turns, delays)
    }

    constructor ()
      ensures Abs() == State(0, map[], map[], map[], map[], map[], map[], None, map[], map[])
    {
      now, seats, seatWeight, seatTenant := 0, map[], map[], map[];
      waiters, waiterExp, waiterInfo := map[], map[], map[];
      target, turns, delays := None, map[], map[];
    }

    // ----- CLAIM -----

    method PurgeSeats()
      modifies this`seats, this`seatWeight, this`seatTenant
      ensures seats == old(seats) - Lapsed(old(seats), now)
      ensures seatWeight == old(seatWeight) - Lapsed(old(seats), now)
      ensures seatTenant == old(seatTenant) - Lapsed(old(seats), now)
    {
      var all := Lapsed(seats, now);
      var dead := all;
      while dead != {}
        invariant dead <= all
        invariant seats == old(seats) - (all - dead)
        invariant seatWeight == old(seatWeight) - (all - dead)
        invariant seatTenant == old(seatTenant) - (all - dead)
      {
        var l :| l in dead;
        assert all - (dead - {l}) == (all - dead) + {l};
        seats, seatWeight, seatTenant := seats - {l}, seatWeight - {l}, seatTenant - {l};
        dead := dead - {l};
      }
      assert all - dead == all;
    }

    method PurgeWaiters()
      modifies this`waiters, this`waiterExp, this`waiterInfo
      ensures waiters == old(waiters) - Lapsed(old(waiterExp), now)
      ensures waiterExp == old(waiterExp) - Lapsed(old(waiterExp), now)
      ensures waiterInfo == old(waiterInfo) - Lapsed(old(waiterExp), now)
    {
      var all := Lapsed(waiterExp, now);
      var gone := all;
      while gone != {}
        invariant gone <= all
        invariant waiters == old(waiters) - (all - gone)
        invariant waiterExp == old(waiterExp) - (all - gone)
        invariant waiterInfo == old(waiterInfo) - (all - gone)
      {
        var w :| w in gone;
        assert all - (gone - {w}) == (all - gone) + {w};
        waiters, waiterExp, waiterInfo := waiters - {w}, waiterExp - {w}, waiterInfo - {w};
        gone := gone - {w};
      }
      assert all - gone == all;
    }

    /** HGETALL seat_weight, summed in total and per tenant. */
    method SumHeld() returns (inUse: real, tenantUse: map<string, real>)
      ensures inUse == Total(seatWeight)
      ensures forall t :: At(tenantUse, t) == TenantUse(Abs(), t)
    {
      inUse, tenantUse := 0.0, map[];
      ghost var s := Abs();
      ghost var seen: set<nat> := {};
      var rest := seatWeight.Keys;
      PartNone(seatWeight, {});
      assert forall t :: {} * HeldBy(s, t) == {};
      while rest != {}
        invariant seen !! rest && seen + rest == seatWeight.Keys
        invariant inUse == Total(Part(seatWeight, seen))
        invariant forall t :: At(tenantUse, t) == UseOf(s, seen, t)
      {
        var l :| l in rest;
        var w, tn := seatWeight[l], TenantOf(Abs(), l);
        forall t { UseAdd(s, seen, l, t); }
        PartAdd(seatWeight, seen, l);
        inUse := inUse + w;
        tenantUse := tenantUse[tn := (if tn in tenantUse then tenantUse[tn] else 0.0) + w];
        rest, seen := rest - {l}, seen + {l};
      }
      assert forall t :: seen * HeldBy(s, t) == HeldBy(s, t);
      PartAll(seatWeight, seen);
    }

    method CountTenants(line: seq<nat>) returns (count: nat)
      requires forall w :: w in line <==> w in waiters
      ensures count == |Tenants(Abs())|
    {
      var tenants: set<string> := {};
      count := 0;
      for i := 0 to |line|
        invariant forall t :: t in tenants <==> exists j :: 0 <= j < i && line[j] in waiterInfo && waiterInfo[line[j]].site.tenant == t
        invariant count == |tenants|
      {
        var w := line[i];
        if w in waiterInfo {
          var t := waiterInfo[w].site.tenant;
          if t !in tenants {
            count := count + 1;
          }
          tenants := tenants + {t};
        }
      }
      assert tenants == Tenants(Abs());
    }

    method Slots(cache: map<Site, int>, k: Site) returns (n: int, after: map<Site, int>)
      ensures n == if k in cache then cache[k] else |LiveTurns(Abs(), k)|
      ensures after == cache[k := n]
    {
      if k in cache {
        n, after := cache[k], cache[k := cache[k]];
      } else {
        n := |LiveTurns(Abs(), k)|;
        after := cache[k := n];
      }
    }

    method Next(cache: map<Site, int>, k: Site) returns (n: int, after: map<Site, int>)
      ensures n == if k in cache then cache[k] else NextAt(Abs(), k)
      ensures after == cache[k := n]
    {
      if k in cache {
        n, after := cache[k], cache[k := cache[k]];
      } else {
        n := NextAt(Abs(), k);
        after := cache[k := n];
      }
    }

    /** The script's running figures agree with the simulated use `sim`. */
    ghost predicate Tracks(sim: Sim, simUse: real, tenantUse: map<string, real>, slotCount: map<Site, int>, nextAt: map<Site, int>)
      reads this
    {
      && simUse == sim.use
      && (forall t :: At(tenantUse, t) == SimTenant(Abs(), sim, t))
      && (forall k :: k in slotCount ==> slotCount[k] == SimSlots(Abs(), sim, k))
      && (forall k :: k in sim.slots ==> k in slotCount)
      && (forall k :: k in nextAt ==> nextAt[k] == SimNext(Abs(), sim, k))
      && (forall k :: k in sim.nextAt ==> k in nextAt)
    }

    /** One waiter's turn in the scan: the two store reads are cached. */
    method Judge(r: Rule, ghost sim: Sim, i: Info, simUse: real, tenantUse: map<string, real>,
                 slotCount: map<Site, int>, nextAt: map<Site, int>)
      returns (ok: bool, slotCount': map<Site, int>, nextAt': map<Site, int>)
      requires Tracks(sim, simUse, tenantUse, slotCount, nextAt)
      ensures ok == Fits(Abs(), r, sim, i)
      ensures Tracks(sim, simUse, tenantUse, slotCount', nextAt')
      ensures i.site in slotCount'
    {
      var n: int;
      n, slotCount' := Slots(slotCount, i.site);
      ok, nextAt' := n < i.cap, nextAt;
      if ok {
        var at: int;
        at, nextAt' := Next(nextAt, i.site);
        ok := at <= now;
      }
      if ok && simUse > 0.0 && simUse + i.weight > r.target {
        ok := false;
      }
      if ok && r.shared {
        assert At(tenantUse, i.site.tenant) == SimTenant(Abs(), sim, i.site.tenant);
        var tu := if i.site.tenant in tenantUse then tenantUse[i.site.tenant] else 0.0;
        if tu > 0.0 && tu + i.weight > r.shareCap as real {
          ok := false;
        }
      }
    }

    method SetAside(ghost sim: Sim, i: Info, simUse: real, tenantUse: map<string, real>,
                    slotCount: map<Site, int>, nextAt: map<Site, int>)
      returns (simUse': real, tenantUse': map<string, real>, slotCount': map<Site, int>, nextAt': map<Site, int>)
      requires Tracks(sim, simUse, tenantUse, slotCount, nextAt) && i.site in slotCount
      ensures Tracks(Reserve(Abs(), sim, i), simUse', tenantUse', slotCount', nextAt')
    {
      simUse' := simUse + i.weight;
      tenantUse' := tenantUse[i.site.tenant := (if i.site.tenant in tenantUse then tenantUse[i.site.tenant] else 0.0) + i.weight];
      slotCount' := slotCount[i.site := slotCount[i.site] + 1];
      nextAt' := if i.delayMs > 0 then nextAt[i.site := now + i.delayMs] else nextAt;
      ghost var sim' := Reserve(Abs(), sim, i);
      forall t ensures At(tenantUse', t) == SimTenant(Abs(), sim', t) {
        assert At(tenantUse, i.site.tenant) == SimTenant(Abs(), sim, i.site.tenant);
        assert At(tenantUse, t) == SimTenant(Abs(), sim, t);
        TenantAside(Abs(), sim, i, tenantUse, t);
      }
      forall k | k in slotCount' ensures slotCount'[k] == SimSlots(Abs(), sim', k) {
        assert slotCount[i.site] == SimSlots(Abs(), sim, i.site) && slotCount[k] == SimSlots(Abs(), sim, k);
      }
      forall k | k in nextAt' ensures nextAt'[k] == SimNext(Abs(), sim', k) {
        assert k in nextAt ==> nextAt[k] == SimNext(Abs(), sim, k);
      }
    }

    /** One waiter of the line: judged, and, unless it is the caller, its share
        set aside when it is eligible: it will take it on its next poll. */
    method Visit(r: Rule, ghost sim: Sim, w: nat, inf: Info, me: nat, simUse: real, tenantUse: map<string, real>,
                 slotCount: map<Site, int>, nextAt: map<Site, int>)
      returns (ok: bool, simUse': real, tenantUse': map<string, real>, slotCount': map<Site, int>, nextAt': map<Site, int>)
      requires Tracks(sim, simUse, tenantUse, slotCount, nextAt) && w in waiterInfo && waiterInfo[w] == inf
      ensures ok == Fits(Abs(), r, sim, inf)
      ensures w != me ==> Tracks(Pass(Abs(), r, sim, w), simUse', tenantUse', slotCount', nextAt')
    {
      simUse', tenantUse' := simUse, tenantUse;
      ok, slotCount', nextAt' := Judge(r, sim, inf, simUse, tenantUse, slotCount, nextAt);
      if w != me && ok {
        simUse', tenantUse', slotCount', nextAt' := SetAside(sim, inf, simUse, tenantUse, slotCount', nextAt');
      }
    }

    /** The scan down the line: is `me` let through? */
    method ScanLine(r: Rule, line: seq<nat>, me: nat, inUse: real, tenants: map<string, real>) returns (ok: bool)
      requires me in line && me in waiterInfo
      requires inUse == Total(seatWeight)
      requires forall t :: At(tenants, t) == TenantUse(Abs(), t)
      ensures ok == Fits(Abs(), r, Scan(Abs(), r, line[..IndexIn(line, me)]), waiterInfo[me])
    {
      var simUse, tenantUse := inUse, tenants;
      var slotCount: map<Site, int>, nextAt: map<Site, int> := map[], map[];
      ghost var k := IndexIn(line, me);
      var i := 0;
      while i < |line|
        invariant 0 <= i <= k
        invariant Tracks(Scan(Abs(), r, line[..i]), simUse, tenantUse, slotCount, nextAt)
      {
        var w := line[i];
        ghost var sim := Scan(Abs(), r, line[..i]);
        assert line[..i + 1][..i] == line[..i];
        if w in waiterInfo {
          var inf := waiterInfo[w];
          ok, simUse, tenantUse, slotCount, nextAt := Visit(r, sim, w, inf, me, simUse, tenantUse, slotCount, nextAt);
          if w == me {
            return ok;
          }
        }
        i := i + 1;
      }
      assert false;
    }

    /** The seat's three books. */
    method BookSeat(cfg: Config, c: Claim)
      modifies this`seats, this`seatWeight, this`seatTenant
      ensures Abs() == Booked(old(Abs()), cfg, c)
    {
      seats := seats[c.lease := now + cfg.leaseTtl];
      seatWeight := seatWeight[c.lease := c.info.weight];
      seatTenant := seatTenant[c.lease := c.info.site.tenant];
    }

    /** The website's slot, and its delay. */
    method BookTurn(cfg: Config, c: Claim)
      modifies this`turns, this`delays
      ensures Abs() == Paced(old(Abs()), cfg, c)
    {
      var inf := c.info;
      turns := Put(turns, now, inf.site, Lease(c.lease), now + cfg.leaseTtl, cfg.leaseTtl);
      if inf.delayMs > 0 {
        delays := delays[inf.site := Delay(now + inf.delayMs, now + Max(60000, inf.delayMs * 4))];
      }
    }

    /** The grant: seat, slot and delay together. */
    method TakeSeat(cfg: Config, c: Claim)
      modifies this
      ensures Abs() == Seat(old(Abs()), cfg, c)
    {
      SeatIs(Abs(), cfg, c);
      BookSeat(cfg, c);
      BookTurn(cfg, c);
      RunLeave(c.me);
    }

    method Enqueue(cfg: Config, c: Claim)
      modifies this`seats, this`seatWeight, this`seatTenant, this`waiters, this`waiterExp, this`waiterInfo
      ensures Abs() == Queue(old(Abs()), cfg, c)
    {
      PurgeSeats();
      PurgeWaiters();
      if c.me !in waiters {
        waiters := waiters[c.me := c.priority];
      }
      waiterExp := waiterExp[c.me := now + cfg.waiterTtl];
      waiterInfo := waiterInfo[c.me := c.info];
    }

    /** The part of CLAIM that only reads: may the caller be seated? */
    method Decide(cfg: Config, c: Claim) returns (ok: bool, inUse: real, goal: real, waiting: nat)
      requires c.me in waiters && c.me in waiterInfo
      ensures ok == Wins(Abs(), cfg, c.me)
      ensures inUse == Total(seatWeight) && goal == TargetOr(Abs(), cfg.defaultTarget) && waiting == |Line(waiters)|
    {
      var tenantUse;
      inUse, tenantUse := SumHeld();
      goal := cfg.defaultTarget;
      if target.Some? {
        goal := target.value;
      }
      var line := Line(waiters);
      LineSorted(waiters);
      var tenants := CountTenants(line);
      var r := Rule(goal, Max(1, Ceil(goal * cfg.share)), tenants > 1);
      assert r == RuleOf(Abs(), cfg);
      ok := ScanLine(r, line, c.me, inUse, tenantUse);
      waiting := |line|;
    }

    method RunClaim(cfg: Config, c: Claim) returns (reply: Reply)
      modifies this
      ensures Abs() == AfterClaim(old(Abs()), cfg, c)
      ensures reply == ClaimReply(old(Abs()), cfg, c)
    {
      Enqueue(cfg, c);
      var ok, inUse, goal, waiting := Decide(cfg, c);
      if !ok {
        return Reply(false, inUse, goal, waiting);
      }
      TakeSeat(cfg, c);
      return Reply(true, inUse + c.info.weight, goal, waiting - 1);
    }

    // ----- the lease's other scripts -----

    method RunRenew(cfg: Config, lease: nat, k: Site) returns (alive: bool)
      modifies this
      ensures Abs() == AfterRenew(old(Abs()), cfg, lease, k)
      ensures alive <==> lease in old(seats) && now < old(seats)[lease]
    {
      var expiresAt := if lease in seats then seats[lease] else 0;
      if expiresAt <= now {
        return false;
      }
      seats := seats[lease := now + cfg.leaseTtl];
      if Lease(lease) in Visible(turns, now, k) {
        turns := Put(turns, now, k, Lease(lease), now + cfg.leaseTtl, cfg.leaseTtl);
      }
      return true;
    }

    method RunRelease(lease: nat, k: Site)
      modifies this
      ensures Abs() == AfterRelease(old(Abs()), lease, k)
    {
      seats, seatWeight, seatTenant := seats - {lease}, seatWeight - {lease}, seatTenant - {lease};
      turns := Drop(turns, now, k, Lease(lease));
    }

    method RunReleaseSlot(lease: nat, k: Site)
      modifies this`turns
      ensures Abs() == DropTurn(old(Abs()), k, Lease(lease))
    {
      turns := Drop(turns, now, k, Lease(lease));
    }

    method RunLeave(w: nat)
      modifies this
      ensures Abs() == DropWaiter(old(Abs()), w)
    {
      waiters, waiterExp, waiterInfo := waiters - {w}, waiterExp - {w}, waiterInfo - {w};
    }

    method SumSeats(seated: set<nat>) returns (inUse: real)
      requires seated <= seatWeight.Keys
      ensures inUse == Total(Part(seatWeight, seated))
    {
      inUse := 0.0;
      var rest := seated;
      ghost var seen: set<nat> := {};
      PartNone(seatWeight, {});
      while rest != {}
        invariant seen !! rest && seen + rest == seated
        invariant inUse == Total(Part(seatWeight, seen))
      {
        var l :| l in rest;
        PartAdd(seatWeight, seen, l);
        inUse := inUse + seatWeight[l];
        rest, seen := rest - {l}, seen + {l};
      }
      assert seen == seated;
    }

    /** STATUS: the weight of unexpired seats, live waiters and the target. */
    method RunStatus(cfg: Config) returns (inUse: real, waiting: nat, goal: real)
      requires seats.Keys == seatWeight.Keys
      ensures inUse == Total(Part(seatWeight, set l | l in seats && now < seats[l]))
      ensures waiting == |set w | w in waiterExp && now < waiterExp[w]|
      ensures goal == if target.Some? then target.value else cfg.defaultTarget
    {
      inUse := SumSeats(LiveSeats(Abs()));
      waiting := |set w | w in waiterExp && now < waiterExp[w]|;
      goal := if target.Some? then target.value else cfg.defaultTarget;
    }

    // ----- politeness scripts on the same keys -----

    /** ZREMRANGEBYSCORE, then ZCARD. */
    method PurgeSite(k: Site) returns (held: nat)
      modifies this`turns
      ensures turns == PurgeTurns(old(turns), now, k)
      ensures held == |LiveTurns(old(Abs()), k)|
    {
      assert Unlapsed(turns, now, k).Keys == LiveTurns(Abs(), k);
      PurgeKeeps(turns, now, k);
      turns := PurgeTurns(turns, now, k);
      held := |Visible(turns, now, k).Keys|;
    }

    method RunAcquire(cfg: Config, k: Site, worker: nat, limit: int) returns (taken: bool)
      modifies this`turns
      ensures Abs() == AfterAcquire(old(Abs()), cfg, k, worker, limit)
      ensures taken <==> |old(LiveTurns(Abs(), k))| < limit
    {
      var held := PurgeSite(k);
      if held < limit {
        turns := Put(turns, now, k, Turn(worker), now + cfg.slotTtl, cfg.slotTtl);
        return true;
      }
      return false;
    }

    method RunRefresh(cfg: Config, k: Site, worker: nat) returns (held: bool)
      modifies this`turns
      ensures Abs() == AfterRefresh(old(Abs()), cfg, k, worker)
      ensures held <==> Turn(worker) in old(LiveTurns(Abs(), k))
    {
      var members := Visible(turns, now, k);
      var expiresAt := if Turn(worker) in members then members[Turn(worker)] else 0;
      if expiresAt > now {
        turns := Put(turns, now, k, Turn(worker), now + cfg.slotTtl, cfg.slotTtl);
        return true;
      }
      return false;
    }

    method RunFreeTurn(k: Site, worker: nat)
      modifies this`turns
      ensures Abs() == DropTurn(old(Abs()), k, Turn(worker))
    {
      turns := Drop(turns, now, k, Turn(worker));
    }

    /** wait_if_needed: reserve the site's next instant; the wait in ms. */
    method RunReserve(k: Site, delayMs: int) returns (wait: int)
      modifies this`delays
      ensures Abs() == AfterReserve(old(Abs()), k, delayMs)
      ensures wait == if delayMs <= 0 then 0 else old(Earliest(Abs(), k)) - now
    {
      if delayMs <= 0 {
        return 0;
      }
      var nextAt := NextAt(Abs(), k);
      if nextAt < now {
        nextAt := now;
      }
      delays := delays[k := Delay(nextAt + delayMs, now + QueueTtl(delayMs))];
      return nextAt - now;
    }

    // ----- the world around the scripts -----

    method Advance(ms: nat)
      modifies this`now
      ensures Abs() == old(Abs()).(now := old(now) + ms)
    {
      now := now + ms;
    }

    method WriteTarget(t: Option<real>)
      modifies this`target
      ensures Abs() == old(Abs()).(target := t)
    {
      target := t;
    }
  }
}
