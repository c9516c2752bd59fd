/** What every script keeps, whatever the interleaving. */
module HostInvariant {
  import opened Basics
  import opened Sums
  import opened Host

  /** The three seat keys hold the same leases, each of positive weight. */
  ghost predicate SeatsAgree(s: State) {
    s.seats.Keys == s.seatWeight.Keys == s.seatTenant.Keys && Positive(s.seatWeight)
  }

  /** The three line keys hold the same waiters, each with a well-formed request. */
  ghost predicate LineAgrees(s: State) {
    && s.waiters.Keys == s.waiterExp.Keys == s.waiterInfo.Keys
    && forall w :: w in s.waiterInfo ==> WellFormed(s.waiterInfo[w])
  }

  /** No seat outlives one lease from now. */
  ghost predicate LeasesBounded(s: State, cfg: Config) {
    forall l :: l in s.seats ==> s.seats[l] <= s.now + cfg.leaseTtl
  }

  /** A slot key's own deadline covers every member it holds. */
  ghost predicate KeysCover(turns: map<Site, Turns>) {
    forall k, m :: k in turns && m in turns[k].members ==> turns[k].members[m] <= turns[k].deadline
  }

  /** A lease has a slot on one site only. */
  ghost predicate OneSite(turns: map<Site, Turns>, now: nat) {
    forall j, k, l :: Lease(l) in Visible(turns, now, j) && Lease(l) in Visible(turns, now, k) ==> j == k
  }

  /** A live browser slot has a seat, and slot and seat lapse together. */
  ghost predicate SlotsMatch(turns: map<Site, Turns>, now: nat, seats: map<nat, int>) {
    forall k, l :: Lease(l) in Visible(turns, now, k) ==>
      && (now < Visible(turns, now, k)[Lease(l)] ==> l in seats)
      && (l in seats ==> seats[l] == Visible(turns, now, k)[Lease(l)])
  }

  ghost predicate Inv(s: State, cfg: Config) {
    && SeatsAgree(s) && LineAgrees(s) && LeasesBounded(s, cfg)
    && KeysCover(s.turns) && OneSite(s.turns, s.now) && SlotsMatch(s.turns, s.now, s.seats)
  }

  ghost predicate Timed(cfg: Config) {
    cfg.leaseTtl > 0 && cfg.slotTtl > 0 && cfg.waiterTtl > 0
  }

  // ----- one slot key at a time -----

  ghost predicate SameElsewhere(turns: map<Site, Turns>, turns': map<Site, Turns>, now: nat, k: Site) {
    forall other :: other != k ==> Visible(turns', now, other) == Visible(turns, now, other)
  }

  lemma PutMembers(turns: map<Site, Turns>, now: nat, k: Site, m: Member, ttl: nat)
    requires ttl > 0
    ensures Visible(Put(turns, now, k, m, now + ttl, ttl), now, k) == Visible(turns, now, k)[m := now + ttl]
    ensures SameElsewhere(turns, Put(turns, now, k, m, now + ttl, ttl), now, k)
    ensures KeysCover(turns) ==> KeysCover(Put(turns, now, k, m, now + ttl, ttl))
  {
  }

  lemma DropMembers(turns: map<Site, Turns>, now: nat, k: Site, m: Member)
    ensures Visible(Drop(turns, now, k, m), now, k) == Visible(turns, now, k) - {m}
    ensures SameElsewhere(turns, Drop(turns, now, k, m), now, k)
    ensures KeysCover(turns) ==> KeysCover(Drop(turns, now, k, m))
  {
  }

  lemma PurgeMembers(turns: map<Site, Turns>, now: nat, k: Site)
    ensures Visible(PurgeTurns(turns, now, k), now, k) == Unlapsed(turns, now, k)
    ensures SameElsewhere(turns, PurgeTurns(turns, now, k), now, k)
    ensures KeysCover(turns) ==> KeysCover(PurgeTurns(turns, now, k))
  {
  }

  /** Members only go, or seats only go with the lapsed: the match survives. */
  lemma Shrinks(turns: map<Site, Turns>, now: nat, seats: map<nat, int>, turns': map<Site, Turns>, now': nat, seats': map<nat, int>)
    requires OneSite(turns, now) && SlotsMatch(turns, now, seats) && now <= now'
    requires forall k, m :: m in Visible(turns', now', k) && m.Lease? ==>
      && m in Visible(turns, now, k) && Visible(turns', now', k)[m] == Visible(turns, now, k)[m]
      && (m.id in seats && now' < seats[m.id] ==> m.id in seats')
    requires forall l :: l in seats' ==> l in seats && seats'[l] == seats[l]
    ensures OneSite(turns', now') && SlotsMatch(turns', now', seats')
  {
  }

  /** One lease, held on no site but `k`, gets the same new expiry twice. */
  lemma Stretches(turns: map<Site, Turns>, now: nat, seats: map<nat, int>, turns': map<Site, Turns>, l: nat, k: Site, end: int)
    requires OneSite(turns, now) && SlotsMatch(turns, now, seats)
    requires forall other :: other != k ==> Lease(l) !in Visible(turns, now, other)
    requires Visible(turns', now, k) == Visible(turns, now, k)[Lease(l) := end] && SameElsewhere(turns, turns', now, k)
    ensures OneSite(turns', now) && SlotsMatch(turns', now, seats[l := end])
  {
  }

  // ----- the scripts -----

  lemma QueueKeeps(s: State, cfg: Config, c: Claim)
    requires Inv(s, cfg) && Legal(s, Claims(c))
    ensures Inv(Queue(s, cfg, c), cfg)
    ensures c.lease !in Queue(s, cfg, c).seats
  {
    var q := Queue(s, cfg, c);
    Shrinks(s.turns, s.now, s.seats, q.turns, q.now, q.seats);
  }

  lemma SeatKeeps(q: State, cfg: Config, c: Claim)
    requires Inv(q, cfg) && Timed(cfg)
    requires WellFormed(c.info) && c.lease !in q.seats && forall k :: Lease(c.lease) !in Visible(q.turns, q.now, k)
    ensures Inv(Seat(q, cfg, c), cfg)
  {
    PutMembers(q.turns, q.now, c.info.site, Lease(c.lease), cfg.leaseTtl);
    Stretches(q.turns, q.now, q.seats, Seat(q, cfg, c).turns, c.lease, c.info.site, q.now + cfg.leaseTtl);
    SeatBooks(q, cfg, c);
  }

  /** The books of seats and of the line, with the caller moved from one to the
      other. */
  lemma SeatBooks(q: State, cfg: Config, c: Claim)
    requires SeatsAgree(q) && LineAgrees(q) && LeasesBounded(q, cfg) && WellFormed(c.info)
    ensures var s' := Seat(q, cfg, c);
      SeatsAgree(s') && LineAgrees(s') && LeasesBounded(s', cfg) && s'.now == q.now && s'.seats == q.seats[c.lease := q.now + cfg.leaseTtl]
  {
  }

  lemma RenewKeeps(s: State, cfg: Config, l: nat, k: Site)
    requires Inv(s, cfg) && Timed(cfg) && HeldOnlyOn(s, l, k)
    ensures Inv(AfterRenew(s, cfg, l, k), cfg)
  {
    RenewFrame(s, cfg, l, k);
    if SeatLive(s, l) {
      PutMembers(s.turns, s.now, k, Lease(l), cfg.leaseTtl);
      if Lease(l) in Members(s, k) {
        Stretches(s.turns, s.now, s.seats, AfterRenew(s, cfg, l, k).turns, l, k, s.now + cfg.leaseTtl);
      }
    }
  }

  /** All that RENEW does: to one seat and one slot. */
  lemma RenewFrame(s: State, cfg: Config, l: nat, k: Site)
    ensures AfterRenew(s, cfg, l, k) == s.(
      seats := if SeatLive(s, l) then s.seats[l := s.now + cfg.leaseTtl] else s.seats,
      turns := if SeatLive(s, l) && Lease(l) in Members(s, k) then Put(s.turns, s.now, k, Lease(l), s.now + cfg.leaseTtl, cfg.leaseTtl)
               else s.turns)
  {
  }

  /** All that REFRESH does: to one slot. */
  lemma RefreshFrame(s: State, cfg: Config, k: Site, w: nat)
    ensures AfterRefresh(s, cfg, k, w) == s.(turns := AfterRefresh(s, cfg, k, w).turns)
  {
  }

  lemma RefreshIs(s: State, cfg: Config, at: Site, v: nat)
    ensures AfterRefresh(s, cfg, at, v).turns
      == if TurnLive(s, at, v) then Put(s.turns, s.now, at, Turn(v), s.now + cfg.slotTtl, cfg.slotTtl) else s.turns
  {
  }

  /** RELEASE touches a seat's books and a slot. */
  lemma ReleaseFrame(s: State, l: nat, k: Site)
    ensures var t := AfterRelease(s, l, k);
      t == s.(seats := t.seats, seatWeight := t.seatWeight, seatTenant := t.seatTenant, turns := t.turns)
  {
  }

  lemma DropKeeps(s: State, cfg: Config, k: Site, m: Member)
    requires Inv(s, cfg)
    ensures Inv(DropTurn(s, k, m), cfg)
  {
    DropMembers(s.turns, s.now, k, m);
    Shrinks(s.turns, s.now, s.seats, Drop(s.turns, s.now, k, m), s.now, s.seats);
  }

  lemma ReleaseKeeps(s: State, cfg: Config, l: nat, k: Site)
    requires Inv(s, cfg) && HeldOnlyOn(s, l, k)
    ensures Inv(AfterRelease(s, l, k), cfg)
  {
    DropMembers(s.turns, s.now, k, Lease(l));
    Shrinks(s.turns, s.now, s.seats, Drop(s.turns, s.now, k, Lease(l)), s.now, s.seats - {l});
  }

  lemma TurnKeeps(s: State, cfg: Config, k: Site, worker: nat)
    requires Inv(s, cfg) && Timed(cfg)
    ensures Inv(PutTurn(s, k, Turn(worker), cfg.slotTtl), cfg)
  {
    PutMembers(s.turns, s.now, k, Turn(worker), cfg.slotTtl);
    Shrinks(s.turns, s.now, s.seats, PutTurn(s, k, Turn(worker), cfg.slotTtl).turns, s.now, s.seats);
  }

  lemma AcquireKeeps(s: State, cfg: Config, k: Site, worker: nat, limit: int)
    requires Inv(s, cfg) && Timed(cfg)
    ensures Inv(AfterAcquire(s, cfg, k, worker, limit), cfg)
  {
    var purged := s.(turns := PurgeTurns(s.turns, s.now, k));
    PurgeMembers(s.turns, s.now, k);
    Shrinks(s.turns, s.now, s.seats, purged.turns, s.now, s.seats);
    TurnKeeps(purged, cfg, k, worker);
  }

  lemma TickKeeps(s: State, cfg: Config, ms: nat)
    requires Inv(s, cfg)
    ensures Inv(Later(s, ms), cfg)
  {
    Shrinks(s.turns, s.now, s.seats, s.turns, s.now + ms, s.seats);
  }

  /** Every script, target write and clock tick keeps the invariant. */
  lemma StepKeeps(s: State, cfg: Config, e: Event)
    requires Inv(s, cfg) && Timed(cfg) && Legal(s, e)
    ensures Inv(Step(s, cfg, e), cfg)
  {
    match e
    case Claims(c) =>
      QueueKeeps(s, cfg, c);
      if Granted(s, cfg, c) { SeatKeeps(Queue(s, cfg, c), cfg, c); }
    case Renew(l, k) => RenewKeeps(s, cfg, l, k);
    case Release(l, k) => ReleaseKeeps(s, cfg, l, k);
    case ReleaseSlot(l, k) => DropKeeps(s, cfg, k, Lease(l));
    case Leave(w) =>
    case SetTarget(t) =>
    case Tick(ms) => TickKeeps(s, cfg, ms);
    case Acquire(k, w, n) => AcquireKeeps(s, cfg, k, w, n);
    case Refresh(k, w) => TurnKeeps(s, cfg, k, w);
    case FreeTurn(k, w) => DropKeeps(s, cfg, k, Turn(w));
    case ReserveDelay(k, d) =>
  }

  /** So does every run, from an empty store or any state that has it. */
  lemma {:induction false} RunKeeps(s: State, cfg: Config, es: seq<Event>)
    requires Inv(s, cfg) && Timed(cfg) && LegalRun(s, cfg, es)
    ensures Inv(Run(s, cfg, es), cfg)
    decreases |es|
  {
    if es != [] {
      StepKeeps(s, cfg, es[0]);
      RunKeeps(Step(s, cfg, es[0]), cfg, es[1..]);
    }
  }

  /** All that CLAIM does to slots, and that it takes no time. */
  lemma ClaimFrame(s: State, cfg: Config, c: Claim)
    ensures AfterClaim(s, cfg, c).now == s.now
    ensures AfterClaim(s, cfg, c).turns ==
      if Granted(s, cfg, c) then Put(s.turns, s.now, c.info.site, Lease(c.lease), s.now + cfg.leaseTtl, cfg.leaseTtl) else s.turns
  {
    var q := Queue(s, cfg, c);
    assert AfterClaim(s, cfg, c) == if Granted(s, cfg, c) then Seat(q, cfg, c) else q;
    assert q.now == s.now && q.turns == s.turns;
  }

  /** All that ACQUIRE does: to slots. */
  lemma AcquireFrame(s: State, cfg: Config, k: Site, w: nat, limit: int)
    ensures AfterAcquire(s, cfg, k, w, limit) == s.(turns := AfterAcquire(s, cfg, k, w, limit).turns)
    ensures AfterAcquire(s, cfg, k, w, limit).turns == var purged := PurgeTurns(s.turns, s.now, k);
      if TurnFree(s, k, limit) then Put(purged, s.now, k, Turn(w), s.now + cfg.slotTtl, cfg.slotTtl) else purged
  {
  }

  lemma OnlyTicksPass(s: State, cfg: Config, e: Event)
    ensures Step(s, cfg, e).now == s.now + if e.Tick? then e.ms else 0
  {
    match e
    case Claims(c) => ClaimFrame(s, cfg, c);
    case Renew(_, _) =>
    case Release(_, _) =>
    case ReleaseSlot(_, _) =>
    case Leave(_) =>
    case SetTarget(_) =>
    case Tick(_) =>
    case Acquire(k, w, n) => AcquireFrame(s, cfg, k, w, n);
    case Refresh(_, _) =>
    case FreeTurn(_, _) =>
    case ReserveDelay(_, _) =>
  }

  // ----- slots -----

  /** No step revives a lapsed slot, and only a grant or an acquire adds a live
      one: one, on its own site, and never past that request's own cap. A
      renewal or refresh leaves every site's live slots as they were. */
  ghost predicate SlotsSafe(s: State, cfg: Config, e: Event, k: Site) {
    var before, after := LiveTurns(s, k), LiveTurns(Step(s, cfg, e), k);
    && (e.Renew? || e.Refresh? ==> after == before)
    && (after <= before
        || (e.Claims? && Granted(s, cfg, e.claim) && k == e.claim.info.site
            && after == before + {Lease(e.claim.lease)} && |after| <= e.claim.info.cap)
        || (e.Acquire? && k == e.site && after == before + {Turn(e.worker)} && |after| <= e.limit))
  }

  lemma ClaimLive(s: State, cfg: Config, c: Claim, k: Site)
    requires Timed(cfg)
    ensures LiveTurns(AfterClaim(s, cfg, c), k)
         == LiveTurns(s, k) + if Granted(s, cfg, c) && k == c.info.site then {Lease(c.lease)} else {}
  {
    ClaimFrame(s, cfg, c);
    PutIfLive(s.turns, AfterClaim(s, cfg, c).turns, s.now, c.info.site, Lease(c.lease), cfg.leaseTtl, k, Granted(s, cfg, c));
  }

  lemma PutIfLive(turns: map<Site, Turns>, turns': map<Site, Turns>, now: nat, k: Site, m: Member, ttl: nat, at: Site, put: bool)
    requires ttl > 0 && turns' == if put then Put(turns, now, k, m, now + ttl, ttl) else turns
    ensures Live(turns', now, at) == Live(turns, now, at) + if put && at == k then {m} else {}
  {
    if put { PutLive(turns, now, k, m, ttl, at); }
  }

  lemma ClaimSlots(s: State, cfg: Config, c: Claim, k: Site)
    requires Inv(s, cfg) && Timed(cfg) && Legal(s, Claims(c))
    ensures SlotsSafe(s, cfg, Claims(c), k)
  {
    ClaimLive(s, cfg, c, k);
    AddOne(LiveTurns(s, k), Lease(c.lease));
    if Granted(s, cfg, c) {
      QueueKeeps(s, cfg, c);
      WinnerFits(Queue(s, cfg, c), cfg, c.me);
    }
  }

  /** Whoever the scan lets through has room on its site in the store itself,
      and the site's delay has run out. */
  lemma WinnerFits(s: State, cfg: Config, w: nat)
    requires LineAgrees(s) && Wins(s, cfg, w)
    ensures |LiveTurns(s, s.waiterInfo[w].site)| < s.waiterInfo[w].cap
    ensures NextAt(s, s.waiterInfo[w].site) <= s.now
  {
    var sim, k := Scan(s, RuleOf(s, cfg), Ahead(s, w)), s.waiterInfo[w].site;
    ScanOver(s, RuleOf(s, cfg), Ahead(s, w));
    assert SimSlots(s, sim, k) >= |LiveTurns(s, k)|;
    assert SimNext(s, sim, k) >= NextAt(s, k) || SimNext(s, sim, k) > s.now;
  }

  lemma AddOne(a: set<Member>, m: Member)
    ensures |a + {m}| <= |a| + 1
  {
    if m in a { assert a + {m} == a; }
  }

  lemma PutLive(turns: map<Site, Turns>, now: nat, k: Site, m: Member, ttl: nat, at: Site)
    requires ttl > 0
    ensures Live(Put(turns, now, k, m, now + ttl, ttl), now, at) == Live(turns, now, at) + if at == k then {m} else {}
  {
    PutMembers(turns, now, k, m, ttl);
  }

  lemma PurgeLive(turns: map<Site, Turns>, now: nat, k: Site, at: Site)
    ensures Live(PurgeTurns(turns, now, k), now, at) == Live(turns, now, at)
  {
    PurgeMembers(turns, now, k);
  }

  /** RENEW looks only at whether the slot member is there; since slot and seat
      lapse together, a member that is there under a live seat is live. */
  lemma RenewSlots(s: State, cfg: Config, l: nat, k: Site, at: Site)
    requires Inv(s, cfg) && Timed(cfg)
    ensures SlotsSafe(s, cfg, Renew(l, k), at)
  {
    RenewFrame(s, cfg, l, k);
    if SeatLive(s, l) && Lease(l) in Members(s, k) {
      LiveMember(s, cfg, l, k);
      PutLive(s.turns, s.now, k, Lease(l), cfg.leaseTtl, at);
    }
  }

  lemma LiveMember(s: State, cfg: Config, l: nat, k: Site)
    requires Inv(s, cfg) && SeatLive(s, l) && Lease(l) in Members(s, k)
    ensures Lease(l) in LiveTurns(s, k)
  {
  }

  lemma RefreshSlots(s: State, cfg: Config, k: Site, w: nat, at: Site)
    requires Timed(cfg)
    ensures SlotsSafe(s, cfg, Refresh(k, w), at)
  {
    RefreshFrame(s, cfg, k, w);
    RefreshLive(s, cfg, k, w, at);
  }

  lemma RefreshLive(s: State, cfg: Config, k: Site, w: nat, at: Site)
    requires Timed(cfg)
    ensures Live(AfterRefresh(s, cfg, k, w).turns, s.now, at) == LiveTurns(s, at)
  {
    if TurnLive(s, k, w) { PutLive(s.turns, s.now, k, Turn(w), cfg.slotTtl, at); }
  }

  lemma AcquireSlots(s: State, cfg: Config, k: Site, w: nat, limit: int, at: Site)
    requires Timed(cfg)
    ensures SlotsSafe(s, cfg, Acquire(k, w, limit), at)
  {
    AcquireLive(s, cfg, k, w, limit, at);
    AddOne(LiveTurns(s, at), Turn(w));
  }

  lemma AcquireLive(s: State, cfg: Config, k: Site, w: nat, limit: int, at: Site)
    requires Timed(cfg)
    ensures LiveTurns(AfterAcquire(s, cfg, k, w, limit), at)
         == LiveTurns(s, at) + if TurnFree(s, k, limit) && at == k then {Turn(w)} else {}
  {
    var purged := PurgeTurns(s.turns, s.now, k);
    PurgeLive(s.turns, s.now, k, at);
    PutLive(purged, s.now, k, Turn(w), cfg.slotTtl, at);
    AcquireFrame(s, cfg, k, w, limit);
  }

  lemma DropSlots(s: State, k: Site, m: Member, at: Site)
    ensures LiveTurns(DropTurn(s, k, m), at) <= LiveTurns(s, at)
  {
    DropMembers(s.turns, s.now, k, m);
  }

  lemma SlotSafety(s: State, cfg: Config, e: Event, k: Site)
    requires Inv(s, cfg) && Timed(cfg) && Legal(s, e)
    ensures SlotsSafe(s, cfg, e, k)
  {
    match e
    case Claims(c) => ClaimSlots(s, cfg, c, k);
    case Renew(l, j) => RenewSlots(s, cfg, l, j, k);
    case Release(l, j) => DropSlots(s, j, Lease(l), k);
    case ReleaseSlot(l, j) => DropSlots(s, j, Lease(l), k);
    case Leave(w) =>
    case SetTarget(t) =>
    case Tick(ms) =>
    case Acquire(j, w, n) => AcquireSlots(s, cfg, j, w, n, k);
    case Refresh(j, w) => RefreshSlots(s, cfg, j, w, k);
    case FreeTurn(j, w) => DropSlots(s, j, Turn(w), k);
    case ReserveDelay(j, d) =>
  }

  /** A key never expires over a live slot: its time to live may be ignored. */
  lemma KeyOutlivesSlots(s: State, cfg: Config, k: Site, m: Member)
    requires Inv(s, cfg) && k in s.turns
    ensures m in LiveTurns(s, k) <==> m in s.turns[k].members && s.now < s.turns[k].members[m]
  {
    if m in s.turns[k].members {
      assert s.turns[k].members[m] <= s.turns[k].deadline;
    }
  }

  // ----- the scan -----

  /** The scan only ever counts more than the store holds: what lets a waiter
      through in the scan, the store itself allows. */
  ghost predicate Over(s: State, sim: Sim) {
    && sim.use >= Total(s.seatWeight)
    && (forall k :: SimSlots(s, sim, k) >= |LiveTurns(s, k)|)
    && (forall k :: SimNext(s, sim, k) >= NextAt(s, k) || SimNext(s, sim, k) > s.now)
    && (forall t :: SimTenant(s, sim, t) >= TenantUse(s, t))
  }

  lemma ReserveOver(s: State, sim: Sim, i: Info)
    requires Over(s, sim) && WellFormed(i)
    ensures Over(s, Reserve(s, sim, i))
  {
    var sim' := Reserve(s, sim, i);
    forall k ensures SimSlots(s, sim', k) >= |LiveTurns(s, k)| { assert SimSlots(s, sim, k) >= |LiveTurns(s, k)|; }
    forall k ensures SimNext(s, sim', k) >= NextAt(s, k) || SimNext(s, sim', k) > s.now {
      assert SimNext(s, sim, k) >= NextAt(s, k) || SimNext(s, sim, k) > s.now;
    }
    forall t ensures SimTenant(s, sim', t) >= TenantUse(s, t) { assert SimTenant(s, sim, t) >= TenantUse(s, t); }
  }

  lemma {:induction false} ScanOver(s: State, r: Rule, line: seq<nat>)
    requires LineAgrees(s)
    ensures Over(s, Scan(s, r, line))
    decreases |line|
  {
    if line != [] {
      var front, w := line[..|line| - 1], line[|line| - 1];
      ScanOver(s, r, front);
      if w in s.waiterInfo { ReserveOver(s, Scan(s, r, front), s.waiterInfo[w]); }
    }
  }
}
