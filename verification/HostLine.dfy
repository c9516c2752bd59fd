/** The line itself: who polls keeps its place, who falls silent is dropped, and
    what decides at the front. */
module HostLine {
  import opened Basics
  import opened Sums
  import opened Host
  import opened HostInvariant
  import opened HostBudget
  import opened HostOrder

  /** Waiter `w` stands in all three line keys, at priority `p`, not lapsed. */
  predicate Waits(s: State, w: nat, p: int) {
    && w in s.waiters && s.waiters[w] == p
    && w in s.waiterExp && s.now < s.waiterExp[w]
    && w in s.waiterInfo
  }

  predicate Polls(e: Event, w: nat) {
    e.Claims? && e.claim.me == w
  }

  // ----- one step -----

  /** A granted claim, told by its seat. */
  lemma SeatTells(s: State, cfg: Config, c: Claim)
    requires c.lease !in s.seats
    ensures c.lease in AfterClaim(s, cfg, c).seats <==> Granted(s, cfg, c)
  {
    var q := Queue(s, cfg, c);
    assert q.seats == s.seats - Lapsed(s.seats, s.now);
    assert Seat(q, cfg, c).seats == q.seats[c.lease := q.now + cfg.leaseTtl];
  }

  /** A poll that is refused puts its waiter in the line, or leaves it there at the
      priority it first gave, for one time to live from now. */
  lemma PollStays(s: State, cfg: Config, c: Claim)
    requires c.lease !in s.seats && c.lease !in Step(s, cfg, Claims(c)).seats && cfg.waiterTtl > 0
    ensures var t := Step(s, cfg, Claims(c));
      && Waits(t, c.me, if c.me in s.waiters && (c.me in s.waiterExp ==> s.now < s.waiterExp[c.me]) then s.waiters[c.me] else c.priority)
      && t.waiterExp[c.me] == s.now + cfg.waiterTtl && t.waiterInfo[c.me] == c.info
  {
    SeatTells(s, cfg, c);
  }

  /** Nobody else's claim touches a live waiter. */
  lemma OthersLeaveBe(s: State, cfg: Config, c: Claim, w: nat, p: int)
    requires Waits(s, w, p) && c.me != w
    ensures var t := Step(s, cfg, Claims(c));
      Waits(t, w, p) && t.waiterExp[w] == s.waiterExp[w] && t.waiterInfo[w] == s.waiterInfo[w]
  {
    ClaimLine(s, cfg, c);
  }

  /** A claim's three line keys: the lapsed go, and the caller is in or gone. */
  lemma ClaimLine(s: State, cfg: Config, c: Claim)
    ensures var q, t := Queue(s, cfg, c), AfterClaim(s, cfg, c); var gone := if Granted(s, cfg, c) then {c.me} else {};
      && t.now == s.now && t.waiters == q.waiters - gone && t.waiterExp == q.waiterExp - gone && t.waiterInfo == q.waiterInfo - gone
  {
  }

  lemma ScriptsLeaveBe(s: State, cfg: Config, e: Event)
    requires !e.Claims? && !e.Leave?
    ensures var t := Step(s, cfg, e);
      t.waiters == s.waiters && t.waiterExp == s.waiterExp && t.waiterInfo == s.waiterInfo && t.now == s.now + if e.Tick? then e.ms else 0
  {
    match e
    case Renew(l, k) => RenewFrame(s, cfg, l, k);
    case Acquire(k, w, n) => AcquireFrame(s, cfg, k, w, n);
    case Refresh(k, w) => RefreshFrame(s, cfg, k, w);
    case Release(l, k) => ReleaseFrame(s, l, k);
    case _ => WritesLeaveBe(s, cfg, e);
  }

  lemma WritesLeaveBe(s: State, cfg: Config, e: Event)
    requires e.ReleaseSlot? || e.SetTarget? || e.Tick? || e.FreeTurn? || e.ReserveDelay?
    ensures var t := Step(s, cfg, e);
      t.waiters == s.waiters && t.waiterExp == s.waiterExp && t.waiterInfo == s.waiterInfo && t.now == s.now + if e.Tick? then e.ms else 0
  {
  }

  // ----- over runs -----

  /** In the run `es` from `s`, waiter `w`, which last polled at `since`, polls again
      before one time to live is over, is never granted, and does not leave. */
  ghost predicate Patient(s: State, cfg: Config, es: seq<Event>, w: nat, since: int)
    decreases |es|
  {
    es == [] ||
    var t := Step(s, cfg, es[0]);
    && t.now < since + cfg.waiterTtl
    && es[0] != Leave(w)
    && (Polls(es[0], w) ==> es[0].claim.lease !in t.seats)
    && Patient(t, cfg, es[1..], w, if Polls(es[0], w) then s.now else since)
  }

  lemma PatientStep(s: State, cfg: Config, e: Event, w: nat, p: int, since: int)
    requires Legal(s, e) && cfg.waiterTtl > 0 && Waits(s, w, p) && since + cfg.waiterTtl <= s.waiterExp[w]
    requires var t := Step(s, cfg, e); t.now < since + cfg.waiterTtl && e != Leave(w) && (Polls(e, w) ==> e.claim.lease !in t.seats)
    ensures var t := Step(s, cfg, e);
      Waits(t, w, p) && (if Polls(e, w) then s.now else since) + cfg.waiterTtl <= t.waiterExp[w]
  {
    if Polls(e, w) {
      PollStays(s, cfg, e.claim);
    } else if e.Claims? {
      OthersLeaveBe(s, cfg, e.claim, w, p);
      OnlyTicksPass(s, cfg, e);
    } else if !e.Leave? {
      ScriptsLeaveBe(s, cfg, e);
    }
  }

  /** A waiter that keeps polling keeps its place: after every part of the run it is
      still in the line, at the priority it joined with, and not lapsed. */
  lemma {:induction false} KeepsPlace(s: State, cfg: Config, es: seq<Event>, w: nat, p: int, since: int, n: nat)
    requires LegalRun(s, cfg, es) && cfg.waiterTtl > 0 && n <= |es|
    requires Waits(s, w, p) && since + cfg.waiterTtl <= s.waiterExp[w] && Patient(s, cfg, es, w, since)
    ensures Waits(Run(s, cfg, es[..n]), w, p)
    decreases n
  {
    if n > 0 {
      var e, t := es[0], Step(s, cfg, es[0]);
      PatientStep(s, cfg, e, w, p, since);
      KeepsPlace(t, cfg, es[1..], w, p, if Polls(e, w) then s.now else since, n - 1);
      assert es[..n][1..] == es[1..][..n - 1];
    } else {
      assert es[..0] == [];
    }
  }

  /** Waiter `w` polls nowhere in the run. */
  ghost predicate Unheard(es: seq<Event>, w: nat) {
    forall e :: e in es ==> !Polls(e, w)
  }

  lemma UnheardStep(s: State, cfg: Config, e: Event, w: nat)
    requires !Polls(e, w)
    ensures var t := Step(s, cfg, e);
      && (w in t.waiterExp ==> w in s.waiterExp && t.waiterExp[w] == s.waiterExp[w])
      && s.now <= t.now
  {
    if e.Claims? { ClaimLine(s, cfg, e.claim); } else if !e.Leave? { ScriptsLeaveBe(s, cfg, e); }
  }

  lemma {:induction false} UnheardRun(s: State, cfg: Config, es: seq<Event>, w: nat, end: int)
    requires Unheard(es, w) && (w in s.waiterExp ==> s.waiterExp[w] <= end)
    ensures var t := Run(s, cfg, es); (w in t.waiterExp ==> t.waiterExp[w] <= end) && s.now <= t.now
    decreases |es|
  {
    if es != [] {
      assert forall e :: e in es[1..] ==> e in es;
      UnheardStep(s, cfg, es[0], w);
      UnheardRun(Step(s, cfg, es[0]), cfg, es[1..], w, end);
    }
  }

  /** A waiter not heard of for as long as its time to live is dropped by the next
      claim, whoever makes it: it holds nobody up any longer. */
  lemma SilentGoes(s: State, cfg: Config, es: seq<Event>, w: nat, c: Claim)
    requires LineAgrees(Run(s, cfg, es)) && Unheard(es, w) && c.me != w
    requires w in s.waiterExp ==> s.waiterExp[w] <= Run(s, cfg, es).now
    ensures var t := Step(Run(s, cfg, es), cfg, Claims(c));
      w !in t.waiters && w !in t.waiterExp && w !in t.waiterInfo
  {
    UnheardRun(s, cfg, es, w, Run(s, cfg, es).now);
    ClaimLine(Run(s, cfg, es), cfg, c);
  }

  // ----- who stands ahead -----

  /** The line is by priority first given, then by id: these and no others are ahead
      of a caller. */
  lemma AheadMeans(s: State, cfg: Config, c: Claim, w: nat)
    requires LineAgrees(s)
    ensures var q := Queue(s, cfg, c);
      var p := if c.me in s.waiters && s.now < s.waiterExp[c.me] then s.waiters[c.me] else c.priority;
      Older(q, w, c.me) <==>
        && w != c.me && w in s.waiters && s.now < s.waiterExp[w]
        && (s.waiters[w] < p || (s.waiters[w] == p && w < c.me))
  {
    var q := Queue(s, cfg, c);
    QueueLine(s, cfg, c);
    AheadBefore(q, w, c.me);
  }

  lemma QueueLine(s: State, cfg: Config, c: Claim)
    requires LineAgrees(s)
    ensures var q := Queue(s, cfg, c);
      && (forall w :: w in q.waiters <==> w == c.me || (w in s.waiters && s.now < s.waiterExp[w]))
      && (forall w :: w in q.waiters && w != c.me ==> q.waiters[w] == s.waiters[w])
      && q.waiters[c.me] == if c.me in s.waiters && s.now < s.waiterExp[c.me] then s.waiters[c.me] else c.priority
  {
  }

  lemma AheadBefore(q: State, w: nat, me: nat)
    requires me in q.waiters
    ensures Older(q, w, me) <==> w in q.waiters && w != me && (q.waiters[w] < q.waiters[me] || (q.waiters[w] == q.waiters[me] && w < me))
  {
    LineSorted(q.waiters);
    if Older(q, w, me) { AheadIsBefore(q, w, me); } else if w in q.waiters && w != me { BehindIsAfter(q, w, me); }
  }

  lemma AheadIsBefore(q: State, w: nat, me: nat)
    requires me in q.waiters && Older(q, w, me)
    ensures w in q.waiters && w != me && Before(q.waiters, w, me)
  {
    var line := Line(q.waiters);
    LineSorted(q.waiters);
    var k := IndexIn(line, me);
    var m :| 0 <= m < k && line[m] == w;
    assert Before(q.waiters, line[m], line[k]);
  }

  lemma BehindIsAfter(q: State, w: nat, me: nat)
    requires me in q.waiters && w in q.waiters && w != me && !Older(q, w, me)
    ensures Before(q.waiters, me, w)
  {
    var line := Line(q.waiters);
    LineSorted(q.waiters);
    var k := IndexIn(line, me);
    var m :| 0 <= m < |line| && line[m] == w;
    assert k <= m by { assert forall j :: 0 <= j < k ==> line[j] in line[..k]; }
    assert Before(q.waiters, line[k], line[m]);
  }

  // ----- serving the line in order -----

  function Weight(taken: seq<Info>): real {
    if taken == [] then 0.0 else Weight(taken[..|taken| - 1]) + taken[|taken| - 1].weight
  }

  function TenantWeight(taken: seq<Info>, t: string): real {
    if taken == [] then 0.0
    else TenantWeight(taken[..|taken| - 1], t) + if taken[|taken| - 1].site.tenant == t then taken[|taken| - 1].weight else 0.0
  }

  function OnSite(taken: seq<Info>, k: Site): nat {
    if taken == [] then 0 else OnSite(taken[..|taken| - 1], k) + if taken[|taken| - 1].site == k then 1 else 0
  }

  predicate Paced(taken: seq<Info>, k: Site) {
    exists i <- taken :: i.site == k && i.delayMs > 0
  }

  /** What live seats of tenant `t` weigh. */
  ghost function Held(s: State, t: string): real {
    Total(Part(s.seatWeight, set l | l in s.seats && s.now < s.seats[l] && l in s.seatTenant && s.seatTenant[l] == t))
  }

  function Target(s: State, cfg: Config): real {
    if s.target.Some? then s.target.value else cfg.defaultTarget
  }

  /** A tenant's share of a target, in whole units, at least one. */
  function ShareOf(target: real, share: real): int {
    Max(1, Ceil(target * share))
  }

  /** With `use` in use, `mine` of it the tenant's, there is budget for `weight`: an
      idle host takes anything, and a tenant with nothing is not held to its share. */
  predicate Affords(use: real, mine: real, weight: real, target: real, share: int, shared: bool) {
    && (use > 0.0 ==> use + weight <= target)
    && (shared && mine > 0.0 ==> mine + weight <= share as real)
  }

  /** The host can take request `i` beside the live seats and what is in `taken`:
      a slot under the request's own cap, the delay over, the target, and, with more
      than one tenant waiting, the tenant's share. */
  ghost predicate RoomFor(s: State, cfg: Config, shared: bool, taken: seq<Info>, i: Info) {
    && |LiveTurns(s, i.site)| + OnSite(taken, i.site) < i.cap
    && NextAt(s, i.site) <= s.now && !Paced(taken, i.site)
    && Affords(InUse(s) + Weight(taken), Held(s, i.site.tenant) + TenantWeight(taken, i.site.tenant), i.weight,
               Target(s, cfg), ShareOf(Target(s, cfg), cfg.share), shared)
  }

  /** Serving the line in order: everyone there is room for is taken. */
  ghost function Served(s: State, cfg: Config, shared: bool, line: seq<Info>): seq<Info> {
    if line == [] then [] else
    var taken, i := Served(s, cfg, shared, line[..|line| - 1]), line[|line| - 1];
    if RoomFor(s, cfg, shared, taken, i) then taken + [i] else taken
  }

  /** Two waiters of different tenants stand in line. */
  predicate Mixed(q: State) {
    exists v, w :: v in q.waiterInfo && w in q.waiterInfo && q.waiterInfo[v].site.tenant != q.waiterInfo[w].site.tenant
  }

  function Requests(q: State, line: seq<nat>): seq<Info>
    requires forall w <- line :: w in q.waiterInfo
  {
    seq(|line|, i requires 0 <= i < |line| => q.waiterInfo[line[i]])
  }

  /** The scan's running figures are those of serving the line. */
  ghost predicate Tells(q: State, sim: Sim, taken: seq<Info>) {
    && sim.use == Total(q.seatWeight) + Weight(taken)
    && (forall t :: SimTenant(q, sim, t) == TenantUse(q, t) + TenantWeight(taken, t))
    && (forall k :: SimSlots(q, sim, k) == |LiveTurns(q, k)| + OnSite(taken, k))
    && (forall k :: SimNext(q, sim, k) <= q.now <==> NextAt(q, k) <= q.now && !Paced(taken, k))
  }

  lemma TakenAdd(taken: seq<Info>, i: Info)
    ensures Weight(taken + [i]) == Weight(taken) + i.weight
    ensures forall t :: TenantWeight(taken + [i], t) == TenantWeight(taken, t) + if i.site.tenant == t then i.weight else 0.0
    ensures forall k :: OnSite(taken + [i], k) == OnSite(taken, k) + if i.site == k then 1 else 0
    ensures forall k :: Paced(taken + [i], k) <==> Paced(taken, k) || (i.site == k && i.delayMs > 0)
  {
    assert (taken + [i])[..|taken|] == taken;
    forall k ensures Paced(taken + [i], k) <==> Paced(taken, k) || (i.site == k && i.delayMs > 0) {
      assert i in taken + [i] && forall j <- taken :: j in taken + [i];
    }
  }

  lemma ReserveTells(q: State, sim: Sim, taken: seq<Info>, i: Info)
    requires Tells(q, sim, taken) && NextAt(q, i.site) <= q.now
    ensures Tells(q, Reserve(q, sim, i), taken + [i])
  {
    TakenAdd(taken, i);
    var a := Reserve(q, sim, i);
    forall t ensures SimTenant(q, a, t) == TenantUse(q, t) + TenantWeight(taken + [i], t) {
      assert SimTenant(q, sim, t) == TenantUse(q, t) + TenantWeight(taken, t);
      assert SimTenant(q, sim, i.site.tenant) == TenantUse(q, i.site.tenant) + TenantWeight(taken, i.site.tenant);
    }
    forall k ensures SimSlots(q, a, k) == |LiveTurns(q, k)| + OnSite(taken + [i], k) {
      assert SimSlots(q, sim, k) == |LiveTurns(q, k)| + OnSite(taken, k);
      assert SimSlots(q, sim, i.site) == |LiveTurns(q, i.site)| + OnSite(taken, i.site);
    }
    forall k ensures SimNext(q, a, k) <= q.now <==> NextAt(q, k) <= q.now && !Paced(taken + [i], k) {
      assert SimNext(q, sim, k) <= q.now <==> NextAt(q, k) <= q.now && !Paced(taken, k);
    }
  }

  /** A store with nothing lapsed on its books. */
  ghost predicate Purged(q: State) {
    SeatsAgree(q) && LiveSeats(q) == q.seats.Keys
  }

  lemma PurgedSums(q: State, t: string)
    requires Purged(q)
    ensures Total(q.seatWeight) == InUse(q) && TenantUse(q, t) == Held(q, t)
  {
    PartAll(q.seatWeight, LiveSeats(q));
    assert Part(q.seatWeight, HeldBy(q, t))
        == Part(q.seatWeight, set l | l in q.seats && q.now < q.seats[l] && l in q.seatTenant && q.seatTenant[l] == t) by {
      forall l | l in q.seats ensures q.now < q.seats[l] { assert l in LiveSeats(q); }
    }
  }

  lemma RuleIs(q: State, cfg: Config)
    ensures RuleOf(q, cfg).target == Target(q, cfg) && RuleOf(q, cfg).shareCap == ShareOf(Target(q, cfg), cfg.share)
  {
  }

  lemma FitsMeans(q: State, cfg: Config, sim: Sim, taken: seq<Info>, i: Info)
    requires Purged(q) && Tells(q, sim, taken)
    ensures Fits(q, RuleOf(q, cfg), sim, i) <==> RoomFor(q, cfg, RuleOf(q, cfg).shared, taken, i)
  {
    PurgedSums(q, i.site.tenant);
    RuleIs(q, cfg);
    assert SimTenant(q, sim, i.site.tenant) == TenantUse(q, i.site.tenant) + TenantWeight(taken, i.site.tenant);
    assert SimSlots(q, sim, i.site) == |LiveTurns(q, i.site)| + OnSite(taken, i.site);
    assert SimNext(q, sim, i.site) <= q.now <==> NextAt(q, i.site) <= q.now && !Paced(taken, i.site);
  }

  lemma {:induction false} ScanServes(q: State, cfg: Config, line: seq<nat>)
    requires Purged(q) && forall w <- line :: w in q.waiterInfo
    ensures Tells(q, Scan(q, RuleOf(q, cfg), line), Served(q, cfg, RuleOf(q, cfg).shared, Requests(q, line)))
    decreases |line|
  {
    if line == [] {
      StartSims(q);
    } else {
      var r, front, w := RuleOf(q, cfg), line[..|line| - 1], line[|line| - 1];
      var sim, taken := Scan(q, r, front), Served(q, cfg, r.shared, Requests(q, front));
      ScanServes(q, cfg, front);
      assert Requests(q, line)[..|line| - 1] == Requests(q, front);
      FitsMeans(q, cfg, sim, taken, q.waiterInfo[w]);
      if Fits(q, r, sim, q.waiterInfo[w]) { ReserveTells(q, sim, taken, q.waiterInfo[w]); }
    }
  }

  lemma SharedMeans(q: State, cfg: Config)
    requires LineAgrees(q)
    ensures RuleOf(q, cfg).shared <==> Mixed(q)
  {
    if Mixed(q) {
      var v, w :| v in q.waiterInfo && w in q.waiterInfo && q.waiterInfo[v].site.tenant != q.waiterInfo[w].site.tenant;
      Two(Tenants(q), q.waiterInfo[v].site.tenant, q.waiterInfo[w].site.tenant);
    } else if Tenants(q) != {} {
      var t :| t in Tenants(q);
      var v :| v in q.waiters && v in q.waiterInfo && q.waiterInfo[v].site.tenant == t;
      assert Tenants(q) == {t};
    }
  }

  lemma Two(a: set<string>, x: string, y: string)
    requires x in a && y in a && x != y
    ensures |a| > 1
  {
    assert |a - {x}| > 0;
  }

  /** What decides a claim: serve the line in order, everyone there is room for, and
      the caller is granted if and only if there is then room for it too. The scan's
      caches and running totals come to just that. */
  lemma ClaimDecides(s: State, cfg: Config, c: Claim)
    requires Inv(s, cfg) && Legal(s, Claims(c))
    ensures var q := Queue(s, cfg, c);
      && (forall w <- Ahead(q, c.me) :: w in q.waiterInfo)
      && (c.lease in Step(s, cfg, Claims(c)).seats <==>
            RoomFor(s, cfg, Mixed(q), Served(q, cfg, Mixed(q), Requests(q, Ahead(q, c.me))), c.info))
  {
    var q := Queue(s, cfg, c);
    SeatTells(s, cfg, c);
    QueueKeeps(s, cfg, c);
    AheadKnown(q, c.me);
    SharedMeans(q, cfg);
    ScanServes(q, cfg, Ahead(q, c.me));
    FitsMeans(q, cfg, Scan(q, RuleOf(q, cfg), Ahead(q, c.me)), Served(q, cfg, Mixed(q), Requests(q, Ahead(q, c.me))), c.info);
    SameRoom(s, cfg, c, Mixed(q), Served(q, cfg, Mixed(q), Requests(q, Ahead(q, c.me))));
  }

  lemma AheadKnown(q: State, me: nat)
    requires LineAgrees(q)
    ensures forall w <- Ahead(q, me) :: w in q.waiterInfo
  {
    LineSorted(q.waiters);
    assert forall w <- Ahead(q, me) :: w in Line(q.waiters);
  }

  lemma SameRoom(s: State, cfg: Config, c: Claim, shared: bool, taken: seq<Info>)
    requires SeatsAgree(s)
    ensures RoomFor(Queue(s, cfg, c), cfg, shared, taken, c.info) <==> RoomFor(s, cfg, shared, taken, c.info)
  {
    QueueUse(s, cfg, c);
    QueueHeld(s, cfg, c, c.info.site.tenant);
    QueueFrame(s, cfg, c);
  }

  lemma QueueFrame(s: State, cfg: Config, c: Claim)
    ensures var q := Queue(s, cfg, c); q.turns == s.turns && q.delays == s.delays && q.now == s.now && q.target == s.target
  {
  }

  lemma QueueHeld(s: State, cfg: Config, c: Claim, t: string)
    requires SeatsAgree(s)
    ensures Held(Queue(s, cfg, c), t) == Held(s, t)
  {
    var q := Queue(s, cfg, c);
    assert Part(q.seatWeight, set l | l in q.seats && q.now < q.seats[l] && l in q.seatTenant && q.seatTenant[l] == t)
        == Part(s.seatWeight, set l | l in s.seats && s.now < s.seats[l] && l in s.seatTenant && s.seatTenant[l] == t);
  }
}
