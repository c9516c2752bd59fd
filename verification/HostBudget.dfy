/** The host's budget over whole runs: what grants may do to it, that an idle
    host always admits, and that silent holders give everything back. */
module HostBudget {
  import opened Basics
  import opened Sums
  import opened Host
  import opened HostInvariant

  /** CLAIM adds up its weight hash; STATUS adds up unexpired seats. After the
      purge they are the same number. */
  lemma PurgedUse(s: State, cfg: Config, c: Claim)
    requires SeatsAgree(s)
    ensures Total(Queue(s, cfg, c).seatWeight) == InUse(s)
  {
    assert Queue(s, cfg, c).seatWeight == Part(s.seatWeight, LiveSeats(s));
  }

  lemma InUseDrops(s: State, s': State)
    requires Positive(s.seatWeight)
    requires LiveSeats(s') <= LiveSeats(s)
    requires forall l :: l in s'.seatWeight && l in LiveSeats(s') ==> l in s.seatWeight && s'.seatWeight[l] == s.seatWeight[l]
    ensures InUse(s') <= InUse(s)
  {
    var m := Part(s.seatWeight, LiveSeats(s));
    TotalDrop(m, s'.seatWeight.Keys * LiveSeats(s'));
    assert Part(m, s'.seatWeight.Keys * LiveSeats(s')) == Part(s'.seatWeight, LiveSeats(s'));
  }

  lemma QueueUse(s: State, cfg: Config, c: Claim)
    requires SeatsAgree(s)
    ensures InUse(Queue(s, cfg, c)) == InUse(s)
  {
    assert Part(Queue(s, cfg, c).seatWeight, LiveSeats(Queue(s, cfg, c))) == Part(s.seatWeight, LiveSeats(s));
  }

  lemma SeatUse(q: State, cfg: Config, c: Claim)
    requires SeatsAgree(q) && cfg.leaseTtl > 0 && c.lease !in q.seats && LiveSeats(q) == q.seats.Keys
    ensures InUse(Seat(q, cfg, c)) == Total(q.seatWeight) + c.info.weight
  {
    var s' := Seat(q, cfg, c);
    TotalAdd(q.seatWeight, c.lease, c.info.weight);
    assert LiveSeats(s') == q.seats.Keys + {c.lease};
    PartAll(s'.seatWeight, LiveSeats(s'));
  }

  /** A grant adds exactly the caller's weight; and either the host was idle,
      or the result is within the target the script read. */
  lemma GrantUse(s: State, cfg: Config, c: Claim)
    requires Inv(s, cfg) && Timed(cfg) && Legal(s, Claims(c)) && Granted(s, cfg, c)
    ensures InUse(AfterClaim(s, cfg, c)) == InUse(s) + c.info.weight
    ensures InUse(s) == 0.0 || InUse(AfterClaim(s, cfg, c)) <= TargetOr(s, cfg.defaultTarget)
  {
    var q := Queue(s, cfg, c);
    PurgedUse(s, cfg, c);
    SeatUse(q, cfg, c);
    WinnerFitsTarget(q, cfg, c.me) by { QueueKeeps(s, cfg, c); }
    TotalDrop(Part(s.seatWeight, LiveSeats(s)), {});
  }

  lemma WinnerFitsTarget(q: State, cfg: Config, w: nat)
    requires LineAgrees(q) && Wins(q, cfg, w)
    ensures Total(q.seatWeight) > 0.0 ==> Total(q.seatWeight) + q.waiterInfo[w].weight <= TargetOr(q, cfg.defaultTarget)
  {
    ScanOver(q, RuleOf(q, cfg), Ahead(q, w));
  }

  /** A grant adds the caller's weight to its tenant's use alone; and while
      another tenant waits, a tenant that already held something stays within its
      share of the target. */
  lemma GrantShare(s: State, cfg: Config, c: Claim)
    requires Inv(s, cfg) && Timed(cfg) && Legal(s, Claims(c)) && Granted(s, cfg, c)
    ensures var q, t := Queue(s, cfg, c), c.info.site.tenant; var r := RuleOf(q, cfg);
      && TenantUse(AfterClaim(s, cfg, c), t) == TenantUse(q, t) + c.info.weight
      && (r.shared && TenantUse(q, t) > 0.0 ==> TenantUse(AfterClaim(s, cfg, c), t) <= r.shareCap as real)
  {
    var q := Queue(s, cfg, c);
    QueueKeeps(s, cfg, c);
    SeatShare(q, cfg, c);
    assert AfterClaim(s, cfg, c) == Seat(q, cfg, c);
    WinnerFitsShare(q, cfg, c.me);
  }

  lemma WinnerFitsShare(q: State, cfg: Config, w: nat)
    requires LineAgrees(q) && Wins(q, cfg, w)
    ensures var i := q.waiterInfo[w]; var r := RuleOf(q, cfg);
      r.shared && TenantUse(q, i.site.tenant) > 0.0 ==> TenantUse(q, i.site.tenant) + i.weight <= r.shareCap as real
  {
    var t, sim := q.waiterInfo[w].site.tenant, Scan(q, RuleOf(q, cfg), Ahead(q, w));
    ScanOver(q, RuleOf(q, cfg), Ahead(q, w));
    assert SimTenant(q, sim, t) >= TenantUse(q, t);
  }

  lemma SeatShare(q: State, cfg: Config, c: Claim)
    requires SeatsAgree(q) && c.lease !in q.seats
    ensures var t := c.info.site.tenant; TenantUse(Seat(q, cfg, c), t) == TenantUse(q, t) + c.info.weight
  {
    var s', t := Seat(q, cfg, c), c.info.site.tenant;
    var before := Part(q.seatWeight, HeldBy(q, t));
    TotalAdd(before, c.lease, c.info.weight);
    assert Part(s'.seatWeight, HeldBy(s', t)) == before[c.lease := c.info.weight];
  }

  ghost predicate Grants(s: State, cfg: Config, e: Event) {
    e.Claims? && Granted(s, cfg, e.claim)
  }

  lemma RenewUse(s: State, cfg: Config, l: nat, k: Site)
    requires Inv(s, cfg) && Timed(cfg)
    ensures InUse(AfterRenew(s, cfg, l, k)) == InUse(s)
  {
    assert LiveSeats(AfterRenew(s, cfg, l, k)) == LiveSeats(s);
  }

  /** No other step raises what is in use. */
  lemma OnlyGrantsRaise(s: State, cfg: Config, e: Event)
    requires Inv(s, cfg) && Timed(cfg) && Legal(s, e) && !Grants(s, cfg, e)
    ensures InUse(Step(s, cfg, e)) <= InUse(s)
  {
    match e
    case Claims(c) => QueueUse(s, cfg, c);
    case Renew(l, k) => RenewUse(s, cfg, l, k);
    case Release(l, k) => InUseDrops(s, Step(s, cfg, e));
    case ReleaseSlot(l, k) =>
    case Leave(w) =>
    case SetTarget(t) =>
    case Tick(ms) => InUseDrops(s, Step(s, cfg, e));
    case Acquire(k, w, n) =>
    case Refresh(k, w) =>
    case FreeTurn(k, w) =>
    case ReserveDelay(k, d) =>
  }

  /** While more is in use than a (cut) target allows, no step raises it. */
  lemma OverTargetNeverRises(s: State, cfg: Config, e: Event)
    requires Inv(s, cfg) && Timed(cfg) && Legal(s, e)
    requires InUse(s) > 0.0 && InUse(s) > TargetOr(s, cfg.defaultTarget)
    ensures InUse(Step(s, cfg, e)) <= InUse(s)
  {
    if Grants(s, cfg, e) { GrantUse(s, cfg, e.claim); } else { OnlyGrantsRaise(s, cfg, e); }
  }

  /** Every target read in the run is at most `t`, every weight at most `w`. */
  ghost predicate Within(s: State, cfg: Config, es: seq<Event>, t: real, w: real)
    decreases |es|
  {
    es == [] ||
    (&& TargetOr(s, cfg.defaultTarget) <= t
     && (es[0].Claims? ==> es[0].claim.info.weight <= w)
     && Within(Step(s, cfg, es[0]), cfg, es[1..], t, w))
  }

  /** Over a whole run the host never holds more than its largest target, or
      one single browser's weight where that is more. */
  lemma {:induction false} BudgetSafety(s: State, cfg: Config, es: seq<Event>, t: real, w: real)
    requires Inv(s, cfg) && Timed(cfg) && LegalRun(s, cfg, es) && Within(s, cfg, es, t, w)
    requires InUse(s) <= t || InUse(s) <= w
    ensures InUse(Run(s, cfg, es)) <= t || InUse(Run(s, cfg, es)) <= w
    decreases |es|
  {
    if es != [] {
      StepKeeps(s, cfg, es[0]);
      if Grants(s, cfg, es[0]) { GrantUse(s, cfg, es[0].claim); } else { OnlyGrantsRaise(s, cfg, es[0]); }
      BudgetSafety(Step(s, cfg, es[0]), cfg, es[1..], t, w);
    }
  }

  // ----- an idle host admits -----

  /** The waiter's own site lets it through: a free slot, and the delay over. */
  ghost predicate SiteReady(s: State, i: Info) {
    |LiveTurns(s, i.site)| < i.cap && NextAt(s, i.site) <= s.now
  }

  lemma {:induction false} NobodyReserves(s: State, r: Rule, line: seq<nat>)
    requires forall w :: w in line && w in s.waiterInfo ==> !SiteReady(s, s.waiterInfo[w])
    ensures Scan(s, r, line) == Start(s)
    decreases |line|
  {
    if line != [] { NobodyReserves(s, r, line[..|line| - 1]); }
  }

  lemma NoSeatsNoUse(s: State, tenant: string)
    requires s.seatWeight == map[]
    ensures TenantUse(s, tenant) == 0.0
  {
    PartNone(s.seatWeight, HeldBy(s, tenant));
  }

  lemma FirstReadyWins(q: State, cfg: Config, me: nat)
    requires q.seatWeight == map[] && me in q.waiterInfo && SiteReady(q, q.waiterInfo[me])
    requires forall w :: w in Ahead(q, me) && w in q.waiterInfo ==> !SiteReady(q, q.waiterInfo[w])
    ensures Wins(q, cfg, me)
  {
    NobodyReserves(q, RuleOf(q, cfg), Ahead(q, me));
    NoSeatsNoUse(q, q.waiterInfo[me].site.tenant);
  }

  /** With no live seat, the oldest waiter whose site is ready is granted on its
      poll, whatever its weight, the target, or its tenant's share. */
  lemma IdleHostGrants(s: State, cfg: Config, c: Claim)
    requires Inv(s, cfg) && LiveSeats(s) == {} && SiteReady(s, c.info)
    requires var q := Queue(s, cfg, c);
      forall w :: w in Ahead(q, c.me) && w in q.waiterInfo ==> !SiteReady(s, q.waiterInfo[w])
    ensures Granted(s, cfg, c)
  {
    QueueIdle(s, cfg, c);
    FirstReadyWins(Queue(s, cfg, c), cfg, c.me);
  }

  /** Purging an idle host leaves no weight on the books, and no site changed. */
  lemma QueueIdle(s: State, cfg: Config, c: Claim)
    requires SeatsAgree(s) && LiveSeats(s) == {}
    ensures var q := Queue(s, cfg, c);
      q.seatWeight == map[] && c.me in q.waiterInfo && q.waiterInfo[c.me] == c.info && forall i :: SiteReady(q, i) <==> SiteReady(s, i)
  {
    assert Queue(s, cfg, c).seatWeight.Keys == {};
  }

  // ----- silent holders -----

  /** Nothing in the run renews lease `l` or grants it anew. */
  ghost predicate Silent(es: seq<Event>, l: nat) {
    forall e :: e in es ==> !(e.Renew? && e.lease == l) && !(e.Claims? && e.claim.lease == l)
  }

  lemma ClaimOnlySeatsItself(s: State, cfg: Config, c: Claim, l: nat)
    requires l != c.lease
    ensures l in AfterClaim(s, cfg, c).seats ==> l in s.seats && AfterClaim(s, cfg, c).seats[l] == s.seats[l]
  {
    var q := Queue(s, cfg, c);
    assert q.seats == s.seats - Lapsed(s.seats, s.now);
    assert Seat(q, cfg, c).seats == q.seats[c.lease := q.now + cfg.leaseTtl];
  }

  lemma SilentStep(s: State, cfg: Config, e: Event, l: nat)
    requires !(e.Renew? && e.lease == l) && !(e.Claims? && e.claim.lease == l)
    ensures l in Step(s, cfg, e).seats ==> l in s.seats && Step(s, cfg, e).seats[l] == s.seats[l]
  {
    match e
    case Claims(c) => ClaimOnlySeatsItself(s, cfg, c, l);
    case Renew(j, k) => RenewFrame(s, cfg, j, k);
    case Acquire(k, w, n) => AcquireFrame(s, cfg, k, w, n);
    case Refresh(k, w) => RefreshFrame(s, cfg, k, w);
    case _ =>
  }

  lemma {:induction false} SilentBound(s: State, cfg: Config, es: seq<Event>, l: nat, end: int)
    requires Silent(es, l)
    requires l in s.seats ==> s.seats[l] <= end
    ensures l in Run(s, cfg, es).seats ==> Run(s, cfg, es).seats[l] <= end
    ensures s.now <= Run(s, cfg, es).now
    decreases |es|
  {
    if es != [] {
      assert es[0] in es && forall e :: e in es[1..] ==> e in es;
      SilentStep(s, cfg, es[0], l);
      OnlyTicksPass(s, cfg, es[0]);
      SilentBound(Step(s, cfg, es[0]), cfg, es[1..], l, end);
    }
  }

  /** A holder that stops renewing has lost its seat one lease later; a run in
      which nobody renews and nobody is granted leaves the host idle. */
  lemma CrashRecovery(s: State, cfg: Config, es: seq<Event>)
    requires Inv(s, cfg) && Timed(cfg) && LegalRun(s, cfg, es)
    requires Run(s, cfg, es).now >= s.now + cfg.leaseTtl
    ensures forall l :: Silent(es, l) && l in s.seats ==> l !in LiveSeats(Run(s, cfg, es))
    ensures (forall e :: e in es ==> !e.Renew? && !e.Claims?) ==> InUse(Run(s, cfg, es)) == 0.0
  {
    var s' := Run(s, cfg, es);
    forall l | Silent(es, l) && (l in s.seats ==> s.seats[l] <= s.now + cfg.leaseTtl) ensures l !in LiveSeats(s') {
      SilentBound(s, cfg, es, l, s.now + cfg.leaseTtl);
    }
    if forall e :: e in es ==> !e.Renew? && !e.Claims? {
      assert LiveSeats(s') == {} by {
        forall l ensures l !in LiveSeats(s') { assert Silent(es, l); }
      }
      PartNone(s'.seatWeight, LiveSeats(s'));
    }
  }
}
