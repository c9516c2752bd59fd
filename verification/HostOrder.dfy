/** Nobody is overtaken. CLAIM lets a caller past older waiters only after
    setting aside what each eligible one will take; this file proves what that
    reservation is worth once the caller has actually taken its seat. */
module HostOrder {
  import opened Basics
  import opened Sums
  import opened Host
  import opened HostInvariant

  // ----- places in the line -----

  lemma AheadAt(s: State, m: nat)
    requires m < |Line(s.waiters)|
    ensures Ahead(s, Line(s.waiters)[m]) == Line(s.waiters)[..m]
    ensures Line(s.waiters)[m] in s.waiters
  {
    var line := Line(s.waiters);
    LineSorted(s.waiters);
    var j := IndexIn(line, line[m]);
    assert line[m] in line && line[j] == line[m] && j <= m;
    assert j < m ==> Before(s.waiters, line[j], line[m]);
  }

  /** Older waiter `w` is at some place before the caller's. */
  ghost predicate Older(s: State, w: nat, me: nat) {
    w in Ahead(s, me)
  }

  lemma PlaceOf(s: State, w: nat, me: nat) returns (m: nat)
    requires Older(s, w, me)
    ensures m < |Ahead(s, me)| && Line(s.waiters)[m] == w && Ahead(s, w) == Line(s.waiters)[..m]
  {
    m :| m < |Ahead(s, me)| && Ahead(s, me)[m] == w;
    AheadAt(s, m);
  }

  // ----- the same scan, before and after the grant -----

  /** A poll by waiter `w`, with the request it put on record. */
  ghost predicate PollOf(q: State, w: nat, p: Claim) {
    p.me == w && w in q.waiterInfo && p.info == q.waiterInfo[w]
  }

  /** What the scan of a poll sees once `c` has been granted in `q`. */
  ghost predicate Seated(q: State, cfg: Config, c: Claim, q': State) {
    && q'.now == q.now && q'.target == q.target
    && q'.waiters == q.waiters - {c.me} && q'.waiterInfo == q.waiterInfo - {c.me}
    && q'.seatWeight == q.seatWeight[c.lease := c.info.weight]
    && q'.seatTenant == q.seatTenant[c.lease := c.info.site.tenant]
    && q'.turns == Seat(q, cfg, c).turns && q'.delays == Seat(q, cfg, c).delays
  }

  lemma PollSees(s: State, cfg: Config, c: Claim, w: nat, p: Claim)
    requires Inv(s, cfg) && Timed(cfg) && Granted(s, cfg, c)
    requires Older(Queue(s, cfg, c), w, c.me) && PollOf(Queue(s, cfg, c), w, p)
    ensures Seated(Queue(s, cfg, c), cfg, c, Queue(AfterClaim(s, cfg, c), cfg, p))
  {
    var q, s' := Queue(s, cfg, c), AfterClaim(s, cfg, c);
    var m := PlaceOf(q, w, c.me);
    AheadAt(q, m);
    AllFresh(s, cfg, c);
    PurgeIdle(s');
    assert s' == Seat(q, cfg, c);
    assert w != c.me;
    RejoinIdle(s', cfg, p);
  }

  /** A waiter already in the line, polling with the request it has on record,
      changes only its own time to live. */
  lemma RejoinIdle(s: State, cfg: Config, p: Claim)
    requires p.me in s.waiters && p.me in s.waiterInfo && s.waiterInfo[p.me] == p.info
    ensures Join(s, cfg, p) == s.(waiterExp := Join(s, cfg, p).waiterExp)
  {
    assert s.waiterInfo[p.me := p.info] == s.waiterInfo;
  }

  /** The grant leaves nothing lapsed behind: a second purge drops nobody. */
  lemma AllFresh(s: State, cfg: Config, c: Claim)
    requires Timed(cfg)
    ensures Lapsed(AfterClaim(s, cfg, c).seats, s.now) == {}
    ensures Lapsed(AfterClaim(s, cfg, c).waiterExp, s.now) == {}
  {
    var q := Queue(s, cfg, c);
    assert q.seats == s.seats - Lapsed(s.seats, s.now);
    assert q.waiterExp == (s.waiterExp - Lapsed(s.waiterExp, s.now))[c.me := s.now + cfg.waiterTtl];
  }

  lemma PurgeIdle(s: State)
    requires Lapsed(s.seats, s.now) == {} && Lapsed(s.waiterExp, s.now) == {}
    ensures Purge(s) == s
  {
  }

  /** Two scans in step: the second counts caller `i` on top of the first. */
  ghost predicate InStep(q: State, sim: Sim, q': State, sim': Sim, i: Info) {
    && sim'.use == sim.use + i.weight
    && (forall t :: SimTenant(q', sim', t) == SimTenant(q, sim, t) + if t == i.site.tenant then i.weight else 0.0)
    && (forall k :: SimSlots(q', sim', k) == SimSlots(q, sim, k) + if k == i.site then 1 else 0)
    && (forall k :: k != i.site || i.delayMs <= 0 ==> SimNext(q', sim', k) == SimNext(q, sim, k))
    && (i.delayMs > 0 ==> SimNext(q', sim', i.site) > q.now)
  }

  lemma StartTenants(q: State, cfg: Config, c: Claim, q': State, t: string)
    requires SeatsAgree(q) && c.lease !in q.seats && Seated(q, cfg, c, q')
    ensures TenantUse(q', t) == TenantUse(q, t) + if t == c.info.site.tenant then c.info.weight else 0.0
  {
    var before, after := Part(q.seatWeight, HeldBy(q, t)), Part(q'.seatWeight, HeldBy(q', t));
    if t == c.info.site.tenant {
      TotalAdd(before, c.lease, c.info.weight);
      assert after == before[c.lease := c.info.weight];
    } else {
      assert after == before;
    }
  }

  lemma StartSlots(q: State, cfg: Config, c: Claim, q': State, k: Site)
    requires Timed(cfg) && Seated(q, cfg, c, q') && Lease(c.lease) !in LiveTurns(q, c.info.site)
    ensures |LiveTurns(q', k)| == |LiveTurns(q, k)| + if k == c.info.site then 1 else 0
  {
    PutLive(q.turns, q.now, c.info.site, Lease(c.lease), cfg.leaseTtl, k);
    assert q'.turns == Put(q.turns, q.now, c.info.site, Lease(c.lease), q.now + cfg.leaseTtl, cfg.leaseTtl);
    if k != c.info.site { assert LiveTurns(q', k) == LiveTurns(q, k); }
  }

  lemma StartInStep(q: State, cfg: Config, c: Claim, q': State)
    requires SeatsAgree(q) && Timed(cfg) && c.lease !in q.seats && Seated(q, cfg, c, q')
    requires Lease(c.lease) !in LiveTurns(q, c.info.site)
    ensures InStep(q, Start(q), q', Start(q'), c.info)
  {
    TotalAdd(q.seatWeight, c.lease, c.info.weight);
    forall t { StartTenants(q, cfg, c, q', t); }
    forall k { StartSlots(q, cfg, c, q', k); }
    StartNext(q, cfg, c, q');
    StartSims(q);
    StartSims(q');
  }

  /** A scan starts from what the store holds. */
  lemma StartSims(s: State)
    ensures Start(s).use == Total(s.seatWeight)
    ensures forall t :: SimTenant(s, Start(s), t) == TenantUse(s, t)
    ensures forall k :: SimSlots(s, Start(s), k) == |LiveTurns(s, k)|
    ensures forall k :: SimNext(s, Start(s), k) == NextAt(s, k)
  {
  }

  lemma StartNext(q: State, cfg: Config, c: Claim, q': State)
    requires q'.now == q.now && q'.delays == Seat(q, cfg, c).delays
    ensures forall k :: k != c.info.site || c.info.delayMs <= 0 ==> NextAt(q', k) == NextAt(q, k)
    ensures c.info.delayMs > 0 ==> NextAt(q', c.info.site) > q.now
  {
  }

  /** An older waiter on the caller's own site keeps its turn only if the caller
      set no delay and left a slot under that waiter's own cap. */
  ghost predicate RoomLeft(q: State, sim: Sim, j: Info, i: Info) {
    j.site == i.site ==> i.delayMs <= 0 && SimSlots(q, sim, j.site) + 1 < j.cap
  }

  /** What the caller's own turn, later in the scan, says of an earlier one. */
  ghost predicate LeavesRoom(q: State, r: Rule, sim: Sim, j: Info, i: Info) {
    && sim.use + j.weight + i.weight <= r.target
    && (r.shared && j.site.tenant == i.site.tenant ==>
          SimTenant(q, sim, j.site.tenant) + j.weight + i.weight <= r.shareCap as real)
  }

  /** A waiter freed by the caller's leaving: refused in the scan, it fits on top of
      the simulated use and the caller, once shares no longer count. */
  ghost predicate FreedHere(q: State, r: Rule, sim: Sim, j: Info, i: Info) {
    && !Fits(q, r, sim, j)
    && SimSlots(q, sim, j.site) + (if j.site == i.site then 1 else 0) < j.cap
    && (j.site == i.site ==> i.delayMs <= 0) && SimNext(q, sim, j.site) <= q.now
    && sim.use + i.weight + j.weight <= r.target
  }

  /** The rule `r'` of a later scan: the same target and share, with shares counted
      no more than before. */
  ghost predicate Relaxed(r: Rule, r': Rule) {
    r'.target == r.target && r'.shareCap == r.shareCap && (r'.shared ==> r.shared)
  }

  lemma StepInStep(q: State, sim: Sim, q': State, sim': Sim, r: Rule, r': Rule, i: Info, j: Info)
    requires q'.now == q.now && WellFormed(i) && WellFormed(j) && sim.use >= 0.0 && Relaxed(r, r')
    requires forall t :: SimTenant(q, sim, t) >= 0.0
    requires InStep(q, sim, q', sim', i)
    requires Fits(q, r, sim, j) ==> LeavesRoom(q, r, sim, j, i)
    ensures Fits(q, r, sim, j) ==> (Fits(q', r', sim', j) <==> RoomLeft(q, sim, j, i))
    ensures !Fits(q, r, sim, j) ==> (Fits(q', r', sim', j) <==> r.shared && !r'.shared && FreedHere(q, r, sim, j, i))
  {
    assert SimTenant(q', sim', j.site.tenant)
        == SimTenant(q, sim, j.site.tenant) + if j.site.tenant == i.site.tenant then i.weight else 0.0;
  }

  lemma ReserveInStep(q: State, sim: Sim, q': State, sim': Sim, i: Info, j: Info)
    requires q'.now == q.now && InStep(q, sim, q', sim', i)
    ensures InStep(q, Reserve(q, sim, j), q', Reserve(q', sim', j), i)
  {
    var a, b := Reserve(q, sim, j), Reserve(q', sim', j);
    forall t ensures SimTenant(q', b, t) == SimTenant(q, a, t) + if t == i.site.tenant then i.weight else 0.0 {
      ReserveTenants(q, sim, q', sim', i, j, t);
    }
    forall k ensures SimSlots(q', b, k) == SimSlots(q, a, k) + if k == i.site then 1 else 0 {
      ReserveSlots(q, sim, q', sim', i, j, k);
    }
    forall k | k != i.site || i.delayMs <= 0 ensures SimNext(q', b, k) == SimNext(q, a, k) {
      ReserveNext(q, sim, q', sim', i, j, k);
    }
  }

  lemma ReserveTenants(q: State, sim: Sim, q': State, sim': Sim, i: Info, j: Info, t: string)
    requires forall u :: u == t || u == j.site.tenant ==>
      SimTenant(q', sim', u) == SimTenant(q, sim, u) + if u == i.site.tenant then i.weight else 0.0
    ensures SimTenant(q', Reserve(q', sim', j), t) == SimTenant(q, Reserve(q, sim, j), t) + if t == i.site.tenant then i.weight else 0.0
  {
    assert SimTenant(q', sim', j.site.tenant) == SimTenant(q, sim, j.site.tenant) + if j.site.tenant == i.site.tenant then i.weight else 0.0;
    assert SimTenant(q', sim', t) == SimTenant(q, sim, t) + if t == i.site.tenant then i.weight else 0.0;
  }

  lemma ReserveSlots(q: State, sim: Sim, q': State, sim': Sim, i: Info, j: Info, k: Site)
    requires forall l :: l == k || l == j.site ==> SimSlots(q', sim', l) == SimSlots(q, sim, l) + if l == i.site then 1 else 0
    ensures SimSlots(q', Reserve(q', sim', j), k) == SimSlots(q, Reserve(q, sim, j), k) + if k == i.site then 1 else 0
  {
    assert SimSlots(q', sim', j.site) == SimSlots(q, sim, j.site) + if j.site == i.site then 1 else 0;
    assert SimSlots(q', sim', k) == SimSlots(q, sim, k) + if k == i.site then 1 else 0;
  }

  lemma ReserveNext(q: State, sim: Sim, q': State, sim': Sim, i: Info, j: Info, k: Site)
    requires q'.now == q.now && SimNext(q', sim', k) == SimNext(q, sim, k)
    ensures SimNext(q', Reserve(q', sim', j), k) == SimNext(q, Reserve(q, sim, j), k)
  {
  }

  // ----- later turns only see more in use -----

  ghost predicate Grows(s: State, a: Sim, b: Sim) {
    && a.use <= b.use
    && (forall t :: SimTenant(s, a, t) <= SimTenant(s, b, t))
    && (forall k :: SimNext(s, a, k) > s.now ==> SimNext(s, b, k) > s.now)
  }

  lemma ReserveGrows(s: State, sim: Sim, i: Info)
    requires WellFormed(i)
    ensures Grows(s, sim, Reserve(s, sim, i))
  {
  }

  lemma {:induction false} ScanGrows(s: State, r: Rule, line: seq<nat>, m: nat)
    requires LineAgrees(s) && m <= |line|
    ensures Grows(s, Scan(s, r, line[..m]), Scan(s, r, line))
    decreases |line|
  {
    if m == |line| {
      assert line[..m] == line;
    } else {
      var front, w := line[..|line| - 1], line[|line| - 1];
      ScanGrows(s, r, front, m);
      assert front[..m] == line[..m];
      if w in s.waiterInfo { ReserveGrows(s, Scan(s, r, front), s.waiterInfo[w]); }
    }
  }

  /** An eligible waiter's reservation stands when the caller's turn comes: the
      caller fits on top of it, so it is not on the same paced site. */
  lemma WinnerLeavesRoom(q: State, cfg: Config, me: nat, m: nat)
    requires LineAgrees(q) && SeatsAgree(q) && Wins(q, cfg, me) && m < |Ahead(q, me)|
    requires Ahead(q, me)[m] in q.waiterInfo
    requires Fits(q, RuleOf(q, cfg), Scan(q, RuleOf(q, cfg), Ahead(q, me)[..m]), q.waiterInfo[Ahead(q, me)[m]])
    ensures var j := q.waiterInfo[Ahead(q, me)[m]];
      LeavesRoom(q, RuleOf(q, cfg), Scan(q, RuleOf(q, cfg), Ahead(q, me)[..m]), j, q.waiterInfo[me])
      && (j.site == q.waiterInfo[me].site ==> j.delayMs <= 0)
  {
    var r, line := RuleOf(q, cfg), Ahead(q, me);
    var j, i := q.waiterInfo[line[m]], q.waiterInfo[me];
    var sim, end := Scan(q, r, line[..m]), Scan(q, r, line);
    assert line[..m + 1][..m] == line[..m];
    ScanGrows(q, r, line, m + 1);
    var next := Scan(q, r, line[..m + 1]);
    assert next == Reserve(q, sim, j);
    ScanOver(q, r, line[..m]);
    TotalDrop(q.seatWeight, {});
    TotalDrop(Part(q.seatWeight, HeldBy(q, j.site.tenant)), {});
    assert SimTenant(q, sim, j.site.tenant) >= TenantUse(q, j.site.tenant) >= 0.0;
    assert SimTenant(q, next, j.site.tenant) <= SimTenant(q, end, j.site.tenant);
    assert j.delayMs > 0 ==> SimNext(q, next, j.site) > q.now;
    assert SimNext(q, next, j.site) > q.now ==> SimNext(q, end, j.site) > q.now;
  }

  // ----- place by place -----

  ghost predicate EligibleAt(q: State, cfg: Config, m: nat)
    requires m < |Line(q.waiters)|
  {
    var line, r := Line(q.waiters), RuleOf(q, cfg);
    line[m] in q.waiterInfo && Fits(q, r, Scan(q, r, line[..m]), q.waiterInfo[line[m]])
  }

  ghost predicate RoomAt(q: State, cfg: Config, m: nat, i: Info)
    requires m < |Line(q.waiters)|
  {
    var line, r := Line(q.waiters), RuleOf(q, cfg);
    line[m] in q.waiterInfo && RoomLeft(q, Scan(q, r, line[..m]), q.waiterInfo[line[m]], i)
  }

  ghost predicate FreedAt(q: State, cfg: Config, m: nat, i: Info)
    requires m < |Line(q.waiters)|
  {
    var line, r := Line(q.waiters), RuleOf(q, cfg);
    line[m] in q.waiterInfo && FreedHere(q, r, Scan(q, r, line[..m]), q.waiterInfo[line[m]], i)
  }

  /** The waiter at place `m` is told after the grant what it was told before:
      left room if it was eligible, and not freed if the share rule lifts. */
  ghost predicate SteadyAt(q: State, cfg: Config, r': Rule, m: nat, i: Info)
    requires m < |Line(q.waiters)|
  {
    && (EligibleAt(q, cfg, m) ==> RoomAt(q, cfg, m, i))
    && (RuleOf(q, cfg).shared && !r'.shared ==> !FreedAt(q, cfg, m, i))
  }

  /** The grant of `c` in queue `q`, and the store `q'` a later poll scans. */
  ghost predicate Scene(q: State, cfg: Config, c: Claim, q': State) {
    && SeatsAgree(q) && LineAgrees(q) && Timed(cfg) && WellFormed(c.info)
    && c.me in q.waiterInfo && q.waiterInfo[c.me] == c.info && Wins(q, cfg, c.me)
    && c.lease !in q.seats && Lease(c.lease) !in LiveTurns(q, c.info.site)
    && Seated(q, cfg, c, q') && Relaxed(RuleOf(q, cfg), RuleOf(q', cfg))
  }

  /** Up to place `n` the two scans agree on everybody, as long as everybody before
      it is steady. */
  lemma {:induction false} PrefixInStep(q: State, cfg: Config, c: Claim, q': State, n: nat)
    requires Scene(q, cfg, c, q') && n <= |Ahead(q, c.me)|
    requires forall m :: 0 <= m < n ==> SteadyAt(q, cfg, RuleOf(q', cfg), m, c.info)
    ensures InStep(q, Scan(q, RuleOf(q, cfg), Line(q.waiters)[..n]), q', Scan(q', RuleOf(q', cfg), Line(q.waiters)[..n]), c.info)
  {
    if n == 0 {
      StartInStep(q, cfg, c, q');
    } else {
      PrefixInStep(q, cfg, c, q', n - 1);
      PlaceInStep(q, cfg, c, q', n - 1);
    }
  }

  lemma ScanNext(s: State, r: Rule, line: seq<nat>, n: nat)
    requires n < |line|
    ensures Scan(s, r, line[..n + 1]) == Pass(s, r, Scan(s, r, line[..n]), line[n])
  {
    assert line[..n + 1][..n] == line[..n];
  }

  lemma PlaceInStep(q: State, cfg: Config, c: Claim, q': State, n: nat)
    requires Scene(q, cfg, c, q') && n < |Ahead(q, c.me)| && SteadyAt(q, cfg, RuleOf(q', cfg), n, c.info)
    requires InStep(q, Scan(q, RuleOf(q, cfg), Line(q.waiters)[..n]), q', Scan(q', RuleOf(q', cfg), Line(q.waiters)[..n]), c.info)
    ensures InStep(q, Scan(q, RuleOf(q, cfg), Line(q.waiters)[..n + 1]), q', Scan(q', RuleOf(q', cfg), Line(q.waiters)[..n + 1]), c.info)
  {
    var r, r', line := RuleOf(q, cfg), RuleOf(q', cfg), Line(q.waiters);
    ScanNext(q, r, line, n);
    ScanNext(q', r', line, n);
    SameVerdict(q, cfg, c, q', n);
    ReserveInStep(q, Scan(q, r, line[..n]), q', Scan(q', r', line[..n]), c.info, q.waiterInfo[line[n]]);
  }

  /** At place `n`, in step so far: eligible after the grant exactly if eligible
      before it and left room, or freed by the share rule's lifting. */
  lemma SameVerdict(q: State, cfg: Config, c: Claim, q': State, n: nat)
    requires Scene(q, cfg, c, q') && n < |Ahead(q, c.me)|
    requires InStep(q, Scan(q, RuleOf(q, cfg), Line(q.waiters)[..n]), q', Scan(q', RuleOf(q', cfg), Line(q.waiters)[..n]), c.info)
    ensures Line(q.waiters)[n] in q.waiterInfo && Line(q.waiters)[n] in q'.waiterInfo
    ensures q'.waiterInfo[Line(q.waiters)[n]] == q.waiterInfo[Line(q.waiters)[n]]
    ensures Fits(q', RuleOf(q', cfg), Scan(q', RuleOf(q', cfg), Line(q.waiters)[..n]), q.waiterInfo[Line(q.waiters)[n]])
       <==> AfterAt(q, cfg, RuleOf(q', cfg), n, c.info)
  {
    var r, r', line := RuleOf(q, cfg), RuleOf(q', cfg), Line(q.waiters);
    PlaceAhead(q, c, n);
    var sim := Scan(q, r, line[..n]);
    ScanOver(q, r, line[..n]);
    NothingNegative(q, sim);
    if EligibleAt(q, cfg, n) { WinnerLeavesRoom(q, cfg, c.me, n); }
    StepInStep(q, sim, q', Scan(q', r', line[..n]), r, r', c.info, q.waiterInfo[line[n]]);
  }

  lemma PlaceAhead(q: State, c: Claim, n: nat)
    requires LineAgrees(q) && n < |Ahead(q, c.me)|
    ensures var line := Line(q.waiters);
      line[n] in q.waiterInfo && line[n] != c.me && Ahead(q, c.me)[n] == line[n] && Ahead(q, c.me)[..n] == line[..n]
  {
    AheadAt(q, n);
  }

  /** What the waiter at place `n` is told after the grant. */
  ghost predicate AfterAt(q: State, cfg: Config, r': Rule, n: nat, i: Info)
    requires n < |Line(q.waiters)|
  {
    if EligibleAt(q, cfg, n) then RoomAt(q, cfg, n, i)
    else RuleOf(q, cfg).shared && !r'.shared && FreedAt(q, cfg, n, i)
  }

  lemma NothingNegative(q: State, sim: Sim)
    requires SeatsAgree(q) && Over(q, sim)
    ensures sim.use >= 0.0 && forall t :: SimTenant(q, sim, t) >= 0.0
  {
    TotalDrop(q.seatWeight, {});
    forall t ensures SimTenant(q, sim, t) >= 0.0 {
      TotalDrop(Part(q.seatWeight, HeldBy(q, t)), {});
      assert SimTenant(q, sim, t) >= TenantUse(q, t);
    }
  }

  /** The line closes over the caller; nobody ahead of it moves. */
  lemma SamePlace(q: State, me: nat, n: nat)
    requires me in q.waiters && n < |Ahead(q, me)|
    ensures Ahead(q.(waiters := q.waiters - {me}), Line(q.waiters)[n]) == Line(q.waiters)[..n]
  {
    var line := Line(q.waiters);
    assert me in line by { LineSorted(q.waiters); }
    var k := IndexIn(line, me);
    LineRemove(q.waiters, k);
    Cut(line, k, n);
    AheadAt(q.(waiters := q.waiters - {me}), n);
  }

  lemma Cut(line: seq<nat>, k: nat, n: nat)
    requires n < k < |line|
    ensures (line[..k] + line[k + 1..])[n] == line[n]
    ensures (line[..k] + line[k + 1..])[..n] == line[..n]
  {
  }

  /** What waiter `w`'s own poll, at once after the grant, is told. */
  lemma PollVerdict(q: State, cfg: Config, c: Claim, q': State, n: nat)
    requires Scene(q, cfg, c, q') && n < |Ahead(q, c.me)|
    requires forall m :: 0 <= m < n ==> SteadyAt(q, cfg, RuleOf(q', cfg), m, c.info)
    ensures Wins(q', cfg, Line(q.waiters)[n]) <==> AfterAt(q, cfg, RuleOf(q', cfg), n, c.info)
  {
    PrefixInStep(q, cfg, c, q', n);
    SameVerdict(q, cfg, c, q', n);
    SamePlace(q, c.me, n);
    assert Ahead(q', Line(q.waiters)[n]) == Ahead(q.(waiters := q.waiters - {c.me}), Line(q.waiters)[n]);
  }

  // ----- the conditions, waiter by waiter -----

  /** Older waiter `w`, eligible in the caller's scan, is not short of a slot or
      a delay on the caller's own site. */
  ghost predicate LeftRoom(q: State, cfg: Config, c: Claim, w: nat) {
    w in q.waiterInfo && RoomLeft(q, Scan(q, RuleOf(q, cfg), Ahead(q, w)), q.waiterInfo[w], c.info)
  }

  ghost predicate AllLeftRoom(q: State, cfg: Config, c: Claim) {
    forall w :: Older(q, w, c.me) && Wins(q, cfg, w) ==> LeftRoom(q, cfg, c, w)
  }

  /** The caller is the only other tenant in the line: once it leaves, shares no
      longer count. */
  ghost predicate ShareLifts(q: State, c: Claim) {
    |Tenants(q)| > 1 && |Tenants(DropWaiter(q, c.me))| <= 1
  }

  ghost predicate Freed(q: State, cfg: Config, c: Claim, w: nat) {
    w in q.waiterInfo && FreedHere(q, RuleOf(q, cfg), Scan(q, RuleOf(q, cfg), Ahead(q, w)), q.waiterInfo[w], c.info)
  }

  /** No older waiter is freed by the share rule's lifting, if it lifts. */
  ghost predicate NoneFreed(q: State, cfg: Config, c: Claim) {
    ShareLifts(q, c) ==> forall w :: Older(q, w, c.me) ==> !Freed(q, cfg, c, w)
  }

  /** Every older waiter is told the same after the grant as in the scan before. */
  ghost predicate Unchanged(q: State, cfg: Config, c: Claim, q': State) {
    forall w :: Older(q, w, c.me) ==> (Wins(q', cfg, w) <==> Wins(q, cfg, w))
  }

  /** Every older waiter eligible before is still granted. */
  ghost predicate StillGranted(q: State, cfg: Config, c: Claim, q': State) {
    forall w :: Older(q, w, c.me) && Wins(q, cfg, w) ==> Wins(q', cfg, w)
  }

  /** The line's tenants, seen after the grant: the caller's leaving can lift the
      share rule, never bring it in. */
  lemma RuleRelaxes(q: State, cfg: Config, c: Claim, q': State)
    requires Seated(q, cfg, c, q')
    ensures Relaxed(RuleOf(q, cfg), RuleOf(q', cfg))
    ensures RuleOf(q, cfg).shared && !RuleOf(q', cfg).shared <==> ShareLifts(q, c)
  {
    var left := DropWaiter(q, c.me);
    assert Tenants(q') == Tenants(left);
    assert Tenants(left) <= Tenants(q);
    Fewer(Tenants(left), Tenants(q));
  }

  lemma Fewer(a: set<string>, b: set<string>)
    requires a <= b
    ensures |a| <= |b|
  {
    assert b == a + (b - a);
  }

  /** Place `m` seen as its waiter. */
  lemma AtPlace(q: State, cfg: Config, c: Claim, m: nat)
    requires m < |Ahead(q, c.me)|
    ensures var w := Line(q.waiters)[m];
      && Older(q, w, c.me) && (EligibleAt(q, cfg, m) <==> Wins(q, cfg, w))
      && (RoomAt(q, cfg, m, c.info) <==> LeftRoom(q, cfg, c, w)) && (FreedAt(q, cfg, m, c.info) <==> Freed(q, cfg, c, w))
  {
    AheadAt(q, m);
    assert Ahead(q, c.me)[m] == Line(q.waiters)[m];
  }

  lemma SteadyPlace(q: State, cfg: Config, c: Claim, q': State, m: nat)
    requires Scene(q, cfg, c, q') && AllLeftRoom(q, cfg, c) && NoneFreed(q, cfg, c) && m < |Ahead(q, c.me)|
    ensures SteadyAt(q, cfg, RuleOf(q', cfg), m, c.info)
  {
    AtPlace(q, cfg, c, m);
    RuleRelaxes(q, cfg, c, q');
  }

  /** Enough: with room left and nobody freed, every verdict stands. */
  lemma SteadyUnchanged(q: State, cfg: Config, c: Claim, q': State)
    requires Scene(q, cfg, c, q') && AllLeftRoom(q, cfg, c) && NoneFreed(q, cfg, c)
    ensures Unchanged(q, cfg, c, q')
  {
    forall w | Older(q, w, c.me) ensures Wins(q', cfg, w) <==> Wins(q, cfg, w) {
      var n := PlaceOf(q, w, c.me);
      forall m | 0 <= m <= n ensures SteadyAt(q, cfg, RuleOf(q', cfg), m, c.info) { SteadyPlace(q, cfg, c, q', m); }
      PollVerdict(q, cfg, c, q', n);
      AtPlace(q, cfg, c, n);
    }
  }

  /** Needed: where verdicts stand up to place `n`, everybody up to it is steady. */
  lemma {:induction false} UnchangedSteady(q: State, cfg: Config, c: Claim, q': State, n: nat)
    requires Scene(q, cfg, c, q') && Unchanged(q, cfg, c, q') && n <= |Ahead(q, c.me)|
    ensures forall m :: 0 <= m < n ==> SteadyAt(q, cfg, RuleOf(q', cfg), m, c.info)
  {
    if n > 0 {
      UnchangedSteady(q, cfg, c, q', n - 1);
      SteadyNext(q, cfg, c, q', n - 1);
    }
  }

  /** One place further: steady if its waiter, eligible before, is still granted,
      and none newly is. */
  lemma SteadyNext(q: State, cfg: Config, c: Claim, q': State, n: nat)
    requires Scene(q, cfg, c, q') && n < |Ahead(q, c.me)|
    requires forall m :: 0 <= m < n ==> SteadyAt(q, cfg, RuleOf(q', cfg), m, c.info)
    requires var w := Line(q.waiters)[n];
      Older(q, w, c.me) ==> (Wins(q, cfg, w) ==> Wins(q', cfg, w)) && (!Wins(q, cfg, w) && Wins(q', cfg, w) ==> !ShareLifts(q, c))
    ensures SteadyAt(q, cfg, RuleOf(q', cfg), n, c.info)
  {
    PollVerdict(q, cfg, c, q', n);
    AtPlace(q, cfg, c, n);
    RuleRelaxes(q, cfg, c, q');
    EligibleNotFreed(q, cfg, n, c.info);
  }

  lemma EligibleNotFreed(q: State, cfg: Config, m: nat, i: Info)
    requires m < |Line(q.waiters)|
    ensures EligibleAt(q, cfg, m) ==> !FreedAt(q, cfg, m, i)
  {
  }

  lemma UnchangedMeans(q: State, cfg: Config, c: Claim, q': State)
    requires Scene(q, cfg, c, q') && Unchanged(q, cfg, c, q')
    ensures AllLeftRoom(q, cfg, c) && NoneFreed(q, cfg, c)
  {
    UnchangedSteady(q, cfg, c, q', |Ahead(q, c.me)|);
    SteadyMeans(q, cfg, c, q');
  }

  ghost predicate AllSteady(q: State, cfg: Config, c: Claim, q': State) {
    forall m :: 0 <= m < |Ahead(q, c.me)| ==> SteadyAt(q, cfg, RuleOf(q', cfg), m, c.info)
  }

  lemma SteadyWaiter(q: State, cfg: Config, c: Claim, q': State, w: nat)
    requires Seated(q, cfg, c, q') && AllSteady(q, cfg, c, q') && Older(q, w, c.me)
    ensures Wins(q, cfg, w) ==> LeftRoom(q, cfg, c, w)
    ensures ShareLifts(q, c) ==> !Freed(q, cfg, c, w)
  {
    var n := PlaceOf(q, w, c.me);
    AtPlace(q, cfg, c, n);
    RuleRelaxes(q, cfg, c, q');
    assert SteadyAt(q, cfg, RuleOf(q', cfg), n, c.info);
  }

  lemma SteadyMeans(q: State, cfg: Config, c: Claim, q': State)
    requires Seated(q, cfg, c, q') && AllSteady(q, cfg, c, q')
    ensures AllLeftRoom(q, cfg, c) && NoneFreed(q, cfg, c)
  {
    forall w | Older(q, w, c.me) ensures (Wins(q, cfg, w) ==> LeftRoom(q, cfg, c, w)) && (ShareLifts(q, c) ==> !Freed(q, cfg, c, w)) {
      SteadyWaiter(q, cfg, c, q', w);
    }
  }

  // ----- the theorem -----

  lemma SceneHolds(s: State, cfg: Config, c: Claim, q': State)
    requires Inv(s, cfg) && Timed(cfg) && Legal(s, Claims(c)) && Granted(s, cfg, c)
    requires Seated(Queue(s, cfg, c), cfg, c, q')
    ensures Scene(Queue(s, cfg, c), cfg, c, q')
  {
    QueueKeeps(s, cfg, c);
    RuleRelaxes(Queue(s, cfg, c), cfg, c, q');
  }

  /** No overtaking. Say the caller is granted. Then every older waiter, polled at
      that same instant, is told what the caller's scan told it, eligible or not,
      if and only if each eligible one on the caller's own site was left room
      there, and the caller's leaving frees none that the share rule refused. */
  lemma NoOvertaking(s: State, cfg: Config, c: Claim, q': State)
    requires Inv(s, cfg) && Timed(cfg) && Legal(s, Claims(c)) && Granted(s, cfg, c)
    requires Seated(Queue(s, cfg, c), cfg, c, q')
    ensures Unchanged(Queue(s, cfg, c), cfg, c, q') <==> AllLeftRoom(Queue(s, cfg, c), cfg, c) && NoneFreed(Queue(s, cfg, c), cfg, c)
  {
    var q := Queue(s, cfg, c);
    SceneHolds(s, cfg, c, q');
    if AllLeftRoom(q, cfg, c) && NoneFreed(q, cfg, c) { SteadyUnchanged(q, cfg, c, q'); }
    if Unchanged(q, cfg, c, q') { UnchangedMeans(q, cfg, c, q'); }
  }

  lemma {:induction false} GrantedSteady(q: State, cfg: Config, c: Claim, q': State, n: nat)
    requires Scene(q, cfg, c, q') && StillGranted(q, cfg, c, q') && !ShareLifts(q, c) && n <= |Ahead(q, c.me)|
    ensures forall m :: 0 <= m < n ==> SteadyAt(q, cfg, RuleOf(q', cfg), m, c.info)
  {
    if n > 0 {
      GrantedSteady(q, cfg, c, q', n - 1);
      GrantedNext(q, cfg, c, q', n - 1);
    }
  }

  lemma GrantedNext(q: State, cfg: Config, c: Claim, q': State, n: nat)
    requires Scene(q, cfg, c, q') && StillGranted(q, cfg, c, q') && !ShareLifts(q, c) && n < |Ahead(q, c.me)|
    requires forall m :: 0 <= m < n ==> SteadyAt(q, cfg, RuleOf(q', cfg), m, c.info)
    ensures SteadyAt(q, cfg, RuleOf(q', cfg), n, c.info)
  {
    StillAt(q, cfg, c, q', Line(q.waiters)[n]);
    SteadyNext(q, cfg, c, q', n);
  }

  lemma StillAt(q: State, cfg: Config, c: Claim, q': State, w: nat)
    requires StillGranted(q, cfg, c, q') && Older(q, w, c.me)
    ensures Wins(q, cfg, w) ==> Wins(q', cfg, w)
  {
  }

  /** While the share rule stands, that the eligible stay eligible is enough for
      everybody's verdict to stand. */
  lemma EligibleDecide(s: State, cfg: Config, c: Claim, q': State)
    requires Inv(s, cfg) && Timed(cfg) && Legal(s, Claims(c)) && Granted(s, cfg, c)
    requires Seated(Queue(s, cfg, c), cfg, c, q') && !ShareLifts(Queue(s, cfg, c), c)
    ensures StillGranted(Queue(s, cfg, c), cfg, c, q') <==> Unchanged(Queue(s, cfg, c), cfg, c, q')
  {
    SceneHolds(s, cfg, c, q');
    if StillGranted(Queue(s, cfg, c), cfg, c, q') { GrantedUnchanged(Queue(s, cfg, c), cfg, c, q'); }
  }

  lemma GrantedUnchanged(q: State, cfg: Config, c: Claim, q': State)
    requires Scene(q, cfg, c, q') && StillGranted(q, cfg, c, q') && !ShareLifts(q, c)
    ensures Unchanged(q, cfg, c, q')
  {
    GrantedSteady(q, cfg, c, q', |Ahead(q, c.me)|);
    SteadyMeans(q, cfg, c, q');
    SteadyUnchanged(q, cfg, c, q');
  }

  /** In particular nobody is overtaken where requests are paced: if every older
      waiter on the caller's own site has a positive delay, and none is freed, each
      older waiter's own poll `p` right after the grant is told what the scan told
      it before. */
  lemma NoOvertakingWhenPaced(s: State, cfg: Config, c: Claim, w: nat, p: Claim)
    requires Inv(s, cfg) && Timed(cfg) && Legal(s, Claims(c)) && Granted(s, cfg, c)
    requires Older(Queue(s, cfg, c), w, c.me) && PollOf(Queue(s, cfg, c), w, p)
    requires NoneFreed(Queue(s, cfg, c), cfg, c)
    requires var q := Queue(s, cfg, c);
      forall v :: Older(q, v, c.me) && v in q.waiterInfo && q.waiterInfo[v].site == c.info.site ==> q.waiterInfo[v].delayMs > 0
    ensures Granted(AfterClaim(s, cfg, c), cfg, p) <==> Wins(Queue(s, cfg, c), cfg, w)
  {
    PollSees(s, cfg, c, w, p);
    PacedLeavesRoom(Queue(s, cfg, c), cfg, c) by { QueueKeeps(s, cfg, c); }
    NoOvertaking(s, cfg, c, Queue(AfterClaim(s, cfg, c), cfg, p));
  }

  lemma PacedLeavesRoom(q: State, cfg: Config, c: Claim)
    requires LineAgrees(q) && SeatsAgree(q) && Wins(q, cfg, c.me) && q.waiterInfo[c.me] == c.info
    requires forall v :: Older(q, v, c.me) && v in q.waiterInfo && q.waiterInfo[v].site == c.info.site ==> q.waiterInfo[v].delayMs > 0
    ensures AllLeftRoom(q, cfg, c)
  {
    forall v | Older(q, v, c.me) && Wins(q, cfg, v) ensures LeftRoom(q, cfg, c, v) {
      var m := PlaceOf(q, v, c.me);
      assert Ahead(q, c.me)[m] == v && Ahead(q, c.me)[..m] == Line(q.waiters)[..m];
      WinnerLeavesRoom(q, cfg, c.me, m);
    }
  }
}
