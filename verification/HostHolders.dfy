/** Who keeps what it holds: a seat that is renewed in time, a slot that is
    refreshed in time, over every run; and what acquire, release and the replies
    come to. */
module HostHolders {
  import opened Basics
  import opened Sums
  import opened Host
  import opened HostInvariant
  import opened HostBudget
  import opened HostLine

  /** Member `m` of site `k` is on record until `end` at least. */
  ghost predicate HeldTill(turns: map<Site, Turns>, k: Site, m: Member, end: int) {
    k in turns && m in turns[k].members && end <= turns[k].members[m] && turns[k].members[m] <= turns[k].deadline
  }

  lemma PutHolds(turns: map<Site, Turns>, now: nat, at: Site, n: Member, ttl: nat, k: Site, m: Member, end: int)
    requires HeldTill(turns, k, m, end) && now < end && KeysCover(turns) && ttl > 0
    requires at == k && n == m ==> end <= now + ttl
    ensures HeldTill(Put(turns, now, at, n, now + ttl, ttl), k, m, end)
  {
  }

  lemma DropHolds(turns: map<Site, Turns>, now: nat, at: Site, n: Member, k: Site, m: Member, end: int)
    requires HeldTill(turns, k, m, end) && now < end && (at == k ==> n != m)
    ensures HeldTill(Drop(turns, now, at, n), k, m, end)
  {
    assert m in Visible(turns, now, k);
    assert at == k ==> m in Visible(turns, now, k) - {n};
  }

  lemma PurgeHolds(turns: map<Site, Turns>, now: nat, at: Site, k: Site, m: Member, end: int)
    requires HeldTill(turns, k, m, end) && now < end
    ensures HeldTill(PurgeTurns(turns, now, at), k, m, end)
  {
    assert at == k ==> m in Unlapsed(turns, now, k);
  }

  // ----- slots -----

  /** In the run `es`, worker `w` refreshes its slot on `k`, last put on record at
      `since`, before its time to live is over, and does not free it. */
  ghost predicate Refreshed(s: State, cfg: Config, es: seq<Event>, k: Site, w: nat, since: int)
    decreases |es|
  {
    es == [] ||
    var t := Step(s, cfg, es[0]);
    && t.now < since + cfg.slotTtl && es[0] != FreeTurn(k, w)
    && Refreshed(t, cfg, es[1..], k, w, if es[0] == Refresh(k, w) then s.now else since)
  }

  lemma SlotStep(s: State, cfg: Config, e: Event, k: Site, w: nat, since: int)
    requires Timed(cfg) && KeysCover(s.turns) && since <= s.now < since + cfg.slotTtl && e != FreeTurn(k, w)
    requires HeldTill(s.turns, k, Turn(w), since + cfg.slotTtl)
    ensures HeldTill(Step(s, cfg, e).turns, k, Turn(w), (if e == Refresh(k, w) then s.now else since) + cfg.slotTtl)
  {
    var m, end := Turn(w), since + cfg.slotTtl;
    match e
    case Claims(c) =>
      ClaimFrame(s, cfg, c);
      PutHolds(s.turns, s.now, c.info.site, Lease(c.lease), cfg.leaseTtl, k, m, end);
    case Renew(l, j) =>
      RenewFrame(s, cfg, l, j);
      PutHolds(s.turns, s.now, j, Lease(l), cfg.leaseTtl, k, m, end);
    case Acquire(j, v, n) => AcquireHolds(s, cfg, j, v, n, k, m, end);
    case Refresh(j, v) => RefreshHolds(s, cfg, j, v, k, w, since);
    case _ => OthersHold(s, cfg, e, k, w, end);
  }

  /** The scripts that only take members off, or leave slots alone. */
  lemma OthersHold(s: State, cfg: Config, e: Event, k: Site, w: nat, end: int)
    requires HeldTill(s.turns, k, Turn(w), end) && s.now < end && e != FreeTurn(k, w)
    requires !e.Claims? && !e.Renew? && !e.Acquire? && !e.Refresh?
    ensures HeldTill(Step(s, cfg, e).turns, k, Turn(w), end)
  {
    match e
    case Release(l, j) => DropHolds(s.turns, s.now, j, Lease(l), k, Turn(w), end);
    case ReleaseSlot(l, j) => DropHolds(s.turns, s.now, j, Lease(l), k, Turn(w), end);
    case FreeTurn(j, v) => DropHolds(s.turns, s.now, j, Turn(v), k, Turn(w), end);
    case _ =>
  }

  lemma AcquireHolds(s: State, cfg: Config, at: Site, v: nat, limit: int, k: Site, m: Member, end: int)
    requires Timed(cfg) && KeysCover(s.turns) && HeldTill(s.turns, k, m, end) && s.now < end
    requires m == Turn(v) && at == k ==> end <= s.now + cfg.slotTtl
    ensures HeldTill(Step(s, cfg, Acquire(at, v, limit)).turns, k, m, end)
  {
    var purged := PurgeTurns(s.turns, s.now, at);
    AcquireFrame(s, cfg, at, v, limit);
    PurgeHolds(s.turns, s.now, at, k, m, end);
    PurgeMembers(s.turns, s.now, at);
    PutHolds(purged, s.now, at, Turn(v), cfg.slotTtl, k, m, end);
  }

  lemma RefreshHolds(s: State, cfg: Config, at: Site, v: nat, k: Site, w: nat, since: int)
    requires Timed(cfg) && KeysCover(s.turns) && since <= s.now < since + cfg.slotTtl
    requires HeldTill(s.turns, k, Turn(w), since + cfg.slotTtl)
    ensures HeldTill(Step(s, cfg, Refresh(at, v)).turns, k, Turn(w), (if at == k && v == w then s.now else since) + cfg.slotTtl)
  {
    RefreshIs(s, cfg, at, v);
    if at == k && v == w {
      assert TurnLive(s, k, w);
      PutWrites(s.turns, s.now, k, Turn(w), cfg.slotTtl);
    } else {
      PutHolds(s.turns, s.now, at, Turn(v), cfg.slotTtl, k, Turn(w), since + cfg.slotTtl);
    }
  }

  lemma PutWrites(turns: map<Site, Turns>, now: nat, k: Site, m: Member, ttl: nat)
    ensures HeldTill(Put(turns, now, k, m, now + ttl, ttl), k, m, now + ttl)
  {
  }

  /** A slot refreshed in time is never lost: after every part of the run it is live. */
  lemma {:induction false} KeepsSlot(s: State, cfg: Config, es: seq<Event>, k: Site, w: nat, since: int, n: nat)
    requires Inv(s, cfg) && Timed(cfg) && LegalRun(s, cfg, es) && n <= |es|
    requires since <= s.now < since + cfg.slotTtl && HeldTill(s.turns, k, Turn(w), since + cfg.slotTtl)
    requires Refreshed(s, cfg, es, k, w, since)
    ensures Turn(w) in LiveTurns(Run(s, cfg, es[..n]), k)
    decreases n
  {
    if n > 0 {
      var t := Step(s, cfg, es[0]);
      StepKeeps(s, cfg, es[0]);
      SlotStep(s, cfg, es[0], k, w, since);
      OnlyTicksPass(s, cfg, es[0]);
      KeepsSlot(t, cfg, es[1..], k, w, if es[0] == Refresh(k, w) then s.now else since, n - 1);
      assert es[..n][1..] == es[1..][..n - 1];
    } else {
      assert es[..0] == [];
    }
  }

  /** Nobody puts worker `w`'s slot on `k` on record in the run. */
  ghost predicate Forgotten(es: seq<Event>, k: Site, w: nat) {
    forall e :: e in es ==> !(e.Acquire? && e.site == k && e.worker == w) && e != Refresh(k, w)
  }

  ghost predicate OverBy(turns: map<Site, Turns>, k: Site, m: Member, end: int) {
    k in turns && m in turns[k].members ==> turns[k].members[m] <= end
  }

  lemma PutOver(turns: map<Site, Turns>, now: nat, at: Site, n: Member, ttl: nat, k: Site, m: Member, end: int)
    requires OverBy(turns, k, m, end) && (at != k || n != m)
    ensures OverBy(Put(turns, now, at, n, now + ttl, ttl), k, m, end)
  {
  }

  lemma KeepOver(turns: map<Site, Turns>, now: nat, at: Site, n: Member, k: Site, m: Member, end: int)
    requires OverBy(turns, k, m, end)
    ensures OverBy(Drop(turns, now, at, n), k, m, end) && OverBy(PurgeTurns(turns, now, at), k, m, end)
  {
  }

  lemma ForgottenStep(s: State, cfg: Config, e: Event, k: Site, w: nat, end: int)
    requires OverBy(s.turns, k, Turn(w), end) && !(e.Acquire? && e.site == k && e.worker == w) && e != Refresh(k, w)
    ensures OverBy(Step(s, cfg, e).turns, k, Turn(w), end)
  {
    match e
    case Claims(c) =>
      ClaimFrame(s, cfg, c);
      PutOver(s.turns, s.now, c.info.site, Lease(c.lease), cfg.leaseTtl, k, Turn(w), end);
    case Renew(l, j) =>
      RenewFrame(s, cfg, l, j);
      PutOver(s.turns, s.now, j, Lease(l), cfg.leaseTtl, k, Turn(w), end);
    case Release(l, j) => KeepOver(s.turns, s.now, j, Lease(l), k, Turn(w), end);
    case ReleaseSlot(l, j) => KeepOver(s.turns, s.now, j, Lease(l), k, Turn(w), end);
    case FreeTurn(j, v) => KeepOver(s.turns, s.now, j, Turn(v), k, Turn(w), end);
    case Acquire(j, v, n) =>
      AcquireFrame(s, cfg, j, v, n);
      KeepOver(s.turns, s.now, j, Turn(v), k, Turn(w), end);
      PutOver(PurgeTurns(s.turns, s.now, j), s.now, j, Turn(v), cfg.slotTtl, k, Turn(w), end);
    case Refresh(j, v) =>
      RefreshIs(s, cfg, j, v);
      PutOver(s.turns, s.now, j, Turn(v), cfg.slotTtl, k, Turn(w), end);
    case _ =>
  }

  /** A worker not heard of until its slot's expiry has lost it, however busy the
      site is kept by others. */
  lemma {:induction false} SilentSlotGoes(s: State, cfg: Config, es: seq<Event>, k: Site, w: nat, end: int)
    requires Forgotten(es, k, w) && OverBy(s.turns, k, Turn(w), end)
    ensures OverBy(Run(s, cfg, es).turns, k, Turn(w), end)
    ensures Run(s, cfg, es).now >= end ==> Turn(w) !in LiveTurns(Run(s, cfg, es), k)
    decreases |es|
  {
    if es != [] {
      assert forall e :: e in es[1..] ==> e in es;
      ForgottenStep(s, cfg, es[0], k, w, end);
      SilentSlotGoes(Step(s, cfg, es[0]), cfg, es[1..], k, w, end);
    }
  }

  /** An acquire takes a slot, for one time to live, exactly if fewer than its limit
      are live; either way it leaves every other live slot as it was. */
  lemma AcquireTakes(s: State, cfg: Config, k: Site, w: nat, limit: int)
    requires Timed(cfg) && KeysCover(s.turns) && Turn(w) !in LiveTurns(s, k)
    ensures var t := Step(s, cfg, Acquire(k, w, limit));
      && (Turn(w) in LiveTurns(t, k) <==> |LiveTurns(s, k)| < limit)
      && (Turn(w) in LiveTurns(t, k) ==> HeldTill(t.turns, k, Turn(w), s.now + cfg.slotTtl) && t.turns[k].members[Turn(w)] == s.now + cfg.slotTtl)
      && (forall j, m :: j != k || m != Turn(w) ==> (m in LiveTurns(t, j) <==> m in LiveTurns(s, j)))
  {
    AcquireFrame(s, cfg, k, w, limit);
    forall j ensures Live(Step(s, cfg, Acquire(k, w, limit)).turns, s.now, j)
      == LiveTurns(s, j) + if |LiveTurns(s, k)| < limit && j == k then {Turn(w)} else {} { AcquireLive(s, cfg, k, w, limit, j); }
    PurgeMembers(s.turns, s.now, k);
  }

  // ----- seats -----

  /** In the run `es`, lease `l`, last put on record at `since`, is renewed before it
      lapses, and not released. */
  ghost predicate Renewed(s: State, cfg: Config, es: seq<Event>, l: nat, since: int)
    decreases |es|
  {
    es == [] ||
    var t := Step(s, cfg, es[0]);
    && t.now < since + cfg.leaseTtl && !(es[0].Release? && es[0].lease == l)
    && Renewed(t, cfg, es[1..], l, if es[0].Renew? && es[0].lease == l then s.now else since)
  }

  /** Lease `l` holds weight `weight` for tenant `t` until `end` at least. */
  ghost predicate SeatTill(s: State, l: nat, end: int, weight: real, t: string) {
    && l in s.seats && end <= s.seats[l]
    && l in s.seatWeight && s.seatWeight[l] == weight && l in s.seatTenant && s.seatTenant[l] == t
  }

  lemma SeatStep(s: State, cfg: Config, e: Event, l: nat, since: int, weight: real, t: string)
    requires Legal(s, e) && since <= s.now < since + cfg.leaseTtl && !(e.Release? && e.lease == l)
    requires SeatTill(s, l, since + cfg.leaseTtl, weight, t)
    ensures SeatTill(Step(s, cfg, e), l, (if e.Renew? && e.lease == l then s.now else since) + cfg.leaseTtl, weight, t)
  {
    match e
    case Claims(c) => ClaimKeepsSeat(s, cfg, c, l);
    case Renew(j, k) => RenewFrame(s, cfg, j, k);
    case Release(j, k) => OtherRelease(s, j, k, l);
    case Acquire(k, w, n) => AcquireFrame(s, cfg, k, w, n);
    case Refresh(k, w) => RefreshFrame(s, cfg, k, w);
    case _ =>
  }

  lemma OtherRelease(s: State, j: nat, k: Site, l: nat)
    requires l in s.seats && l in s.seatWeight && l in s.seatTenant && j != l
    ensures var t := AfterRelease(s, j, k);
      && l in t.seats && t.seats[l] == s.seats[l] && l in t.seatWeight && t.seatWeight[l] == s.seatWeight[l]
      && l in t.seatTenant && t.seatTenant[l] == s.seatTenant[l]
  {
  }

  /** No claim touches another's live seat. */
  lemma ClaimKeepsSeat(s: State, cfg: Config, c: Claim, l: nat)
    requires l in s.seats && l in s.seatWeight && l in s.seatTenant && s.now < s.seats[l] && l != c.lease
    ensures var t := AfterClaim(s, cfg, c);
      && l in t.seats && t.seats[l] == s.seats[l] && l in t.seatWeight && t.seatWeight[l] == s.seatWeight[l]
      && l in t.seatTenant && t.seatTenant[l] == s.seatTenant[l]
  {
    ClaimSeats(s, cfg, c);
  }

  lemma ClaimSeats(s: State, cfg: Config, c: Claim)
    ensures var q, t := Queue(s, cfg, c), AfterClaim(s, cfg, c); var yes := Granted(s, cfg, c);
      && t.seats == (if yes then q.seats[c.lease := s.now + cfg.leaseTtl] else q.seats)
      && t.seatWeight == (if yes then q.seatWeight[c.lease := c.info.weight] else q.seatWeight)
      && t.seatTenant == (if yes then q.seatTenant[c.lease := c.info.site.tenant] else q.seatTenant)
  {
  }

  /** A seat renewed in time is never lost: after every part of the run it is live,
      with its weight, on its tenant's account. */
  lemma {:induction false} KeepsSeat(s: State, cfg: Config, es: seq<Event>, l: nat, since: int, weight: real, t: string, n: nat)
    requires LegalRun(s, cfg, es) && n <= |es|
    requires since <= s.now < since + cfg.leaseTtl && SeatTill(s, l, since + cfg.leaseTtl, weight, t)
    requires Renewed(s, cfg, es, l, since)
    ensures var u := Run(s, cfg, es[..n]); l in LiveSeats(u) && SeatTill(u, l, u.now + 1, weight, t)
    decreases n
  {
    if n > 0 {
      SeatStep(s, cfg, es[0], l, since, weight, t);
      OnlyTicksPass(s, cfg, es[0]);
      KeepsSeat(Step(s, cfg, es[0]), cfg, es[1..], l, if es[0].Renew? && es[0].lease == l then s.now else since, weight, t, n - 1);
      assert es[..n][1..] == es[1..][..n - 1];
    } else {
      assert es[..0] == [];
    }
  }

  /** A grant writes one whole lease: seat, weight, tenant, the site's slot and, for a
      paced site, its next instant; and takes the caller out of the line. */
  lemma GrantTakes(s: State, cfg: Config, c: Claim)
    requires Timed(cfg) && KeysCover(s.turns) && c.lease !in s.seats && c.lease in Step(s, cfg, Claims(c)).seats
    ensures var t, k := Step(s, cfg, Claims(c)), c.info.site;
      && t.seats[c.lease] == s.now + cfg.leaseTtl && SeatTill(t, c.lease, s.now + cfg.leaseTtl, c.info.weight, k.tenant)
      && HeldTill(t.turns, k, Lease(c.lease), s.now + cfg.leaseTtl) && t.turns[k].members[Lease(c.lease)] == s.now + cfg.leaseTtl
      && (c.info.delayMs > 0 ==> NextAt(t, k) == s.now + c.info.delayMs) && (c.info.delayMs <= 0 ==> NextAt(t, k) == NextAt(s, k))
      && (forall j :: j != k ==> NextAt(t, j) == NextAt(s, j))
      && c.me !in t.waiters && c.me !in t.waiterExp && c.me !in t.waiterInfo
  {
    SeatTells(s, cfg, c);
    ClaimSeats(s, cfg, c);
    ClaimLine(s, cfg, c);
    ClaimFrame(s, cfg, c);
    ClaimDelays(s, cfg, c);
  }

  lemma ClaimDelays(s: State, cfg: Config, c: Claim)
    ensures AfterClaim(s, cfg, c).delays == if Granted(s, cfg, c) && c.info.delayMs > 0
      then s.delays[c.info.site := Delay(s.now + c.info.delayMs, s.now + Max(60000, c.info.delayMs * 4))] else s.delays
  {
  }

  /** A release gives a lease's seat, weight and slot back at once, and nobody else's. */
  lemma ReleaseGives(s: State, cfg: Config, l: nat, k: Site)
    ensures var t := Step(s, cfg, Release(l, k));
      && l !in t.seats && l !in t.seatWeight && l !in t.seatTenant && Lease(l) !in LiveTurns(t, k)
      && (forall j :: j != l ==> (j in t.seats <==> j in s.seats) && (j in s.seats ==> t.seats[j] == s.seats[j]))
      && (forall j, m :: j != k || m != Lease(l) ==> (m in LiveTurns(t, j) <==> m in LiveTurns(s, j)))
  {
    DropMembers(s.turns, s.now, k, Lease(l));
  }

  // ----- what the caller is told -----

  /** CLAIM's reply: granted exactly when the seat is there, and the use, target and
      line it names are those that stand after it. */
  lemma ReplyTells(s: State, cfg: Config, c: Claim)
    requires Inv(s, cfg) && Timed(cfg) && Legal(s, Claims(c))
    ensures var t, r := Step(s, cfg, Claims(c)), ClaimReply(s, cfg, c);
      && (r.granted <==> c.lease in t.seats)
      && r.inUse == InUse(t)
      && r.target == (if s.target.Some? then s.target.value else cfg.defaultTarget)
      && r.waiting == |t.waiters|
  {
    SeatTells(s, cfg, c);
    ReplyIs(s, cfg, c);
    ClaimCounts(s, cfg, c);
    ClaimUse(s, cfg, c);
  }

  lemma ReplyIs(s: State, cfg: Config, c: Claim)
    ensures var q, yes := Queue(s, cfg, c), Granted(s, cfg, c);
      ClaimReply(s, cfg, c) == Reply(yes, Total(q.seatWeight) + (if yes then c.info.weight else 0.0), Target(s, cfg),
                                     |Line(q.waiters)| - if yes then 1 else 0)
  {
  }

  lemma ClaimCounts(s: State, cfg: Config, c: Claim)
    ensures |AfterClaim(s, cfg, c).waiters| == |Line(Queue(s, cfg, c).waiters)| - if Granted(s, cfg, c) then 1 else 0
  {
    var q := Queue(s, cfg, c);
    ClaimLine(s, cfg, c);
    LineSorted(q.waiters);
    assert c.me in q.waiters;
    if Granted(s, cfg, c) { LeaveCounts(q.waiters, c.me); } else { assert q.waiters - {} == q.waiters; }
  }

  lemma ClaimUse(s: State, cfg: Config, c: Claim)
    requires Inv(s, cfg) && Timed(cfg) && Legal(s, Claims(c))
    ensures InUse(AfterClaim(s, cfg, c)) == Total(Queue(s, cfg, c).seatWeight) + if Granted(s, cfg, c) then c.info.weight else 0.0
  {
    PurgedUse(s, cfg, c);
    if Granted(s, cfg, c) { GrantUse(s, cfg, c); } else { RefusedUse(s, cfg, c); }
  }

  lemma RefusedUse(s: State, cfg: Config, c: Claim)
    requires SeatsAgree(s) && !Granted(s, cfg, c)
    ensures InUse(AfterClaim(s, cfg, c)) == InUse(s)
  {
    QueueUse(s, cfg, c);
  }

  lemma LeaveCounts(m: map<nat, int>, w: nat)
    requires w in m
    ensures |m - {w}| == |m| - 1
  {
    assert (m - {w})[w := m[w]] == m;
  }
}
