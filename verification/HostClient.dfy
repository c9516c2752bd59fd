/** The client's side of host admission: polling CLAIM until a grant, a deadline
    or a cancellation, while anyone else does anything to the store. */
module HostClient {
  import opened Basics
  import opened Host
  import opened HostInvariant
  import opened HostBudget

  /** How a wait goes, poll by poll: what others do meanwhile, how long the pause
      is, whether the job is found cancelled, and whether the waiter itself
      is cancelled, just after a reply or in a pause. */
  datatype World = World(others: nat -> seq<Event>, pause: nat -> nat, cancelled: nat -> bool, cutOff: nat -> bool, woken: nat -> bool)

  /** `granted`: the reply thrown away by the cancellation was a grant. */
  datatype Ending = Seated | TimedOut | GivenUp | Interrupted(granted: bool)

  ghost predicate Patient(w: World) {
    forall i :: w.pause(i) > 0
  }

  /** The store after the k-th pause, if it comes to one. */
  ghost function Meanwhile(t: State, cfg: Config, w: World, deadline: nat, k: nat): State
    requires t.now < deadline && w.pause(k) > 0
    ensures Meanwhile(t, cfg, w, deadline, k).now > t.now
  {
    RunsForward(t, cfg, w.others(k));
    Later(Run(t, cfg, w.others(k)), Min(w.pause(k), deadline - t.now))
  }

  /** _wait_for_grant from its k-th poll on; every ending but a grant leaves the
      line. */
  ghost function Wait(s: State, cfg: Config, c: Claim, w: World, deadline: nat, k: nat): (Ending, State)
    requires Patient(w)
    decreases Max(0, deadline - s.now)
  {
    var t := AfterClaim(s, cfg, c);
    OnlyTicksPass(s, cfg, Claims(c));
    if w.cutOff(k) then (Interrupted(Granted(s, cfg, c)), DropWaiter(t, c.me))
    else if Granted(s, cfg, c) then (Seated, t)
    else if t.now >= deadline then (TimedOut, DropWaiter(t, c.me))
    else if w.cancelled(k) then (GivenUp, DropWaiter(t, c.me))
    else if w.woken(k) then (Interrupted(false), DropWaiter(Meanwhile(t, cfg, w, deadline, k), c.me))
    else Wait(Meanwhile(t, cfg, w, deadline, k), cfg, c, w, deadline, k + 1)
  }

  lemma {:induction false} RunsForward(s: State, cfg: Config, es: seq<Event>)
    ensures Run(s, cfg, es).now >= s.now
    decreases |es|
  {
    if es != [] {
      OnlyTicksPass(s, cfg, es[0]);
      RunsForward(Step(s, cfg, es[0]), cfg, es[1..]);
    }
  }

  ghost predicate Unslotted(turns: map<Site, Turns>, l: nat) {
    forall k :: k in turns ==> Lease(l) !in turns[k].members
  }

  /** Nothing in the store is held under lease `l`. */
  ghost predicate Absent(s: State, l: nat) {
    l !in s.seats && l !in s.seatWeight && l !in s.seatTenant && Unslotted(s.turns, l)
  }

  /** Somebody else's step. */
  predicate Foreign(e: Event, c: Claim) {
    e.Claims? ==> e.claim.lease != c.lease && e.claim.me != c.me
  }

  lemma PutUnslotted(turns: map<Site, Turns>, now: nat, k: Site, m: Member, ttl: nat, l: nat)
    requires Unslotted(turns, l) && m != Lease(l)
    ensures Unslotted(Put(turns, now, k, m, now + ttl, ttl), l)
  {
  }

  lemma DropUnslotted(turns: map<Site, Turns>, now: nat, k: Site, m: Member, l: nat)
    requires Unslotted(turns, l)
    ensures Unslotted(Drop(turns, now, k, m), l)
  {
  }

  lemma PurgeUnslotted(turns: map<Site, Turns>, now: nat, k: Site, l: nat)
    requires Unslotted(turns, l)
    ensures Unslotted(PurgeTurns(turns, now, k), l)
  {
  }

  lemma ClaimAbsent(s: State, cfg: Config, c: Claim, l: nat)
    requires Absent(s, l) && (Granted(s, cfg, c) ==> c.lease != l)
    ensures Absent(AfterClaim(s, cfg, c), l)
  {
    if Granted(s, cfg, c) { PutUnslotted(s.turns, s.now, c.info.site, Lease(c.lease), cfg.leaseTtl, l); }
  }

  lemma AcquireAbsent(s: State, cfg: Config, k: Site, w: nat, limit: int, l: nat)
    requires Absent(s, l)
    ensures Absent(AfterAcquire(s, cfg, k, w, limit), l)
  {
    PurgeUnslotted(s.turns, s.now, k, l);
    PutUnslotted(PurgeTurns(s.turns, s.now, k), s.now, k, Turn(w), cfg.slotTtl, l);
    var purged := s.(turns := PurgeTurns(s.turns, s.now, k));
    assert AfterAcquire(s, cfg, k, w, limit) == if TurnFree(s, k, limit) then PutTurn(purged, k, Turn(w), cfg.slotTtl) else purged;
  }

  lemma RenewAbsent(s: State, cfg: Config, mine: nat, l: nat, k: Site)
    requires Absent(s, mine)
    ensures Absent(AfterRenew(s, cfg, l, k), mine)
  {
    RenewFrame(s, cfg, l, k);
    if SeatLive(s, l) && Lease(l) in Members(s, k) { PutUnslotted(s.turns, s.now, k, Lease(l), cfg.leaseTtl, mine); }
  }

  lemma RefreshAbsent(s: State, cfg: Config, mine: nat, k: Site, w: nat)
    requires Absent(s, mine)
    ensures Absent(AfterRefresh(s, cfg, k, w), mine)
  {
    RefreshFrame(s, cfg, k, w);
    RefreshIs(s, cfg, k, w);
    PutUnslotted(s.turns, s.now, k, Turn(w), cfg.slotTtl, mine);
  }

  /** Nobody else's step ever takes a seat or a slot under my lease. */
  lemma ForeignAbsent(s: State, cfg: Config, c: Claim, e: Event)
    requires Absent(s, c.lease) && Foreign(e, c)
    ensures Absent(Step(s, cfg, e), c.lease)
  {
    match e
    case Claims(d) => ClaimAbsent(s, cfg, d, c.lease);
    case Renew(l, k) => RenewAbsent(s, cfg, c.lease, l, k);
    case Release(l, k) => DropUnslotted(s.turns, s.now, k, Lease(l), c.lease);
    case ReleaseSlot(l, k) => DropUnslotted(s.turns, s.now, k, Lease(l), c.lease);
    case Acquire(k, w, n) => AcquireAbsent(s, cfg, k, w, n, c.lease);
    case Refresh(k, w) => RefreshAbsent(s, cfg, c.lease, k, w);
    case FreeTurn(k, w) => DropUnslotted(s.turns, s.now, k, Turn(w), c.lease);
    case _ =>
  }

  lemma {:induction false} ForeignRunAbsent(s: State, cfg: Config, c: Claim, es: seq<Event>)
    requires Absent(s, c.lease) && forall e <- es :: Foreign(e, c)
    ensures Absent(Run(s, cfg, es), c.lease)
    decreases |es|
  {
    if es != [] {
      ForeignAbsent(s, cfg, c, es[0]);
      ForeignRunAbsent(Step(s, cfg, es[0]), cfg, c, es[1..]);
    }
  }

  ghost predicate Others(w: World, c: Claim) {
    forall i, e :: e in w.others(i) ==> Foreign(e, c)
  }

  predicate InLine(s: State, w: nat) {
    w in s.waiters || w in s.waiterExp || w in s.waiterInfo
  }

  /** One full lease: a seat and a slot, from now. */
  ghost predicate Holds(cfg: Config, c: Claim, t: State) {
    c.lease in t.seats && t.seats[c.lease] == t.now + cfg.leaseTtl && Lease(c.lease) in LiveTurns(t, c.info.site)
  }

  /** The store answered the last poll with a grant. */
  predicate AnsweredYes(how: Ending) {
    how == Seated || how == Interrupted(true)
  }

  /** How a wait may end: it left the line; it holds nothing, or, if the last reply
      was a grant, one full lease; and it timed out only at its deadline. */
  ghost predicate Clean(cfg: Config, c: Claim, deadline: nat, how: Ending, t: State) {
    && !InLine(t, c.me)
    && (if AnsweredYes(how) then Holds(cfg, c, t) else Absent(t, c.lease))
    && (how == TimedOut ==> t.now >= deadline)
  }

  lemma SeatClean(q: State, cfg: Config, c: Claim)
    requires cfg.leaseTtl > 0
    ensures Holds(cfg, c, Seat(q, cfg, c)) && !InLine(Seat(q, cfg, c), c.me)
  {
    PutLive(q.turns, q.now, c.info.site, Lease(c.lease), cfg.leaseTtl, c.info.site);
    assert Seat(q, cfg, c).turns == Put(q.turns, q.now, c.info.site, Lease(c.lease), q.now + cfg.leaseTtl, cfg.leaseTtl);
  }

  lemma LeftClean(s: State, cfg: Config, c: Claim, deadline: nat, how: Ending)
    requires if AnsweredYes(how) then Holds(cfg, c, s) else Absent(s, c.lease)
    requires how == TimedOut ==> s.now >= deadline
    ensures Clean(cfg, c, deadline, how, DropWaiter(s, c.me))
  {
  }

  lemma MeanwhileAbsent(t: State, cfg: Config, c: Claim, w: World, deadline: nat, k: nat)
    requires t.now < deadline && w.pause(k) > 0 && Absent(t, c.lease) && forall e <- w.others(k) :: Foreign(e, c)
    ensures Absent(Meanwhile(t, cfg, w, deadline, k), c.lease)
  {
    ForeignRunAbsent(t, cfg, c, w.others(k));
  }

  /** For every world and every behaviour of the others. In particular a wait that
      ends without a grant of its own holds nothing, unless the waiter was cancelled
      just as the store granted it. */
  lemma {:induction false} WaitEndsClean(s: State, cfg: Config, c: Claim, w: World, deadline: nat, k: nat)
    requires Patient(w) && Others(w, c)
    requires Absent(s, c.lease) && cfg.leaseTtl > 0
    ensures var end := Wait(s, cfg, c, w, deadline, k);
      Clean(cfg, c, deadline, end.0, end.1)
    decreases Max(0, deadline - s.now), 1
  {
    var t := AfterClaim(s, cfg, c);
    OnlyTicksPass(s, cfg, Claims(c));
    if Granted(s, cfg, c) {
      SeatClean(Queue(s, cfg, c), cfg, c);
      assert t == Seat(Queue(s, cfg, c), cfg, c);
      LeftClean(t, cfg, c, deadline, Interrupted(true));
      WaitGranted(s, cfg, c, w, deadline, k);
    } else {
      ClaimAbsent(s, cfg, c, c.lease);
      RefusedClean(s, t, cfg, c, w, deadline, k);
    }
  }

  lemma WaitGranted(s: State, cfg: Config, c: Claim, w: World, deadline: nat, k: nat)
    requires Patient(w) && Granted(s, cfg, c)
    ensures var t := AfterClaim(s, cfg, c);
      Wait(s, cfg, c, w, deadline, k) == if w.cutOff(k) then (Interrupted(true), DropWaiter(t, c.me)) else (Seated, t)
  {
  }

  lemma {:induction false} RefusedClean(s: State, t: State, cfg: Config, c: Claim, w: World, deadline: nat, k: nat)
    requires Patient(w) && Others(w, c)
    requires t == AfterClaim(s, cfg, c) && t.now == s.now && !Granted(s, cfg, c) && Absent(t, c.lease) && cfg.leaseTtl > 0
    ensures var end := Wait(s, cfg, c, w, deadline, k);
      Clean(cfg, c, deadline, end.0, end.1)
    decreases Max(0, deadline - s.now), 0
  {
    WaitRefused(s, t, cfg, c, w, deadline, k);
    if w.cutOff(k) {
      LeftClean(t, cfg, c, deadline, Interrupted(false));
    } else if t.now >= deadline {
      LeftClean(t, cfg, c, deadline, TimedOut);
    } else if w.cancelled(k) {
      LeftClean(t, cfg, c, deadline, GivenUp);
    } else {
      MeanwhileAbsent(t, cfg, c, w, deadline, k);
      var v := Meanwhile(t, cfg, w, deadline, k);
      LeftClean(v, cfg, c, deadline, Interrupted(false));
      if !w.woken(k) { WaitEndsClean(v, cfg, c, w, deadline, k + 1); }
    }
  }

  lemma WaitRefused(s: State, t: State, cfg: Config, c: Claim, w: World, deadline: nat, k: nat)
    requires Patient(w) && t == AfterClaim(s, cfg, c) && !Granted(s, cfg, c)
    ensures Wait(s, cfg, c, w, deadline, k) ==
      if w.cutOff(k) then (Interrupted(false), DropWaiter(t, c.me))
      else if t.now >= deadline then (TimedOut, DropWaiter(t, c.me))
      else if w.cancelled(k) then (GivenUp, DropWaiter(t, c.me))
      else if w.woken(k) then (Interrupted(false), DropWaiter(Meanwhile(t, cfg, w, deadline, k), c.me))
      else Wait(Meanwhile(t, cfg, w, deadline, k), cfg, c, w, deadline, k + 1)
  {
    OnlyTicksPass(s, cfg, Claims(c));
  }

  ghost predicate Happens(f: nat -> bool, k: nat) {
    exists i :: i >= k && f(i)
  }

  /** An ending short of a grant and of the deadline has its cause, from poll `k` on. */
  ghost predicate Caused(w: World, k: nat, how: Ending) {
    && (how.GivenUp? ==> Happens(w.cancelled, k))
    && (how.Interrupted? ==> Happens(w.cutOff, k) || Happens(w.woken, k))
  }

  /** Short of a grant, a wait goes on to its deadline unless the job or the waiter is
      cancelled: it never gives up of itself. */
  lemma {:induction false} WaitEndsForCause(s: State, cfg: Config, c: Claim, w: World, deadline: nat, k: nat)
    requires Patient(w)
    ensures Caused(w, k, Wait(s, cfg, c, w, deadline, k).0)
    decreases Max(0, deadline - s.now), 1
  {
    OnlyTicksPass(s, cfg, Claims(c));
    if Granted(s, cfg, c) {
      WaitGranted(s, cfg, c, w, deadline, k);
    } else {
      RefusedForCause(s, AfterClaim(s, cfg, c), cfg, c, w, deadline, k);
    }
  }

  lemma {:induction false} RefusedForCause(s: State, t: State, cfg: Config, c: Claim, w: World, deadline: nat, k: nat)
    requires Patient(w) && t == AfterClaim(s, cfg, c) && t.now == s.now && !Granted(s, cfg, c)
    ensures Caused(w, k, Wait(s, cfg, c, w, deadline, k).0)
    decreases Max(0, deadline - s.now), 0
  {
    WaitRefused(s, t, cfg, c, w, deadline, k);
    if !w.cutOff(k) && t.now < deadline && !w.cancelled(k) && !w.woken(k) {
      var v := Meanwhile(t, cfg, w, deadline, k);
      WaitEndsForCause(v, cfg, c, w, deadline, k + 1);
      CausedEarlier(w, k, Wait(v, cfg, c, w, deadline, k + 1).0);
    }
  }

  lemma CausedEarlier(w: World, k: nat, how: Ending)
    requires Caused(w, k + 1, how)
    ensures Caused(w, k, how)
  {
  }

  /** The seat of a grant thrown away is nobody's to renew: it is gone one lease
      later, whatever else happens. */
  lemma ThrownAwayLapses(t: State, cfg: Config, c: Claim, es: seq<Event>)
    requires Holds(cfg, c, t) && Silent(es, c.lease) && Run(t, cfg, es).now >= t.now + cfg.leaseTtl
    ensures c.lease !in LiveSeats(Run(t, cfg, es))
  {
    SilentBound(t, cfg, es, c.lease, t.now + cfg.leaseTtl);
  }

  /** The end of the claim block gives everything back. */
  lemma EndHoldsNothing(s: State, cfg: Config, l: nat, k: Site)
    requires HeldOnlyOn(s, l, k)
    ensures var t := AfterRelease(s, l, k);
      l !in t.seats && l !in t.seatWeight && l !in t.seatTenant && forall other :: Lease(l) !in LiveTurns(t, other)
  {
    DropMembers(s.turns, s.now, k, Lease(l));
  }
}
