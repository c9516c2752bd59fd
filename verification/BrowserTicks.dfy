/** What a keeper's tick closes: the browsers whose seat is lost, those idle too
    long, or else as many as the host's line asks for, and no other. */
module BrowserTicks {
  import opened Basics
  import opened Tallies
  import opened Browsers
  import opened BrowserInvariant
  import opened BrowserSteps
  import opened BrowserLaws

  /** Between `s` and `t` just the parked browsers with the seats `gone` were closed,
      and those seats given back. */
  ghost predicate Shed(s: State, t: State, gone: set<nat>) {
    && gone <= s.kept.Keys && t.kept.Keys == s.kept.Keys - gone && t.live == s.live - gone
    && |t.queue| + |t.entries| + |gone| == |s.queue| + |s.entries|
    && (forall l <- t.kept :: l in s.kept && t.kept[l].idleSince == s.kept[l].idleSince)
    && t.claims == s.claims && t.driversStopped == s.driversStopped && t.keeperStopped == s.keeperStopped
  }

  lemma ShedNone(s: State)
    ensures Shed(s, s, {})
  {
  }

  lemma ShedMore(s: State, t: State, u: State, a: set<nat>, b: set<nat>)
    requires Shed(s, t, a) && Shed(t, u, b)
    ensures a !! b && Shed(s, u, a + b) && |a + b| == |a| + |b|
  {
  }

  // ----- one browser -----

  lemma SpareSheds(cfg: Config, s: State, i: nat)
    requires Inv(cfg, s) && cfg.keeper && Tight(s) && i < |s.queue|
    ensures s.queue[i].seat.Some? && Shed(s, CloseSpare(s, i), {s.queue[i].seat.value})
  {
    SpareKeepsSeat(cfg, s, i);
    SpareGone(s, i);
    CloseSpareFrame(s, i);
  }

  lemma CloseSpareFrame(s: State, i: nat)
    requires i < |s.queue|
    ensures var t := CloseSpare(s, i);
      t.entries == s.entries && t.driversStopped == s.driversStopped && t.keeperStopped == s.keeperStopped
  {
  }

  lemma EntrySheds(cfg: Config, s: State, i: nat)
    requires Inv(cfg, s) && cfg.keeper && Tight(s) && i < |s.entries| && !s.entries[i].Busy()
    ensures s.entries[i].seat.Some? && Shed(s, Dropped(s, i), {s.entries[i].seat.value})
  {
    IdleKeepsSeat(cfg, s, i);
    EntryGone(s, i);
    DroppedFrame(s, i);
    DroppedOnly(s, i);
  }

  /** Asked for a kept seat, the pools close its browser; asked for any, the oldest
      spare, or with none the longest idle driver. */
  lemma ReclaimSheds(cfg: Config, s: State, seat: Option<nat>) returns (x: nat)
    requires Inv(cfg, s) && cfg.keeper && Tight(s) && s.kept != map[] && (seat.Some? ==> seat.value in s.kept)
    ensures Reclaim(s, seat).1 && Shed(s, Reclaim(s, seat).0, {x}) && Inv(cfg, Reclaim(s, seat).0)
    ensures seat.Some? ==> x == seat.value
    ensures seat.None? ==> if s.queue != [] then s.queue[0].seat == Some(x) else LongestIdle(s.entries, x)
  {
    var lease :| lease in s.kept;
    SomeParked(cfg, s, seat, if seat.Some? then seat.value else lease);
    ReclaimCases(s, seat);
    ReclaimKeeps(cfg, s, seat);
    var i, j := SpareFor(s, seat), Oldest(s.entries, seat);
    if i < |s.queue| {
      SpareSheds(cfg, s, i);
      x := s.queue[i].seat.value;
    } else {
      x := EntryReclaimed(cfg, s, j);
      if seat.None? { OldestIdle(s.entries, s.entries[j]); }
    }
  }

  lemma EntryReclaimed(cfg: Config, s: State, j: nat) returns (x: nat)
    requires Inv(cfg, s) && cfg.keeper && Tight(s) && j < |s.entries| && !s.entries[j].Busy()
    ensures s.entries[j].seat == Some(x) && Shed(s, Dropped(s, j), {x})
  {
    EntrySheds(cfg, s, j);
    x := s.entries[j].seat.value;
  }

  /** The idle entry with seat `x` has been idle longest. */
  ghost predicate LongestIdle(entries: seq<Entry>, x: nat) {
    exists e <- entries :: e.seat == Some(x) && !e.Busy() && forall f <- entries :: f.listed && !f.Busy() ==> e.lastUsed <= f.lastUsed
  }

  lemma OldestIdle(entries: seq<Entry>, e: Entry)
    requires Oldest(entries, None) < |entries| && e == entries[Oldest(entries, None)] && e.seat.Some?
    ensures LongestIdle(entries, e.seat.value)
  {
    forall f | f in entries && f.listed && !f.Busy() ensures e.lastUsed <= f.lastUsed {
      var k :| 0 <= k < |entries| && entries[k] == f;
      assert Closable(entries[k], None);
    }
    assert e in entries;
  }

  lemma SomeParked(cfg: Config, s: State, seat: Option<nat>, lease: nat)
    requires Inv(cfg, s) && Tight(s) && lease in s.kept && (seat.Some? ==> seat.value == lease)
    ensures SpareFor(s, seat) < |s.queue| || Oldest(s.entries, seat) < |s.entries|
  {
    if seat.Some? {
      ReclaimFinds(cfg, s, lease);
      ReclaimCases(s, seat);
    } else {
      KeptSeatsParked(cfg, s, lease);
      if e :| e in s.entries && !e.Busy() && e.seat == Some(lease) { assert Closable(e, None); }
    }
  }

  // ----- renewals -----

  predicate Due(cfg: Config, s: State, l: nat, now: int) {
    l in s.kept && now - s.kept[l].lastRenew >= cfg.renewEvery
  }

  lemma RenewOneSheds(cfg: Config, s: State, l: nat, now: int)
    requires Inv(cfg, s) && cfg.keeper && Tight(s) && l in s.kept
    ensures var t := RenewOne(cfg, s, l, now);
      Inv(cfg, t) && Shed(s, t, if Due(cfg, s, l, now) && l !in s.live then {l} else {}) && OthersSame(s, t, l)
  {
    RenewOneKeeps(cfg, s, l, now);
    if Due(cfg, s, l, now) && l !in s.live { LapseSheds(cfg, s, l, now); } else { StampSheds(cfg, s, l, now); }
  }

  ghost predicate OthersSame(s: State, t: State, l: nat) {
    forall x <- t.kept :: x != l ==> x in s.kept && t.kept[x] == s.kept[x]
  }

  lemma StampSheds(cfg: Config, s: State, l: nat, now: int)
    requires l in s.kept && (Due(cfg, s, l, now) ==> l in s.live)
    ensures var t := RenewOne(cfg, s, l, now); Shed(s, t, {}) && OthersSame(s, t, l)
  {
    RenewOneIs(cfg, s, l, now);
    ShedNone(s);
  }

  lemma LapseSheds(cfg: Config, s: State, l: nat, now: int)
    requires Inv(cfg, s) && cfg.keeper && Tight(s) && Due(cfg, s, l, now) && l !in s.live
    ensures var t := RenewOne(cfg, s, l, now); Shed(s, t, {l}) && OthersSame(s, t, l)
  {
    DropThenReclaim(cfg, s, l);
    LapseIs(cfg, s, l, now);
    var x := ReclaimSheds(cfg, s, Some(l));
    ReclaimFewer(s, Some(l));
    FewerSame(s, Reclaim(s, Some(l)).0, l);
  }

  lemma LapseIs(cfg: Config, s: State, l: nat, now: int)
    requires Due(cfg, s, l, now) && l !in s.live
    ensures RenewOne(cfg, s, l, now) == Reclaim(s.(kept := s.kept - {l}), Some(l)).0
  {
    RenewOneIs(cfg, s, l, now);
  }

  lemma FewerSame(s: State, t: State, l: nat)
    requires Fewer(s, t)
    ensures OthersSame(s, t, l)
  {
  }

  /** The kept seats the host no longer counts, among those to be renewed. */
  function Lost(cfg: Config, s: State, order: seq<nat>, now: int): set<nat> {
    set l | l in s.kept && l in order && l !in s.live && now - s.kept[l].lastRenew >= cfg.renewEvery
  }

  predicate Distinct(order: seq<nat>) {
    forall i, j :: 0 <= i < j < |order| ==> order[i] != order[j]
  }

  function Ids(order: seq<nat>): set<nat> {
    set l | l in order
  }

  /** The rest of a list with nothing twice. */
  lemma Rest(order: seq<nat>)
    requires Distinct(order) && order != []
    ensures Distinct(order[1..]) && order[0] !in order[1..] && Ids(order) == {order[0]} + Ids(order[1..])
  {
    assert order == [order[0]] + order[1..];
  }

  lemma LostRest(cfg: Config, s: State, t: State, order: seq<nat>, now: int, first: set<nat>)
    requires Distinct(order) && order != [] && Ids(order) <= s.kept.Keys && Shed(s, t, first) && OthersSame(s, t, order[0])
    requires first == if Due(cfg, s, order[0], now) && order[0] !in s.live then {order[0]} else {}
    ensures Ids(order[1..]) <= t.kept.Keys && Lost(cfg, s, order, now) == first + Lost(cfg, t, order[1..], now)
  {
    Rest(order);
    forall l ensures l in order <==> l in Ids(order) {}
    forall l ensures l in order[1..] <==> l in Ids(order[1..]) {}
    forall l | l in order[1..] ensures l in t.kept && l !in first && t.kept[l] == s.kept[l] && (l in t.live <==> l in s.live) {
      assert l in Ids(order) && l != order[0];
    }
    LostSplit(cfg, s, t, order[0], order[1..], order, now, first);
  }

  lemma LostSplit(cfg: Config, s: State, t: State, l: nat, rest: seq<nat>, order: seq<nat>, now: int, first: set<nat>)
    requires forall x :: x in order <==> x == l || x in rest
    requires first == if Due(cfg, s, l, now) && l !in s.live then {l} else {}
    requires forall x :: x in rest ==> x in s.kept && x in t.kept && t.kept[x] == s.kept[x] && (x in t.live <==> x in s.live)
    ensures Lost(cfg, s, order, now) == first + Lost(cfg, t, rest, now)
  {
  }

  lemma {:induction false} RenewalsShed(cfg: Config, s: State, order: seq<nat>, now: int)
    requires Inv(cfg, s) && cfg.keeper && Tight(s) && Distinct(order) && Ids(order) <= s.kept.Keys
    ensures var t := RenewAll(cfg, s, order, now); Inv(cfg, t) && Shed(s, t, Lost(cfg, s, order, now))
    decreases |order|
  {
    if order == [] {
      ShedNone(s);
      assert Lost(cfg, s, order, now) == {};
    } else {
      var l, t := order[0], RenewOne(cfg, s, order[0], now);
      var first := if Due(cfg, s, l, now) && l !in s.live then {l} else {};
      Rest(order);
      RenewOneSheds(cfg, s, l, now);
      LostRest(cfg, s, t, order, now, first);
      RenewalsShed(cfg, t, order[1..], now);
      ShedMore(s, t, RenewAll(cfg, t, order[1..], now), first, Lost(cfg, t, order[1..], now));
      RenewStep(cfg, s, order, now);
    }
  }

  lemma RenewStep(cfg: Config, s: State, order: seq<nat>, now: int)
    requires order != []
    ensures RenewAll(cfg, s, order, now) == RenewAll(cfg, RenewOne(cfg, s, order[0], now), order[1..], now)
  {
  }

  // ----- handing back -----

  lemma {:induction false} ReclaimAllSheds(cfg: Config, s: State, leases: seq<nat>)
    requires Inv(cfg, s) && cfg.keeper && Tight(s) && Distinct(leases) && Ids(leases) <= s.kept.Keys
    ensures Shed(s, ReclaimAll(s, leases), Ids(leases))
    decreases |leases|
  {
    if leases == [] {
      ShedNone(s);
      assert Ids(leases) == {};
    } else {
      Rest(leases);
      var l, t := leases[0], Reclaim(s, Some(leases[0])).0;
      assert l in Ids(leases);
      var x := ReclaimSheds(cfg, s, Some(l));
      ReclaimAllSheds(cfg, t, leases[1..]);
      ShedMore(s, t, ReclaimAll(t, leases[1..]), {l}, Ids(leases[1..]));
      ReclaimAllStep(s, leases);
    }
  }

  lemma ReclaimAllStep(s: State, leases: seq<nat>)
    requires leases != []
    ensures ReclaimAll(s, leases) == ReclaimAll(Reclaim(s, Some(leases[0])).0, leases[1..])
  {
  }

  lemma YieldStep(s: State, n: nat)
    requires n > 0 && Reclaim(s, None).1
    ensures Yield(s, n) == Yield(Reclaim(s, None).0, n - 1)
  {
  }

  lemma OneLess(s: State, t: State, x: nat)
    requires Shed(s, t, {x})
    ensures |t.kept| == |s.kept| - 1
  {
    assert |t.kept.Keys| == |s.kept.Keys| - 1;
  }

  lemma {:induction false} YieldSheds(cfg: Config, s: State, n: nat) returns (gone: set<nat>)
    requires Inv(cfg, s) && cfg.keeper && Tight(s) && n <= |s.kept|
    ensures |gone| == n && Shed(s, Yield(s, n), gone)
    decreases n
  {
    if n == 0 {
      gone := {};
      ShedNone(s);
    } else {
      var t := Reclaim(s, None).0;
      var x := ReclaimSheds(cfg, s, None);
      OneLess(s, t, x);
      YieldStep(s, n);
      var more := YieldSheds(cfg, t, n - 1);
      ShedMore(s, t, Yield(t, n - 1), {x}, more);
      gone := {x} + more;
    }
  }

  lemma {:induction false} OverheldAre(cfg: Config, s: State, order: seq<nat>, now: int)
    requires Distinct(order)
    ensures var over := OverheldIn(cfg, s, order, now);
      && Distinct(over) && forall l :: l in over <==> l in order && l in s.kept && now - s.kept[l].idleSince >= cfg.idleSeat
    decreases |order|
  {
    if order != [] {
      OverheldAre(cfg, s, order[1..], now);
      assert order == [order[0]] + order[1..];
    }
  }

  function Idle(kept: map<nat, Kept>, now: int, limit: int): set<nat> {
    set l | l in kept && now - kept[l].idleSince >= limit
  }

  /** Once the overheld are known: they go, or, with none, what the line asks for. */
  lemma RestSheds(cfg: Config, s: State, over: seq<nat>, now: int, waiters: nat) returns (gone: set<nat>)
    requires Inv(cfg, s) && cfg.keeper && Tight(s) && Distinct(over) && Ids(over) <= s.kept.Keys
    ensures Shed(s, HandBack(cfg, s, over, now, waiters), gone)
    ensures if over != [] then gone == Ids(over) else |gone| == Min(|Idle(s.kept, now, cfg.idleGrace)|, waiters)
  {
    HandBackIs(cfg, s, over, now, waiters);
    if over != [] {
      ReclaimAllSheds(cfg, s, over);
      gone := Ids(over);
    } else {
      Subset(Idle(s.kept, now, cfg.idleGrace), s.kept.Keys);
      gone := YieldSheds(cfg, s, Min(|Idle(s.kept, now, cfg.idleGrace)|, waiters));
    }
  }

  lemma HandBackIs(cfg: Config, s: State, over: seq<nat>, now: int, waiters: nat)
    ensures HandBack(cfg, s, over, now, waiters) ==
      if over != [] then ReclaimAll(s, over) else Yield(s, Min(|Idle(s.kept, now, cfg.idleGrace)|, waiters))
  {
    assert Idle(s.kept, now, cfg.idleGrace) == set lease | lease in s.kept && now - s.kept[lease].idleSince >= cfg.idleGrace;
    if s.kept == map[] { assert Idle(s.kept, now, cfg.idleGrace) == {}; }
  }

  lemma Subset(a: set<nat>, b: set<nat>)
    requires a <= b
    ensures |a| <= |b|
  {
    assert b == a + (b - a);
  }

  /** Kept seats that are due to be renewed and that the host no longer counts. */
  function GivenAway(kept: map<nat, Kept>, live: set<nat>, now: int, every: int): set<nat> {
    set l | l in kept && l !in live && now - kept[l].lastRenew >= every
  }

  /** What a tick is to close: with `lost` known, those overheld, or else as many as
      are idle and asked for. */
  ghost predicate Rightly(kept: map<nat, Kept>, idleSeat: int, idleGrace: int, now: int, waiters: nat, lost: set<nat>, gone: set<nat>) {
    var over := set l | l in kept && l !in lost && now - kept[l].idleSince >= idleSeat;
    var idle := set l | l in kept && l !in lost && now - kept[l].idleSince >= idleGrace;
    lost <= gone && if over != {} then gone == lost + over else |gone - lost| == Min(|idle|, waiters)
  }

  lemma RightlyAfter(cfg: Config, s: State, u: State, over: seq<nat>, now: int, waiters: nat, lost: set<nat>, more: set<nat>)
    requires Shed(s, u, lost) && lost !! more && Ids(over) == Idle(u.kept, now, cfg.idleSeat)
    requires if over != [] then more == Ids(over) else |more| == Min(|Idle(u.kept, now, cfg.idleGrace)|, waiters)
    ensures Rightly(s.kept, cfg.idleSeat, cfg.idleGrace, now, waiters, lost, lost + more)
  {
    assert Idle(u.kept, now, cfg.idleSeat) == set l | l in s.kept && l !in lost && now - s.kept[l].idleSince >= cfg.idleSeat;
    assert Idle(u.kept, now, cfg.idleGrace) == set l | l in s.kept && l !in lost && now - s.kept[l].idleSince >= cfg.idleGrace;
    assert (lost + more) - lost == more;
    if over != [] { assert over[0] in Ids(over); }
  }

  /** The whole tick. The seats the host has given away meanwhile are lost, and their
      browsers closed; so are those kept too long. Only if none is, the line gets as
      many seats as are idle and asked for: exactly that many browsers are closed. */
  lemma TickSheds(cfg: Config, s: State, order: seq<nat>, now: int, waiters: nat) returns (gone: set<nat>)
    requires Inv(cfg, s) && cfg.keeper && Tight(s) && multiset(order) == multiset(s.kept.Keys)
    ensures Shed(s, Tick(cfg, s, order, now, waiters), gone)
    ensures Rightly(s.kept, cfg.idleSeat, cfg.idleGrace, now, waiters,
                    GivenAway(s.kept, s.live, now, cfg.renewEvery), gone)
  {
    OrderIs(s, order);
    LostAll(cfg, s, order, now);
    gone := InOrderSheds(cfg, s, order, now, waiters);
  }

  lemma InOrderSheds(cfg: Config, s: State, order: seq<nat>, now: int, waiters: nat) returns (gone: set<nat>)
    requires Inv(cfg, s) && cfg.keeper && Tight(s) && Distinct(order) && Ids(order) == s.kept.Keys
    ensures Shed(s, Tick(cfg, s, order, now, waiters), gone)
    ensures Rightly(s.kept, cfg.idleSeat, cfg.idleGrace, now, waiters, Lost(cfg, s, order, now), gone)
  {
    RenewalsShed(cfg, s, order, now);
    gone := AfterLost(cfg, s, RenewAll(cfg, s, order, now), order, now, waiters, Lost(cfg, s, order, now));
    TickIs(cfg, s, order, now, waiters);
  }

  lemma AfterLost(cfg: Config, s: State, u: State, order: seq<nat>, now: int, waiters: nat, lost: set<nat>) returns (gone: set<nat>)
    requires Inv(cfg, u) && cfg.keeper && Tight(u) && Distinct(order) && Ids(order) == s.kept.Keys && Shed(s, u, lost)
    ensures Shed(s, HandBack(cfg, u, OverheldIn(cfg, u, order, now), now, waiters), gone)
    ensures Rightly(s.kept, cfg.idleSeat, cfg.idleGrace, now, waiters, lost, gone)
  {
    var over := OverheldFor(cfg, s, u, order, now, lost);
    IdleKept(u.kept, now, cfg.idleSeat);
    var more := RestSheds(cfg, u, over, now, waiters);
    ShedMore(s, u, HandBack(cfg, u, over, now, waiters), lost, more);
    RightlyAfter(cfg, s, u, over, now, waiters, lost, more);
    gone := lost + more;
  }

  lemma IdleKept(kept: map<nat, Kept>, now: int, limit: int)
    ensures Idle(kept, now, limit) <= kept.Keys
  {
  }

  lemma TickIs(cfg: Config, s: State, order: seq<nat>, now: int, waiters: nat)
    ensures var u := RenewAll(cfg, s, order, now);
      Tick(cfg, s, order, now, waiters) == HandBack(cfg, u, OverheldIn(cfg, u, order, now), now, waiters)
  {
  }

  lemma LostAll(cfg: Config, s: State, order: seq<nat>, now: int)
    requires Ids(order) == s.kept.Keys
    ensures Lost(cfg, s, order, now) == GivenAway(s.kept, s.live, now, cfg.renewEvery)
  {
    forall l ensures l in order <==> l in Ids(order) {}
  }

  lemma OverheldFor(cfg: Config, s: State, u: State, order: seq<nat>, now: int, lost: set<nat>) returns (over: seq<nat>)
    requires Distinct(order) && Ids(order) == s.kept.Keys && Shed(s, u, lost)
    ensures over == OverheldIn(cfg, u, order, now) && Distinct(over) && Ids(over) == Idle(u.kept, now, cfg.idleSeat)
  {
    over := OverheldIn(cfg, u, order, now);
    OverheldAre(cfg, u, order, now);
    forall l ensures l in Ids(over) <==> l in Idle(u.kept, now, cfg.idleSeat) {
      assert l in order <==> l in Ids(order);
    }
  }

  lemma OrderIs(s: State, order: seq<nat>)
    requires multiset(order) == multiset(s.kept.Keys)
    ensures Distinct(order) && Ids(order) == s.kept.Keys
  {
    forall i, j | 0 <= i < j < |order| ensures order[i] != order[j] {
      assert order == order[..i] + [order[i]] + order[i + 1..j] + [order[j]] + order[j + 1..];
      assert order[i] == order[j] ==> multiset(order)[order[i]] >= 2;
    }
    forall l ensures l in Ids(order) <==> l in s.kept { assert l in order <==> l in multiset(order); }
  }

  // ----- which seats a tick renews -----

  /** A seat due to be renewed is, and any other is left as it was. */
  predicate Stamped(every: int, before: Kept, after: Kept, now: int) {
    after == if now - before.lastRenew >= every then Kept(before.idleSince, now) else before
  }

  lemma RenewOneStamps(cfg: Config, s: State, l: nat, now: int)
    ensures var t := RenewOne(cfg, s, l, now);
      OthersSame(s, t, l) && (l in t.kept ==> l in s.kept && Stamped(cfg.renewEvery, s.kept[l], t.kept[l], now))
  {
    RenewOneIs(cfg, s, l, now);
    ReclaimFewer(s.(kept := s.kept - {l}), Some(l));
  }

  lemma {:induction false} RenewalsStamp(cfg: Config, s: State, order: seq<nat>, now: int)
    requires Distinct(order)
    ensures var t := RenewAll(cfg, s, order, now);
      forall l <- t.kept :: l in s.kept && if l in order then Stamped(cfg.renewEvery, s.kept[l], t.kept[l], now) else t.kept[l] == s.kept[l]
    decreases |order|
  {
    if order != [] {
      Rest(order);
      RenewOneStamps(cfg, s, order[0], now);
      RenewalsStamp(cfg, RenewOne(cfg, s, order[0], now), order[1..], now);
      RenewStep(cfg, s, order, now);
      assert order == [order[0]] + order[1..];
    }
  }

  /** After a tick every seat still kept was renewed just now if it was due, and is as
      it was if not. */
  lemma TickStamps(cfg: Config, s: State, order: seq<nat>, now: int, waiters: nat)
    requires Inv(cfg, s) && !s.driversStopped && multiset(order) == multiset(s.kept.Keys)
    ensures var t := Tick(cfg, s, order, now, waiters);
      forall l <- t.kept :: l in s.kept && Stamped(cfg.renewEvery, s.kept[l], t.kept[l], now)
  {
    var u := RenewAll(cfg, s, order, now);
    OrderIs(s, order);
    RenewalsStamp(cfg, s, order, now);
    forall l <- u.kept ensures l in order { assert l in Ids(order); }
    RenewAllKeeps(cfg, s, order, now);
    RenewAllStays(cfg, s, order, now);
    HandBackLeaves(cfg, u, order, now, waiters);
    TickIs(cfg, s, order, now, waiters);
  }

  lemma {:induction false} RenewAllStays(cfg: Config, s: State, order: seq<nat>, now: int)
    ensures RenewAll(cfg, s, order, now).driversStopped == s.driversStopped
    decreases |order|
  {
    if order != [] {
      var l := order[0];
      RenewOneIs(cfg, s, l, now);
      ReclaimFewer(s.(kept := s.kept - {l}), Some(l));
      RenewAllStays(cfg, RenewOne(cfg, s, l, now), order[1..], now);
      RenewStep(cfg, s, order, now);
    }
  }
}
