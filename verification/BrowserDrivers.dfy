/** Which driver a fetch works on, and what becomes of it when the fetch ends. */
module BrowserDrivers {
  import opened Basics
  import opened Tallies
  import opened Browsers
  import opened BrowserInvariant
  import opened BrowserSteps
  import opened BrowserLaws

  /** Entry `e` is listed, idle, and launched for this very proxy identity and domain. */
  predicate Matches(e: Entry, want: Want) {
    e.listed && e.user.None? && e.key == want.key && e.domain == want.domain
  }

  /** A driver parked for the very proxy identity and domain is taken over by the fetch,
      the first such; the seat it kept goes back to the host. */
  lemma CheckoutReuses(cfg: Config, s: State, want: Want, id: nat, k: nat)
    requires Inv(cfg, s) && k < |s.entries| && Matches(s.entries[k], want) && forall j :: 0 <= j < k ==> !Matches(s.entries[j], want)
    ensures var t, e := Checkout(cfg, s, want, id), s.entries[k];
      && t.entries == s.entries[k := e.(user := Some(want), seat := None)]
      && t == s.(entries := t.entries, kept := t.kept, live := t.live)
      && t.kept == (if e.seat.Some? then s.kept - {e.seat.value} else s.kept)
  {
    FirstMatch(s.entries, want, k);
    ReuseIs(cfg, s, want, id, k);
    BackIs(s.(entries := s.entries[k := s.entries[k].(user := Some(want), seat := None)]), s.entries[k].seat);
  }

  lemma ReuseIs(cfg: Config, s: State, want: Want, id: nat, k: nat)
    requires k < |s.entries| && FirstIdle(s.entries, want.key, want.domain) == k
    ensures Checkout(cfg, s, want, id) == GiveBack(s.(entries := s.entries[k := s.entries[k].(user := Some(want), seat := None)]), s.entries[k].seat)
  {
  }

  /** A seat given back: off the keeper's books, and nothing else of the pools'. */
  lemma BackIs(s: State, seat: Option<nat>)
    ensures var t := GiveBack(s, seat);
      t == s.(kept := t.kept, live := t.live) && t.kept == (if seat.Some? then s.kept - {seat.value} else s.kept)
  {
    if seat.Some? && seat.value !in s.kept { assert s.kept - {seat.value} == s.kept; }
  }

  lemma {:induction false} FirstMatch(entries: seq<Entry>, want: Want, k: nat)
    requires k < |entries| && Matches(entries[k], want) && forall j :: 0 <= j < k ==> !Matches(entries[j], want)
    ensures FirstIdle(entries, want.key, want.domain) == k
    decreases |entries|
  {
    if k > 0 { FirstMatch(entries[1..], want, k - 1); }
  }

  lemma {:induction false} NoMatch(entries: seq<Entry>, want: Want)
    requires forall e <- entries :: !Matches(e, want)
    ensures FirstIdle(entries, want.key, want.domain) == |entries|
    decreases |entries|
  {
    if entries != [] {
      assert entries[0] in entries && forall e <- entries[1..] :: e in entries;
      NoMatch(entries[1..], want);
    }
  }

  /** With none to reuse, a fetch gets an entry of its own while the list is short of
      the cap; at the cap the longest idle entry makes room, its driver closed; and with
      every entry at work nothing changes: the fetch waits. */
  lemma CheckoutMakesRoom(cfg: Config, s: State, want: Want, id: nat)
    requires Inv(cfg, s) && forall e <- s.entries :: !Matches(e, want)
    ensures var t, added := Checkout(cfg, s, want, id), Entry(id, want.key, want.domain, Some(want), 0, None, None, true);
      if OnList(s.entries) < cfg.maxDrivers then t == s.(entries := s.entries + [added])
      else if exists e <- s.entries :: e.listed && e.user.None? then
        exists k :: 0 <= k < |s.entries| && LongestIdle(s.entries, k)
          && t.entries == Without(s.entries, k) + [added] && t.closed == s.closed + One(DriverOf(s.entries[k]))
          && t.kept == (if s.entries[k].seat.Some? then s.kept - {s.entries[k].seat.value} else s.kept)
      else t == s
  {
    NoMatch(s.entries, want);
    RoomIs(cfg, s, want, id);
    var k := Oldest(s.entries, None);
    if k < |s.entries| {
      OldestIs(s.entries);
      EvictIs(s, k, Entry(id, want.key, want.domain, Some(want), 0, None, None, true));
    } else {
      NoneIdle(s.entries);
    }
  }

  lemma RoomIs(cfg: Config, s: State, want: Want, id: nat)
    requires FirstIdle(s.entries, want.key, want.domain) == |s.entries|
    ensures var added, k := Entry(id, want.key, want.domain, Some(want), 0, None, None, true), Oldest(s.entries, None);
      Checkout(cfg, s, want, id) ==
        if OnList(s.entries) < cfg.maxDrivers then s.(entries := s.entries + [added])
        else if k < |s.entries| then CloseEntry(s.(entries := Without(s.entries, k) + [added]), s.entries[k])
        else s
  {
  }

  lemma EvictIs(s: State, k: nat, added: Entry)
    requires k < |s.entries|
    ensures var t := CloseEntry(s.(entries := Without(s.entries, k) + [added]), s.entries[k]);
      && t.entries == Without(s.entries, k) + [added] && t.closed == s.closed + One(DriverOf(s.entries[k]))
      && t.kept == (if s.entries[k].seat.Some? then s.kept - {s.entries[k].seat.value} else s.kept)
  {
    BackIs(s.(entries := Without(s.entries, k) + [added]), s.entries[k].seat);
  }

  lemma NoneIdle(entries: seq<Entry>)
    requires Oldest(entries, None) == |entries|
    ensures forall e <- entries :: !(e.listed && e.user.None?)
  {
    assert forall e <- entries :: !Closable(e, None);
  }

  predicate LongestIdle(entries: seq<Entry>, k: nat)
    requires k < |entries|
  {
    && entries[k].listed && entries[k].user.None?
    && forall j :: 0 <= j < |entries| && entries[j].listed && entries[j].user.None? ==> entries[k].lastUsed <= entries[j].lastUsed
  }

  lemma OldestIs(entries: seq<Entry>)
    requires Oldest(entries, None) < |entries|
    ensures LongestIdle(entries, Oldest(entries, None)) && exists e <- entries :: e.listed && e.user.None?
  {
    var k := Oldest(entries, None);
    assert Closable(entries[k], None) && entries[k] in entries;
    forall j | 0 <= j < |entries| && entries[j].listed && entries[j].user.None? ensures entries[k].lastUsed <= entries[j].lastUsed {
      assert Closable(entries[j], None);
    }
  }

  /** A fetch without a driver launches one of its own, for what it asked for; one that
      took a parked driver over launches none. */
  lemma LaunchesOwn(cfg: Config, s: State, k: nat, driver: nat)
    requires Inv(cfg, s) && k < |s.entries| && s.entries[k].user.Some?
    ensures var t, e := LaunchDriver(s, s.entries[k].id, driver), s.entries[k];
      if e.driver.None? then
        t == s.(entries := s.entries[k := e.(driver := Some(Driver(driver, e.user.value.key, e.user.value.domain)))], started := s.started + {driver})
      else t == s
  {
    PlaceIs(s.entries, k);
    assert EntryOk(cfg, s.entries[k]);
  }

  lemma {:induction false} PlaceIs(entries: seq<Entry>, k: nat)
    requires k < |entries| && forall i, j :: 0 <= i < j < |entries| ==> entries[i].id != entries[j].id
    ensures Place(entries, entries[k].id) == k
    decreases |entries|
  {
    if k > 0 { PlaceIs(entries[1..], k - 1); }
  }

  /** A fetch that got its page leaves its driver parked, with the render's seat under a
      keeper, if and only if parking is on, the proxy session can be asked for again, the
      driver got to the blank page, and there is a seat to keep it on; otherwise the
      driver is closed. The permit is free in either case. */
  lemma FetchParks(cfg: Config, s: State, r: nat, k: nat, reusable: bool, blank: bool, now: int)
    requires Inv(cfg, s) && k < |s.entries| && s.entries[k].user.Some? && s.entries[k].id in s.fetching
    ensures var e := s.entries[k]; var t := FetchDone(cfg, s, r, e.id, reusable, blank, now);
      && t.free == s.free + 1 && t.fetching == s.fetching - {e.id}
      && if cfg.parkDrivers && reusable && blank && e.driver.Some? && (cfg.keeper ==> r in s.claims && !s.claims[r].retained) then
           && t.entries == s.entries[k := e.(user := None, lastUsed := now, seat := if cfg.keeper then Some(s.claims[r].lease) else None)]
           && t.closed == s.closed && t.live == s.live
           && (if cfg.keeper then r in t.claims && t.claims[r].retained && t.kept == s.kept[s.claims[r].lease := Kept(now, now)] else t.kept == s.kept)
         else
           && t.entries == Without(s.entries, k) && t.closed == s.closed + One(DriverOf(e)) && t.kept == s.kept && t.claims == s.claims
  {
    PlaceIs(s.entries, k);
    assert EntryOk(cfg, s.entries[k]);
    FetchEndIs(cfg, s, r, k, reusable, blank, now);
    ClosedIs(FreePermit(s, s.entries[k].id), k);
    FreedIs(s, s.entries[k].id);
    if cfg.keeper ==> r in s.claims && !s.claims[r].retained { ParkedIs(cfg, FreePermit(s, s.entries[k].id), r, k, now); }
  }

  lemma FreedIs(s: State, id: nat)
    ensures FreePermit(s, id) == if id in s.fetching then s.(fetching := s.fetching - {id}, free := s.free + 1) else s
  {
  }

  lemma FetchEndIs(cfg: Config, s: State, r: nat, k: nat, reusable: bool, blank: bool, now: int)
    requires k < |s.entries| && Place(s.entries, s.entries[k].id) == k
    ensures var e := s.entries[k]; var t := FreePermit(s, e.id);
      FetchDone(cfg, s, r, e.id, reusable, blank, now) ==
        if cfg.parkDrivers && reusable && blank && e.driver.Some? && (cfg.keeper ==> Retainable(s, r)) then Checkin(cfg, t, k, r, now)
        else Dropped(t, k)
  {
    FreedIs(s, s.entries[k].id);
  }

  lemma ClosedIs(s: State, k: nat)
    requires k < |s.entries| && s.entries[k].seat.None?
    ensures Dropped(s, k) == s.(entries := Without(s.entries, k), closed := s.closed + One(DriverOf(s.entries[k])))
  {
  }

  lemma ParkedIs(cfg: Config, s: State, r: nat, k: nat, now: int)
    requires k < |s.entries| && s.entries[k].seat.None? && (cfg.keeper ==> Retainable(s, r))
    ensures var t := Checkin(cfg, s, k, r, now);
      && t == s.(entries := t.entries, claims := t.claims, kept := t.kept)
      && t.entries == s.entries[k := s.entries[k].(user := None, lastUsed := now, seat := if cfg.keeper then Some(s.claims[r].lease) else None)]
      && (if cfg.keeper then r in t.claims && t.claims[r].retained && t.kept == s.kept[s.claims[r].lease := Kept(now, now)]
          else t.kept == s.kept)
  {
  }

  /** A fetch that raised, wherever it was, is off the list and out of the line, its
      driver closed and its permit, if it held one, free: nothing of it is reused. */
  lemma FailedFetchGoes(cfg: Config, s: State, k: nat)
    requires Inv(cfg, s) && k < |s.entries| && s.entries[k].user.Some?
    ensures var e := s.entries[k]; var t := FetchFails(s, e.id);
      && t.entries == Without(s.entries, k) && t.closed == s.closed + One(DriverOf(e))
      && t.free == s.free + (if e.id in s.fetching then 1 else 0) && t.fetching == s.fetching - {e.id}
      && OfEntry(e.id) !in t.waiting && forall who <- s.waiting :: who != OfEntry(e.id) ==> who in t.waiting
  {
    var id, line := s.entries[k].id, Leave(s.waiting, OfEntry(s.entries[k].id));
    var u := s.(waiting := line);
    PlaceIs(s.entries, k);
    LeftLine(s.waiting, OfEntry(id));
    assert EntryOk(cfg, s.entries[k]);
    FreedIs(u, id);
    FailIs(s, k);
    ClosedIs(FreePermit(u, id), k);
  }

  lemma FailIs(s: State, k: nat)
    requires k < |s.entries| && Place(s.entries, s.entries[k].id) == k
    ensures var e := s.entries[k];
      FetchFails(s, e.id) == Dropped(FreePermit(s.(waiting := Leave(s.waiting, OfEntry(e.id))), e.id), k)
  {
    FreedIs(s.(waiting := Leave(s.waiting, OfEntry(s.entries[k].id))), s.entries[k].id);
  }

  lemma {:induction false} LeftLine(line: seq<Launch>, who: Launch)
    ensures forall x :: x in Leave(line, who) <==> x in line && x != who
    decreases |line|
  {
    if line != [] { LeftLine(line[1..], who); }
  }
}
