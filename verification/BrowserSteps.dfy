/** Each pool operation keeps the invariant; the run theorem is at the end. */
module BrowserSteps {
  import opened Basics
  import opened Tallies
  import opened Browsers
  import opened BrowserInvariant

  // ----- claims -----

  lemma BeginKeeps(cfg: Config, s: State, r: nat, lease: nat)
    requires Inv(cfg, s) && r !in s.claims && lease !in s.live && lease !in s.kept && forall q <- s.claims :: s.claims[q].lease != lease
    ensures Inv(cfg, BeginClaim(s, r, lease))
  {
    ClaimAdded(cfg.keeper, Tight(s), ParkedSeats(s.queue, s.entries), s.claims, s.kept, s.live, r, lease);
  }

  lemma ClaimAdded(keeper: bool, tight: bool, parked: multiset<nat>, claims: map<nat, Claim>, kept: map<nat, Kept>, live: set<nat>, r: nat, lease: nat)
    requires SeatsOk(keeper, tight, parked, claims, kept, live)
    requires r !in claims && lease !in kept && forall q <- claims :: claims[q].lease != lease
    ensures SeatsOk(keeper, tight, parked, claims[r := Claim(lease, false)], kept, live + {lease})
  {
    var now := claims[r := Claim(lease, false)];
    assert now[r] == Claim(lease, false);
    forall x <- live ensures x in kept || Owns(now, x) {
      if x !in kept {
        var q :| q in claims && claims[q] == Claim(x, false);
        assert now[q] == Claim(x, false);
      }
    }
  }

  lemma EndKeeps(cfg: Config, s: State, r: nat)
    requires Inv(cfg, s)
    ensures Inv(cfg, EndClaim(s, r))
  {
    if r in s.claims { ClaimGone(cfg.keeper, Tight(s), ParkedSeats(s.queue, s.entries), s.claims, s.kept, s.live, r); }
  }

  lemma ClaimGone(keeper: bool, tight: bool, parked: multiset<nat>, claims: map<nat, Claim>, kept: map<nat, Kept>, live: set<nat>, r: nat)
    requires SeatsOk(keeper, tight, parked, claims, kept, live) && r in claims
    ensures SeatsOk(keeper, tight, parked, claims - {r}, kept, if claims[r].retained then live else live - {claims[r].lease})
  {
    var left := if claims[r].retained then live else live - {claims[r].lease};
    forall x <- left ensures x in kept || Owns(claims - {r}, x) {
      if x !in kept {
        var q :| q in claims && claims[q] == Claim(x, false);
        assert q != r && (claims - {r})[q] == Claim(x, false);
      }
    }
  }

  // ----- Camoufox launches and releases -----

  lemma LaunchedKeeps(cfg: Config, s: State, id: nat)
    requires Inv(cfg, s) && id in s.active && s.active[id].phase.Launching?
    ensures Inv(cfg, Launched(s, id))
  {
    FoxSetKeeps(cfg, s, id, s.active[id].(phase := Up));
    LaunchedIs(s, id);
  }

  lemma LaunchedIs(s: State, id: nat)
    requires id in s.active
    ensures Launched(s, id) == s.(active := s.active[id := s.active[id].(phase := Up)])
  {
  }

  /** Nothing counted changes for instance `id`. */
  predicate Alike(f: Fox, g: Fox) {
    f.listed == g.listed && (f.phase.Waiting? <==> g.phase.Waiting?) && (f.phase.Up? ==> g.phase.Up?)
  }

  lemma FoxSet(cfg: Config, active: map<nat, Fox>, queue: seq<Spare>, id: nat, g: Fox)
    requires FoxesOk(cfg, active, queue) && id in active && Alike(active[id], g)
    ensures FoxesOk(cfg, active[id := g], queue) && Holders(active[id := g]) == Holders(active)
  {
    forall p <- queue ensures SpareOk(cfg, active[id := g], p) { assert SpareOk(cfg, active, p); }
  }

  lemma FoxSetLine(waiting: seq<Launch>, active: map<nat, Fox>, entries: seq<Entry>, fetching: set<nat>, id: nat, g: Fox)
    requires LineOk(waiting, active, entries, fetching) && id in active && Alike(active[id], g)
    ensures LineOk(waiting, active[id := g], entries, fetching)
  {
  }

  lemma FoxSetKeeps(cfg: Config, s: State, id: nat, g: Fox)
    requires Inv(cfg, s) && id in s.active && Alike(s.active[id], g)
    ensures Inv(cfg, s.(active := s.active[id := g]))
  {
    FoxSet(cfg, s.active, s.queue, id, g);
    FoxSetLine(s.waiting, s.active, s.entries, s.fetching, id, g);
  }

  lemma CancelKeeps(cfg: Config, s: State, id: nat)
    requires Inv(cfg, s) && id in s.active && s.active[id].phase.Waiting?
    ensures Inv(cfg, LaunchFails(s, id))
  {
    LeaveLine(s.waiting, OfFox(id));
    ForgetWaiting(cfg, s.active, s.queue, id);
    CancelIs(s, id);
  }

  lemma CancelIs(s: State, id: nat)
    requires id in s.active && s.active[id].phase.Waiting?
    ensures LaunchFails(s, id) == s.(active := s.active - {id}, waiting := Leave(s.waiting, OfFox(id)))
  {
  }

  lemma ForgetWaiting(cfg: Config, active: map<nat, Fox>, queue: seq<Spare>, id: nat)
    requires FoxesOk(cfg, active, queue) && id in active && active[id].phase.Waiting?
    ensures FoxesOk(cfg, active - {id}, queue) && Holders(active - {id}) == Holders(active)
  {
    forall p <- queue ensures SpareOk(cfg, active - {id}, p) { assert SpareOk(cfg, active, p); }
  }

  lemma CloseFoxInv(cfg: Config, s: State, id: nat)
    requires Inv(cfg, s) && id in s.active && !s.active[id].phase.Waiting? && forall p <- s.queue :: p.id != id
    ensures Inv(cfg, CloseFox(s, id))
  {
    CloseFoxKeeps(cfg, s, id);
  }

  lemma LaunchFailsKeeps(cfg: Config, s: State, id: nat)
    requires Inv(cfg, s) && id in s.active && !s.active[id].phase.Up?
    ensures Inv(cfg, LaunchFails(s, id))
  {
    if s.active[id].phase.Waiting? {
      CancelKeeps(cfg, s, id);
    } else {
      forall p <- s.queue ensures p.id != id { assert SpareOk(cfg, s.active, p); }
      CloseFoxInv(cfg, s, id);
    }
  }

  lemma RelabelKeeps(cfg: Config, s: State, id: nat, domain: Option<nat>)
    requires Inv(cfg, s) && id in s.active
    ensures Inv(cfg, Relabelled(s, id, domain))
  {
    FoxSetKeeps(cfg, s, id, s.active[id].(lastDomain := domain));
  }

  /** A leased instance joins the queue with its render's seat, if any. */
  lemma ParkKeeps(cfg: Config, s: State, r: nat, id: nat, now: int)
    requires Inv(cfg, s) && s.waiting == [] && id in s.active && s.active[id].phase.Up? && s.active[id].listed && !Parked(s, id)
    requires cfg.keeper ==> Retainable(s, r)
    ensures Inv(cfg, Park(cfg, s, r, id, now))
  {
    var t := Park(cfg, s, r, id, now);
    ParkSeats(cfg, s, r, id, now);
    AddSpare(cfg, s.active, s.queue, t.queue[|s.queue|]);
  }

  lemma ParkSeats(cfg: Config, s: State, r: nat, id: nat, now: int)
    requires Seated(cfg, s) && (cfg.keeper ==> Retainable(s, r))
    ensures Seated(cfg, Park(cfg, s, r, id, now))
  {
    if cfg.keeper {
      var p := Spare(id, now, Some(s.claims[r].lease));
      RetainSeats(true, Tight(s), s, r, now, ParkedSeats(s.queue, s.entries));
      ParkedAfterPark(s.queue, s.entries, p);
      RetainFrame(s, r, now);
    } else {
      ParkedAfterPark(s.queue, s.entries, Spare(id, now, None));
      assert ParkedSeats(s.queue, s.entries) + One(None) == ParkedSeats(s.queue, s.entries);
    }
  }

  lemma ParkedAfterPark(queue: seq<Spare>, entries: seq<Entry>, p: Spare)
    ensures ParkedSeats(queue + [p], entries) == ParkedSeats(queue, entries) + One(p.seat)
  {
    TallyAdd(queue, p, SeatOfSpare);
  }

  lemma RetainFrame(s: State, r: nat, now: int)
    requires Retainable(s, r)
    ensures var t := Retain(s, r, now);
      t == s.(claims := t.claims, kept := t.kept) && t.claims[r].lease == s.claims[r].lease
  {
  }

  lemma AddSpare(cfg: Config, active: map<nat, Fox>, queue: seq<Spare>, p: Spare)
    requires FoxesOk(cfg, active, queue) && SpareOk(cfg, active, p) && forall q <- queue :: q.id != p.id
    ensures FoxesOk(cfg, active, queue + [p])
  {
  }

  function Relabelled(s: State, id: nat, domain: Option<nat>): State
    requires id in s.active
  {
    s.(active := s.active[id := s.active[id].(lastDomain := domain)])
  }

  lemma ReleaseIs(cfg: Config, s: State, r: nat, id: nat, healthy: bool, domain: Option<nat>, now: int)
    requires id in s.active && s.active[id].listed
    ensures var t, u := Relabelled(s, id, domain), Release(cfg, s, r, id, healthy, domain, now);
      || u == CloseFox(s, id) || u == CloseFox(t, id)
      || (s.waiting == [] && (cfg.keeper ==> Retainable(t, r)) && u == Park(cfg, t, r, id, now))
  {
  }

  lemma ReleaseKeeps(cfg: Config, s: State, r: nat, id: nat, healthy: bool, domain: Option<nat>, now: int)
    requires Inv(cfg, s) && (id in s.active ==> s.active[id].phase.Up? && !Parked(s, id))
    ensures Inv(cfg, Release(cfg, s, r, id, healthy, domain, now))
  {
    if id in s.active && s.active[id].listed {
      var t, u := Relabelled(s, id, domain), Release(cfg, s, r, id, healthy, domain, now);
      ReleaseIs(cfg, s, r, id, healthy, domain, now);
      if u == CloseFox(s, id) {
        CloseFoxInv(cfg, s, id);
      } else {
        RelabelKeeps(cfg, s, id, domain);
        if u == CloseFox(t, id) { CloseFoxInv(cfg, t, id); } else { ParkKeeps(cfg, t, r, id, now); }
      }
    }
  }

  /** The ceiling `cfg` with the permits event `e` releases that nobody held. */
  function Raised(cfg: Config, s: State, e: Event): Config {
    if e.PoolStops? then cfg.(ceiling := cfg.ceiling + |InFlight(s.active)|) else cfg
  }

  /** Shutting down exits every listed instance; one whose launch is under way goes
      on, so its permit comes out once too often. */
  lemma ClearedHolders(active: map<nat, Fox>)
    ensures |Listed(active)| + |Holders(Unlisted(active))| == |Holders(active)| + |InFlight(active)|
    ensures forall id :: id in Unlisted(active) && Unlisted(active)[id].phase.Waiting? <==> id in active && active[id].phase.Waiting?
  {
    ClearedSets(active);
    Halves(Holders(active), Holders(Unlisted(active)), ListedUp(active));
    Halves(Listed(active), InFlight(active), ListedUp(active));
  }

  function ListedUp(active: map<nat, Fox>): set<nat> {
    set id | id in active && active[id].listed && active[id].phase.Up?
  }

  lemma ClearedSets(active: map<nat, Fox>)
    ensures Holders(active) == Holders(Unlisted(active)) + ListedUp(active) && Holders(Unlisted(active)) !! ListedUp(active)
    ensures Listed(active) == InFlight(active) + ListedUp(active) && InFlight(active) !! ListedUp(active)
  {
  }

  lemma Halves(all: set<nat>, a: set<nat>, b: set<nat>)
    requires all == a + b && a !! b
    ensures |all| == |a| + |b|
  {
  }

  lemma PoolFlagKeeps(cfg: Config, s: State)
    requires Inv(cfg, s)
    ensures Inv(cfg, s.(poolStopped := true))
  {
  }

  lemma ShutdownPoolKeeps(cfg: Config, s: State)
    requires Inv(cfg, s)
    ensures Inv(Raised(cfg, s, PoolStops), ShutdownPool(s))
  {
    PoolFlagKeeps(cfg, s);
    StopKeeps(cfg, s.(poolStopped := true));
    FlagRaisesNothing(cfg, s);
  }

  lemma FlagRaisesNothing(cfg: Config, s: State)
    ensures Raised(cfg, s.(poolStopped := true), PoolStops) == Raised(cfg, s, PoolStops)
    ensures ShutdownPool(s) == Cleared(Emptied(s.(poolStopped := true)))
  {
  }

  lemma StopKeeps(cfg: Config, s: State)
    requires Inv(cfg, s) && s.poolStopped
    ensures Inv(Raised(cfg, s, PoolStops), Cleared(Emptied(s)))
  {
    var t := Emptied(s);
    EmptiedKeeps(cfg, s);
    TrimsLine(s, t);
    TrimsInFlight(s, t);
    ClearOut(cfg, t);
  }

  lemma TrimsInFlight(s: State, t: State)
    requires Trims(s, t)
    ensures InFlight(t.active) == InFlight(s.active)
  {
  }

  lemma ClearOut(cfg: Config, s: State)
    requires Inv(cfg, s) && s.queue == []
    ensures Inv(Raised(cfg, s, PoolStops), Cleared(s))
  {
    ClearedHolders(s.active);
  }

  // ----- Botasaurus entries -----

  lemma ParkedWithoutEntry(queue: seq<Spare>, entries: seq<Entry>, i: nat)
    requires i < |entries|
    ensures ParkedSeats(queue, entries) == ParkedSeats(queue, Without(entries, i)) + One(entries[i].seat)
  {
    TallyWithout(entries, i, SeatOfEntry);
  }

  lemma ParkedAfterSet(queue: seq<Spare>, entries: seq<Entry>, i: nat, e: Entry)
    requires i < |entries|
    ensures ParkedSeats(queue, entries[i := e]) + One(entries[i].seat) == ParkedSeats(queue, entries) + One(e.seat)
  {
    TallySet(entries, i, e, SeatOfEntry);
    BagShift(Tally(queue, SeatOfSpare), Tally(entries[i := e], SeatOfEntry), One(entries[i].seat), Tally(entries, SeatOfEntry), One(e.seat));
  }

  lemma BagShift(q: multiset<nat>, a: multiset<nat>, x: multiset<nat>, b: multiset<nat>, y: multiset<nat>)
    requires a + x == b + y
    ensures (q + a) + x == (q + b) + y
  {
    assert (q + a) + x == q + (a + x);
    assert (q + b) + y == q + (b + y);
  }

  lemma OnListAdd(entries: seq<Entry>, e: Entry)
    ensures OnList(entries + [e]) == OnList(entries) + if e.listed then 1 else 0
  {
    assert (entries + [e])[..|entries|] == entries;
  }

  lemma {:induction false} OnListWithout(entries: seq<Entry>, i: nat)
    requires i < |entries|
    ensures OnList(Without(entries, i)) == OnList(entries) - if entries[i].listed then 1 else 0
  {
    WithoutLast(entries, i);
    if i < |entries| - 1 {
      OnListWithout(entries[..|entries| - 1], i);
      OnListAdd(Without(entries[..|entries| - 1], i), entries[|entries| - 1]);
    }
  }

  lemma OnListSet(entries: seq<Entry>, i: nat, e: Entry)
    requires i < |entries|
    ensures OnList(entries[i := e]) == OnList(entries) - (if entries[i].listed then 1 else 0) + if e.listed then 1 else 0
  {
    OnListWithout(entries, i);
    OnListWithout(entries[i := e], i);
    assert Without(entries[i := e], i) == Without(entries, i);
  }

  lemma WithoutEntries(cfg: Config, stopped: bool, entries: seq<Entry>, i: nat)
    requires EntriesOk(cfg, stopped, entries) && i < |entries|
    ensures EntriesOk(cfg, stopped, Without(entries, i))
    ensures forall e <- Without(entries, i) :: e.id != entries[i].id
    ensures forall id: nat :: id != entries[i].id || !entries[i].Busy() ==> (Busy(entries, id) <==> Busy(Without(entries, i), id))
  {
    var rest := Without(entries, i);
    OnListWithout(entries, i);
    forall e <- rest ensures e.id != entries[i].id {
      var j :| 0 <= j < |rest| && rest[j] == e;
      assert e == entries[if j < i then j else j + 1];
    }
    forall e <- entries ensures e == entries[i] || e in rest {
      var j :| 0 <= j < |entries| && entries[j] == e;
      if j < i { assert rest[j] == e; } else if j > i { assert rest[j - 1] == e; }
    }
  }

  lemma SetEntries(cfg: Config, stopped: bool, entries: seq<Entry>, i: nat, e: Entry)
    requires EntriesOk(cfg, stopped, entries) && i < |entries| && EntryOk(cfg, e) && e.id == entries[i].id
    requires e.listed == entries[i].listed || (stopped && !e.listed)
    ensures EntriesOk(cfg, stopped, entries[i := e])
  {
    var t := entries[i := e];
    OnListSet(entries, i, e);
    forall x <- t ensures EntryOk(cfg, x) {
      var j :| 0 <= j < |t| && t[j] == x;
      assert j != i ==> entries[j] == x;
    }
  }

  lemma SetStaysBusy(entries: seq<Entry>, i: nat, e: Entry)
    requires i < |entries| && e.id == entries[i].id
    ensures forall id: nat :: Busy(entries, id) && (id != e.id || e.Busy()) ==> Busy(entries[i := e], id)
  {
    forall id: nat | Busy(entries, id) && (id != e.id || e.Busy()) ensures Busy(entries[i := e], id) {
      var j :| 0 <= j < |entries| && entries[j].id == id && entries[j].Busy();
      assert entries[i := e][if j == i then i else j] in entries[i := e];
    }
  }

  lemma LineSurvives(s: State, entries: seq<Entry>)
    requires Lined(s) && forall id: nat :: Busy(s.entries, id) ==> Busy(entries, id)
    ensures Lined(s.(entries := entries))
  {
  }

  lemma DropDriver(s: State, i: nat)
    requires DriversOk(s.entries, s.started, s.closed) && i < |s.entries|
    ensures DriversOk(Without(s.entries, i), s.started, s.closed + One(DriverOf(s.entries[i])))
  {
    TallyWithout(s.entries, i, DriverOf);
  }

  lemma DropSeat(cfg: Config, s: State, i: nat)
    requires Seated(cfg, s) && i < |s.entries|
    ensures Seated(cfg, Dropped(s, i))
  {
    var u := s.(entries := Without(s.entries, i));
    ParkedWithoutEntry(s.queue, s.entries, i);
    GiveBackSeats(cfg.keeper, Tight(s), u, s.entries[i].seat, ParkedSeats(u.queue, u.entries));
    GiveBackFrame(u, s.entries[i].seat);
    DroppedIs(s, i);
  }

  lemma DroppedIs(s: State, i: nat)
    requires i < |s.entries|
    ensures var t := GiveBack(s.(entries := Without(s.entries, i)), s.entries[i].seat);
      Dropped(s, i) == t.(closed := s.closed + One(DriverOf(s.entries[i])))
  {
  }

  lemma DropKeeps(cfg: Config, s: State, i: nat)
    requires Inv(cfg, s) && i < |s.entries|
    requires s.entries[i].Busy() ==> s.entries[i].id !in s.fetching && OfEntry(s.entries[i].id) !in s.waiting
    ensures Inv(cfg, Dropped(s, i))
  {
    DropSeat(cfg, s, i);
    DropDriver(s, i);
    WithoutEntries(cfg, s.driversStopped, s.entries, i);
    DropLine(cfg, s, i);
    DroppedOnly(s, i);
  }

  lemma DropLine(cfg: Config, s: State, i: nat)
    requires Lined(s) && EntriesOk(cfg, s.driversStopped, s.entries) && i < |s.entries|
    requires s.entries[i].Busy() ==> s.entries[i].id !in s.fetching && OfEntry(s.entries[i].id) !in s.waiting
    ensures Lined(s.(entries := Without(s.entries, i)))
  {
    WithoutEntries(cfg, s.driversStopped, s.entries, i);
  }

  lemma DroppedOnly(s: State, i: nat)
    requires i < |s.entries|
    ensures var t := Dropped(s, i);
      t == s.(entries := Without(s.entries, i), closed := s.closed + One(DriverOf(s.entries[i])), kept := t.kept, live := t.live)
  {
  }

  lemma AddEntry(cfg: Config, s: State, e: Entry)
    requires EntriesOk(cfg, s.driversStopped, s.entries) && DriversOk(s.entries, s.started, s.closed) && Seated(cfg, s)
    requires OnList(s.entries) < cfg.maxDrivers && EntryOk(cfg, e) && e.listed && e.driver.None? && e.seat.None? && forall f <- s.entries :: f.id != e.id
    ensures EntriesOk(cfg, s.driversStopped, s.entries + [e]) && DriversOk(s.entries + [e], s.started, s.closed)
    ensures Seated(cfg, s.(entries := s.entries + [e]))
  {
    TallyAdd(s.entries, e, SeatOfEntry);
    assert Tally(s.entries + [e], SeatOfEntry) == Tally(s.entries, SeatOfEntry);
    TallyAdd(s.entries, e, DriverOf);
    assert Tally(s.entries + [e], DriverOf) == Tally(s.entries, DriverOf);
    AddEntries(cfg, s.driversStopped, s.entries, e);
  }

  lemma AddEntries(cfg: Config, stopped: bool, entries: seq<Entry>, e: Entry)
    requires EntriesOk(cfg, stopped, entries) && OnList(entries) < cfg.maxDrivers && EntryOk(cfg, e) && e.listed
    requires forall f <- entries :: f.id != e.id
    ensures EntriesOk(cfg, stopped, entries + [e])
  {
    OnListAdd(entries, e);
    forall i, j | 0 <= i < j < |entries + [e]| ensures (entries + [e])[i].id != (entries + [e])[j].id {
      if j == |entries| { assert entries[i] in entries; }
    }
  }

  lemma AddedStayBusy(entries: seq<Entry>, e: Entry)
    ensures forall id: nat :: Busy(entries, id) ==> Busy(entries + [e], id)
  {
    forall id: nat | Busy(entries, id) ensures Busy(entries + [e], id) {
      var f :| f in entries && f.id == id && f.Busy();
      assert f in entries + [e];
    }
  }

  lemma AddEntryKeeps(cfg: Config, s: State, want: Want, id: nat)
    requires Inv(cfg, s) && OnList(s.entries) < cfg.maxDrivers && forall e <- s.entries :: e.id != id
    ensures Inv(cfg, s.(entries := s.entries + [Entry(id, want.key, want.domain, Some(want), 0, None, None, true)]))
  {
    var e := Entry(id, want.key, want.domain, Some(want), 0, None, None, true);
    AddEntry(cfg, s, e);
    AddedStayBusy(s.entries, e);
  }

  lemma EvictAdd(s: State, i: nat, e: Entry)
    requires i < |s.entries|
    ensures CloseEntry(s.(entries := Without(s.entries, i) + [e]), s.entries[i]) == Dropped(s, i).(entries := Dropped(s, i).entries + [e])
  {
  }

  /** Entry `i` changes hands, and with it the seat it kept, if it did. */
  lemma SwapSeat(cfg: Config, s: State, i: nat, f: Entry)
    requires Seated(cfg, s) && i < |s.entries| && f.seat.None?
    ensures Seated(cfg, GiveBack(s.(entries := s.entries[i := f]), s.entries[i].seat))
  {
    var u := s.(entries := s.entries[i := f]);
    ParkedAfterSet(s.queue, s.entries, i, f);
    assert ParkedSeats(s.queue, s.entries) + One(f.seat) == ParkedSeats(s.queue, s.entries);
    GiveBackSeats(cfg.keeper, Tight(s), u, s.entries[i].seat, ParkedSeats(u.queue, u.entries));
    GiveBackFrame(u, s.entries[i].seat);
  }

  lemma SwapDriver(s: State, i: nat, f: Entry)
    requires DriversOk(s.entries, s.started, s.closed) && i < |s.entries| && f.driver == s.entries[i].driver
    ensures DriversOk(s.entries[i := f], s.started, s.closed)
  {
    TallySet(s.entries, i, f, DriverOf);
    BagCancel(Tally(s.entries[i := f], DriverOf), Tally(s.entries, DriverOf), One(DriverOf(f)));
  }

  lemma BagCancel(a: multiset<nat>, b: multiset<nat>, x: multiset<nat>)
    requires a + x == b + x
    ensures a == b
  {
    assert a == (a + x) - x;
    assert b == (b + x) - x;
  }

  /** A fetch takes over an idle entry; its own claim covers the driver. */
  lemma ReuseKeeps(cfg: Config, s: State, i: nat)
    requires Inv(cfg, s) && i < |s.entries| && !s.entries[i].Busy()
    ensures var e := s.entries[i];
      Inv(cfg, GiveBack(s.(entries := s.entries[i := e.(user := Some(Want(e.key, e.domain)), seat := None)]), e.seat))
  {
    var e := s.entries[i];
    var f := e.(user := Some(Want(e.key, e.domain)), seat := None);
    assert EntryOk(cfg, e);
    SetEntries(cfg, s.driversStopped, s.entries, i, f);
    SwapDriver(s, i, f);
    SwapSeat(cfg, s, i, f);
    SetStaysBusy(s.entries, i, f);
    LineSurvives(s, s.entries[i := f]);
  }

  lemma CheckoutKeeps(cfg: Config, s: State, want: Want, id: nat)
    requires Inv(cfg, s) && forall e <- s.entries :: e.id != id
    ensures Inv(cfg, Checkout(cfg, s, want, id))
  {
    var i := FirstIdle(s.entries, want.key, want.domain);
    if i < |s.entries| {
      ReuseKeeps(cfg, s, i);
    } else if OnList(s.entries) < cfg.maxDrivers {
      AddEntryKeeps(cfg, s, want, id);
    } else {
      var i := Oldest(s.entries, None);
      if i < |s.entries| { EvictKeeps(cfg, s, i, want, id); }
    }
  }

  lemma EvictKeeps(cfg: Config, s: State, i: nat, want: Want, id: nat)
    requires Inv(cfg, s) && i < |s.entries| && Closable(s.entries[i], None) && forall e <- s.entries :: e.id != id
    ensures Inv(cfg, CloseEntry(s.(entries := Without(s.entries, i) + [Entry(id, want.key, want.domain, Some(want), 0, None, None, true)]), s.entries[i]))
  {
    DropKeeps(cfg, s, i);
    OnListWithout(s.entries, i);
    DroppedFrame(s, i);
    EvictAdd(s, i, Entry(id, want.key, want.domain, Some(want), 0, None, None, true));
    AddEntryKeeps(cfg, Dropped(s, i), want, id);
  }

  lemma AsksKeeps(cfg: Config, s: State, id: nat)
    requires Inv(cfg, s) && BusyEntry(s, id) && id !in s.fetching && OfEntry(id) !in s.waiting
    ensures Inv(cfg, AskPermit(s, OfEntry(id)))
  {
    assert Busy(s.entries, id);
    AskKeeps(cfg, s, OfEntry(id));
  }

  // ----- a fetch on its entry -----

  lemma PlaceBusy(cfg: Config, stopped: bool, entries: seq<Entry>, id: nat)
    requires EntriesOk(cfg, stopped, entries) && Busy(entries, id)
    ensures Place(entries, id) < |entries| && entries[Place(entries, id)].Busy()
  {
    var j :| 0 <= j < |entries| && entries[j].id == id && entries[j].Busy();
    assert Place(entries, id) <= j;
  }

  lemma SetDriver(s: State, i: nat, f: Entry, d: nat)
    requires DriversOk(s.entries, s.started, s.closed) && i < |s.entries| && s.entries[i].driver.None?
    requires d !in s.started && DriverOf(f) == Some(d)
    ensures DriversOk(s.entries[i := f], s.started + {d}, s.closed)
  {
    TallySet(s.entries, i, f, DriverOf);
    assert Tally(s.entries[i := f], DriverOf) == Tally(s.entries, DriverOf) + multiset{d};
    assert multiset(s.started + {d}) == multiset(s.started) + multiset{d};
  }

  lemma SetSeatless(cfg: Config, s: State, i: nat, f: Entry)
    requires Seated(cfg, s) && i < |s.entries| && f.seat.None? && s.entries[i].seat.None?
    ensures Seated(cfg, s.(entries := s.entries[i := f]))
  {
    SwapSeat(cfg, s, i, f);
  }

  lemma LaunchDriverKeeps(cfg: Config, s: State, id: nat, driver: nat)
    requires Inv(cfg, s) && id in s.fetching && driver !in s.started
    ensures Inv(cfg, LaunchDriver(s, id, driver))
  {
    PlaceBusy(cfg, s.driversStopped, s.entries, id);
    var i := Place(s.entries, id);
    var e := s.entries[i];
    if e.driver.None? {
      var f := e.(driver := Some(Driver(driver, e.key, e.domain)));
      assert EntryOk(cfg, e);
      SetEntries(cfg, s.driversStopped, s.entries, i, f);
      SetDriver(s, i, f, driver);
      SetSeatless(cfg, s, i, f);
      SetStaysBusy(s.entries, i, f);
      LineSurvives(s, s.entries[i := f]);
      LaunchIs(s, id, driver);
    } else {
      LaunchIs(s, id, driver);
    }
  }

  lemma LaunchIs(s: State, id: nat, driver: nat)
    requires Place(s.entries, id) < |s.entries|
    ensures var i := Place(s.entries, id); var e := s.entries[i];
      LaunchDriver(s, id, driver) == if e.driver.Some? then s else
        s.(entries := s.entries[i := e.(driver := Some(Driver(driver, e.key, e.domain)))], started := s.started + {driver})
  {
  }

  lemma FreePermitKeeps(cfg: Config, s: State, id: nat)
    requires Inv(cfg, s)
    ensures Inv(cfg, FreePermit(s, id)) && id !in FreePermit(s, id).fetching
  {
    if id in s.fetching {
      assert |s.fetching - {id}| == |s.fetching| - 1;
    }
  }

  lemma DiscardKeeps(cfg: Config, s: State, id: nat)
    requires Inv(cfg, s) && id !in s.fetching && !InLine(s.waiting, OfEntry(id))
    ensures Inv(cfg, Discard(s, id))
  {
    var i := Place(s.entries, id);
    if i < |s.entries| { DropKeeps(cfg, s, i); }
  }

  lemma LeaveKeeps(cfg: Config, s: State, id: nat)
    requires Inv(cfg, s)
    ensures Inv(cfg, s.(waiting := Leave(s.waiting, OfEntry(id))))
    ensures !InLine(Leave(s.waiting, OfEntry(id)), OfEntry(id))
  {
    LeaveLine(s.waiting, OfEntry(id));
  }

  lemma FetchFailsKeeps(cfg: Config, s: State, id: nat)
    requires Inv(cfg, s)
    ensures Inv(cfg, FetchFails(s, id))
  {
    var t := s.(waiting := Leave(s.waiting, OfEntry(id)));
    LeaveKeeps(cfg, s, id);
    FreePermitKeeps(cfg, t, id);
    DiscardKeeps(cfg, FreePermit(t, id), id);
  }

  /** A fetch done, its permit back: the entry goes idle with the seat. */
  lemma CheckinKeeps(cfg: Config, s: State, i: nat, r: nat, now: int)
    requires Inv(cfg, s) && i < |s.entries| && s.entries[i].Busy() && s.entries[i].driver.Some?
    requires s.entries[i].id !in s.fetching && !InLine(s.waiting, OfEntry(s.entries[i].id))
    requires cfg.keeper ==> Retainable(s, r)
    ensures Inv(cfg, Checkin(cfg, s, i, r, now))
  {
    var f := Checkin(cfg, s, i, r, now).entries[i];
    assert EntryOk(cfg, s.entries[i]);
    SetEntries(cfg, s.driversStopped, s.entries, i, f);
    SwapDriver(s, i, f);
    CheckinLine(s, i, f);
    if cfg.keeper { CheckinSeats(cfg, s, i, f, r, now); } else { SetSeatless(cfg, s, i, f); }
  }

  lemma CheckinLine(s: State, i: nat, f: Entry)
    requires Lined(s) && i < |s.entries| && f.id == s.entries[i].id
    requires f.id !in s.fetching && !InLine(s.waiting, OfEntry(f.id))
    ensures Lined(s.(entries := s.entries[i := f]))
  {
    SetStaysBusy(s.entries, i, f);
  }

  lemma CheckinSeats(cfg: Config, s: State, i: nat, f: Entry, r: nat, now: int)
    requires cfg.keeper && Seated(cfg, s) && i < |s.entries| && s.entries[i].seat.None?
    requires Retainable(s, r) && f.seat == Some(s.claims[r].lease)
    ensures Seated(cfg, Retain(s, r, now).(entries := s.entries[i := f]))
  {
    RetainSeats(true, Tight(s), s, r, now, ParkedSeats(s.queue, s.entries));
    ParkedAfterSet(s.queue, s.entries, i, f);
    assert ParkedSeats(s.queue, s.entries[i := f]) == ParkedSeats(s.queue, s.entries) + multiset{s.claims[r].lease};
  }

  lemma FetchDoneKeeps(cfg: Config, s: State, r: nat, id: nat, reusable: bool, blank: bool, now: int)
    requires Inv(cfg, s) && id in s.fetching
    ensures Inv(cfg, FetchDone(cfg, s, r, id, reusable, blank, now))
  {
    PlaceBusy(cfg, s.driversStopped, s.entries, id);
    FreePermitKeeps(cfg, s, id);
    var t, i := FreePermit(s, id), Place(s.entries, id);
    assert !InLine(s.waiting, OfEntry(id));
    FetchDoneIs(cfg, s, r, id, reusable, blank, now);
    if FetchDone(cfg, s, r, id, reusable, blank, now) == Discard(t, id) {
      DiscardKeeps(cfg, t, id);
    } else {
      CheckinKeeps(cfg, t, i, r, now);
    }
  }

  lemma FetchDoneIs(cfg: Config, s: State, r: nat, id: nat, reusable: bool, blank: bool, now: int)
    requires Place(s.entries, id) < |s.entries|
    ensures var t, i, u := FreePermit(s, id), Place(s.entries, id), FetchDone(cfg, s, r, id, reusable, blank, now);
      && t == s.(fetching := t.fetching, free := t.free)
      && (u == Discard(t, id) || (s.entries[i].driver.Some? && (cfg.keeper ==> Retainable(t, r)) && u == Checkin(cfg, t, i, r, now)))
  {
  }

  lemma DroppedFrame(s: State, i: nat)
    requires i < |s.entries|
    ensures var t := Dropped(s, i);
      t.entries == Without(s.entries, i) && t.queue == s.queue && t.claims == s.claims && t.started == s.started
      && t.waiting == s.waiting && t.active == s.active && t.fetching == s.fetching && t.free == s.free
  {
  }

  /** A busy entry goes off the list; its driver, if any, is closed. */
  lemma StopBusyKeeps(cfg: Config, s: State, i: nat)
    requires Inv(cfg, s) && s.driversStopped && i < |s.entries| && s.entries[i].listed && s.entries[i].Busy()
    ensures Inv(cfg, StopEntry(s, i))
  {
    var e := s.entries[i];
    var f := e.(listed := false, driver := None, seat := None);
    assert EntryOk(cfg, e);
    SetEntries(cfg, true, s.entries, i, f);
    SetStaysBusy(s.entries, i, f);
    LineSurvives(s, s.entries[i := f]);
    SetSeatless(cfg, s, i, f);
    LoseDriver(s, i, f);
    assert StopEntry(s, i) == s.(entries := s.entries[i := f], closed := s.closed + One(DriverOf(e)));
  }

  lemma LoseDriver(s: State, i: nat, f: Entry)
    requires DriversOk(s.entries, s.started, s.closed) && i < |s.entries| && f.driver.None?
    ensures DriversOk(s.entries[i := f], s.started, s.closed + One(DriverOf(s.entries[i])))
  {
    TallySet(s.entries, i, f, DriverOf);
    assert Tally(s.entries[i := f], DriverOf) + One(DriverOf(s.entries[i])) == Tally(s.entries, DriverOf);
  }

  lemma StopEntryKeeps(cfg: Config, s: State, i: nat)
    requires Inv(cfg, s) && s.driversStopped && i < |s.entries|
    ensures Inv(cfg, StopEntry(s, i))
  {
    if s.entries[i].listed {
      if s.entries[i].Busy() { StopBusyKeeps(cfg, s, i); } else { DropKeeps(cfg, s, i); }
    }
  }

  lemma {:induction false} StopFromKeeps(cfg: Config, s: State, i: nat)
    requires Inv(cfg, s) && s.driversStopped && i <= |s.entries|
    ensures Inv(cfg, StopFrom(s, i))
    decreases |s.entries| - i
  {
    if i < |s.entries| {
      var next := if s.entries[i].listed && !s.entries[i].Busy() then i else i + 1;
      StopEntryKeeps(cfg, s, i);
      StopEntryFrame(s, i);
      StopFromStep(s, i);
      StopFromKeeps(cfg, StopEntry(s, i), next);
    }
  }

  lemma StopFromStep(s: State, i: nat)
    requires i < |s.entries|
    ensures StopFrom(s, i) == StopFrom(StopEntry(s, i), if s.entries[i].listed && !s.entries[i].Busy() then i else i + 1)
  {
  }

  lemma StopEntryFrame(s: State, i: nat)
    requires i < |s.entries|
    ensures StopEntry(s, i).driversStopped == s.driversStopped && StopEntry(s, i).keeperStopped == s.keeperStopped
    ensures |StopEntry(s, i).entries| == |s.entries| - if s.entries[i].listed && !s.entries[i].Busy() then 1 else 0
  {
    DroppedIs(s, i);
  }

  lemma FlagKeeps(cfg: Config, s: State)
    requires Inv(cfg, s)
    ensures Inv(cfg, s.(driversStopped := true))
  {
  }

  lemma ShutdownDriversKeeps(cfg: Config, s: State)
    requires Inv(cfg, s)
    ensures Inv(cfg, ShutdownDrivers(s))
  {
    FlagKeeps(cfg, s);
    StopFromKeeps(cfg, s.(driversStopped := true), 0);
  }

  // ----- the seat keeper -----

  lemma CloseSpareInv(cfg: Config, s: State, i: nat)
    requires Inv(cfg, s) && i < |s.queue|
    ensures Inv(cfg, CloseSpare(s, i))
  {
    CloseSpareKeeps(cfg, s, i);
    TrimsLine(s, CloseSpare(s, i));
  }

  lemma ReclaimKeeps(cfg: Config, s: State, seat: Option<nat>)
    requires Inv(cfg, s)
    ensures Inv(cfg, Reclaim(s, seat).0)
  {
    var i, j := SpareFor(s, seat), Oldest(s.entries, seat);
    ReclaimCases(s, seat);
    if i < |s.queue| { CloseSpareInv(cfg, s, i); } else if j < |s.entries| { DropKeeps(cfg, s, j); }
  }

  function SpareFor(s: State, seat: Option<nat>): nat {
    if seat.Some? then FindSpare(s.queue, seat.value) else 0
  }

  lemma ReclaimCases(s: State, seat: Option<nat>)
    ensures var i, j := SpareFor(s, seat), Oldest(s.entries, seat);
      Reclaim(s, seat) == if i < |s.queue| then (CloseSpare(s, i), true) else if j < |s.entries| then (Dropped(s, j), true) else (s, false)
  {
  }

  /** Until the Botasaurus pool stops, a kept seat's browser is always there to be
      closed. */
  lemma ReclaimFinds(cfg: Config, s: State, lease: nat)
    requires Seated(cfg, s) && EntriesOk(cfg, s.driversStopped, s.entries) && !s.driversStopped && lease in s.kept
    ensures Reclaim(s, Some(lease)).1
  {
    assert lease in ParkedSeats(s.queue, s.entries);
    if lease in Tally(s.queue, SeatOfSpare) {
      var i := TallyFinds(s.queue, lease, SeatOfSpare);
      SpareFound(s.queue, lease, i);
    } else {
      var j := TallyFinds(s.entries, lease, SeatOfEntry);
      IdleFound(cfg, s.entries, lease, j);
    }
  }

  lemma SpareFound(queue: seq<Spare>, lease: nat, i: nat)
    requires i < |queue| && SeatOfSpare(queue[i]) == Some(lease)
    ensures FindSpare(queue, lease) < |queue|
  {
    assert FindSpare(queue, lease) <= i;
  }

  lemma IdleFound(cfg: Config, entries: seq<Entry>, lease: nat, j: nat)
    requires EntriesOk(cfg, false, entries) && j < |entries| && SeatOfEntry(entries[j]) == Some(lease)
    ensures Oldest(entries, Some(lease)) < |entries|
  {
    assert EntryOk(cfg, entries[j]);
    assert Closable(entries[j], Some(lease));
  }

  /** Dropping a lapsed seat before its browser is closed comes to the same as
      letting the close give it back. */
  lemma DropThenReclaim(cfg: Config, s: State, lease: nat)
    requires Seated(cfg, s) && EntriesOk(cfg, false, s.entries) && !s.driversStopped && lease in s.kept && lease !in s.live
    ensures Reclaim(s.(kept := s.kept - {lease}), Some(lease)).0 == Reclaim(s, Some(lease)).0
  {
    ReclaimFinds(cfg, s, lease);
    assert s.live - {lease} == s.live;
  }

  /** A lapsed seat dropped: its browser may be out of the pools' reach. */
  lemma DropKept(cfg: Config, s: State, lease: nat)
    requires Inv(cfg, s) && s.driversStopped && lease !in s.live
    ensures Inv(cfg, s.(kept := s.kept - {lease}))
  {
  }

  lemma LostKeeps(cfg: Config, s: State, lease: nat)
    requires Inv(cfg, s) && lease in s.kept && lease !in s.live
    ensures Inv(cfg, Reclaim(s.(kept := s.kept - {lease}), Some(lease)).0)
  {
    if s.driversStopped {
      DropKept(cfg, s, lease);
      ReclaimKeeps(cfg, s.(kept := s.kept - {lease}), Some(lease));
    } else {
      DropThenReclaim(cfg, s, lease);
      ReclaimKeeps(cfg, s, Some(lease));
    }
  }

  lemma RenewOneKeeps(cfg: Config, s: State, lease: nat, now: int)
    requires Inv(cfg, s)
    ensures Inv(cfg, RenewOne(cfg, s, lease, now))
  {
    if lease in s.kept && now - s.kept[lease].lastRenew >= cfg.renewEvery {
      if lease in s.live { StampKeeps(cfg, s, lease, now); } else { LostKeeps(cfg, s, lease); }
    }
  }

  lemma StampKeeps(cfg: Config, s: State, lease: nat, now: int)
    requires Inv(cfg, s) && lease in s.kept
    ensures Inv(cfg, s.(kept := s.kept[lease := s.kept[lease].(lastRenew := now)]))
  {
    assert s.kept[lease := s.kept[lease].(lastRenew := now)].Keys == s.kept.Keys;
  }

  lemma {:induction false} RenewAllKeeps(cfg: Config, s: State, order: seq<nat>, now: int)
    requires Inv(cfg, s)
    ensures Inv(cfg, RenewAll(cfg, s, order, now))
    decreases |order|
  {
    if order != [] {
      RenewOneKeeps(cfg, s, order[0], now);
      RenewAllKeeps(cfg, RenewOne(cfg, s, order[0], now), order[1..], now);
    }
  }

  lemma {:induction false} ReclaimAllKeeps(cfg: Config, s: State, leases: seq<nat>)
    requires Inv(cfg, s)
    ensures Inv(cfg, ReclaimAll(s, leases))
    decreases |leases|
  {
    if leases != [] {
      ReclaimKeeps(cfg, s, Some(leases[0]));
      ReclaimAllKeeps(cfg, Reclaim(s, Some(leases[0])).0, leases[1..]);
    }
  }

  lemma {:induction false} YieldKeeps(cfg: Config, s: State, n: nat)
    requires Inv(cfg, s)
    ensures Inv(cfg, Yield(s, n))
    decreases n
  {
    if n > 0 && Reclaim(s, None).1 {
      ReclaimKeeps(cfg, s, None);
      YieldKeeps(cfg, Reclaim(s, None).0, n - 1);
      assert Yield(s, n) == Yield(Reclaim(s, None).0, n - 1);
    } else {
      assert Yield(s, n) == s;
    }
  }

  lemma TickKeeps(cfg: Config, s: State, order: seq<nat>, now: int, waiters: nat)
    requires Inv(cfg, s)
    ensures Inv(cfg, Tick(cfg, s, order, now, waiters))
  {
    RenewAllKeeps(cfg, s, order, now);
    AfterRenewals(cfg, RenewAll(cfg, s, order, now), order, now, waiters);
  }

  lemma AfterRenewals(cfg: Config, s: State, order: seq<nat>, now: int, waiters: nat)
    requires Inv(cfg, s)
    ensures Inv(cfg, HandBack(cfg, s, OverheldIn(cfg, s, order, now), now, waiters))
  {
    var overheld := OverheldIn(cfg, s, order, now);
    var t := ReclaimAll(s, overheld);
    ReclaimAllKeeps(cfg, s, overheld);
    var n := Min(IdleSeats(cfg, t.kept, now), waiters);
    YieldKeeps(cfg, t, n);
    assert HandBack(cfg, s, overheld, now, waiters) == t || HandBack(cfg, s, overheld, now, waiters) == Yield(t, n);
  }

  lemma KeeperStopKeeps(cfg: Config, s: State)
    requires Inv(cfg, s)
    ensures Inv(cfg, ShutdownKeeper(s))
  {
  }

  // ----- every step, every run -----

  predicate OfPool(e: Event) {
    e.Acquires? || e.Wakes? || e.Comes? || e.Fails? || e.Releases?
  }

  lemma PoolStepKeeps(cfg: Config, s: State, e: Event)
    requires Inv(cfg, s) && Legal(cfg, s, e) && OfPool(e)
    ensures Inv(cfg, Step(cfg, s, e))
  {
    match e
    case Acquires(proxy, domain, now, id) => AcquireKeeps(cfg, s, proxy, domain, now, id);
    case Wakes => WakeKeeps(cfg, s);
    case Comes(id) => LaunchedKeeps(cfg, s, id);
    case Fails(id) => LaunchFailsKeeps(cfg, s, id);
    case Releases(r, id, healthy, domain, now) => ReleaseKeeps(cfg, s, r, id, healthy, domain, now);
  }

  lemma OtherStepKeeps(cfg: Config, s: State, e: Event)
    requires Inv(cfg, s) && Legal(cfg, s, e) && !OfPool(e) && !e.PoolStops?
    ensures Inv(cfg, Step(cfg, s, e))
  {
    match e
    case ClaimBegins(r, lease) => BeginKeeps(cfg, s, r, lease);
    case ClaimEnds(r) => EndKeeps(cfg, s, r);
    case Lapses(_) =>
    case ChecksOut(want, id) => CheckoutKeeps(cfg, s, want, id);
    case Asks(id) => AsksKeeps(cfg, s, id);
    case Launches(id, driver) => LaunchDriverKeeps(cfg, s, id, driver);
    case FetchRaises(id) => FetchFailsKeeps(cfg, s, id);
    case FetchEnds(r, id, reusable, blank, now) => FetchDoneKeeps(cfg, s, r, id, reusable, blank, now);
    case Ticks(order, now, waiters) => TickKeeps(cfg, s, order, now, waiters);
    case DriversStop => ShutdownDriversKeeps(cfg, s);
    case KeeperStops => KeeperStopKeeps(cfg, s);
  }

  /** Every step keeps the invariant, at the ceiling it itself may raise: stopping
      the pool puts one permit too many in circulation for each launch under way. */
  lemma StepKeeps(cfg: Config, s: State, e: Event)
    requires Inv(cfg, s) && Legal(cfg, s, e)
    ensures Inv(Raised(cfg, s, e), Step(cfg, s, e))
  {
    if e.PoolStops? { ShutdownPoolKeeps(cfg, s); } else if OfPool(e) { PoolStepKeeps(cfg, s, e); } else { OtherStepKeeps(cfg, s, e); }
  }

  function Run(cfg: Config, s: State, es: seq<Event>): State
    decreases |es|
  {
    if es == [] then s else Step(cfg, Run(cfg, s, es[..|es| - 1]), es[|es| - 1])
  }

  predicate LegalRun(cfg: Config, s: State, es: seq<Event>)
    decreases |es|
  {
    es != [] ==>
      LegalRun(cfg, s, es[..|es| - 1]) && Legal(cfg, Run(cfg, s, es[..|es| - 1]), es[|es| - 1])
  }

  /** Launches under way when the pool was stopped, over a run. */
  function Excess(cfg: Config, s: State, es: seq<Event>): nat
    decreases |es|
  {
    if es == [] then 0
    else
      var init := es[..|es| - 1];
      Excess(cfg, s, init) + if es[|es| - 1].PoolStops? then |InFlight(Run(cfg, s, init).active)| else 0
  }

  function WithExcess(cfg: Config, n: nat): Config {
    cfg.(ceiling := cfg.ceiling + n)
  }

  // No step reads the ceiling.

  lemma {:induction false} PickSame(cfg: Config, n: nat, s: State, i: nat, taken: Option<nat>, proxy: Option<Proxy>, domain: Option<nat>, now: int)
    requires i <= |s.queue|
    ensures Pick(WithExcess(cfg, n), s, i, taken, proxy, domain, now) == Pick(cfg, s, i, taken, proxy, domain, now)
    decreases |s.queue| - i
  {
    if i < |s.queue| {
      var (t, j, got) := Look(cfg, s, i, taken, proxy, domain, now);
      PickSame(cfg, n, t, j, got, proxy, domain, now);
    }
  }

  lemma {:induction false} RenewSame(cfg: Config, n: nat, s: State, order: seq<nat>, now: int)
    ensures RenewAll(WithExcess(cfg, n), s, order, now) == RenewAll(cfg, s, order, now)
    ensures OverheldIn(WithExcess(cfg, n), s, order, now) == OverheldIn(cfg, s, order, now)
    decreases |order|
  {
    if order != [] {
      RenewSame(cfg, n, RenewOne(cfg, s, order[0], now), order[1..], now);
      RenewSame(cfg, n, s, order[1..], now);
    }
  }

  lemma StepSame(cfg: Config, n: nat, s: State, e: Event)
    ensures Step(WithExcess(cfg, n), s, e) == Step(cfg, s, e) && (Legal(WithExcess(cfg, n), s, e) <==> Legal(cfg, s, e))
  {
    match e
    case Acquires(proxy, domain, now, id) => PickSame(cfg, n, s, 0, None, proxy, domain, now);
    case Ticks(order, now, waiters) =>
      RenewSame(cfg, n, s, order, now);
      RenewSame(cfg, n, RenewAll(cfg, s, order, now), order, now);
    case _ =>
  }

  /** Over every run, with stops at any time, all of it holds at the ceiling plus
      the launches that were under way at a stop. */
  lemma {:induction false} RunKeeps(cfg: Config, es: seq<Event>)
    requires LegalRun(cfg, Init(cfg), es)
    ensures Inv(WithExcess(cfg, Excess(cfg, Init(cfg), es)), Run(cfg, Init(cfg), es))
    decreases |es|
  {
    if es == [] {
      InitKeeps(cfg);
    } else {
      var init, last := es[..|es| - 1], es[|es| - 1];
      var n, s := Excess(cfg, Init(cfg), init), Run(cfg, Init(cfg), init);
      RunKeeps(cfg, init);
      RunStep(cfg, es);
      NextKeeps(cfg, n, s, last);
    }
  }

  lemma RunStep(cfg: Config, es: seq<Event>)
    requires es != []
    ensures var init, last := es[..|es| - 1], es[|es| - 1]; var s := Run(cfg, Init(cfg), init);
      && Run(cfg, Init(cfg), es) == Step(cfg, s, last)
      && Excess(cfg, Init(cfg), es) == Excess(cfg, Init(cfg), init) + if last.PoolStops? then |InFlight(s.active)| else 0
  {
  }

  lemma InitKeeps(cfg: Config)
    ensures Inv(WithExcess(cfg, 0), Init(cfg))
  {
    assert Holders(map[]) == {};
  }

  lemma NextKeeps(cfg: Config, n: nat, s: State, e: Event)
    requires Inv(WithExcess(cfg, n), s) && Legal(cfg, s, e)
    ensures Inv(WithExcess(cfg, n + if e.PoolStops? then |InFlight(s.active)| else 0), Step(cfg, s, e))
  {
    StepSame(cfg, n, s, e);
    StepKeeps(WithExcess(cfg, n), s, e);
    assert Raised(WithExcess(cfg, n), s, e) == WithExcess(cfg, n + if e.PoolStops? then |InFlight(s.active)| else 0);
  }
}
