/** What every step of a worker process's browser pools keeps: permits, parked
    browsers, drivers and host seats, over every run. */
module BrowserInvariant {
  import opened Basics
  import opened Tallies
  import opened Browsers

  /** Instances coming up or live, listed or not: all but those still waiting for
      a permit. */
  function Holders(active: map<nat, Fox>): set<nat> {
    set id | id in active && !active[id].phase.Waiting?
  }

  /** One permit for each of them and for each fetch, the rest free. */
  ghost predicate PermitsOk(ceiling: nat, free: nat, active: map<nat, Fox>, fetching: set<nat>) {
    free + |Holders(active)| + |fetching| == ceiling
  }

  predicate SpareOk(cfg: Config, active: map<nat, Fox>, p: Spare) {
    p.id in active && active[p.id].phase.Up? && active[p.id].listed && (p.seat.Some? <==> cfg.keeper)
  }

  ghost predicate FoxesOk(cfg: Config, active: map<nat, Fox>, queue: seq<Spare>) {
    && (forall p <- queue :: SpareOk(cfg, active, p))
    && (forall i, j :: 0 <= i < j < |queue| ==> queue[i].id != queue[j].id)
  }

  /** A busy entry serves one fetch, of the very proxy identity and domain its
      driver was launched for; an idle one is launched and, under a seat keeper,
      keeps a seat. */
  predicate EntryOk(cfg: Config, e: Entry) {
    && (e.user.Some? ==> e.user.value == Want(e.key, e.domain) && e.seat.None?)
    && (e.user.None? ==> e.driver.Some? && (e.seat.Some? <==> cfg.keeper))
    && (e.driver.Some? ==> e.driver.value.key == e.key && e.driver.value.domain == e.domain)
  }

  /** The list is within the cap; it is all the entries there are until the pool
      stops. */
  ghost predicate EntriesOk(cfg: Config, stopped: bool, entries: seq<Entry>) {
    && OnList(entries) <= cfg.maxDrivers
    && (!stopped ==> forall e <- entries :: e.listed)
    && (forall e <- entries :: EntryOk(cfg, e))
    && (forall i, j :: 0 <= i < j < |entries| ==> entries[i].id != entries[j].id)
  }

  /** Every driver launched is either some entry's or closed, and never twice. */
  ghost predicate DriversOk(entries: seq<Entry>, started: set<nat>, closed: multiset<nat>) {
    multiset(started) == closed + Tally(entries, DriverOf)
  }

  /** The seats parked browsers keep. */
  ghost function ParkedSeats(queue: seq<Spare>, entries: seq<Entry>): multiset<nat> {
    Tally(queue, SeatOfSpare) + Tally(entries, SeatOfEntry)
  }

  /** A render's claim owns its seat until a parked browser takes it over. */
  predicate Owns(claims: map<nat, Claim>, lease: nat) {
    exists r <- claims :: claims[r] == Claim(lease, false)
  }

  /** Every kept seat is a parked browser's; while the books are `tight`, parked
      and kept seats correspond one to one. Every live seat has an owner, which
      is never both a claim and the keeper. */
  ghost predicate SeatsOk(keeper: bool, tight: bool, parked: multiset<nat>, claims: map<nat, Claim>, kept: map<nat, Kept>, live: set<nat>) {
    && (forall lease <- kept :: lease in parked)
    && (tight ==> parked == multiset(kept.Keys))
    && (!keeper ==> kept == map[])
    && (forall lease <- live :: lease in kept || Owns(claims, lease))
    && (forall r <- claims :: !claims[r].retained ==> claims[r].lease !in kept)
    && (forall q, r :: q in claims && r in claims && claims[q].lease == claims[r].lease ==> q == r)
  }

  /** Neither the Botasaurus pool nor the keeper has been stopped. */
  predicate Tight(s: State) {
    !s.driversStopped && !s.keeperStopped
  }

  ghost predicate Seated(cfg: Config, s: State) {
    SeatsOk(cfg.keeper, Tight(s), ParkedSeats(s.queue, s.entries), s.claims, s.kept, s.live)
  }

  ghost predicate Core(cfg: Config, s: State) {
    && PermitsOk(cfg.ceiling, s.free, s.active, s.fetching)
    && FoxesOk(cfg, s.active, s.queue) && EntriesOk(cfg, s.driversStopped, s.entries)
    && DriversOk(s.entries, s.started, s.closed) && Seated(cfg, s)
  }

  predicate Busy(entries: seq<Entry>, id: nat) {
    exists e <- entries :: e.id == id && e.Busy()
  }

  predicate InLine(waiting: seq<Launch>, who: Launch) {
    who in waiting
  }

  /** Just the blocked launches stand in line, each once, and only a fetch at
      work holds or waits for a fetch's permit. */
  ghost predicate LineOk(waiting: seq<Launch>, active: map<nat, Fox>, entries: seq<Entry>, fetching: set<nat>) {
    && (forall i, j :: 0 <= i < j < |waiting| ==> waiting[i] != waiting[j])
    && (forall id: nat :: InLine(waiting, OfFox(id)) <==> id in active && active[id].phase.Waiting?)
    && (forall id: nat :: InLine(waiting, OfEntry(id)) ==> id !in fetching && Busy(entries, id))
    && (forall id <- fetching :: Busy(entries, id))
  }

  /** While a launch is blocked no permit sits on a parked browser, as long as the
      pool reclaims. */
  predicate NoneIdle(s: State) {
    !s.poolStopped && s.waiting != [] ==> s.queue == []
  }

  ghost predicate Inv(cfg: Config, s: State) {
    Core(cfg, s) && LineOk(s.waiting, s.active, s.entries, s.fetching) && NoneIdle(s)
  }

  function Init(cfg: Config): State {
    State(cfg.ceiling, [], map[], [], [], {}, {}, multiset{}, map[], map[], {}, false, false, false)
  }

  // ----- seats -----

  /** One seat less parked, and one less kept if it was. */
  lemma BagDrop(rest: multiset<nat>, keys: set<nat>, x: nat)
    requires forall v <- keys :: v in rest + multiset{x}
    ensures forall v <- keys - {x} :: v in rest
    ensures rest + multiset{x} == multiset(keys) ==> x in keys && rest == multiset(keys - {x})
  {
    if rest + multiset{x} == multiset(keys) {
      assert multiset(keys)[x] == rest[x] + 1;
      assert rest == multiset(keys) - multiset{x};
      assert multiset(keys - {x}) == multiset(keys) - multiset{x};
    }
  }

  lemma GiveBackSeats(keeper: bool, tight: bool, s: State, seat: Option<nat>, rest: multiset<nat>)
    requires SeatsOk(keeper, tight, rest + One(seat), s.claims, s.kept, s.live)
    ensures var t := GiveBack(s, seat);
      SeatsOk(keeper, tight, rest, t.claims, t.kept, t.live)
  {
    if seat.Some? {
      BagDrop(rest, s.kept.Keys, seat.value);
      assert (s.kept - {seat.value}).Keys == s.kept.Keys - {seat.value};
      assert seat.value !in s.kept ==> s.kept.Keys - {seat.value} == s.kept.Keys;
    } else {
      assert rest + One(seat) == rest;
    }
  }

  lemma RetainSeats(keeper: bool, tight: bool, s: State, r: nat, now: int, parked: multiset<nat>)
    requires keeper && Retainable(s, r) && SeatsOk(keeper, tight, parked, s.claims, s.kept, s.live)
    ensures var t := Retain(s, r, now);
      SeatsOk(keeper, tight, parked + multiset{t.claims[r].lease}, t.claims, t.kept, t.live)
  {
    var t := Retain(s, r, now);
    var lease := s.claims[r].lease;
    assert t.kept.Keys == s.kept.Keys + {lease};
    forall x <- t.live ensures x in t.kept || Owns(t.claims, x) {
      if x !in s.kept && x != lease {
        var q :| q in s.claims && s.claims[q] == Claim(x, false);
        assert t.claims[q] == Claim(x, false);
      }
    }
  }

  // ----- closing a parked browser -----

  lemma DropHolder(active: map<nat, Fox>, id: nat)
    requires id in active && !active[id].phase.Waiting?
    ensures |Holders(active - {id})| == |Holders(active)| - 1
  {
    assert Holders(active - {id}) == Holders(active) - {id};
  }

  /** What closing parked browsers leaves alone. */
  ghost predicate Trims(s: State, t: State) {
    && t.waiting == s.waiting && t.entries == s.entries && t.fetching == s.fetching
    && t.started == s.started && t.closed == s.closed && t.claims == s.claims
    && t.poolStopped == s.poolStopped && t.driversStopped == s.driversStopped && t.keeperStopped == s.keeperStopped
    && (forall id <- t.active :: id in s.active && t.active[id] == s.active[id])
    && (forall id <- s.active :: id !in t.active ==> s.active[id].phase.Up?)
    && (s.queue == [] ==> t.queue == [])
    && t.free >= s.free
  }

  lemma WithoutFoxes(cfg: Config, active: map<nat, Fox>, queue: seq<Spare>, i: nat)
    requires FoxesOk(cfg, active, queue) && i < |queue|
    ensures FoxesOk(cfg, active, Without(queue, i))
    ensures forall p <- Without(queue, i) :: p.id != queue[i].id
  {
    forall p <- Without(queue, i) ensures SpareOk(cfg, active, p) && p.id != queue[i].id {
      var j :| 0 <= j < |queue| - 1 && Without(queue, i)[j] == p;
      assert p == queue[if j < i then j else j + 1];
    }
  }

  lemma ParkedWithout(queue: seq<Spare>, entries: seq<Entry>, i: nat)
    requires i < |queue|
    ensures ParkedSeats(queue, entries) == ParkedSeats(Without(queue, i), entries) + One(queue[i].seat)
  {
    TallyWithout(queue, i, SeatOfSpare);
  }

  lemma UnparkSeats(cfg: Config, s: State, i: nat)
    requires Seated(cfg, s) && i < |s.queue|
    ensures Seated(cfg, Unpark(s, i))
  {
    var u, t := s.(queue := Without(s.queue, i)), Unpark(s, i);
    ParkedWithout(s.queue, s.entries, i);
    GiveBackSeats(cfg.keeper, Tight(s), u, s.queue[i].seat, ParkedSeats(u.queue, u.entries));
    GiveBackFrame(u, s.queue[i].seat);
  }

  /** Giving a seat back changes the keeper's and the host's books, and no others. */
  lemma GiveBackFrame(s: State, seat: Option<nat>)
    ensures GiveBack(s, seat) == s.(kept := GiveBack(s, seat).kept, live := GiveBack(s, seat).live)
  {
  }

  lemma UnparkKeeps(cfg: Config, s: State, i: nat)
    requires Core(cfg, s) && i < |s.queue|
    ensures Core(cfg, Unpark(s, i)) && Trims(s, Unpark(s, i)) && |Unpark(s, i).queue| < |s.queue|
    ensures s.queue[i].id in Unpark(s, i).active
    ensures forall p <- Unpark(s, i).queue :: p.id != s.queue[i].id
  {
    UnparkSeats(cfg, s, i);
    WithoutFoxes(cfg, s.active, s.queue, i);
    assert SpareOk(cfg, s.active, s.queue[i]);
  }

  lemma CloseFoxKeeps(cfg: Config, s: State, id: nat)
    requires Core(cfg, s) && id in s.active && !s.active[id].phase.Waiting? && forall p <- s.queue :: p.id != id
    ensures Core(cfg, CloseFox(s, id))
  {
    DropHolder(s.active, id);
  }

  lemma CloseSpareKeeps(cfg: Config, s: State, i: nat)
    requires Core(cfg, s) && i < |s.queue|
    ensures Core(cfg, CloseSpare(s, i)) && Trims(s, CloseSpare(s, i)) && |CloseSpare(s, i).queue| < |s.queue|
    ensures CloseSpare(s, i).free == s.free + 1
  {
    assert SpareOk(cfg, s.active, s.queue[i]);
    UnparkKeeps(cfg, s, i);
    var t, id := Unpark(s, i), s.queue[i].id;
    CloseFoxKeeps(cfg, t, id);
    CloseFoxTrims(t, id);
    assert CloseSpare(s, i) == CloseFox(t, id);
    TrimsChain(s, t, CloseFox(t, id));
    assert t.free == s.free;
  }

  lemma CloseFoxTrims(s: State, id: nat)
    requires id in s.active ==> s.active[id].phase.Up?
    ensures Trims(s, CloseFox(s, id))
  {
  }

  lemma TrimsChain(s: State, t: State, u: State)
    requires Trims(s, t) && Trims(t, u)
    ensures Trims(s, u)
  {
  }

  lemma {:induction false} ReclaimedKeeps(cfg: Config, s: State)
    requires Core(cfg, s)
    ensures var t := Reclaimed(s);
      Core(cfg, t) && Trims(s, t) && (Locked(t) && !t.poolStopped ==> t.queue == [])
    decreases |s.queue|
  {
    if Locked(s) && !s.poolStopped && s.queue != [] {
      CloseSpareKeeps(cfg, s, 0);
      ReclaimedKeeps(cfg, CloseSpare(s, 0));
    }
  }

  lemma LookKeeps(cfg: Config, s: State, i: nat, taken: Option<nat>, proxy: Option<Proxy>, domain: Option<nat>, now: int)
    requires Core(cfg, s) && i < |s.queue|
    ensures var t := Look(cfg, s, i, taken, proxy, domain, now).0;
      Core(cfg, t) && Trims(s, t)
  {
    if Stale(cfg, s.queue[i], now) {
      CloseSpareKeeps(cfg, s, i);
      assert Look(cfg, s, i, taken, proxy, domain, now).0 == CloseSpare(s, i);
    } else if Look(cfg, s, i, taken, proxy, domain, now).0 != s {
      UnparkKeeps(cfg, s, i);
      assert Look(cfg, s, i, taken, proxy, domain, now).0 == Unpark(s, i);
    }
  }

  lemma {:induction false} PickKeeps(cfg: Config, s: State, i: nat, taken: Option<nat>, proxy: Option<Proxy>, domain: Option<nat>, now: int)
    requires Core(cfg, s) && i <= |s.queue|
    ensures var t := Pick(cfg, s, i, taken, proxy, domain, now).0;
      Core(cfg, t) && Trims(s, t)
    decreases |s.queue| - i
  {
    if i < |s.queue| {
      LookKeeps(cfg, s, i, taken, proxy, domain, now);
      var (t, j, got) := Look(cfg, s, i, taken, proxy, domain, now);
      PickKeeps(cfg, t, j, got, proxy, domain, now);
      TrimsChain(s, t, Pick(cfg, t, j, got, proxy, domain, now).0);
      assert Pick(cfg, s, i, taken, proxy, domain, now) == Pick(cfg, t, j, got, proxy, domain, now);
    }
  }

  lemma {:induction false} EmptiedKeeps(cfg: Config, s: State)
    requires Core(cfg, s)
    ensures var t := Emptied(s);
      Core(cfg, t) && Trims(s, t) && t.queue == []
    decreases |s.queue|
  {
    if s.queue != [] {
      CloseSpareKeeps(cfg, s, 0);
      EmptiedKeeps(cfg, CloseSpare(s, 0));
    }
  }

  /** The line stands as it was when only parked browsers are closed. */
  lemma TrimsLine(s: State, t: State)
    requires LineOk(s.waiting, s.active, s.entries, s.fetching) && Trims(s, t)
    ensures LineOk(t.waiting, t.active, t.entries, t.fetching)
  {
  }

  // ----- permits -----

  /** The line with `who` about to join it: a launch already listed as waiting,
      or a fetch at work without a permit. */
  ghost predicate Joins(s: State, who: Launch) {
    && who !in s.waiting
    && (match who
        case OfFox(id) => id in s.active && s.active[id].phase.Waiting? && forall p <- s.queue :: p.id != id
        case OfEntry(id) => id !in s.fetching && Busy(s.entries, id))
  }

  /** The line is in order but for `who`, who is not in it yet. */
  ghost predicate LineBut(s: State, who: Launch) {
    && Joins(s, who)
    && (forall i, j :: 0 <= i < j < |s.waiting| ==> s.waiting[i] != s.waiting[j])
    && (forall id: nat :: InLine(s.waiting, OfFox(id)) <==> id in s.active && s.active[id].phase.Waiting? && who != OfFox(id))
    && (forall id: nat :: InLine(s.waiting, OfEntry(id)) ==> id !in s.fetching && Busy(s.entries, id))
    && (forall id <- s.fetching :: Busy(s.entries, id))
  }

  ghost predicate Lined(s: State) {
    LineOk(s.waiting, s.active, s.entries, s.fetching)
  }

  lemma GrantCore(cfg: Config, s: State, who: Launch)
    requires Core(cfg, s) && Joins(s, who) && s.free > 0
    ensures Core(cfg, Grant(s.(free := s.free - 1), who))
  {
    GrantFrame(s, who);
    match who
    case OfFox(id) => GrantFox(cfg, s, id);
    case OfEntry(id) =>
      assert |s.fetching + {id}| == |s.fetching| + 1;
  }

  lemma GrantFox(cfg: Config, s: State, id: nat)
    requires FoxesOk(cfg, s.active, s.queue) && id in s.active && s.active[id].phase.Waiting?
    ensures var active := s.active[id := s.active[id].(phase := Launching)];
      |Holders(active)| == |Holders(s.active)| + 1 && FoxesOk(cfg, active, s.queue)
  {
    var active := s.active[id := s.active[id].(phase := Launching)];
    assert Holders(active) == Holders(s.active) + {id};
    forall p <- s.queue ensures SpareOk(cfg, active, p) { assert SpareOk(cfg, s.active, p); }
  }

  lemma GrantLine(s: State, who: Launch)
    requires LineBut(s, who) && s.free > 0
    ensures Lined(Grant(s.(free := s.free - 1), who))
  {
  }

  lemma JoinLine(s: State, who: Launch)
    requires LineBut(s, who)
    ensures Lined(s.(waiting := s.waiting + [who]))
  {
    var line := s.waiting + [who];
    forall x: Launch ensures InLine(line, x) <==> InLine(s.waiting, x) || x == who {
      if InLine(s.waiting, x) {
        var i :| 0 <= i < |s.waiting| && s.waiting[i] == x;
        assert line[i] == x;
      }
      if x == who { assert line[|s.waiting|] == x; }
    }
  }

  lemma TrimsBut(s: State, t: State, who: Launch)
    requires LineBut(s, who) && Trims(s, t)
    requires forall p <- t.queue :: who != OfFox(p.id)
    ensures LineBut(t, who)
  {
  }

  lemma NotParked(cfg: Config, s: State, who: Launch)
    requires Core(cfg, s) && (who.OfFox? ==> who.id in s.active && s.active[who.id].phase.Waiting?)
    ensures forall p <- s.queue :: who != OfFox(p.id)
  {
    forall p <- s.queue ensures who != OfFox(p.id) { assert SpareOk(cfg, s.active, p); }
  }

  lemma WaitKeeps(cfg: Config, s: State, who: Launch)
    requires Core(cfg, s) && LineBut(s, who) && (s.poolStopped || s.queue == []) && Locked(s)
    ensures Inv(cfg, TakeOrWait(s, who))
  {
    JoinLine(s, who);
    assert TakeOrWait(s, who) == s.(waiting := s.waiting + [who]);
  }

  lemma GrantKeeps(cfg: Config, s: State, who: Launch)
    requires Core(cfg, s) && LineBut(s, who) && NoneIdle(s) && s.free > 0
    ensures Inv(cfg, Grant(s.(free := s.free - 1), who))
  {
    GrantCore(cfg, s, who);
    GrantLine(s, who);
    GrantFrame(s, who);
  }

  lemma TakeKeeps(cfg: Config, s: State, who: Launch)
    requires Core(cfg, s) && LineBut(s, who) && NoneIdle(s) && !Locked(s)
    ensures Inv(cfg, TakeOrWait(s, who))
  {
    assert TakeOrWait(s, who) == Grant(s.(free := s.free - 1), who);
    GrantKeeps(cfg, s, who);
  }

  lemma AskKeeps(cfg: Config, s: State, who: Launch)
    requires Core(cfg, s) && LineBut(s, who) && NoneIdle(s)
    ensures Inv(cfg, AskPermit(s, who))
  {
    var t := Reclaimed(s);
    ReclaimedKeeps(cfg, s);
    NotParked(cfg, t, who);
    TrimsBut(s, t, who);
    assert AskPermit(s, who) == TakeOrWait(t, who);
    if Locked(t) {
      WaitKeeps(cfg, t, who);
    } else {
      TakeKeeps(cfg, t, who);
    }
  }

  lemma GrantFrame(s: State, who: Launch)
    requires s.free > 0
    ensures var t := Grant(s.(free := s.free - 1), who);
      t == s.(free := s.free - 1, active := t.active, fetching := t.fetching)
  {
  }

  lemma AcquireKeeps(cfg: Config, s: State, proxy: Option<Proxy>, domain: Option<nat>, now: int, id: nat)
    requires Inv(cfg, s) && id !in s.active
    ensures Inv(cfg, Acquire(cfg, s, proxy, domain, now, id))
  {
    PickKeeps(cfg, s, 0, None, proxy, domain, now);
    var (t, taken) := Pick(cfg, s, 0, None, proxy, domain, now);
    TrimsLine(s, t);
    if taken.None? {
      var u := t.(active := t.active[id := Fox(proxy, None, Waiting, true)]);
      assert Acquire(cfg, s, proxy, domain, now, id) == AskPermit(u, OfFox(id));
      NewAsks(cfg, t, id, proxy);
    } else {
      assert Acquire(cfg, s, proxy, domain, now, id) == t;
    }
  }

  lemma NewAsks(cfg: Config, s: State, id: nat, proxy: Option<Proxy>)
    requires Core(cfg, s) && Lined(s) && NoneIdle(s) && id !in s.active
    ensures Inv(cfg, AskPermit(s.(active := s.active[id := Fox(proxy, None, Waiting, true)]), OfFox(id)))
  {
    NewWaiter(cfg, s, id, proxy);
    AskKeeps(cfg, s.(active := s.active[id := Fox(proxy, None, Waiting, true)]), OfFox(id));
  }

  lemma NewWaiter(cfg: Config, s: State, id: nat, proxy: Option<Proxy>)
    requires Core(cfg, s) && Lined(s) && id !in s.active
    ensures var u := s.(active := s.active[id := Fox(proxy, None, Waiting, true)]);
      Core(cfg, u) && LineBut(u, OfFox(id))
  {
    var u := s.(active := s.active[id := Fox(proxy, None, Waiting, true)]);
    assert Holders(u.active) == Holders(s.active);
    forall p <- s.queue ensures SpareOk(cfg, u.active, p) && p.id != id { assert SpareOk(cfg, s.active, p); }
    assert !InLine(s.waiting, OfFox(id));
  }

  lemma WakeKeeps(cfg: Config, s: State)
    requires Inv(cfg, s)
    ensures Inv(cfg, Wake(s))
  {
    if s.free > 0 && s.waiting != [] { HeadTakes(cfg, s); }
  }

  lemma HeadTakes(cfg: Config, s: State)
    requires Inv(cfg, s) && s.free > 0 && s.waiting != []
    ensures Inv(cfg, Wake(s))
  {
    var t := HeadReady(cfg, s);
    WakeGrants(s, t);
    PoppedTakes(cfg, t, s.waiting[0], Wake(s));
  }

  lemma WakeGrants(s: State, t: State)
    requires s.free > 0 && s.waiting != [] && t == s.(waiting := s.waiting[1..])
    ensures Wake(s) == Grant(t.(free := t.free - 1), s.waiting[0])
  {
  }

  lemma PoppedTakes(cfg: Config, s: State, who: Launch, t: State)
    requires Core(cfg, s) && LineBut(s, who) && NoneIdle(s) && s.free > 0 && t == Grant(s.(free := s.free - 1), who)
    ensures Inv(cfg, t)
  {
    GrantKeeps(cfg, s, who);
  }

  lemma HeadReady(cfg: Config, s: State) returns (t: State)
    requires Inv(cfg, s) && s.waiting != []
    ensures t == s.(waiting := s.waiting[1..]) && Core(cfg, t) && LineBut(t, s.waiting[0]) && NoneIdle(t)
  {
    t := s.(waiting := s.waiting[1..]);
    assert InLine(s.waiting, s.waiting[0]);
    NotParked(cfg, s, s.waiting[0]);
    HeadLeaves(s);
  }

  lemma HeadLeaves(s: State)
    requires Lined(s) && s.waiting != [] && forall p <- s.queue :: s.waiting[0] != OfFox(p.id)
    ensures LineBut(s.(waiting := s.waiting[1..]), s.waiting[0])
  {
    var who, rest := s.waiting[0], s.waiting[1..];
    forall x: Launch ensures InLine(rest, x) <==> InLine(s.waiting, x) && x != who {
      if InLine(s.waiting, x) && x != who {
        var i :| 0 <= i < |s.waiting| && s.waiting[i] == x;
        assert rest[i - 1] == x;
      }
      if InLine(rest, x) {
        var i :| 0 <= i < |rest| && rest[i] == x;
        assert s.waiting[i + 1] == x;
      }
    }
    assert InLine(s.waiting, who);
  }

  lemma {:induction false} LeaveLine(line: seq<Launch>, who: Launch)
    requires forall i, j :: 0 <= i < j < |line| ==> line[i] != line[j]
    ensures var rest := Leave(line, who);
      && (forall i, j :: 0 <= i < j < |rest| ==> rest[i] != rest[j])
      && (forall x: Launch :: InLine(rest, x) <==> InLine(line, x) && x != who)
      && (line == [] ==> rest == [])
    decreases |line|
  {
    if line != [] {
      LeaveLine(line[1..], who);
      var rest := Leave(line[1..], who);
      assert forall x: Launch :: InLine(line, x) <==> x == line[0] || InLine(line[1..], x);
      if line[0] != who {
        var all := [line[0]] + rest;
        assert forall x: Launch :: InLine(all, x) <==> x == line[0] || InLine(rest, x);
        assert !InLine(line[1..], line[0]);
        assert !InLine(rest, line[0]);
      } else {
        assert [] + rest == rest;
        assert !InLine(line[1..], who);
      }
    }
  }
}
