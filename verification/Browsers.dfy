/** What one worker process owns: browser permits, live Camoufox instances and
    the parked ones among them, pooled Botasaurus drivers, and the host seats
    that pass from a render to the browser it leaves parked. Each pool operation
    is one step, as a value; `BrowserPools` runs them as loops over mutable
    state and is proved against these functions. */
module Browsers {
  import opened Basics
  import opened Tallies

  datatype Proxy = Proxy(key: nat, reusable: bool)

  /** A launch blocked for a permit, about to come up, or live. */
  datatype Phase = Waiting | Launching | Up

  /** One CamoufoxWrapper from its launch to its exit; `listed` while the pool's
      list still has it. A pool that stops forgets the launches under way, which
      go on all the same. */
  datatype Fox = Fox(proxy: Option<Proxy>, lastDomain: Option<nat>, phase: Phase, listed: bool)

  /** One item of the parked queue; `seat` is the host seat it keeps. */
  datatype Spare = Spare(id: nat, since: int, seat: Option<nat>)

  /** A driver remembers what it was launched for. */
  datatype Driver = Driver(id: nat, key: nat, domain: nat)

  /** What the fetch at work asked for. */
  datatype Want = Want(key: nat, domain: nat)

  /** One _PooledDriver; busy while a fetch is at work on it, and `listed` while
      the pool's list still has it: a fetch keeps its entry after the pool stops. */
  datatype Entry = Entry(id: nat, key: nat, domain: nat, user: Option<Want>, lastUsed: int, driver: Option<Driver>, seat: Option<nat>, listed: bool) {
    predicate Busy() { user.Some? }
  }

  /** Who waits in line for a permit. */
  datatype Launch = OfFox(id: nat) | OfEntry(id: nat)

  /** A render's host claim; `retained` once a parked browser took its seat. */
  datatype Claim = Claim(lease: nat, retained: bool)

  datatype Kept = Kept(idleSince: int, lastRenew: int)

  datatype Config = Config(
    ceiling: nat, parkSpares: bool, parkDrivers: bool, keeper: bool, maxIdle: int, maxDrivers: nat,
    renewEvery: int, idleGrace: int, idleSeat: int)

  /** `live` are the process's seats the host still counts; `started` and
      `closed` record every driver launched and every driver closed. A stopped
      Camoufox pool no longer reclaims permits; nothing else refuses to work
      after its stop. */
  datatype State = State(
    free: nat, waiting: seq<Launch>,
    active: map<nat, Fox>, queue: seq<Spare>,
    entries: seq<Entry>, fetching: set<nat>, started: set<nat>, closed: multiset<nat>,
    claims: map<nat, Claim>, kept: map<nat, Kept>, live: set<nat>,
    poolStopped: bool, driversStopped: bool, keeperStopped: bool)

  function SeatOfSpare(p: Spare): Option<nat> { p.seat }
  function SeatOfEntry(e: Entry): Option<nat> { e.seat }
  function DriverOf(e: Entry): Option<nat> { if e.driver.Some? then Some(e.driver.value.id) else None }

  /** len(self._entries): how many entries the pool lists. */
  function OnList(entries: seq<Entry>): nat {
    if entries == [] then 0 else OnList(entries[..|entries| - 1]) + if entries[|entries| - 1].listed then 1 else 0
  }

  // ----- seats -----

  /** SeatKeeper.discard: a closed browser's seat goes back to the host. */
  function GiveBack(s: State, seat: Option<nat>): State {
    if seat.Some? && seat.value in s.kept then s.(kept := s.kept - {seat.value}, live := s.live - {seat.value}) else s
  }

  /** Whether SeatKeeper.retain has a seat to take over from render `r`. */
  predicate Retainable(s: State, r: nat) {
    r in s.claims && !s.claims[r].retained
  }

  function Retain(s: State, r: nat, now: int): State
    requires Retainable(s, r)
  {
    s.(claims := s.claims[r := s.claims[r].(retained := true)], kept := s.kept[s.claims[r].lease := Kept(now, now)])
  }

  function BeginClaim(s: State, r: nat, lease: nat): State {
    s.(claims := s.claims[r := Claim(lease, false)], live := s.live + {lease})
  }

  /** The claim block ends: the seat goes back unless a parked browser has it. */
  function EndClaim(s: State, r: nat): State {
    if r !in s.claims then s else
    s.(claims := s.claims - {r}, live := if s.claims[r].retained then s.live else s.live - {s.claims[r].lease})
  }

  // ----- permits -----

  predicate Locked(s: State) {
    s.free == 0 || s.waiting != []
  }

  /** CamoufoxWrapper.__aexit__ of one instance. */
  function CloseFox(s: State, id: nat): State {
    if id in s.active then s.(active := s.active - {id}, free := s.free + 1) else s
  }

  /** Spare `i` leaves the queue and its seat goes back. */
  function Unpark(s: State, i: nat): State
    requires i < |s.queue|
  {
    GiveBack(s.(queue := Without(s.queue, i)), s.queue[i].seat)
  }

  function CloseSpare(s: State, i: nat): State
    requires i < |s.queue|
  {
    CloseFox(Unpark(s, i), s.queue[i].id)
  }

  /** The reclaim loop: close spares, oldest first, until a permit is free, as
      long as the pool is registered for it. */
  function Reclaimed(s: State): State
    decreases |s.queue|
  {
    if Locked(s) && !s.poolStopped && s.queue != [] then Reclaimed(CloseSpare(s, 0)) else s
  }

  function Grant(s: State, who: Launch): State {
    match who
    case OfFox(id) => if id in s.active then s.(active := s.active[id := s.active[id].(phase := Launching)]) else s
    case OfEntry(id) => s.(fetching := s.fetching + {id})
  }

  function TakeOrWait(s: State, who: Launch): State {
    if Locked(s) then s.(waiting := s.waiting + [who]) else Grant(s.(free := s.free - 1), who)
  }

  /** acquire_browser_permit. */
  function AskPermit(s: State, who: Launch): State {
    TakeOrWait(Reclaimed(s), who)
  }

  /** A released permit reaches the head of the line. */
  function Wake(s: State): State {
    if s.free == 0 || s.waiting == [] then s
    else Grant(s.(free := s.free - 1, waiting := s.waiting[1..]), s.waiting[0])
  }

  function Leave(line: seq<Launch>, who: Launch): seq<Launch> {
    if line == [] then [] else (if line[0] == who then [] else [line[0]]) + Leave(line[1..], who)
  }

  // ----- the Camoufox pool -----

  predicate Stale(cfg: Config, p: Spare, now: int) {
    now - p.since > cfg.maxIdle
  }

  predicate Suits(f: Fox, proxy: Option<Proxy>, domain: Option<nat>) {
    && (proxy.Some? ==> f.proxy == proxy)
    && (domain.Some? && f.lastDomain.Some? ==> f.lastDomain == domain)
  }

  /** acquire's look at the parked spare in place `i`: a stale one is closed, the
      first that suits is taken, any other stays. */
  function Look(cfg: Config, s: State, i: nat, taken: Option<nat>, proxy: Option<Proxy>, domain: Option<nat>, now: int): (r: (State, nat, Option<nat>))
    requires i < |s.queue|
    ensures r.1 <= |r.0.queue| && |r.0.queue| - r.1 < |s.queue| - i
  {
    if Stale(cfg, s.queue[i], now) then (CloseSpare(s, i), i, taken)
    else if taken.None? && s.queue[i].id in s.active && Suits(s.active[s.queue[i].id], proxy, domain) then
      (Unpark(s, i), i, Some(s.queue[i].id))
    else (s, i + 1, taken)
  }

  /** acquire's pass over the parked queue from place `i` on. */
  function Pick(cfg: Config, s: State, i: nat, taken: Option<nat>, proxy: Option<Proxy>, domain: Option<nat>, now: int): (State, Option<nat>)
    requires i <= |s.queue|
    decreases |s.queue| - i
  {
    if i == |s.queue| then (s, taken) else
    var (t, j, got) := Look(cfg, s, i, taken, proxy, domain, now);
    Pick(cfg, t, j, got, proxy, domain, now)
  }

  /** BrowserPool.acquire: a parked instance, or a launch under the name `id`. */
  function Acquire(cfg: Config, s: State, proxy: Option<Proxy>, domain: Option<nat>, now: int, id: nat): State {
    var (s, taken) := Pick(cfg, s, 0, None, proxy, domain, now);
    if taken.Some? then s
    else AskPermit(s.(active := s.active[id := Fox(proxy, None, Waiting, true)]), OfFox(id))
  }

  function Launched(s: State, id: nat): State {
    if id in s.active then s.(active := s.active[id := s.active[id].(phase := Up)]) else s
  }

  /** A launch cancelled while it waited holds no permit; one that failed
      afterwards gives its permit back. */
  function LaunchFails(s: State, id: nat): State {
    if id !in s.active then s
    else if s.active[id].phase.Waiting? then s.(active := s.active - {id}, waiting := Leave(s.waiting, OfFox(id)))
    else CloseFox(s, id)
  }

  predicate SingleUse(f: Fox) {
    f.proxy.Some? && !f.proxy.value.reusable
  }

  /** BrowserPool.release by render `r`; of an instance the list has lost, it is
      no release at all. */
  function Release(cfg: Config, s: State, r: nat, id: nat, healthy: bool, domain: Option<nat>, now: int): State {
    if id !in s.active || !s.active[id].listed then s
    else if !healthy then CloseFox(s, id)
    else
      var f := s.active[id].(lastDomain := domain);
      var s := s.(active := s.active[id := f]);
      if (s.waiting != [] && Locked(s)) || !cfg.parkSpares || SingleUse(f) || (cfg.keeper && !Retainable(s, r)) then CloseFox(s, id)
      else Park(cfg, s, r, id, now)
  }

  /** Instance `id` joins the queue, with render `r`'s seat under a keeper. */
  function Park(cfg: Config, s: State, r: nat, id: nat, now: int): State
    requires cfg.keeper ==> Retainable(s, r)
  {
    if cfg.keeper then Retain(s, r, now).(queue := s.queue + [Spare(id, now, Some(s.claims[r].lease))])
    else s.(queue := s.queue + [Spare(id, now, None)])
  }

  /** The first spare keeping `seat`. */
  function FindSpare(queue: seq<Spare>, seat: nat): (i: nat)
    ensures i <= |queue|
    ensures i < |queue| ==> queue[i].seat == Some(seat)
    ensures forall k :: 0 <= k < i ==> queue[k].seat != Some(seat)
  {
    if queue == [] || queue[0].seat == Some(seat) then 0 else 1 + FindSpare(queue[1..], seat)
  }

  /** BrowserPool._close_parked: the spare keeping `seat`, or the oldest. */
  function CloseParked(s: State, seat: Option<nat>): (State, bool) {
    var i := if seat.Some? then FindSpare(s.queue, seat.value) else 0;
    if i < |s.queue| then (CloseSpare(s, i), true) else (s, false)
  }

  function Emptied(s: State): State
    decreases |s.queue|
  {
    if s.queue == [] then s else Emptied(CloseSpare(s, 0))
  }

  function Listed(active: map<nat, Fox>): set<nat> {
    set id | id in active && active[id].listed
  }

  /** What goes on after the pool's list is cleared: the launches under way. */
  function Unlisted(active: map<nat, Fox>): map<nat, Fox> {
    map id | id in active && !(active[id].listed && active[id].phase.Up?) :: active[id].(listed := false)
  }

  /** BrowserPool.shutdown: no more reclaiming; every spare, then every instance
      still listed, exits, whether or not it ever got its permit. */
  function ShutdownPool(s: State): State {
    Cleared(Emptied(s.(poolStopped := true)))
  }

  function Cleared(s: State): State {
    s.(active := Unlisted(s.active), free := s.free + |Listed(s.active)|)
  }

  // ----- the Botasaurus pool -----

  /** _close_entry of an entry already off the list (or about to be). */
  function CloseEntry(s: State, e: Entry): State {
    GiveBack(s, e.seat).(closed := s.closed + One(DriverOf(e)))
  }

  /** Entry `i` leaves the list, closed. */
  function Dropped(s: State, i: nat): State
    requires i < |s.entries|
  {
    CloseEntry(s.(entries := Without(s.entries, i)), s.entries[i])
  }

  function FirstIdle(entries: seq<Entry>, key: nat, domain: nat): (i: nat)
    ensures i <= |entries|
    ensures i < |entries| ==> Closable(entries[i], None) && entries[i].key == key && entries[i].domain == domain
    ensures forall k :: 0 <= k < i ==> !Closable(entries[k], None) || entries[k].key != key || entries[k].domain != domain
  {
    if entries == [] || (Closable(entries[0], None) && entries[0].key == key && entries[0].domain == domain) then 0
    else 1 + FirstIdle(entries[1..], key, domain)
  }

  /** Whether entry `e` is listed, idle and keeps `seat`, if one is asked for. */
  predicate Closable(e: Entry, seat: Option<nat>) {
    e.listed && !e.Busy() && (seat.Some? ==> e.seat == seat)
  }

  /** The longest idle closable entry, the first among equals; |entries| if none. */
  function Oldest(entries: seq<Entry>, seat: Option<nat>): (i: nat)
    ensures i <= |entries|
    ensures i < |entries| ==> Closable(entries[i], seat)
    ensures i == |entries| ==> forall e <- entries :: !Closable(e, seat)
    ensures forall k :: 0 <= k < |entries| && Closable(entries[k], seat) ==>
      i < |entries| && entries[i].lastUsed <= entries[k].lastUsed && (entries[i].lastUsed == entries[k].lastUsed ==> i <= k)
  {
    if entries == [] then 0
    else
      var last := |entries| - 1;
      var i := Oldest(entries[..last], seat);
      if i < last && (!Closable(entries[last], seat) || entries[i].lastUsed <= entries[last].lastUsed) then i
      else if Closable(entries[last], seat) then last
      else |entries|
  }

  /** _checkout: an idle match, else room under the cap, else the oldest idle
      entry's room, else the fetch waits. `id` names a new entry. */
  function Checkout(cfg: Config, s: State, want: Want, id: nat): State {
    var i := FirstIdle(s.entries, want.key, want.domain);
    var added := Entry(id, want.key, want.domain, Some(want), 0, None, None, true);
    if i < |s.entries| then
      var e := s.entries[i];
      GiveBack(s.(entries := s.entries[i := e.(user := Some(want), seat := None)]), e.seat)
    else if OnList(s.entries) < cfg.maxDrivers then s.(entries := s.entries + [added])
    else
      var i := Oldest(s.entries, None);
      if i < |s.entries| then CloseEntry(s.(entries := Without(s.entries, i) + [added]), s.entries[i])
      else s
  }

  function Place(entries: seq<Entry>, id: nat): (i: nat)
    ensures i <= |entries|
    ensures i < |entries| ==> entries[i].id == id
    ensures forall k :: 0 <= k < i ==> entries[k].id != id
  {
    if entries == [] || entries[0].id == id then 0 else 1 + Place(entries[1..], id)
  }

  /** The fetch launches entry `id`'s driver, if it has none yet. */
  function LaunchDriver(s: State, id: nat, driver: nat): State {
    var i := Place(s.entries, id);
    if i < |s.entries| && s.entries[i].driver.None? then
      var e := s.entries[i];
      s.(entries := s.entries[i := e.(driver := Some(Driver(driver, e.key, e.domain)))], started := s.started + {driver})
    else s
  }

  /** _discard of entry `id`. */
  function Discard(s: State, id: nat): State {
    var i := Place(s.entries, id);
    if i < |s.entries| then Dropped(s, i) else s
  }

  function FreePermit(s: State, id: nat): State {
    if id in s.fetching then s.(fetching := s.fetching - {id}, free := s.free + 1) else s
  }

  /** A fetch that raised, at any await: permit back if held, driver closed. */
  function FetchFails(s: State, id: nat): State {
    Discard(FreePermit(s.(waiting := Leave(s.waiting, OfEntry(id))), id), id)
  }

  /** A fetch that got its page: parked with render `r`'s seat, or closed.
      `blank`: the driver, if it still has one, reached about:blank. */
  function FetchDone(cfg: Config, s: State, r: nat, id: nat, reusable: bool, blank: bool, now: int): State {
    var i := Place(s.entries, id);
    if i == |s.entries| then FreePermit(s, id)
    else if !(cfg.parkDrivers && reusable && blank && s.entries[i].driver.Some?) || (cfg.keeper && !Retainable(s, r)) then Discard(FreePermit(s, id), id)
    else Checkin(cfg, FreePermit(s, id), i, r, now)
  }

  /** Entry `i` goes idle, with render `r`'s seat under a keeper. */
  function Checkin(cfg: Config, s: State, i: nat, r: nat, now: int): State
    requires i < |s.entries| && (cfg.keeper ==> Retainable(s, r))
  {
    var e := s.entries[i].(user := None, lastUsed := now);
    if cfg.keeper then Retain(s, r, now).(entries := s.entries[i := e.(seat := Some(s.claims[r].lease))])
    else s.(entries := s.entries[i := e])
  }

  /** BotasaurusPool._close_parked. */
  function CloseIdle(s: State, seat: Option<nat>): (State, bool) {
    var i := Oldest(s.entries, seat);
    if i < |s.entries| then (Dropped(s, i), true) else (s, false)
  }

  /** One entry closed by a shutdown: an idle one is gone, a busy one stays with
      its fetch, off the list and without its driver. */
  function StopEntry(s: State, i: nat): State
    requires i < |s.entries|
  {
    var e := s.entries[i];
    if !e.listed then s
    else if e.Busy() then CloseEntry(s.(entries := s.entries[i := e.(listed := false, driver := None, seat := None)]), e)
    else Dropped(s, i)
  }

  function StopFrom(s: State, i: nat): State
    requires i <= |s.entries|
    decreases |s.entries| - i
  {
    if i == |s.entries| then s
    else StopFrom(StopEntry(s, i), if s.entries[i].listed && !s.entries[i].Busy() then i else i + 1)
  }

  /** BotasaurusPool.shutdown. */
  function ShutdownDrivers(s: State): State {
    StopFrom(s.(driversStopped := true), 0)
  }

  // ----- the seat keeper -----

  /** SeatKeeper._reclaim: whichever pool has the browser closes it. */
  function Reclaim(s: State, seat: Option<nat>): (State, bool) {
    var (s1, done) := CloseParked(s, seat);
    if done then (s1, true) else CloseIdle(s, seat)
  }

  /** One kept seat's turn in a tick: renewed when due, or, when the host has
      already given it away, dropped and its browser closed. */
  function RenewOne(cfg: Config, s: State, lease: nat, now: int): State {
    if lease !in s.kept || now - s.kept[lease].lastRenew < cfg.renewEvery then s
    else if lease in s.live then s.(kept := s.kept[lease := s.kept[lease].(lastRenew := now)])
    else Reclaim(s.(kept := s.kept - {lease}), Some(lease)).0
  }

  function RenewAll(cfg: Config, s: State, order: seq<nat>, now: int): State
    decreases |order|
  {
    if order == [] then s else RenewAll(cfg, RenewOne(cfg, s, order[0], now), order[1..], now)
  }

  predicate Overheld(cfg: Config, s: State, lease: nat, now: int) {
    lease in s.kept && now - s.kept[lease].idleSince >= cfg.idleSeat
  }

  function OverheldIn(cfg: Config, s: State, order: seq<nat>, now: int): seq<nat> {
    if order == [] then []
    else (if Overheld(cfg, s, order[0], now) then [order[0]] else []) + OverheldIn(cfg, s, order[1..], now)
  }

  function ReclaimAll(s: State, leases: seq<nat>): State
    decreases |leases|
  {
    if leases == [] then s else ReclaimAll(Reclaim(s, Some(leases[0])).0, leases[1..])
  }

  function Yield(s: State, n: nat): State
    decreases n
  {
    if n > 0 && Reclaim(s, None).1 then Yield(Reclaim(s, None).0, n - 1) else s
  }

  function IdleSeats(cfg: Config, kept: map<nat, Kept>, now: int): nat {
    |set lease | lease in kept && now - kept[lease].idleSince >= cfg.idleGrace|
  }

  /** The rest of a tick: overheld seats go back, or, with none, the host's line
      gets the idle ones it asks for. */
  function HandBack(cfg: Config, s: State, overheld: seq<nat>, now: int, waiters: nat): State {
    var s := ReclaimAll(s, overheld);
    if overheld == [] && s.kept != map[] then Yield(s, Min(IdleSeats(cfg, s.kept, now), waiters)) else s
  }

  /** SeatKeeper.tick, its seats visited in `order`; `waiters` is what the host
      says of its line. */
  function Tick(cfg: Config, s: State, order: seq<nat>, now: int, waiters: nat): State {
    var s := RenewAll(cfg, s, order, now);
    HandBack(cfg, s, OverheldIn(cfg, s, order, now), now, waiters)
  }

  /** SeatKeeper.shutdown. */
  function ShutdownKeeper(s: State): State {
    s.(kept := map[], live := s.live - s.kept.Keys, keeperStopped := true)
  }

  // ----- runs -----

  datatype Event =
    | ClaimBegins(render: nat, lease: nat)
    | ClaimEnds(render: nat)
    | Lapses(lease: nat)
    | Acquires(proxy: Option<Proxy>, domain: Option<nat>, now: int, id: nat)
    | Wakes
    | Comes(id: nat)
    | Fails(id: nat)
    | Releases(render: nat, id: nat, healthy: bool, domain: Option<nat>, now: int)
    | ChecksOut(want: Want, id: nat)
    | Asks(id: nat)
    | Launches(id: nat, driver: nat)
    | FetchRaises(id: nat)
    | FetchEnds(render: nat, id: nat, reusable: bool, blank: bool, now: int)
    | Ticks(order: seq<nat>, now: int, waiters: nat)
    | PoolStops
    | DriversStop
    | KeeperStops

  function Step(cfg: Config, s: State, e: Event): State {
    match e
    case ClaimBegins(r, lease) => BeginClaim(s, r, lease)
    case ClaimEnds(r) => EndClaim(s, r)
    case Lapses(lease) => s.(live := s.live - {lease})
    case Acquires(proxy, domain, now, id) => Acquire(cfg, s, proxy, domain, now, id)
    case Wakes => Wake(s)
    case Comes(id) => Launched(s, id)
    case Fails(id) => LaunchFails(s, id)
    case Releases(r, id, healthy, domain, now) => Release(cfg, s, r, id, healthy, domain, now)
    case ChecksOut(want, id) => Checkout(cfg, s, want, id)
    case Asks(id) => AskPermit(s, OfEntry(id))
    case Launches(id, driver) => LaunchDriver(s, id, driver)
    case FetchRaises(id) => FetchFails(s, id)
    case FetchEnds(r, id, reusable, blank, now) => FetchDone(cfg, s, r, id, reusable, blank, now)
    case Ticks(order, now, waiters) => Tick(cfg, s, order, now, waiters)
    case PoolStops => ShutdownPool(s)
    case DriversStop => ShutdownDrivers(s)
    case KeeperStops => ShutdownKeeper(s)
  }

  predicate Parked(s: State, id: nat) {
    exists p <- s.queue :: p.id == id
  }

  predicate BusyEntry(s: State, id: nat) {
    exists e <- s.entries :: e.id == id && e.Busy()
  }

  /** The launches under way, blocked or granted, that the pool still lists. */
  function InFlight(active: map<nat, Fox>): set<nat> {
    set id | id in active && active[id].listed && !active[id].phase.Up?
  }

  /** What callers keep to: new names are new, an instance is released by the
      render it was leased to, and a fetch works on the entry it checked out. The
      pools and the keeper may stop at any time. */
  predicate Legal(cfg: Config, s: State, e: Event) {
    match e
    case ClaimBegins(r, lease) =>
      r !in s.claims && lease !in s.live && lease !in s.kept && forall q <- s.claims :: s.claims[q].lease != lease
    case Acquires(_, _, _, id) => id !in s.active
    case Comes(id) => id in s.active && s.active[id].phase.Launching?
    case Fails(id) => id in s.active && !s.active[id].phase.Up?
    case Releases(_, id, _, _, _) => id in s.active ==> s.active[id].phase.Up? && !Parked(s, id)
    case ChecksOut(_, id) => forall e <- s.entries :: e.id != id
    case Asks(id) => BusyEntry(s, id) && id !in s.fetching && OfEntry(id) !in s.waiting
    case Launches(id, driver) => id in s.fetching && driver !in s.started
    case FetchRaises(id) => BusyEntry(s, id)
    case FetchEnds(_, id, _, _, _) => id in s.fetching
    case Ticks(order, _, _) => multiset(order) == multiset(s.kept.Keys)
    case _ => true
  }
}
