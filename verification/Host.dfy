/** The shared store of one host's browser admission, as values: what each
    script reads and what it leaves behind. `HostStore` runs the scripts as
    loops over mutable state and is proved against these functions. */
module Host {
  import opened Basics
  import opened Sums

  /** A tenant's website: names both its slot key and its delay key. */
  datatype Site = Site(tenant: string, domain: string)

  /** A slot is held by a browser claim's lease or by a Level 1 worker. */
  datatype Member = Lease(id: nat) | Turn(worker: nat)

  /** What a waiter put on record about its request. */
  datatype Info = Info(site: Site, cap: int, delayMs: int, weight: real)

  /** A slot key: members scored by expiry, and the key's own deadline. */
  datatype Turns = Turns(members: map<Member, int>, deadline: int)

  /** A delay key: the next allowed instant, and the key's own deadline. */
  datatype Delay = Delay(nextAt: int, deadline: int)

  datatype Config = Config(leaseTtl: nat, waiterTtl: nat, slotTtl: nat, defaultTarget: real, share: real)

  datatype State = State(
    now: nat,
    seats: map<nat, int>,
    seatWeight: map<nat, real>,
    seatTenant: map<nat, string>,
    waiters: map<nat, int>,
    waiterExp: map<nat, int>,
    waiterInfo: map<nat, Info>,
    target: Option<real>,
    turns: map<Site, Turns>,
    delays: map<Site, Delay>)

  function Ceil(x: real): int { -((-x).Floor) }

  // ----- reading keys -----

  /** A key past its deadline reads as absent. */
  function Visible(turns: map<Site, Turns>, now: nat, k: Site): map<Member, int> {
    if k in turns && now < turns[k].deadline then turns[k].members else map[]
  }

  function Members(s: State, k: Site): map<Member, int> {
    Visible(s.turns, s.now, k)
  }

  function Live(turns: map<Site, Turns>, now: nat, k: Site): set<Member> {
    set m | m in Visible(turns, now, k) && now < Visible(turns, now, k)[m]
  }

  function LiveTurns(s: State, k: Site): set<Member> {
    Live(s.turns, s.now, k)
  }

  function NextAt(s: State, k: Site): int {
    if k in s.delays && s.now < s.delays[k].deadline then s.delays[k].nextAt else 0
  }

  function TargetOr(s: State, fallback: real): real {
    if s.target.Some? then s.target.value else fallback
  }

  function LiveSeats(s: State): set<nat> {
    set l | l in s.seats && s.now < s.seats[l]
  }

  /** What STATUS reports as in use: the weight of every unexpired seat. */
  ghost function InUse(s: State): real {
    Total(Part(s.seatWeight, LiveSeats(s)))
  }

  // ----- writing keys -----

  /** ZADD of one member, then the key's time to live extended to cover `ttl`. */
  function Put(turns: map<Site, Turns>, now: nat, k: Site, m: Member, expiry: int, ttl: nat): map<Site, Turns> {
    var before := Visible(turns, now, k);
    var deadline := if before == map[] then now + ttl else Max(turns[k].deadline, now + ttl);
    turns[k := Turns(before[m := expiry], deadline)]
  }

  /** Keep only some members; a sorted set left empty is a deleted key. */
  function Keep(turns: map<Site, Turns>, k: Site, kept: map<Member, int>): map<Site, Turns> {
    if k !in turns then turns
    else if kept == map[] then turns - {k}
    else turns[k := turns[k].(members := kept)]
  }

  function Drop(turns: map<Site, Turns>, now: nat, k: Site, m: Member): map<Site, Turns> {
    Keep(turns, k, Visible(turns, now, k) - {m})
  }

  /** The members of a slot key that have not lapsed. */
  function Unlapsed(turns: map<Site, Turns>, now: nat, k: Site): map<Member, int> {
    map m | m in Visible(turns, now, k) && now < Visible(turns, now, k)[m] :: Visible(turns, now, k)[m]
  }

  function PurgeTurns(turns: map<Site, Turns>, now: nat, k: Site): map<Site, Turns> {
    Keep(turns, k, Unlapsed(turns, now, k))
  }

  lemma PurgeKeeps(turns: map<Site, Turns>, now: nat, k: Site)
    ensures Visible(PurgeTurns(turns, now, k), now, k) == Unlapsed(turns, now, k)
    ensures forall other :: other != k ==> Visible(PurgeTurns(turns, now, k), now, other) == Visible(turns, now, other)
  {
  }

  function PutTurn(s: State, k: Site, m: Member, ttl: nat): State {
    s.(turns := Put(s.turns, s.now, k, m, s.now + ttl, ttl))
  }

  function DropTurn(s: State, k: Site, m: Member): State {
    s.(turns := Drop(s.turns, s.now, k, m))
  }

  function DropSeat(s: State, l: nat): State {
    s.(seats := s.seats - {l}, seatWeight := s.seatWeight - {l}, seatTenant := s.seatTenant - {l})
  }

  function DropWaiter(s: State, w: nat): State {
    s.(waiters := s.waiters - {w}, waiterExp := s.waiterExp - {w}, waiterInfo := s.waiterInfo - {w})
  }

  // ----- CLAIM -----

  datatype Claim = Claim(me: nat, priority: int, info: Info, lease: nat)

  datatype Reply = Reply(granted: bool, inUse: real, target: real, waiting: int)

  function Lapsed(scores: map<nat, int>, now: nat): set<nat> {
    set l | l in scores && scores[l] <= now
  }

  /** Lapsed seats and waiters are dropped before anything is counted. */
  function Purge(s: State): State {
    var dead, gone := Lapsed(s.seats, s.now), Lapsed(s.waiterExp, s.now);
    s.(seats := s.seats - dead, seatWeight := s.seatWeight - dead, seatTenant := s.seatTenant - dead,
       waiters := s.waiters - gone, waiterExp := s.waiterExp - gone, waiterInfo := s.waiterInfo - gone)
  }

  /** Join the line, or stay in it at the priority first given. */
  function Join(s: State, cfg: Config, c: Claim): State {
    s.(waiters := if c.me in s.waiters then s.waiters else s.waiters[c.me := c.priority],
       waiterExp := s.waiterExp[c.me := s.now + cfg.waiterTtl],
       waiterInfo := s.waiterInfo[c.me := c.info])
  }

  function Queue(s: State, cfg: Config, c: Claim): State {
    Join(Purge(s), cfg, c)
  }

  function Tenants(s: State): set<string> {
    set w | w in s.waiters && w in s.waiterInfo :: s.waiterInfo[w].site.tenant
  }

  function TenantOf(s: State, l: nat): string {
    if l in s.seatTenant then s.seatTenant[l] else ""
  }

  function HeldBy(s: State, tenant: string): set<nat> {
    set l | l in s.seatWeight && TenantOf(s, l) == tenant
  }

  ghost function TenantUse(s: State, tenant: string): real {
    Total(Part(s.seatWeight, HeldBy(s, tenant)))
  }

  /** What the scan is judged against, fixed for one run of CLAIM. */
  datatype Rule = Rule(target: real, shareCap: int, shared: bool)

  function RuleOf(s: State, cfg: Config): Rule {
    var target := TargetOr(s, cfg.defaultTarget);
    Rule(target, Max(1, Ceil(target * cfg.share)), |Tenants(s)| > 1)
  }

  /** The use the scan simulates: total weight, and what it has set aside on
      top of the store for a tenant, a slot key or a delay key. */
  datatype Sim = Sim(use: real, tenantUse: map<string, real>, slots: map<Site, int>, nextAt: map<Site, int>)

  ghost function Start(s: State): Sim {
    Sim(Total(s.seatWeight), map[], map[], map[])
  }

  ghost function SimTenant(s: State, sim: Sim, tenant: string): real {
    if tenant in sim.tenantUse then sim.tenantUse[tenant] else TenantUse(s, tenant)
  }

  ghost function SimSlots(s: State, sim: Sim, k: Site): int {
    if k in sim.slots then sim.slots[k] else |LiveTurns(s, k)|
  }

  ghost function SimNext(s: State, sim: Sim, k: Site): int {
    if k in sim.nextAt then sim.nextAt[k] else NextAt(s, k)
  }

  ghost predicate Fits(s: State, r: Rule, sim: Sim, i: Info) {
    && SimSlots(s, sim, i.site) < i.cap
    && SimNext(s, sim, i.site) <= s.now
    && (sim.use > 0.0 ==> sim.use + i.weight <= r.target)
    && (r.shared && SimTenant(s, sim, i.site.tenant) > 0.0 ==>
          SimTenant(s, sim, i.site.tenant) + i.weight <= r.shareCap as real)
  }

  ghost function Reserve(s: State, sim: Sim, i: Info): Sim {
    Sim(sim.use + i.weight,
        sim.tenantUse[i.site.tenant := SimTenant(s, sim, i.site.tenant) + i.weight],
        sim.slots[i.site := SimSlots(s, sim, i.site) + 1],
        if i.delayMs > 0 then sim.nextAt[i.site := s.now + i.delayMs] else sim.nextAt)
  }

  /** One waiter passed over: an eligible one has its share set aside. */
  ghost function Pass(s: State, r: Rule, sim: Sim, w: nat): Sim {
    if w in s.waiterInfo && Fits(s, r, sim, s.waiterInfo[w]) then Reserve(s, sim, s.waiterInfo[w]) else sim
  }

  ghost function Scan(s: State, r: Rule, line: seq<nat>): Sim {
    if line == [] then Start(s)
    else Pass(s, r, Scan(s, r, line[..|line| - 1]), line[|line| - 1])
  }

  function IndexIn(line: seq<nat>, w: nat): (k: nat)
    ensures k <= |line|
    ensures w in line ==> k < |line| && line[k] == w
    ensures forall j :: 0 <= j < k ==> line[j] != w
  {
    if line == [] || line[0] == w then 0 else 1 + IndexIn(line[1..], w)
  }

  /** The waiters ahead of `w`. */
  function Ahead(s: State, w: nat): seq<nat> {
    Line(s.waiters)[..IndexIn(Line(s.waiters), w)]
  }

  /** Would the scan, run in this state, let waiter `w` through? */
  ghost predicate Wins(s: State, cfg: Config, w: nat) {
    w in s.waiterInfo && Fits(s, RuleOf(s, cfg), Scan(s, RuleOf(s, cfg), Ahead(s, w)), s.waiterInfo[w])
  }

  function Booked(q: State, cfg: Config, c: Claim): State {
    q.(seats := q.seats[c.lease := q.now + cfg.leaseTtl],
       seatWeight := q.seatWeight[c.lease := c.info.weight],
       seatTenant := q.seatTenant[c.lease := c.info.site.tenant])
  }

  function Paced(q: State, cfg: Config, c: Claim): State {
    var i := c.info;
    q.(turns := Put(q.turns, q.now, i.site, Lease(c.lease), q.now + cfg.leaseTtl, cfg.leaseTtl),
       delays := if i.delayMs <= 0 then q.delays
                 else q.delays[i.site := Delay(q.now + i.delayMs, q.now + Max(60000, i.delayMs * 4))])
  }

  /** Seat, slot and delay are taken together, and the waiter leaves the line. */
  function Seat(q: State, cfg: Config, c: Claim): State {
    var i := c.info;
    q.(seats := q.seats[c.lease := q.now + cfg.leaseTtl],
       seatWeight := q.seatWeight[c.lease := i.weight],
       seatTenant := q.seatTenant[c.lease := i.site.tenant],
       turns := Put(q.turns, q.now, i.site, Lease(c.lease), q.now + cfg.leaseTtl, cfg.leaseTtl),
       delays := if i.delayMs <= 0 then q.delays
                 else q.delays[i.site := Delay(q.now + i.delayMs, q.now + Max(60000, i.delayMs * 4))],
       waiters := q.waiters - {c.me}, waiterExp := q.waiterExp - {c.me}, waiterInfo := q.waiterInfo - {c.me})
  }

  lemma SeatIs(q: State, cfg: Config, c: Claim)
    ensures Seat(q, cfg, c) == DropWaiter(Paced(Booked(q, cfg, c), cfg, c), c.me)
  {
  }

  ghost predicate Granted(s: State, cfg: Config, c: Claim) {
    Wins(Queue(s, cfg, c), cfg, c.me)
  }

  ghost function AfterClaim(s: State, cfg: Config, c: Claim): State {
    var q := Queue(s, cfg, c);
    if Granted(s, cfg, c) then Seat(q, cfg, c) else q
  }

  ghost function ClaimReply(s: State, cfg: Config, c: Claim): Reply {
    var q := Queue(s, cfg, c);
    var use, target, n := Total(q.seatWeight), TargetOr(q, cfg.defaultTarget), |Line(q.waiters)|;
    if Granted(s, cfg, c) then Reply(true, use + c.info.weight, target, n - 1) else Reply(false, use, target, n)
  }

  // ----- the other scripts -----

  predicate SeatLive(s: State, l: nat) {
    l in s.seats && s.now < s.seats[l]
  }

  function AfterRenew(s: State, cfg: Config, l: nat, k: Site): State {
    if !SeatLive(s, l) then s else
    var seated := s.(seats := s.seats[l := s.now + cfg.leaseTtl]);
    if Lease(l) !in Members(s, k) then seated else PutTurn(seated, k, Lease(l), cfg.leaseTtl)
  }

  function AfterRelease(s: State, l: nat, k: Site): State {
    DropTurn(DropSeat(s, l), k, Lease(l))
  }

  predicate TurnFree(s: State, k: Site, limit: int) {
    |LiveTurns(s, k)| < limit
  }

  function AfterAcquire(s: State, cfg: Config, k: Site, worker: nat, limit: int): State {
    var purged := s.(turns := PurgeTurns(s.turns, s.now, k));
    if TurnFree(s, k, limit) then PutTurn(purged, k, Turn(worker), cfg.slotTtl) else purged
  }

  predicate TurnLive(s: State, k: Site, worker: nat) {
    Turn(worker) in Members(s, k) && s.now < Members(s, k)[Turn(worker)]
  }

  function AfterRefresh(s: State, cfg: Config, k: Site, worker: nat): State {
    if TurnLive(s, k, worker) then PutTurn(s, k, Turn(worker), cfg.slotTtl) else s
  }

  /** The instant a Level 1 reservation made now is given. */
  function Earliest(s: State, k: Site): int {
    Max(s.now, NextAt(s, k))
  }

  /** How long a reservation's key lives. */
  function QueueTtl(delayMs: int): int {
    1000 * Max(60, delayMs / 1000 * 4)
  }

  function AfterReserve(s: State, k: Site, delayMs: int): State {
    if delayMs <= 0 then s
    else s.(delays := s.delays[k := Delay(Earliest(s, k) + delayMs, s.now + QueueTtl(delayMs))])
  }

  function Later(s: State, ms: nat): State {
    s.(now := s.now + ms)
  }

  // ----- runs -----

  /** Everything that can happen to the store. A crash is a holder of whom
      nothing more is heard. */
  datatype Event =
    | Claims(claim: Claim)
    | Renew(lease: nat, site: Site)
    | Release(lease: nat, site: Site)
    | ReleaseSlot(lease: nat, site: Site)
    | Leave(waiter: nat)
    | SetTarget(target: Option<real>)
    | Tick(ms: nat)
    | Acquire(site: Site, worker: nat, limit: int)
    | Refresh(site: Site, worker: nat)
    | FreeTurn(site: Site, worker: nat)
    | ReserveDelay(site: Site, delayMs: int)

  ghost function Step(s: State, cfg: Config, e: Event): State {
    match e
    case Claims(c) => AfterClaim(s, cfg, c)
    case Renew(l, k) => AfterRenew(s, cfg, l, k)
    case Release(l, k) => AfterRelease(s, l, k)
    case ReleaseSlot(l, k) => DropTurn(s, k, Lease(l))
    case Leave(w) => DropWaiter(s, w)
    case SetTarget(t) => s.(target := t)
    case Tick(ms) => Later(s, ms)
    case Acquire(k, w, n) => AfterAcquire(s, cfg, k, w, n)
    case Refresh(k, w) => AfterRefresh(s, cfg, k, w)
    case FreeTurn(k, w) => DropTurn(s, k, Turn(w))
    case ReserveDelay(k, d) => AfterReserve(s, k, d)
  }

  /** What a caller owes the store: a fresh lease id per claim, a well-formed
      request, and a lease always named with the site it was taken on. */
  ghost predicate Legal(s: State, e: Event) {
    match e
    case Claims(c) =>
      && WellFormed(c.info)
      && c.lease !in s.seats && (forall k :: Lease(c.lease) !in Visible(s.turns, s.now, k))
    case Renew(l, k) => HeldOnlyOn(s, l, k)
    case Release(l, k) => HeldOnlyOn(s, l, k)
    case _ => true
  }

  predicate WellFormed(i: Info) {
    i.cap >= 1 && i.delayMs >= 0 && i.weight > 0.0
  }

  ghost predicate HeldOnlyOn(s: State, l: nat, k: Site) {
    forall other :: Lease(l) in Visible(s.turns, s.now, other) ==> other == k
  }

  ghost function Run(s: State, cfg: Config, es: seq<Event>): State
    decreases |es|
  {
    if es == [] then s else Run(Step(s, cfg, es[0]), cfg, es[1..])
  }

  ghost predicate LegalRun(s: State, cfg: Config, es: seq<Event>)
    decreases |es|
  {
    es == [] || (Legal(s, es[0]) && LegalRun(Step(s, cfg, es[0]), cfg, es[1..]))
  }
}
