/** What a render or a fetch is handed, and what becomes of its browser afterwards:
    said of the instances, spares and drivers themselves. */
module BrowserReuse {
  import opened Basics
  import opened Tallies
  import opened Browsers
  import opened BrowserInvariant
  import opened BrowserSteps
  import opened BrowserLaws

  // ----- the parked queue -----

  /** Spare `p` can serve: parked no longer than the limit, launched for the very proxy
      asked for, and never on another domain. */
  predicate Serves(active: map<nat, Fox>, p: Spare, proxy: Option<Proxy>, domain: Option<nat>, now: int, maxIdle: int) {
    && now <= p.since + maxIdle
    && p.id in active
    && (proxy.Some? ==> active[p.id].proxy == proxy)
    && (domain.Some? ==> active[p.id].lastDomain == None || active[p.id].lastDomain == domain)
  }

  /** The first spare in the queue that can serve. */
  function FirstServing(active: map<nat, Fox>, queue: seq<Spare>, proxy: Option<Proxy>, domain: Option<nat>, now: int, maxIdle: int): Option<nat> {
    if queue == [] then None
    else if Serves(active, queue[0], proxy, domain, now, maxIdle) then Some(queue[0].id)
    else FirstServing(active, queue[1..], proxy, domain, now, maxIdle)
  }

  /** The queue without its stale spares and without the one taken, in order. */
  function StillParked(queue: seq<Spare>, taken: Option<nat>, now: int, maxIdle: int): seq<Spare> {
    if queue == [] then []
    else if now > queue[0].since + maxIdle || taken == Some(queue[0].id) then StillParked(queue[1..], taken, now, maxIdle)
    else [queue[0]] + StillParked(queue[1..], taken, now, maxIdle)
  }

  predicate SameFoxes(active: map<nat, Fox>, active': map<nat, Fox>, queue: seq<Spare>) {
    forall k :: 0 <= k < |queue| ==> queue[k].id in active && queue[k].id in active' && active[queue[k].id] == active'[queue[k].id]
  }

  lemma SameTail(active: map<nat, Fox>, active': map<nat, Fox>, queue: seq<Spare>, i: nat)
    requires SameFoxes(active, active', queue) && i <= |queue|
    ensures SameFoxes(active, active', queue[i..])
  {
  }

  lemma {:induction false} ServingSame(active: map<nat, Fox>, active': map<nat, Fox>, queue: seq<Spare>, proxy: Option<Proxy>, domain: Option<nat>, now: int, maxIdle: int)
    requires SameFoxes(active, active', queue)
    ensures FirstServing(active, queue, proxy, domain, now, maxIdle) == FirstServing(active', queue, proxy, domain, now, maxIdle)
    decreases |queue|
  {
    if queue != [] {
      assert forall k :: 0 <= k < |queue| - 1 ==> queue[1..][k] == queue[k + 1];
      ServingSame(active, active', queue[1..], proxy, domain, now, maxIdle);
    }
  }

  /** The instances behind stale spares. */
  function StaleIds(queue: seq<Spare>, now: int, maxIdle: int): set<nat> {
    set p | p in queue && now > p.since + maxIdle :: p.id
  }

  /** One taken before is not in the queue any more. */
  predicate Absent(queue: seq<Spare>, taken: Option<nat>) {
    forall p <- queue :: taken != Some(p.id)
  }

  /** What is taken from place `i` on. */
  function Chosen(active: map<nat, Fox>, queue: seq<Spare>, i: nat, taken: Option<nat>, proxy: Option<Proxy>, domain: Option<nat>, now: int, maxIdle: int): Option<nat>
    requires i <= |queue|
  {
    if taken.Some? then taken else FirstServing(active, queue[i..], proxy, domain, now, maxIdle)
  }

  /** The pass from place `i` on: it takes the first that can serve, unless one was
      taken, and drops the stale. */
  lemma {:induction false} PickSifts(cfg: Config, s: State, i: nat, taken: Option<nat>, proxy: Option<Proxy>, domain: Option<nat>, now: int)
    requires FoxesOk(cfg, s.active, s.queue) && i <= |s.queue| && Absent(s.queue, taken)
    ensures var (t, got) := Pick(cfg, s, i, taken, proxy, domain, now);
      && got == Chosen(s.active, s.queue, i, taken, proxy, domain, now, cfg.maxIdle)
      && t.queue == s.queue[..i] + StillParked(s.queue[i..], got, now, cfg.maxIdle)
    decreases |s.queue| - i
  {
    if i < |s.queue| {
      var (t, j, got) := Look(cfg, s, i, taken, proxy, domain, now);
      LookSifts(cfg, s, i, taken, proxy, domain, now);
      PickStep(cfg, s, i, taken, proxy, domain, now);
      PickSifts(cfg, t, j, got, proxy, domain, now);
      if j == i {
        DropOne(s.active, t.active, s.queue, i, taken, got, proxy, domain, now, cfg.maxIdle);
      } else {
        PassOne(s.active, s.queue, i, taken, proxy, domain, now, cfg.maxIdle);
      }
    } else {
      assert s.queue[..i] == s.queue && s.queue[i..] == [];
    }
  }

  /** It closes the stale, and no other instance. */
  lemma {:induction false} PickCloses(cfg: Config, s: State, i: nat, taken: Option<nat>, proxy: Option<Proxy>, domain: Option<nat>, now: int)
    requires FoxesOk(cfg, s.active, s.queue) && i <= |s.queue| && Absent(s.queue, taken)
    ensures var t := Pick(cfg, s, i, taken, proxy, domain, now).0;
      t.active == s.active - StaleIds(s.queue[i..], now, cfg.maxIdle) && t.entries == s.entries && t.waiting == s.waiting
    decreases |s.queue| - i
  {
    if i < |s.queue| {
      var (t, j, got) := Look(cfg, s, i, taken, proxy, domain, now);
      LookSifts(cfg, s, i, taken, proxy, domain, now);
      PickStep(cfg, s, i, taken, proxy, domain, now);
      PickCloses(cfg, t, j, got, proxy, domain, now);
      StaleRest(s.queue, i, now, cfg.maxIdle);
    } else {
      assert StaleIds([], now, cfg.maxIdle) == {};
    }
  }

  lemma DropOne(active: map<nat, Fox>, active': map<nat, Fox>, queue: seq<Spare>, i: nat, taken: Option<nat>, got: Option<nat>, proxy: Option<Proxy>, domain: Option<nat>, now: int, maxIdle: int)
    requires i < |queue| && SameFoxes(active, active', Without(queue, i))
    requires if now > queue[i].since + maxIdle then got == taken
             else taken.None? && Serves(active, queue[i], proxy, domain, now, maxIdle) && got == Some(queue[i].id)
    ensures var rest := Without(queue, i); var end := Chosen(active', rest, i, got, proxy, domain, now, maxIdle);
      && end == Chosen(active, queue, i, taken, proxy, domain, now, maxIdle)
      && rest[..i] + StillParked(rest[i..], end, now, maxIdle) == queue[..i] + StillParked(queue[i..], end, now, maxIdle)
  {
    Around(queue, i);
    assert queue[i + 1..] == Without(queue, i)[i..];
    SameTail(active, active', Without(queue, i), i);
    ServingSame(active, active', queue[i + 1..], proxy, domain, now, maxIdle);
  }

  lemma PassOne(active: map<nat, Fox>, queue: seq<Spare>, i: nat, taken: Option<nat>, proxy: Option<Proxy>, domain: Option<nat>, now: int, maxIdle: int)
    requires i < |queue| && (forall k :: i < k < |queue| ==> queue[k].id != queue[i].id) && taken != Some(queue[i].id)
    requires now <= queue[i].since + maxIdle && (taken.None? ==> !Serves(active, queue[i], proxy, domain, now, maxIdle))
    ensures var end := Chosen(active, queue, i + 1, taken, proxy, domain, now, maxIdle);
      && end == Chosen(active, queue, i, taken, proxy, domain, now, maxIdle)
      && queue[..i + 1] + StillParked(queue[i + 1..], end, now, maxIdle) == queue[..i] + StillParked(queue[i..], end, now, maxIdle)
  {
    Around(queue, i);
    PassedOver(active, queue, i, proxy, domain, now, maxIdle);
  }

  lemma StaleRest(queue: seq<Spare>, i: nat, now: int, maxIdle: int)
    requires i < |queue|
    ensures StaleIds(queue[i..], now, maxIdle)
      == (if now > queue[i].since + maxIdle then {queue[i].id} else {}) + StaleIds(queue[i + 1..], now, maxIdle)
    ensures Without(queue, i)[i..] == queue[i + 1..]
  {
    assert queue[i..] == [queue[i]] + queue[i + 1..];
  }

  lemma Around(queue: seq<Spare>, i: nat)
    requires i < |queue|
    ensures queue[i..] == [queue[i]] + queue[i + 1..] && queue[i..][1..] == queue[i + 1..] && queue[i..][0] == queue[i]
    ensures Without(queue, i)[..i] == queue[..i] && Without(queue, i)[i..] == queue[i + 1..]
    ensures queue[..i + 1] == queue[..i] + [queue[i]]
  {
  }

  /** One that serves further on is another one. */
  lemma PassedOver(active: map<nat, Fox>, queue: seq<Spare>, i: nat, proxy: Option<Proxy>, domain: Option<nat>, now: int, maxIdle: int)
    requires i < |queue| && forall k :: i < k < |queue| ==> queue[k].id != queue[i].id
    ensures FirstServing(active, queue[i + 1..], proxy, domain, now, maxIdle) != Some(queue[i].id)
  {
    ServingIn(active, queue[i + 1..], proxy, domain, now, maxIdle);
  }

  lemma PickStep(cfg: Config, s: State, i: nat, taken: Option<nat>, proxy: Option<Proxy>, domain: Option<nat>, now: int)
    requires i < |s.queue|
    ensures var (t, j, got) := Look(cfg, s, i, taken, proxy, domain, now);
      Pick(cfg, s, i, taken, proxy, domain, now) == Pick(cfg, t, j, got, proxy, domain, now)
  {
  }

  /** One spare looked at. */
  lemma LookSifts(cfg: Config, s: State, i: nat, taken: Option<nat>, proxy: Option<Proxy>, domain: Option<nat>, now: int)
    requires FoxesOk(cfg, s.active, s.queue) && i < |s.queue| && Absent(s.queue, taken)
    ensures var (t, j, got) := Look(cfg, s, i, taken, proxy, domain, now); var p := s.queue[i];
      && FoxesOk(cfg, t.active, t.queue) && Absent(t.queue, got)
      && (if now > p.since + cfg.maxIdle then j == i && got == taken && t.queue == Without(s.queue, i)
          else if taken.None? && Serves(s.active, p, proxy, domain, now, cfg.maxIdle) then j == i && got == Some(p.id) && t.queue == Without(s.queue, i)
          else j == i + 1 && got == taken && t == s)
      && t.active == s.active - (if now > p.since + cfg.maxIdle then {p.id} else {}) && t.entries == s.entries && t.waiting == s.waiting
      && SameFoxes(s.active, t.active, t.queue)
  {
    assert SpareOk(cfg, s.active, s.queue[i]);
    WithoutFoxes(cfg, s.active, s.queue, i);
    SpareGone(s, i);
    UnparkFrame(s, i);
    Known(cfg, s.active, s.queue, s.active);
    Known(cfg, s.active, Without(s.queue, i), s.active - {s.queue[i].id});
    Known(cfg, s.active, Without(s.queue, i), s.active);
  }

  lemma Known(cfg: Config, active: map<nat, Fox>, queue: seq<Spare>, active': map<nat, Fox>)
    requires FoxesOk(cfg, active, queue)
    requires forall p <- queue :: p.id in active && p.id in active' ==> active'[p.id] == active[p.id]
    requires forall p <- queue :: p.id in active ==> p.id in active'
    ensures SameFoxes(active, active', queue) && FoxesOk(cfg, active', queue)
  {
    forall p <- queue ensures SpareOk(cfg, active', p) && p.id in active && active[p.id] == active'[p.id] { assert SpareOk(cfg, active, p); }
  }

  lemma {:induction false} ServingIn(active: map<nat, Fox>, queue: seq<Spare>, proxy: Option<Proxy>, domain: Option<nat>, now: int, maxIdle: int)
    ensures var got := FirstServing(active, queue, proxy, domain, now, maxIdle);
      got.Some? ==> exists p <- queue :: p.id == got.value && Serves(active, p, proxy, domain, now, maxIdle)
    decreases |queue|
  {
    if queue != [] {
      ServingIn(active, queue[1..], proxy, domain, now, maxIdle);
      assert queue[0] in queue && forall p <- queue[1..] :: p in queue;
    }
  }

  // ----- launches -----

  /** `who` has its permit. */
  predicate HasPermit(s: State, who: Launch) {
    match who
    case OfFox(id) => id in s.active && s.active[id].phase == Launching
    case OfEntry(id) => id in s.fetching
  }

  /** Nobody ahead and a permit free: taken, with nothing closed. Nobody ahead and
      something parked: the oldest spare alone is closed for it. Otherwise the launch
      waits at the end of the line. */
  lemma AskDecides(cfg: Config, s: State, who: Launch)
    requires Core(cfg, s) && NoneIdle(s) && (who.OfFox? ==> who.id in s.active && forall p <- s.queue :: p.id != who.id)
    ensures var t := AskPermit(s, who);
      if s.waiting == [] && s.free > 0 then
        HasPermit(t, who) && t.waiting == [] && t.queue == s.queue && t.free == s.free - 1 && t.active.Keys == s.active.Keys
        && (forall id <- t.active :: id in s.active && t.active[id].(phase := s.active[id].phase) == s.active[id])
      else if s.waiting == [] && !s.poolStopped && s.queue != [] then
        HasPermit(t, who) && t.waiting == [] && t.queue == s.queue[1..] && t.free == 0 && t.active.Keys == s.active.Keys - {s.queue[0].id}
        && (forall id <- t.active :: id in s.active && t.active[id].(phase := s.active[id].phase) == s.active[id])
      else
        t == s.(waiting := s.waiting + [who])
  {
    if s.waiting == [] && s.free == 0 && !s.poolStopped && s.queue != [] { AskCloses(cfg, s, who); } else { AskPlainly(s, who); }
  }

  lemma AskPlainly(s: State, who: Launch)
    requires !Locked(s) || s.poolStopped || s.queue == []
    requires who.OfFox? ==> who.id in s.active
    ensures var t := AskPermit(s, who);
      if s.waiting == [] && s.free > 0 then
        HasPermit(t, who) && t.waiting == [] && t.queue == s.queue && t.free == s.free - 1 && t.active.Keys == s.active.Keys
        && (forall id <- t.active :: t.active[id].(phase := s.active[id].phase) == s.active[id])
      else t == s.(waiting := s.waiting + [who])
  {
    NothingReclaimed(s);
    TakeIs(s, who);
  }

  lemma TakeIs(s: State, who: Launch)
    requires who.OfFox? ==> who.id in s.active
    ensures TakeOrWait(s, who) ==
      if s.free == 0 || s.waiting != [] then s.(waiting := s.waiting + [who])
      else if who.OfFox? then s.(free := s.free - 1, active := s.active[who.id := s.active[who.id].(phase := Launching)])
      else s.(free := s.free - 1, fetching := s.fetching + {who.id})
  {
  }

  lemma AskCloses(cfg: Config, s: State, who: Launch)
    requires Core(cfg, s) && s.waiting == [] && s.free == 0 && !s.poolStopped && s.queue != []
    requires who.OfFox? ==> who.id in s.active && forall p <- s.queue :: p.id != who.id
    ensures var t := AskPermit(s, who);
      && HasPermit(t, who) && t.waiting == [] && t.queue == s.queue[1..] && t.free == 0 && t.active.Keys == s.active.Keys - {s.queue[0].id}
      && (forall id <- t.active :: id in s.active && t.active[id].(phase := s.active[id].phase) == s.active[id])
  {
    OneClosed(cfg, s);
    assert s.queue[0] in s.queue;
    TakesLast(s.active, Reclaimed(s), who, s.queue[0].id);
  }

  lemma OneClosed(cfg: Config, s: State)
    requires Core(cfg, s) && s.waiting == [] && s.free == 0 && !s.poolStopped && s.queue != []
    ensures var u := Reclaimed(s);
      u.waiting == [] && u.free == 1 && u.active == s.active - {s.queue[0].id} && u.queue == s.queue[1..]
  {
    CloseSpareKeeps(cfg, s, 0);
    SpareGone(s, 0);
    OneReclaimed(s, CloseSpare(s, 0));
    assert Without(s.queue, 0) == s.queue[1..];
  }

  lemma TakesLast(active: map<nat, Fox>, u: State, who: Launch, gone: nat)
    requires u.waiting == [] && u.free == 1 && u.active == active - {gone} && (who.OfFox? ==> who.id in u.active)
    ensures var t := TakeOrWait(u, who);
      && HasPermit(t, who) && t.waiting == [] && t.queue == u.queue && t.free == 0 && t.active.Keys == active.Keys - {gone}
      && (forall id <- t.active :: id in active && t.active[id].(phase := active[id].phase) == active[id])
  {
    TakeIs(u, who);
  }

  lemma OneReclaimed(s: State, u: State)
    requires s.waiting == [] && s.free == 0 && !s.poolStopped && s.queue != [] && u == CloseSpare(s, 0) && u.free > 0 && u.waiting == []
    ensures Reclaimed(s) == u
  {
    assert Reclaimed(s) == Reclaimed(u);
  }

  lemma NothingReclaimed(s: State)
    requires !Locked(s) || s.poolStopped || s.queue == []
    ensures Reclaimed(s) == s
  {
  }

  /** acquire: the first spare parked within the limit, on the proxy asked for and on no
      other domain, is handed out as it is; with none, and only then, an instance of the
      proxy asked for is launched. Stale spares are closed, and all the others stay, in
      order, but for one that may have to give its permit up. */
  lemma AcquireHands(cfg: Config, s: State, proxy: Option<Proxy>, domain: Option<nat>, now: int, id: nat)
    requires Inv(cfg, s) && id !in s.active
    ensures var t := Acquire(cfg, s, proxy, domain, now, id);
      var got := FirstServing(s.active, s.queue, proxy, domain, now, cfg.maxIdle);
      var parked, stale := StillParked(s.queue, got, now, cfg.maxIdle), StaleIds(s.queue, now, cfg.maxIdle);
      if got.Some? then t.active == s.active - stale && t.queue == parked && t.waiting == s.waiting
      else
        && id in t.active && t.active[id].proxy == proxy && t.active[id].lastDomain == None && t.active[id].listed
        && (HasPermit(t, OfFox(id)) || t.waiting == s.waiting + [OfFox(id)])
        && (t.queue == parked || (parked != [] && t.queue == parked[1..]))
  {
    var (t, got) := Pick(cfg, s, 0, None, proxy, domain, now);
    AcquireIs(cfg, s, proxy, domain, now, id);
    PickedState(cfg, s, proxy, domain, now);
    if got.None? { LaunchHands(cfg, t, proxy, id); }
  }

  lemma PickedState(cfg: Config, s: State, proxy: Option<Proxy>, domain: Option<nat>, now: int)
    requires Inv(cfg, s)
    ensures var (t, got) := Pick(cfg, s, 0, None, proxy, domain, now);
      && Core(cfg, t) && Lined(t) && NoneIdle(t) && t.waiting == s.waiting
      && got == FirstServing(s.active, s.queue, proxy, domain, now, cfg.maxIdle)
      && t.queue == StillParked(s.queue, got, now, cfg.maxIdle) && t.active == s.active - StaleIds(s.queue, now, cfg.maxIdle)
  {
    PickSifts(cfg, s, 0, None, proxy, domain, now);
    PickCloses(cfg, s, 0, None, proxy, domain, now);
    assert s.queue[0..] == s.queue;
    PickKeeps(cfg, s, 0, None, proxy, domain, now);
    TrimsLine(s, Pick(cfg, s, 0, None, proxy, domain, now).0);
  }

  lemma LaunchHands(cfg: Config, s: State, proxy: Option<Proxy>, id: nat)
    requires Core(cfg, s) && Lined(s) && NoneIdle(s) && id !in s.active
    ensures var t := AskPermit(s.(active := s.active[id := Fox(proxy, None, Waiting, true)]), OfFox(id));
      && id in t.active && t.active[id].proxy == proxy && t.active[id].lastDomain == None && t.active[id].listed
      && (HasPermit(t, OfFox(id)) || t.waiting == s.waiting + [OfFox(id)])
      && (t.queue == s.queue || (s.queue != [] && t.queue == s.queue[1..]))
  {
    NewWaiter(cfg, s, id, proxy);
    AskDecides(cfg, s.(active := s.active[id := Fox(proxy, None, Waiting, true)]), OfFox(id));
  }

  lemma AcquireIs(cfg: Config, s: State, proxy: Option<Proxy>, domain: Option<nat>, now: int, id: nat)
    ensures var (t, got) := Pick(cfg, s, 0, None, proxy, domain, now);
      Acquire(cfg, s, proxy, domain, now, id)
        == if got.Some? then t else AskPermit(t.(active := t.active[id := Fox(proxy, None, Waiting, true)]), OfFox(id))
  {
  }

  /** What is handed out fits the request, written out on its own fields. */
  lemma HandedFits(cfg: Config, s: State, proxy: Option<Proxy>, domain: Option<nat>, now: int)
    requires FoxesOk(cfg, s.active, s.queue)
    ensures var (t, got) := Pick(cfg, s, 0, None, proxy, domain, now);
      if got.Some? then
        exists p <- s.queue :: p.id == got.value && now - p.since <= cfg.maxIdle && p.id in s.active
          && (proxy.Some? ==> s.active[p.id].proxy == proxy) && (domain.Some? ==> s.active[p.id].lastDomain in {None, domain})
      else
        forall p <- t.queue :: now - p.since <= cfg.maxIdle && p.id in s.active
          && ((proxy.Some? && s.active[p.id].proxy != proxy) || (domain.Some? && s.active[p.id].lastDomain !in {None, domain}))
  {
    var (t, got) := Pick(cfg, s, 0, None, proxy, domain, now);
    PickSifts(cfg, s, 0, None, proxy, domain, now);
    assert s.queue[0..] == s.queue && s.queue[..0] + t.queue == t.queue;
    ServingIn(s.active, s.queue, proxy, domain, now, cfg.maxIdle);
    if got.None? {
      NoneServing(s.active, s.queue, proxy, domain, now, cfg.maxIdle);
      forall p <- s.queue ensures p.id in s.active { assert SpareOk(cfg, s.active, p); }
    }
  }

  lemma {:induction false} NoneServing(active: map<nat, Fox>, queue: seq<Spare>, proxy: Option<Proxy>, domain: Option<nat>, now: int, maxIdle: int)
    requires FirstServing(active, queue, proxy, domain, now, maxIdle).None?
    ensures forall p <- StillParked(queue, None, now, maxIdle) :: p in queue && now <= p.since + maxIdle && !Serves(active, p, proxy, domain, now, maxIdle)
    decreases |queue|
  {
    if queue != [] {
      NoneServing(active, queue[1..], proxy, domain, now, maxIdle);
      assert forall p <- queue[1..] :: p in queue;
    }
  }

  /** A permit that comes free goes to the head of the line, which is then launching or
      at work; nobody else moves. */
  lemma WakeGives(cfg: Config, s: State)
    requires Inv(cfg, s) && s.free > 0 && s.waiting != []
    ensures var t := Wake(s);
      t.waiting == s.waiting[1..] && t.free == s.free - 1 && HasPermit(t, s.waiting[0]) && t.queue == s.queue
  {
    assert InLine(s.waiting, s.waiting[0]);
  }

  // ----- afterwards -----

  /** A render's instance is parked, with its permit, if and only if it is healthy,
      parking is on, its proxy session can be asked for again, nobody waits for a
      permit, and, under a keeper, the render still has its seat to leave with it;
      otherwise it is closed and its permit is free. */
  lemma ReleaseParks(cfg: Config, s: State, r: nat, id: nat, healthy: bool, domain: Option<nat>, now: int)
    requires id in s.active && s.active[id].phase.Up? && s.active[id].listed && !Parked(s, id)
    ensures var t, f := Release(cfg, s, r, id, healthy, domain, now), s.active[id];
      if healthy && cfg.parkSpares && (f.proxy.Some? ==> f.proxy.value.reusable) && s.waiting == []
         && (cfg.keeper ==> r in s.claims && !s.claims[r].retained)
      then
        && t.queue == s.queue + [Spare(id, now, if cfg.keeper then Some(s.claims[r].lease) else None)]
        && t.active == s.active[id := f.(lastDomain := domain)] && t.free == s.free && t.live == s.live
        && (if cfg.keeper then r in t.claims && t.claims[r].retained && t.kept == s.kept[s.claims[r].lease := Kept(now, now)] else t.kept == s.kept)
      else
        t.queue == s.queue && t.active == s.active - {id} && t.free == s.free + 1 && t.kept == s.kept && t.claims == s.claims && t.live == s.live
  {
    ReleasedIs(cfg, s, r, id, healthy, domain, now);
    if !cfg.keeper || Retainable(s, r) { ParkIs(cfg, Relabelled(s, id, domain), r, id, now); }
    ExitIs(s, id);
    ExitIs(Relabelled(s, id, domain), id);
  }

  lemma ReleasedIs(cfg: Config, s: State, r: nat, id: nat, healthy: bool, domain: Option<nat>, now: int)
    requires id in s.active && s.active[id].listed
    ensures var t, f := Relabelled(s, id, domain), s.active[id];
      Release(cfg, s, r, id, healthy, domain, now) ==
        if !healthy then CloseFox(s, id)
        else if cfg.parkSpares && (f.proxy.Some? ==> f.proxy.value.reusable) && s.waiting == [] && (cfg.keeper ==> Retainable(t, r)) then Park(cfg, t, r, id, now)
        else CloseFox(t, id)
  {
  }

  lemma ParkIs(cfg: Config, s: State, r: nat, id: nat, now: int)
    requires cfg.keeper ==> Retainable(s, r)
    ensures var t := Park(cfg, s, r, id, now);
      && t == s.(queue := t.queue, claims := t.claims, kept := t.kept)
      && t.queue == s.queue + [Spare(id, now, if cfg.keeper then Some(s.claims[r].lease) else None)]
      && (if cfg.keeper then r in t.claims && t.claims[r].retained && t.kept == s.kept[s.claims[r].lease := Kept(now, now)] else t.kept == s.kept)
  {
  }

  /** A parked instance is the next one handed out to the same proxy and domain, as
      long as it is not stale and no older spare serves. */
  lemma ParkedComesBack(cfg: Config, s: State, r: nat, id: nat, domain: nat, now: int, later: int)
    requires Inv(cfg, s) && cfg.parkSpares && s.waiting == [] && now <= later <= now + cfg.maxIdle
    requires cfg.keeper ==> r in s.claims && !s.claims[r].retained
    requires id in s.active && s.active[id].phase.Up? && s.active[id].listed && !Parked(s, id)
    requires s.active[id].proxy.Some? && s.active[id].proxy.value.reusable
    requires FirstServing(s.active, s.queue, s.active[id].proxy, Some(domain), later, cfg.maxIdle).None?
    ensures var t := Release(cfg, s, r, id, true, Some(domain), now);
      FirstServing(t.active, t.queue, s.active[id].proxy, Some(domain), later, cfg.maxIdle) == Some(id)
  {
    ReleaseParks(cfg, s, r, id, true, Some(domain), now);
    var t := Release(cfg, s, r, id, true, Some(domain), now);
    forall p <- s.queue ensures SpareOk(cfg, s.active, p) && p.id != id {}
    SameKnown(cfg, s.active, s.queue, t.active);
    ServingSame(s.active, t.active, s.queue, s.active[id].proxy, Some(domain), later, cfg.maxIdle);
    ServingLast(t.active, s.queue, t.queue[|s.queue|], s.active[id].proxy, Some(domain), later, cfg.maxIdle);
  }

  lemma SameKnown(cfg: Config, active: map<nat, Fox>, queue: seq<Spare>, active': map<nat, Fox>)
    requires forall p <- queue :: SpareOk(cfg, active, p)
    requires forall p <- queue :: p.id in active && p.id in active' && active'[p.id] == active[p.id]
    ensures SameFoxes(active, active', queue)
  {
  }

  lemma {:induction false} ServingLast(active: map<nat, Fox>, queue: seq<Spare>, p: Spare, proxy: Option<Proxy>, domain: Option<nat>, now: int, maxIdle: int)
    requires FirstServing(active, queue, proxy, domain, now, maxIdle).None? && Serves(active, p, proxy, domain, now, maxIdle)
    ensures FirstServing(active, queue + [p], proxy, domain, now, maxIdle) == Some(p.id)
    decreases |queue|
  {
    if queue != [] {
      assert (queue + [p])[1..] == queue[1..] + [p];
      ServingLast(active, queue[1..], p, proxy, domain, now, maxIdle);
    }
  }
}
