/** Concrete queues that show why the conditions of `HostOrder` are there. */
module HostExamples {
  import opened Basics
  import opened Sums
  import opened Host
  import opened HostInvariant
  import opened HostOrder

  const CFG := Config(90000, 10000, 120000, 4.0, 0.6)
  const HERE := Site("a", "here.example")
  const THERE := Site("a", "there.example")
  const OTHER := Site("b", "other.example")

  lemma LineOfTwo(m: map<nat, int>, a: nat, b: nat)
    requires m.Keys == {a, b} && m[a] < m[b]
    ensures Line(m) == [a, b]
  {
    LineHead(m, a);
    LineHead(m - {a}, b);
    assert m - {a} - {b} == map[];
  }

  lemma LineOfThree(m: map<nat, int>, a: nat, b: nat, c: nat)
    requires m.Keys == {a, b, c} && m[a] < m[b] < m[c]
    ensures Line(m) == [a, b, c]
  {
    LineHead(m, a);
    LineOfTwo(m - {a}, b, c);
  }

  /** One older waiter in an otherwise empty store. */
  function OneWaiting(i: Info): State {
    State(1000, map[], map[], map[], map[1 := 10], map[1 := 5000], map[1 := i], None, map[], map[])
  }

  lemma OneWaitingQueue(i: Info, c: Claim)
    requires c.me == 2 && c.priority == 20 && WellFormed(i) && WellFormed(c.info)
    ensures Inv(OneWaiting(i), CFG) && Legal(OneWaiting(i), Claims(c))
    ensures var q := Queue(OneWaiting(i), CFG, c);
      && q == OneWaiting(i).(waiters := map[1 := 10, 2 := 20], waiterExp := map[1 := 5000, 2 := 11000], waiterInfo := map[1 := i, 2 := c.info])
      && Line(q.waiters) == [1, 2] && Ahead(q, 1) == [] && Ahead(q, 2) == [1]
  {
    var s := OneWaiting(i);
    assert Lapsed(s.seats, s.now) == {} && Lapsed(s.waiterExp, s.now) == {};
    PurgeIdle(s);
    var q := Queue(s, CFG, c);
    LineOfTwo(q.waiters, 1, 2);
    AheadAt(q, 0);
    AheadAt(q, 1);
  }

  lemma ScanTwo(q: State, r: Rule, a: nat, b: nat)
    ensures Scan(q, r, [a]) == Pass(q, r, Start(q), a)
    ensures Scan(q, r, [a, b]) == Pass(q, r, Pass(q, r, Start(q), a), b)
  {
    assert [a][..0] == [] && [a, b][..1] == [a];
  }

  lemma OneTenant(q: State, t: string)
    requires forall w :: w in q.waiterInfo ==> q.waiterInfo[w].site.tenant == t
    ensures |Tenants(q)| <= 1
  {
    if |Tenants(q)| > 0 {
      var x :| x in Tenants(q);
      assert Tenants(q) == {t};
    }
  }

  /** Two requests of one tenant and unit weight, on two sites or unpaced on
      one: the older is eligible and the caller is granted all the same. */
  lemma BothFit(i: Info, c: Claim)
    requires c.me == 2 && c.priority == 20 && WellFormed(i) && WellFormed(c.info)
    requires i.weight == c.info.weight == 1.0 && i.site.tenant == c.info.site.tenant
    requires i.site == c.info.site ==> i.delayMs == 0 && c.info.cap >= 2
    ensures Granted(OneWaiting(i), CFG, c)
    ensures var q := Queue(OneWaiting(i), CFG, c); Older(q, 1, 2) && Wins(q, CFG, 1)
  {
    OneWaitingQueue(i, c);
    var q := Queue(OneWaiting(i), CFG, c);
    OneTenant(q, i.site.tenant);
    ScanTwo(q, RuleOf(q, CFG), 1, 2);
    assert Fits(q, RuleOf(q, CFG), Start(q), i);
  }

  /** The module's comment says the caller wins only if no older waiter could
      claim right now. The script does less: with room for both, the caller is
      granted although the older waiter could claim, too. */
  lemma CallerMayGoFirst()
    ensures var s, c := OneWaiting(Info(HERE, 1, 1000, 1.0)), Claim(2, 20, Info(THERE, 1, 1000, 1.0), 7);
      && Inv(s, CFG) && Legal(s, Claims(c)) && Granted(s, CFG, c)
      && Older(Queue(s, CFG, c), 1, c.me) && Wins(Queue(s, CFG, c), CFG, 1)
  {
    OneWaitingQueue(Info(HERE, 1, 1000, 1.0), Claim(2, 20, Info(THERE, 1, 1000, 1.0), 7));
    BothFit(Info(HERE, 1, 1000, 1.0), Claim(2, 20, Info(THERE, 1, 1000, 1.0), 7));
  }

  const UNPACED := Info(HERE, 1, 0, 1.0)
  const TWOFOLD := Claim(2, 20, Info(HERE, 2, 0, 1.0), 7)

  /** Without a delay, an older eligible waiter on the caller's own site can be
      overtaken: the caller's cap is two, the older waiter's own cap is one. */
  lemma OvertakenWithoutDelay()
    ensures Inv(OneWaiting(UNPACED), CFG) && Legal(OneWaiting(UNPACED), Claims(TWOFOLD)) && Granted(OneWaiting(UNPACED), CFG, TWOFOLD)
    ensures var q := Queue(OneWaiting(UNPACED), CFG, TWOFOLD); !StillGranted(q, CFG, TWOFOLD, Seat(q, CFG, TWOFOLD))
  {
    OneWaitingQueue(UNPACED, TWOFOLD);
    BothFit(UNPACED, TWOFOLD);
    var q := Queue(OneWaiting(UNPACED), CFG, TWOFOLD);
    var q' := Seat(q, CFG, TWOFOLD);
    OneTenant(q, "a");
    NoRoomLeft(q);
    NoOvertaking(OneWaiting(UNPACED), CFG, TWOFOLD, q');
    EligibleDecide(OneWaiting(UNPACED), CFG, TWOFOLD, q');
  }

  lemma NoRoomLeft(q: State)
    requires 1 in q.waiterInfo && q.waiterInfo[1] == UNPACED
    ensures !LeftRoom(q, CFG, TWOFOLD, 1)
  {
    var sim := Scan(q, RuleOf(q, CFG), Ahead(q, 1));
    ScanSlots(q, RuleOf(q, CFG), Ahead(q, 1), HERE);
    assert SimSlots(q, sim, HERE) + 1 >= UNPACED.cap;
  }

  lemma {:induction false} ScanSlots(q: State, r: Rule, line: seq<nat>, k: Site)
    ensures SimSlots(q, Scan(q, r, line), k) >= 0
    decreases |line|
  {
    if line != [] { ScanSlots(q, r, line[..|line| - 1], k); }
  }

  /** Tenant `a` holds one unit of 2.1 and may hold two while `b` waits. Its
      first waiter is too heavy for that share, its second is not. */
  const SHARED := State(1000, map[9 := 50000], map[9 := 1.0], map[9 := "a"],
    map[1 := 10, 2 := 20], map[1 := 5000, 2 := 5000],
    map[1 := Info(HERE, 1, 1000, 1.05), 2 := Info(THERE, 1, 1000, 0.1)], Some(2.1), map[], map[])

  const LIGHT := Claim(3, 30, Info(OTHER, 1, 1000, 0.01), 7)

  lemma SharedJoined()
    ensures Queue(SHARED, CFG, LIGHT) ==
      SHARED.(waiters := SHARED.waiters[3 := 30], waiterExp := SHARED.waiterExp[3 := 11000], waiterInfo := SHARED.waiterInfo[3 := LIGHT.info])
  {
    assert Lapsed(SHARED.seats, SHARED.now) == {} && Lapsed(SHARED.waiterExp, SHARED.now) == {};
    PurgeIdle(SHARED);
  }

  lemma SharedLine()
    ensures var q := Queue(SHARED, CFG, LIGHT);
      Line(q.waiters) == [1, 2, 3] && Ahead(q, 1) == [] && Ahead(q, 2) == [1] && Ahead(q, 3) == [1, 2]
  {
    SharedJoined();
    var q := Queue(SHARED, CFG, LIGHT);
    LineOfThree(q.waiters, 1, 2, 3);
    AheadAt(q, 0);
    AheadAt(q, 1);
    AheadAt(q, 2);
  }

  lemma SharedRule()
    ensures RuleOf(Queue(SHARED, CFG, LIGHT), CFG) == Rule(2.1, 2, true)
  {
    SharedJoined();
    var q := Queue(SHARED, CFG, LIGHT);
    assert q.waiterInfo[1].site.tenant == q.waiterInfo[2].site.tenant == "a" && q.waiterInfo[3].site.tenant == "b";
    assert q.waiters.Keys == q.waiterInfo.Keys == {1, 2, 3};
    assert Tenants(q) == {"a", "b"};
    assert 2.1 * 0.6 == 1.26 && (-1.26).Floor == -2;
  }

  lemma SharedQueue()
    ensures var q := Queue(SHARED, CFG, LIGHT);
      && q == SHARED.(waiters := SHARED.waiters[3 := 30], waiterExp := SHARED.waiterExp[3 := 11000], waiterInfo := SHARED.waiterInfo[3 := LIGHT.info])
      && Line(q.waiters) == [1, 2, 3]
      && Ahead(q, 1) == [] && Ahead(q, 2) == [1] && Ahead(q, 3) == [1, 2]
      && RuleOf(q, CFG) == Rule(2.1, 2, true)
      && Total(q.seatWeight) == 1.0 && TenantUse(q, "a") == 1.0 && TenantUse(q, "b") == 0.0
  {
    SharedJoined();
    SharedLine();
    SharedRule();
    var q := Queue(SHARED, CFG, LIGHT);
    OneHeld(q.seatWeight, 9);
    PartAll(q.seatWeight, HeldBy(q, "a"));
    PartNone(q.seatWeight, HeldBy(q, "b"));
  }

  lemma OneHeld(m: map<nat, real>, l: nat)
    requires m.Keys == {l}
    ensures Total(m) == m[l]
  {
    TotalSplit(m, l);
    assert m - {l} == map[];
  }

  lemma SharedScan()
    ensures var q := Queue(SHARED, CFG, LIGHT); Wins(q, CFG, 2) && Wins(q, CFG, 3)
  {
    var q := Queue(SHARED, CFG, LIGHT);
    SharedQueue();
    ScanTwo(q, RuleOf(q, CFG), 1, 2);
    SharedFits(q);
  }

  /** Over its share, the heavier waiter is passed over; the lighter one and the
      caller are not. */
  lemma SharedFits(q: State)
    requires q.now == 1000 && RuleOf(q, CFG) == Rule(2.1, 2, true)
    requires q.waiterInfo == SHARED.waiterInfo[3 := LIGHT.info] && q.turns == map[] && q.delays == map[]
    requires Total(q.seatWeight) == 1.0 && TenantUse(q, "a") == 1.0 && TenantUse(q, "b") == 0.0
    ensures var r := RuleOf(q, CFG);
      && !Fits(q, r, Start(q), q.waiterInfo[1]) && Fits(q, r, Start(q), q.waiterInfo[2])
      && Fits(q, r, Reserve(q, Start(q), q.waiterInfo[2]), q.waiterInfo[3])
  {
    StartSims(q);
    assert LiveTurns(q, THERE) == {} && LiveTurns(q, OTHER) == {};
  }

  lemma SeatedLine()
    ensures var q' := Seat(Queue(SHARED, CFG, LIGHT), CFG, LIGHT);
      q'.waiters == map[1 := 10, 2 := 20] && q'.waiterInfo == SHARED.waiterInfo && q'.target == SHARED.target
  {
    SharedJoined();
    var q := Queue(SHARED, CFG, LIGHT);
    assert q.waiters - {3} == SHARED.waiters && q.waiterInfo - {3} == SHARED.waiterInfo;
  }

  lemma SeatedQueue()
    ensures var q' := Seat(Queue(SHARED, CFG, LIGHT), CFG, LIGHT);
      Ahead(q', 2) == [1] && RuleOf(q', CFG).target == 2.1 && !RuleOf(q', CFG).shared
  {
    SeatedLine();
    var q' := Seat(Queue(SHARED, CFG, LIGHT), CFG, LIGHT);
    LineOfTwo(q'.waiters, 1, 2);
    AheadAt(q', 1);
    OneTenant(q', "a");
  }

  lemma SeatedUse()
    ensures Total(Seat(Queue(SHARED, CFG, LIGHT), CFG, LIGHT).seatWeight) == 1.01
  {
    SharedQueue();
    TotalAdd(Queue(SHARED, CFG, LIGHT).seatWeight, 7, 0.01);
  }

  lemma RefusedNow()
    ensures !Wins(Seat(Queue(SHARED, CFG, LIGHT), CFG, LIGHT), CFG, 2)
  {
    var q' := Seat(Queue(SHARED, CFG, LIGHT), CFG, LIGHT);
    SeatedLine();
    SeatedQueue();
    SeatedUse();
    ScanTwo(q', RuleOf(q', CFG), 1, 2);
    assert q'.turns.Keys == {OTHER} && q'.delays.Keys == {OTHER};
    assert SimSlots(q', Start(q'), HERE) == 0 && SimNext(q', Start(q'), HERE) == 0;
    assert Fits(q', RuleOf(q', CFG), Start(q'), q'.waiterInfo[1]);
  }

  /** The heavier waiter is the one the caller's leaving frees. */
  lemma HeavyFreed()
    ensures var q := Queue(SHARED, CFG, LIGHT); ShareLifts(q, LIGHT) && Older(q, 1, LIGHT.me) && Freed(q, CFG, LIGHT, 1)
  {
    var q := Queue(SHARED, CFG, LIGHT);
    SharedQueue();
    assert Scan(q, RuleOf(q, CFG), []) == Start(q);
    assert !Fits(q, RuleOf(q, CFG), Start(q), q.waiterInfo[1]);
    OneTenant(DropWaiter(q, LIGHT.me), "a");
  }

  lemma SharedIsLegal()
    ensures Inv(SHARED, CFG) && Legal(SHARED, Claims(LIGHT))
  {
  }

  /** When the caller was the only other tenant in the line, its leaving lifts
      the share rule: a heavier older waiter becomes eligible and takes what a
      lighter one, eligible before, would have been given. */
  lemma OvertakenWhenShareLifts()
    ensures Inv(SHARED, CFG) && Legal(SHARED, Claims(LIGHT)) && Granted(SHARED, CFG, LIGHT)
    ensures !StillGranted(Queue(SHARED, CFG, LIGHT), CFG, LIGHT, Seat(Queue(SHARED, CFG, LIGHT), CFG, LIGHT))
  {
    SharedIsLegal();
    SharedScan();
    RefusedNow();
    assert Older(Queue(SHARED, CFG, LIGHT), 2, 3) by { SharedQueue(); }
  }
}
