/** One attempt at one level: lease a proxy, render, score it, and go round
    again while a retry budget allows. What the network, the pool, the shared
    gateway verdict and host admission answer is an arbitrary oracle. */
module FetchLoop {
  import opened Basics
  import opened Outcome
  import opened Paths

  datatype Strategy = FreeOnly | FreeFirst | PaidOnly

  datatype Params = Params(strategy: Strategy, rotations: nat, force: bool, gatewayOnly: bool, level: int)

  /** What the loop did, in order. */
  datatype Act =
    | Asked(refused: bool)
    | LeasedGateway
    | LeasedPool
    | PoolEmpty
    | Rendered(source: Source, result: Result)
    | MarkedRefused
    | Cleared
    | Scored(good: bool)

  /** Answers may change with everything done so far: they are indexed by it. */
  datatype Oracle = Oracle(
    refused: nat -> bool,
    admit: nat -> Option<Refusal>,
    pool: nat -> bool,
    fetch: nat -> Result)

  const SAME_LEVEL_RETRIES := 1

  datatype Loop = Loop(retries: nat, rotations: nat, refused: bool, bypassed: bool, log: seq<Act>)

  datatype Next = Again(loop: Loop) | Done(answer: Fetched, log: seq<Act>)

  function Start(p: Params): Loop {
    Loop(SAME_LEVEL_RETRIES, p.rotations, false, false, [])
  }

  function Ask(o: Oracle, s: Loop): Loop {
    var a := o.refused(|s.log|);
    s.(refused := a, log := s.log + [Asked(a)])
  }

  /** One pass of the loop, up to the claim on host capacity. */
  function Pass(p: Params, o: Oracle, s: Loop): Next {
    var s := if (p.force || p.strategy.PaidOnly?) && !s.refused then Ask(o, s) else s;
    if s.refused && (p.strategy.PaidOnly? || p.gatewayOnly) then
      Done(Got(Failure(p.level, ProxyAuthFailed).(source := Some(Gateway), gatewaySkipped := true)), s.log)
    else
      var s := if p.force && s.refused then s.(bypassed := true) else s;
      match o.admit(|s.log|)
      case Some(why) => Done(Stopped(why), s.log)
      case None => Lease(p, o, s)
  }

  function Lease(p: Params, o: Oracle, s: Loop): Next {
    if (p.force && !s.refused) || p.strategy.PaidOnly? then
      Render(p, o, s.(log := s.log + [LeasedGateway]), Gateway)
    else if o.pool(|s.log|) then
      Render(p, o, s.(log := s.log + [LeasedPool]), Pool)
    else
      var s := s.(log := s.log + [PoolEmpty]);
      var s := if p.strategy.FreeFirst? && !s.refused then Ask(o, s) else s;
      var s := if p.strategy.FreeFirst? && s.refused then s.(bypassed := true) else s;
      if p.strategy.FreeFirst? && !s.refused then
        Render(p, o, s.(log := s.log + [LeasedGateway]), Gateway)
      else
        Done(Got(Failure(p.level, ProxyExhausted).(gatewaySkipped := s.bypassed)), s.log)
  }

  function Render(p: Params, o: Oracle, s: Loop, from: Source): Next {
    var raw := o.fetch(|s.log|);
    var r := raw.(source := Some(from), gatewaySkipped := raw.gatewaySkipped || s.bypassed);
    Settle(p, s.(log := s.log + [Rendered(from, r)]), from, r)
  }

  /** What the gateway's answer says of our login; then the verdict. */
  function Settle(p: Params, s: Loop, from: Source, r: Result): Next {
    if from == Gateway && r.category == Some(ProxyAuthFailed) then
      var s := s.(refused := true, log := s.log + [MarkedRefused]);
      if p.strategy.FreeFirst? && !p.gatewayOnly then Again(s) else Judge(s, from, r)
    else if from == Gateway && r.success then
      Judge(s.(log := s.log + [Cleared]), from, r)
    else
      Judge(s, from, r)
  }

  /** A failure a fresh proxy may cure. */
  predicate Retryable(r: Result, from: Source) {
    r.category in {Some(BrowserCrash), Some(NetworkTimeout)} || (r.category == Some(ProxyAuthFailed) && from == Pool)
  }

  function Judge(s: Loop, from: Source, r: Result): Next {
    if LooksBlocked(r) && from == Gateway && s.rotations > 0 then
      Again(s.(rotations := s.rotations - 1))
    else
      var s := if from == Pool then s.(log := s.log + [Scored(r.success)]) else s;
      if r.success then Done(Got(r), s.log)
      else if Retryable(r, from) && s.retries > 0 then Again(s.(retries := s.retries - 1))
      else Done(Got(r), s.log)
  }

  /** Rotations left, pool retries left, and one more while the gateway is not
      known to refuse us. */
  function Fuel(s: Loop): nat {
    s.retries + s.rotations + if s.refused then 0 else 1
  }

  /** Every pass that goes round again has used something up, whatever the
      oracle: the loop ends. */
  lemma PassUsesFuel(p: Params, o: Oracle, s: Loop)
    ensures Pass(p, o, s).Again? ==> Fuel(Pass(p, o, s).loop) < Fuel(s)
  {
  }

  ghost function Drive(p: Params, o: Oracle, s: Loop): Next
    decreases Fuel(s)
    ensures Drive(p, o, s).Done?
  {
    var next := Pass(p, o, s);
    PassUsesFuel(p, o, s);
    if next.Again? then Drive(p, o, next.loop) else next
  }

  // ----- the books -----

  /** The log read back by an auditor who knows nothing of the loop: whether a
      refusal is known, a lease not yet rendered, a score still owed. */
  datatype Ledger = Ledger(
    refused: bool, leased: Option<Source>, owed: Option<bool>, ok: bool,
    renders: nat, pooled: bool, blocked: nat, curable: nat, good: nat, last: Option<Result>)

  /** A page worth having: a block counts against it only on the gateway, where
      another exit may do better. */
  predicate GoodPage(r: Result, from: Source) {
    r.success && !(from == Gateway && LooksBlocked(r))
  }

  predicate Settled(l: Ledger) {
    l.ok && l.leased.None? && l.owed.None?
  }

  /** A gateway lease is in order only while no refusal is known; a lease is
      rendered once; a pool render is scored once, with its own outcome, before
      anything else; and nothing else is ever scored. */
  function Read(l: Ledger, a: Act): Ledger {
    match a
    case Asked(no) => l.(ok := Settled(l), refused := l.refused || no)
    case LeasedGateway => l.(ok := Settled(l) && !l.refused, leased := Some(Gateway))
    case LeasedPool => l.(ok := Settled(l), leased := Some(Pool), pooled := true)
    case PoolEmpty => l.(ok := Settled(l))
    case Rendered(from, r) =>
      l.(ok := l.ok && l.leased == Some(from) && l.owed.None?, leased := None, renders := l.renders + 1,
         owed := if from == Pool then Some(r.success) else None,
         blocked := l.blocked + if from == Gateway && LooksBlocked(r) then 1 else 0,
         curable := l.curable + if Retryable(r, from) then 1 else 0,
         good := l.good + if GoodPage(r, from) then 1 else 0,
         last := Some(r))
    case MarkedRefused => l.(ok := Settled(l), refused := true)
    case Cleared => l.(ok := Settled(l))
    case Scored(good) => l.(ok := l.ok && l.leased.None? && l.owed == Some(good), owed := None)
  }

  function Audit(log: seq<Act>): Ledger {
    if log == [] then Ledger(false, None, None, true, 0, false, 0, 0, 0, None)
    else Read(Audit(log[..|log| - 1]), log[|log| - 1])
  }

  lemma AuditAdd(log: seq<Act>, a: Act)
    ensures Audit(log + [a]) == Read(Audit(log), a)
  {
    assert (log + [a])[..|log|] == log;
  }

  /** The pool is out of bounds: paid only, or a retry meant for the gateway. */
  predicate GatewayRoute(p: Params) {
    p.strategy.PaidOnly? || (p.force && p.gatewayOnly)
  }

  /** A fetch that succeeded reports no failure. */
  ghost predicate Honest(o: Oracle) {
    forall i :: o.fetch(i).success ==> o.fetch(i).category.None?
  }

  /** What holds each time round. */
  ghost predicate InOrder(p: Params, o: Oracle, s: Loop) {
    var l := Audit(s.log);
    && Settled(l) && l.refused == s.refused
    && l.renders + Fuel(s) <= p.rotations + SAME_LEVEL_RETRIES + 1
    && (GatewayRoute(p) ==> !l.pooled)
    && (Honest(o) ==> l.blocked + s.rotations == p.rotations && l.curable + s.retries == SAME_LEVEL_RETRIES && l.good == 0)
  }

  /** A failure made up without a render: the gateway refuses us, or the pool is
      empty and the gateway is no way out. */
  predicate MadeUp(p: Params, r: Result) {
    || r == Failure(p.level, ProxyAuthFailed).(source := Some(Gateway), gatewaySkipped := true)
    || r == Failure(p.level, ProxyExhausted).(gatewaySkipped := r.gatewaySkipped)
  }

  /** What holds when the loop has ended with result `r`. */
  ghost predicate Closed(p: Params, o: Oracle, next: Next) {
    var l := Audit(LogOf(next));
    && Settled(l) && l.renders <= p.rotations + 3
    && (GatewayRoute(p) ==> !l.pooled)
    && (next.Done? && next.answer.Got? ==> Answered(p, o, l, next.answer.result))
  }

  /** The answer is the last render's, or made up; a good page is never dropped;
      a blocked gateway page comes back only when every rotation is spent, and a
      curable failure only when every retry is. */
  ghost predicate Answered(p: Params, o: Oracle, l: Ledger, r: Result) {
    && (l.last == Some(r) || MadeUp(p, r))
    && (Honest(o) ==>
          && (l.good > 0 ==> l.good == 1 && l.last == Some(r))
          && (l.last == Some(r) && r.source == Some(Gateway) && LooksBlocked(r) ==> l.blocked == p.rotations + 1)
          && (l.last == Some(r) && r.source.Some? && Retryable(r, r.source.value) ==> l.curable == SAME_LEVEL_RETRIES + 1))
  }

  function LogOf(next: Next): seq<Act> {
    match next case Again(s) => s.log case Done(_, log) => log
  }

  ghost predicate Sound(p: Params, o: Oracle, next: Next) {
    match next case Again(s) => InOrder(p, o, s) case Done(_, _) => Closed(p, o, next)
  }

  lemma AskInOrder(p: Params, o: Oracle, s: Loop)
    requires InOrder(p, o, s) && !s.refused
    ensures InOrder(p, o, Ask(o, s))
  {
    AuditAdd(s.log, Asked(o.refused(|s.log|)));
  }

  /** The books right after result `r` of a lease from `from`. */
  ghost predicate JustRendered(p: Params, o: Oracle, s: Loop, from: Source, r: Result) {
    Standing(p, o, s, from, r, if from == Pool then Some(r.success) else None)
  }

  /** The same, with `owed` the score still to be given. */
  ghost predicate Standing(p: Params, o: Oracle, s: Loop, from: Source, r: Result, owed: Option<bool>) {
    var l := Audit(s.log);
    && l.ok && l.leased.None? && l.owed == owed
    && l.refused == s.refused && l.last == Some(r) && r.source == Some(from)
    && l.renders + Fuel(s) <= p.rotations + SAME_LEVEL_RETRIES + 2
    && (GatewayRoute(p) ==> !l.pooled)
    && (Honest(o) ==>
          && (r.success ==> r.category.None?)
          && l.blocked + s.rotations == p.rotations + (if from == Gateway && LooksBlocked(r) then 1 else 0)
          && l.curable + s.retries == SAME_LEVEL_RETRIES + (if Retryable(r, from) then 1 else 0)
          && l.good == if GoodPage(r, from) then 1 else 0)
  }

  lemma RotateSound(p: Params, o: Oracle, s: Loop, r: Result)
    requires JustRendered(p, o, s, Gateway, r) && LooksBlocked(r) && s.rotations > 0
    ensures InOrder(p, o, s.(rotations := s.rotations - 1))
  {
  }

  lemma DoneSound(p: Params, o: Oracle, s: Loop, from: Source, r: Result)
    requires Standing(p, o, s, from, r, None)
    requires LooksBlocked(r) && from == Gateway ==> s.rotations == 0
    requires Retryable(r, from) && !r.success ==> s.retries == 0
    ensures Closed(p, o, Done(Got(r), s.log))
  {
  }

  lemma RetrySound(p: Params, o: Oracle, s: Loop, from: Source, r: Result)
    requires Standing(p, o, s, from, r, None) && !r.success && Retryable(r, from) && s.retries > 0
    ensures InOrder(p, o, s.(retries := s.retries - 1))
  {
  }

  lemma JudgeSound(p: Params, o: Oracle, s: Loop, from: Source, r: Result)
    requires JustRendered(p, o, s, from, r)
    ensures Sound(p, o, Judge(s, from, r))
  {
    if LooksBlocked(r) && from == Gateway && s.rotations > 0 {
      RotateSound(p, o, s, r);
    } else {
      AuditAdd(s.log, Scored(r.success));
      var t := if from == Pool then s.(log := s.log + [Scored(r.success)]) else s;
      if !r.success && Retryable(r, from) && t.retries > 0 {
        RetrySound(p, o, t, from, r);
        assert Judge(s, from, r) == Again(t.(retries := t.retries - 1));
      } else {
        DoneSound(p, o, t, from, r);
        assert Judge(s, from, r) == Done(Got(r), t.log);
      }
    }
  }

  function LeaseAct(from: Source): Act {
    if from == Gateway then LeasedGateway else LeasedPool
  }

  lemma RenderBooks(p: Params, o: Oracle, s: Loop, from: Source, r: Result)
    requires InOrder(p, o, s) && (from == Gateway ==> !s.refused) && (from == Pool ==> !GatewayRoute(p))
    requires r.source == Some(from) && (Honest(o) && r.success ==> r.category.None?)
    ensures JustRendered(p, o, s.(log := s.log + [LeaseAct(from)] + [Rendered(from, r)]), from, r)
  {
    AuditAdd(s.log, LeaseAct(from));
    AuditAdd(s.log + [LeaseAct(from)], Rendered(from, r));
  }

  lemma RenderSound(p: Params, o: Oracle, s: Loop, from: Source)
    requires InOrder(p, o, s) && (from == Gateway ==> !s.refused) && (from == Pool ==> !GatewayRoute(p))
    ensures Sound(p, o, Render(p, o, s.(log := s.log + [LeaseAct(from)]), from))
  {
    var leased := s.log + [LeaseAct(from)];
    var raw := o.fetch(|leased|);
    var r := raw.(source := Some(from), gatewaySkipped := raw.gatewaySkipped || s.bypassed);
    RenderBooks(p, o, s, from, r);
    AfterRender(p, o, s.(log := leased + [Rendered(from, r)]), from, r);
  }

  lemma AfterRender(p: Params, o: Oracle, s: Loop, from: Source, r: Result)
    requires JustRendered(p, o, s, from, r) && (from == Gateway ==> !s.refused)
    ensures Sound(p, o, Settle(p, s, from, r))
  {
    if from == Gateway && r.category == Some(ProxyAuthFailed) {
      AuditAdd(s.log, MarkedRefused);
      JudgeSound(p, o, s.(refused := true, log := s.log + [MarkedRefused]), from, r);
    } else if from == Gateway && r.success {
      AuditAdd(s.log, Cleared);
      JudgeSound(p, o, s.(log := s.log + [Cleared]), from, r);
    } else {
      JudgeSound(p, o, s, from, r);
    }
  }

  lemma LeaseSound(p: Params, o: Oracle, s: Loop)
    requires InOrder(p, o, s) && (s.refused ==> !GatewayRoute(p))
    ensures Sound(p, o, Lease(p, o, s))
  {
    if (p.force && !s.refused) || p.strategy.PaidOnly? {
      RenderSound(p, o, s, Gateway);
    } else if o.pool(|s.log|) {
      RenderSound(p, o, s, Pool);
    } else {
      AuditAdd(s.log, PoolEmpty);
      var s := s.(log := s.log + [PoolEmpty]);
      if p.strategy.FreeFirst? {
        if !s.refused { AskInOrder(p, o, s); }
        var s := if !s.refused then Ask(o, s) else s;
        if !s.refused { RenderSound(p, o, s, Gateway); }
      }
    }
  }

  lemma PassSound(p: Params, o: Oracle, s: Loop)
    requires InOrder(p, o, s)
    ensures Sound(p, o, Pass(p, o, s))
  {
    var asks := (p.force || p.strategy.PaidOnly?) && !s.refused;
    if asks { AskInOrder(p, o, s); }
    var s1 := if asks then Ask(o, s) else s;
    if !(s1.refused && (p.strategy.PaidOnly? || p.gatewayOnly)) {
      var s2 := if p.force && s1.refused then s1.(bypassed := true) else s1;
      if o.admit(|s2.log|).None? { LeaseSound(p, o, s2); }
    }
  }

  lemma {:induction false} DriveSound(p: Params, o: Oracle, s: Loop)
    requires InOrder(p, o, s)
    ensures Closed(p, o, Drive(p, o, s))
    decreases Fuel(s)
  {
    PassSound(p, o, s);
    PassUsesFuel(p, o, s);
    if Pass(p, o, s).Again? { DriveSound(p, o, Pass(p, o, s).loop); }
  }

  /** For every oracle: the books balance (no gateway lease after a refusal,
      each pool lease rendered and scored once, gateway leases never scored),
      at most rotations + 3 renders, no pool lease on a gateway-only route, and
      the right answer comes back. */
  lemma FetchSound(p: Params, o: Oracle)
    ensures Closed(p, o, Drive(p, o, Start(p)))
  {
    DriveSound(p, o, Start(p));
  }

  // ----- the rules, act by act -----

  /** What the log so far calls for: one more act, or the answer. */
  datatype Due = Do(act: Act) | Reply(answer: Fetched)

  /** The gateway is known to refuse our login. */
  predicate Known(log: seq<Act>) {
    Asked(true) in log || MarkedRefused in log
  }

  predicate BlockPage(r: Result) {
    r.category in {Some(DetectionBlock), Some(RateLimited)} || (r.success && r.page.challenge)
  }

  /** A failure that a fresh proxy may cure: a crash, a timeout, or a pool proxy that
      refuses our credentials. */
  predicate Curable(from: Source, r: Result) {
    && !r.success
    && (r.category in {Some(BrowserCrash), Some(NetworkTimeout)} || (from == Pool && r.category == Some(ProxyAuthFailed)))
  }

  /** The gateway refused our login where the pool is a way on. */
  predicate FallsBack(p: Params, from: Source, r: Result) {
    from == Gateway && r.category == Some(ProxyAuthFailed) && p.strategy.FreeFirst? && !p.gatewayOnly
  }

  /** Gateway answers that the site blocked. */
  function Blocks(p: Params, log: seq<Act>): nat {
    if log == [] then 0 else
    var a := log[|log| - 1];
    Blocks(p, log[..|log| - 1])
      + if a.Rendered? && a.source == Gateway && BlockPage(a.result) && !FallsBack(p, Gateway, a.result) then 1 else 0
  }

  function Cures(log: seq<Act>): nat {
    if log == [] then 0 else
    var a := log[|log| - 1];
    Cures(log[..|log| - 1]) + if a.Rendered? && Curable(a.source, a.result) then 1 else 0
  }

  /** A pass begins: ask about the gateway where it is wanted and not known to refuse. */
  function Begin(p: Params, o: Oracle, log: seq<Act>): Due {
    if (p.force || p.strategy.PaidOnly?) && !Known(log) then Do(Asked(o.refused(|log|))) else Route(p, o, log)
  }

  /** No way but the gateway, and it refuses: say so. Else claim capacity; then the
      gateway where it is wanted, and the pool where it is not. */
  function Route(p: Params, o: Oracle, log: seq<Act>): Due {
    if Known(log) && (p.strategy.PaidOnly? || p.gatewayOnly) then
      Reply(Got(Result(false, p.level, Some(ProxyAuthFailed), None, Some(Gateway), None, true, false, Page(false, false, false))))
    else if o.admit(|log|).Some? then Reply(Stopped(o.admit(|log|).value))
    else if p.strategy.PaidOnly? || (p.force && !Known(log)) then Do(LeasedGateway)
    else if o.pool(|log|) then Do(LeasedPool)
    else Do(PoolEmpty)
  }

  /** The pool is empty and the gateway no way out. */
  function NoProxy(p: Params, log: seq<Act>): Due {
    Reply(Got(Result(false, p.level, Some(Category.ProxyExhausted), None, None, None,
                     Known(log) && (p.force || p.strategy.FreeFirst?), false, Page(false, false, false))))
  }

  function Answer(p: Params, o: Oracle, log: seq<Act>, from: Source): Due {
    var raw := o.fetch(|log|);
    Do(Rendered(from, raw.(source := Some(from), gatewaySkipped := raw.gatewaySkipped || (p.force && Known(log)))))
  }

  /** A block from the gateway is worth another exit while rotations last, and a
      curable failure one more proxy; anything else is the answer. */
  function Verdict(p: Params, o: Oracle, log: seq<Act>, from: Source, r: Result): Due {
    if from == Gateway && BlockPage(r) && Blocks(p, log) <= p.rotations then Begin(p, o, log)
    else if Curable(from, r) && Cures(log) <= 1 then Begin(p, o, log)
    else Reply(Got(r))
  }

  /** The act before the last, when it is a render. */
  predicate AfterRenderAct(log: seq<Act>) {
    |log| >= 2 && log[|log| - 2].Rendered?
  }

  function DueAfter(p: Params, o: Oracle, log: seq<Act>): Due
    requires AfterRenderAct(log)
  {
    Verdict(p, o, log, log[|log| - 2].source, log[|log| - 2].result)
  }

  /** What is due, told from the last act and the answers at its place. */
  function DueNext(p: Params, o: Oracle, log: seq<Act>): Due {
    if log == [] then Begin(p, o, log) else
    match log[|log| - 1]
    case Asked(no) =>
      if |log| >= 2 && log[|log| - 2] == PoolEmpty then (if no then NoProxy(p, log) else Do(LeasedGateway))
      else Route(p, o, log)
    case PoolEmpty => if p.strategy.FreeFirst? && !Known(log) then Do(Asked(o.refused(|log|))) else NoProxy(p, log)
    case LeasedGateway => Answer(p, o, log, Gateway)
    case LeasedPool => Answer(p, o, log, Pool)
    case Rendered(from, r) =>
      if from == Pool then Do(Scored(r.success))
      else if r.category == Some(ProxyAuthFailed) then Do(MarkedRefused)
      else if r.success then Do(Cleared)
      else Verdict(p, o, log, from, r)
    case MarkedRefused =>
      if AfterRenderAct(log) && !FallsBack(p, log[|log| - 2].source, log[|log| - 2].result) then DueAfter(p, o, log) else Begin(p, o, log)
    case Cleared => if AfterRenderAct(log) then DueAfter(p, o, log) else Begin(p, o, log)
    case Scored(_) => if AfterRenderAct(log) then DueAfter(p, o, log) else Begin(p, o, log)
  }

  /** Every act was due when it came. */
  ghost predicate Lawful(p: Params, o: Oracle, log: seq<Act>) {
    log == [] || (Lawful(p, o, log[..|log| - 1]) && DueNext(p, o, log[..|log| - 1]) == Do(log[|log| - 1]))
  }

  /** At the start of a pass, with what the loop remembers as the log has it. */
  ghost predicate AtStart(p: Params, o: Oracle, s: Loop) {
    && Lawful(p, o, s.log) && DueNext(p, o, s.log) == Begin(p, o, s.log)
    && (s.log != [] ==> s.log[|s.log| - 1] != PoolEmpty)
    && Remembers(p, s)
  }

  ghost predicate Remembers(p: Params, s: Loop) {
    && s.refused == Known(s.log) && (s.bypassed ==> p.force && s.refused)
    && s.rotations + Blocks(p, s.log) == p.rotations && s.retries + Cures(s.log) == SAME_LEVEL_RETRIES
  }

  ghost predicate Ruled(p: Params, o: Oracle, next: Next) {
    match next
    case Again(s) => AtStart(p, o, s)
    case Done(answer, log) => Lawful(p, o, log) && DueNext(p, o, log) == Reply(answer)
  }

  lemma LawAdd(p: Params, o: Oracle, log: seq<Act>, a: Act)
    requires Lawful(p, o, log) && DueNext(p, o, log) == Do(a)
    ensures Lawful(p, o, log + [a])
    ensures Known(log + [a]) == (Known(log) || a == Asked(true) || a == MarkedRefused)
    ensures !a.Rendered? ==> Blocks(p, log + [a]) == Blocks(p, log) && Cures(log + [a]) == Cures(log)
  {
    assert (log + [a])[..|log|] == log;
  }

  lemma PassRules(p: Params, o: Oracle, s: Loop)
    requires AtStart(p, o, s)
    ensures Ruled(p, o, Pass(p, o, s))
  {
    PassIs(p, o, s);
    if (p.force || p.strategy.PaidOnly?) && !s.refused {
      LawAdd(p, o, s.log, Asked(o.refused(|s.log|)));
      AskedDue(p, o, s.log, o.refused(|s.log|));
      RouteRules(p, o, Ask(o, s));
    } else {
      RouteRules(p, o, s);
    }
  }

  lemma AskedDue(p: Params, o: Oracle, log: seq<Act>, no: bool)
    requires log != [] ==> log[|log| - 1] != PoolEmpty
    ensures DueNext(p, o, log + [Asked(no)]) == Route(p, o, log + [Asked(no)])
  {
    if log != [] { assert (log + [Asked(no)])[|log| - 1] == log[|log| - 1]; }
  }

  lemma PassIs(p: Params, o: Oracle, s: Loop)
    ensures Pass(p, o, s) == Routed(p, o, if (p.force || p.strategy.PaidOnly?) && !s.refused then Ask(o, s) else s)
  {
  }

  /** The pass from the point where the gateway's standing is known. */
  lemma RouteRules(p: Params, o: Oracle, s: Loop)
    requires Lawful(p, o, s.log) && DueNext(p, o, s.log) == Route(p, o, s.log) && Remembers(p, s)
    ensures Ruled(p, o, Routed(p, o, s))
  {
    var t := if p.force && s.refused then s.(bypassed := true) else s;
    if !(s.refused && (p.strategy.PaidOnly? || p.gatewayOnly)) && o.admit(|s.log|).None? { LeaseRules(p, o, t); }
  }

  function Routed(p: Params, o: Oracle, s: Loop): Next {
    if s.refused && (p.strategy.PaidOnly? || p.gatewayOnly) then
      Done(Got(Failure(p.level, ProxyAuthFailed).(source := Some(Gateway), gatewaySkipped := true)), s.log)
    else
      var s := if p.force && s.refused then s.(bypassed := true) else s;
      match o.admit(|s.log|)
      case Some(why) => Done(Stopped(why), s.log)
      case None => Lease(p, o, s)
  }

  lemma LeaseRules(p: Params, o: Oracle, s: Loop)
    requires Lawful(p, o, s.log) && Remembers(p, s) && (p.force && s.refused ==> s.bypassed)
    requires DueNext(p, o, s.log) == Route(p, o, s.log) && o.admit(|s.log|).None?
    requires !(s.refused && (p.strategy.PaidOnly? || p.gatewayOnly))
    ensures Ruled(p, o, Lease(p, o, s))
  {
    LeaseIs(p, o, s);
    RouteDue(p, o, s.log);
    if (p.force && !s.refused) || p.strategy.PaidOnly? {
      LeasedRules(p, o, s, Gateway);
    } else if o.pool(|s.log|) {
      LeasedRules(p, o, s, Pool);
    } else {
      NoLeaseRules(p, o, s);
    }
  }

  lemma RouteDue(p: Params, o: Oracle, log: seq<Act>)
    requires o.admit(|log|).None? && !(Known(log) && (p.strategy.PaidOnly? || p.gatewayOnly))
    ensures Route(p, o, log) == Do(if p.strategy.PaidOnly? || (p.force && !Known(log)) then LeasedGateway else if o.pool(|log|) then LeasedPool else PoolEmpty)
  {
  }

  lemma NoLeaseRules(p: Params, o: Oracle, s: Loop)
    requires Lawful(p, o, s.log) && Remembers(p, s) && (p.force ==> s.bypassed) && DueNext(p, o, s.log) == Do(PoolEmpty)
    ensures Ruled(p, o, Emptied(p, o, s.(log := s.log + [PoolEmpty])))
  {
    LawAdd(p, o, s.log, PoolEmpty);
    EmptyRules(p, o, s.(log := s.log + [PoolEmpty]));
  }

  lemma LeaseIs(p: Params, o: Oracle, s: Loop)
    ensures Lease(p, o, s) ==
      if (p.force && !s.refused) || p.strategy.PaidOnly? then Render(p, o, s.(log := s.log + [LeaseAct(Gateway)]), Gateway)
      else if o.pool(|s.log|) then Render(p, o, s.(log := s.log + [LeaseAct(Pool)]), Pool)
      else Emptied(p, o, s.(log := s.log + [PoolEmpty]))
  {
  }

  lemma LeasedRules(p: Params, o: Oracle, s: Loop, from: Source)
    requires Lawful(p, o, s.log) && Remembers(p, s) && (p.force && s.refused ==> s.bypassed)
    requires DueNext(p, o, s.log) == Do(LeaseAct(from))
    ensures Ruled(p, o, Render(p, o, s.(log := s.log + [LeaseAct(from)]), from))
  {
    LawAdd(p, o, s.log, LeaseAct(from));
    RenderRules(p, o, s.(log := s.log + [LeaseAct(from)]), from);
  }

  lemma EmptyRules(p: Params, o: Oracle, s: Loop)
    requires Lawful(p, o, s.log) && Remembers(p, s) && (p.force ==> s.bypassed) && s.log != [] && s.log[|s.log| - 1] == PoolEmpty
    ensures Ruled(p, o, Emptied(p, o, s))
  {
    if p.strategy.FreeFirst? && !s.refused {
      LawAdd(p, o, s.log, Asked(o.refused(|s.log|)));
      var t := Ask(o, s);
      if !t.refused {
        LawAdd(p, o, t.log, LeasedGateway);
        RenderRules(p, o, t.(log := t.log + [LeasedGateway]), Gateway);
      }
    }
  }

  /** The pass from an empty pool on. */
  function Emptied(p: Params, o: Oracle, s: Loop): Next {
    var s := if p.strategy.FreeFirst? && !s.refused then Ask(o, s) else s;
    var s := if p.strategy.FreeFirst? && s.refused then s.(bypassed := true) else s;
    if p.strategy.FreeFirst? && !s.refused then
      Render(p, o, s.(log := s.log + [LeasedGateway]), Gateway)
    else
      Done(Got(Failure(p.level, ProxyExhausted).(gatewaySkipped := s.bypassed)), s.log)
  }

  lemma RenderRules(p: Params, o: Oracle, s: Loop, from: Source)
    requires Lawful(p, o, s.log) && Remembers(p, s) && (p.force && s.refused ==> s.bypassed) && s.log != []
    requires s.log[|s.log| - 1] == LeaseAct(from)
    ensures Ruled(p, o, Render(p, o, s, from))
  {
    var raw := o.fetch(|s.log|);
    var r := raw.(source := Some(from), gatewaySkipped := raw.gatewaySkipped || s.bypassed);
    LawAdd(p, o, s.log, Rendered(from, r));
    CountsAdd(p, s.log, from, r);
    SettleRules(p, o, s.(log := s.log + [Rendered(from, r)]), from, r);
  }

  lemma CountsAdd(p: Params, log: seq<Act>, from: Source, r: Result)
    ensures Blocks(p, log + [Rendered(from, r)]) == Blocks(p, log) + if from == Gateway && BlockPage(r) && !FallsBack(p, from, r) then 1 else 0
    ensures Cures(log + [Rendered(from, r)]) == Cures(log) + if Curable(from, r) then 1 else 0
  {
    assert (log + [Rendered(from, r)])[..|log|] == log;
  }

  /** What the loop remembers, but for the answer just in, `r`. */
  ghost predicate RemembersBut(p: Params, s: Loop, from: Source, r: Result) {
    && s.refused == Known(s.log) && (s.bypassed ==> p.force && s.refused)
    && s.rotations + Blocks(p, s.log) == p.rotations + (if from == Gateway && BlockPage(r) && !FallsBack(p, from, r) then 1 else 0)
    && s.retries + Cures(s.log) == SAME_LEVEL_RETRIES + (if Curable(from, r) then 1 else 0)
  }

  lemma SettleRules(p: Params, o: Oracle, s: Loop, from: Source, r: Result)
    requires Lawful(p, o, s.log) && RemembersBut(p, s, from, r) && s.log != [] && s.log[|s.log| - 1] == Rendered(from, r)
    ensures Ruled(p, o, Settle(p, s, from, r))
  {
    SettleIs(p, s, from, r);
    if from == Pool {
      ScoreRules(p, o, s, r);
    } else if r.category == Some(ProxyAuthFailed) {
      MarkRules(p, o, s, r);
    } else if r.success {
      ClearRules(p, o, s, r);
    } else {
      JudgeRules(p, o, s, from, r);
    }
  }

  lemma SettleIs(p: Params, s: Loop, from: Source, r: Result)
    ensures Settle(p, s, from, r) ==
      if from == Pool then Judge(s, from, r)
      else if r.category == Some(ProxyAuthFailed) then
        if FallsBack(p, from, r) then Again(s.(refused := true, log := s.log + [MarkedRefused]))
        else Judge(s.(refused := true, log := s.log + [MarkedRefused]), from, r)
      else Judge(if r.success then s.(log := s.log + [Cleared]) else s, from, r)
  {
  }

  lemma MarkRules(p: Params, o: Oracle, s: Loop, r: Result)
    requires Lawful(p, o, s.log) && RemembersBut(p, s, Gateway, r) && s.log != [] && s.log[|s.log| - 1] == Rendered(Gateway, r)
    requires r.category == Some(ProxyAuthFailed)
    ensures var t := s.(refused := true, log := s.log + [MarkedRefused]);
      Ruled(p, o, if FallsBack(p, Gateway, r) then Again(t) else Judge(t, Gateway, r))
  {
    LawAdd(p, o, s.log, MarkedRefused);
    MarkedDue(p, o, s.log, r);
    var t := s.(refused := true, log := s.log + [MarkedRefused]);
    if !FallsBack(p, Gateway, r) { JudgeRules(p, o, t, Gateway, r); }
  }

  /** What is due once the gateway's answer has told on our login. */
  lemma MarkedDue(p: Params, o: Oracle, log: seq<Act>, r: Result)
    requires log != [] && log[|log| - 1] == Rendered(Gateway, r)
    ensures var a := log + [MarkedRefused];
      DueNext(p, o, a) == if FallsBack(p, Gateway, r) then Begin(p, o, a) else Verdict(p, o, a, Gateway, r)
    ensures var a := log + [Cleared]; DueNext(p, o, a) == Verdict(p, o, a, Gateway, r)
  {
    assert (log + [MarkedRefused])[|log| - 1] == Rendered(Gateway, r) && (log + [Cleared])[|log| - 1] == Rendered(Gateway, r);
  }

  lemma ClearRules(p: Params, o: Oracle, s: Loop, r: Result)
    requires Lawful(p, o, s.log) && RemembersBut(p, s, Gateway, r) && s.log != [] && s.log[|s.log| - 1] == Rendered(Gateway, r)
    requires r.category != Some(ProxyAuthFailed) && r.success
    ensures Ruled(p, o, Judge(s.(log := s.log + [Cleared]), Gateway, r))
  {
    LawAdd(p, o, s.log, Cleared);
    MarkedDue(p, o, s.log, r);
    var t := s.(log := s.log + [Cleared]);
    JudgeRules(p, o, t, Gateway, r);
  }

  lemma JudgeRules(p: Params, o: Oracle, s: Loop, from: Source, r: Result)
    requires Lawful(p, o, s.log) && RemembersBut(p, s, from, r) && from == Gateway && !FallsBack(p, from, r)
    requires s.log != [] && s.log[|s.log| - 1] != PoolEmpty && DueNext(p, o, s.log) == Verdict(p, o, s.log, from, r)
    ensures Ruled(p, o, Judge(s, from, r))
  {
  }

  lemma ScoreRules(p: Params, o: Oracle, s: Loop, r: Result)
    requires Lawful(p, o, s.log) && RemembersBut(p, s, Pool, r) && s.log != [] && s.log[|s.log| - 1] == Rendered(Pool, r)
    ensures Ruled(p, o, Judge(s, Pool, r))
  {
    LawAdd(p, o, s.log, Scored(r.success));
    var log := s.log + [Scored(r.success)];
    assert log[|log| - 2] == Rendered(Pool, r);
    JudgeIs(s, r);
  }

  lemma JudgeIs(s: Loop, r: Result)
    ensures var t := s.(log := s.log + [Scored(r.success)]);
      Judge(s, Pool, r) == if Curable(Pool, r) && s.retries > 0 then Again(t.(retries := s.retries - 1)) else Done(Got(r), t.log)
  {
  }

  lemma {:induction false} DriveRules(p: Params, o: Oracle, s: Loop)
    requires AtStart(p, o, s)
    ensures Ruled(p, o, Drive(p, o, s))
    decreases Fuel(s)
  {
    PassRules(p, o, s);
    PassUsesFuel(p, o, s);
    if Pass(p, o, s).Again? { DriveRules(p, o, Pass(p, o, s).loop); }
  }

  /** For every oracle the loop does, act by act, what the rules call for, and answers
      when and what they say. */
  lemma FetchByRules(p: Params, o: Oracle)
    ensures Ruled(p, o, Drive(p, o, Start(p)))
  {
    DriveRules(p, o, Start(p));
  }

  /** The rules leave no choice: whoever keeps them does and answers the same. */
  lemma OnlyOneWay(p: Params, o: Oracle, log: seq<Act>, answer: Fetched)
    requires Lawful(p, o, log) && DueNext(p, o, log) == Reply(answer)
    ensures Drive(p, o, Start(p)) == Done(answer, log)
  {
    FetchByRules(p, o);
    var d := Drive(p, o, Start(p));
    LawFollows(p, o, log);
    LawFollows(p, o, d.log);
    OneLog(l => ActDue(p, o, l), log, d.log);
  }

  function ActDue(p: Params, o: Oracle, log: seq<Act>): Option<Act> {
    if DueNext(p, o, log).Do? then Some(DueNext(p, o, log).act) else None
  }

  lemma LawFollows(p: Params, o: Oracle, log: seq<Act>)
    requires Lawful(p, o, log)
    ensures Follows((l: seq<Act>) => ActDue(p, o, l), log)
  {
    forall i | 0 <= i < |log| ensures ActDue(p, o, log[..i]) == Some(log[i]) { DueAt(p, o, log, i); }
  }

  lemma {:induction false} DueAt(p: Params, o: Oracle, log: seq<Act>, i: nat)
    requires Lawful(p, o, log) && i < |log|
    ensures DueNext(p, o, log[..i]) == Do(log[i])
    decreases |log|
  {
    if i < |log| - 1 {
      DueAt(p, o, log[..|log| - 1], i);
      assert log[..|log| - 1][..i] == log[..i];
    }
  }

  /** A lease, or an empty pool, has its reason: the gateway only while no refusal is
      known, and where it is wanted or the pool has just been found empty. */
  ghost predicate Rightful(p: Params, o: Oracle, log: seq<Act>, i: nat)
    requires i < |log|
  {
    match log[i]
    case LeasedGateway =>
      && !Known(log[..i])
      && (p.force || p.strategy.PaidOnly? || (p.strategy.FreeFirst? && i >= 2 && log[i - 2] == PoolEmpty && !o.pool(i - 2)))
    case LeasedPool => o.pool(i) && o.admit(i).None? && !p.strategy.PaidOnly? && (p.force ==> Known(log[..i]))
    case PoolEmpty => !o.pool(i) && o.admit(i).None?
    case _ => true
  }

  lemma LeaseRightful(p: Params, o: Oracle, log: seq<Act>, i: nat)
    requires Lawful(p, o, log) && i < |log|
    ensures Rightful(p, o, log, i)
  {
    DueAt(p, o, log, i);
    if log[i] == PoolEmpty {
      EmptyTold(p, o, log[..i]);
    } else if log[i] == LeasedPool {
      PoolTold(p, o, log[..i]);
    } else if log[i] == LeasedGateway {
      GatewayTold(p, o, log[..i]);
      if i >= 2 && log[i - 1] == Asked(false) && log[i - 2] == PoolEmpty { AskedAfterEmpty(p, o, log, i - 1); }
    }
  }

  lemma PoolTold(p: Params, o: Oracle, log: seq<Act>)
    requires DueNext(p, o, log) == Do(LeasedPool)
    ensures o.pool(|log|) && o.admit(|log|).None? && !p.strategy.PaidOnly? && (p.force ==> Known(log))
  {
  }

  lemma GatewayTold(p: Params, o: Oracle, log: seq<Act>)
    requires DueNext(p, o, log) == Do(LeasedGateway)
    ensures (|log| >= 2 && log[|log| - 1] == Asked(false) && log[|log| - 2] == PoolEmpty) || (!Known(log) && (p.force || p.strategy.PaidOnly?))
  {
  }

  /** A question asked after an empty pool was asked under free first, with nothing
      known of a refusal. */
  lemma AskedAfterEmpty(p: Params, o: Oracle, log: seq<Act>, i: nat)
    requires Lawful(p, o, log) && 0 < i < |log| && log[i].Asked? && log[i - 1] == PoolEmpty
    ensures p.strategy.FreeFirst? && !Known(log[..i]) && !o.pool(i - 1) && Known(log[..i + 1]) == (log[i] == Asked(true))
  {
    DueAt(p, o, log, i);
    DueAt(p, o, log, i - 1);
    assert log[..i][i - 1] == PoolEmpty;
    assert log[..i + 1] == log[..i] + [log[i]];
    EmptyTold(p, o, log[..i - 1]);
  }

  lemma EmptyTold(p: Params, o: Oracle, log: seq<Act>)
    requires DueNext(p, o, log) == Do(PoolEmpty)
    ensures !o.pool(|log|) && o.admit(|log|).None?
  {
  }

  /** Why `r` is the answer: it was rendered last; or the pool was just found empty, and
      under free first the gateway refuses too; or the gateway is the only way and it
      refuses. */
  ghost predicate Reason(p: Params, o: Oracle, log: seq<Act>, r: Result) {
    var n := |log|;
    || (n >= 1 && log[n - 1].Rendered? && log[n - 1].result == r)
    || (n >= 2 && log[n - 2].Rendered? && log[n - 2].result == r)
    || (r.category == Some(Category.ProxyExhausted) && n >= 1 && log[n - 1] == PoolEmpty && !o.pool(n - 1)
        && (p.strategy.FreeFirst? ==> Known(log)))
    || (r.category == Some(Category.ProxyExhausted) && n >= 2 && log[n - 1] == Asked(true) && log[n - 2] == PoolEmpty && !o.pool(n - 2))
    || (r.category == Some(ProxyAuthFailed) && Known(log) && (p.strategy.PaidOnly? || p.gatewayOnly))
  }

  lemma AnswerReason(p: Params, o: Oracle, log: seq<Act>, r: Result)
    requires Lawful(p, o, log) && DueNext(p, o, log) == Reply(Got(r))
    ensures Reason(p, o, log, r)
  {
    var n := |log|;
    if n >= 1 && log[n - 1] == PoolEmpty {
      DueAt(p, o, log, n - 1);
      EmptyTold(p, o, log[..n - 1]);
    } else if n >= 2 && log[n - 1].Asked? && log[n - 2] == PoolEmpty {
      AskedAfterEmpty(p, o, log, n - 1);
    }
  }

  /** Read off the log: every lease has its reason, and so has the answer. In
      particular nothing is made up while a way on is open. */
  lemma Justified(p: Params, o: Oracle)
    ensures var d := Drive(p, o, Start(p));
      && (forall i :: 0 <= i < |d.log| ==> Rightful(p, o, d.log, i))
      && (d.answer.Got? ==> Reason(p, o, d.log, d.answer.result))
  {
    FetchByRules(p, o);
    var d := Drive(p, o, Start(p));
    forall i | 0 <= i < |d.log| ensures Rightful(p, o, d.log, i) { LeaseRightful(p, o, d.log, i); }
    if d.answer.Got? { AnswerReason(p, o, d.log, d.answer.result); }
  }

  /** The loop as it runs. */
  method FetchWithProxy(p: Params, o: Oracle) returns (answer: Fetched, log: seq<Act>)
    ensures Done(answer, log) == Drive(p, o, Start(p))
    ensures Closed(p, o, Done(answer, log)) && Lawful(p, o, log) && DueNext(p, o, log) == Reply(answer)
  {
    FetchSound(p, o);
    FetchByRules(p, o);
    var s := Start(p);
    while true
      invariant Drive(p, o, s) == Drive(p, o, Start(p))
      decreases Fuel(s)
    {
      var next := Pass(p, o, s);
      PassUsesFuel(p, o, s);
      match next
      case Done(a, l) => return a, l;
      case Again(s') => s := s';
    }
  }

  // ----- the bound is reached -----

  const BLOCKED := Failure(2, DetectionBlock)
  const CRASHED := Failure(2, BrowserCrash)
  const REFUSED := Failure(2, ProxyAuthFailed)
  const PAGE := Result(true, 2, None, Some(200), None, None, false, false, Page(false, false, true))

  /** The gateway blocks until every rotation is spent, then crashes, then
      refuses our login; then the pool serves the page. */
  function Unlucky(rotations: nat): Oracle {
    Oracle(_ => false, _ => None, _ => true,
      i => if i < 3 * rotations then BLOCKED
           else if i < 3 * rotations + 3 then CRASHED
           else if i < 3 * rotations + 6 then REFUSED
           else PAGE)
  }

  function Forced(rotations: nat): Params {
    Params(FreeFirst, rotations, true, false, 2)
  }

  /** A gateway pass that goes round again: asked, leased, rendered. */
  lemma GatewayPass(n: nat, s: Loop)
    requires !s.refused && !s.bypassed && |s.log| % 3 == 0 && |s.log| < 3 * n + 6
    ensures var r := GatewaySays(n, |s.log|).(source := Some(Gateway));
      var log := s.log + [Asked(false)] + [LeasedGateway] + [Rendered(Gateway, r)];
      && Audit(log).renders == Audit(s.log).renders + 1 && |log| == |s.log| + 3
      && Pass(Forced(n), Unlucky(n), s) == (
           if |s.log| < 3 * n + 3 then Judge(s.(log := log), Gateway, r)
           else Again(s.(refused := true, log := log + [MarkedRefused])))
  {
    var r := GatewaySays(n, |s.log|).(source := Some(Gateway));
    var leased := s.(log := s.log + [Asked(false)] + [LeasedGateway]);
    AuditThree(s.log, Asked(false), LeasedGateway, Rendered(Gateway, r));
    ForcedPass(n, s);
    UnluckySays(n, |s.log|);
    GatewayRender(n, leased);
  }

  lemma AuditThree(log: seq<Act>, a: Act, b: Act, c: Act)
    ensures Audit(log + [a] + [b] + [c]) == Read(Read(Read(Audit(log), a), b), c)
  {
    AuditAdd(log, a);
    AuditAdd(log + [a], b);
    AuditAdd(log + [a] + [b], c);
  }

  lemma ForcedPass(n: nat, s: Loop)
    requires !s.refused && !s.bypassed
    ensures Pass(Forced(n), Unlucky(n), s)
      == Render(Forced(n), Unlucky(n), s.(log := s.log + [Asked(false)] + [LeasedGateway]), Gateway)
  {
    assert Ask(Unlucky(n), s) == s.(log := s.log + [Asked(false)]);
  }

  lemma UnluckySays(n: nat, i: nat)
    requires i % 3 == 0 && i < 3 * n + 6
    ensures Unlucky(n).fetch(i + 2) == GatewaySays(n, i)
  {
  }

  lemma GatewayRender(n: nat, s: Loop)
    requires !s.refused && !s.bypassed && |s.log| >= 2 && |s.log| % 3 == 2 && |s.log| < 3 * n + 8
    ensures var r := GatewaySays(n, |s.log| - 2).(source := Some(Gateway)); var log := s.log + [Rendered(Gateway, r)];
      Render(Forced(n), Unlucky(n), s, Gateway) ==
        if |s.log| < 3 * n + 5 then Judge(s.(log := log), Gateway, r) else Again(s.(refused := true, log := log + [MarkedRefused]))
  {
    UnluckySays(n, |s.log| - 2);
  }

  function GatewaySays(n: nat, i: nat): Result {
    if i < 3 * n then BLOCKED else if i < 3 * n + 3 then CRASHED else REFUSED
  }

  lemma {:induction false} Rotating(n: nat, s: Loop)
    requires !s.refused && !s.bypassed && s.retries == 1 && s.rotations <= n
    requires |s.log| == 3 * (n - s.rotations) && Audit(s.log).renders == n - s.rotations
    ensures Audit(LogOf(Drive(Forced(n), Unlucky(n), s))).renders == n + 3
    decreases s.rotations
  {
    GatewayPass(n, s);
    var next := Pass(Forced(n), Unlucky(n), s);
    if s.rotations > 0 {
      assert LooksBlocked(BLOCKED.(source := Some(Gateway)));
      assert next.loop.rotations == s.rotations - 1;
      Rotating(n, next.loop);
    } else {
      Falling(n, next.loop);
    }
  }

  lemma Falling(n: nat, s: Loop)
    requires !s.refused && !s.bypassed && s.retries == 0 && s.rotations == 0
    requires |s.log| == 3 * n + 3 && Audit(s.log).renders == n + 1
    ensures Audit(LogOf(Drive(Forced(n), Unlucky(n), s))).renders == n + 3
  {
    GatewayPass(n, s);
    var t := Pass(Forced(n), Unlucky(n), s).loop;
    var log := s.log + [Asked(false)] + [LeasedGateway] + [Rendered(Gateway, REFUSED.(source := Some(Gateway)))];
    AuditAdd(log, MarkedRefused);
    DriveStep(Forced(n), Unlucky(n), s);
    Landing(n, t);
  }

  lemma DriveStep(p: Params, o: Oracle, s: Loop)
    ensures var next := Pass(p, o, s); Drive(p, o, s) == if next.Again? then Drive(p, o, next.loop) else next
  {
  }

  lemma Landing(n: nat, t: Loop)
    requires t.refused && |t.log| == 3 * n + 7
    ensures Audit(LogOf(Drive(Forced(n), Unlucky(n), t))).renders == Audit(t.log).renders + 1
  {
    var r := PAGE.(source := Some(Pool), gatewaySkipped := true);
    AuditThree(t.log, LeasedPool, Rendered(Pool, r), Scored(true));
    var log := t.log + [LeasedPool] + [Rendered(Pool, r)] + [Scored(true)];
    assert Pass(Forced(n), Unlucky(n), t) == Done(Got(r), log);
    DriveStep(Forced(n), Unlucky(n), t);
  }

  /** rotations + 3 is the exact worst case, for every number of rotations. */
  lemma WorstCase(n: nat)
    ensures Audit(LogOf(Drive(Forced(n), Unlucky(n), Start(Forced(n))))).renders == n + 3
  {
    Rotating(n, Start(Forced(n)));
  }
}
