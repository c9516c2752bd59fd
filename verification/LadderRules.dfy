/** The ladder's rules, act by act: what is due next, told from the acts so far and
    the answers at their places, and nothing else. The climb keeps them, and they leave
    no other way. */
module LadderRules {
  import opened Basics
  import opened Outcome
  import opened UrlLadder
  import opened Paths

  // ----- reading an answer -----

  predicate MissingPage(r: Result) {
    r.status in {Some(404), Some(410)} && r.page.ordinary
  }

  /** Turned away in either shape: a failure that says so, or a challenge page. */
  predicate TurnedAway(r: Result) {
    r.category in {Some(DetectionBlock), Some(RateLimited)} || (r.success && r.page.challenge)
  }

  /** No content worth storing, whatever the fetch says. */
  predicate NoContent(r: Result) {
    r.page.challenge || r.page.jsGated || r.status in {Some(401), Some(403), Some(404), Some(405), Some(410), Some(429)}
  }

  predicate GatewayRefuses(r: Result) {
    r.category == Some(ProxyAuthFailed) && r.source == Some(Gateway)
  }

  /** A block that the paid gateway may cure, at a browser level and off the pool. */
  predicate ToGateway(u: Url, level: int, r: Result) {
    level >= 2 && u.eligible && r.source != Some(Gateway) && TurnedAway(r)
  }

  /** A failure that ends the URL on its level. */
  predicate EndsHere(r: Result) {
    || r.category in {Some(SsrfBlocked), Some(QuotaExceeded), Some(HostUnreachable), Some(NotFound), Some(Category.ProxyExhausted),
                      Some(Category.CircuitOpen), Some(PolitenessTimeout), Some(CapacityTimeout), Some(DependencyUnavailable)}
    || GatewayRefuses(r)
  }

  function Bare(level: int, c: Category): Result {
    Result(false, level, Some(c), None, None, None, false, false, Page(false, false, false))
  }

  // ----- the story so far -----

  /** `first` and `hand`: this level's own attempt, and the one that counts; `fetched`:
      the last answer; `skipped`: the gateway was wanted and not had; `answer`: the last
      rejected attempt that the site answered. */
  datatype Story = Story(gone: nat, level: int, fetched: Fetched, first: Result, hand: Result, skipped: bool,
                         rejected: Option<Result>, answer: Option<Result>)

  /** The story with act `a` at place `i`; a fetch is answered at the place after it. */
  function Hear(u: Url, o: Oracle, t: Story, i: nat, a: Act): Story {
    match a
    case Passed(_) => t.(gone := t.gone + 1)
    case Tried(level, _) =>
      var f := o.fetch(i + 1);
      var t := t.(gone := t.gone + 1, level := level, fetched := f);
      if !f.Got? then t else
      var missed := ToGateway(u, level, f.result) && o.refused(i + 1);
      t.(first := f.result, hand := f.result.(gatewaySkipped := f.result.gatewaySkipped || missed),
         skipped := t.skipped || f.result.gatewaySkipped || missed)
    case Retried(_) =>
      var f := o.fetch(i + 1);
      if !f.Got? then t.(fetched := f)
      else if GatewayRefuses(f.result) then t.(fetched := f, skipped := true)
      else t.(fetched := f, hand := f.result, skipped := t.skipped || f.result.gatewaySkipped)
    case Rejected(_, r) => t.(rejected := Some(r), answer := if r.status.Some? then Some(r) else t.answer)
    case _ => t
  }

  function Tell(u: Url, o: Oracle, log: seq<Act>): Story {
    if log == [] then Story(0, 0, Broke(false), Bare(0, ParseError), Bare(0, ParseError), u.skipped, None, None)
    else Hear(u, o, Tell(u, o, log[..|log| - 1]), |log| - 1, log[|log| - 1])
  }

  // ----- what is due -----

  datatype Loss = Loss(how: How, result: Result, level: int)

  datatype Rule = Do(act: Act) | Lose(loss: Loss) | Finish(how: How)

  /** The site's last word was a 429 and this failure none of the site's: the 429. */
  function Limited(t: Story, c: Option<Category>, level: int): Option<Result> {
    if c in {Some(BrowserCrash), Some(NetworkTimeout), Some(Category.ProxyExhausted), Some(ProxyAuthFailed)}
       && t.answer.Some? && t.answer.value.status == Some(429)
    then Some(Bare(level, RateLimited).(status := Some(429), source := t.answer.value.source, retryAfter := t.answer.value.retryAfter,
                                        challengePage := t.answer.value.challengePage))
    else None
  }

  function GiveUp(t: Story, r: Result, level: int): Rule {
    Lose(Loss(How.GaveUp, r.(gatewaySkipped := r.gatewaySkipped || t.skipped), level))
  }

  /** Every level gone by: the last attempt's own failure, a page that came back as a
      success being the block it is; nothing attempted at all is an exhausted pool. */
  function Spent(t: Story, top: int): Rule {
    if t.rejected.None? then GiveUp(t, Bare(top, Category.ProxyExhausted), top) else
    var r := t.rejected.value;
    var c := if r.success then Some(if r.status == Some(429) then RateLimited else DetectionBlock)
             else if r.category.Some? then r.category else Some(Category.ProxyExhausted);
    var own := Bare(top, c.value).(status := r.status, source := r.source, retryAfter := r.retryAfter, challengePage := r.challengePage);
    var limited := Limited(t, if r.success then c else r.category, top);
    GiveUp(t, if c in {Some(DetectionBlock), Some(RateLimited)} || limited.None? then own else limited.value, top)
  }

  /** The next level's turn. An open circuit leaves only the gateway, which level 1 has
      no way to; a level without a claim of its own needs the site's slot. */
  function Rung(u: Url, o: Oracle, levels: seq<int>, log: seq<Act>): Rule
    requires levels != []
  {
    var t, n := Tell(u, o, log), |log|;
    if t.gone >= |levels| then Spent(t, levels[|levels| - 1]) else
    var level, open := levels[t.gone], o.circuitOpen(n);
    if open && (!u.eligible || o.refused(n)) then
      Lose(Loss(NotAllowed, Bare(level, Category.CircuitOpen).(gatewaySkipped := t.skipped || u.eligible), level))
    else if open && level == 1 then Do(Passed(1))
    else if (!u.admission || level < 2) && !o.slot(n) then Lose(Loss(NotAllowed, Bare(level, PolitenessTimeout), level))
    else Do(Tried(level, open || u.gatewayFirst))
  }

  /** A fetch that came to nothing of the site's: capacity, our store, a fault of ours. */
  function Fault(f: Fetched, top: int): Rule {
    match f
    case Stopped(CancelledJob) => Finish(Cancelled)
    case Stopped(NoCapacity) => Lose(Loss(NotAllowed, Bare(top, CapacityTimeout), top))
    case Stopped(StoreDown) => Lose(Loss(Faulted, Bare(top, DependencyUnavailable), top))
    case Broke(true) => Lose(Loss(Faulted, Bare(top, DependencyUnavailable), top))
    case _ => Do(CircuitBad)
  }

  /** The attempt that counts is scored with the circuit; a proxy refusing our
      credentials says nothing of the site. */
  function Weighing(t: Story): Rule {
    if t.hand.success then Do(CircuitGood)
    else if t.hand.category == Some(ProxyAuthFailed) then Do(Rejected(t.level, t.hand))
    else Do(CircuitBad)
  }

  function Labelled(r: Result): Result {
    r.(challengePage := r.page.challenge)
  }

  predicate WasMissing(t: Story, log: seq<Act>) {
    |log| >= 2 && log[|log| - 2].Tried? && MissingPage(t.first)
  }

  /** An attempt is rejected: for good, or for the next level to do better. */
  function AfterReject(u: Url, o: Oracle, levels: seq<int>, log: seq<Act>, level: int, r: Result): Rule
    requires levels != []
  {
    var t, n := Tell(u, o, log), |log|;
    if n >= 2 && log[n - 2].Retried? then
      (if t.hand.source == Some(Gateway) && t.hand.success && !TurnedAway(t.hand) then Do(LearnedPoolBlocked) else Weighing(t))
    else if WasMissing(t, log) then
      Lose(Loss(How.Missing, r.(success := false, challengePage := false, category := Some(NotFound)), level))
    else if r.success then (if level < levels[|levels| - 1] then Rung(u, o, levels, log) else Do(CircuitBad))
    else if EndsHere(r) then GiveUp(t, OrElse(Limited(t, r.category, level), r), level)
    else Rung(u, o, levels, log)
  }

  function RuleFor(u: Url, o: Oracle, levels: seq<int>, log: seq<Act>): Rule
    requires levels != []
  {
    if log == [] then Rung(u, o, levels, log) else
    var t, n, top := Tell(u, o, log), |log|, levels[|levels| - 1];
    match log[n - 1]
    case Passed(_) => Rung(u, o, levels, log)
    case Tried(level, _) =>
      if !t.fetched.Got? then Fault(t.fetched, top)
      else if MissingPage(t.first) then Do(Rejected(level, t.first))
      else if ToGateway(u, level, t.first) && !o.refused(n) then Do(Retried(level))
      else Weighing(t)
    case Retried(level) =>
      if !t.fetched.Got? then Fault(t.fetched, top)
      else if GatewayRefuses(t.fetched.result) then Weighing(t)
      else Do(Rejected(level, t.first))
    case Rejected(level, r) => AfterReject(u, o, levels, log, level, r)
    case LearnedPoolBlocked => Weighing(t)
    case CircuitGood => if NoContent(t.hand) then Do(Rejected(t.level, Labelled(t.hand))) else Do(Learned(t.level))
    case Learned(_) => if o.converts(n) then Do(Stored(Labelled(t.hand))) else Do(CircuitBad)
    case CircuitBad =>
      if !t.fetched.Got? || (n >= 2 && log[n - 2].Learned?) then Lose(Loss(Faulted, Bare(top, ParseError), top))
      else if t.hand.success then Rung(u, o, levels, log)
      else Do(Rejected(t.level, t.hand))
    case _ => Finish(Accepted)
  }

  /** The log is past the attempts: the outcome is being written down. */
  predicate Closing(a: Act) {
    a.Dlq? || a.Erred? || a.Stored? || a.Told?
  }

  /** A failure is one dead letter, one error and one result, stored and told. */
  function DueNext(u: Url, o: Oracle, levels: seq<int>, log: seq<Act>): Rule
    requires levels != []
  {
    var n := |log|;
    if n == 0 || !Closing(log[n - 1]) then
      match RuleFor(u, o, levels, log)
      case Lose(l) =>
        Do(Dlq(OrElse(l.result.category, ParseError), l.level, if l.result.category == Some(RateLimited) then l.result.retryAfter else None))
      case other => other
    else
      match log[n - 1]
      case Dlq(_, _, _) => Do(Erred)
      case Erred => if n >= 2 && RuleFor(u, o, levels, log[..n - 2]).Lose? then Do(Stored(RuleFor(u, o, levels, log[..n - 2]).loss.result)) else Finish(Faulted)
      case Stored(r) => Do(Told(r))
      case _ =>
        if n >= 4 && log[n - 4].Dlq? && RuleFor(u, o, levels, log[..n - 4]).Lose? then Finish(RuleFor(u, o, levels, log[..n - 4]).loss.how)
        else Finish(Accepted)
  }

  /** Every act was due when it came. */
  ghost predicate Lawful(u: Url, o: Oracle, levels: seq<int>, log: seq<Act>)
    requires levels != []
  {
    log == [] || (Lawful(u, o, levels, log[..|log| - 1]) && DueNext(u, o, levels, log[..|log| - 1]) == Do(log[|log| - 1]))
  }

  // ----- the climb keeps them -----

  predicate Open(log: seq<Act>) {
    log == [] || !Closing(log[|log| - 1])
  }

  /** What the climb remembers is what the log tells. */
  ghost predicate Agrees(u: Url, o: Oracle, s: Climb) {
    var t := Tell(u, o, s.log);
    s.skipped == t.skipped && s.answer == t.answer
  }

  ghost predicate AtRung(u: Url, o: Oracle, levels: seq<int>, s: Climb, gone: nat)
    requires levels != []
  {
    && Lawful(u, o, levels, s.log) && Open(s.log) && RuleFor(u, o, levels, s.log) == Rung(u, o, levels, s.log)
    && Agrees(u, o, s) && Kept(Tell(u, o, s.log).rejected, s.last) && Tell(u, o, s.log).gone == gone
  }

  ghost predicate Ruled(u: Url, o: Oracle, levels: seq<int>, v: Verdict, gone: nat)
    requires levels != []
  {
    match v
    case Up(s) => AtRung(u, o, levels, s, gone)
    case End(how, log) => Lawful(u, o, levels, log) && DueNext(u, o, levels, log) == Finish(how)
  }

  lemma LawAdd(u: Url, o: Oracle, levels: seq<int>, log: seq<Act>, a: Act)
    requires levels != [] && Lawful(u, o, levels, log) && DueNext(u, o, levels, log) == Do(a)
    ensures Lawful(u, o, levels, log + [a]) && Tell(u, o, log + [a]) == Hear(u, o, Tell(u, o, log), |log|, a)
  {
    assert (log + [a])[..|log|] == log;
  }

  lemma {:induction false} DueAt(u: Url, o: Oracle, levels: seq<int>, log: seq<Act>, i: nat)
    requires levels != [] && Lawful(u, o, levels, log) && i < |log|
    ensures DueNext(u, o, levels, log[..i]) == Do(log[i])
    decreases |log|
  {
    if i < |log| - 1 {
      DueAt(u, o, levels, log[..|log| - 1], i);
      assert log[..|log| - 1][..i] == log[..i];
    }
  }

  lemma LawOnly(u: Url, o: Oracle, levels: seq<int>, log: seq<Act>, a: Act)
    requires levels != [] && Lawful(u, o, levels, log) && DueNext(u, o, levels, log) == Do(a)
    ensures Lawful(u, o, levels, log + [a])
  {
    LawAdd(u, o, levels, log, a);
  }

  /** While an outcome is written down, what is due is told from its own acts. */
  lemma ClosingDue(u: Url, o: Oracle, levels: seq<int>, log: seq<Act>, l: Loss, dlq: Act)
    requires levels != [] && RuleFor(u, o, levels, log) == Lose(l) && dlq.Dlq?
    ensures DueNext(u, o, levels, log + [dlq]) == Do(Erred)
    ensures DueNext(u, o, levels, log + [dlq] + [Erred]) == Do(Stored(l.result))
    ensures DueNext(u, o, levels, log + [dlq] + [Erred] + [Stored(l.result)]) == Do(Told(l.result))
    ensures DueNext(u, o, levels, log + [dlq] + [Erred] + [Stored(l.result)] + [Told(l.result)]) == Finish(l.how)
  {
    var b := log + [dlq] + [Erred];
    var d := b + [Stored(l.result)] + [Told(l.result)];
    assert b[..|b| - 2] == log && d[..|d| - 4] == log && d[|d| - 4] == dlq;
  }

  lemma FailRules(u: Url, o: Oracle, levels: seq<int>, s: Climb, l: Loss, gone: nat)
    requires levels != [] && Lawful(u, o, levels, s.log) && Open(s.log) && RuleFor(u, o, levels, s.log) == Lose(l) && l.result.category.Some?
    ensures Ruled(u, o, levels, Fail(s, l.how, l.result, l.result.category.value, l.level), gone)
  {
    var dlq := Dlq(l.result.category.value, l.level, HoldBack(l.result));
    ClosingDue(u, o, levels, s.log, l, dlq);
    LawOnly(u, o, levels, s.log, dlq);
    LawOnly(u, o, levels, s.log + [dlq], Erred);
    LawOnly(u, o, levels, s.log + [dlq] + [Erred], Stored(l.result));
    LawOnly(u, o, levels, s.log + [dlq] + [Erred] + [Stored(l.result)], Told(l.result));
  }

  lemma CrashRules(u: Url, o: Oracle, levels: seq<int>, s: Climb, gone: nat)
    requires levels != [] && Lawful(u, o, levels, s.log) && s.log != [] && Open(s.log) && RuleFor(u, o, levels, s.log) == Do(CircuitBad)
    requires !Tell(u, o, s.log).fetched.Got? || s.log[|s.log| - 1].Learned?
    ensures Ruled(u, o, levels, Crash(s, false, levels[|levels| - 1]), gone)
  {
    var top, t := levels[|levels| - 1], s.(log := s.log + [CircuitBad]);
    LawAdd(u, o, levels, s.log, CircuitBad);
    assert t.log[|t.log| - 2] == s.log[|s.log| - 1];
    FailRules(u, o, levels, t, Loss(Faulted, Bare(top, ParseError), top), gone);
  }

  /** A fetch that brought no answer. */
  lemma FaultRules(u: Url, o: Oracle, levels: seq<int>, s: Climb, gone: nat)
    requires levels != [] && Lawful(u, o, levels, s.log) && s.log != [] && Open(s.log)
    requires var f := Tell(u, o, s.log).fetched; !f.Got? && RuleFor(u, o, levels, s.log) == Fault(f, levels[|levels| - 1])
    ensures var f, top := Tell(u, o, s.log).fetched, levels[|levels| - 1];
      && (f.Stopped? ==> Ruled(u, o, levels, Interrupt(s, f.refusal, top), gone))
      && (f.Broke? ==> Ruled(u, o, levels, Crash(s, f.storeDown, top), gone))
  {
    var top := levels[|levels| - 1];
    match Tell(u, o, s.log).fetched
    case Stopped(CancelledJob) =>
    case Stopped(NoCapacity) => FailRules(u, o, levels, s, Loss(NotAllowed, Bare(top, CapacityTimeout), top), gone);
    case Stopped(StoreDown) => FailRules(u, o, levels, s, Loss(Faulted, Bare(top, DependencyUnavailable), top), gone);
    case Broke(down) =>
      if down { FailRules(u, o, levels, s, Loss(Faulted, Bare(top, DependencyUnavailable), top), gone); } else { CrashRules(u, o, levels, s, gone); }
  }

  /** The attempt that counts is in hand, and about to be weighed. */
  ghost predicate InHand(u: Url, o: Oracle, levels: seq<int>, s: Climb, level: int, r: Result, gone: nat)
    requires levels != []
  {
    var t := Tell(u, o, s.log);
    && Lawful(u, o, levels, s.log) && s.log != [] && Open(s.log) && RuleFor(u, o, levels, s.log) == Weighing(t)
    && t.hand == r && t.level == level && t.fetched.Got? && t.gone == gone
    && t.skipped == (s.skipped || r.gatewaySkipped) && t.answer == s.answer
    && !s.log[|s.log| - 1].Learned? && (s.log[|s.log| - 1].Retried? ==> TurnedAway(r))
    && (s.log[|s.log| - 1].Tried? ==> !MissingPage(t.first))
  }

  lemma WeighRules(u: Url, o: Oracle, levels: seq<int>, s: Climb, level: int, r: Result, gone: nat)
    requires levels != [] && InHand(u, o, levels, s, level, r, gone)
    ensures Ruled(u, o, levels, Weigh(o, s, level, levels[|levels| - 1], r), gone)
  {
    var s1 := s.(skipped := s.skipped || r.gatewaySkipped);
    if r.success {
      LawAdd(u, o, levels, s.log, CircuitGood);
      PageRules(u, o, levels, s1.(log := s.log + [CircuitGood]), level, r, gone);
      WeighPage(o, s, level, levels[|levels| - 1], r);
    } else {
      FailedRules(u, o, levels, s, level, r, gone);
    }
  }

  lemma WeighPage(o: Oracle, s: Climb, level: int, top: int, r: Result)
    requires r.success
    ensures Weigh(o, s, level, top, r) == WeighedPage(o, s.(skipped := s.skipped || r.gatewaySkipped, log := s.log + [CircuitGood]), level, top, Labelled(r))
  {
    NoContentIs(Labelled(r));
  }

  /** The page, with its success already scored. */
  function WeighedPage(o: Oracle, s: Climb, level: int, top: int, r: Result): Verdict {
    if NoContent(r) then TurnedPage(Reject(s, level, r), level, top, r)
    else AcceptedPage(o, s.(log := s.log + [Learned(level)]), top, r)
  }

  function AcceptedPage(o: Oracle, s: Climb, top: int, r: Result): Verdict {
    if o.converts(|s.log|) then End(Accepted, s.log + [Stored(r)] + [Told(r)]) else Crash(s, false, top)
  }

  function TurnedPage(s: Climb, level: int, top: int, r: Result): Verdict {
    if level < top then Up(s.(last := Some(r))) else Up(s.(last := Some(Downgraded(r)), log := s.log + [CircuitBad]))
  }

  lemma NoContentIs(r: Result)
    ensures StillBlocked(r) <==> NoContent(r)
  {
  }

  lemma PageRules(u: Url, o: Oracle, levels: seq<int>, s: Climb, level: int, r: Result, gone: nat)
    requires levels != [] && Lawful(u, o, levels, s.log) && s.log != [] && s.log[|s.log| - 1] == CircuitGood && r.success
    requires var t := Tell(u, o, s.log); t.hand == r && t.level == level && t.fetched.Got? && t.gone == gone && Agrees(u, o, s)
    ensures Ruled(u, o, levels, WeighedPage(o, s, level, levels[|levels| - 1], Labelled(r)), gone)
  {
    if NoContent(r) { BlockedRules(u, o, levels, s, level, r, gone); } else { AcceptRules(u, o, levels, s, level, r, gone); }
  }

  lemma AcceptRules(u: Url, o: Oracle, levels: seq<int>, s: Climb, level: int, r: Result, gone: nat)
    requires levels != [] && Lawful(u, o, levels, s.log) && s.log != [] && s.log[|s.log| - 1] == CircuitGood && !NoContent(r)
    requires var t := Tell(u, o, s.log); t.hand == r && t.level == level && t.fetched.Got?
    ensures Ruled(u, o, levels, AcceptedPage(o, s.(log := s.log + [Learned(level)]), levels[|levels| - 1], Labelled(r)), gone)
  {
    var t := s.(log := s.log + [Learned(level)]);
    LawAdd(u, o, levels, s.log, Learned(level));
    if o.converts(|t.log|) {
      AcceptDue(u, o, levels, s.log, level, Labelled(r));
      LawOnly(u, o, levels, t.log, Stored(Labelled(r)));
      LawOnly(u, o, levels, t.log + [Stored(Labelled(r))], Told(Labelled(r)));
    } else {
      CrashRules(u, o, levels, t, gone);
    }
  }

  lemma AcceptDue(u: Url, o: Oracle, levels: seq<int>, log: seq<Act>, level: int, r: Result)
    requires levels != [] && log != [] && log[|log| - 1] == CircuitGood
    ensures DueNext(u, o, levels, log + [Learned(level)] + [Stored(r)]) == Do(Told(r))
    ensures DueNext(u, o, levels, log + [Learned(level)] + [Stored(r)] + [Told(r)]) == Finish(Accepted)
  {
    var d := log + [Learned(level)] + [Stored(r)] + [Told(r)];
    assert d[|d| - 4] == CircuitGood;
  }

  lemma BlockedRules(u: Url, o: Oracle, levels: seq<int>, s: Climb, level: int, r: Result, gone: nat)
    requires levels != [] && Lawful(u, o, levels, s.log) && s.log != [] && s.log[|s.log| - 1] == CircuitGood && NoContent(r) && r.success
    requires var t := Tell(u, o, s.log); t.hand == r && t.level == level && t.fetched.Got? && t.gone == gone && Agrees(u, o, s)
    ensures Ruled(u, o, levels, TurnedPage(Reject(s, level, Labelled(r)), level, levels[|levels| - 1], Labelled(r)), gone)
  {
    var page := Labelled(r);
    var t := Reject(s, level, page);
    LawAdd(u, o, levels, s.log, Rejected(level, page));
    PageRejected(u, o, levels, s.log, level, page);
    KeptTurned(page);
    if level < levels[|levels| - 1] {
      assert AtRung(u, o, levels, t.(last := Some(page)), gone);
    } else {
      TopRules(u, o, levels, t, page, gone);
    }
  }

  lemma TopRules(u: Url, o: Oracle, levels: seq<int>, s: Climb, page: Result, gone: nat)
    requires levels != [] && Lawful(u, o, levels, s.log) && Open(s.log) && RuleFor(u, o, levels, s.log) == Do(CircuitBad)
    requires Agrees(u, o, s) && Tell(u, o, s.log).gone == gone && Kept(Tell(u, o, s.log).rejected, Some(Downgraded(page)))
    requires RuleFor(u, o, levels, s.log + [CircuitBad]) == Rung(u, o, levels, s.log + [CircuitBad])
    ensures Ruled(u, o, levels, Up(s.(last := Some(Downgraded(page)), log := s.log + [CircuitBad])), gone)
  {
    LawAdd(u, o, levels, s.log, CircuitBad);
  }

  lemma KeptTurned(page: Result)
    requires NoContent(page) && page.success
    ensures Kept(Some(page), Some(page)) && Kept(Some(page), Some(Downgraded(page)))
  {
    NoContentIs(page);
  }

  /** After a page turned away as no content: the next level, or, at the top, a failure
      on the circuit and the end. */
  lemma PageRejected(u: Url, o: Oracle, levels: seq<int>, log: seq<Act>, level: int, page: Result)
    requires levels != [] && log != [] && log[|log| - 1] == CircuitGood && page.success
    ensures var a := log + [Rejected(level, page)];
      && RuleFor(u, o, levels, a) == (if level < levels[|levels| - 1] then Rung(u, o, levels, a) else Do(CircuitBad))
      && (var t := Tell(u, o, log);
          t.fetched.Got? && t.hand.success ==> RuleFor(u, o, levels, a + [CircuitBad]) == Rung(u, o, levels, a + [CircuitBad]))
  {
    var a := log + [Rejected(level, page)];
    assert a[..|log|] == log && (a + [CircuitBad])[..|a|] == a;
    assert a[|a| - 2] == CircuitGood && (a + [CircuitBad])[|a| - 1] == Rejected(level, page);
  }

  lemma FailedRules(u: Url, o: Oracle, levels: seq<int>, s: Climb, level: int, r: Result, gone: nat)
    requires levels != [] && InHand(u, o, levels, s, level, r, gone) && !r.success
    ensures Ruled(u, o, levels, Weigh(o, s, level, levels[|levels| - 1], r), gone)
  {
    WeighLost(o, s, level, levels[|levels| - 1], r);
    if r.category == Some(ProxyAuthFailed) { UnscoredRules(u, o, levels, s, level, r, gone); } else { ScoredRules(u, o, levels, s, level, r, gone); }
  }

  lemma UnscoredRules(u: Url, o: Oracle, levels: seq<int>, s: Climb, level: int, r: Result, gone: nat)
    requires levels != [] && InHand(u, o, levels, s, level, r, gone) && !r.success && r.category == Some(ProxyAuthFailed)
    ensures Ruled(u, o, levels, Lost(Reject(s.(skipped := s.skipped || r.gatewaySkipped), level, r), level, r), gone)
  {
    var t := Reject(s.(skipped := s.skipped || r.gatewaySkipped), level, r);
    LawAdd(u, o, levels, s.log, Rejected(level, r));
    assert t.log[|t.log| - 2] == s.log[|s.log| - 1];
    RejectedRules(u, o, levels, t, level, r, gone);
  }

  lemma ScoredRules(u: Url, o: Oracle, levels: seq<int>, s: Climb, level: int, r: Result, gone: nat)
    requires levels != [] && InHand(u, o, levels, s, level, r, gone) && !r.success && r.category != Some(ProxyAuthFailed)
    ensures Ruled(u, o, levels, Lost(Reject(s.(skipped := s.skipped || r.gatewaySkipped, log := s.log + [CircuitBad]), level, r), level, r), gone)
  {
    var s2 := s.(skipped := s.skipped || r.gatewaySkipped, log := s.log + [CircuitBad]);
    LawAdd(u, o, levels, s.log, CircuitBad);
    FailureScored(u, o, levels, s.log, Tell(u, o, s2.log));
    LawAdd(u, o, levels, s2.log, Rejected(level, r));
    var t := Reject(s2, level, r);
    assert t.log[|t.log| - 2] == CircuitBad;
    RejectedRules(u, o, levels, t, level, r, gone);
  }

  lemma FailureScored(u: Url, o: Oracle, levels: seq<int>, log: seq<Act>, t: Story)
    requires levels != [] && log != [] && !log[|log| - 1].Learned? && t == Tell(u, o, log + [CircuitBad]) && t.fetched.Got? && !t.hand.success
    ensures DueNext(u, o, levels, log + [CircuitBad]) == Do(Rejected(t.level, t.hand))
  {
    assert (log + [CircuitBad])[|log| - 1] == log[|log| - 1];
  }

  lemma WeighLost(o: Oracle, s: Climb, level: int, top: int, r: Result)
    requires !r.success
    ensures var s1 := s.(skipped := s.skipped || r.gatewaySkipped);
      Weigh(o, s, level, top, r) == Lost(Reject(if r.category == Some(ProxyAuthFailed) then s1 else s1.(log := s1.log + [CircuitBad]), level, r), level, r)
  {
  }

  /** A failed attempt, scored and rejected. */
  function Lost(s: Climb, level: int, r: Result): Verdict {
    if r.category.Some? && (EndsUrl(r.category.value) || (r.category == Some(ProxyAuthFailed) && r.source == Some(Gateway))) then
      var final := OrElse(RateLimit(s, r, level), r);
      Fail(s, GaveUp, Noted(final, s.skipped), final.category.value, level)
    else
      Up(s.(last := Some(r)))
  }

  lemma RejectedRules(u: Url, o: Oracle, levels: seq<int>, s: Climb, level: int, r: Result, gone: nat)
    requires levels != [] && Lawful(u, o, levels, s.log) && |s.log| >= 2 && s.log[|s.log| - 1] == Rejected(level, r) && !r.success
    requires Agrees(u, o, s) && Tell(u, o, s.log).gone == gone && Tell(u, o, s.log).rejected == Some(r)
    requires !s.log[|s.log| - 2].Retried? && !WasMissing(Tell(u, o, s.log), s.log)
    ensures Ruled(u, o, levels, Lost(s, level, r), gone)
  {
    if EndsHere(r) {
      var t := Tell(u, o, s.log);
      LimitIs(s, t, r, level);
      var final := OrElse(Limited(t, r.category, level), r);
      FailRules(u, o, levels, s, Loss(How.GaveUp, final.(gatewaySkipped := final.gatewaySkipped || t.skipped), level), gone);
    }
  }

  lemma LimitIs(s: Climb, t: Story, r: Result, level: int)
    requires s.answer == t.answer
    ensures RateLimit(s, r, level) == Limited(t, r.category, level)
  {
  }

  /** The gateway has answered for a level whose own attempt `r` was turned away. */
  ghost predicate Again(u: Url, o: Oracle, levels: seq<int>, s: Climb, level: int, r: Result, gone: nat)
    requires levels != []
  {
    var t, f := Tell(u, o, s.log), o.fetch(|s.log|);
    && Lawful(u, o, levels, s.log) && |s.log| >= 2 && s.log[|s.log| - 1] == Retried(level) && TurnedAway(r)
    && t.fetched == f && t.level == level && t.gone == gone && t.first == r && t.answer == s.answer
    && (if !f.Got? || GatewayRefuses(f.result) then t.hand == r else t.hand == f.result)
    && (f.Got? ==> t.skipped == (s.skipped || GatewayRefuses(f.result) || f.result.gatewaySkipped))
  }

  lemma RetryRules(u: Url, o: Oracle, levels: seq<int>, s: Climb, level: int, r: Result, gone: nat)
    requires levels != [] && Again(u, o, levels, s, level, r, gone)
    ensures Ruled(u, o, levels, Retry(o, s, level, levels[|levels| - 1], r), gone)
  {
    var f := o.fetch(|s.log|);
    if !f.Got? {
      FaultRules(u, o, levels, s, gone);
    } else if GatewayRefuses(f.result) {
      WeighRules(u, o, levels, s.(skipped := true), level, r, gone);
    } else {
      ServedRules(u, o, levels, s, level, r, f.result, gone);
    }
  }

  lemma ServedRules(u: Url, o: Oracle, levels: seq<int>, s: Climb, level: int, r: Result, g: Result, gone: nat)
    requires levels != [] && Again(u, o, levels, s, level, r, gone) && o.fetch(|s.log|) == Got(g) && !GatewayRefuses(g)
    ensures Ruled(u, o, levels, Retry(o, s, level, levels[|levels| - 1], r), gone)
  {
    var t := Reject(s, level, r);
    LawAdd(u, o, levels, s.log, Rejected(level, r));
    assert t.log[|t.log| - 2] == Retried(level);
    RetryIs(o, s, level, levels[|levels| - 1], r, g);
    SecondRules(u, o, levels, t, level, r, g, gone);
  }

  lemma RetryIs(o: Oracle, s: Climb, level: int, top: int, r: Result, g: Result)
    requires o.fetch(|s.log|) == Got(g) && !GatewayRefuses(g)
    ensures var t := Reject(s, level, r);
      Retry(o, s, level, top, r)
        == Weigh(o, if g.source == Some(Gateway) && g.success && !LooksBlocked(g) then t.(log := t.log + [LearnedPoolBlocked]) else t, level, top, g)
  {
  }

  /** The gateway's own attempt, once the pool's has been rejected. */
  lemma SecondRules(u: Url, o: Oracle, levels: seq<int>, s: Climb, level: int, r: Result, g: Result, gone: nat)
    requires levels != [] && Lawful(u, o, levels, s.log) && |s.log| >= 2 && s.log[|s.log| - 2].Retried? && s.log[|s.log| - 1] == Rejected(level, r)
    requires var t := Tell(u, o, s.log);
      t.fetched == Got(g) && t.hand == g && t.level == level && t.gone == gone && t.answer == s.answer && t.skipped == (s.skipped || g.gatewaySkipped)
    ensures Ruled(u, o, levels, Weigh(o, if g.source == Some(Gateway) && g.success && !LooksBlocked(g) then s.(log := s.log + [LearnedPoolBlocked]) else s,
                                      level, levels[|levels| - 1], g), gone)
  {
    if g.source == Some(Gateway) && g.success && !TurnedAway(g) {
      LawAdd(u, o, levels, s.log, LearnedPoolBlocked);
      WeighRules(u, o, levels, s.(log := s.log + [LearnedPoolBlocked]), level, g, gone);
    } else {
      WeighRules(u, o, levels, s, level, g, gone);
    }
  }

  /** A level's own attempt, just answered with `r`. */
  ghost predicate Answered(u: Url, o: Oracle, levels: seq<int>, s: Climb, level: int, r: Result, gone: nat)
    requires levels != []
  {
    var t := Tell(u, o, s.log);
    var missed := ToGateway(u, level, r) && o.refused(|s.log|);
    && Lawful(u, o, levels, s.log) && s.log != [] && s.log[|s.log| - 1].Tried? && s.log[|s.log| - 1].level == level
    && t.fetched == Got(r) && t.first == r && t.level == level && t.gone == gone && t.answer == s.answer
    && t.hand == r.(gatewaySkipped := r.gatewaySkipped || missed) && t.skipped == (s.skipped || missed) && (r.gatewaySkipped ==> s.skipped)
  }

  lemma ConsiderRules(u: Url, o: Oracle, levels: seq<int>, s: Climb, level: int, r: Result, gone: nat)
    requires levels != [] && Answered(u, o, levels, s, level, r, gone)
    ensures Ruled(u, o, levels, Consider(u, o, s, level, levels[|levels| - 1], r), gone)
  {
    if FinalNotFound(r) {
      MissingRules(u, o, levels, s, level, r, gone);
    } else if !WantsGateway(u, level, r) || o.refused(|s.log|) {
      ConsiderIs(u, o, s, level, levels[|levels| - 1], r);
      WeighRules(u, o, levels, s, level, Tell(u, o, s.log).hand, gone);
    } else {
      AgainRules(u, o, levels, s, level, r, gone);
    }
  }

  lemma ConsiderIs(u: Url, o: Oracle, s: Climb, level: int, top: int, r: Result)
    requires !FinalNotFound(r) && (!WantsGateway(u, level, r) || o.refused(|s.log|))
    ensures Consider(u, o, s, level, top, r)
      == Weigh(o, s, level, top, r.(gatewaySkipped := r.gatewaySkipped || (ToGateway(u, level, r) && o.refused(|s.log|))))
  {
  }

  lemma AgainIs(u: Url, o: Oracle, s: Climb, level: int, top: int, r: Result)
    requires !MissingPage(r) && ToGateway(u, level, r) && !o.refused(|s.log|)
    ensures Consider(u, o, s, level, top, r) == Retry(o, s.(log := s.log + [Retried(level)]), level, top, r)
  {
  }

  lemma AgainRules(u: Url, o: Oracle, levels: seq<int>, s: Climb, level: int, r: Result, gone: nat)
    requires levels != [] && Answered(u, o, levels, s, level, r, gone) && !MissingPage(r) && ToGateway(u, level, r) && !o.refused(|s.log|)
    ensures Ruled(u, o, levels, Consider(u, o, s, level, levels[|levels| - 1], r), gone)
  {
    AgainIs(u, o, s, level, levels[|levels| - 1], r);
    RetriedDue(u, o, levels, s.log, level, r);
    LawAdd(u, o, levels, s.log, Retried(level));
    RetryRules(u, o, levels, s.(log := s.log + [Retried(level)]), level, r, gone);
  }

  lemma RetriedDue(u: Url, o: Oracle, levels: seq<int>, log: seq<Act>, level: int, r: Result)
    requires levels != [] && log != [] && log[|log| - 1].Tried? && log[|log| - 1].level == level
    requires var t := Tell(u, o, log); t.fetched.Got? && t.first == r && !MissingPage(r) && ToGateway(u, level, r) && !o.refused(|log|)
    ensures DueNext(u, o, levels, log) == Do(Retried(level))
  {
  }

  lemma MissingRules(u: Url, o: Oracle, levels: seq<int>, s: Climb, level: int, r: Result, gone: nat)
    requires levels != [] && Answered(u, o, levels, s, level, r, gone) && MissingPage(r)
    ensures Ruled(u, o, levels, Consider(u, o, s, level, levels[|levels| - 1], r), gone)
  {
    var t := Reject(s, level, r);
    LawAdd(u, o, levels, s.log, Rejected(level, r));
    assert t.log[|t.log| - 2].Tried?;
    FailRules(u, o, levels, t, Loss(How.Missing, r.(success := false, challengePage := false, category := Some(NotFound)), level), gone);
  }

  lemma AttemptRules(u: Url, o: Oracle, levels: seq<int>, s: Climb, level: int, forced: bool, gone: nat)
    requires levels != [] && Lawful(u, o, levels, s.log) && Open(s.log) && DueNext(u, o, levels, s.log) == Do(Tried(level, forced))
    requires Agrees(u, o, s) && Tell(u, o, s.log).gone + 1 == gone
    ensures Ruled(u, o, levels, Attempt(u, o, s.(log := s.log + [Tried(level, forced)]), level, levels[|levels| - 1]), gone)
  {
    var t := s.(log := s.log + [Tried(level, forced)]);
    LawAdd(u, o, levels, s.log, Tried(level, forced));
    match o.fetch(|t.log|)
    case Got(r) => ConsiderRules(u, o, levels, t.(skipped := t.skipped || r.gatewaySkipped), level, r, gone);
    case _ => FaultRules(u, o, levels, t, gone);
  }

  lemma StepRules(u: Url, o: Oracle, levels: seq<int>, s: Climb, gone: nat)
    requires gone < |levels| && AtRung(u, o, levels, s, gone)
    ensures Ruled(u, o, levels, LevelStep(u, o, s, levels[gone], levels[|levels| - 1]), gone + 1)
  {
    var level, open := levels[gone], o.circuitOpen(|s.log|);
    if open && !(u.eligible && !o.refused(|s.log|)) {
      FailRules(u, o, levels, s, Loss(NotAllowed, Bare(level, Category.CircuitOpen).(gatewaySkipped := s.skipped || u.eligible), level), gone + 1);
    } else if open && level == 1 {
      LawAdd(u, o, levels, s.log, Passed(1));
    } else if !(u.admission && level >= 2) && !o.slot(|s.log|) {
      FailRules(u, o, levels, s, Loss(NotAllowed, Bare(level, PolitenessTimeout), level), gone + 1);
    } else {
      AttemptRules(u, o, levels, s, level, open || u.gatewayFirst, gone + 1);
    }
  }

  lemma SpentRules(u: Url, o: Oracle, levels: seq<int>, s: Climb)
    requires levels != [] && AtRung(u, o, levels, s, |levels|) && (s.last.Some? ==> !s.last.value.success)
    ensures Ruled(u, o, levels, Exhausted(s, levels[|levels| - 1]), |levels|)
  {
    var t, top := Tell(u, o, s.log), levels[|levels| - 1];
    var l := Spent(t, top).loss;
    if s.last.Some? { LimitIs(s, t, s.last.value, top); }
    FailRules(u, o, levels, s, l, |levels|);
  }

  /** A plan of levels, low to high. */
  ghost predicate Plan(levels: seq<int>) {
    levels != [] && Climbing(levels) && forall i :: 0 <= i < |levels| ==> levels[i] >= 1
  }

  lemma TopOne(levels: seq<int>, gone: nat)
    requires Plan(levels) && gone < |levels| && levels[gone] == 1
    ensures gone == 0
  {
    assert levels[0] >= 1;
  }

  /** From a level's verdict on, up the rest of the plan. */
  lemma {:induction false} OnRules(u: Url, o: Oracle, levels: seq<int>, v: Verdict, gone: nat)
    requires Plan(levels) && 0 < gone <= |levels| && Ruled(u, o, levels, v, gone)
    requires gone == |levels| && v.Up? && v.climb.last.Some? ==> !v.climb.last.value.success
    ensures Ruled(u, o, levels, Onward(u, o, levels, v, gone), |levels|)
    decreases |levels| - gone
  {
    if v.Up? {
      if gone == |levels| {
        ClimbEnd(u, o, levels, v.climb);
        SpentRules(u, o, levels, v.climb);
      } else {
        var w := NextVerdict(u, o, levels, v.climb, gone);
        OnRules(u, o, levels, w, gone + 1);
      }
    }
  }

  ghost function Onward(u: Url, o: Oracle, levels: seq<int>, v: Verdict, gone: nat): Verdict
    requires levels != [] && gone <= |levels|
  {
    if v.Up? then ClimbFrom(u, o, v.climb, levels[gone..], levels[|levels| - 1]) else v
  }

  lemma ClimbEnd(u: Url, o: Oracle, levels: seq<int>, s: Climb)
    requires levels != []
    ensures ClimbFrom(u, o, s, levels[|levels|..], levels[|levels| - 1]) == Exhausted(s, levels[|levels| - 1])
  {
  }

  /** The next level's verdict, and what the climb then comes to. */
  lemma NextVerdict(u: Url, o: Oracle, levels: seq<int>, s: Climb, gone: nat) returns (v: Verdict)
    requires Plan(levels) && gone < |levels| && AtRung(u, o, levels, s, gone) && (gone == 0 ==> s.last.None?)
    ensures Ruled(u, o, levels, v, gone + 1)
    ensures gone + 1 == |levels| && v.Up? && v.climb.last.Some? ==> !v.climb.last.value.success
    ensures ClimbFrom(u, o, s, levels[gone..], levels[|levels| - 1]) == Onward(u, o, levels, v, gone + 1)
  {
    v := LevelStep(u, o, s, levels[gone], levels[|levels| - 1]);
    ClimbStep(u, o, levels, s, gone);
    StepRules(u, o, levels, s, gone);
    if gone + 1 == |levels| { LastStep(u, o, levels, s); }
  }

  lemma LastStep(u: Url, o: Oracle, levels: seq<int>, s: Climb)
    requires Plan(levels) && (|levels| == 1 ==> s.last.None?)
    ensures var v := LevelStep(u, o, s, levels[|levels| - 1], levels[|levels| - 1]); v.Up? && v.climb.last.Some? ==> !v.climb.last.value.success
  {
    var top := levels[|levels| - 1];
    if top == 1 { TopOne(levels, |levels| - 1); }
    TopSettles(u, o, s, top);
  }

  lemma ClimbStep(u: Url, o: Oracle, levels: seq<int>, s: Climb, gone: nat)
    requires gone < |levels|
    ensures var v, top := LevelStep(u, o, s, levels[gone], levels[|levels| - 1]), levels[|levels| - 1];
      ClimbFrom(u, o, s, levels[gone..], top) == if v.Up? then ClimbFrom(u, o, v.climb, levels[gone + 1..], top) else v
  {
    assert levels[gone..][1..] == levels[gone + 1..];
  }

  /** The whole climb of a plan. */
  ghost function Whole(u: Url, o: Oracle, levels: seq<int>): Verdict
    requires levels != []
  {
    ClimbFrom(u, o, Bottom(u), levels, levels[|levels| - 1])
  }

  /** For every oracle the climb does, act by act, what the rules call for, and ends when
      and how they say. */
  lemma ClimbByRules(u: Url, o: Oracle, levels: seq<int>)
    requires Plan(levels)
    ensures var v := Whole(u, o, levels);
      v.End? && Lawful(u, o, levels, v.log) && DueNext(u, o, levels, v.log) == Finish(v.how)
  {
    var v := NextVerdict(u, o, levels, Bottom(u), 0);
    OnRules(u, o, levels, v, 1);
    assert levels[0..] == levels;
    PlanSound(u, o, levels);
  }

  /** What the auditor says of the same climb. */
  lemma PlanSound(u: Url, o: Oracle, levels: seq<int>)
    requires Plan(levels)
    ensures var v := Whole(u, o, levels); Ended(v) && Trail(o, Audit(v.log)) && Audit(v.log).gone <= levels
  {
    assert forall level <- levels :: level >= 1;
    OneOutcome(u, o, levels);
  }

  /** The rules leave no choice: whoever keeps them does the same, and ends the same. */
  lemma OnlyOneWay(u: Url, o: Oracle, levels: seq<int>, log: seq<Act>, how: How)
    requires Plan(levels) && Lawful(u, o, levels, log) && DueNext(u, o, levels, log) == Finish(how)
    ensures Whole(u, o, levels) == End(how, log)
  {
    ClimbByRules(u, o, levels);
    LawFollows(u, o, levels, log);
    LawFollows(u, o, levels, Whole(u, o, levels).log);
    OneLog(l => ActOf(u, o, levels, l), log, Whole(u, o, levels).log);
  }

  function ActOf(u: Url, o: Oracle, levels: seq<int>, log: seq<Act>): Option<Act>
    requires levels != []
  {
    if DueNext(u, o, levels, log).Do? then Some(DueNext(u, o, levels, log).act) else None
  }

  lemma LawFollows(u: Url, o: Oracle, levels: seq<int>, log: seq<Act>)
    requires levels != [] && Lawful(u, o, levels, log)
    ensures Follows((l: seq<Act>) => ActOf(u, o, levels, l), log)
  {
    forall i | 0 <= i < |log| ensures ActOf(u, o, levels, log[..i]) == Some(log[i]) { DueAt(u, o, levels, log, i); }
  }

  // ----- read off the rules -----

  lemma {:induction false} SameCount(u: Url, o: Oracle, log: seq<Act>)
    ensures |Audit(log).gone| == Tell(u, o, log).gone && Audit(log).rejected == Tell(u, o, log).rejected
    ensures Audit(log).tried != [] ==> Tell(u, o, log).level == Audit(log).tried[|Audit(log).tried| - 1]
    decreases |log|
  {
    if log != [] {
      var init, a := log[..|log| - 1], log[|log| - 1];
      SameCount(u, o, init);
      SameRead(u, o, Audit(init), Tell(u, o, init), |init|, a);
    }
  }

  lemma SameRead(u: Url, o: Oracle, l: Ledger, t: Story, i: nat, a: Act)
    requires |l.gone| == t.gone && l.rejected == t.rejected && (l.tried != [] ==> t.level == l.tried[|l.tried| - 1])
    ensures var l', t' := Read(l, a), Hear(u, o, t, i, a);
      |l'.gone| == t'.gone && l'.rejected == t'.rejected && (l'.tried != [] ==> t'.level == l'.tried[|l'.tried| - 1])
  {
  }

  /** A URL is given up only with its whole plan gone by, or on a failure of the kind
      that ends it where it happens. */
  lemma GivenUpRightly(u: Url, o: Oracle, levels: seq<int>, log: seq<Act>)
    requires Plan(levels) && Whole(u, o, levels) == End(How.GaveUp, log)
    ensures var l := Audit(log);
      l.gone == levels || (l.rejected.Some? && !l.rejected.value.success && EndsHere(l.rejected.value))
  {
    ClimbByRules(u, o, levels);
    PlanSound(u, o, levels);
    LossEnds(u, o, levels, log, How.GaveUp);
    var before := log[..|log| - 4];
    GivenUpFor(u, o, levels, before);
    SameCount(u, o, before);
    LossAudit(before, log[|log| - 4], RuleFor(u, o, levels, before).loss.result);
  }

  // What an act follows, told from its being due.

  lemma AfterDlq(u: Url, o: Oracle, levels: seq<int>, log: seq<Act>, i: nat)
    requires levels != [] && Lawful(u, o, levels, log) && i + 1 < |log| && log[i].Dlq?
    ensures log[i + 1] == Erred
  {
    DueAt(u, o, levels, log, i + 1);
  }

  /** No rule for an attempt writes an outcome down but the page's own. */
  lemma RuleActs(u: Url, o: Oracle, levels: seq<int>, log: seq<Act>)
    requires levels != [] && RuleFor(u, o, levels, log).Do?
    ensures var a := RuleFor(u, o, levels, log).act;
      !a.Told? && !a.Erred? && !a.Dlq? && (a.Learned? ==> log != [] && log[|log| - 1] == CircuitGood && !NoContent(Tell(u, o, log).hand))
  {
  }

  lemma ActDue(u: Url, o: Oracle, levels: seq<int>, log: seq<Act>, a: Act)
    requires levels != [] && DueNext(u, o, levels, log) == Do(a) && (a.Told? || a.Erred? || a.Learned?)
    ensures if a.Learned? then RuleFor(u, o, levels, log) == Do(a) else log != [] && Closing(log[|log| - 1])
    ensures a.Told? ==> log[|log| - 1] == Stored(a.result)
    ensures a.Erred? ==> log[|log| - 1].Dlq?
  {
    if RuleFor(u, o, levels, log).Do? { RuleActs(u, o, levels, log); }
  }

  lemma BeforeErred(u: Url, o: Oracle, levels: seq<int>, log: seq<Act>, i: nat)
    requires levels != [] && Lawful(u, o, levels, log) && i < |log| && log[i] == Erred
    ensures i > 0 && log[i - 1].Dlq?
  {
    DueAt(u, o, levels, log, i);
    ActDue(u, o, levels, log[..i], log[i]);
  }

  lemma BeforeTold(u: Url, o: Oracle, levels: seq<int>, log: seq<Act>, i: nat)
    requires levels != [] && Lawful(u, o, levels, log) && i < |log| && log[i].Told?
    ensures i > 0 && log[i - 1] == Stored(log[i].result)
  {
    DueAt(u, o, levels, log, i);
    ActDue(u, o, levels, log[..i], log[i]);
  }

  lemma StoredDue(u: Url, o: Oracle, levels: seq<int>, log: seq<Act>, r: Result)
    requires levels != [] && DueNext(u, o, levels, log) == Do(Stored(r))
    ensures log != [] && (log[|log| - 1].Learned? || log[|log| - 1].Erred?)
    ensures log[|log| - 1].Learned? ==> r == Labelled(Tell(u, o, log).hand)
    ensures log[|log| - 1].Erred? ==> |log| >= 2 && RuleFor(u, o, levels, log[..|log| - 2]).Lose? && r == RuleFor(u, o, levels, log[..|log| - 2]).loss.result
  {
  }

  lemma BeforeStored(u: Url, o: Oracle, levels: seq<int>, log: seq<Act>, i: nat)
    requires levels != [] && Lawful(u, o, levels, log) && i < |log| && log[i].Stored?
    ensures i > 0 && (log[i - 1].Learned? || log[i - 1].Erred?)
    ensures log[i - 1].Learned? ==> log[i].result == Labelled(Tell(u, o, log[..i - 1]).hand)
    ensures log[i - 1].Erred? ==> i >= 2 && RuleFor(u, o, levels, log[..i - 2]).Lose? && log[i].result == RuleFor(u, o, levels, log[..i - 2]).loss.result
  {
    DueAt(u, o, levels, log, i);
    StoredDue(u, o, levels, log[..i], log[i].result);
    assert log[..i][..i - 1] == log[..i - 1];
    assert i >= 2 ==> log[..i][..i - 2] == log[..i - 2];
  }

  lemma BeforeLearned(u: Url, o: Oracle, levels: seq<int>, log: seq<Act>, i: nat)
    requires levels != [] && Lawful(u, o, levels, log) && i < |log| && log[i].Learned?
    ensures !NoContent(Tell(u, o, log[..i]).hand)
  {
    DueAt(u, o, levels, log, i);
    ActDue(u, o, levels, log[..i], log[i]);
    RuleActs(u, o, levels, log[..i]);
  }

  lemma FinishTells(u: Url, o: Oracle, levels: seq<int>, log: seq<Act>, how: How)
    requires levels != [] && DueNext(u, o, levels, log) == Finish(how) && !how.Cancelled? && !how.Faulted?
    ensures log != [] && log[|log| - 1].Told?
    ensures !how.Accepted? ==> |log| >= 4 && log[|log| - 4].Dlq? && RuleFor(u, o, levels, log[..|log| - 4]).Lose?
    ensures !how.Accepted? ==> RuleFor(u, o, levels, log[..|log| - 4]).loss.how == how
    ensures how.Accepted? && |log| >= 4 ==> !log[|log| - 4].Dlq? || !RuleFor(u, o, levels, log[..|log| - 4]).Lose?
  {
  }

  /** A URL lost ends with its dead letter, error and result, the result told. */
  lemma LossEnds(u: Url, o: Oracle, levels: seq<int>, log: seq<Act>, how: How)
    requires levels != [] && Lawful(u, o, levels, log) && DueNext(u, o, levels, log) == Finish(how)
    requires !how.Cancelled? && !how.Faulted? && !how.Accepted?
    ensures |log| >= 4 && log[|log| - 4].Dlq? && RuleFor(u, o, levels, log[..|log| - 4]).Lose?
    ensures RuleFor(u, o, levels, log[..|log| - 4]).loss.how == how
    ensures var r := RuleFor(u, o, levels, log[..|log| - 4]).loss.result;
      log == log[..|log| - 4] + [log[|log| - 4]] + [Erred] + [Stored(r)] + [Told(r)]
  {
    FinishTells(u, o, levels, log, how);
    var n := |log|;
    AfterDlq(u, o, levels, log, n - 4);
    BeforeTold(u, o, levels, log, n - 1);
    BeforeStored(u, o, levels, log, n - 2);
    LastFour(log);
  }

  lemma LastFour(log: seq<Act>)
    requires |log| >= 4
    ensures var n := |log|; log == log[..n - 4] + [log[n - 4]] + [log[n - 3]] + [log[n - 2]] + [log[n - 1]]
  {
  }

  /** A URL accepted ends with the page in hand learned, stored and told. */
  lemma PageEnds(u: Url, o: Oracle, levels: seq<int>, log: seq<Act>)
    requires levels != [] && Lawful(u, o, levels, log) && DueNext(u, o, levels, log) == Finish(Accepted)
    ensures |log| >= 3 && log[|log| - 3].Learned? && !NoContent(Tell(u, o, log[..|log| - 3]).hand)
    ensures var page := Labelled(Tell(u, o, log[..|log| - 3]).hand);
      log == log[..|log| - 3] + [log[|log| - 3]] + [Stored(page)] + [Told(page)]
  {
    FinishTells(u, o, levels, log, Accepted);
    var n := |log|;
    BeforeTold(u, o, levels, log, n - 1);
    BeforeStored(u, o, levels, log, n - 2);
    if log[n - 3].Erred? {
      BeforeErred(u, o, levels, log, n - 3);
    } else {
      BeforeLearned(u, o, levels, log, n - 3);
    }
    LastThree(log);
  }

  lemma LastThree(log: seq<Act>)
    requires |log| >= 3
    ensures var n := |log|; log == log[..n - 3] + [log[n - 3]] + [log[n - 2]] + [log[n - 1]]
  {
  }

  lemma GivenUpFor(u: Url, o: Oracle, levels: seq<int>, log: seq<Act>)
    requires levels != [] && RuleFor(u, o, levels, log).Lose? && RuleFor(u, o, levels, log).loss.how.GaveUp?
    ensures var t := Tell(u, o, log);
      t.gone >= |levels| || (t.rejected.Some? && !t.rejected.value.success && EndsHere(t.rejected.value))
  {
  }

  /** Writing a loss down touches neither the levels nor the rejections. */
  lemma LossAudit(log: seq<Act>, dlq: Act, r: Result)
    requires dlq.Dlq?
    ensures var l, k := Audit(log), Audit(log + [dlq] + [Erred] + [Stored(r)] + [Told(r)]); k.gone == l.gone && k.rejected == l.rejected
  {
    AuditAdd(log, dlq);
    AuditAdd(log + [dlq], Erred);
    AuditAdd(log + [dlq] + [Erred], Stored(r));
    AuditAdd(log + [dlq] + [Erred] + [Stored(r)], Told(r));
  }

  /** With the circuit found closed at the start every level gone by was tried: a URL
      given up has tried its whole plan, but for a failure that ended it. */
  lemma AllTried(u: Url, o: Oracle, levels: seq<int>, log: seq<Act>)
    requires Plan(levels) && Whole(u, o, levels) == End(How.GaveUp, log) && !o.circuitOpen(0)
    ensures var l := Audit(log);
      l.tried == levels || (l.tried <= levels && l.rejected.Some? && !l.rejected.value.success && EndsHere(l.rejected.value))
  {
    PlanSound(u, o, levels);
    GivenUpRightly(u, o, levels, log);
  }

  /** The last fetch of the log. */
  ghost predicate FetchAt(log: seq<Act>, k: nat) {
    && k < |log| && (log[k].Tried? || log[k].Retried?)
    && forall j :: k < j < |log| ==> !log[j].Tried? && !log[j].Retried?
  }

  predicate SamePage(r: Result, q: Result) {
    r == q.(gatewaySkipped := r.gatewaySkipped, challengePage := r.challengePage)
  }

  lemma {:induction false} HandIs(u: Url, o: Oracle, log: seq<Act>, k: nat)
    requires FetchAt(log, k)
    ensures var t := Tell(u, o, log); t.fetched == o.fetch(k + 1)
    ensures var t := Tell(u, o, log); t.fetched.Got? ==> SamePage(t.hand, t.fetched.result) || GatewayRefuses(t.fetched.result)
    decreases |log|
  {
    if k < |log| - 1 { HandIs(u, o, log[..|log| - 1], k); }
  }

  /** An accepted page is the last fetch's, from the last level tried, fit to store;
      unless that fetch was the gateway's, which refused our login: then it is the
      level's own. */
  lemma AcceptedIsLast(u: Url, o: Oracle, levels: seq<int>, log: seq<Act>, k: nat)
    requires Plan(levels) && Whole(u, o, levels) == End(Accepted, log) && FetchAt(log, k)
    ensures var l := Audit(log);
      && |l.stored| == 1 && l.stored[0].success && !NoContent(l.stored[0])
      && o.fetch(k + 1).Got? && (SamePage(l.stored[0], o.fetch(k + 1).result) || GatewayRefuses(o.fetch(k + 1).result))
  {
    ClimbByRules(u, o, levels);
    PlanStores(u, o, levels, log);
    PageEnds(u, o, levels, log);
    var before := log[..|log| - 3];
    FetchBefore(log, k);
    HandIs(u, o, before, k);
    GotBy(u, o, levels, log, |log| - 2);
    assert log[..|log| - 2] == before + [log[|log| - 3]];
    assert Tell(u, o, log[..|log| - 2]).fetched == Tell(u, o, before).fetched;
    LastStored(u, o, before, log[|log| - 3].level, k);
  }

  /** Acts that come only with an answer in hand. */
  predicate NeedsAnswer(a: Act) {
    a.Rejected? || a.CircuitGood? || a.Learned? || a.LearnedPoolBlocked?
  }

  lemma AnswerDue(u: Url, o: Oracle, levels: seq<int>, log: seq<Act>, a: Act)
    requires levels != [] && DueNext(u, o, levels, log) == Do(a) && NeedsAnswer(a)
    ensures Tell(u, o, log).fetched.Got? || (log != [] && NeedsAnswer(log[|log| - 1]))
  {
  }

  lemma {:induction false} GotBy(u: Url, o: Oracle, levels: seq<int>, log: seq<Act>, n: nat)
    requires levels != [] && Lawful(u, o, levels, log) && 0 < n <= |log| && NeedsAnswer(log[n - 1])
    ensures Tell(u, o, log[..n]).fetched.Got?
  {
    DueAt(u, o, levels, log, n - 1);
    AnswerDue(u, o, levels, log[..n - 1], log[n - 1]);
    assert log[..n] == log[..n - 1] + [log[n - 1]] && log[..n][..n - 1] == log[..n - 1];
    if !Tell(u, o, log[..n - 1]).fetched.Got? { GotBy(u, o, levels, log, n - 1); }
  }

  lemma LastStored(u: Url, o: Oracle, log: seq<Act>, level: int, k: nat)
    requires FetchAt(log, k)
    requires var l := Audit(log + [Learned(level)] + [Stored(Labelled(Tell(u, o, log).hand))] + [Told(Labelled(Tell(u, o, log).hand))]);
      |l.stored| == 1
    ensures var r := Labelled(Tell(u, o, log).hand);
      && Audit(log + [Learned(level)] + [Stored(r)] + [Told(r)]).stored == [r]
      && (o.fetch(k + 1).Got? ==> SamePage(r, o.fetch(k + 1).result) || GatewayRefuses(o.fetch(k + 1).result))
  {
    HandIs(u, o, log, k);
    PageAudit(log, level, Labelled(Tell(u, o, log).hand));
  }

  lemma PlanStores(u: Url, o: Oracle, levels: seq<int>, log: seq<Act>)
    requires Plan(levels) && Whole(u, o, levels) == End(Accepted, log)
    ensures |Audit(log).stored| == 1 && Audit(log).stored[0].success
  {
    PlanSound(u, o, levels);
  }

  lemma FetchBefore(log: seq<Act>, k: nat)
    requires FetchAt(log, k) && |log| >= 3 && log[|log| - 3].Learned? && log[|log| - 2].Stored? && log[|log| - 1].Told?
    ensures FetchAt(log[..|log| - 3], k)
  {
  }

  lemma PageAudit(log: seq<Act>, level: int, r: Result)
    ensures Audit(log + [Learned(level)] + [Stored(r)] + [Told(r)]).stored == Audit(log).stored + [r]
  {
    AuditAdd(log, Learned(level));
    AuditAdd(log + [Learned(level)], Stored(r));
    AuditAdd(log + [Learned(level)] + [Stored(r)], Told(r));
  }
}
