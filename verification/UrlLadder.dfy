/** One URL of a job: what level memory lets it skip, the climb through the
    levels, and the one outcome it ends with; then the job's own verdict. Every
    collaborator's answer is an arbitrary oracle. */
module UrlLadder {
  import opened Basics
  import opened Outcome

  // ----- which levels -----

  const LEVELS := [1, 2, 3]

  /** _resolve_levels: the ladder narrowed to the caller's range. */
  function Resolve(low: int, high: int): seq<int> {
    Between(LEVELS, low, high)
  }

  function Between(levels: seq<int>, low: int, high: int): seq<int> {
    if levels == [] then []
    else (if low <= levels[0] <= high then [levels[0]] else []) + Between(levels[1..], low, high)
  }

  /** A stored hint: nothing, something unreadable, or a number. */
  datatype Hint = NoHint | Garbage | At(level: int)

  /** LevelMemory.plan's start level: the first level when memory is off, on a
      re-probe or a failed read; else the hint, clamped into the ladder. */
  function StartLevel(neutral: bool, hint: Hint, levels: seq<int>): int
    requires levels != []
  {
    if neutral || !hint.At? then levels[0] else Min(Max(hint.level, levels[0]), levels[|levels| - 1])
  }

  ghost predicate Climbing(levels: seq<int>) {
    forall i, j :: 0 <= i < j < |levels| ==> levels[i] < levels[j]
  }

  lemma {:induction false} BetweenSuffix(levels: seq<int>, start: nat, top: int)
    requires Climbing(levels) && start < |levels| && top == levels[|levels| - 1]
    ensures Between(levels, levels[start], top) == levels[start..]
    decreases |levels|
  {
    if start == 0 {
      AllBetween(levels, levels[0], top);
    } else {
      BetweenSuffix(levels[1..], start - 1, top);
    }
  }

  lemma {:induction false} AllBetween(levels: seq<int>, start: int, top: int)
    requires Climbing(levels) && (levels != [] ==> start <= levels[0] && levels[|levels| - 1] <= top)
    ensures Between(levels, start, top) == levels
    decreases |levels|
  {
    if levels != [] { AllBetween(levels[1..], start, top); }
  }

  /** The levels a URL will try: the ladder from its start level up. */
  function UrlLevels(low: int, high: int, neutral: bool, hint: Hint): seq<int>
    requires Resolve(low, high) != []
  {
    var levels := Resolve(low, high);
    Between(levels, StartLevel(neutral, hint, levels), levels[|levels| - 1])
  }

  /** Whatever hint is stored, the levels tried are a nonempty, strictly rising
      suffix of the caller's own range: a hint only ever skips levels below it,
      and never moves the start out of the range. */
  lemma LadderSuffix(low: int, high: int, neutral: bool, hint: Hint) returns (start: int)
    requires 1 <= low <= high <= 3
    ensures Rungs(Resolve(low, high), low, high) && low <= start <= high
    ensures UrlLevels(low, high, neutral, hint) == Resolve(low, high)[start - low..]
    ensures neutral || !hint.At? ==> start == low
    ensures hint.At? && !neutral ==> start == if hint.level < low then low else if hint.level > high then high else hint.level
  {
    ResolveRange(low, high);
    start := SuffixFrom(Resolve(low, high), low, high, neutral, hint);
    PlanIs(low, high, neutral, hint);
  }

  lemma PlanIs(low: int, high: int, neutral: bool, hint: Hint)
    requires Resolve(low, high) != []
    ensures var levels := Resolve(low, high);
      UrlLevels(low, high, neutral, hint) == Between(levels, StartLevel(neutral, hint, levels), levels[|levels| - 1])
  {
  }

  /** Every level of the range, in order. */
  ghost predicate Rungs(levels: seq<int>, low: int, high: int) {
    |levels| == high - low + 1 && forall i :: 0 <= i < |levels| ==> levels[i] == low + i
  }

  lemma SuffixFrom(levels: seq<int>, low: int, high: int, neutral: bool, hint: Hint) returns (start: int)
    requires low <= high && Rungs(levels, low, high)
    ensures start == StartLevel(neutral, hint, levels) && low <= start <= high
    ensures Between(levels, StartLevel(neutral, hint, levels), levels[|levels| - 1]) == levels[start - low..]
    ensures neutral || !hint.At? ==> start == low
    ensures hint.At? && !neutral ==> start == if hint.level < low then low else if hint.level > high then high else hint.level
  {
    start := StartLevel(neutral, hint, levels);
    BetweenSuffix(levels, start - low, high);
    assert levels[|levels| - 1] == high;
  }

  lemma ResolveRange(low: int, high: int)
    requires 1 <= low <= high <= 3
    ensures Rungs(Resolve(low, high), low, high)
  {
    assert LEVELS[1..] == [2, 3] && LEVELS[1..][1..] == [3] && LEVELS[1..][1..][1..] == [];
  }

  // ----- one URL -----

  /** `eligible`: the paid gateway is a fallback (free first). `admission`: host
      admission is on. `gatewayFirst`, `skipped`: what level memory said. */
  datatype Url = Url(eligible: bool, admission: bool, gatewayFirst: bool, skipped: bool)

  /** Answers may change with everything done so far: they are indexed by it. */
  datatype Oracle = Oracle(
    circuitOpen: nat -> bool,
    refused: nat -> bool,
    slot: nat -> bool,
    fetch: nat -> Fetched,
    converts: nat -> bool)

  datatype Act =
    | Passed(level: int)
    | Tried(level: int, forced: bool)
    | Retried(level: int)
    | Rejected(level: int, result: Result)
    | CircuitGood
    | CircuitBad
    | Learned(level: int)
    | LearnedPoolBlocked
    | Dlq(category: Category, level: int, holdBack: Option<int>)
    | Erred
    | Stored(result: Result)
    | Told(result: Result)

  datatype Climb = Climb(skipped: bool, last: Option<Result>, answer: Option<Result>, log: seq<Act>)

  /** How a URL ended: an accepted page, a missing page, its attempts used up,
      no attempt allowed, a fault of ours, or the job cancelled. */
  datatype How = Accepted | Missing | GaveUp | NotAllowed | Faulted | Cancelled

  datatype Verdict = Up(climb: Climb) | End(how: How, log: seq<Act>)

  /** `status or fallback`: zero is no status either. */
  function StatusOr(status: Option<int>, fallback: int): int {
    if status.Some? && status.value != 0 then status.value else fallback
  }

  function Reject(s: Climb, level: int, r: Result): Climb {
    s.(answer := if r.status.Some? then Some(r) else s.answer, log := s.log + [Rejected(level, r)])
  }

  /** A terminal 429's Retry-After holds the re-drive back. */
  function HoldBack(r: Result): Option<int> {
    if r.category == Some(RateLimited) then r.retryAfter else None
  }

  /** Every failed end: one dead letter, one error, one result stored and told. */
  function Fail(s: Climb, how: How, r: Result, category: Category, level: int): Verdict {
    End(how, s.log + [Dlq(category, level, HoldBack(r))] + [Erred] + [Stored(r)] + [Told(r)])
  }

  function Noted(r: Result, skipped: bool): Result {
    r.(gatewaySkipped := r.gatewaySkipped || skipped)
  }

  /** One level of the ladder. */
  function LevelStep(u: Url, o: Oracle, s: Climb, level: int, top: int): Verdict {
    var open := o.circuitOpen(|s.log|);
    if open && !(u.eligible && !o.refused(|s.log|)) then
      Fail(s, NotAllowed, Noted(Failure(level, Category.CircuitOpen), s.skipped || u.eligible), Category.CircuitOpen, level)
    else if open && level == 1 then
      Up(s.(log := s.log + [Passed(level)]))
    else if !(u.admission && level >= 2) && !o.slot(|s.log|) then
      Fail(s, NotAllowed, Failure(level, PolitenessTimeout), PolitenessTimeout, level)
    else
      Attempt(u, o, s.(log := s.log + [Tried(level, open || u.gatewayFirst)]), level, top)
  }

  function Attempt(u: Url, o: Oracle, s: Climb, level: int, top: int): Verdict {
    match o.fetch(|s.log|)
    case Got(r) => Consider(u, o, s.(skipped := s.skipped || r.gatewaySkipped), level, top, r)
    case Stopped(why) => Interrupt(s, why, top)
    case Broke(down) => Crash(s, down, top)
  }

  /** An ordinary 404 or 410 page is the URL's answer. */
  predicate FinalNotFound(r: Result) {
    r.status in {Some(404), Some(410)} && r.page.ordinary
  }

  predicate WantsGateway(u: Url, level: int, r: Result) {
    level >= 2 && u.eligible && r.source != Some(Gateway) && (IsBlock(r.category) || (r.success && r.page.challenge))
  }

  function Consider(u: Url, o: Oracle, s: Climb, level: int, top: int, r: Result): Verdict {
    if FinalNotFound(r) then
      Fail(Reject(s, level, r), Missing, r.(success := false, challengePage := false, category := Some(NotFound)), NotFound, level)
    else if !WantsGateway(u, level, r) then
      Weigh(o, s, level, top, r)
    else if o.refused(|s.log|) then
      Weigh(o, s, level, top, r.(gatewaySkipped := true))
    else
      Retry(o, s.(log := s.log + [Retried(level)]), level, top, r)
  }

  /** The same level once more, through the gateway or not at all. */
  function Retry(o: Oracle, s: Climb, level: int, top: int, r: Result): Verdict {
    match o.fetch(|s.log|)
    case Stopped(why) => Interrupt(s, why, top)
    case Broke(down) => Crash(s, down, top)
    case Got(g) =>
      if g.category == Some(ProxyAuthFailed) && g.source == Some(Gateway) then
        Weigh(o, s.(skipped := true), level, top, r)
      else
        var s := Reject(s, level, r);
        Weigh(o, if g.source == Some(Gateway) && g.success && !LooksBlocked(g) then s.(log := s.log + [LearnedPoolBlocked]) else s, level, top, g)
  }

  /** A page nobody should store as content. */
  predicate StillBlocked(r: Result) {
    r.page.challenge || r.page.jsGated || IsBlock(Classify(StatusOr(r.status, 200)))
  }

  function Downgraded(r: Result): Result {
    r.(success := false, category := Some(OrElse(Classify(StatusOr(r.status, 0)), DetectionBlock)))
  }

  function Weigh(o: Oracle, s: Climb, level: int, top: int, r: Result): Verdict {
    var s := s.(skipped := s.skipped || r.gatewaySkipped);
    if r.success then
      var r := r.(challengePage := r.page.challenge);
      var s := s.(log := s.log + [CircuitGood]);
      if !StillBlocked(r) then
        var s := s.(log := s.log + [Learned(level)]);
        if o.converts(|s.log|) then End(Accepted, s.log + [Stored(r)] + [Told(r)]) else Crash(s, false, top)
      else
        var s := Reject(s, level, r);
        if level < top then Up(s.(last := Some(r)))
        else Up(s.(last := Some(Downgraded(r)), log := s.log + [CircuitBad]))
    else
      var s := if r.category == Some(ProxyAuthFailed) then s else s.(log := s.log + [CircuitBad]);
      var s := Reject(s, level, r);
      if r.category.Some? && (EndsUrl(r.category.value) || (r.category == Some(ProxyAuthFailed) && r.source == Some(Gateway))) then
        var final := OrElse(RateLimit(s, r, level), r);
        Fail(s, GaveUp, Noted(final, s.skipped), final.category.value, level)
      else
        Up(s.(last := Some(r)))
  }

  /** The site's last word was a 429 and the last attempt got none: the 429 is
      the URL's answer. */
  function RateLimit(s: Climb, failed: Result, level: int): (limited: Option<Result>)
    ensures limited.Some? ==> limited.value.category == Some(RateLimited)
  {
    if !NoSiteAnswer(failed.category) || s.answer.None? then None else
    var a := s.answer.value;
    if Classify(StatusOr(a.status, 0)) != Some(RateLimited) then None
    else Some(Result(false, level, Some(RateLimited), a.status, a.source, a.retryAfter, false, a.challengePage, Page(false, false, false)))
  }

  /** Every level used up. */
  function Exhausted(s: Climb, top: int): Verdict {
    if s.last.None? then
      Fail(s, GaveUp, Noted(Failure(top, Category.ProxyExhausted), s.skipped), Category.ProxyExhausted, top)
    else
      var l := s.last.value;
      var own := Result(false, top, Some(OrElse(l.category, Category.ProxyExhausted)), l.status, l.source, l.retryAfter, false, l.challengePage, Page(false, false, false));
      var final := if IsBlock(own.category) then own else OrElse(RateLimit(s, l, top), own);
      Fail(s, GaveUp, Noted(final, s.skipped), final.category.value, top)
  }

  function Interrupt(s: Climb, why: Refusal, top: int): Verdict {
    match why
    case CancelledJob => End(Cancelled, s.log)
    case NoCapacity => Fail(s, NotAllowed, Failure(top, CapacityTimeout), CapacityTimeout, top)
    case StoreDown => Fail(s, Faulted, Failure(top, DependencyUnavailable), DependencyUnavailable, top)
  }

  function Crash(s: Climb, storeDown: bool, top: int): Verdict {
    if storeDown then Fail(s, Faulted, Failure(top, DependencyUnavailable), DependencyUnavailable, top)
    else Fail(s.(log := s.log + [CircuitBad]), Faulted, Failure(top, ParseError), ParseError, top)
  }

  ghost function ClimbFrom(u: Url, o: Oracle, s: Climb, levels: seq<int>, top: int): Verdict
    decreases |levels|
  {
    if levels == [] then Exhausted(s, top) else
    match LevelStep(u, o, s, levels[0], top)
    case Up(s') => ClimbFrom(u, o, s', levels[1..], top)
    case End(how, log) => End(how, log)
  }

  function Bottom(u: Url): Climb {
    Climb(u.skipped, None, None, [])
  }

  // ----- the books -----

  /** The log read back by an auditor who knows nothing of the climb. `fair`: no
      page worth having was ever turned away. */
  datatype Ledger = Ledger(
    stored: seq<Result>, told: seq<Result>, dead: seq<Category>, errors: nat, held: Option<int>,
    gone: seq<int>, tried: seq<int>, fetches: nat, rejected: Option<Result>, answered: Option<Result>, fair: bool)

  function Read(l: Ledger, a: Act): Ledger {
    match a
    case Passed(level) => l.(gone := l.gone + [level])
    case Tried(level, _) => l.(gone := l.gone + [level], tried := l.tried + [level], fetches := l.fetches + 1)
    case Retried(_) => l.(fetches := l.fetches + 1)
    case Rejected(_, r) => l.(rejected := Some(r), answered := if r.status.Some? then Some(r) else l.answered, fair := l.fair && Unfit(r))
    case Dlq(c, _, hold) => l.(dead := l.dead + [c], held := hold)
    case Erred => l.(errors := l.errors + 1)
    case Stored(r) => l.(stored := l.stored + [r])
    case Told(r) => l.(told := l.told + [r])
    case _ => l
  }

  predicate Unfit(r: Result) {
    !r.success || StillBlocked(r) || IsBlock(r.category)
  }

  function Audit(log: seq<Act>): Ledger {
    if log == [] then Ledger([], [], [], 0, None, [], [], 0, None, None, true)
    else Read(Audit(log[..|log| - 1]), log[|log| - 1])
  }

  lemma AuditAdd(log: seq<Act>, a: Act)
    ensures Audit(log + [a]) == Read(Audit(log), a)
  {
    assert (log + [a])[..|log|] == log;
  }

  /** Nothing has been said of the URL yet. */
  predicate Unsettled(l: Ledger) {
    l.stored == [] && l.told == [] && l.dead == [] && l.errors == 0 && l.held.None?
  }

  ghost predicate Books(s: Climb) {
    var l := Audit(s.log);
    Unsettled(l) && l.fair && l.answered == s.answer
  }

  /** The attempt kept for the end is the last one rejected, or, from the last
      level, that page relabelled as the block it is. */
  predicate Kept(rejected: Option<Result>, last: Option<Result>) {
    match rejected
    case None => last.None?
    case Some(r) => last == Some(r) || (r.success && StillBlocked(r) && last == Some(Downgraded(r)))
  }

  /** Exactly one outcome. An accepted page is stored and told once, and is no
      page that still looks blocked. A failure is one result stored and told,
      one error and one dead letter under the result's own category. A cancelled
      job says nothing. */
  predicate Settled(how: How, l: Ledger) {
    match how
    case Cancelled => Unsettled(l)
    case Accepted =>
      && l.dead == [] && l.errors == 0 && |l.stored| == 1 && l.told == l.stored
      && l.stored[0].success && !StillBlocked(l.stored[0])
    case _ =>
      && |l.stored| == 1 && l.told == l.stored && l.errors == 1 && !l.stored[0].success
      && l.stored[0].category.Some? && l.dead == [l.stored[0].category.value] && l.held == HoldBack(l.stored[0])
  }

  /** What an attempt failed of: its own category, or, for a page that came back
      as a success, the block its status says it is. */
  function OwnCategory(r: Result): Category {
    if r.success then OrElse(Classify(StatusOr(r.status, 0)), DetectionBlock)
    else OrElse(r.category, Category.ProxyExhausted)
  }

  /** The last attempt got no answer from the site, whose last answer was a 429. */
  predicate HidesRateLimit(l: Ledger) {
    && l.rejected.Some? && !l.rejected.value.success && NoSiteAnswer(l.rejected.value.category)
    && l.answered.Some? && l.answered.value.status == Some(429)
  }

  /** What a URL that used its attempts up is stored as: never an infrastructure
      failure over a rate limit, and otherwise the last attempt's own category. */
  predicate Truthful(l: Ledger) {
    && |l.stored| == 1
    && var final := l.stored[0];
      if l.rejected.None? then
        final.category == Some(Category.ProxyExhausted) && final.status.None?
      else if HidesRateLimit(l) then
        && final.category == Some(RateLimited)
        && final.status == Some(429) && final.retryAfter == l.answered.value.retryAfter == l.held
      else
        && final.category == Some(OwnCategory(l.rejected.value))
        && final.status == l.rejected.value.status && final.source == l.rejected.value.source
        && final.retryAfter == l.rejected.value.retryAfter
  }

  /** Where the climb stands, from the books `l0` it had before. */
  ghost predicate Sound(l0: Ledger, v: Verdict) {
    match v
    case Up(s) =>
      var l := Audit(s.log);
      Books(s) && Kept(l.rejected, s.last) && SameTrail(l0, l)
    case End(how, log) =>
      var l := Audit(log);
      Settled(how, l) && l.fair && SameTrail(l0, l) && (how.GaveUp? ==> Truthful(l))
  }

  predicate SameTrail(l0: Ledger, l: Ledger) {
    l.gone == l0.gone && l.tried == l0.tried && l.fetches == l0.fetches
  }

  lemma AddQuietly(s: Climb, a: Act)
    requires Books(s) && (a.CircuitGood? || a.CircuitBad? || a.Learned? || a.LearnedPoolBlocked?)
    ensures Books(s.(log := s.log + [a])) && Audit(s.log + [a]) == Audit(s.log)
  {
    QuietAudit(s.log, a);
  }

  lemma QuietAudit(log: seq<Act>, a: Act)
    requires a.CircuitGood? || a.CircuitBad? || a.Learned? || a.LearnedPoolBlocked?
    ensures Audit(log + [a]) == Audit(log)
  {
    AuditAdd(log, a);
  }

  lemma RejectBooks(s: Climb, level: int, r: Result)
    requires Books(s) && Unfit(r)
    ensures Books(Reject(s, level, r))
    ensures SameTrail(Audit(s.log), Audit(Reject(s, level, r).log)) && Audit(Reject(s, level, r).log).rejected == Some(r)
  {
    AuditAdd(s.log, Rejected(level, r));
  }

  lemma FailSound(s: Climb, how: How, r: Result, category: Category, level: int)
    requires Books(s) && !r.success && r.category == Some(category) && !how.Accepted? && !how.Cancelled?
    requires how.GaveUp? ==> Truthful(Audit(s.log).(stored := [r], held := HoldBack(r)))
    ensures Sound(Audit(s.log), Fail(s, how, r, category, level))
  {
    var log := s.log;
    AuditAdd(log, Dlq(category, level, HoldBack(r)));
    AuditAdd(log + [Dlq(category, level, HoldBack(r))], Erred);
    AuditAdd(log + [Dlq(category, level, HoldBack(r))] + [Erred], Stored(r));
    AuditAdd(log + [Dlq(category, level, HoldBack(r))] + [Erred] + [Stored(r)], Told(r));
  }

  lemma CrashSound(s: Climb, storeDown: bool, top: int)
    requires Books(s)
    ensures Sound(Audit(s.log), Crash(s, storeDown, top))
  {
    if storeDown {
      FailSound(s, Faulted, Failure(top, DependencyUnavailable), DependencyUnavailable, top);
    } else {
      AddQuietly(s, CircuitBad);
      FailSound(s.(log := s.log + [CircuitBad]), Faulted, Failure(top, ParseError), ParseError, top);
    }
  }

  lemma InterruptSound(s: Climb, why: Refusal, top: int)
    requires Books(s)
    ensures Sound(Audit(s.log), Interrupt(s, why, top))
  {
    match why
    case CancelledJob =>
    case NoCapacity => FailSound(s, NotAllowed, Failure(top, CapacityTimeout), CapacityTimeout, top);
    case StoreDown => FailSound(s, Faulted, Failure(top, DependencyUnavailable), DependencyUnavailable, top);
  }

  lemma AcceptSound(o: Oracle, s: Climb, level: int, top: int, r: Result)
    requires Books(s) && r.success && !StillBlocked(r)
    ensures var s' := s.(log := s.log + [Learned(level)]);
      && Sound(Audit(s.log), End(Accepted, s'.log + [Stored(r)] + [Told(r)]))
      && Sound(Audit(s.log), Crash(s', false, top))
  {
    var s' := s.(log := s.log + [Learned(level)]);
    AddQuietly(s, Learned(level));
    AuditAdd(s'.log, Stored(r));
    AuditAdd(s'.log + [Stored(r)], Told(r));
    CrashSound(s', false, top);
  }

  lemma BlockedSound(s: Climb, level: int, top: int, r: Result)
    requires Books(s) && r.success && StillBlocked(r)
    ensures var s' := Reject(s, level, r);
      && Sound(Audit(s.log), Up(s'.(last := Some(r))))
      && Sound(Audit(s.log), Up(s'.(last := Some(Downgraded(r)), log := s'.log + [CircuitBad])))
  {
    RejectBooks(s, level, r);
    AddQuietly(Reject(s, level, r), CircuitBad);
  }

  lemma GiveUpSound(s: Climb, level: int, r: Result)
    requires Books(s) && Audit(s.log).rejected == Some(r) && !r.success && r.category.Some?
    ensures var final := OrElse(RateLimit(s, r, level), r);
      final.category.Some? && Sound(Audit(s.log), Fail(s, GaveUp, Noted(final, s.skipped), final.category.value, level))
  {
    var final := OrElse(RateLimit(s, r, level), r);
    FailSound(s, GaveUp, Noted(final, s.skipped), final.category.value, level);
  }

  lemma PageSound(o: Oracle, s: Climb, level: int, top: int, r: Result)
    requires Books(s) && r.success
    ensures Sound(Audit(s.log), Weigh(o, s, level, top, r))
  {
    var page := r.(challengePage := r.page.challenge);
    var s1 := s.(skipped := s.skipped || r.gatewaySkipped, log := s.log + [CircuitGood]);
    AddQuietly(s.(skipped := s.skipped || r.gatewaySkipped), CircuitGood);
    if StillBlocked(page) { BlockedSound(s1, level, top, page); } else { AcceptSound(o, s1, level, top, page); }
  }

  lemma WeighSound(o: Oracle, s: Climb, level: int, top: int, r: Result)
    requires Books(s)
    ensures Sound(Audit(s.log), Weigh(o, s, level, top, r))
  {
    var s1 := s.(skipped := s.skipped || r.gatewaySkipped);
    if r.success {
      PageSound(o, s, level, top, r);
    } else {
      AddQuietly(s1, CircuitBad);
      WeighFailed(o, s, level, top, r);
      if r.category == Some(ProxyAuthFailed) { FailedSound(s1, level, r); } else { FailedSound(s1.(log := s1.log + [CircuitBad]), level, r); }
    }
  }

  lemma FailedSound(s: Climb, level: int, r: Result)
    requires Books(s) && !r.success
    ensures var t := Reject(s, level, r); var final := OrElse(RateLimit(t, r, level), r);
      && Sound(Audit(s.log), Up(t.(last := Some(r))))
      && (r.category.Some? ==> final.category.Some? && Sound(Audit(s.log), Fail(t, GaveUp, Noted(final, t.skipped), final.category.value, level)))
  {
    RejectBooks(s, level, r);
    if r.category.Some? { GiveUpSound(Reject(s, level, r), level, r); }
  }

  /** An attempt without a page: it ends the URL or is left to the next level. */
  lemma WeighFailed(o: Oracle, s: Climb, level: int, top: int, r: Result)
    requires !r.success
    ensures var s1 := s.(skipped := s.skipped || r.gatewaySkipped);
      var t := Reject(if r.category == Some(ProxyAuthFailed) then s1 else s1.(log := s1.log + [CircuitBad]), level, r);
      var final, v := OrElse(RateLimit(t, r, level), r), Weigh(o, s, level, top, r);
      v == Up(t.(last := Some(r)))
      || (r.category.Some? && final.category.Some? && v == Fail(t, GaveUp, Noted(final, t.skipped), final.category.value, level))
  {
  }

  lemma ExhaustedSound(s: Climb, top: int)
    requires Books(s) && Kept(Audit(s.log).rejected, s.last) && (s.last.Some? ==> !s.last.value.success)
    ensures Sound(Audit(s.log), Exhausted(s, top))
  {
    if s.last.None? {
      FailSound(s, GaveUp, Noted(Failure(top, Category.ProxyExhausted), s.skipped), Category.ProxyExhausted, top);
    } else {
      var final := Exhausted(s, top).log[|s.log| + 2].result;
      FailSound(s, GaveUp, final, final.category.value, top);
    }
  }

  lemma RetrySound(o: Oracle, s: Climb, level: int, top: int, r: Result)
    requires Books(s) && Unfit(r)
    ensures Sound(Audit(s.log), Retry(o, s, level, top, r))
  {
    match o.fetch(|s.log|)
    case Stopped(why) => InterruptSound(s, why, top);
    case Broke(down) => CrashSound(s, down, top);
    case Got(g) =>
      if g.category == Some(ProxyAuthFailed) && g.source == Some(Gateway) {
        WeighSound(o, s.(skipped := true), level, top, r);
      } else {
        var s1 := Reject(s, level, r);
        RejectBooks(s, level, r);
        AddQuietly(s1, LearnedPoolBlocked);
        WeighSound(o, s1, level, top, g);
        WeighSound(o, s1.(log := s1.log + [LearnedPoolBlocked]), level, top, g);
      }
  }

  /** The gateway retry is one more fetch, of a browser level only. */
  lemma ConsiderSound(u: Url, o: Oracle, s: Climb, level: int, top: int, r: Result)
    requires Books(s)
    ensures var l := Audit(s.log); var v := Consider(u, o, s, level, top, r);
      Sound(l, v) || (level >= 2 && Sound(l.(fetches := l.fetches + 1), v))
  {
    if FinalNotFound(r) {
      RejectBooks(s, level, r);
      FailSound(Reject(s, level, r), Missing, r.(success := false, challengePage := false, category := Some(NotFound)), NotFound, level);
    } else if !WantsGateway(u, level, r) {
      WeighSound(o, s, level, top, r);
    } else if o.refused(|s.log|) {
      WeighSound(o, s, level, top, r.(gatewaySkipped := true));
    } else {
      AuditAdd(s.log, Retried(level));
      RetrySound(o, s.(log := s.log + [Retried(level)]), level, top, r);
    }
  }

  /** Fetches a level may cost: its own, and the gateway's from level 2 up. */
  function Cost(level: int): nat {
    if level >= 2 then 2 else 1
  }

  /** A level that was tried. */
  function Tries(l: Ledger, level: int): Ledger {
    l.(gone := l.gone + [level], tried := l.tried + [level], fetches := l.fetches + 1)
  }

  /** What one level adds to the trail: nothing, if it was not allowed an attempt; or
      that it was passed by or tried. */
  ghost predicate LevelSound(l0: Ledger, v: Verdict, level: int, open: bool) {
    || (v.End? && v.how.NotAllowed? && Sound(l0, v))
    || (v.Up? && level == 1 && open && Sound(l0.(gone := l0.gone + [level]), v))
    || Sound(Tries(l0, level), v)
    || (level >= 2 && Sound(Tries(l0, level).(fetches := l0.fetches + 2), v))
  }

  lemma AttemptSound(u: Url, o: Oracle, s: Climb, level: int, top: int, forced: bool)
    requires Books(s)
    ensures LevelSound(Audit(s.log), Attempt(u, o, s.(log := s.log + [Tried(level, forced)]), level, top), level, o.circuitOpen(|s.log|))
  {
    AuditAdd(s.log, Tried(level, forced));
    var s1 := s.(log := s.log + [Tried(level, forced)]);
    match o.fetch(|s1.log|)
    case Stopped(why) => InterruptSound(s1, why, top);
    case Broke(down) => CrashSound(s1, down, top);
    case Got(r) => ConsiderSound(u, o, s1.(skipped := s1.skipped || r.gatewaySkipped), level, top, r);
  }

  lemma StepSound(u: Url, o: Oracle, s: Climb, level: int, top: int)
    requires Books(s) && Kept(Audit(s.log).rejected, s.last)
    ensures LevelSound(Audit(s.log), LevelStep(u, o, s, level, top), level, o.circuitOpen(|s.log|))
  {
    var open := o.circuitOpen(|s.log|);
    if open && !(u.eligible && !o.refused(|s.log|)) {
      FailSound(s, NotAllowed, Noted(Failure(level, Category.CircuitOpen), s.skipped || u.eligible), Category.CircuitOpen, level);
    } else if open && level == 1 {
      AuditAdd(s.log, Passed(level));
    } else {
      if !(u.admission && level >= 2) && !o.slot(|s.log|) {
        FailSound(s, NotAllowed, Failure(level, PolitenessTimeout), PolitenessTimeout, level);
      } else {
        AttemptSound(u, o, s, level, top, open || u.gatewayFirst);
      }
    }
  }

  /** A page that came back as a success is never left over from the top level. */
  lemma TopSettles(u: Url, o: Oracle, s: Climb, top: int)
    requires top == 1 ==> s.last.None?
    ensures var v := LevelStep(u, o, s, top, top);
      v.Up? && v.climb.last.Some? ==> !v.climb.last.value.success
  {
    forall t: Climb, r: Result ensures LastFails(Weigh(o, t, top, top, r)) { WeighTop(o, t, top, r); }
    if LevelStep(u, o, s, top, top) != Up(s.(log := s.log + [Passed(top)])) { AttemptTop(u, o, s, top); }
  }

  predicate LastFails(v: Verdict) {
    v.Up? && v.climb.last.Some? ==> !v.climb.last.value.success
  }

  lemma WeighTop(o: Oracle, s: Climb, top: int, r: Result)
    ensures LastFails(Weigh(o, s, top, top, r))
  {
  }

  lemma AttemptTop(u: Url, o: Oracle, s: Climb, top: int)
    requires LevelStep(u, o, s, top, top) != Up(s.(log := s.log + [Passed(top)]))
    requires forall t: Climb, r: Result :: LastFails(Weigh(o, t, top, top, r))
    ensures LastFails(LevelStep(u, o, s, top, top))
  {
  }

  function Allowed(levels: seq<int>): nat {
    if levels == [] then 0 else Cost(levels[0]) + Allowed(levels[1..])
  }

  /** The levels gone by were all tried, in order, but for a level 1 passed by because
      the circuit was found open there, before anything else was done. */
  ghost predicate Trail(o: Oracle, l: Ledger) {
    || l.tried == l.gone
    || (o.circuitOpen(0) && l.gone != [] && l.gone[0] == 1 && l.tried == l.gone[1..])
  }

  lemma TrailGrows(o: Oracle, s: Climb, v: Verdict, level: int)
    requires LevelSound(Audit(s.log), v, level, o.circuitOpen(|s.log|)) && Trail(o, Audit(s.log))
    requires level == 1 ==> s.log == [] && Audit(s.log).gone == []
    ensures var l0, l := Audit(s.log), Audit(LogOf(v));
      && Trail(o, l) && l.fetches <= l0.fetches + Cost(level)
      && (l.gone == l0.gone + [level] || (v.End? && l.gone == l0.gone))
  {
  }

  function LogOf(v: Verdict): seq<Act> {
    match v case Up(s) => s.log case End(_, log) => log
  }

  /** A rising ladder cut in two: what has gone by, and what is still to come. */
  ghost predicate Ladder(gone: seq<int>, levels: seq<int>, top: int) {
    && Climbing(gone + levels) && (forall level <- gone + levels :: level >= 1)
    && gone + levels != [] && (gone + levels)[|gone + levels| - 1] == top
  }

  lemma NextRung(gone: seq<int>, levels: seq<int>, top: int)
    requires Ladder(gone, levels, top) && levels != []
    ensures forall t <- gone :: t < levels[0]
    ensures Ladder(gone + [levels[0]], levels[1..], top)
    ensures levels[1..] == [] ==> levels[0] == top
    ensures levels[0] == 1 ==> gone == []
    ensures (gone + [levels[0]]) + levels[1..] == gone + levels
  {
    var all := gone + levels;
    assert (gone + [levels[0]]) + levels[1..] == all;
    assert all[|gone|] == levels[0];
    forall i | 0 <= i < |gone| ensures gone[i] < levels[0] {
      assert all[i] == gone[i] < all[|gone|];
    }
    if gone != [] { assert gone[0] in all; }
    if |levels| == 1 { assert all[|all| - 1] == levels[0]; }
  }

  lemma {:induction false} ClimbSound(u: Url, o: Oracle, s: Climb, gone: seq<int>, levels: seq<int>, top: int)
    requires Ladder(gone, levels, top)
    requires Books(s) && Kept(Audit(s.log).rejected, s.last) && Trail(o, Audit(s.log)) && Audit(s.log).gone == gone
    requires (gone == [] ==> s.last.None? && s.log == []) && (levels == [] && s.last.Some? ==> !s.last.value.success)
    ensures var v := ClimbFrom(u, o, s, levels, top);
      && Ended(v) && Trail(o, Audit(v.log)) && Audit(v.log).gone <= gone + levels
      && Audit(v.log).fetches <= Audit(s.log).fetches + Allowed(levels)
    decreases |levels|
  {
    if levels == [] {
      ExhaustedSound(s, top);
    } else {
      var level, v := levels[0], LevelStep(u, o, s, levels[0], top);
      NextRung(gone, levels, top);
      StepSound(u, o, s, level, top);
      TrailGrows(o, s, v, level);
      if v.Up? {
        if levels[1..] == [] { TopSettles(u, o, s, top); }
        ClimbSound(u, o, v.climb, gone + [level], levels[1..], top);
      }
    }
  }

  /** The climb is over and its books are right. */
  ghost predicate Ended(v: Verdict) {
    v.End? && var l := Audit(v.log); Settled(v.how, l) && (v.how.GaveUp? ==> Truthful(l)) && l.fair
  }

  /** For every oracle: one outcome, the truth about a rate limit, no good page turned
      away, and at most two fetches a level (one at level 1). The levels gone by are the
      first of the plan, none left out, and each was tried once, but for a level 1 whose
      circuit was open. */
  lemma OneOutcome(u: Url, o: Oracle, levels: seq<int>)
    requires Climbing(levels) && levels != [] && forall level <- levels :: level >= 1
    ensures var v := ClimbFrom(u, o, Bottom(u), levels, levels[|levels| - 1]);
      Ended(v) && Trail(o, Audit(v.log)) && Audit(v.log).gone <= levels && Audit(v.log).fetches <= Allowed(levels)
  {
    NothingGone(levels);
    BottomBooks(u);
    ClimbSound(u, o, Bottom(u), [], levels, levels[|levels| - 1]);
  }

  lemma NothingGone(levels: seq<int>)
    requires Climbing(levels) && levels != [] && forall level <- levels :: level >= 1
    ensures [] + levels == levels && Ladder([], levels, levels[|levels| - 1])
  {
    assert [] + levels == levels;
  }

  lemma BottomBooks(u: Url)
    ensures Books(Bottom(u)) && Kept(Audit(Bottom(u).log).rejected, Bottom(u).last) && Audit(Bottom(u).log).gone == []
    ensures Audit(Bottom(u).log).tried == [] && Audit(Bottom(u).log).fetches == 0
  {
  }

  /** The level loop, with its for/else. */
  method ClimbLadder(u: Url, o: Oracle, levels: seq<int>) returns (how: How, log: seq<Act>)
    requires Climbing(levels) && levels != [] && forall level <- levels :: level >= 1
    ensures End(how, log) == ClimbFrom(u, o, Bottom(u), levels, levels[|levels| - 1])
    ensures Ended(End(how, log)) && Trail(o, Audit(log)) && Audit(log).gone <= levels && Audit(log).fetches <= Allowed(levels)
  {
    OneOutcome(u, o, levels);
    var top := levels[|levels| - 1];
    var s := Bottom(u);
    for i := 0 to |levels|
      invariant ClimbFrom(u, o, s, levels[i..], top) == ClimbFrom(u, o, Bottom(u), levels, top)
    {
      assert levels[i..][1..] == levels[i + 1..];
      match LevelStep(u, o, s, levels[i], top) {
        case Up(s') => s := s';
        case End(h, l) => return h, l;
      }
    }
    var end := Exhausted(s, top);
    return end.how, end.log;
  }
}
