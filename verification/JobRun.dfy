/** A job over its URLs: what each URL is spared before it climbs, and the
    verdict drawn from what the URLs came to. */
module JobRun {
  import opened Basics
  import opened Outcome
  import opened UrlLadder

  datatype Job = Job(low: int, high: int, bypassCache: bool, eligible: bool, admission: bool) {
    predicate Valid() { 1 <= low <= high <= 3 }
  }

  /** What one URL's lookups answer. URLs run at once: `noticed` says whether
      this one starts late enough to see a flag an earlier one raised, `stopped`
      whether it finds the job cancelled by itself (or by a later one's flag). */
  datatype Call = Call(
    noticed: bool, stopped: bool, done: bool, cached: Option<Result>, refusal: Option<Refused>,
    neutral: bool, hint: Hint, skipPool: bool, gatewayDown: bool, oracle: Oracle)

  /** A site's recent refusal of every level, as remembered. */
  datatype Refused = Refused(level: int, status: Option<int>, source: Option<Source>, skipped: bool)

  /** A row of the reuse cache: only successes are looked up. */
  function FromCache(r: Result): Result {
    r.(success := true, category := None)
  }

  function Reuse(row: Result): seq<Act> {
    [Stored(FromCache(row))] + [Told(FromCache(row))]
  }

  /** The refusal said again, at the level it was given on. */
  function Repeat(was: Refused): Verdict {
    var r := Failure(was.level, DetectionBlock).(status := was.status, source := was.source, gatewaySkipped := was.skipped);
    Fail(Reject(Climb(false, None, None, []), was.level, r), NotAllowed, r, DetectionBlock, was.level)
  }

  function UrlOf(job: Job, c: Call): Url {
    Url(job.eligible, job.admission,
        c.skipPool && job.eligible && !c.gatewayDown, c.skipPool && job.eligible && c.gatewayDown)
  }

  /** What became of one URL: nothing, or one entry of the books. */
  datatype Processed = Processed(cancelled: bool, log: seq<Act>)

  method ProcessUrl(job: Job, c: Call, cancelled: bool) returns (p: Processed)
    requires job.Valid()
    ensures p == UrlRun(job, c, cancelled)
  {
    if cancelled || c.stopped { return Processed(true, []); }
    if c.done { return Processed(false, []); }
    if !job.bypassCache && c.cached.Some? {
      return Processed(false, Reuse(c.cached.value));
    }
    if c.refusal.Some? {
      return Processed(false, Repeat(c.refusal.value).log);
    }
    LevelsOf(job, c);
    var how, log := ClimbLadder(UrlOf(job, c), c.oracle, UrlLevels(job.low, job.high, c.neutral, c.hint));
    return Processed(how == Cancelled, log);
  }

  lemma LevelsOf(job: Job, c: Call)
    requires job.Valid()
    ensures Resolve(job.low, job.high) != []
    ensures var levels := UrlLevels(job.low, job.high, c.neutral, c.hint);
      Climbing(levels) && levels != [] && forall level <- levels :: level >= 1
  {
    var start := LadderSuffix(job.low, job.high, c.neutral, c.hint);
  }

  ghost function UrlRun(job: Job, c: Call, cancelled: bool): Processed
    requires job.Valid()
  {
    if cancelled || c.stopped then Processed(true, [])
    else if c.done then Processed(false, [])
    else if !job.bypassCache && c.cached.Some? then
      Processed(false, Reuse(c.cached.value))
    else if c.refusal.Some? then
      Processed(false, Repeat(c.refusal.value).log)
    else Processed(CutShort(ClimbOf(job, c)), LogOf(ClimbOf(job, c)))
  }

  /** The URL's climb through its levels, when it comes to one. */
  ghost function ClimbOf(job: Job, c: Call): Verdict
    requires job.Valid()
  {
    LevelsOf(job, c);
    var levels := UrlLevels(job.low, job.high, c.neutral, c.hint);
    ClimbFrom(UrlOf(job, c), c.oracle, Bottom(UrlOf(job, c)), levels, levels[|levels| - 1])
  }

  /** The climb ended on a cancelled job. */
  ghost predicate CutShort(v: Verdict) {
    v.End? && v.how == Cancelled
  }

  /** A URL's books: silent, or one result with everything that goes with it. */
  predicate OneEntry(l: Ledger) {
    || Unsettled(l)
    || (&& |l.stored| == 1 && l.told == l.stored
        && l.errors == (if l.stored[0].success then 0 else 1)
        && (l.stored[0].success ==> l.dead == [])
        && (!l.stored[0].success ==> l.stored[0].category.Some? && l.dead == [l.stored[0].category.value]))
  }

  /** One outcome per URL, and silence exactly for a URL already scraped or a
      job found cancelled. */
  lemma UrlSettles(job: Job, c: Call, cancelled: bool)
    requires job.Valid()
    ensures var p := UrlRun(job, c, cancelled); var l := Audit(p.log);
      && OneEntry(l)
      && (l.stored == [] <==> p.cancelled || (c.done && !cancelled && !c.stopped))
      && (cancelled ==> p.cancelled)
  {
    LevelsOf(job, c);
    assert Audit([]) == Ledger([], [], [], 0, None, [], [], 0, None, None, true);
    if !cancelled && !c.stopped && !c.done {
      if !job.bypassCache && c.cached.Some? {
        ReuseSettles(c.cached.value);
      } else if c.refusal.Some? {
        RepeatSettles(c.refusal.value);
      } else {
        ClimbSettles(UrlOf(job, c), c.oracle, UrlLevels(job.low, job.high, c.neutral, c.hint));
      }
    }
  }

  /** What a URL is spared: one already scraped, or of a cancelled job, says nothing; a
      cached page is given again as the success it was; a site that refused every level
      a while ago is not asked again; and any other climbs its whole plan, to the gateway
      first where the pool is known to be blocked and the gateway usable. */
  lemma UrlSpared(job: Job, c: Call, cancelled: bool)
    requires job.Valid()
    ensures var p := UrlRun(job, c, cancelled); var l := Audit(p.log);
      if cancelled || c.stopped then p == Processed(true, [])
      else if c.done then p == Processed(false, [])
      else if !job.bypassCache && c.cached.Some? then
        !p.cancelled && l.stored == [c.cached.value.(success := true, category := None)] && l.told == l.stored && l.dead == [] && l.fetches == 0
      else if c.refusal.Some? then
        var r := c.refusal.value;
        && !p.cancelled && l.fetches == 0 && l.dead == [DetectionBlock] && |l.stored| == 1
        && l.stored[0] == Result(false, r.level, Some(DetectionBlock), r.status, r.source, None, r.skipped, false, Page(false, false, false))
      else
        var levels := UrlLevels(job.low, job.high, c.neutral, c.hint);
        var u := Url(job.eligible, job.admission, c.skipPool && job.eligible && !c.gatewayDown, c.skipPool && job.eligible && c.gatewayDown);
        levels != [] && p.log == LogOf(ClimbFrom(u, c.oracle, Climb(u.skipped, None, None, []), levels, levels[|levels| - 1]))
  {
    LevelsOf(job, c);
    if !cancelled && !c.stopped && !c.done {
      if !job.bypassCache && c.cached.Some? { ReuseBooks(c.cached.value); } else if c.refusal.Some? { RepeatBooks(c.refusal.value); }
    }
  }

  lemma ReuseBooks(row: Result)
    ensures var l := Audit(Reuse(row)); var r := row.(success := true, category := None);
      l.stored == [r] && l.told == [r] && l.dead == [] && l.fetches == 0
  {
    AuditAdd([], Stored(FromCache(row)));
    AuditAdd([Stored(FromCache(row))], Told(FromCache(row)));
    assert [] + [Stored(FromCache(row))] == [Stored(FromCache(row))];
  }

  lemma RepeatBooks(was: Refused)
    ensures var l := Audit(Repeat(was).log);
      l.fetches == 0 && l.dead == [DetectionBlock]
      && l.stored == [Result(false, was.level, Some(DetectionBlock), was.status, was.source, None, was.skipped, false, Page(false, false, false))]
  {
    var r := Failure(was.level, DetectionBlock).(status := was.status, source := was.source, gatewaySkipped := was.skipped);
    var log := [] + [Rejected(was.level, r)];
    AuditAdd([], Rejected(was.level, r));
    AuditAdd(log, Dlq(DetectionBlock, was.level, None));
    AuditAdd(log + [Dlq(DetectionBlock, was.level, None)], Erred);
    AuditAdd(log + [Dlq(DetectionBlock, was.level, None)] + [Erred], Stored(r));
    AuditAdd(log + [Dlq(DetectionBlock, was.level, None)] + [Erred] + [Stored(r)], Told(r));
  }

  lemma ClimbSettles(u: Url, o: Oracle, levels: seq<int>)
    requires Climbing(levels) && levels != [] && forall level <- levels :: level >= 1
    ensures var v := ClimbFrom(u, o, Bottom(u), levels, levels[|levels| - 1]); var l := Audit(LogOf(v));
      OneEntry(l) && (l.stored == [] <==> CutShort(v))
  {
    OneOutcome(u, o, levels);
  }

  lemma ReuseSettles(row: Result)
    ensures OneEntry(Audit(Reuse(row))) && Audit(Reuse(row)).stored == [FromCache(row)]
  {
    var r := FromCache(row);
    AuditAdd([], Stored(r));
    AuditAdd([Stored(r)], Told(r));
    assert [] + [Stored(r)] == [Stored(r)];
  }

  lemma RepeatSettles(was: Refused)
    ensures Settled(NotAllowed, Audit(Repeat(was).log))
  {
    var s := Climb(false, None, None, []);
    var r := Repeat(was).log[0].result;
    RejectBooks(s, was.level, r);
    FailSound(Reject(s, was.level, r), NotAllowed, r, DetectionBlock, was.level);
  }

  datatype Status = CompletedJob | FailedJob | CancelledRun

  function Failures(results: seq<Option<Result>>): nat {
    if results == [] then 0
    else Failures(results[..|results| - 1]) + if Failed(results[|results| - 1]) then 1 else 0
  }

  predicate Failed(r: Option<Result>) { r.Some? && !r.value.success }

  predicate Good(r: Option<Result>) { r.Some? && r.value.success }

  predicate SomeFailed(results: seq<Option<Result>>) { exists r <- results :: Failed(r) }

  predicate SomeGood(results: seq<Option<Result>>) { exists r <- results :: Good(r) }

  lemma {:induction false} FailuresSeen(results: seq<Option<Result>>)
    ensures Failures(results) > 0 <==> SomeFailed(results)
  {
    if results != [] {
      var init := results[..|results| - 1];
      FailuresSeen(init);
      assert results == init + [results[|results| - 1]];
    }
  }

  /** This URL found the job cancelled: at once, or while it waited for host
      capacity on its way up. */
  ghost predicate FoundCancelled(job: Job, c: Call)
    requires job.Valid()
  {
    || c.stopped
    || (!c.done && (job.bypassCache || c.cached.None?) && c.refusal.None? && CutShort(ClimbOf(job, c)))
  }

  /** One URL's entry in the job's results. */
  method Handle(job: Job, c: Call, cancelled: bool) returns (result: Option<Result>, errors: nat, stopped: bool)
    requires job.Valid()
    ensures stopped <==> cancelled || FoundCancelled(job, c)
    ensures errors == if Failed(result) then 1 else 0
    ensures result.None? <==> stopped || (c.done && !cancelled && !c.stopped)
    ensures cancelled || c.stopped ==> stopped
  {
    UrlSettles(job, c, cancelled);
    var p := ProcessUrl(job, c, cancelled);
    var books := Audit(p.log);
    return if books.stored == [] then None else Some(books.stored[0]), books.errors, p.cancelled;
  }

  method HandleAll(job: Job, calls: seq<Call>) returns (results: seq<Option<Result>>, errors: nat, cancelled: bool)
    requires job.Valid()
    ensures |results| == |calls| && errors == Failures(results)
    ensures cancelled <==> exists i :: 0 <= i < |calls| && FoundCancelled(job, calls[i])
    ensures !cancelled ==> forall i :: 0 <= i < |calls| ==> (results[i].None? <==> calls[i].done)
  {
    results, errors, cancelled := [], 0, false;
    for i := 0 to |calls|
      invariant |results| == i && errors == Failures(results)
      invariant cancelled <==> exists k :: 0 <= k < i && FoundCancelled(job, calls[k])
      invariant !cancelled ==> forall k :: 0 <= k < i ==> (results[k].None? <==> calls[k].done)
    {
      var result, failed, stopped := Handle(job, calls[i], cancelled && calls[i].noticed);
      assert (results + [result])[..i] == results;
      results := results + [result];
      errors := errors + failed;
      cancelled := cancelled || stopped;
    }
  }

  /** The job's verdict is a function of its URLs' results alone: one error per
      failed result; failed when some URL failed and none succeeded; partial when
      both happened; cancelled exactly when some URL found it so. A URL without a
      result was already done, or the job is cancelled. */
  method ProcessJob(job: Job, calls: seq<Call>)
    returns (results: seq<Option<Result>>, errors: nat, status: Status, partialFailure: bool)
    requires job.Valid()
    ensures |results| == |calls| && errors == Failures(results)
    ensures status.CancelledRun? <==> exists i :: 0 <= i < |calls| && FoundCancelled(job, calls[i])
    ensures !status.CancelledRun? ==> forall i :: 0 <= i < |calls| ==> (results[i].None? <==> calls[i].done)
    ensures status.FailedJob? <==> !status.CancelledRun? && SomeFailed(results) && !SomeGood(results)
    ensures partialFailure <==> SomeFailed(results) && SomeGood(results)
  {
    var cancelled;
    results, errors, cancelled := HandleAll(job, calls);
    FailuresSeen(results);
    var anySuccess := SomeGood(results);
    status := if cancelled then CancelledRun
              else if errors == 0 then CompletedJob
              else if !anySuccess then FailedJob else CompletedJob;
    partialFailure := errors > 0 && anySuccess;
  }
}
