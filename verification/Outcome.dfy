/** What a fetch can come back with, and how its answer is read. */
module Outcome {
  import opened Basics

  datatype Category =
    | NetworkTimeout | DetectionBlock | BrowserCrash | CaptchaTriggered | ParseError
    | ProxyExhausted | CircuitOpen | SsrfBlocked | QuotaExceeded | HostUnreachable | NotFound
    | PolitenessTimeout | CapacityTimeout | DependencyUnavailable | ProxyAuthFailed | RateLimited

  datatype Source = Pool | Gateway

  /** What the page classifier says of a body and status: an arbitrary verdict. */
  datatype Page = Page(challenge: bool, jsGated: bool, ordinary: bool)

  datatype Result = Result(
    success: bool,
    level: int,
    category: Option<Category>,
    status: Option<int>,
    source: Option<Source>,
    retryAfter: Option<int>,
    gatewaySkipped: bool,
    challengePage: bool,
    page: Page)

  /** A failure made up on the spot, without a fetch. */
  function Failure(level: int, category: Category): Result {
    Result(false, level, Some(category), None, None, None, false, false, Page(false, false, false))
  }

  /** classify_http_status. */
  function Classify(status: int): Option<Category> {
    if status in {401, 403, 404, 405, 410} then Some(DetectionBlock)
    else if status == 429 then Some(RateLimited)
    else None
  }

  predicate IsBlock(c: Option<Category>) {
    c == Some(DetectionBlock) || c == Some(RateLimited)
  }

  /** A block in either shape: a failure that says so, or a "success" whose page
      is a challenge. */
  predicate LooksBlocked(r: Result) {
    IsBlock(r.category) || (r.success && r.page.challenge)
  }

  /** The attempt failed before the site said anything. */
  predicate NoSiteAnswer(c: Option<Category>) {
    c in {Some(BrowserCrash), Some(NetworkTimeout), Some(ProxyExhausted), Some(ProxyAuthFailed)}
  }

  /** Failures that end a URL at the level they happen on. */
  predicate EndsUrl(c: Category) {
    c in {SsrfBlocked, QuotaExceeded, HostUnreachable, NotFound,
          Category.ProxyExhausted, Category.CircuitOpen, PolitenessTimeout, CapacityTimeout, DependencyUnavailable}
  }

  /** Why a host capacity claim ended without a grant. */
  datatype Refusal = CancelledJob | NoCapacity | StoreDown

  datatype Fetched = Got(result: Result) | Stopped(refusal: Refusal) | Broke(storeDown: bool)
}
