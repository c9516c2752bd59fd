/** The per-client sliding window. The list kept for a client is proved to be its
    accepted requests that still matter, and no window of time ever holds more
    than the limit. */
module RateLimiter {
  import opened Basics

  datatype Request = Request(client: nat, at: int)

  /** What a pruning keeps: the instants after `floor`, in order. */
  function After(times: seq<int>, floor: int): seq<int> {
    if times == [] then [] else Keep(After(times[..|times| - 1], floor), times[|times| - 1], times[|times| - 1] > floor)
  }

  /** How many instants lie after `floor`: one just at it has gone. */
  function Recent(times: seq<int>, floor: int): nat {
    if times == [] then 0 else Recent(times[..|times| - 1], floor) + if times[|times| - 1] > floor then 1 else 0
  }

  lemma {:induction false} AfterIsRecent(times: seq<int>, floor: int)
    ensures |After(times, floor)| == Recent(times, floor)
    decreases |times|
  {
    if times != [] { AfterIsRecent(times[..|times| - 1], floor); }
  }

  function Keep(times: seq<int>, t: int, keep: bool): seq<int> {
    if keep then times + [t] else times
  }

  function TimesOf(store: map<nat, seq<int>>, client: nat): seq<int> {
    if client in store then store[client] else []
  }

  class Limiter {
    const max: nat
    const window: nat
    var store: map<nat, seq<int>>

    constructor (max: nat, window: nat)
      ensures this.max == max && this.window == window && store == map[]
    {
      this.max, this.window, store := max, window, map[];
    }

    method Prune(client: nat, floor: int)
      modifies this`store
      ensures store == old(store)[client := After(TimesOf(old(store), client), floor)]
    {
      var times := TimesOf(store, client);
      var kept: seq<int> := [];
      for i := 0 to |times|
        invariant kept == After(times[..i], floor)
      {
        assert times[..i + 1][..i] == times[..i];
        if times[i] > floor { kept := kept + [times[i]]; }
      }
      assert times[..|times|] == times;
      store := store[client := kept];
    }

    /** Accepts exactly while the window up to now holds fewer than the limit. */
    method Dispatch(r: Request) returns (accepted: bool)
      modifies this`store
      ensures accepted <==> Recent(TimesOf(old(store), r.client), r.at - window) < max
      ensures store == Served(max, window, old(store), r)
    {
      AfterIsRecent(TimesOf(store, r.client), r.at - window);
      Prune(r.client, r.at - window);
      if |store[r.client]| >= max { return false; }
      store := store[r.client := store[r.client] + [r.at]];
      return true;
    }
  }

  // ----- whole histories -----

  predicate Accepts(max: nat, window: nat, store: map<nat, seq<int>>, r: Request) {
    |After(TimesOf(store, r.client), r.at - window)| < max
  }

  function Served(max: nat, window: nat, store: map<nat, seq<int>>, r: Request): map<nat, seq<int>> {
    var kept := After(TimesOf(store, r.client), r.at - window);
    store[r.client := Keep(kept, r.at, Accepts(max, window, store, r))]
  }

  function Run(max: nat, window: nat, requests: seq<Request>): map<nat, seq<int>> {
    if requests == [] then map[] else Served(max, window, Run(max, window, requests[..|requests| - 1]), requests[|requests| - 1])
  }

  /** Every instant at which `client` was accepted. */
  function Accepted(max: nat, window: nat, requests: seq<Request>, client: nat): seq<int> {
    if requests == [] then []
    else
      var init, r := requests[..|requests| - 1], requests[|requests| - 1];
      Keep(Accepted(max, window, init, client), r.at, r.client == client && Accepts(max, window, Run(max, window, init), r))
  }

  /** The clock never runs back. */
  predicate Ordered(requests: seq<Request>) {
    requests != [] ==>
      var init := requests[..|requests| - 1];
      Ordered(init) && (init != [] ==> init[|init| - 1].at <= requests[|requests| - 1].at)
  }

  lemma {:induction false} AfterTwice(times: seq<int>, a: int, b: int)
    requires a <= b
    ensures After(After(times, a), b) == After(times, b)
  {
    if times != [] {
      var init, last := times[..|times| - 1], times[|times| - 1];
      AfterTwice(init, a, b);
      if last > a {
        AfterAdd(After(init, a), last, b);
      } else {
        assert After(times, a) == After(init, a);
      }
    }
  }

  lemma AfterAdd(times: seq<int>, t: int, floor: int)
    ensures After(times + [t], floor) == Keep(After(times, floor), t, t > floor)
  {
    assert (times + [t])[..|times|] == times;
  }

  lemma ServedTimes(max: nat, window: nat, store: map<nat, seq<int>>, r: Request, client: nat, log: seq<int>, floor: int)
    requires r.client == client ==> r.at - window <= floor
    requires After(TimesOf(store, client), floor) == After(log, floor)
    ensures After(TimesOf(Served(max, window, store, r), client), floor)
      == After(Keep(log, r.at, r.client == client && Accepts(max, window, store, r)), floor)
  {
    if r.client == client {
      AfterTwice(TimesOf(store, client), r.at - window, floor);
      AfterAdd(After(TimesOf(store, client), r.at - window), r.at, floor);
      AfterAdd(log, r.at, floor);
    }
  }

  /** The client's list is its whole accepted log, cut to the window of some
      instant already passed: any later window sees the whole log. */
  lemma {:induction false} ListIsLog(max: nat, window: nat, requests: seq<Request>, client: nat, floor: int)
    requires Ordered(requests)
    requires requests != [] ==> requests[|requests| - 1].at - window <= floor
    ensures After(TimesOf(Run(max, window, requests), client), floor) == After(Accepted(max, window, requests, client), floor)
    decreases |requests|
  {
    if requests != [] {
      var init, r := requests[..|requests| - 1], requests[|requests| - 1];
      ListIsLog(max, window, init, client, floor);
      ServedTimes(max, window, Run(max, window, init), r, client, Accepted(max, window, init, client), floor);
    }
  }

  /** A request is accepted exactly when fewer than `max` of the client's own
      accepted requests, in its whole history, lie in the window up to it. */
  lemma AcceptedByHistory(max: nat, window: nat, requests: seq<Request>, r: Request)
    requires Ordered(requests) && (requests != [] ==> requests[|requests| - 1].at <= r.at)
    ensures Accepts(max, window, Run(max, window, requests), r) <==>
      Recent(Accepted(max, window, requests, r.client), r.at - window) < max
  {
    ListIsLog(max, window, requests, r.client, r.at - window);
    AfterIsRecent(Accepted(max, window, requests, r.client), r.at - window);
    AcceptsIs(max, window, Run(max, window, requests), r);
  }

  lemma AcceptsIs(max: nat, window: nat, store: map<nat, seq<int>>, r: Request)
    ensures Accepts(max, window, store, r) <==> |After(TimesOf(store, r.client), r.at - window)| < max
  {
  }

  /** How many instants lie after `low` and up to `high`. */
  function CountIn(times: seq<int>, low: int, high: int): nat {
    if times == [] then 0
    else CountIn(times[..|times| - 1], low, high) + if low < times[|times| - 1] <= high then 1 else 0
  }

  lemma {:induction false} CountAfter(times: seq<int>, low: int, high: int, floor: int)
    requires floor <= low
    ensures CountIn(times, low, high) <= |After(times, floor)|
  {
    if times != [] { CountAfter(times[..|times| - 1], low, high, floor); }
  }

  lemma CountAdd(times: seq<int>, t: int, low: int, high: int)
    ensures CountIn(times + [t], low, high) == CountIn(times, low, high) + if low < t <= high then 1 else 0
  {
    assert (times + [t])[..|times|] == times;
  }

  lemma OneMore(max: nat, window: nat, store: map<nat, seq<int>>, r: Request, client: nat, log: seq<int>, low: int, high: int)
    requires high - low <= window && CountIn(log, low, high) <= max
    requires r.client == client && Accepts(max, window, store, r) ==> |After(log, r.at - window)| < max
    ensures CountIn(Keep(log, r.at, r.client == client && Accepts(max, window, store, r)), low, high) <= max
  {
    CountAdd(log, r.at, low, high);
    if low < r.at <= high { CountAfter(log, low, high, r.at - window); }
  }

  /** For every history on a clock that never runs back, and every stretch of time
      no longer than the window: at most `max` accepted requests of one client. */
  lemma {:induction false} NeverMoreThanMax(max: nat, window: nat, requests: seq<Request>, client: nat, low: int, high: int)
    requires Ordered(requests) && high - low <= window
    ensures CountIn(Accepted(max, window, requests, client), low, high) <= max
    decreases |requests|
  {
    if requests != [] {
      var init, r := requests[..|requests| - 1], requests[|requests| - 1];
      var log := Accepted(max, window, init, client);
      NeverMoreThanMax(max, window, init, client, low, high);
      AcceptedByHistory(max, window, init, r);
      AfterIsRecent(log, r.at - window);
      OneMore(max, window, Run(max, window, init), r, client, log, low, high);
    }
  }
}
