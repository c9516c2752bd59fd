# Scraper engine: a verified model of its admission, pools and job machine

This project models the parts of the scraper engine where several processes,
browsers or attempts share something scarce, and proves what those parts keep.

* **Host admission** (`Host`, `HostStore`, `HostInvariant`, `HostBudget`,
  `HostOrder`, `HostLine`, `HostHolders`, `HostDelays`, `HostExamples`,
  `HostClient`). One host's shared
  store of seats, waiters, site slots, delays and a target, with the scripts of
  `host_capacity.py` and `politeness.py` as atomic steps on it. `Host` gives each
  script as a function from state to state; `HostStore.Store` runs them as loops
  over mutable fields and is proved equal to those functions. The laws hold for
  every interleaving of scripts, target writes, clock ticks and holders that
  simply stop being heard of. `HostClient` is the client's polling loop against
  such a store.
* **Browsers, permits and seats** (`Browsers`, `BrowserPools`,
  `BrowserInvariant`, `BrowserSteps`, `BrowserSeats`, `BrowserLaws`,
  `BrowserReuse`, `BrowserDrivers`, `BrowserTicks`). One worker
  process: the permit semaphore and its line, the Camoufox pool with its parked
  spares, the Botasaurus pool, and the keeper that holds host seats for parked
  browsers. `BrowserPools.Process` runs the operations as loops and is proved
  equal to the functions of `Browsers`; the laws are about every run of them.
  `CamoufoxLaunch` is the bounded fallback loop of one launch.
* **One fetch, one URL, one job** (`Outcome`, `FetchLoop`, `UrlLadder`,
  `LadderRules`, `JobRun`). Every collaborator (network, proxy pool, gateway
  verdict, circuit, page classifier, admission) is an arbitrary oracle that may
  answer differently every time it is asked. What the code did is read back from
  its log twice: by an auditor that knows nothing of the code, and by rules that
  say, from the acts so far and the answers at their places alone, which act is
  due next and when to stop. The code keeps those rules, and they leave no other
  way.
* **Smaller machines**: `CircuitBreaker`, `CapacityController`, `RateLimiter`.

`Basics`, `Sums`, `Tallies` and `Paths` hold the arithmetic of weights, lines and
bags, and logs that follow a rule.

Times on the shared store are milliseconds of its one clock and weights are
reals. A stored key with a deadline reads as absent from that instant on. Names
that the source draws at random (leases, waiters, instances) are fresh numbers;
requests are well formed as the client builds them (cap at least one, delay not
negative, weight positive), and a lease is renewed and released with the site it
was taken on. These caller duties are the `Legal` predicates.

Where code and comments differ, the code is modelled:

* The comment on the host line says a caller wins only if no older waiter could
  claim right now. The script sets aside what every older eligible waiter will
  take and lets the caller through if it still fits. `HostOrder.NoOvertaking`
  says exactly what that is worth, for every grant: each older waiter is told at
  once what the scan told it, if and only if the eligible ones on the caller's own
  site were left room and the caller's leaving frees none that only the share rule
  refused. `HostExamples` holds a concrete caller that goes first, and two queues
  in which an older waiter does lose its turn.
* The delay key's comment says it outlives one reservation queue. It does only
  while the queue fits the time to live of its last reservation:
  `HostDelays.SpacingNeedsTheKey`, with a concrete queue in
  `HostDelays.OutrunQueue`.
* A half-open circuit lets every request through, not one probe:
  `CircuitBreaker.ProbesUnlimited`.
* Once a claim's seat is retained the keeper may give it back before the claim
  block ends: `BrowserLaws.SeatMayGoFirst`.
* Stopping the Camoufox pool releases one permit too many for every launch under
  way, whether it still waits for its permit or already has it: over any run the
  permits add up if and only if no stop finds one (`BrowserLaws.AddsUpExactly`,
  with a run of either kind in `GrantedLaunchMints` and `BlockedLaunchMints`).
* A stopped Camoufox pool no longer closes parked browsers for a blocked launch:
  `BrowserLaws.StarvesExactly`.
* A waiter cancelled between the store's grant and its own return throws the grant
  away: the wait has left the line, and the seat lives until its lease lapses
  (`HostClient.WaitEndsClean`, `HostClient.ThrownAwayLapses`).
* The controller's range holds exactly for bounds that are in order and whose cut
  does not round past the upper one: `CapacityController.AlwaysInRange`; the
  bound taken from the CPU count may be out of order
  (`CapacityController.CeilingInOrder`). In the same way the decision falls with
  pressure and rises with memory on every input if and only if no target is cut
  upwards by rounding (`CapacityController.MonotoneExactly`).

## Model

| member | source | states |
|---|---|---|
| HostStore.Store.RunClaim | src/scraper_engine/orchestrator/host_capacity.py:98-230 | CLAIM as a script over the store, with its purge, tally and scan loops, leaves exactly the specified store and reply |
| HostStore.Store.ScanLine | src/scraper_engine/orchestrator/host_capacity.py:161-224 | the scan with its caches and simulated use answers exactly whether the caller fits after every older eligible waiter's share is set aside |
| HostStore.Store.Visit | src/scraper_engine/orchestrator/host_capacity.py:177-222 | one waiter's turn in the scan keeps the running figures equal to the simulated use |
| HostStore.Store.RunRenew | src/scraper_engine/orchestrator/host_capacity.py:233-249 | RENEW moves a live seat and its slot to one lease from now, and leaves a lapsed one alone |
| HostStore.Store.RunRelease | src/scraper_engine/orchestrator/host_capacity.py:252-258 | RELEASE removes seat, weight, tenant and slot of the lease |
| HostStore.Store.RunLeave | src/scraper_engine/orchestrator/host_capacity.py:270-275 | LEAVE removes a waiter from all three line keys |
| HostStore.Store.RunStatus | src/scraper_engine/orchestrator/host_capacity.py:279-290 | STATUS reports the weight of unexpired seats, unexpired waiters and the target |
| HostStore.Store.RunAcquire | src/scraper_engine/orchestrator/politeness.py:45-60 | ACQUIRE purges lapsed members and adds one exactly if fewer than the limit are live |
| HostStore.Store.RunRefresh | src/scraper_engine/orchestrator/politeness.py:76-90 | REFRESH extends a live slot and never a lapsed one |
| HostStore.Store.RunReserve | src/scraper_engine/orchestrator/politeness.py:113-125 | a reservation gets the site's next instant and moves it on by its own delay |
| HostInvariant.StepKeeps | src/scraper_engine/orchestrator/host_capacity.py:109-290 | every script, target write and tick keeps: seats, weights and tenants one key set; the line's keys one key set; no seat past one lease; slot keys outliving members; slots matching seats |
| HostInvariant.RunKeeps | src/scraper_engine/orchestrator/host_capacity.py:98-290 | the same over every run of every length |
| HostInvariant.SlotSafety | src/scraper_engine/orchestrator/host_capacity.py:177-249 | no step takes a site's live slots past the acting request's own cap, and none revives a lapsed slot |
| HostInvariant.RenewSlots | src/scraper_engine/orchestrator/host_capacity.py:236-249 | RENEW's presence-only test is sound: a slot member under a live seat is itself live |
| HostInvariant.WinnerFits | src/scraper_engine/orchestrator/host_capacity.py:177-195 | whoever the scan lets through has room on its site, and its delay passed, in the store itself |
| HostInvariant.KeyOutlivesSlots | src/scraper_engine/orchestrator/politeness.py:35-43 | a slot key never disappears before its longest-lived member |
| HostBudget.PurgedUse | src/scraper_engine/orchestrator/host_capacity.py:128-136 | CLAIM's sum over the weight hash equals STATUS's sum over unexpired seats |
| HostBudget.GrantUse | src/scraper_engine/orchestrator/host_capacity.py:176-213 | a grant adds its weight, and unless the host was idle the sum stays within the target read |
| HostBudget.GrantShare | src/scraper_engine/orchestrator/host_capacity.py:159-186 | while another tenant waits, a tenant already holding something stays within its share after a grant |
| HostBudget.OnlyGrantsRaise | src/scraper_engine/orchestrator/host_capacity.py:233-290 | no step but a grant raises what is in use |
| HostBudget.OverTargetNeverRises | src/scraper_engine/orchestrator/host_capacity.py:176-183 | while use exceeds a cut target no step raises it |
| HostBudget.BudgetSafety | src/scraper_engine/orchestrator/host_capacity.py:109-290 | over every run with targets bounded above, use never passes the larger of that bound, the start and one grant onto an idle host |
| HostBudget.IdleHostGrants | src/scraper_engine/orchestrator/host_capacity.py:176-213 | with no live seat the oldest waiter whose site is ready is granted on its poll, whatever its weight, target or share |
| HostBudget.CrashRecovery | src/scraper_engine/orchestrator/host_capacity.py:109-121 | a holder that stops renewing has lost its seat one lease TTL later, and with nobody renewing or claiming the host is idle by then |
| HostLine.KeepsPlace | src/scraper_engine/orchestrator/host_capacity.py:123-126 | a waiter that polls again within its time to live, is not granted and does not leave stands in all three line keys, at the priority it joined with and not lapsed, after every part of every run |
| HostLine.PollStays | src/scraper_engine/orchestrator/host_capacity.py:123-126 | a refused poll puts its waiter in the line, or leaves it there at its first priority, for one whole time to live from now, with the request just made |
| HostLine.SilentGoes | src/scraper_engine/orchestrator/host_capacity.py:116-121 | a waiter not heard of for its time to live is gone from all three keys with the next claim, whoever makes it |
| HostLine.AheadMeans | src/scraper_engine/orchestrator/host_capacity.py:144-145 | ahead of a caller stand just the live waiters of a smaller priority, or of an equal one and a smaller id |
| HostLine.ClaimDecides | src/scraper_engine/orchestrator/host_capacity.py:128-213 | a claim is granted if and only if, once the line ahead has been served in order with everyone there is room for, there is room for the caller too: slot, delay, target, share |
| HostHolders.KeepsSeat | src/scraper_engine/orchestrator/host_capacity.py:233-249 | a seat renewed in time is live, with its weight on its tenant's account, after every part of every run |
| HostHolders.KeepsSlot | src/scraper_engine/orchestrator/politeness.py:76-90 | a slot refreshed in time is live after every part of every run, whatever others do on the site |
| HostHolders.SilentSlotGoes | src/scraper_engine/orchestrator/politeness.py:45-60 | a worker that stops refreshing has lost its slot at its expiry, however busy others keep the site |
| HostHolders.AcquireTakes | src/scraper_engine/orchestrator/politeness.py:45-60 | an acquire takes a slot, for one time to live, exactly if fewer than its limit are live, and touches no other live slot |
| HostHolders.GrantTakes | src/scraper_engine/orchestrator/host_capacity.py:197-213 | a grant writes one whole lease of seat, weight, tenant and slot, moves a paced site's next instant, and takes the caller out of the line |
| HostHolders.ReleaseGives | src/scraper_engine/orchestrator/host_capacity.py:252-258 | a release gives back the lease's seat and slot at once and nobody else's |
| HostHolders.ReplyTells | src/scraper_engine/orchestrator/host_capacity.py:188-230 | CLAIM says granted exactly when the seat is there, and names the use, target and line that stand after it |
| HostOrder.NoOvertaking | src/scraper_engine/orchestrator/host_capacity.py:144-224 | whenever the caller is granted, every older waiter polled at that instant is told what the scan told it, if and only if each eligible one on the caller's own site was left a slot and no delay there, and no older waiter is freed by the share rule lifting as the caller leaves |
| HostOrder.EligibleDecide | src/scraper_engine/orchestrator/host_capacity.py:176-224 | while the share rule stands, that every older eligible waiter stays eligible already means nobody's verdict changes |
| HostOrder.NoOvertakingWhenPaced | src/scraper_engine/orchestrator/host_capacity.py:144-224 | with positive delays on the caller's site and nobody freed by the share rule, an older waiter's own poll right after the grant is told what the scan told it |
| HostOrder.PollVerdict | src/scraper_engine/orchestrator/host_capacity.py:176-224 | the verdict of each older waiter's next poll, place by place: as before if it was left room, and otherwise only if freed by the share rule |
| HostExamples.CallerMayGoFirst | src/scraper_engine/orchestrator/host_capacity.py:28-30 | a legal store in which the caller is granted although an older waiter could claim |
| HostExamples.OvertakenWithoutDelay | src/scraper_engine/orchestrator/host_capacity.py:214-222 | a concrete unpaced queue in which an older eligible waiter loses its turn |
| HostExamples.OvertakenWhenShareLifts | src/scraper_engine/orchestrator/host_capacity.py:183-187 | a concrete queue in which the caller's leaving lifts the share rule and an older waiter loses its turn |
| HostExamples.HeavyFreed | src/scraper_engine/orchestrator/host_capacity.py:183-187 | in that queue the waiter ahead of the loser is the one the share rule freed |
| HostDelays.DelaySpacing | src/scraper_engine/orchestrator/politeness.py:249-272 | over any run mixing Level 1 reservations and browser grants on one site, instants are in order and each is its predecessor's delay later, as long as no queue outruns its key |
| HostDelays.BurstTight | src/scraper_engine/orchestrator/politeness.py:113-125 | no instant is wasted: of reservations made at one moment the first is given the site's standing instant or now, and each next one exactly its predecessor's delay later |
| HostDelays.SpacingNeedsTheKey | src/scraper_engine/orchestrator/politeness.py:263-267 | a reservation's successor is spaced, whenever it comes, if and only if the instant it moves to lies within its key's life |
| HostDelays.OutrunQueue | src/scraper_engine/orchestrator/politeness.py:263-267 | a concrete run in which a short reservation queued behind a long one loses the spacing |
| HostClient.WaitEndsClean | src/scraper_engine/orchestrator/host_capacity.py:316-573 | whatever others do between polls, a wait that was never granted holds nothing and has left the line; a grant is one full lease, also when a cancellation throws it away, and leaves the line too |
| HostClient.WaitEndsForCause | src/scraper_engine/orchestrator/host_capacity.py:516-562 | a wait without a grant goes on to its deadline unless the job or the waiter is cancelled |
| HostClient.ThrownAwayLapses | src/scraper_engine/orchestrator/host_capacity.py:316-331 | the seat of a grant thrown away by a cancellation is gone one lease later, since nobody renews it |
| HostClient.ForeignAbsent | src/scraper_engine/orchestrator/host_capacity.py:28-30 | no other party's step ever takes a seat or slot under my lease |
| HostClient.EndHoldsNothing | src/scraper_engine/orchestrator/host_capacity.py:456-483 | releasing at the end of a claim block leaves no seat and no slot of the lease |
| BrowserPools.Process.TakePermit | src/scraper_engine/core/budget.py:128-149 | the reclaim loop and the wait leave exactly the specified state, and a permit is taken at once exactly if one is free with nobody waiting after reclaiming |
| BrowserPools.Process.Sift | src/scraper_engine/browser/pool.py:169-236 | draining the parked queue, closing stale spares, taking the first that suits and putting the rest back in order comes to the specified pass over the queue |
| BrowserPools.Process.RunAcquire | src/scraper_engine/browser/pool.py:169-295 | draining the queue, closing stale spares, taking the first that suits, putting the rest back in order, else launching |
| BrowserPools.Process.RunRelease | src/scraper_engine/browser/pool.py:389-424 | closing or parking a released instance, with the seat its render gives up |
| BrowserPools.Process.RunCloseParked | src/scraper_engine/browser/pool.py:312-331 | closes the spare keeping a given seat, or the oldest, and leaves the others in order |
| BrowserPools.Process.StopPool | src/scraper_engine/browser/pool.py:426-441 | no more reclaiming; spares and everything still listed exit, whether or not their launch ever got its permit, and the list is cleared |
| BrowserPools.Process.RunCheckout | src/scraper_engine/browser/botasaurus_pool.py:187-220 | reuse, new slot, eviction of the longest idle, or a wait only when the cap is reached and every entry is busy |
| BrowserPools.Process.RunFetchDone | src/scraper_engine/browser/botasaurus_pool.py:152-185 | the end of a fetch: seat, permit, then check-in or discard |
| BrowserPools.Process.StopDrivers | src/scraper_engine/browser/botasaurus_pool.py:385-393 | every listed entry's driver is closed, once, and its seat given back; a fetch at work keeps its entry without a driver |
| BrowserPools.Process.RetainSeat | src/scraper_engine/orchestrator/host_capacity.py:737-753 | a render's seat is taken over once and only once |
| BrowserPools.Process.RunTick | src/scraper_engine/orchestrator/host_capacity.py:795-843 | renewals, lost leases, overheld seats and yielding to the host's line |
| BrowserSteps.StepKeeps | src/scraper_engine/browser/pool.py:169-441 | every operation of either pool, of the permit line and of the keeper, and a stop of any of them at any moment, keeps permits, parked browsers, drivers and seats consistent, at a ceiling raised only by a stop that finds launches under way |
| BrowserSteps.RunKeeps | src/scraper_engine/core/budget.py:93-149 | the same over every run from the start of the process, the ceiling raised by the launches under way at its stops |
| BrowserLaws.PermitConservation | src/scraper_engine/browser/camoufox_wrapper.py:88-118 | over every run, stops included, free permits, permits of live or launching instances and permits of Botasaurus fetches add up to the ceiling plus the launches that were under way at a stop |
| BrowserLaws.AddsUpExactly | src/scraper_engine/browser/camoufox_wrapper.py:88-118 | at the end of any run permits add up to the ceiling if and only if no stop in it found a launch, blocked or granted, under way |
| BrowserLaws.ShutdownExcess | src/scraper_engine/browser/pool.py:426-441 | one stop from any state: one permit too many for each launch under way, so conserved if and only if there is none |
| BrowserLaws.ExcessStays | src/scraper_engine/browser/camoufox_wrapper.py:250-284 | when all work is over the semaphore is left with that many permits more than it was built with |
| BrowserLaws.GrantedLaunchMints | src/scraper_engine/browser/camoufox_wrapper.py:88-118 | a run in which a launch holding its permit outlives the stop and fails: its one permit is released twice |
| BrowserLaws.BlockedLaunchMints | src/scraper_engine/browser/pool.py:426-441 | a run in which the stop exits a launch still waiting: a permit it never had is released |
| BrowserLaws.BlockedByWorkOnly | src/scraper_engine/core/budget.py:94-110 | while a launch is blocked no permit sits on a parked browser, in any reachable state until the pool is stopped |
| BrowserLaws.StarvesExactly | src/scraper_engine/core/budget.py:113-149 | a launch comes to wait while a browser is parked exactly when it asks with no permit to be had after the pool's stop, with something parked |
| BrowserLaws.HandOver | src/scraper_engine/browser/pool.py:399-422 | while a launch is blocked every browser the pools list that ends its work frees its permit and the head of the line gets it |
| BrowserLaws.OneOwner | src/scraper_engine/orchestrator/host_capacity.py:737-769 | in every reachable state each live seat belongs to one claim or to the keeper for one parked browser, never both |
| BrowserLaws.ParkedSeatsDiffer | src/scraper_engine/orchestrator/host_capacity.py:687-708 | until the Botasaurus pool or the keeper stops, every parked browser keeps a seat and no two keep the same |
| BrowserLaws.KeptSeatsParked | src/scraper_engine/orchestrator/host_capacity.py:771-778 | every kept seat is a parked browser's, and until the Botasaurus pool stops asking the pools to close it finds that browser |
| BrowserLaws.NothingLeft | src/scraper_engine/orchestrator/host_capacity.py:852-857 | with the job over, nothing at work and both pools running until now, stopping the pools alone gives every seat and permit back |
| BrowserLaws.KeeperLeavesClaims | src/scraper_engine/orchestrator/host_capacity.py:845-857 | whatever is still at work, the keeper's shutdown leaves no seat but those of running claims |
| BrowserLaws.SeatMayGoFirst | src/scraper_engine/orchestrator/host_capacity.py:460-475 | a retained seat can be gone while its claim block still runs |
| BrowserLaws.TickLeaves | src/scraper_engine/orchestrator/host_capacity.py:795-830 | until the Botasaurus pool stops, after a tick every seat still kept was renewed within the interval and has not idled past its limit |
| BrowserTicks.TickSheds | src/scraper_engine/orchestrator/host_capacity.py:795-843 | a tick closes the browsers of the seats the host has given away and of those kept too long; only with none of the latter, exactly as many as are idle past the grace and asked for by the host's line; and gives back just their seats |
| BrowserTicks.ReclaimSheds | src/scraper_engine/orchestrator/host_capacity.py:771-778 | asked for a seat the pools close its browser; asked for any, the oldest spare, or with none the longest idle driver |
| BrowserTicks.TickStamps | src/scraper_engine/orchestrator/host_capacity.py:804-815 | a tick renews just the seats that are due |
| BrowserLaws.PickRight | src/scraper_engine/browser/pool.py:169-236 | acquire hands out only a spare parked within the limit, of the proxy asked for, that served no other domain, launches only when none is such, and leaves no stale spare parked; all on the instances' own fields |
| BrowserReuse.HandedFits | src/scraper_engine/browser/pool.py:191-227 | what is handed out has the proxy asked for and served that domain or none; with nothing handed out every spare left parked fails one of the two |
| BrowserReuse.PickSifts | src/scraper_engine/browser/pool.py:169-236 | the first spare that can serve is taken, the stale ones go, and all others stay parked in order |
| BrowserReuse.AcquireHands | src/scraper_engine/browser/pool.py:169-295 | a serving spare is handed out as it is; with none an instance of the proxy asked for is launched, with its permit or at the end of the line |
| BrowserReuse.AskDecides | src/scraper_engine/core/budget.py:128-149 | with nobody ahead a free permit is taken and nothing closed, and else just the oldest spare is closed for it; otherwise the launch joins the end of the line |
| BrowserReuse.WakeGives | src/scraper_engine/core/budget.py:145-149 | a permit that comes free goes to the head of the line, which is then launching or at work |
| BrowserReuse.ReleaseParks | src/scraper_engine/browser/pool.py:389-424 | an instance is parked, keeping its permit and its render's seat, if and only if it is healthy, parking is on, its session can be asked for again, nobody waits and there is a seat to keep; otherwise it is closed |
| BrowserReuse.ParkedComesBack | src/scraper_engine/browser/pool.py:169-236 | an instance just parked is the next one handed out to the same proxy and domain within the limit, if no older spare serves |
| BrowserLaws.OwnDriver | src/scraper_engine/browser/botasaurus_pool.py:126-220 | never more listed entries than the cap, and a fetch works on an open driver launched for its own proxy identity and domain that no other entry has |
| BrowserDrivers.CheckoutReuses | src/scraper_engine/browser/botasaurus_pool.py:187-220 | a fetch takes over the first idle driver of its own proxy identity and domain, and that driver's seat goes back |
| BrowserDrivers.CheckoutMakesRoom | src/scraper_engine/browser/botasaurus_pool.py:187-220 | with none it gets an entry below the cap, at the cap the longest idle driver is closed for it, and with all at work it waits |
| BrowserDrivers.LaunchesOwn | src/scraper_engine/browser/botasaurus_pool.py:155-159 | a fetch launches a driver for what it asked for exactly if it took none over |
| BrowserDrivers.FetchParks | src/scraper_engine/browser/botasaurus_pool.py:152-185 | a fetch that got its page parks its driver if and only if parking is on, the session can be asked for again, the blank page was reached and there is a seat to keep; otherwise the driver is closed; the permit is free either way |
| BrowserDrivers.FailedFetchGoes | src/scraper_engine/browser/botasaurus_pool.py:178-180 | a fetch that raised anywhere leaves the list and the line, its driver closed and its permit free |
| BrowserLaws.ClosedOnce | src/scraper_engine/browser/botasaurus_pool.py:257-269 | shutdown leaves every driver launched so far closed exactly once, fetches at work or not |
| BrowserLaws.AllClosedExactly | src/scraper_engine/browser/botasaurus_pool.py:257-269 | over any run no driver is closed twice, and all are closed exactly when no entry has one left |
| BrowserSeats.SeatsOnlyLeaveWithTheirBrowser | src/scraper_engine/orchestrator/host_capacity.py:755-769 | every pool step gives back no seat but those whose parked browser it closed |
| BrowserSeats.OwnSeatStays | src/scraper_engine/orchestrator/host_capacity.py:454-483 | a running render's own seat is untouched by every step but its claim's end and its lapse |
| CamoufoxLaunch.LaunchWithFallback | src/scraper_engine/browser/camoufox_wrapper.py:153-248 | at most three launches, each fallback spent once, every launch made without what an earlier answer ruled out and with all else, the loop's last line never reached, and a gap's error raised only once its fallback is spent |
| FetchLoop.FetchWithProxy | src/scraper_engine/orchestrator/worker.py:1775-1912 | for every oracle the loop does, act by act, what the rules of leasing, rendering, scoring and retrying call for, and answers when and what they say; at most rotations + 3 renders, each pool lease scored once with its own outcome and gateway leases never, no good page dropped |
| FetchLoop.PassUsesFuel | src/scraper_engine/orchestrator/worker.py:1787-1912 | every pass that goes round again uses up a rotation, a pool retry or the gateway's standing |
| FetchLoop.FetchSound | src/scraper_engine/orchestrator/worker.py:1775-1912 | an auditor's claims about the specification of the loop: no gateway lease after a refusal, gateway-only routes never lease from the pool, every lease rendered and scored as it should be, a blocked gateway page or a curable failure comes back only when every rotation or retry is spent |
| FetchLoop.FetchByRules | src/scraper_engine/orchestrator/worker.py:1775-1912 | the specification of the loop keeps the rules, told from the log and the answers alone |
| FetchLoop.OnlyOneWay | src/scraper_engine/orchestrator/worker.py:1775-1912 | the rules leave no choice: any log that keeps them to an answer is the loop's own |
| FetchLoop.Justified | src/scraper_engine/orchestrator/worker.py:1789-1851 | the gateway is leased only while no refusal is known and where it is wanted or the pool was just found empty; an answer nobody rendered has its reason: the pool empty and, under free first, the gateway refusing; or the gateway the only way and refusing |
| FetchLoop.WorstCase | src/scraper_engine/orchestrator/worker.py:1775-1912 | rotations + 3 renders are reached, for every number of rotations |
| UrlLadder.LadderSuffix | src/scraper_engine/orchestrator/level_memory.py:95-144 | whatever hint is stored, the levels tried are a nonempty rising suffix of the caller's range, starting at the hint clamped into it |
| UrlLadder.ClimbLadder | src/scraper_engine/orchestrator/worker.py:857-1552 | the level loop: one outcome, the truth about rate limits, the levels gone by the first of the plan and each tried once but a level 1 whose circuit was open, at most two fetches a level and one at level 1 |
| UrlLadder.OneOutcome | src/scraper_engine/orchestrator/worker.py:857-1552 | for every oracle: exactly one result stored and told; a failure has one dead letter of its own category and one error; a success is no page that still looks blocked; no page worth having is turned away; no level of the plan is left out |
| LadderRules.ClimbByRules | src/scraper_engine/orchestrator/worker.py:857-1552 | for every oracle the climb does, act by act, what the rules call for, from the acts so far and the answers alone, and ends when and how they say |
| LadderRules.OnlyOneWay | src/scraper_engine/orchestrator/worker.py:857-1552 | the rules leave no choice: any log that keeps them to an end is the climb's own |
| LadderRules.AllTried | src/scraper_engine/orchestrator/worker.py:857-905 | with the circuit found closed at the start a URL given up has tried its whole plan, but for a failure that ended it |
| LadderRules.GivenUpRightly | src/scraper_engine/orchestrator/worker.py:1315-1453 | a URL is given up only with its whole plan gone by or on a failure of the kind that ends it |
| LadderRules.AcceptedIsLast | src/scraper_engine/orchestrator/worker.py:1182-1314 | an accepted page is the last fetch's, fit to store; or the level's own, where that fetch was a gateway retry refused at login |
| UrlLadder.GiveUpSound | src/scraper_engine/orchestrator/worker.py:1315-1353 | a level that ends the URL tells a hidden 429, with its status and Retry-After, and otherwise its own category |
| UrlLadder.ExhaustedSound | src/scraper_engine/orchestrator/worker.py:1383-1453 | the same when every level is used up |
| UrlLadder.TopSettles | src/scraper_engine/orchestrator/worker.py:1182-1213 | a blocked page that came back as a success is never left over from the top level |
| JobRun.UrlSettles | src/scraper_engine/orchestrator/worker.py:724-856 | each URL has one entry in the books, and silence exactly for a URL already scraped or a job found cancelled |
| JobRun.UrlSpared | src/scraper_engine/orchestrator/worker.py:724-856 | what a URL is spared: silence, a cached page given again, a recent refusal said again, or the whole climb of its plan, gateway first where the pool is known blocked and the gateway usable |
| JobRun.ProcessJob | src/scraper_engine/orchestrator/worker.py:1512-1552 | cancelled exactly when some URL found the job so, on entry or on its climb; otherwise status and partial failure are a function of the results: one error per failed result, failed when some failed and none succeeded, partial when both happened |
| CircuitBreaker.Breaker.AllowRequest | src/scraper_engine/orchestrator/circuit_breaker.py:80-102 | refused exactly while open with the cooldown running |
| CircuitBreaker.Breaker.RecordFailure | src/scraper_engine/orchestrator/circuit_breaker.py:162-177 | the whole new state of a recorded failure |
| CircuitBreaker.StepCounts | src/scraper_engine/orchestrator/circuit_breaker.py:104-177 | the expiring counters refine a list of recent calls, and the circuit opens exactly when that list says so |
| CircuitBreaker.CountersAreCounts | src/scraper_engine/orchestrator/circuit_breaker.py:108-140 | over any history attempts and failures count the tail of calls since the last reset or stale gap, always short of a full sample |
| CircuitBreaker.TripMeansFailing | src/scraper_engine/orchestrator/circuit_breaker.py:162-177 | a closed circuit opens only when the last full sample of calls, with no stale gap, failed at the threshold's share |
| CircuitBreaker.CooldownDoubles | src/scraper_engine/orchestrator/circuit_breaker.py:203-206 | the first trip waits the base and each further one twice as long, up to the cap |
| CircuitBreaker.CooldownGrows | src/scraper_engine/orchestrator/circuit_breaker.py:203-206 | the n-th cooldown is non-decreasing in n and within base and cap |
| CircuitBreaker.StepTimed | src/scraper_engine/orchestrator/circuit_breaker.py:179-211 | no step, not even a failure reported while open, moves the end of a cooldown earlier |
| CircuitBreaker.NoneBeforeCooldown | src/scraper_engine/orchestrator/circuit_breaker.py:92-100 | over any history, once open every request is refused until the standing cooldown has run out |
| CircuitBreaker.TripLength | src/scraper_engine/orchestrator/circuit_breaker.py:179-211 | a trip within three longest cooldowns of the last is one doubling on and no shorter; a later one starts at the base |
| CircuitBreaker.TripWrites | src/scraper_engine/orchestrator/circuit_breaker.py:179-211 | a failure that trips opens the circuit for that trip's cooldown, counts the trip, and starts the count of calls over |
| CircuitBreaker.ProbesUnlimited | src/scraper_engine/orchestrator/circuit_breaker.py:102 | after the cooldown any number of requests pass before anything is reported |
| CapacityController.Controller.Tick | src/scraper_engine/orchestrator/capacity_controller.py:227-277 | a leading tick writes leader, target and change time; a standby writes nothing |
| CapacityController.TickWrites | src/scraper_engine/orchestrator/capacity_controller.py:227-277 | key by key: the lead is taken if free, lapsed or own; the decision is written; the time of change moves only with the target; a standby writes nothing |
| CapacityController.DwellKept | src/scraper_engine/orchestrator/capacity_controller.py:168-176 | a target in its bounds is neither raised nor cut within the dwells of the change on record |
| CapacityController.LoadReads | src/scraper_engine/orchestrator/capacity_controller.py:97-106 | load reads as pressure above one runnable task a core |
| CapacityController.AlwaysInRange | src/scraper_engine/orchestrator/capacity_controller.py:154-193 | every decision lies between the bounds if and only if they are in order and the cut does not round past the upper one |
| CapacityController.CeilingInOrder | src/scraper_engine/orchestrator/capacity_controller.py:131-151 | the derived bound is below the minimum exactly with no memory reading, no configured maximum and too few CPUs |
| CapacityController.CeilingHolds | src/scraper_engine/orchestrator/capacity_controller.py:131-151 | the derived bound is as many whole browsers as total memory holds, or the minimum |
| CapacityController.RaisesWithinBounds | src/scraper_engine/orchestrator/capacity_controller.py:174-193 | for any bounds and targets, the target rises unstrained only with work waiting and after the dwell, and not past the bound, demand, memory headroom or the mid-pressure step |
| CapacityController.StrainOnlyCuts | src/scraper_engine/orchestrator/capacity_controller.py:168-193 | calm never lowers the target, strain inside its dwell leaves it, and a cut does not raise it if and only if the target is at least the minimum and its cut does not round past it |
| CapacityController.DecidesWhole | src/scraper_engine/orchestrator/capacity_controller.py:154-193 | the whole decision: a strained host is cut after its dwell and not before; otherwise, with work waiting and the dwell over, the target goes as far up as bound, demand, memory and step allow, and stays in every other case |
| CapacityController.RoundsToNearest | src/scraper_engine/orchestrator/capacity_controller.py:172-193 | targets are rounded to the nearest hundredth, half way to the even one |
| CapacityController.FallsWithPressure | src/scraper_engine/orchestrator/capacity_controller.py:168-193 | the decision is antitone in CPU pressure for every target that is not cut upwards |
| CapacityController.RisesWithMemory | src/scraper_engine/orchestrator/capacity_controller.py:168-193 | the decision is monotone in free memory for every target that is not cut upwards |
| CapacityController.MonotoneExactly | src/scraper_engine/orchestrator/capacity_controller.py:154-193 | antitone in pressure, and monotone in memory, on every input at a bound if and only if no target there is cut upwards |
| CapacityController.HundredthTargets | src/scraper_engine/orchestrator/capacity_controller.py:154-173 | no target in whole hundredths, which is all the controller itself ever writes, is cut upwards between bounds in whole hundredths |
| CapacityController.DeepCutsDown | src/scraper_engine/config/schema.py:447-514 | nor is any target, whatever the decimals, once a cut at the minimum takes off half a hundredth |
| CapacityController.StrainReachesMinIff | src/scraper_engine/orchestrator/capacity_controller.py:168-173 | for any bounds and starting targets, enough strained ticks end at the minimum if and only if the cut bites at the first hundredth above it |
| CapacityController.StrainReachesMin | src/scraper_engine/orchestrator/capacity_controller.py:168-173 | over any strained run, from any target and at any bounds in order, each tick past the dwell takes off at least a hundredth, down to the minimum |
| CapacityController.RaiseReaches | src/scraper_engine/orchestrator/capacity_controller.py:174-193 | over any unstrained run with work waiting each tick past the dwell brings the target up by 0.99 at least, until it is all that the limits allow |
| CapacityController.DefaultCutBites | src/scraper_engine/config/schema.py:447-514 | the default minimum and cut factor meet that condition at every bound |
| CapacityController.TargetsInRange | src/scraper_engine/orchestrator/capacity_controller.py:227-277 | over every run of ticks by any controllers each target written is within its tick's bounds and a standby changes nothing |
| CapacityController.LeadersApart | src/scraper_engine/orchestrator/capacity_controller.py:68-80 | two controllers lead at two ticks only with the whole lead TTL between them |
| RateLimiter.Limiter.Dispatch | src/scraper_engine/api/middleware.py:44-64 | prunes the client's list, accepts exactly while fewer than the limit of its instants lie after the window's start, and touches no other client |
| RateLimiter.ListIsLog | src/scraper_engine/api/middleware.py:49-51 | the pruned list equals the client's whole accepted log seen through the window |
| RateLimiter.AcceptedByHistory | src/scraper_engine/api/middleware.py:53-63 | a request is accepted exactly when fewer than the limit of the client's accepted requests, ever, lie within the window before it; one a whole window old has gone |
| RateLimiter.NeverMoreThanMax | src/scraper_engine/api/middleware.py:31-64 | on a clock that never runs back, no half-open stretch of one window holds more than the limit |

## Left out

- The one-hour housekeeping time to live of the host keys and the wait statistics: the model keeps only the slot and delay keys' own lives, which the laws use.
- Store failures and lost replies: every script is atomic and its reply arrives; a crash is a holder of whom nothing more is heard.
- The client's nested-claim guard, its cancellation interval and its random pause: the pause is an arbitrary positive number, and the job's cancellation and the waiter's own are arbitrary answers.
- The holder's renew loop as a timer: renewals are steps that may come at any time or never.
- Floating point: weights, targets and shares are reals, rounding to two decimals is exact half-to-even, and clocks are whole units.
- Browser operations below one step: a pool operation that awaits (draining, closing, a keeper's tick) is one step, so another operation never sees a queue half drained. A launch is three steps: asking, being granted, coming up or failing.
- Prewarming, session state and the virtual display's lock: prewarming is off wherever a seat keeper is in use.
- BrowserLaws.TickLeaves: stated until the Botasaurus pool's stop, like ParkedSeatsDiffer, SeatMayGoFirst and the search of KeptSeatsParked: a driver that a fetch parks after the stop is on no list, and the pools cannot find it.
- BrowserTicks.TickSheds: stated with a keeper and until the Botasaurus pool or the keeper stops, for the same reason; without a keeper there are no kept seats and no ticks.
- The order inside one fetch after the Botasaurus pool's stop: a fetch at work whose driver the stop closed may launch another in the model, where the source launches only one that had none yet; the laws hold for more runs than the source has.
- A fetch waiting for room under the Botasaurus cap: it changes nothing until it is served, and its wake-up order is not modelled.
- Weak references to permit reclaimers: the one Camoufox pool of a process is the one reclaimer, until it stops.
- FetchLoop.FetchSound: the clauses about good and blocked pages assume that a fetch reporting success reports no failure category, which every fetcher keeps.
- UrlLadder.OneOutcome: collaborators other than fetches, extraction and conversion do not raise. The branch for a fetch that returns no result at all is left out: a fetch gives none only for a level outside 1 to 3, which the ladder never holds.
- JobRun.ProcessJob: URLs run at once in the source; here their outcomes are collected in order, with each URL's view of the cancellation flag arbitrary, which covers every interleaving because URLs share nothing else.
- Result fields that decide nothing (timings, messages, block reasons, markdown, extracted data), the memory of a site's refusal being written, and the Botasaurus hints of level memory.
- How re-probes are counted and hints expire in level memory: whether a hint is read is an arbitrary answer.
- CircuitBreaker.StepCounts: the breaker's reads and writes are taken as one step per call, so lost updates between concurrent callers of one domain are not modelled.
- CapacityController.StrainReachesMinIff: the cut is any function that keeps a growing share and takes off a growing share, of which multiplying by the cut factor is shown to be one (`FactorCuts`).
- The controller's disabled mode and its reading of pressure, memory and browser weight from the system: the readings are inputs.
- The limiter's response body and headers.
- Page classification, extraction, captcha solving, fingerprints, proxies' scoring internals: arbitrary answers here.
- API routes, command line, migrations, metrics, health checks, quotas and spend budgets: plumbing, or easy.
