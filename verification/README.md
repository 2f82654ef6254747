# Verification of go-github-kit

A Dafny 4.11 model of go-github-kit, the operational kernel over google/go-github, with proofs
about its stateful parts: concurrent pagination, the transport stack (rate-limit gate, header
feed, retry, probe, pacing), the GitHub App credential caches, and error classification.

`dafny verify dfyconfig.toml` checks everything.

## How it is organised

**Pagination** (`pagination.go`). `WalkModel` turns `walkPages` into a state machine: each
atomic load, store, add and compare-and-swap, each critical section under `mu`, the acquisition
and release of `deliverMu` and of a semaphore slot, and the start and the end of every `fetch` and
`onPage` call is one step of the dispatcher or of a page's worker. A `Run` is any schedule of enabled
events; the server, the callback and the caller's cancellation are events too, so a statement
about all runs is one about every interleaving and every environment.

- `WalkSafety`, `WalkOutcome`: the inductive invariant, one small lemma per kind of step.
- `WalkTheorems`, `WalkBlame`: what holds of every run. `WalkProgress`: no deadlock, bounded runs.
- `WalkRefinement`, `WalkCollection`: every schedule returns what the sequential page loop returns.
- `WalkOvershoot`: how much is fetched, and dispatched, past the end of the listing.
- `WalkOneByOne`: what is special about one slot. `WalkSchedules`, `WalkClaims`, `WalkEarlyCancel`:
  schedules that refute four comments, and exactly when these hold.
- `WalkMachine`: the class `Walk` with the arrays and flags of the source. Each method performs one
  atomic action in place and is proved to be the model's step; `Run` lets an arbitrary scheduler
  choose among the enabled actions until the walk returns. `FetchPages` sits on top of it.

**Transport stack.** `RateLimit` (the shared cache against a log of everything done to it), `Http` (a
scripted server, requests whose bodies can be read once, and a clock that never goes back), `Pacing`
(the slot schedule, and the layer in front of the server), `Retry` (a full account of one call, then the
class that loops), `Kernel` (probe, gate, feed and their composition by `New` over one pacing layer),
`GateRace` (the read-then-decrement race between concurrent requests).

**Credentials and errors.** `AppAuth` (JWT and installation token caches over any sequence of
calls), `Classify` (error trees of any size, searched in pre-order).

## Where the code and its comments disagree

The code is modelled as it is; each disagreement is settled by an exact condition.

In pagination, an ordinary run is one in which nothing fails, nobody cancels, and short pages are at
the end of the listing only.

- "At most Concurrency" pages wait in `pending` (`pagination.go:176-179`): true of every run exactly
  when MaxPages - 1 <= Concurrency, of every ordinary run exactly when that holds or Concurrency = 1
  (`WalkClaims.PendingClaimExact`).
- "One page awaiting delivery" (`pagination.go:82-84`): true of every run exactly when MaxPages <= 2, of
  every ordinary run exactly when that holds or Concurrency = 1 (`WalkClaims.OneAwaitingClaimExact`).
- Pages beyond a short page are never fetched and never given to `onPage` (`pagination.go:90-92`): each
  half true of every run, and of every ordinary run, exactly when Concurrency = 1 or MaxPages <= 2
  (`WalkClaims.ShortPageClaimExact`).
- A nil error proves completeness although the caller may cancel: exactly when page 1 holds
  everything promised (`WalkCollection.CancellationExact`).
- Cancellation after the short page is the designed early exit (`pagination.go:222-226`): a fetch that
  cancels itself for an earlier page loses that page without an error. Nil still proves completeness
  exactly when Concurrency = 1, MaxPages <= 2, page 1 holds the collection, or no page up to the cap is
  short (`WalkEarlyCancel.EarlyCancelExact`). Without either cancellation it always does.
- Every attempt refreshes the budget (`transport.go:44-47`): in the main stack the feed is outside
  the retry, so only a returned response does; the cache is left the same exactly when the call
  returns an informative response or no attempt brought one (`Kernel.FeedClaimExact`). A 429 whose
  sleep the caller cancels is lost (`Kernel.CancelledRefusalIsLost`).
- A Retry-After overrides the computed backoff (`transport.go:170`): only where it is the longer, or
  both reach the cap (`Retry.OverridesIff`).
- Doubling the backoff may overflow int64: the sleeps of every call are the documented ones exactly
  when no doubling before them overflows, which for MaxRetries <= 1 is always (`Retry.SleepsExact`).
- Pacing spaces the start of requests (`secondary.go:10-11`): it spaces slots; with timers that may be
  late the starts are an interval apart exactly when the arrivals leave that much more room
  (`Pacing.StartsApartIff`).
- A JWT is signed at most once per its lifetime (`appauth/transport.go:27-29`): true of a history exactly
  when nobody calls in the last two minutes of the cached JWT (`AppAuth.OncePerLifetimeIff`).
- N concurrent callers may mint N tokens (`appauth/doc.go:56-60`): they queue at the mutex, and mint N
  exactly when the tokens minted have at most a minute to live (`AppAuth.BurstMintsIff`).
- Lifetimes beyond 24 hours are refused (`appauth/doc.go:46-48`): they never are
  (`AppAuth.LongLivedIsServed`).
- Classifying "never destroys information" (`errors.go:42-44`): the error passed in survives exactly
  when no go-github error that decides lies strictly below its root (`Classify.InputSurvivesIff`).
- An error of no category is returned unchanged (`errors.go:87-88`): exactly when a response that
  decided is its root (`Classify.UnmarkedUnchangedIff`).

## Model

| member | source | states |
|---|---|---|
| WalkOutcome.Reachable | pagination.go:144-290 | the inductive invariant of the walk holds in every state that any schedule, server, callback and cancellation can reach |
| WalkTheorems.DeliveryInOrder | pagination.go:180-211 | onPage is called for pages 1, 2, 3, ... in order and each once, and the accepted pages are exactly the items fetched for them |
| WalkTheorems.CallsDoNotOverlap | pagination.go:88-91 | two onPage calls never overlap, and the running one was given the next page as it was fetched |
| WalkTheorems.BeginsAfterSuccess | pagination.go:200-204 | an onPage begins only when all earlier ones returned nil, so none begins after a callback failure |
| WalkTheorems.FailureDiscipline | pagination.go:163-174 | abort implies a recorded error, at most one onPage begins after it, the first recorded error is returned, and nil means no error and delivery up to the first missing page |
| WalkTheorems.FirstErrorKept | pagination.go:166-168 | along every continuation of a run the first recorded error stays |
| WalkBlame.ErrorIsGenuine | pagination.go:126-129 | every error recorded or returned is one that fetch or onPage returned in this run, with its cause and for the page it names |
| WalkTheorems.Conservation | pagination.go:154-161 | at most Concurrency workers hold slots, only holders run fetch, no page is fetched twice, and itemsFetched is the total of the pages added so far |
| WalkTheorems.BuffersReleased | pagination.go:206-209 | a page's buffer holds its items from recording to delivery and is empty before and after |
| WalkTheorems.AllReleased | pagination.go:270-289 | at return all slots and locks are free, no worker is live, every fetched page is recorded and counted, and a recorded error has aborted and cancelled the walk |
| WalkTheorems.AlwaysEnds | pagination.go:252-280 | no schedule has more than 25 * MaxPages - 3 steps, and before the return some step needing neither cancellation nor failure is enabled |
| WalkProgress.NotStuck | pagination.go:252-280 | no deadlock: in every state satisfying the invariant before the return, a goroutine or its callee can move |
| WalkProgress.Decreases | pagination.go:180-290 | a measure over counters, undelivered and undispatched pages falls at every step |
| WalkProgress.CanFinish | pagination.go:252-289 | every run, however far it got, extends to one that returns without the caller cancelling |
| WalkRefinement.NilIsPrefix | pagination.go:240-250 | when nil is returned, the pages handed over are a prefix of the server's listing, even under cancellation |
| WalkRefinement.NilIsComplete | pagination.go:213-290 | without caller cancellation nil means the prefix reaches MaxPages or the first short page: no needed page is skipped |
| WalkRefinement.NeededPagesRecorded | pagination.go:215-238 | the marker is never before the first short page, and a page whose predecessor is full is recorded once its worker is through, unless the walk has failed |
| WalkCollection.SequentialWalkMeans | pagination.go:47-53 | the sequential page loop collects the first min(size, MaxPages * PerPage) items |
| WalkCollection.RefinesSequentialWalk | pagination.go:43-78 | for every schedule an uncancelled walk returning nil has handed over exactly what the sequential loop collects |
| WalkCollection.NilIsPrefixOf | pagination.go:224-262 | with cancellation allowed, nil still means a page-aligned prefix of the collection |
| WalkCollection.ErrorIffFailure | pagination.go:220-231 | without cancellation the walk returns an error if and only if some fetch or onPage returned one |
| WalkCollection.CancellationExact | pagination.go:55-57 | under caller cancellation nil implies completeness for all runs if and only if page 1 holds all that is promised |
| WalkOvershoot.OvershootBound | pagination.go:233-238 | with successful fetches at most Concurrency fetches are begun at or beyond the first short page, each once |
| WalkOvershoot.DispatchStops | pagination.go:252-256 | once a short page is marked, at most one more worker is ever spawned and the marker never changes |
| WalkOvershoot.NoFetchAfterStop | pagination.go:292-300 | once cancelled with a short page seen, no page is fetched whose worker had not loaded the marker yet |
| WalkClaims.PendingClaimExact | pagination.go:176-179 | never more than Concurrency pages wait in pending: in all runs if and only if MaxPages - 1 <= Concurrency, in all ordinary ones if and only if that or Concurrency = 1 |
| WalkClaims.OneAwaitingClaimExact | pagination.go:80-85 | never more than one page waits: in all runs if and only if MaxPages <= 2, in all ordinary ones if and only if that or Concurrency = 1 |
| WalkClaims.SlowPageFillsPending | pagination.go:176-179 | for every Concurrency >= 2 an ordinary run in which all pages 2..MaxPages wait |
| WalkClaims.FailedPageFillsPending | pagination.go:200-204 | even sequentially, pages keep being recorded and held after an onPage failure |
| WalkClaims.ShortPageClaimExact | pagination.go:90-92 | onPage is never called beyond a short page, and no page beyond one is fetched: each in all runs, and in all ordinary ones, if and only if Concurrency = 1 or MaxPages <= 2 |
| WalkOneByOne.OneAtATime | pagination.go:22-24 | with Concurrency = 1 a worker holds the slot only as the last dispatched one, and none fetches beyond a short page |
| WalkOneByOne.OneWaits | pagination.go:180-211 | with Concurrency = 1 and no failure, at most one page is recorded and not yet delivered |
| WalkEarlyCancel.EarlyCancelExact | pagination.go:222-230 | if fetches may cancel themselves, nil implies completeness for all uncancelled runs if and only if one slot, at most two pages, page 1 holds all, or no page up to the cap is short |
| WalkEarlyCancel.PageTwoIsLost | pagination.go:224-226 | otherwise page 2 can be lost behind a later short page, and the walk returns nil with page 1 alone |
| WalkMachine.Walk.Dispatch | pagination.go:252-289 | in place, exactly the dispatcher's step of the model |
| WalkMachine.Walk.Fail | pagination.go:163-174 | in place, exactly the step of the closure fail |
| WalkMachine.Walk.WorkOn | pagination.go:215-250 | in place, exactly the worker's step of the model |
| WalkMachine.Walk.DrainOn | pagination.go:180-211 | in place, exactly the step of the closure drain |
| WalkMachine.Walk.FetchDone | pagination.go:126-129 | in place, exactly the effect of a fetch returning |
| WalkMachine.Walk.CallDone | pagination.go:133-161 | in place, exactly the effect of an onPage returning |
| WalkMachine.Walk.Run | pagination.go:144-290 | under any choice of enabled actions the walk returns, and what it did is a run of the model |
| WalkMachine.WalkPages | pagination.go:108-124 | MaxPages below 1 is rejected; otherwise a finished run with the caller's options, PerPage 100 and Concurrency 3 where these are not positive: no more workers than that, no page beyond MaxPages, a genuine error, and nil from an honest server uncancelled means the first MaxPages * PerPage items |
| WalkMachine.FetchPages | pagination.go:61-78 | uncancelled: an error if and only if a fetch failed, else the first MaxPages * PerPage items in terms of the caller's options, as the sequential loop collects them, for every collection the server may hold |
| RateLimit.RateLimitCache.Update | ratelimit.go:108-117 | the fields stay the view of the log, in which zero-Limit snapshots do not count |
| RateLimit.RateLimitCache.Decrement | ratelimit.go:122-135 | clamping step by step equals subtracting the sum of positive decrements once and clamping once |
| RateLimit.RateLimitCache.Get | ratelimit.go:138-147 | the view of the log, and whether there is one |
| RateLimit.KnownIff | ratelimit.go:93-97 | a budget is known if and only if a snapshot with nonzero Limit was ever stored |
| RateLimit.OnlyShrinks | ratelimit.go:119-121 | between updates Remaining only shrinks and stays nonnegative; Limit and ResetAt stay |
| GateRace.UnwaitedExact | transport.go:104-131 | with R > MinRemaining and at most n requests between read and decrement, the counts that can pass unwaited are exactly those up to R - MinRemaining + n - 1 |
| GateRace.NothingBelowFloor | transport.go:129-131 | at or below the floor no request passes unwaited |
| GateRace.SpendIsDecrement | transport.go:108-111 | the race's arithmetic is the cache's own |
| Retry.BackoffExact | transport.go:191-228 | the backoff of all sleeps i < MaxRetries is InitialBackoff * 2^i capped at MaxBackoff if and only if no doubling before the last of them overflows int64 |
| Retry.SleepsExact | transport.go:209-222 | the sleeps of all calls are the documented ones, whatever is sent and answered, if and only if none of those doublings overflows |
| Retry.DelayBounds | transport.go:209-216 | without overflow a sleep is the larger of backoff and Retry-After, capped, and never below the documented backoff even when Retry-After wraps int64 |
| Retry.SleepIs | transport.go:191-228 | each sleep of a call is InitialBackoff * 2^i or the seconds of Retry-After if longer, capped at MaxBackoff, for every Retry-After below 9e9 seconds |
| Retry.OverridesIff | transport.go:170 | a Retry-After replaces the backoff if and only if it is at least the documented backoff |
| Retry.CallBounds | transport.go:198-222 | at most MaxRetries + 1 attempts and MaxRetries * MaxBackoff of sleep |
| Retry.UnsafeResendOnlyAfter429 | transport.go:164-170 | a request other than GET, HEAD, OPTIONS, PUT and DELETE is re-sent only directly after a 429 |
| Retry.ReturnedFailureIsFinal | transport.go:233-249 | a retryable reply is returned only when retries are used up, and only retryable replies are superseded |
| Retry.AccountUnique | transport.go:198-230 | the server's replies and the interruptions determine attempts, sleeps and result |
| Retry.OnlyReturnedStaysOpen | transport.go:218-222 | every response is closed exactly once except the one returned, which never is |
| Retry.ReadBody | transport.go:280-299 | buffering uses the reader up and yields all its bytes, nothing for no body, or an error |
| Retry.RetryTransport.Pause | transport.go:209-222 | closes the superseded response and sleeps exactly the delay of this attempt |
| Retry.RetryTransport.Attempts | transport.go:191-230 | for any server and clock the loop gives a full account: every attempt has the caller's body to send whatever earlier ones read of it, order and length of sleeps, closed responses, what the cache was fed, and no attempt before its sleep is over |
| Retry.RetryTransport.RoundTrip | transport.go:181-231 | a disabled layer makes one trip with the body as it is, an unreadable body none, otherwise the loop's account; no unsafe re-send |
| Kernel.RateProber.Claim | probe.go:84-99 | a probe is granted if and only if the cooldown has passed, and grants are at least 30 s apart over every sequence of callers |
| Kernel.ProbesPerSpan | probe.go:53-61 | a span of length t holds at most t / 30 s + 1 probes |
| Kernel.RateProber.Probe | probe.go:79-140 | the network is asked, by GET within the retry bounds, if and only if no probe was granted in the last 30 s; the budget is then learned if and only if the last answer is below 400; others get the cached one or an error |
| Kernel.Kernel.constructor | client.go:60-89 | both stacks share pacing layer, server, clock, cache and retry options; only the probe stack feeds on every attempt |
| Kernel.Kernel.AwaitBudget | transport.go:116-148 | the budget is probed for if and only if it is unknown and a probe is due; verdict and wait follow the budget so seen and the clock |
| Kernel.Kernel.Admit | transport.go:99-111 | ungated and probe requests pass untouched; a gated one that passes has spent one of the budget |
| Kernel.Kernel.Do | transport.go:99-148 | one request end to end, clause by clause: when it probes and what it sees, when it is forwarded, waits or is rejected, trips and sleeps bounded, account of the attempts, each with its own pacing slot and on the wire unless its pacing wait was cut short, and a cache that holds the final response's headers when these are informative |
| Kernel.FeedClaimExact | transport.go:44-47 | for every call, what it feeds leaves all caches as feeding every attempt would if and only if it returns an informative response or no attempt brought one |
| Kernel.CancelledRefusalIsLost | transport.go:218-222 | a 429 with an exhausted budget whose sleep is cancelled never reaches the cache |
| Pacing.SlotsAdmissible | secondary.go:10-21 | slots are never before arrival and at least interval apart |
| Pacing.SlotsLeast | secondary.go:50-55 | the schedule is pointwise least among all that are |
| Pacing.WindowBound | secondary.go:10-16 | a window of length w holds at most w / interval + 1 slots |
| Pacing.PacingTransport.Reserve | secondary.go:47-56 | the critical section appends the next slot of that schedule |
| Pacing.StartsApartIff | secondary.go:10-11 | with timers up to L late, starts are an interval apart if and only if slots are an interval plus L apart |
| Pacing.PacingTransport.RoundTrip | secondary.go:41-71 | every attempt, of either stack, has its own slot of one schedule, waits if and only if that is still to come, exactly until then, and goes out if and only if that wait is not cut short; a cancelled one keeps its slot |
| AppAuth.JwtIsLastSigned | appauth/jwt.go:65-70 | the JWT returned is the last one signed, less than 8 minutes ago, issued 60 s before and expiring 10 minutes after, in whole seconds |
| AppAuth.JwtFresh | appauth/transport.go:81-99 | every JWT returned was issued in the past and has more than 2 min - 1 s and at most 10 min left |
| AppAuth.NoJwtIff | appauth/transport.go:81-99 | a call fails if and only if signing does and the last signature is 8 minutes old or more |
| AppAuth.SignaturesApart | appauth/transport.go:81-99 | successive signatures are at least 8 minutes apart |
| AppAuth.OncePerLifetimeIff | appauth/transport.go:27-29 | signatures are a lifetime apart in a history if and only if no signing call comes in the last two minutes of the cached JWT |
| AppAuth.AppAuthTransport.CurrentJWT | appauth/transport.go:81-99 | the cache and the answer are those of the whole call history |
| AppAuth.CacheServesLiveTokens | appauth/transport.go:158-168 | a token served from the cache has more than a minute left and is not short-lived or empty |
| AppAuth.ServedIsLastMinted | appauth/transport.go:170-189 | whatever is served is the token and expiry of the last mint used, kept until a minute before expiry or, if that has passed, no longer than its call |
| AppAuth.ShortLivedUsedOnce | appauth/transport.go:182-187 | a token minted with at most a minute to live is never served again: until another mint succeeds every call asks for one and fails |
| AppAuth.NoMintWhileGood | appauth/transport.go:162-168 | after a mint every call before the refresh point is answered with its token |
| AppAuth.ServedByOneMintIff | appauth/transport.go:162-190 | after a mint all of a batch of calls are served from the cache if and only if all come before the refresh point |
| AppAuth.BurstMintsIff | appauth/doc.go:56-60 | callers at one instant, whom the cache cannot serve, all mint if and only if the tokens have at most a minute to live |
| AppAuth.LongLivedIsServed | appauth/doc.go:46-48 | a token minted for more than 24 hours is returned, and served until a minute before it expires |
| AppAuth.InstallationTokenSource.Token | appauth/transport.go:162-190 | cache and result are those of the whole call history |
| Classify.ClassifyForm | errors.go:89-128 | the result is the input, the matched error, or a StatusError over it whose sentinel depends on the decision alone |
| Classify.SentinelDependsOnDecision | errors.go:102-125 | errors with the same highest-priority match get the same sentinel |
| Classify.ContextReported | errors.go:89-186 | status, method and URL are those of the response of the first rate-limit, else abuse, else response error the searches find; else operation and URL of the first *url.Error over the whole tree; else nothing, or the tree itself |
| Classify.FindIsFirst | errors.go:94-121 | the search finds the first match of the tree in pre-order |
| Classify.SentinelExact | errors.go:14-40 | for every tree and sentinel, errors.Is finds it in the classified error if and only if its documented condition holds of the tree, or the kept error held it already |
| Classify.OneSentinel | errors.go:97-186 | classification adds at most one sentinel |
| Classify.Idempotent | errors.go:89-96 | classifying twice is classifying once |
| Classify.KeptStaysFindable | errors.go:81-85 | every search by type finds in the result what it finds in the kept error |
| Classify.MatchedIsFound | errors.go:102-121 | the go-github error that decided is what the same search finds in the result |
| Classify.InputSurvivesIff | errors.go:42-44 | the error passed in is part of the result if and only if no deciding go-github error lies strictly below its root |
| Classify.UnmarkedUnchangedIff | errors.go:87-88 | an error no sentinel stands for is returned unchanged if and only if a response that decided is its root |

## Left out

- Real HTTP, TLS, connection tuning, `http.Client.Timeout` and go-github itself, including its own pre-flight rate check: the server is an arbitrary script of replies.
- A base transport that breaks the http.RoundTripper contract by returning both or neither of a response and an error; `shouldRetry` and `probe` are modelled for contract-abiding ones.
- The ETag cache: its storage and 304 synthesis are in a separate module that is not part of this model.
- RSA signing, PEM, base64 and JSON: a JWT is its claim times, and signing either succeeds or fails.
- Option setters, environment lookup, URL parsing, request construction and error-message texts, with the unsynchronised read of `lastAttempt` in one such message (`probe.go:94`).
- `OnProgress` and the order of its reports: it observes the count that Conservation fixes, and is never read back.
- Header text: a header is absent, malformed or a nonnegative integer, whichever of its two spellings it was read under.
- Times are unbounded integers of nanoseconds: the saturation of time.Time.Sub and the range of time.Unix beyond about 292 years are not modelled. Retry durations do wrap like int64.
- Nil receivers of the cache, the prober without a base URL and the nil error given to ClassifyError, each an early return of nothing.
- WalkCollection.RefinesSequentialWalk: assumes that the caller does not cancel and that context.Canceled is reported only once the walk context is cancelled; CancellationExact and EarlyCancelExact say what these cost.
- Kernel.Kernel.constructor: without the ETag layer, which sits between pacing and retry in the main stack.
- WalkOvershoot.OvershootBound: assumes that fetches succeed, since a worker whose fetch fails frees its slot without setting the marker.
- GateRace.UnwaitedExact: counts requests between two authoritative updates and before the reset; feeds and waits in between start a new count.
- Kernel.Kernel.Do: one request at a time through the whole stack; concurrent requests are covered for slots, probes and the gate's budget only; the waits of pacing are not part of its sleep bound.
- Fairness of the Go scheduler and data-race freedom of the Go memory model: every atomic action of the source is one step.
