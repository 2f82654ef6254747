/** The retry layer (transport.go:164-319). */
module Retry {
  import opened Common
  import opened RateLimit
  import opened Http
  import opened Pacing

  /** Durations are int64 nanoseconds. */
  const TWO_62: int := 0x4000_0000_0000_0000
  const TWO_63: int := 0x8000_0000_0000_0000
  const TWO_64: int := 0x1_0000_0000_0000_0000

  /** The int64 a mathematical integer wraps to. */
  function Wrap(x: int): int {
    var m := x % TWO_64;
    if m >= TWO_63 then m - TWO_64 else m
  }

  datatype Options = Options(enabled: bool, maxRetries: int, initialBackoff: int, maxBackoff: int) {
    /** What New guarantees: positive int64 fields when the layer is on (options.go:197-214). */
    predicate Valid() {
      enabled ==> maxRetries >= 1 && 0 < initialBackoff < TWO_63 && 0 < maxBackoff < TWO_63
    }
  }

  predicate IsIdempotent(verb: string) {
    verb in {"GET", "HEAD", "OPTIONS", "PUT", "DELETE"}
  }

  predicate ShouldRetry(verb: string, reply: Reply) {
    match reply
    case Fault => IsIdempotent(verb)
    case Answer(resp) => resp.status == 429 || (resp.status >= 500 && IsIdempotent(verb))
  }

  /** retryAfter: seconds times time.Second in int64 (transport.go:262-278). */
  function RetryAfter(reply: Reply): int {
    if reply.Answer? && reply.resp.retryAfter.Some? then Wrap(reply.resp.retryAfter.value * SECOND) else 0
  }

  // -------------------------------------------------------- delay arithmetic

  /** `backoff` doubled in int64, then capped (transport.go:224-227). */
  function Grown(o: Options, backoff: int): int {
    Min(Wrap(backoff * 2), o.maxBackoff)
  }

  /** The variable `backoff` before the i-th sleep. */
  function BackoffAt(o: Options, i: nat): int {
    if i == 0 then o.initialBackoff else Grown(o, BackoffAt(o, i - 1))
  }

  /** The i-th sleep after the given reply (transport.go:209-216). */
  function Delay(o: Options, i: nat, reply: Reply): int {
    Min(Max(BackoffAt(o, i), RetryAfter(reply)), o.maxBackoff)
  }

  function Pow2(i: nat): nat {
    if i == 0 then 1 else 2 * Pow2(i - 1)
  }

  /** Exponential backoff as documented: the initial delay doubled i times, at most MaxBackoff. */
  function Documented(o: Options, i: nat): int {
    Min(o.initialBackoff * Pow2(i), o.maxBackoff)
  }

  lemma WrapSmall(x: int)
    requires -TWO_63 <= x < TWO_63
    ensures Wrap(x) == x
  {
  }

  lemma WrapNegative(x: int)
    requires TWO_63 <= x < TWO_64
    ensures Wrap(x) < 0
  {
  }

  lemma PowDoubles(a: int, i: nat)
    ensures a * Pow2(i + 1) == 2 * (a * Pow2(i))
  {
  }

  lemma PowPositive(a: int, i: nat)
    requires a > 0
    ensures a * Pow2(i) >= a
  {
  }

  lemma {:induction false} DocumentedGrows(o: Options, i: nat, j: nat)
    requires i <= j && o.initialBackoff > 0
    ensures Documented(o, i) <= Documented(o, j)
  {
    if i < j {
      DocumentedGrows(o, i, j - 1);
      PowDoubles(o.initialBackoff, j - 1);
      PowPositive(o.initialBackoff, j - 1);
    }
  }

  /** None of the doublings before the sleeps of a call leaves int64; the last sleep is that before attempt MaxRetries. */
  predicate NoOverflow(o: Options) {
    o.maxRetries <= 1 || (o.initialBackoff < TWO_62 && Documented(o, o.maxRetries - 2) < TWO_62)
  }

  /** Without overflow the variable is the documented backoff, except that the first is not capped yet. */
  lemma {:induction false} BackoffIsDocumented(o: Options, i: nat)
    requires o.Valid() && o.enabled && NoOverflow(o) && i < o.maxRetries
    ensures BackoffAt(o, i) == if i == 0 then o.initialBackoff else Documented(o, i)
  {
    if i > 0 {
      BackoffIsDocumented(o, i - 1);
      DocumentedGrows(o, i - 1, o.maxRetries - 2);
      PowDoubles(o.initialBackoff, i - 1);
      PowPositive(o.initialBackoff, i - 1);
      WrapSmall(BackoffAt(o, i - 1) * 2);
    }
  }

  /** Otherwise some sleep of a call that uses all its retries begins with a negative backoff. */
  lemma {:induction false} Overflows(o: Options, i: nat) returns (j: nat)
    requires o.Valid() && o.enabled && o.maxRetries > 1 && i <= o.maxRetries - 2
    requires BackoffAt(o, i) == if i == 0 then o.initialBackoff else Documented(o, i)
    requires o.initialBackoff >= TWO_62 || Documented(o, o.maxRetries - 2) >= TWO_62
    requires i > 0 ==> o.initialBackoff < TWO_62
    ensures j < o.maxRetries && BackoffAt(o, j) < 0
    decreases o.maxRetries - i
  {
    var b := BackoffAt(o, i);
    PowPositive(o.initialBackoff, i);
    if b >= TWO_62 {
      WrapNegative(b * 2);
      j := i + 1;
    } else {
      PowDoubles(o.initialBackoff, i);
      WrapSmall(b * 2);
      j := Overflows(o, i + 1);
    }
  }

  /**
    Whatever MaxRetries is, the backoff of every sleep a call can make is the documented one
    exactly when no doubling before it overflows.
   */
  lemma BackoffExact(o: Options)
    requires o.Valid() && o.enabled
    ensures (forall i: nat :: i < o.maxRetries ==> Min(BackoffAt(o, i), o.maxBackoff) == Documented(o, i)) <==> NoOverflow(o)
  {
    if NoOverflow(o) {
      forall i: nat | i < o.maxRetries
        ensures Min(BackoffAt(o, i), o.maxBackoff) == Documented(o, i)
      {
        BackoffIsDocumented(o, i);
      }
    } else {
      var j := Overflows(o, 0);
      PowPositive(o.initialBackoff, j);
      assert Min(BackoffAt(o, j), o.maxBackoff) != Documented(o, j);
    }
  }

  /**
    Whatever Retry-After says, and even when its seconds wrap int64, a sleep lies between the
    documented backoff and MaxBackoff.
   */
  lemma DelayBounds(o: Options, i: nat, reply: Reply)
    requires o.Valid() && o.enabled && NoOverflow(o) && i < o.maxRetries
    ensures 0 < Documented(o, i) <= Delay(o, i, reply) <= o.maxBackoff
    ensures Delay(o, i, reply) == Min(Max(Documented(o, i), RetryAfter(reply)), o.maxBackoff)
  {
    BackoffIsDocumented(o, i);
    PowPositive(o.initialBackoff, i);
  }

  /** "Overrides" (transport.go:170): a Retry-After replaces the backoff exactly when it is the longer, or both are capped. */
  lemma OverridesIff(o: Options, i: nat, reply: Reply)
    requires o.Valid() && o.enabled && NoOverflow(o) && i < o.maxRetries
    ensures Delay(o, i, reply) == Min(RetryAfter(reply), o.maxBackoff) <==> RetryAfter(reply) >= Documented(o, i)
  {
    DelayBounds(o, i, reply);
  }

  // ------------------------------------------------------------ whole calls

  datatype Outcome = Returned(reply: Reply) | SleepCancelled | BodyFailed

  /**
    A complete account of one call to an enabled retry layer: what each attempt brought and
    every sleep, in order.  Sleep i follows attempt i; the call goes on exactly after a
    retryable reply with retries left and an uninterrupted sleep.
   */
  ghost predicate Account(o: Options, verb: string, trips: seq<Trip>, naps: seq<Nap>, out: Outcome) {
    && |trips| >= 1
    && |trips| - 1 <= |naps| <= |trips|
    && (forall i :: 0 <= i < |naps| ==> Goes(o, verb, i, trips[i].reply, naps[i]))
    && (forall i :: 0 <= i < |trips| - 1 ==> naps[i].ok)
    && if |naps| == |trips| then !naps[|naps| - 1].ok && out == SleepCancelled
       else out == Returned(trips[|trips| - 1].reply) && Stops(o, verb, |trips| - 1, trips[|trips| - 1].reply)
  }

  predicate Stops(o: Options, verb: string, attempt: nat, reply: Reply) {
    attempt >= o.maxRetries || !ShouldRetry(verb, reply)
  }

  predicate Goes(o: Options, verb: string, attempt: nat, reply: Reply, nap: Nap) {
    !Stops(o, verb, attempt, reply) && nap.d == Delay(o, attempt, reply)
  }

  /** The sleeps of a call are the documented ones. */
  ghost predicate AsDocumented(o: Options, trips: seq<Trip>, naps: seq<Nap>) {
    |naps| <= |trips| &&
    forall i :: 0 <= i < |naps| ==>
      0 < naps[i].d == Min(Max(Documented(o, i), RetryAfter(trips[i].reply)), o.maxBackoff)
  }

  /** So are the sleeps of every call, whatever is sent and answered. */
  ghost predicate AllAsDocumented(o: Options) {
    forall verb, trips, naps, out :: Account(o, verb, trips, naps, out) ==> AsDocumented(o, trips, naps)
  }

  /** Two's complement, another way. */
  lemma WrapIs(x: int)
    ensures Wrap(x) == (x + 0x8000_0000_0000_0000) % 0x1_0000_0000_0000_0000 - 0x8000_0000_0000_0000
  {
  }

  /** Retry-After in nanoseconds: none is zero, and what exceeds int64 wraps. */
  lemma RetryAfterIs(reply: Reply)
    ensures reply.Fault? || reply.resp.retryAfter.None? ==> RetryAfter(reply) == 0
    ensures reply.Answer? && reply.resp.retryAfter.Some? ==>
              var ns := reply.resp.retryAfter.value * 1_000_000_000;
              && RetryAfter(reply) == (ns + 0x8000_0000_0000_0000) % 0x1_0000_0000_0000_0000 - 0x8000_0000_0000_0000
              && (ns < 0x8000_0000_0000_0000 ==> RetryAfter(reply) == ns)
  {
    if reply.Answer? && reply.resp.retryAfter.Some? {
      WrapIs(reply.resp.retryAfter.value * 1_000_000_000);
    }
  }

  /**
    Sleep i of a call lasts InitialBackoff * 2^i, or as many seconds as the reply's Retry-After
    says if that is longer, and no longer than MaxBackoff.  RetryAfterIs says what a Retry-After
    comes to whose nanoseconds exceed int64.
   */
  lemma SleepIs(o: Options, verb: string, trips: seq<Trip>, naps: seq<Nap>, out: Outcome, i: nat)
    requires o.Valid() && o.enabled && NoOverflow(o) && Account(o, verb, trips, naps, out) && i < |naps|
    ensures var own, reply := Documented(o, i), trips[i].reply;
            && (reply.Fault? || reply.resp.retryAfter.None? ==> naps[i].d == own)
            && (reply.Answer? && reply.resp.retryAfter.Some? && reply.resp.retryAfter.value < 9_000_000_000 ==>
                  naps[i].d == Min(Max(own, reply.resp.retryAfter.value * 1_000_000_000), o.maxBackoff))
  {
    SleepsDocumented(o, verb, trips, naps, out);
    RetryAfterIs(trips[i].reply);
  }

  /** A server that answers every attempt with a plain 429, and a caller who never cancels. */
  function Refusals(n: nat): seq<Trip> {
    seq(n, i => Trip(0, "GET", NoBody, Answer(Response(429, None, Headers(None, None, None))), None, None))
  }

  /** The sleeps of all calls are the documented ones exactly when no doubling overflows. */
  lemma SleepsExact(o: Options)
    requires o.Valid() && o.enabled
    ensures AllAsDocumented(o) <==> NoOverflow(o)
  {
    if NoOverflow(o) {
      forall verb, trips, naps, out | Account(o, verb, trips, naps, out)
        ensures AsDocumented(o, trips, naps)
      {
        SleepsDocumented(o, verb, trips, naps, out);
      }
    } else {
      var j := Overflows(o, 0);
      var trips := Refusals(o.maxRetries + 1);
      var naps := seq(o.maxRetries, i requires 0 <= i < o.maxRetries => Nap(Delay(o, i, trips[i].reply), true));
      assert Account(o, "GET", trips, naps, Returned(trips[o.maxRetries].reply));
      assert !AsDocumented(o, trips, naps) by { assert naps[j].d <= 0; }
    }
  }

  lemma SleepsDocumented(o: Options, verb: string, trips: seq<Trip>, naps: seq<Nap>, out: Outcome)
    requires o.Valid() && o.enabled && NoOverflow(o) && Account(o, verb, trips, naps, out)
    ensures AsDocumented(o, trips, naps)
  {
    forall i | 0 <= i < |naps|
      ensures 0 < naps[i].d == Min(Max(Documented(o, i), RetryAfter(trips[i].reply)), o.maxBackoff)
    {
      assert Goes(o, verb, i, trips[i].reply, naps[i]);
      DelayBounds(o, i, trips[i].reply);
    }
  }

  function TotalNap(naps: seq<Nap>): int {
    if naps == [] then 0 else TotalNap(naps[..|naps| - 1]) + naps[|naps| - 1].d
  }

  lemma {:induction false} TotalNapBound(naps: seq<Nap>, each: int)
    requires forall i :: 0 <= i < |naps| ==> naps[i].d <= each
    ensures TotalNap(naps) <= |naps| * each
  {
    if naps != [] {
      TotalNapBound(naps[..|naps| - 1], each);
      assert |naps| * each == (|naps| - 1) * each + each;
    }
  }

  lemma {:induction false} TotalNapConcat(a: seq<Nap>, b: seq<Nap>)
    ensures TotalNap(a + b) == TotalNap(a) + TotalNap(b)
  {
    if b == [] {
      assert a + b == a;
    } else {
      TotalNapConcat(a, b[..|b| - 1]);
      assert (a + b)[..|a + b| - 1] == a + b[..|b| - 1];
    }
  }

  lemma MulOrder(m: int, n: int, each: int)
    requires m <= n && 0 <= each
    ensures m * each <= n * each
  {
  }

  /** At most MaxRetries + 1 attempts, and at most MaxRetries * MaxBackoff of sleep. */
  lemma CallBounds(o: Options, verb: string, trips: seq<Trip>, naps: seq<Nap>, out: Outcome)
    requires o.Valid() && o.enabled && Account(o, verb, trips, naps, out)
    ensures |trips| <= o.maxRetries + 1 && |naps| <= o.maxRetries
    ensures TotalNap(naps) <= o.maxRetries * o.maxBackoff
  {
    if |naps| > 0 {
      assert Goes(o, verb, |naps| - 1, trips[|naps| - 1].reply, naps[|naps| - 1]);
    }
    forall i | 0 <= i < |naps|
      ensures naps[i].d <= o.maxBackoff
    {
      assert Goes(o, verb, i, trips[i].reply, naps[i]);
    }
    TotalNapBound(naps, o.maxBackoff);
    MulOrder(|naps|, o.maxRetries, o.maxBackoff);
  }

  /** A request other than GET, HEAD, OPTIONS, PUT and DELETE is re-sent only directly after a 429. */
  ghost predicate ResentSafely(verb: string, trips: seq<Trip>) {
    verb in ["GET", "HEAD", "OPTIONS", "PUT", "DELETE"] ||
    forall i :: 0 <= i < |trips| - 1 ==> trips[i].reply.Answer? && trips[i].reply.resp.status == 429
  }

  lemma UnsafeResendOnlyAfter429(o: Options, verb: string, trips: seq<Trip>, naps: seq<Nap>, out: Outcome)
    requires Account(o, verb, trips, naps, out)
    ensures ResentSafely(verb, trips)
    ensures verb !in ["GET", "HEAD", "OPTIONS", "PUT", "DELETE"] ==>
              forall i :: 0 <= i < |trips| - 1 ==> trips[i].reply.Answer? && trips[i].reply.resp.status == 429
  {
  }

  /**
    A 429, and for GET, HEAD, OPTIONS, PUT and DELETE a 5xx or transport failure, is returned
    only when the retries are used up; any other reply is returned at once.
   */
  lemma ReturnedFailureIsFinal(o: Options, verb: string, trips: seq<Trip>, naps: seq<Nap>, out: Outcome)
    requires o.maxRetries >= 0 && Account(o, verb, trips, naps, out) && out.Returned?
    ensures (out.reply.Answer? && out.reply.resp.status == 429)
            || (verb in ["GET", "HEAD", "OPTIONS", "PUT", "DELETE"] && (out.reply.Fault? || out.reply.resp.status >= 500))
            ==> |trips| == o.maxRetries + 1
    ensures forall i :: 0 <= i < |trips| - 1 ==> trips[i].reply.Fault? || trips[i].reply.resp.status == 429 || trips[i].reply.resp.status >= 500
  {
    if |naps| > 0 {
      assert Goes(o, verb, |naps| - 1, trips[|naps| - 1].reply, naps[|naps| - 1]);
    }
    forall i | 0 <= i < |trips| - 1
      ensures trips[i].reply.Fault? || trips[i].reply.resp.status == 429 || trips[i].reply.resp.status >= 500
    {
      assert Goes(o, verb, i, trips[i].reply, naps[i]);
    }
  }

  /** The account leaves nothing open: the server's answers and the interruptions determine the call. */
  lemma AccountUnique(o: Options, verb: string, t1: seq<Trip>, n1: seq<Nap>, out1: Outcome,
                      t2: seq<Trip>, n2: seq<Nap>, out2: Outcome)
    requires Account(o, verb, t1, n1, out1) && Account(o, verb, t2, n2, out2)
    requires forall i :: 0 <= i < |t1| && i < |t2| ==> t1[i].reply == t2[i].reply
    requires forall i :: 0 <= i < |n1| && i < |n2| ==> n1[i].ok == n2[i].ok
    ensures |t1| == |t2| && n1 == n2 && out1 == out2
  {
  }

  /** The trips from `base` on whose responses are superseded by a later attempt or a cancelled sleep. */
  function Superseded(base: nat, trips: seq<Trip>, n: nat): seq<nat>
    requires n <= |trips|
  {
    if n == 0 then []
    else Superseded(base, trips, n - 1) + if trips[n - 1].reply.Answer? then [base + n - 1] else []
  }

  lemma {:induction false} SupersededMore(base: nat, trips: seq<Trip>, trip: Trip, n: nat)
    requires n <= |trips|
    ensures Superseded(base, trips + [trip], n) == Superseded(base, trips, n)
  {
    if n > 0 {
      SupersededMore(base, trips, trip, n - 1);
    }
  }

  /** Every superseded response is closed exactly once, and no other. */
  lemma {:induction false} ClosedOnce(base: nat, trips: seq<Trip>, n: nat)
    requires n <= |trips|
    ensures forall k: nat :: k in Superseded(base, trips, n) <==> base <= k < base + n && trips[k - base].reply.Answer?
    ensures var s := Superseded(base, trips, n); forall i, j :: 0 <= i < j < |s| ==> s[i] < s[j]
  {
    if n > 0 {
      ClosedOnce(base, trips, n - 1);
      var s := Superseded(base, trips, n - 1);
      forall i | 0 <= i < |s|
        ensures s[i] < base + n - 1
      {
        assert s[i] in Superseded(base, trips, n - 1);
      }
      var last: seq<nat> := if trips[n - 1].reply.Answer? then [base + n - 1] else [];
      forall k: nat
        ensures k in Superseded(base, trips, n) <==> base <= k < base + n && trips[k - base].reply.Answer?
      {
        assert k in s + last <==> k in s || k in last;
      }
    }
  }

  /** Of a call that began at trip `base`, every response is closed once except the one returned. */
  lemma OnlyReturnedStaysOpen(o: Options, verb: string, trips: seq<Trip>, naps: seq<Nap>, out: Outcome, base: nat)
    requires Account(o, verb, trips, naps, out)
    ensures var closed := Superseded(base, trips, |naps|);
            && (forall i, j :: 0 <= i < j < |closed| ==> closed[i] != closed[j])
            && forall k: nat :: k < |trips| && trips[k].reply.Answer? ==>
                 (base + k in closed <==> !(out.Returned? && k == |trips| - 1))
  {
    ClosedOnce(base, trips, |naps|);
    forall k: nat | k < |trips| && trips[k].reply.Answer?
      ensures base + k in Superseded(base, trips, |naps|) <==> !(out.Returned? && k == |trips| - 1)
    {
      assert (base + k) - base == k;
    }
  }

  // -------------------------------------------------------------- the layer

  /** What feedTransport does to the cache for one reply (transport.go:57-66). */
  function FeedOf(reply: Reply): seq<Op> {
    if reply.Answer? && ParseHeaders(reply.resp.headers).Some?
    then [Updated(ParseHeaders(reply.resp.headers).value)] else []
  }

  function Fed(trips: seq<Trip>): seq<Op> {
    if trips == [] then [] else Fed(trips[..|trips| - 1]) + FeedOf(trips[|trips| - 1].reply)
  }

  lemma FedMore(trips: seq<Trip>, trip: Trip)
    ensures Fed(trips + [trip]) == Fed(trips) + FeedOf(trip.reply)
  {
  }

  /** Feeding is one Update of the cache, or nothing. */
  method Feed(cache: RateLimitCache, reply: Reply)
    requires cache.Valid()
    modifies cache
    ensures cache.Valid() && cache.ops == old(cache.ops) + FeedOf(reply)
  {
    if reply.Answer? {
      var snapshot := ParseHeaders(reply.resp.headers);
      if snapshot.Some? {
        cache.Update(snapshot.value);
      }
    }
  }

  /** The body can be buffered, or there is none. */
  predicate Bufferable(body: Body) {
    body.Stream? ==> body.fate.Clean?
  }

  /** replacer (transport.go:301-303): a fresh reader over the buffered bytes. */
  function Replacer(bytes: Bytes): Body {
    Stream(bytes, Clean)
  }

  datatype Buffered = Unreadable | Absent | Held(bytes: Bytes)

  /** readBody (transport.go:282-299); the reader is used up by it. */
  method ReadBody(req: Request) returns (r: Buffered)
    modifies req`body
    ensures r.Unreadable? <==> !Bufferable(old(req.body))
    ensures r.Absent? ==> old(req.body) == req.body == NoBody
    ensures r.Held? ==> old(req.body) == Replacer(r.bytes)
    ensures old(req.body).Stream? ==> req.body == Stream([], old(req.body).fate)
  {
    if req.body.NoBody? {
      return Absent;
    }
    var fate, bytes := req.body.fate, req.body.unread;
    req.body := Stream([], fate);
    r := if fate.Clean? then Held(bytes) else Unreadable;
  }

  /** Every attempt had this body to send, whatever earlier attempts had read of it. */
  ghost predicate AllSent(trips: seq<Trip>, verb: string, body: Body) {
    forall i :: 0 <= i < |trips| ==> trips[i].verb == verb && trips[i].body == body
  }

  ghost predicate AllAfter(trips: seq<Trip>, start: int) {
    forall i :: 0 <= i < |trips| ==> trips[i].at >= start
  }

  /** When attempt i + 1 began, or, if it has not, the time it is now. */
  function NextStart(trips: seq<Trip>, i: nat, now: int): int {
    if i + 1 < |trips| then trips[i + 1].at else now
  }

  /** No attempt begins before the sleep after the one before it is over, nor later than now. */
  ghost predicate Paced(trips: seq<Trip>, naps: seq<Nap>, now: int)
    requires |naps| <= |trips|
  {
    && (forall i :: 0 <= i < |trips| ==> trips[i].at <= now)
    && (forall i :: 0 <= i < |naps| && naps[i].ok ==> trips[i].at + naps[i].d <= NextStart(trips, i, now))
  }

  lemma PacedNext(trips: seq<Trip>, naps: seq<Nap>, start: int, trip: Trip, now: int)
    requires |naps| <= |trips| && Paced(trips, naps, start) && trip.at == start && start <= now
    ensures Paced(trips + [trip], naps, now)
  {
  }

  lemma PacedNap(trips: seq<Trip>, naps: seq<Nap>, start: int, nap: Nap, now: int)
    requires |naps| + 1 == |trips| && Paced(trips, naps, start)
    requires start <= now && (nap.ok ==> start + nap.d <= now)
    ensures Paced(trips, naps + [nap], now)
  {
  }

  /** So far every attempt was followed by its sleep. */
  ghost predicate Underway(o: Options, verb: string, trips: seq<Trip>, naps: seq<Nap>) {
    |naps| == |trips| && forall i :: 0 <= i < |naps| ==> naps[i].ok && Goes(o, verb, i, trips[i].reply, naps[i])
  }

  lemma Concluded(o: Options, verb: string, trips: seq<Trip>, naps: seq<Nap>, trip: Trip)
    requires Underway(o, verb, trips, naps) && Stops(o, verb, |trips|, trip.reply)
    ensures Account(o, verb, trips + [trip], naps, Returned(trip.reply))
  {
  }

  lemma Interrupted(o: Options, verb: string, trips: seq<Trip>, naps: seq<Nap>, trip: Trip, nap: Nap)
    requires Underway(o, verb, trips, naps) && Goes(o, verb, |trips|, trip.reply, nap)
    ensures if nap.ok then Underway(o, verb, trips + [trip], naps + [nap])
            else Account(o, verb, trips + [trip], naps + [nap], SleepCancelled)
  {
  }

  /** What the server, the clock and the cache have recorded. */
  datatype Logs = Logs(trips: seq<Trip>, closed: seq<nat>, naps: seq<Nap>, pauses: seq<Nap>, now: int, ops: seq<Op>)

  /** The logs show the attempts and sleeps of a call, appended to what was there before it. */
  ghost predicate Appended(before: Logs, after: Logs, trips: seq<Trip>, naps: seq<Nap>, fed: bool)
    requires |naps| <= |trips|
  {
    && after.trips == before.trips + trips
    && after.naps == before.naps + naps && after.pauses == before.pauses + Pauses(trips)
    && after.now >= before.now && AllAfter(trips, before.now) && Paced(trips, naps, after.now)
    && after.closed == before.closed + Superseded(|before.trips|, trips, |naps|)
    && (fed ==> after.ops == before.ops + Fed(trips))
  }

  lemma BeforeCall(before: Logs, fed: bool)
    ensures Appended(before, before, [], [], fed)
  {
  }

  lemma LogTrip(before: Logs, s: Logs, trips: seq<Trip>, naps: seq<Nap>, fed: bool, trip: Trip, t: Logs)
    requires |naps| <= |trips| && Appended(before, s, trips, naps, fed)
    requires t.trips == s.trips + [trip] && t.closed == s.closed && t.naps == s.naps && trip.at == s.now <= t.now
    requires t.pauses == s.pauses + PauseOf(trip)
    requires fed ==> t.ops == s.ops + FeedOf(trip.reply)
    ensures Appended(before, t, trips + [trip], naps, fed)
  {
    PacedNext(trips, naps, s.now, trip, t.now);
    FedMore(trips, trip);
    PausesMore(trips, trip);
    SupersededMore(|before.trips|, trips, trip, |naps|);
  }

  lemma LogNap(before: Logs, s: Logs, trips: seq<Trip>, naps: seq<Nap>, fed: bool, nap: Nap, t: Logs)
    requires |naps| + 1 == |trips| && Appended(before, s, trips, naps, fed)
    requires t.trips == s.trips && t.ops == s.ops && t.pauses == s.pauses && t.naps == s.naps + [nap] && s.now <= t.now
    requires nap.ok ==> s.now + nap.d <= t.now
    requires t.closed == s.closed + if trips[|naps|].reply.Answer? then [|s.trips| - 1] else []
    ensures Appended(before, t, trips, naps + [nap], fed)
  {
    PacedNap(trips, naps, s.now, nap, t.now);
  }

  /** The retry layer over the base, or, when `feed` is present, over the feed layer over it. */
  class RetryTransport {
    const o: Options
    const base: PacingTransport
    const server: Server
    const clock: Clock
    const feed: RateLimitCache?

    ghost predicate Valid()
      reads this, base, server, feed
    {
      && o.Valid() && base.server == server && base.clock == clock && base.Valid()
      && (feed != null ==> feed.Valid())
    }

    constructor (o: Options, base: PacingTransport, feed: RateLimitCache?)
      requires o.Valid() && base.Valid() && (feed != null ==> feed.Valid())
      ensures Valid() && this.o == o && this.base == base && this.feed == feed
    {
      this.o, this.base, this.server, this.clock, this.feed := o, base, base.server, base.clock, feed;
    }

    ghost predicate InCall(before: Logs, trips: seq<Trip>, naps: seq<Nap>)
      requires |naps| <= |trips|
      reads server, clock, feed
    {
      Appended(before, Now(), trips, naps, feed != null)
    }

    ghost function Now(): Logs
      reads server, clock, feed
    {
      Logs(server.trips, server.closed, clock.naps, clock.pauses, clock.now, if feed == null then [] else feed.ops)
    }

    /** One round trip through the layers below. */
    method Next(req: Request, ghost before: Logs, ghost trips: seq<Trip>, ghost naps: seq<Nap>)
      returns (reply: Reply, ghost trip: Trip)
      requires Valid() && |naps| <= |trips| && InCall(before, trips, naps)
      modifies base, server`trips, clock`now, clock`pauses, feed, req`body
      ensures Valid() && InCall(before, trips + [trip], naps)
      ensures trip.verb == req.verb && trip.body == old(req.body) && trip.reply == reply
      ensures old(req.body).NoBody? ==> req.body.NoBody?
    {
      ghost var logs := Now();
      reply, trip := base.RoundTrip(req);
      if feed != null {
        Feed(feed, reply);
      }
      LogTrip(before, logs, trips, naps, feed != null, trip, Now());
    }

    /** Closing the superseded response and the sleep before the next attempt (transport.go:209-222). */
    method Pause(verb: string, backoff: int, reply: Reply,
                 ghost before: Logs, ghost trips: seq<Trip>, ghost naps: seq<Nap>) returns (nap: Nap)
      requires Valid() && |trips| == |naps| + 1 && trips[|naps|].reply == reply && InCall(before, trips, naps)
      requires backoff == BackoffAt(o, |naps|) && !Stops(o, verb, |naps|, reply)
      modifies server`closed, clock`now, clock`naps
      ensures Valid() && InCall(before, trips, naps + [nap])
      ensures Goes(o, verb, |naps|, reply, nap)
    {
      var delay := backoff;
      var after := RetryAfter(reply);
      if after > delay {
        delay := after;
      }
      if delay > o.maxBackoff {
        delay := o.maxBackoff;
      }
      var ok := CloseAndSleep(delay, before, trips, naps);
      nap := Nap(delay, ok);
    }

    method CloseAndSleep(delay: int, ghost before: Logs, ghost trips: seq<Trip>, ghost naps: seq<Nap>) returns (ok: bool)
      requires Valid() && |trips| == |naps| + 1 && InCall(before, trips, naps)
      modifies server`closed, clock`now, clock`naps
      ensures Valid() && InCall(before, trips, naps + [Nap(delay, ok)])
    {
      ghost var logs := Now();
      server.DrainClose(|server.trips| - 1);
      ok := clock.Sleep(delay);
      LogNap(before, logs, trips, naps, feed != null, Nap(delay, ok), Now());
    }

    method Grow(backoff: int) returns (next: int)
      ensures next == Grown(o, backoff)
    {
      next := Wrap(backoff * 2);
      if next > o.maxBackoff {
        next := o.maxBackoff;
      }
    }

    /** Where the loop stands before an attempt: the attempts so far were all followed by their sleeps. */
    ghost predicate AtAttempt(before: Logs, verb: string, body: Body, attempt: nat, backoff: int, trips: seq<Trip>, naps: seq<Nap>)
      reads server, clock, feed
    {
      && o.enabled && attempt == |trips| == |naps| && attempt <= o.maxRetries && backoff == BackoffAt(o, attempt)
      && InCall(before, trips, naps)
      && AllSent(trips, verb, body) && Underway(o, verb, trips, naps)
    }

    /** Where the loop stands when the call is over. */
    ghost predicate AtEnd(before: Logs, verb: string, body: Body, trips: seq<Trip>, naps: seq<Nap>, out: Outcome)
      reads server, clock, feed
    {
      && |naps| <= |trips| && InCall(before, trips, naps)
      && AllSent(trips, verb, body) && Account(o, verb, trips, naps, out)
    }

    /** The attempt, with the buffered body put back (transport.go:199-203). */
    method Send(req: Request, held: Buffered, ghost body: Body, ghost before: Logs, ghost trips: seq<Trip>, ghost naps: seq<Nap>)
      returns (reply: Reply, ghost trip: Trip)
      requires Valid() && |naps| <= |trips| && InCall(before, trips, naps)
      requires if held.Held? then body == Replacer(held.bytes) else body == req.body == NoBody
      modifies base, server`trips, clock`now, clock`pauses, feed, req`body
      ensures Valid() && InCall(before, trips + [trip], naps)
      ensures trip.verb == req.verb && trip.body == body && trip.reply == reply
      ensures body.NoBody? ==> req.body == NoBody
    {
      if held.Held? {
        req.body := Replacer(held.bytes);
      }
      reply, trip := Next(req, before, trips, naps);
    }

    /** One turn of the loop (transport.go:198-228); None when it goes on. */
    method Attempt(req: Request, held: Buffered, ghost body: Body, attempt: nat, backoff: int,
                   ghost before: Logs, ghost trips: seq<Trip>, ghost naps: seq<Nap>)
      returns (end: Option<Outcome>, next: int, ghost trips': seq<Trip>, ghost naps': seq<Nap>)
      requires Valid() && AtAttempt(before, req.verb, body, attempt, backoff, trips, naps)
      requires if held.Held? then body == Replacer(held.bytes) else body == req.body == NoBody
      modifies base, server, clock, feed, req`body
      ensures Valid() && (body.NoBody? ==> req.body == NoBody)
      ensures if end.None? then AtAttempt(before, req.verb, body, attempt + 1, next, trips', naps')
              else AtEnd(before, req.verb, body, trips', naps', end.value)
    {
      ghost var trip;
      var reply;
      reply, trip := Send(req, held, body, before, trips, naps);
      trips', naps', next := trips + [trip], naps, backoff;
      if attempt >= o.maxRetries || !ShouldRetry(req.verb, reply) {
        Concluded(o, req.verb, trips, naps, trip);
        return Some(Returned(reply)), next, trips', naps';
      }
      var nap;
      nap, next := Again(req.verb, backoff, before, trips, naps, trip, reply);
      naps' := naps + [nap];
      end := if nap.ok then None else Some(SleepCancelled);
    }

    /** The rest of a turn after a reply that is to be superseded (transport.go:209-227). */
    method Again(verb: string, backoff: int, ghost before: Logs, ghost trips: seq<Trip>, ghost naps: seq<Nap>, ghost trip: Trip, reply: Reply)
      returns (nap: Nap, next: int)
      requires Valid() && |trips| == |naps| && trip.reply == reply && InCall(before, trips + [trip], naps)
      requires Underway(o, verb, trips, naps) && backoff == BackoffAt(o, |naps|) && !Stops(o, verb, |naps|, reply)
      modifies server`closed, clock`now, clock`naps
      ensures Valid() && InCall(before, trips + [trip], naps + [nap])
      ensures if nap.ok then Underway(o, verb, trips + [trip], naps + [nap]) && next == BackoffAt(o, |naps| + 1)
              else Account(o, verb, trips + [trip], naps + [nap], SleepCancelled)
    {
      nap := Pause(verb, backoff, reply, before, trips + [trip], naps);
      Interrupted(o, verb, trips, naps, trip, nap);
      next := Grow(backoff);
    }

    /**
      The loop of RoundTrip (transport.go:191-230) over a buffered body, or none.  `trips` and
      `naps` are the attempts and sleeps of this call and give a full account of it.
     */
    method Attempts(req: Request, held: Buffered, ghost body: Body)
      returns (out: Outcome, ghost trips: seq<Trip>, ghost naps: seq<Nap>)
      requires Valid() && o.enabled
      requires if held.Held? then body == Replacer(held.bytes) else body == req.body == NoBody
      modifies base, server, clock, feed, req`body
      ensures Valid() && AtEnd(old(Now()), req.verb, body, trips, naps, out)
    {
      ghost var before := Now();
      BeforeCall(before, feed != null);
      trips, naps := [], [];
      var backoff := o.initialBackoff;
      var attempt := 0;
      while true
        invariant Valid() && AtAttempt(before, req.verb, body, attempt, backoff, trips, naps)
        invariant body.NoBody? ==> req.body == NoBody
        decreases o.maxRetries - attempt
      {
        var end;
        end, backoff, trips, naps := Attempt(req, held, body, attempt, backoff, before, trips, naps);
        if end.Some? {
          return end.value, trips, naps;
        }
        attempt := attempt + 1;
      }
    }

    /** The passthrough of a disabled layer (transport.go:182-184). */
    method Off(req: Request) returns (reply: Reply, ghost trip: Trip)
      requires Valid()
      modifies base, server`trips, clock`now, clock`pauses, feed, req`body
      ensures Valid() && InCall(old(Now()), [trip], [])
      ensures trip.verb == req.verb && trip.body == old(req.body) && trip.reply == reply
    {
      BeforeCall(Now(), feed != null);
      reply, trip := Next(req, Now(), [], []);
      assert [] + [trip] == [trip];
    }

    /** The enabled layer: the body is buffered, then the loop runs. */
    method On(req: Request) returns (out: Outcome, ghost trips: seq<Trip>, ghost naps: seq<Nap>)
      requires Valid() && o.enabled
      modifies base, server, clock, feed, req`body
      ensures Valid() && |naps| <= |trips| && InCall(old(Now()), trips, naps)
      ensures AllSent(trips, req.verb, old(req.body))
      ensures if Bufferable(old(req.body)) then Account(o, req.verb, trips, naps, out)
              else trips == [] && naps == [] && out == BodyFailed
    {
      ghost var body := req.body;
      BeforeCall(Now(), feed != null);
      var held := ReadBody(req);
      if held.Unreadable? {
        return BodyFailed, [], [];
      }
      out, trips, naps := Attempts(req, held, body);
    }

    /**
      RoundTrip (transport.go:181-231): off, or the body cannot be read, or the loop.  Every
      attempt has the caller's body to send, although each may read from it what it likes.
     */
    method RoundTrip(req: Request) returns (out: Outcome, ghost trips: seq<Trip>, ghost naps: seq<Nap>)
      requires Valid()
      modifies base, server, clock, feed, req`body
      ensures Valid() && |naps| <= |trips| && InCall(old(Now()), trips, naps)
      ensures AllSent(trips, req.verb, old(req.body)) && ResentSafely(req.verb, trips)
      ensures o.enabled && (old(req.body).NoBody? || old(req.body).fate.Clean?) ==> Account(o, req.verb, trips, naps, out)
      ensures o.enabled && !(old(req.body).NoBody? || old(req.body).fate.Clean?) ==> trips == [] && naps == [] && out == BodyFailed
      ensures !o.enabled ==> |trips| == 1 && naps == [] && out == Returned(trips[0].reply)
    {
      if o.enabled {
        ghost var body := req.body;
        out, trips, naps := On(req);
        if Bufferable(body) {
          UnsafeResendOnlyAfter429(o, req.verb, trips, naps, out);
        }
      } else {
        ghost var trip;
        var reply;
        reply, trip := Off(req);
        out, trips, naps := Returned(reply), [trip], [];
      }
    }
  }
}
