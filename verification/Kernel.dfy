/**
  The transport stack as New composes it (client.go:60-89): gate over feed over retry for
  requests, and retry over feed for the gate's own probes, around one cache, one clock and one
  pacing layer in front of the server.
 */
module Kernel {
  import opened Common
  import opened RateLimit
  import opened Http
  import opened Pacing
  import opened Retry

  /** probeCooldown (probe.go:57). */
  const COOLDOWN: int := 30 * SECOND

  datatype GateOptions = GateOptions(enabled: bool, minRemaining: int, maxWait: int) {
    /** What New guarantees when the gate is on (options.go:157-172). */
    predicate Valid() {
      enabled ==> minRemaining > 0 && maxWait > 0
    }
  }

  function MaxTrips(o: Retry.Options): int {
    if o.enabled then o.maxRetries + 1 else 1
  }

  function MaxNap(o: Retry.Options): int {
    if o.enabled then o.maxRetries * o.maxBackoff else 0
  }

  // ----------------------------------------------------------------- probes

  ghost predicate Spaced(stamps: seq<int>) {
    forall i :: 0 < i < |stamps| ==> stamps[i] >= stamps[i - 1] + 30 * 1_000_000_000
  }

  lemma {:induction false} SpacedApart(stamps: seq<int>, i: nat, j: nat)
    requires Spaced(stamps) && i <= j < |stamps|
    ensures stamps[j] - stamps[i] >= (j - i) * (30 * 1_000_000_000)
    decreases j
  {
    if i < j {
      SpacedApart(stamps, i, j - 1);
    }
  }

  /** A span of length t contains at most t / 30s + 1 probes. */
  lemma ProbesPerSpan(stamps: seq<int>, i: nat, j: nat, t: nat)
    requires Spaced(stamps) && i <= j < |stamps| && stamps[j] - stamps[i] <= t
    ensures j - i + 1 <= t / (30 * 1_000_000_000) + 1
  {
    SpacedApart(stamps, i, j);
  }

  class RateProber {
    const retry: RetryTransport
    const cache: RateLimitCache
    const clock: Clock
    var lastAttempt: Option<int>
    ghost var stamps: seq<int>

    ghost predicate Valid()
      reads this, retry, retry.base, retry.server, retry.clock, retry.feed
    {
      && retry.feed == cache && retry.clock == clock && retry.Valid()
      && Spaced(stamps)
      && lastAttempt == (if stamps == [] then None else Some(stamps[|stamps| - 1]))
      && (lastAttempt.Some? ==> lastAttempt.value <= clock.now)
    }

    constructor (retry: RetryTransport, cache: RateLimitCache)
      requires retry.Valid() && retry.feed == cache
      ensures Valid() && this.retry == retry && this.cache == cache && clock == retry.clock && stamps == []
    {
      this.retry, this.cache, this.clock := retry, cache, retry.clock;
      lastAttempt, stamps := None, [];
    }

    /**
      The critical section (probe.go:84-99); `tick` passes between its two readings of the
      clock.  The section is atomic, so whatever else callers do in between, the instants at
      which it grants a probe are at least the cooldown apart.
     */
    method Claim(tick: nat) returns (granted: bool)
      requires Valid()
      modifies this, clock`now
      ensures Valid() && clock.now >= old(clock.now)
      ensures granted <==> Due(old(stamps), old(clock.now))
      ensures granted ==> stamps == old(stamps) + [clock.now]
      ensures !granted ==> stamps == old(stamps) && clock.now == old(clock.now)
    {
      if lastAttempt.Some? && clock.now - lastAttempt.value < COOLDOWN {
        return false;
      }
      clock.Pass(tick);
      lastAttempt := Some(clock.now);
      stamps := stamps + [clock.now];
      granted := true;
    }

    /**
      probe (probe.go:79-140); None stands for every error.  Only a granted caller reaches the
      network, with one GET through retry and feed; every other is answered from the cache at
      once.  The response that GET ended with is closed like all others.
     */
    method Probe(tick: nat) returns (r: Option<Snapshot>, ghost trips: seq<Trip>, ghost naps: seq<Nap>)
      requires Valid()
      modifies this, retry.base, retry.server, clock, cache
      ensures Valid() && clock.now >= old(clock.now)
      ensures retry.server.trips == old(retry.server.trips) + trips
      ensures clock.naps == old(clock.naps) + naps && clock.pauses == old(clock.pauses) + Pauses(trips)
      ensures |trips| <= MaxTrips(retry.o) && TotalNap(naps) <= MaxNap(retry.o)
      ensures AllSent(trips, "GET", NoBody) && cache.ops == old(cache.ops) + Fed(trips)
      ensures if Due(old(stamps), old(clock.now))
              then trips != [] && |stamps| == |old(stamps)| + 1 && stamps[..|old(stamps)|] == old(stamps)
              else trips == [] && naps == [] && stamps == old(stamps)
      ensures trips == [] ==> cache.ops == old(cache.ops) && clock.now == old(clock.now)
      ensures r == if trips == [] || Answered(trips) then View(cache.ops) else None
      ensures trips != [] ==> exists out :: Told(retry.o, "GET", NoBody, trips, naps, out)
      ensures Answered(trips) ==> LastClosed()
    {
      NoNap(retry.o);
      var granted := Claim(tick);
      if !granted {
        var cached, known := cache.Get();
        return if known then Some(cached) else None, [], [];
      }
      ghost var out;
      r, out, trips, naps := Query();
    }

    /** The latest response has been drained and closed. */
    ghost predicate LastClosed()
      reads retry.server
    {
      retry.server.closed != [] && retry.server.closed[|retry.server.closed| - 1] == |retry.server.trips| - 1
    }

    /** The probe request through retry and feed (probe.go:108-119). */
    method Send() returns (out: Outcome, ghost trips: seq<Trip>, ghost naps: seq<Nap>)
      requires Valid()
      modifies retry.base, retry.server, clock, cache
      ensures Valid() && clock.now >= old(clock.now)
      ensures retry.server.trips == old(retry.server.trips) + trips
      ensures clock.naps == old(clock.naps) + naps && clock.pauses == old(clock.pauses) + Pauses(trips)
      ensures |naps| <= |trips| && 1 <= |trips| <= MaxTrips(retry.o) && TotalNap(naps) <= MaxNap(retry.o)
      ensures AllSent(trips, "GET", NoBody) && cache.ops == old(cache.ops) + Fed(trips)
      ensures Told(retry.o, "GET", NoBody, trips, naps, out)
    {
      var probe := new Request("GET", NoBody, true);
      out, trips, naps := retry.RoundTrip(probe);
      Bounds(retry.o, "GET", trips, naps, out);
    }

    /** The network part of probe (probe.go:108-139). */
    method Query() returns (r: Option<Snapshot>, out: Outcome, ghost trips: seq<Trip>, ghost naps: seq<Nap>)
      requires Valid()
      modifies retry.base, retry.server, clock, cache
      ensures Valid() && clock.now >= old(clock.now)
      ensures retry.server.trips == old(retry.server.trips) + trips
      ensures clock.naps == old(clock.naps) + naps && clock.pauses == old(clock.pauses) + Pauses(trips)
      ensures 1 <= |trips| <= MaxTrips(retry.o) && TotalNap(naps) <= MaxNap(retry.o)
      ensures AllSent(trips, "GET", NoBody) && cache.ops == old(cache.ops) + Fed(trips)
      ensures Told(retry.o, "GET", NoBody, trips, naps, out)
      ensures r == if Answered(trips) then View(cache.ops) else None
      ensures out.Returned? && out.reply.Answer? ==> LastClosed()
      ensures Answered(trips) ==> LastClosed()
    {
      out, trips, naps := Send();
      ReturnsLast(retry.o, "GET", NoBody, trips, naps, out);
      r := None;
      if out.Returned? && out.reply.Answer? {
        r := Learn(out.reply.resp.status);
      }
    }

    /** A response of this status came back: what the cache knows, and the deferred drainClose (probe.go:124-139). */
    method Learn(status: int) returns (r: Option<Snapshot>)
      requires Valid() && retry.server.trips != []
      modifies retry.server`closed
      ensures Valid() && r == if status < 400 then View(cache.ops) else None
      ensures retry.server.trips[|retry.server.trips| - 1].reply.Answer? ==> LastClosed()
    {
      if status >= 400 {
        r := None;
      } else {
        var snapshot, ok := cache.Get();
        r := if ok then Some(snapshot) else None;
      }
      retry.server.DrainClose(|retry.server.trips| - 1);
    }
  }

  /** No probe has been granted in the last 30 seconds. */
  predicate Due(stamps: seq<int>, now: int) {
    stamps == [] || now - stamps[|stamps| - 1] >= 30 * 1_000_000_000
  }

  /** The last of these attempts was answered with a status below 400. */
  predicate Answered(trips: seq<Trip>) {
    trips != [] && trips[|trips| - 1].reply.Answer? && trips[|trips| - 1].reply.resp.status < 400
  }

  /** A call of the retry layer with a readable body is bounded whether the layer is on or off. */
  lemma Bounds(o: Retry.Options, verb: string, trips: seq<Trip>, naps: seq<Nap>, out: Outcome)
    requires o.Valid()
    requires o.enabled ==> Account(o, verb, trips, naps, out)
    requires !o.enabled ==> |trips| == 1 && naps == [] && out == Returned(trips[0].reply)
    ensures out.Returned? ==> trips[|trips| - 1].reply == out.reply
    ensures 1 <= |trips| <= MaxTrips(o) && TotalNap(naps) <= MaxNap(o)
  {
    if o.enabled {
      CallBounds(o, verb, trips, naps, out);
    }
  }

  // ------------------------------------------------------------------- gate

  datatype Verdict = Go | ResetTooFar(wait: int) | WaitCancelled

  datatype Result = Forwarded(out: Outcome) | RateLimited(wait: int) | Cancelled

  class Kernel {
    const gate: GateOptions
    const server: Server
    const clock: Clock
    const base: PacingTransport
    const cache: RateLimitCache
    const prober: RateProber
    const retry: RetryTransport

    ghost predicate Valid()
      reads this, server, clock, base, cache, prober, retry
      reads retry.server, retry.feed, prober.retry, prober.retry.base, prober.retry.server, prober.retry.clock, prober.retry.feed
    {
      && gate.Valid() && cache.Valid() && base.server == server && base.clock == clock
      && retry.base == base && retry.feed == null && retry.Valid()
      && prober.cache == cache && prober.retry.base == base && prober.retry.o == retry.o && prober.Valid()
    }

    /** New: both stacks share the pacing layer, the server, the clock, the cache and the retry options. */
    constructor (gate: GateOptions, o: Retry.Options, interval: int, server: Server, clock: Clock)
      requires gate.Valid() && o.Valid() && server.Valid() && server.trips == []
      ensures Valid() && this.gate == gate && this.server == server && this.clock == clock
      ensures retry.o == o && base.interval == interval && cache.ops == [] && prober.stamps == []
      ensures fresh(base) && fresh(cache) && fresh(prober)
    {
      var c := new RateLimitCache();
      var b := new PacingTransport(interval, server, clock);
      var probeStack := new RetryTransport(o, b, c);
      var p := new RateProber(probeStack, c);
      var main := new RetryTransport(o, b, null);
      this.gate, this.server, this.clock, this.base, this.cache, this.prober, this.retry := gate, server, clock, b, c, p, main;
    }

    /** What a known budget calls for (transport.go:129-147). */
    method Judge(snapshot: Snapshot) returns (v: Verdict, ghost waits: seq<Nap>)
      requires Valid()
      modifies clock`now, clock`naps
      ensures Valid() && clock.now >= old(clock.now) && clock.naps == old(clock.naps) + waits
      ensures Judged(gate, Some(snapshot), old(clock.now), v, waits)
      ensures v == Go && waits != [] ==> clock.now >= snapshot.resetAt
    {
      waits := [];
      if snapshot.remaining > gate.minRemaining {
        return Go, waits;
      }
      var wait := snapshot.resetAt - clock.now;
      if wait <= 0 {
        return Go, waits;
      }
      if wait > gate.maxWait {
        return ResetTooFar(wait), waits;
      }
      var ok := clock.Sleep(wait);
      waits := [Nap(wait, ok)];
      v := if ok then Go else WaitCancelled;
    }

    /**
      awaitBudget (transport.go:116-148).  `seen` is the budget it judges by: the cached one or,
      if there is none, what a probe teaches; `asked` is when it compares the reset with the
      clock, and `waits` the gate's own sleep, if any.
     */
    method AwaitBudget(tick: nat)
      returns (v: Verdict, ghost seen: Option<Snapshot>, ghost asked: int,
               ghost trips: seq<Trip>, ghost naps: seq<Nap>, ghost waits: seq<Nap>)
      requires Valid() && gate.enabled
      modifies prober, base, server, clock, cache
      ensures Valid() && old(clock.now) <= asked <= clock.now
      ensures server.trips == old(server.trips) + trips && clock.naps == old(clock.naps) + naps + waits
      ensures clock.pauses == old(clock.pauses) + Pauses(trips)
      ensures |trips| <= MaxTrips(retry.o) && TotalNap(naps) <= MaxNap(retry.o)
      ensures AllSent(trips, "GET", NoBody) && cache.ops == old(cache.ops) + Fed(trips)
      // the budget: probed for if and only if it is unknown and a probe is due
      ensures trips != [] <==> View(old(cache.ops)).None? && Due(old(prober.stamps), old(clock.now))
      ensures |prober.stamps| == |old(prober.stamps)| + if trips != [] then 1 else 0
      ensures trips == [] ==> naps == [] && asked == old(clock.now) && seen == View(old(cache.ops))
      ensures trips != [] ==> seen == if Answered(trips) then View(old(cache.ops) + Fed(trips)) else None
      // the decision
      ensures Judged(gate, seen, asked, v, waits)
      ensures v == Go && waits != [] ==> clock.now >= seen.value.resetAt
    {
      var snapshot, known := cache.Get();
      trips, naps, waits := [], [], [];
      if !known {
        var probed;
        probed, trips, naps := prober.Probe(tick);
        if probed.None? {
          return Go, None, clock.now, trips, naps, waits;
        }
        snapshot := probed.value;
      } else {
        NoNap(retry.o);
      }
      seen, asked := Some(snapshot), clock.now;
      v, waits := Judge(snapshot);
    }

    /** The gate in front of a request (transport.go:99-111): off, a probe, or the budget and its decrement. */
    method Admit(req: Request, tick: nat)
      returns (v: Verdict, ghost seen: Option<Snapshot>, ghost asked: int,
               ghost trips: seq<Trip>, ghost naps: seq<Nap>, ghost waits: seq<Nap>)
      requires Valid()
      modifies prober, base, server, clock, cache
      ensures Valid() && old(clock.now) <= asked <= clock.now
      ensures server.trips == old(server.trips) + trips && clock.naps == old(clock.naps) + naps + waits
      ensures clock.pauses == old(clock.pauses) + Pauses(trips)
      ensures |trips| <= MaxTrips(retry.o) && AllSent(trips, "GET", NoBody) && TotalNap(naps) <= MaxNap(retry.o)
      ensures !Gated(req) ==> v == Go && trips == [] && naps == [] && waits == [] && prober.stamps == old(prober.stamps)
      ensures Gated(req) ==> (trips != [] <==> View(old(cache.ops)).None? && Due(old(prober.stamps), old(clock.now)))
      ensures |prober.stamps| == |old(prober.stamps)| + if trips != [] then 1 else 0
      ensures Gated(req) && trips == [] ==> naps == [] && asked == old(clock.now) && seen == View(old(cache.ops))
      ensures Gated(req) && trips != [] ==> seen == if Answered(trips) then View(old(cache.ops) + Fed(trips)) else None
      ensures Gated(req) ==> Judged(gate, seen, asked, v, waits)
      ensures Gated(req) && v == Go ==> Allowed(gate, seen, clock.now)
      ensures cache.ops == old(cache.ops) + Fed(trips) + if Gated(req) && v == Go then [Spent(1)] else []
    {
      seen, asked, trips, naps, waits := None, clock.now, [], [], [];
      if !gate.enabled || req.isProbe {
        NoNap(retry.o);
        return Go, seen, asked, trips, naps, waits;
      }
      v, seen, asked, trips, naps, waits := AwaitBudget(tick);
      if v == Go {
        cache.Decrement(1);
      }
    }

    predicate Gated(req: Request) {
      gate.enabled && !req.isProbe
    }

    /** The retry layer of the main stack, which feeds nothing. */
    method Retried(req: Request) returns (out: Outcome, ghost trips: seq<Trip>, ghost naps: seq<Nap>)
      requires Valid()
      modifies base, server, clock, req`body
      ensures Valid() && clock.now >= old(clock.now)
      ensures server.trips == old(server.trips) + trips
      ensures clock.naps == old(clock.naps) + naps && clock.pauses == old(clock.pauses) + Pauses(trips)
      ensures |trips| <= MaxTrips(retry.o) && TotalNap(naps) <= MaxNap(retry.o)
      ensures AllSent(trips, req.verb, old(req.body)) && AllAfter(trips, old(clock.now))
      ensures Told(retry.o, req.verb, old(req.body), trips, naps, out)
    {
      ghost var body := req.body;
      out, trips, naps := retry.RoundTrip(req);
      if !retry.o.enabled || Bufferable(body) {
        Bounds(retry.o, req.verb, trips, naps, out);
      } else {
        NoNap(retry.o);
      }
    }

    /** feedTransport over retryTransport (transport.go:57-66): only the final response reaches the cache. */
    method FeedRoundTrip(req: Request) returns (out: Outcome, ghost trips: seq<Trip>, ghost naps: seq<Nap>)
      requires Valid()
      modifies base, server, clock, cache, req`body
      ensures Valid() && clock.now >= old(clock.now)
      ensures server.trips == old(server.trips) + trips
      ensures clock.naps == old(clock.naps) + naps && clock.pauses == old(clock.pauses) + Pauses(trips)
      ensures |trips| <= MaxTrips(retry.o) && TotalNap(naps) <= MaxNap(retry.o)
      ensures AllSent(trips, req.verb, old(req.body)) && AllAfter(trips, old(clock.now))
      ensures Told(retry.o, req.verb, old(req.body), trips, naps, out)
      ensures cache.ops == old(cache.ops) + FedBy(out)
    {
      out, trips, naps := Retried(req);
      if out.Returned? {
        Feed(cache, out.reply);
      }
    }

    /**
      One request through the whole stack (transport.go:99-148).  `probes` and `mains` are the
      attempts of the gate's probe and of the request itself; `naps`, `waits` and `rests` are
      the sleeps between probe attempts, of the gate, and between the request's attempts.
      That every one of these attempts has its own slot of the pacing schedule is base.Valid().
     */
    method Do(req: Request, tick: nat)
      returns (r: Result, ghost seen: Option<Snapshot>, ghost asked: int, ghost probes: seq<Trip>, ghost mains: seq<Trip>,
               ghost naps: seq<Nap>, ghost waits: seq<Nap>, ghost rests: seq<Nap>)
      requires Valid()
      modifies prober, base, server, clock, cache, req`body
      ensures Valid() && old(clock.now) <= asked <= clock.now
      // what was attempted, and how long it slept and waited
      ensures server.trips == old(server.trips) + probes + mains && base.Valid()
      ensures |probes| <= MaxTrips(retry.o) && |mains| <= MaxTrips(retry.o)
      ensures AllSent(probes, "GET", NoBody) && AllSent(mains, req.verb, old(req.body))
      ensures clock.naps == old(clock.naps) + naps + waits + rests
      ensures clock.pauses == old(clock.pauses) + Pauses(probes) + Pauses(mains)
      ensures TotalNap(naps + waits + rests) <= 2 * MaxNap(retry.o) + if gate.enabled && !req.isProbe then gate.maxWait else 0
      ensures forall i :: 0 <= i < |server.trips| && server.trips[i].start.None? ==>
                server.trips[i].reply.Fault? && server.trips[i].pause.Some? && !server.trips[i].pause.value.ok
      // without a gate, and for a probe, it is forwarded as it is
      ensures !gate.enabled || req.isProbe ==>
                r.Forwarded? && probes == [] && naps == [] && waits == [] && prober.stamps == old(prober.stamps)
      // the budget it is judged by: the cached one, or what a probe brings if one is due
      ensures gate.enabled && !req.isProbe ==>
                (probes != [] <==> View(old(cache.ops)).None? && Due(old(prober.stamps), old(clock.now)))
      ensures |prober.stamps| == |old(prober.stamps)| + if probes != [] then 1 else 0
      ensures gate.enabled && !req.isProbe && probes == [] ==>
                naps == [] && asked == old(clock.now) && seen == View(old(cache.ops))
      ensures gate.enabled && !req.isProbe && probes != [] ==>
                var last := probes[|probes| - 1].reply;
                seen == if last.Answer? && last.resp.status < 400 then View(old(cache.ops) + Fed(probes)) else None
      // when it is forwarded: at once above the floor, after the reset, or without a budget to go by ...
      ensures gate.enabled && !req.isProbe &&
              (seen.None? || seen.value.remaining > gate.minRemaining || seen.value.resetAt <= asked) ==>
                r.Forwarded? && waits == []
      // ... and otherwise after a wait for the reset, if that is near enough
      ensures gate.enabled && !req.isProbe && seen.Some? && seen.value.remaining <= gate.minRemaining && seen.value.resetAt > asked ==>
                var wait := seen.value.resetAt - asked;
                if wait > gate.maxWait then r == RateLimited(wait) && waits == []
                else |waits| == 1 && waits[0].d == wait && if waits[0].ok then r.Forwarded? else r == Cancelled
      ensures gate.enabled && !req.isProbe ==>
                forall i :: 0 <= i < |mains| ==>
                  seen.None? || seen.value.remaining > gate.minRemaining || seen.value.resetAt <= mains[i].at
      // what became of it
      ensures AllAfter(mains, asked)
      ensures if r.Forwarded? then Told(retry.o, req.verb, old(req.body), mains, rests, r.out) else mains == [] && rests == []
      // what the cache has learned
      ensures cache.ops == old(cache.ops) + Fed(probes)
                           + (if gate.enabled && !req.isProbe && r.Forwarded? then [Spent(1)] else [])
                           + (if r.Forwarded? then FedBy(r.out) else [])
      ensures r.Forwarded? && Teaches(r.out) ==>
                var h := r.out.reply.resp.headers;
                View(cache.ops) == Some(Snapshot(h.limit.value, h.remaining.value,
                                                 if h.reset.Some? then h.reset.value * 1_000_000_000 else ZERO_TIME))
    {
      var v;
      v, r, seen, asked, probes, mains, naps, waits, rests := Pass(req, tick);
      if gate.enabled && !req.isProbe {
        DecisionIs(gate, seen, asked, v, r, waits);
      }
    }

    /** The gate, and what is behind it if the gate lets the request go. */
    method Pass(req: Request, tick: nat)
      returns (v: Verdict, r: Result, ghost seen: Option<Snapshot>, ghost asked: int, ghost probes: seq<Trip>,
               ghost mains: seq<Trip>, ghost naps: seq<Nap>, ghost waits: seq<Nap>, ghost rests: seq<Nap>)
      requires Valid()
      modifies prober, base, server, clock, cache, req`body
      ensures Valid() && old(clock.now) <= asked <= clock.now
      ensures server.trips == old(server.trips) + probes + mains
      ensures |probes| <= MaxTrips(retry.o) && |mains| <= MaxTrips(retry.o)
      ensures AllSent(probes, "GET", NoBody) && AllSent(mains, req.verb, old(req.body)) && AllAfter(mains, asked)
      ensures clock.naps == old(clock.naps) + naps + waits + rests
      ensures clock.pauses == old(clock.pauses) + Pauses(probes) + Pauses(mains)
      ensures TotalNap(naps + waits + rests) <= 2 * MaxNap(retry.o) + if Gated(req) then gate.maxWait else 0
      ensures forall i :: 0 <= i < |server.trips| && server.trips[i].start.None? ==>
                server.trips[i].reply.Fault? && server.trips[i].pause.Some? && !server.trips[i].pause.value.ok
      ensures !Gated(req) ==> v == Go && probes == [] && naps == [] && waits == [] && prober.stamps == old(prober.stamps)
      ensures Gated(req) ==> (probes != [] <==> View(old(cache.ops)).None? && Due(old(prober.stamps), old(clock.now)))
      ensures |prober.stamps| == |old(prober.stamps)| + if probes != [] then 1 else 0
      ensures Gated(req) && probes == [] ==> naps == [] && asked == old(clock.now) && seen == View(old(cache.ops))
      ensures Gated(req) && probes != [] ==> seen == if Answered(probes) then View(old(cache.ops) + Fed(probes)) else None
      ensures Gated(req) ==> Judged(gate, seen, asked, v, waits)
      ensures Gated(req) ==> forall i :: 0 <= i < |mains| ==> Allowed(gate, seen, mains[i].at)
      ensures ResultOf(v, r)
      ensures if r.Forwarded? then Told(retry.o, req.verb, old(req.body), mains, rests, r.out) else mains == [] && rests == []
      ensures cache.ops == old(cache.ops) + Fed(probes) + (if Gated(req) && v == Go then [Spent(1)] else [])
                           + (if r.Forwarded? then FedBy(r.out) else [])
      ensures r.Forwarded? && Teaches(r.out) ==> View(cache.ops) == ParseHeaders(r.out.reply.resp.headers)
    {
      v, seen, asked, probes, naps, waits := Admit(req, tick);
      mains, rests := [], [];
      NoNap(retry.o);
      match v {
        case ResetTooFar(wait) =>
          r := RateLimited(wait);
        case WaitCancelled =>
          r := Cancelled;
        case Go =>
          ghost var spent := cache.ops;
          var out;
          out, mains, rests := FeedRoundTrip(req);
          r := Forwarded(out);
          LastWord(spent, out);
      }
      SleptInAll(req, v, seen, asked, naps, waits, rests);
      base.Unsent();
    }

    lemma SleptInAll(req: Request, v: Verdict, seen: Option<Snapshot>, asked: int,
                     naps: seq<Nap>, waits: seq<Nap>, rests: seq<Nap>)
      requires gate.Valid() && retry.o.Valid()
      requires if Gated(req) then Judged(gate, seen, asked, v, waits) else naps == [] && waits == []
      requires TotalNap(naps) <= MaxNap(retry.o) && TotalNap(rests) <= MaxNap(retry.o)
      ensures TotalNap(naps + waits + rests) <= 2 * MaxNap(retry.o) + if Gated(req) then gate.maxWait else 0
    {
      NoNap(retry.o);
      if Gated(req) {
        WholeSleep(gate, retry.o, seen, asked, v, naps, waits, rests);
      } else {
        assert naps + waits + rests == rests;
      }
    }
  }

  /**
    The gate's decision for the budget it saw, None if none could be had, and the time at
    which it compared the reset with the clock: a request passes at once above the floor,
    after the reset or without a budget; waits until the reset when that is near enough; and
    is rejected otherwise.
   */
  ghost predicate Judged(gate: GateOptions, seen: Option<Snapshot>, asked: int, v: Verdict, waits: seq<Nap>) {
    if seen.None? || seen.value.remaining > gate.minRemaining || asked >= seen.value.resetAt then
      v == Go && waits == []
    else
      var wait := seen.value.resetAt - asked;
      if wait > gate.maxWait then v == ResetTooFar(wait) && waits == []
      else |waits| == 1 && waits[0].d == wait && v == if waits[0].ok then Go else WaitCancelled
  }

  /** A gated request sleeps at most MaxWait and two retry schedules in all. */
  lemma WholeSleep(gate: GateOptions, o: Retry.Options, seen: Option<Snapshot>, asked: int, v: Verdict,
                   naps: seq<Nap>, waits: seq<Nap>, rests: seq<Nap>)
    requires gate.Valid() && gate.enabled && o.Valid() && Judged(gate, seen, asked, v, waits)
    requires TotalNap(naps) <= MaxNap(o) && TotalNap(rests) <= MaxNap(o)
    ensures TotalNap(naps + waits + rests) <= gate.maxWait + 2 * MaxNap(o)
  {
    TotalNapConcat(naps + waits, rests);
    TotalNapConcat(naps, waits);
    if waits != [] {
      assert waits[..|waits| - 1] == [];
    }
  }

  /** The reasons to let a request go: above the floor, after the reset it saw, or without a budget to go by. */
  predicate Allowed(gate: GateOptions, seen: Option<Snapshot>, start: int) {
    seen.None? || seen.value.remaining > gate.minRemaining || start >= seen.value.resetAt
  }

  /** What the decision makes of the call. */
  ghost predicate ResultOf(v: Verdict, r: Result) {
    match v
    case Go => r.Forwarded?
    case ResetTooFar(wait) => r == RateLimited(wait)
    case WaitCancelled => r == Cancelled
  }

  /** The decision, verdict by verdict. */
  lemma DecisionIs(gate: GateOptions, seen: Option<Snapshot>, asked: int, v: Verdict, r: Result, waits: seq<Nap>)
    requires Judged(gate, seen, asked, v, waits) && ResultOf(v, r)
    ensures seen.None? || seen.value.remaining > gate.minRemaining || seen.value.resetAt <= asked ==>
              r.Forwarded? && waits == []
    ensures seen.Some? && seen.value.remaining <= gate.minRemaining && seen.value.resetAt > asked ==>
              var wait := seen.value.resetAt - asked;
              if wait > gate.maxWait then r == RateLimited(wait) && waits == []
              else |waits| == 1 && waits[0].d == wait && if waits[0].ok then r.Forwarded? else r == Cancelled
  {
  }

  lemma NoNap(o: Retry.Options)
    requires o.Valid()
    ensures 0 <= MaxNap(o) && 1 <= MaxTrips(o)
  {
  }

  /** The attempts, sleeps and outcome of a call of the retry layer tell the same story. */
  ghost predicate Told(o: Retry.Options, verb: string, body: Body, trips: seq<Trip>, naps: seq<Nap>, out: Outcome) {
    if !o.enabled then |trips| == 1 && naps == [] && out == Returned(trips[0].reply)
    else if Bufferable(body) then Account(o, verb, trips, naps, out)
    else trips == [] && naps == [] && out == BodyFailed
  }

  /** The outcome is a response that carries a budget: a nonzero limit and a remaining count. */
  predicate Teaches(out: Outcome) {
    && out.Returned? && out.reply.Answer?
    && var h := out.reply.resp.headers; h.limit.Some? && h.limit.value != 0 && h.remaining.Some?
  }

  /** The budget of the last informative response among the attempts. */
  function Taught(trips: seq<Trip>): Option<Snapshot> {
    if trips == [] then None
    else
      var reply := trips[|trips| - 1].reply;
      if Teaches(Returned(reply)) then ParseHeaders(reply.resp.headers) else Taught(trips[..|trips| - 1])
  }

  lemma FeedOne(ops: seq<Op>, reply: Reply)
    ensures View(ops + FeedOf(reply)) ==
            if Teaches(Returned(reply)) then ParseHeaders(reply.resp.headers) else View(ops)
  {
    if FeedOf(reply) == [] {
      assert ops + FeedOf(reply) == ops;
    } else {
      ViewStep(ops, FeedOf(reply)[0]);
    }
  }

  lemma {:induction false} TaughtIff(trips: seq<Trip>)
    ensures Taught(trips).Some? <==> exists i :: 0 <= i < |trips| && Teaches(Returned(trips[i].reply))
  {
    if trips != [] {
      var n := |trips| - 1;
      TaughtIff(trips[..n]);
      assert forall i :: 0 <= i < n ==> trips[..n][i] == trips[i];
    }
  }

  lemma {:induction false} FedTeaches(ops: seq<Op>, trips: seq<Trip>)
    ensures View(ops + Fed(trips)) == if Taught(trips).Some? then Taught(trips) else View(ops)
  {
    if trips == [] {
      assert ops + Fed(trips) == ops;
    } else {
      var n := |trips| - 1;
      FedTeaches(ops, trips[..n]);
      FeedOne(ops + Fed(trips[..n]), trips[n].reply);
      assert ops + Fed(trips) == (ops + Fed(trips[..n])) + FeedOf(trips[n].reply);
    }
  }

  /** What the main stack feeds the cache in a call: its response, if it returns one. */
  function FedBy(out: Outcome): seq<Op> {
    if out.Returned? then FeedOf(out.reply) else []
  }

  /** A cache with this past ends up as if every attempt of the call had been fed to it. */
  ghost predicate FinalSuffices(ops: seq<Op>, trips: seq<Trip>, out: Outcome) {
    View(ops + Fed(trips)) == View(ops + FedBy(out))
  }

  predicate FinalTeachesOrNone(trips: seq<Trip>, out: Outcome) {
    Teaches(out) || forall i :: 0 <= i < |trips| ==> !Teaches(Returned(trips[i].reply))
  }

  /** The response returned is that of the last attempt, and a response below 400 is returned. */
  lemma ReturnsLast(o: Retry.Options, verb: string, body: Body, trips: seq<Trip>, naps: seq<Nap>, out: Outcome)
    requires Told(o, verb, body, trips, naps, out)
    ensures out.Returned? ==> trips != [] && out.reply == trips[|trips| - 1].reply
    ensures Answered(trips) ==> out.Returned?
  {
    if o.enabled && 0 < |naps| == |trips| {
      assert Goes(o, verb, |naps| - 1, trips[|naps| - 1].reply, naps[|naps| - 1]);
    }
  }

  lemma FinalSufficesWhen(ops: seq<Op>, o: Retry.Options, verb: string, body: Body, trips: seq<Trip>, naps: seq<Nap>, out: Outcome)
    requires Told(o, verb, body, trips, naps, out)
    ensures FinalTeachesOrNone(trips, out) ==> FinalSuffices(ops, trips, out)
    ensures FinalSuffices([], trips, out) ==> FinalTeachesOrNone(trips, out)
  {
    TaughtIff(trips);
    FedTeaches(ops, trips);
    FedTeaches([], trips);
    if out.Returned? {
      ReturnsLast(o, verb, body, trips, naps, out);
      FeedOne(ops, out.reply);
      FeedOne([], out.reply);
    } else {
      assert ops + FedBy(out) == ops;
    }
  }

  /**
    "Every attempt, not just the final one, refreshes the budget" (transport.go:44-47): in the
    main stack only a returned response does, and for the cache that comes to the same exactly
    when the call returns an informative response, or no attempt brought one.
   */
  lemma FeedClaimExact(o: Retry.Options, verb: string, body: Body, trips: seq<Trip>, naps: seq<Nap>, out: Outcome)
    requires Told(o, verb, body, trips, naps, out)
    ensures (forall ops :: FinalSuffices(ops, trips, out)) <==> FinalTeachesOrNone(trips, out)
  {
    forall ops
      ensures FinalTeachesOrNone(trips, out) ==> FinalSuffices(ops, trips, out)
    {
      FinalSufficesWhen(ops, o, verb, body, trips, naps, out);
    }
    FinalSufficesWhen([], o, verb, body, trips, naps, out);
  }

  /**
    The case the comment names, a 429 with an exhausted budget: if the caller cancels during
    the sleep after it, the gate never learns of it, for every cache that did not know already.
   */
  lemma CancelledRefusalIsLost(o: Retry.Options, verb: string, at: int, limit: nat, reset: nat, ops: seq<Op>)
    returns (trip: Trip, nap: Nap)
    requires o.Valid() && o.enabled && limit > 0 && View(ops) != Some(Snapshot(limit, 0, reset * SECOND))
    ensures trip.reply == Answer(Response(429, None, Headers(Some(limit), Some(0), Some(reset))))
    ensures Account(o, verb, [trip], [nap], SleepCancelled)
    ensures !FinalSuffices(ops, [trip], SleepCancelled) && !FinalTeachesOrNone([trip], SleepCancelled)
  {
    trip := Trip(at, verb, NoBody, Answer(Response(429, None, Headers(Some(limit), Some(0), Some(reset)))), Some(at), None);
    nap := Nap(Delay(o, 0, trip.reply), false);
    assert [trip][..0] == [];
    FeedOne(ops, trip.reply);
    assert Fed([trip]) == FeedOf(trip.reply);
    assert ops + FedBy(SleepCancelled) == ops;
    assert Teaches(Returned([trip][0].reply));
  }

  lemma LastWord(ops: seq<Op>, out: Outcome)
    ensures Teaches(out) ==> View(ops + FeedOf(out.reply)) == ParseHeaders(out.reply.resp.headers)
  {
  }
}
