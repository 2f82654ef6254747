/** The world the transport stack runs in: a scripted server and a clock that never goes back. */
module Http {
  import opened Common
  import opened RateLimit

  type Bytes = seq<bv8>

  /** How reading a body to its end and closing it turns out. */
  datatype Fate = Clean | ReadFails | CloseFails

  /** A request body: none, or a reader that gives each byte once. */
  datatype Body = NoBody | Stream(unread: Bytes, fate: Fate)

  /** What is left of a body after n bytes of it have been read. */
  function Consumed(body: Body, n: nat): Body {
    match body
    case NoBody => NoBody
    case Stream(unread, fate) => Stream(unread[Min(n, |unread|)..], fate)
  }

  /** An http.Request; `isProbe`: the URL path ends in /rate_limit (probe.go:144-146). */
  class Request {
    const verb: string
    const isProbe: bool
    var body: Body

    constructor (verb: string, body: Body, isProbe: bool)
      ensures this.verb == verb && this.body == body && this.isProbe == isProbe
    {
      this.verb, this.body, this.isProbe := verb, body, isProbe;
    }
  }

  /** `retryAfter` is the header when it is a nonnegative decimal integer. */
  datatype Response = Response(status: int, retryAfter: Option<nat>, headers: Headers)

  /** A round trip gives a response or a transport error, never both (http.RoundTripper). */
  datatype Reply = Answer(resp: Response) | Fault

  /** A sleep: how long, and whether it was slept to its end. */
  datatype Nap = Nap(d: int, ok: bool)

  /**
    One attempt: when it was made, the body it had to send, what came back, when it went out,
    None if it did not, and its wait in the pacing layer, if there was one.
   */
  datatype Trip = Trip(at: int, verb: string, body: Body, reply: Reply, start: Option<int>, pause: Option<Nap>)

  class Clock {
    var now: int
    var naps: seq<Nap>           // the sleeps of the retry layer and the gate
    var pauses: seq<Nap>         // the waits of the pacing layer
    const cancels: nat -> bool   // whether the context ends during the i-th sleep or wait
    const lag: nat -> nat        // how much longer than asked the i-th sleep or wait takes

    constructor (now: int, cancels: nat -> bool, lag: nat -> nat)
      ensures this.now == now && naps == pauses == [] && this.cancels == cancels && this.lag == lag
    {
      this.now, this.naps, this.pauses, this.cancels, this.lag := now, [], [], cancels, lag;
    }

    /** wallClock.sleep: d has passed when it succeeds. */
    method Rest(d: int) returns (ok: bool)
      modifies this`now
      ensures ok == !cancels(|naps| + |pauses|)
      ensures now >= old(now) && (ok ==> now >= old(now) + d)
    {
      var i := |naps| + |pauses|;
      ok := !cancels(i);
      now := now + lag(i) + if ok then Max(0, d) else 0;
    }

    method Sleep(d: int) returns (ok: bool)
      modifies this`now, this`naps
      ensures naps == old(naps) + [Nap(d, ok)]
      ensures now >= old(now) && (ok ==> now >= old(now) + d)
    {
      ok := Rest(d);
      naps := naps + [Nap(d, ok)];
    }

    method Pause(d: int) returns (ok: bool)
      modifies this`now, this`pauses
      ensures pauses == old(pauses) + [Nap(d, ok)]
      ensures now >= old(now) && (ok ==> now >= old(now) + d)
    {
      ok := Rest(d);
      pauses := pauses + [Nap(d, ok)];
    }

    method Pass(d: nat)
      modifies this`now
      ensures now == old(now) + d
    {
      now := now + d;
    }
  }

  class Server {
    const script: nat -> Reply
    const latency: nat -> nat
    const takes: nat -> nat   // how much of the body the i-th attempt reads
    var trips: seq<Trip>
    var closed: seq<nat>      // trips whose response body has been drained and closed, in order

    ghost predicate Valid()
      reads this`trips
    {
      forall i :: 0 <= i < |trips| ==> trips[i].reply == if trips[i].start.Some? then script(i) else Fault
    }

    constructor (script: nat -> Reply, latency: nat -> nat, takes: nat -> nat)
      ensures Valid() && this.script == script && this.latency == latency && trips == [] && closed == []
    {
      this.script, this.latency, this.takes, this.trips, this.closed := script, latency, takes, [], [];
    }

    /** The request of an attempt made at `at` goes out; sending it reads from its body. */
    method RoundTrip(req: Request, at: int, pause: Option<Nap>, clock: Clock) returns (reply: Reply, ghost trip: Trip)
      requires Valid()
      modifies this`trips, clock`now, req`body
      ensures Valid() && trips == old(trips) + [trip]
      ensures trip == Trip(at, req.verb, old(req.body), reply, Some(old(clock.now)), pause)
      ensures clock.now >= old(clock.now)
      ensures req.body == Consumed(old(req.body), takes(|old(trips)|))
    {
      var i := |trips|;
      reply := script(i);
      trip := Trip(at, req.verb, req.body, reply, Some(clock.now), pause);
      trips := trips + [Trip(at, req.verb, req.body, reply, Some(clock.now), pause)];
      req.body := Consumed(req.body, takes(i));
      clock.Pass(latency(i));
    }

    /** An attempt that fails before it goes out. */
    method Withhold(req: Request, at: int, pause: Option<Nap>) returns (ghost trip: Trip)
      requires Valid()
      modifies this`trips
      ensures Valid() && trips == old(trips) + [trip]
      ensures trip == Trip(at, req.verb, req.body, Fault, None, pause)
    {
      trip := Trip(at, req.verb, req.body, Fault, None, pause);
      trips := trips + [Trip(at, req.verb, req.body, Fault, None, pause)];
    }

    /** drainClose of the response of trip i (transport.go:312-319). */
    method DrainClose(i: nat)
      requires i < |trips|
      modifies this`closed
      ensures closed == old(closed) + if trips[i].reply.Answer? then [i] else []
    {
      if trips[i].reply.Answer? {
        closed := closed + [i];
      }
    }
  }
}
