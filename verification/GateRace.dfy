/**
  The gate's check-then-act race on the shared budget (transport.go:99-131): a request reads
  the cache, and only later spends one of what it saw.  Between two authoritative updates and
  before the reset, the requests let through unwaited are bounded by how many can stand
  between their read and their decrement at once.
 */
module GateRace {
  import opened Common
  import opened RateLimit

  /** `Look` is one request's Get, `Spend` the Decrement(1) of one request that was let through. */
  datatype Event = Look | Spend

  /** What the requests have done so far, latest last. */
  datatype Trace = Start | Then(prev: Trace, event: Event)

  /** The cached Remaining, the requests let through unwaited, and those of them yet to spend. */
  datatype Race = Race(remaining: int, passed: nat, inFlight: nat)

  function Step(minRemaining: int, r: Race, e: Event): Race {
    match e
    case Look =>
      if r.remaining > minRemaining then r.(passed := r.passed + 1, inFlight := r.inFlight + 1) else r
    case Spend =>
      if r.inFlight > 0 then r.(remaining := Max(0, r.remaining - 1), inFlight := r.inFlight - 1) else r
  }

  function After(minRemaining: int, start: int, trace: Trace): Race {
    match trace
    case Start => Race(start, 0, 0)
    case Then(prev, e) => Step(minRemaining, After(minRemaining, start, prev), e)
  }

  /** Never more than n requests stand between their Get and their Decrement. */
  predicate AtMost(n: nat, minRemaining: int, start: int, trace: Trace) {
    After(minRemaining, start, trace).inFlight <= n
    && (trace.Then? ==> AtMost(n, minRemaining, start, trace.prev))
  }

  /** Every request that has spent is accounted for in the cached budget. */
  lemma {:induction false} Accounts(n: nat, minRemaining: nat, start: nat, trace: Trace)
    requires AtMost(n, minRemaining, start, trace)
    ensures var r := After(minRemaining, start, trace);
            && r.inFlight <= r.passed
            && r.remaining == Max(0, start - (r.passed - r.inFlight))
            && (start <= minRemaining ==> r.passed == 0)
            && (start > minRemaining ==> r.passed <= start - minRemaining + n - 1 || (n == 0 && r.passed == 0))
  {
    if trace.Then? {
      Accounts(n, minRemaining, start, trace.prev);
    }
  }

  /** The cached Remaining of the race is the cache's own arithmetic: Decrement(1) per spender. */
  lemma SpendIsDecrement(s: Snapshot, ops: seq<Op>)
    requires View(ops) == Some(s) && s.remaining >= 0
    ensures View(ops + [Spent(1)]) == Some(s.(remaining := Max(0, s.remaining - 1)))
  {
  }

  /** k requests look and spend one after the other. */
  function OneAtATime(k: nat): Trace {
    if k == 0 then Start else Then(Then(OneAtATime(k - 1), Look), Spend)
  }

  /** k more requests look before any of them spends. */
  function Burst(trace: Trace, k: nat): Trace {
    if k == 0 then trace else Then(Burst(trace, k - 1), Look)
  }

  lemma {:induction false} OneAtATimePasses(n: nat, minRemaining: nat, start: nat, k: nat)
    requires n >= 1 && k < start - minRemaining
    ensures AtMost(n, minRemaining, start, OneAtATime(k))
    ensures After(minRemaining, start, OneAtATime(k)) == Race(start - k, k, 0)
  {
    if k > 0 {
      OneAtATimePasses(n, minRemaining, start, k - 1);
      assert AtMost(n, minRemaining, start, Then(OneAtATime(k - 1), Look));
    }
  }

  lemma {:induction false} BurstPasses(n: nat, minRemaining: nat, start: nat, trace: Trace, k: nat)
    requires k <= n && AtMost(n, minRemaining, start, trace)
    requires var r := After(minRemaining, start, trace); r.inFlight == 0 && r.remaining > minRemaining
    ensures AtMost(n, minRemaining, start, Burst(trace, k))
    ensures var r := After(minRemaining, start, trace);
            After(minRemaining, start, Burst(trace, k)) == Race(r.remaining, r.passed + k, k)
  {
    if k > 0 {
      BurstPasses(n, minRemaining, start, trace, k - 1);
    }
  }

  /**
    With R > MinRemaining requests left and at most n requests in flight, exactly the counts up
    to R - MinRemaining + n - 1 can pass the gate unwaited; for n = 1 that is R - MinRemaining.
   */
  lemma UnwaitedExact(n: nat, minRemaining: nat, start: nat, k: nat)
    requires n >= 1 && start > minRemaining
    ensures (exists trace :: AtMost(n, minRemaining, start, trace) && After(minRemaining, start, trace).passed == k)
            <==> k <= start - minRemaining + n - 1
  {
    if k <= start - minRemaining + n - 1 {
      var first := Min(k, start - minRemaining - 1);
      OneAtATimePasses(n, minRemaining, start, first);
      BurstPasses(n, minRemaining, start, OneAtATime(first), k - first);
      assert After(minRemaining, start, Burst(OneAtATime(first), k - first)).passed == k;
    }
    forall trace | AtMost(n, minRemaining, start, trace)
      ensures After(minRemaining, start, trace).passed <= start - minRemaining + n - 1
    {
      Accounts(n, minRemaining, start, trace);
    }
  }

  /** At or below the floor nothing passes unwaited. */
  lemma NothingBelowFloor(n: nat, minRemaining: nat, start: nat, trace: Trace)
    requires AtMost(n, minRemaining, start, trace) && start <= minRemaining
    ensures After(minRemaining, start, trace).passed == 0
  {
    Accounts(n, minRemaining, start, trace);
  }
}
