/** The shared budget cache (ratelimit.go). */
module RateLimit {
  import opened Common

  /** Instants and durations are nanoseconds; an instant counts from the Unix epoch. */
  const SECOND: int := 1_000_000_000

  /** time.Time{}, the ResetAt of a response without a reset header. */
  const ZERO_TIME: int := -62_135_596_800 * SECOND

  datatype Snapshot = Snapshot(limit: int, remaining: int, resetAt: int)

  /** The three X-RateLimit headers, each absent or malformed (None) or a nonnegative integer. */
  datatype Headers = Headers(limit: Option<nat>, remaining: Option<nat>, reset: Option<nat>)

  /** ParseRateLimitHeaders (ratelimit.go:35-50). */
  function ParseHeaders(h: Headers): Option<Snapshot> {
    if h.limit.None? || h.remaining.None? then None
    else Some(Snapshot(h.limit.value, h.remaining.value,
                       if h.reset.Some? then h.reset.value * SECOND else ZERO_TIME))
  }

  datatype Op = Updated(snapshot: Snapshot) | Spent(n: int)

  /** The last authoritative snapshot; those with a zero Limit do not count. */
  function Last(ops: seq<Op>): Option<Snapshot> {
    if ops == [] then None
    else
      var op := ops[|ops| - 1];
      if op.Updated? && op.snapshot.limit != 0 then Some(op.snapshot) else Last(ops[..|ops| - 1])
  }

  /** The sum of the positive decrements since then. */
  function SpentSince(ops: seq<Op>): nat {
    if ops == [] then 0
    else
      var op := ops[|ops| - 1];
      if op.Updated? && op.snapshot.limit != 0 then 0
      else SpentSince(ops[..|ops| - 1]) + if op.Spent? then Max(0, op.n) else 0
  }

  /** The budget the cache stands for: the last snapshot less all that was spent, once, clamped at zero. */
  function View(ops: seq<Op>): Option<Snapshot> {
    match Last(ops)
    case None => None
    case Some(s) =>
      var spent := SpentSince(ops);
      Some(if spent == 0 then s else s.(remaining := Max(0, s.remaining - spent)))
  }

  lemma ViewStep(ops: seq<Op>, op: Op)
    ensures Last(ops + [op]) ==
            if op.Updated? && op.snapshot.limit != 0 then Some(op.snapshot) else Last(ops)
    ensures SpentSince(ops + [op]) ==
            if op.Updated? && op.snapshot.limit != 0 then 0
            else SpentSince(ops) + if op.Spent? then Max(0, op.n) else 0
  {
  }

  class RateLimitCache {
    var snapshot: Snapshot
    var known: bool
    ghost var ops: seq<Op>

    /** The two fields hold exactly the view of everything done to the cache. */
    ghost predicate Valid()
      reads this
    {
      View(ops) == if known then Some(snapshot) else None
    }

    constructor ()
      ensures Valid() && ops == []
    {
      snapshot, known := Snapshot(0, 0, ZERO_TIME), false;
      ops := [];
    }

    method Update(s: Snapshot)
      requires Valid()
      modifies this
      ensures Valid() && ops == old(ops) + [Updated(s)]
    {
      ViewStep(ops, Updated(s));
      ops := ops + [Updated(s)];
      if s.limit == 0 {
        return;
      }
      snapshot := s;
      known := true;
    }

    method Decrement(n: int)
      requires Valid()
      modifies this
      ensures Valid() && ops == old(ops) + [Spent(n)]
    {
      ViewStep(ops, Spent(n));
      ops := ops + [Spent(n)];
      if n <= 0 {
        return;
      }
      if known {
        snapshot := snapshot.(remaining := snapshot.remaining - n);
        if snapshot.remaining < 0 {
          snapshot := snapshot.(remaining := 0);
        }
      }
    }

    method Get() returns (s: Snapshot, ok: bool)
      requires Valid()
      ensures View(ops) == if ok then Some(s) else None
    {
      s, ok := snapshot, known;
    }
  }

  /** The cache is known exactly when an informative update has happened. */
  lemma {:induction false} KnownIff(ops: seq<Op>)
    ensures View(ops).Some? <==> exists i :: 0 <= i < |ops| && ops[i].Updated? && ops[i].snapshot.limit != 0
  {
    if ops != [] {
      var n := |ops| - 1;
      KnownIff(ops[..n]);
      if i :| 0 <= i < |ops| && ops[i].Updated? && ops[i].snapshot.limit != 0 {
        assert i == n || ops[..n][i] == ops[i];
      }
    }
  }

  /** Between two updates the budget only shrinks, and never below zero. */
  lemma {:induction false} OnlyShrinks(ops: seq<Op>, spends: seq<Op>)
    requires forall i :: 0 <= i < |spends| ==> spends[i].Spent?
    ensures View(ops).Some? <==> View(ops + spends).Some?
    ensures View(ops).Some? ==>
              var s, t := View(ops).value, View(ops + spends).value;
              && t.limit == s.limit && t.resetAt == s.resetAt
              && (s.remaining >= 0 ==> 0 <= t.remaining <= s.remaining)
  {
    if spends == [] {
      assert ops + spends == ops;
    } else {
      var n := |spends| - 1;
      OnlyShrinks(ops, spends[..n]);
      assert ops + spends == (ops + spends[..n]) + [spends[n]];
      ViewStep(ops + spends[..n], spends[n]);
    }
  }
}
