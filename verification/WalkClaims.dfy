/** Promises of the comments in pagination.go that are not kept, and exactly when they are. */
module WalkClaims {
  import opened Common
  import opened WalkModel
  import opened WalkSafety
  import opened WalkOutcome
  import opened WalkRefinement
  import opened WalkSchedules
  import opened WalkOneByOne

  /** Nothing fails, nobody cancels, and the server serves a listing with short pages at its end only. */
  ghost predicate Ordinary<T(!new)>(cfg: Config, run: Run<T>) {
    IsRun(cfg, run) && Healthy(run) && exists book :: Paged(cfg, book) && ServesRun(book, run)
  }

  lemma OrdinaryAsGot<T(!new)>(cfg: Config, run: Run<T>, book: seq<seq<T>>)
    requires cfg.Valid() && IsRun(cfg, run) && Healthy(run) && Paged(cfg, book) && Truthful(book, Final(cfg, run))
    ensures Ordinary(cfg, run)
  {
    ServedAsGot(cfg, book, run);
  }

  // ------------------------------------ what waits in pending

  /** Pages recorded and not yet delivered. */
  function Waiting<T>(s: State<T>): set<int> {
    set p | 2 <= p < |s.v.ready| && s.v.ready[p] && p > s.v.delivered
  }

  /** Nothing can be delivered before page 2 is, and pages k, k+1, ... have yet to be dispatched. */
  ghost predicate Stalled<T>(cfg: Config, s: State<T>, k: nat) {
    && Sized(cfg, s)
    && s.pcs[0] == Main(Test) && s.page == k && 3 <= k <= cfg.maxPages + 1
    && s.v.short == 0 && s.lock.None? && s.slots < cfg.concurrency
    && s.v.delivered == 1 && 2 <= cfg.maxPages && (s.v.aborted || !s.v.ready[2])
    && forall p :: 3 <= p < k ==> s.v.ready[p] && s.pcs[p].Gone?
  }

  /** What other pages' workers leave as it was. */
  ghost predicate Undisturbed<T>(s: State<T>, t: State<T>) {
    && 2 < |s.pcs| == |t.pcs| == |s.v.ready| == |t.v.ready|
    && t.pcs[2] == s.pcs[2] && t.v.ready[2] == s.v.ready[2] && t.slots == s.slots
    && t.v.aborted == s.v.aborted && t.v.firstErr == s.v.firstErr
    && t.h.byCaller == s.h.byCaller && t.h.out == s.h.out
  }

  /** Pages k..last run to completion one after the other, and all of them stay in pending. */
  lemma {:induction false} PileUp<T>(cfg: Config, run: Run<T>, k: nat, last: nat, book: seq<seq<T>>) returns (r: Run<T>)
    requires IsRun(cfg, run) && Stalled(cfg, Final(cfg, run), k) && k - 1 <= last <= cfg.maxPages
    requires forall p :: k <= p <= last ==> Full(cfg, book, p)
    ensures IsRun(cfg, r) && Stalled(cfg, Final(cfg, r), last + 1) && (Healthy(run) ==> Healthy(r))
    ensures Undisturbed(Final(cfg, run), Final(cfg, r))
    ensures Truthful(book, Final(cfg, run)) ==> Truthful(book, Final(cfg, r))
    decreases last + 1 - k
  {
    if k > last {
      r := run;
    } else {
      assert Full(cfg, book, k);
      r := OneMore(cfg, run, k, book[k]);
      assert Truthful(book, Final(cfg, run)) ==> Truthful(book, Final(cfg, r));
      r := PileUp(cfg, r, k + 1, last, book);
    }
  }

  lemma OneMore<T>(cfg: Config, run: Run<T>, k: nat, items: seq<T>) returns (r: Run<T>)
    requires IsRun(cfg, run) && Stalled(cfg, Final(cfg, run), k) && |items| >= cfg.perPage && k <= cfg.maxPages
    ensures IsRun(cfg, r) && Stalled(cfg, Final(cfg, r), k + 1) && (Healthy(run) ==> Healthy(r))
    ensures Undisturbed(Final(cfg, run), Final(cfg, r))
    ensures Final(cfg, r).h.got == Final(cfg, run).h.got[k := items]
  {
    r := Spawn(cfg, run);
    r := BeginFetch(cfg, r, k);
    r := Land(cfg, r, k, items);
    r := DrainInVain(cfg, r, k);
  }

  lemma AllWait<T>(cfg: Config, s: State<T>)
    requires Stalled(cfg, s, cfg.maxPages + 1) && s.v.ready[2]
    ensures |Waiting(s)| == cfg.maxPages - 1
  {
    assert Waiting(s) == Range(2, cfg.maxPages + 1);
  }

  /** A listing of full pages only. */
  function AllFull<T>(cfg: Config, full: seq<T>): seq<seq<T>> {
    seq(cfg.maxPages + 1, _ => full)
  }

  /** Page 2 is spawned and its fetch begun. */
  lemma PageTwoInFlight<T>(cfg: Config, full: seq<T>) returns (r: Run<T>)
    requires cfg.Valid() && cfg.maxPages >= 2 && |full| >= cfg.perPage
    ensures IsRun(cfg, r) && Healthy(r) && Sized(cfg, Final(cfg, r))
    ensures var s := Final(cfg, r);
            && s.pcs[0] == Main(Test) && s.pcs[2] == Work(InFetch) && s.page == 3 && s.slots == 1
            && s.v.short == 0 && s.lock.None? && s.v.delivered == 1 && !s.v.ready[2] && !s.v.aborted
            && s.v.firstErr.None? && !s.h.byCaller && s.h.out == [full]
            && s.h.calls == [1] && s.h.fetches == [1, 2] && s.h.got == map[1 := full]
  {
    r := Begin(cfg, full);
    r := Spawn(cfg, r);
    r := BeginFetch(cfg, r, 2);
  }

  /** One slow page lets the rest of the listing pile up although nothing has gone wrong. */
  lemma SlowPageFillsPending<T(!new)>(cfg: Config, full: seq<T>) returns (r: Run<T>)
    requires cfg.Valid() && cfg.maxPages >= 2 && cfg.concurrency >= 2 && |full| >= cfg.perPage
    ensures Ordinary(cfg, r) && |Waiting(Final(cfg, r))| == cfg.maxPages - 1
  {
    var book := AllFull(cfg, full);
    r := PageTwoInFlight(cfg, full);
    r := PileUp(cfg, r, 3, cfg.maxPages, book);
    r := Land(cfg, r, 2, full);
    assert Waiting(Final(cfg, r)) == Range(2, cfg.maxPages + 1);
    OrdinaryAsGot(cfg, r, book);
  }

  /** Even a sequential walk keeps recording pages after onPage has failed for page 2. */
  lemma FailedPageFillsPending<T>(cfg: Config, full: seq<T>) returns (r: Run<T>)
    requires cfg.Valid() && cfg.maxPages >= 2 && |full| >= cfg.perPage
    ensures IsRun(cfg, r) && |Waiting(Final(cfg, r))| == cfg.maxPages - 1
  {
    r := PageTwoInFlight(cfg, full);
    r := Land(cfg, r, 2, full);
    r := CallbackFails(cfg, r, full);
    r := LeaveDrain(cfg, r, 2);
    r := PileUp(cfg, r, 3, cfg.maxPages, AllFull(cfg, full));
    AllWait(cfg, Final(cfg, r));
  }

  lemma CallbackFails<T>(cfg: Config, run: Run<T>, items: seq<T>) returns (r: Run<T>)
    requires IsRun(cfg, run) && Sized(cfg, Final(cfg, run)) && cfg.maxPages >= 2
    requires var s := Final(cfg, run);
             && s.pcs[2] == Lock && s.lock.None? && s.v.delivered == 1 && s.v.ready[2] && !s.v.aborted
    ensures IsRun(cfg, r)
    ensures var s, t := Final(cfg, run), Final(cfg, r);
            && t.pcs == s.pcs[2 := Drain(Unlock)] && t.page == s.page && t.slots == s.slots
            && t.v.aborted && t.v.ready == s.v.ready && t.v.pending == s.v.pending
            && t.v.delivered == 1 && t.v.short == s.v.short
  {
    var s := Final(cfg, run);
    var r1 := Then(run, Act(2));
    assert Final(cfg, r1) == s.(pcs := s.pcs[2 := Drain(Check)], lock := Some(2));
    var r2 := BeginCall(cfg, r1, 2);
    var r3 := Then(r2, CallReturns(2, Some(Other(0))));
    assert Final(cfg, r3) == Goto(Final(cfg, r2), 2, Drain(Fail(SetErr(CallbackFailed(2, Other(0))))));
    r := FailInDrain(cfg, r3, 2);
  }

  /** The three actions of `fail`, called by the owner of deliverMu. */
  lemma FailInDrain<T>(cfg: Config, run: Run<T>, a: nat) returns (r: Run<T>)
    requires IsRun(cfg, run) && Sized(cfg, Final(cfg, run)) && a < |Final(cfg, run).pcs|
    requires var s := Final(cfg, run); s.pcs[a].Drain? && s.pcs[a].d.Fail? && s.pcs[a].d.f.SetErr?
    ensures IsRun(cfg, r)
    ensures var s, t := Final(cfg, run), Final(cfg, r);
            && t.pcs == s.pcs[a := Drain(Unlock)] && t.page == s.page && t.slots == s.slots
            && t.v.aborted && t.v.ready == s.v.ready && t.v.pending == s.v.pending
            && t.v.delivered == s.v.delivered && t.v.short == s.v.short
  {
    var s := Final(cfg, run);
    var r1 := Then(run, Act(a));
    assert Final(cfg, r1).pcs == s.pcs[a := Drain(Fail(SetAborted))];
    var r2 := Then(r1, Act(a));
    assert Final(cfg, r2).pcs == s.pcs[a := Drain(Fail(Cancel))];
    r := Then(r2, Act(a));
    assert Final(cfg, r).pcs == s.pcs[a := Drain(Unlock)];
  }

  /** No run has more than the pages after page 1 waiting. */
  lemma WaitingBound<T>(cfg: Config, run: Run<T>)
    requires cfg.Valid() && IsRun(cfg, run)
    ensures |Waiting(Final(cfg, run))| <= cfg.maxPages - 1
  {
    Reachable(cfg, run);
    SubsetSize(Waiting(Final(cfg, run)), Range(2, cfg.maxPages + 1));
  }

  /** With one slot and no failure, no more than one page waits. */
  lemma OneByOneWaits<T>(cfg: Config, run: Run<T>)
    requires cfg.Valid() && IsRun(cfg, run) && cfg.concurrency == 1 && FailureFree(run)
    ensures |Waiting(Final(cfg, run))| <= 1
  {
    var w := Waiting(Final(cfg, run));
    Reachable(cfg, run);
    if p :| p in w {
      forall q | q in w
        ensures q == p
      {
        OneWaits(cfg, run, p, q);
      }
      SubsetSize(w, {p});
    }
  }

  /** At most `bound` pages wait in pending, in every run of a kind. */
  ghost predicate PendingWithin<T(!new)>(cfg: Config, bound: nat, ordinary: bool) {
    forall run: Run<T> :: IsRun(cfg, run) && (ordinary ==> Ordinary(cfg, run)) ==> |Waiting(Final(cfg, run))| <= bound
  }

  /** A bound on pending that holds of every run, or of every ordinary one: exactly which. */
  lemma PendingWithinIff<T(!new)>(cfg: Config, bound: nat, full: seq<T>)
    requires cfg.Valid() && |full| >= cfg.perPage && bound >= 1
    ensures PendingWithin<T>(cfg, bound, false) <==> cfg.maxPages - 1 <= bound
    ensures PendingWithin<T>(cfg, bound, true) <==> cfg.concurrency == 1 || cfg.maxPages - 1 <= bound
  {
    if cfg.maxPages - 1 > bound {
      var run := FailedPageFillsPending(cfg, full);
      assert IsRun(cfg, run) && |Waiting(Final(cfg, run))| > bound;
      if cfg.concurrency >= 2 {
        var slow := SlowPageFillsPending(cfg, full);
        assert IsRun(cfg, slow) && Ordinary(cfg, slow) && |Waiting(Final(cfg, slow))| > bound;
      }
    }
    forall run: Run<T> | IsRun(cfg, run)
      ensures |Waiting(Final(cfg, run))| <= cfg.maxPages - 1
      ensures cfg.concurrency == 1 && Ordinary(cfg, run) ==> |Waiting(Final(cfg, run))| <= 1
    {
      WaitingBound(cfg, run);
      if cfg.concurrency == 1 && Ordinary(cfg, run) {
        HealthyIsFailureFree(run);
        OneByOneWaits(cfg, run);
      }
    }
  }

  /**
    "At most Concurrency of them, never the whole collection" (pagination.go:176-179) holds of
    every run exactly when the walk after page 1 fits into Concurrency pages, and of every
    ordinary run exactly when it does or there is one slot.
   */
  lemma PendingClaimExact<T(!new)>(cfg: Config, full: seq<T>)
    requires cfg.Valid() && |full| >= cfg.perPage
    ensures PendingWithin<T>(cfg, cfg.concurrency, false) <==> cfg.maxPages - 1 <= cfg.concurrency
    ensures PendingWithin<T>(cfg, cfg.concurrency, true) <==>
              cfg.concurrency == 1 || cfg.maxPages - 1 <= cfg.concurrency
  {
    PendingWithinIff(cfg, cfg.concurrency, full);
  }

  /**
    "Plus one page awaiting delivery" (pagination.go:82-84) holds of every run exactly when there
    are no more than two pages, and of every ordinary run exactly when there are not or there is
    one slot.
   */
  lemma OneAwaitingClaimExact<T(!new)>(cfg: Config, full: seq<T>)
    requires cfg.Valid() && |full| >= cfg.perPage
    ensures PendingWithin<T>(cfg, 1, false) <==> cfg.maxPages <= 2
    ensures PendingWithin<T>(cfg, 1, true) <==> cfg.concurrency == 1 || cfg.maxPages <= 2
  {
    PendingWithinIff(cfg, 1, full);
  }

  // ------------------------------ beyond a short page

  /** No onPage for a page beyond one that came back short (pagination.go:90-92). */
  ghost predicate NoneBeyondShort<T>(cfg: Config, s: State<T>) {
    forall q, p :: q in s.h.got && |s.h.got[q]| < cfg.perPage && p in s.h.calls ==> p <= q
  }

  /** No fetch of such a page either. */
  ghost predicate NoFetchBeyondShort<T>(cfg: Config, s: State<T>) {
    forall q, p :: q in s.h.got && |s.h.got[q]| < cfg.perPage && p in s.h.fetches ==> p <= q
  }

  /** A listing of one full page. */
  function OneFull<T>(cfg: Config, full: seq<T>): seq<seq<T>> {
    seq(cfg.maxPages + 1, i => if i == 1 then full else [])
  }

  /** Pages 2 and 3 are in flight together, and both come back empty. */
  lemma BothLand<T>(cfg: Config, full: seq<T>) returns (r: Run<T>)
    requires cfg.Valid() && cfg.maxPages >= 3 && cfg.concurrency >= 2 && |full| >= cfg.perPage
    ensures IsRun(cfg, r) && Healthy(r) && Sized(cfg, Final(cfg, r))
    ensures var s := Final(cfg, r);
            && s.pcs[2] == Lock && s.lock.None? && s.v.delivered == 1 && !s.v.aborted
            && s.v.ready[2] && s.v.pending[2] == [] && s.v.ready[3]
            && s.h.got == map[1 := full, 2 := [], 3 := []] && s.h.calls == [1] && s.h.fetches == [1, 2, 3]
  {
    r := PageTwoInFlight(cfg, full);
    r := Spawn(cfg, r);
    r := BeginFetch(cfg, r, 3);
    r := Land(cfg, r, 2, []);
    assert Final(cfg, r).pcs[3] == Work(InFetch);
    r := Land(cfg, r, 3, []);
  }

  /** Page 3 is fetched, and delivered after page 2 has come back short. */
  lemma BeyondShortWitness<T(!new)>(cfg: Config, full: seq<T>) returns (r: Run<T>)
    requires cfg.Valid() && cfg.maxPages >= 3 && cfg.concurrency >= 2 && |full| >= cfg.perPage
    ensures Ordinary(cfg, r) && !NoneBeyondShort(cfg, Final(cfg, r)) && !NoFetchBeyondShort(cfg, Final(cfg, r))
  {
    r := BothLand(cfg, full);
    r := DeliverTwo(cfg, r, []);
    r := BeginCall(cfg, r, 2);
    var s := Final(cfg, r);
    assert s.h.calls == [1, 2, 3] && s.h.fetches == [1, 2, 3];
    assert 2 in s.h.got && |s.h.got[2]| < cfg.perPage && 3 in s.h.calls && 3 in s.h.fetches;
    OrdinaryAsGot(cfg, r, OneFull(cfg, full));
  }

  lemma DeliverTwo<T>(cfg: Config, run: Run<T>, items: seq<T>) returns (r: Run<T>)
    requires IsRun(cfg, run) && Sized(cfg, Final(cfg, run)) && cfg.maxPages >= 3
    requires var s := Final(cfg, run);
             && s.pcs[2] == Lock && s.lock.None? && s.v.delivered == 1 && !s.v.aborted
             && s.v.ready[2] && s.v.pending[2] == items
    ensures IsRun(cfg, r) && (Healthy(run) ==> Healthy(r)) && Sized(cfg, Final(cfg, r))
    ensures var s, t := Final(cfg, run), Final(cfg, r);
            && t.pcs[2] == Drain(Check) && !t.v.aborted && t.v.delivered == 2 && t.v.ready == s.v.ready
            && t.h.got == s.h.got && t.h.calls == s.h.calls + [2] && t.h.fetches == s.h.fetches
  {
    var r1 := Then(run, Act(2));
    assert Final(cfg, r1).pcs[2] == Drain(Check);
    r := BeginCall(cfg, r1, 2);
    r := EndCall(cfg, r, 2, items);
  }

  /** The two halves of the promise, for every run of a kind. */
  ghost predicate NeverCalledBeyond<T(!new)>(cfg: Config, ordinary: bool) {
    forall run: Run<T> :: IsRun(cfg, run) && (ordinary ==> Ordinary(cfg, run)) ==> NoneBeyondShort(cfg, Final(cfg, run))
  }

  ghost predicate NeverFetchedBeyond<T(!new)>(cfg: Config, ordinary: bool) {
    forall run: Run<T> :: IsRun(cfg, run) && (ordinary ==> Ordinary(cfg, run)) ==> NoFetchBeyondShort(cfg, Final(cfg, run))
  }

  /**
    "Pages beyond it are never fetched, and onPage is never called for them" (pagination.go:90-92):
    each half is true of all runs, and of all ordinary runs, exactly when no two of the pages
    after page 1 can be in flight.
   */
  lemma ShortPageClaimExact<T(!new)>(cfg: Config, ordinary: bool, full: seq<T>)
    requires cfg.Valid() && |full| >= cfg.perPage
    ensures NeverCalledBeyond<T>(cfg, ordinary) <==> cfg.concurrency == 1 || cfg.maxPages <= 2
    ensures NeverFetchedBeyond<T>(cfg, ordinary) <==> cfg.concurrency == 1 || cfg.maxPages <= 2
  {
    if cfg.concurrency == 1 || cfg.maxPages <= 2 {
      forall run: Run<T> | IsRun(cfg, run)
        ensures NoneBeyondShort(cfg, Final(cfg, run)) && NoFetchBeyondShort(cfg, Final(cfg, run))
      {
        NoneBeyondHolds(cfg, run);
      }
    } else {
      var run := BeyondShortWitness(cfg, full);
      assert IsRun(cfg, run) && Ordinary(cfg, run) && !NoneBeyondShort(cfg, Final(cfg, run)) && !NoFetchBeyondShort(cfg, Final(cfg, run));
    }
  }

  lemma NoneBeyondHolds<T>(cfg: Config, run: Run<T>)
    requires cfg.Valid() && IsRun(cfg, run) && (cfg.concurrency == 1 || cfg.maxPages <= 2)
    ensures NoneBeyondShort(cfg, Final(cfg, run)) && NoFetchBeyondShort(cfg, Final(cfg, run))
  {
    var s := Final(cfg, run);
    Reachable(cfg, run);
    FirstShortHolds(cfg, run);
    if cfg.concurrency == 1 {
      OneByOneHolds(cfg, run);
    }
    forall q, p | q in s.h.got && |s.h.got[q]| < cfg.perPage && (p in s.h.fetches || p in s.h.calls)
      ensures p <= q
    {
      NotBeyond(cfg, s, q, p);
    }
  }

  lemma NotBeyond<T>(cfg: Config, s: State<T>, q: nat, p: nat)
    requires Safe(cfg, s) && FirstShort(cfg, s)
    requires cfg.concurrency == 1 ==> OneByOne(cfg, s)
    requires cfg.concurrency == 1 || cfg.maxPages <= 2
    requires q in s.h.got && |s.h.got[q]| < cfg.perPage && (p in s.h.fetches || p in s.h.calls)
    ensures p <= q
  {
    assert p in s.h.calls ==> p in s.h.got;
    if 2 <= p {
      assert PageOk(s, p);
      assert cfg.concurrency == 1 ==> Clear(cfg, s, p);
    }
  }
}
