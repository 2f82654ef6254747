/**
  A fetch that reports context.Canceled of its own accord, for a page before one that has come
  back short, is taken for the designed early exit (pagination.go:222-226): its page is lost
  and the walk may return nil.  When can that happen?
 */
module WalkEarlyCancel {
  import opened Common
  import opened WalkModel
  import opened WalkSafety
  import opened WalkOutcome
  import opened WalkRefinement
  import opened WalkSchedules
  import opened WalkCollection
  import opened WalkOvershoot
  import opened WalkOneByOne
  import opened WalkClaims

  // ------------------------------------------------ where the marker comes from

  /** The marker is a page that has been fetched and is short. */
  ghost predicate ShortKnown<T>(cfg: Config, s: State<T>) {
    && (s.v.short != 0 ==> s.v.short in s.h.got && |s.h.got[s.v.short]| < cfg.perPage)
    && forall p :: 2 <= p < |s.pcs| && s.pcs[p].Work? && s.pcs[p].w.Mark? ==> |s.pcs[p].w.items| < cfg.perPage
  }

  lemma KnownWork<T>(cfg: Config, s: State<T>, a: nat, w: WorkPc<T>)
    requires Safe(cfg, s) && ShortKnown(cfg, s) && Enabled(cfg, s, Act(a)) && s.pcs[a] == Work(w)
    ensures ShortKnown(cfg, WorkStep(s, a, w))
  {
    WorkGrows(s, a, w);
    WorkMarks(s, a, w);
    assert PageOk(s, a);
    match w
    case Load => case Skip(_) => case Fetch => case Failed(_) => case Abort(_) => case Mark(_) =>
    case Count(_) => case Record(_) => case Release =>
  }

  lemma KnownFetch<T>(cfg: Config, s: State<T>, ev: Event<T>)
    requires Safe(cfg, s) && ShortKnown(cfg, s) && Enabled(cfg, s, ev) && ev.FetchReturns?
    ensures ShortKnown(cfg, Step(cfg, s, ev))
  {
    NewPage(cfg, s, ev);
    ReturnGrows(cfg, s, ev);
  }

  lemma KnownStep<T>(cfg: Config, s: State<T>, ev: Event<T>)
    requires Safe(cfg, s) && ShortKnown(cfg, s) && Enabled(cfg, s, ev)
    ensures ShortKnown(cfg, Step(cfg, s, ev))
  {
    match ev
    case Act(a) =>
      match s.pcs[a] {
        case Work(w) => KnownWork(cfg, s, a, w);
        case Drain(d) => DrainGrows(cfg, s, a, d);
        case _ =>
      }
    case FetchReturns(_, _) => KnownFetch(cfg, s, ev);
    case _ =>
  }

  lemma {:induction false} KnownHolds<T>(cfg: Config, run: Run<T>)
    requires cfg.Valid() && IsRun(cfg, run)
    ensures ShortKnown(cfg, Final(cfg, run))
  {
    if run.Then? {
      Reachable(cfg, run.prev);
      KnownHolds(cfg, run.prev);
      KnownStep(cfg, Final(cfg, run.prev), run.ev);
    }
  }

  // ------------------------------------- when no failed page can see a marker

  ghost predicate NoMarkWhenFailed<T>(s: State<T>) {
    forall a :: 2 <= a < |s.pcs| && s.pcs[a].FetchFailed() ==> s.v.short == 0
  }

  /** Every page up to the cap is full. */
  ghost predicate NeverShort<T>(cfg: Config, book: seq<seq<T>>) {
    |book| > cfg.maxPages && forall p :: 1 <= p <= cfg.maxPages ==> |book[p]| >= cfg.perPage
  }

  lemma NoMarkHolds<T>(cfg: Config, book: seq<seq<T>>, run: Run<T>)
    requires cfg.Valid() && Paged(cfg, book) && IsRun(cfg, run) && ServesRun(book, run)
    requires cfg.concurrency == 1 || cfg.maxPages <= 2 || NeverShort(cfg, book)
    ensures NoMarkWhenFailed(Final(cfg, run))
  {
    var s := Final(cfg, run);
    Reachable(cfg, run);
    KnownHolds(cfg, run);
    MarkedHolds(cfg, run);
    ServedIsTruthful(cfg, book, run);
    if cfg.concurrency == 1 {
      OneByOneHolds(cfg, run);
    }
    forall a | 2 <= a < |s.pcs| && s.pcs[a].FetchFailed()
      ensures s.v.short == 0
    {
      assert PageOk(s, a);
      assert cfg.concurrency == 1 ==> Clear(cfg, s, a);
      assert s.v.short != a;
    }
  }

  // --------------------------------------------------------- then it is reported

  /** A failure has been, or will be, recorded, if the marker stays away from failed pages. */
  ghost predicate Doomed<T>(s: State<T>) {
    Failing(s) || exists a :: 2 <= a < |s.pcs| && s.pcs[a].FetchFailed()
  }

  lemma DoomedStep<T>(cfg: Config, s: State<T>, ev: Event<T>)
    requires Inv(cfg, s) && Enabled(cfg, s, ev) && Doomed(s) && NoMarkWhenFailed(s)
    ensures Doomed(Step(cfg, s, ev))
  {
    if Failing(s) {
      FailingStep(cfg, s, ev);
    } else {
      var a :| 2 <= a < |s.pcs| && s.pcs[a].FetchFailed();
      FailedStep(cfg, s, ev, a);
    }
  }

  lemma FailedStep<T>(cfg: Config, s: State<T>, ev: Event<T>, a: nat)
    requires Safe(cfg, s) && Enabled(cfg, s, ev) && 2 <= a < |s.pcs| && s.pcs[a].FetchFailed() && s.v.short == 0
    ensures var t := Step(cfg, s, ev); a < |t.pcs| && (t.pcs[a].FetchFailed() || Pending(t.pcs[a]))
  {
    if ev.Act? {
      match s.pcs[ev.agent]
      case Work(w) => WorkGrows(s, ev.agent, w);
      case Drain(d) => DrainGrows(cfg, s, ev.agent, d);
      case _ =>
    }
  }

  lemma {:induction false} UntimelyIsDoomed<T(!new)>(cfg: Config, book: seq<seq<T>>, run: Run<T>)
    requires cfg.Valid() && Paged(cfg, book) && IsRun(cfg, run) && ServesRun(book, run) && !HonestRun(cfg, book, run)
    requires cfg.concurrency == 1 || cfg.maxPages <= 2 || NeverShort(cfg, book)
    ensures Doomed(Final(cfg, run))
  {
    if run.Then? {
      var s := Final(cfg, run.prev);
      Reachable(cfg, run.prev);
      if !HonestRun(cfg, book, run.prev) {
        UntimelyIsDoomed(cfg, book, run.prev);
        NoMarkHolds(cfg, book, run.prev);
        DoomedStep(cfg, s, run.ev);
      } else {
        DishonestLast(cfg, book, run);
        UntimelyDooms(cfg, s, run.ev);
      }
    }
  }

  /** A run that is honest up to its last event. */
  lemma DishonestLast<T(!new)>(cfg: Config, book: seq<seq<T>>, run: Run<T>)
    requires run.Then? && IsRun(cfg, run) && ServesRun(book, run)
    requires HonestRun(cfg, book, run.prev) && !HonestRun(cfg, book, run)
    ensures Untimely(Final(cfg, run.prev), run.ev)
  {
    var before := run.prev;
    assert forall r: Run<T> :: Extends(run, r) ==> r == run || Extends(before, r);
  }

  lemma UntimelyDooms<T>(cfg: Config, s: State<T>, ev: Event<T>)
    requires Control(cfg, s) && Enabled(cfg, s, ev) && Untimely(s, ev)
    ensures Doomed(Step(cfg, s, ev))
  {
    if ev.agent != 0 {
      assert ev.agent >= 2 && Step(cfg, s, ev).pcs[ev.agent].FetchFailed();
    }
  }

  // ------------------------------------------------------------- a page is lost

  /** The first page from 3 on that is not full. */
  lemma FindShort<T>(cfg: Config, book: seq<seq<T>>) returns (q: nat)
    requires cfg.maxPages >= 3 && !Full(cfg, book, cfg.maxPages)
    ensures 3 <= q <= cfg.maxPages && !Full(cfg, book, q) && forall p :: 3 <= p < q ==> Full(cfg, book, p)
  {
    q := 3;
    while Full(cfg, book, q)
      invariant 3 <= q <= cfg.maxPages && forall p :: 3 <= p < q ==> Full(cfg, book, p)
      decreases cfg.maxPages - q
    {
      q := q + 1;
    }
  }

  /** While the fetch of page 2 is on its way, a later page comes back short. */
  lemma ShortBehindTwo<T>(cfg: Config, book: seq<seq<T>>) returns (r: Run<T>)
    requires cfg.Valid() && cfg.maxPages >= 3 && cfg.concurrency >= 2 && Paged(cfg, book)
    requires Full(cfg, book, 1) && !Full(cfg, book, cfg.maxPages)
    ensures IsRun(cfg, r) && ServesRun(book, r) && Sized(cfg, Final(cfg, r))
    ensures var s := Final(cfg, r);
            && s.pcs[0] == Main(Test) && s.pcs[2] == Work(InFetch) && 0 < s.v.short < s.page && s.slots > 0
            && (forall p :: 3 <= p < |s.pcs| ==> s.pcs[p].Idle? || s.pcs[p].Gone?)
            && s.lock.None? && s.v.delivered == 1 && !s.v.ready[2] && !s.v.aborted && s.v.firstErr.None?
            && !s.h.byCaller && s.h.out == [book[1]]
  {
    var q := FindShort(cfg, book);
    r := PageTwoInFlight(cfg, book[1]);
    r := PileUp(cfg, r, 3, q - 1, book);
    assert Truthful(book, Final(cfg, r));
    r := ShortLands(cfg, r, q, book[q]);
    Reachable(cfg, r);
    assert Frontier(cfg, Final(cfg, r));
    assert Truthful(book, Final(cfg, r));
    ServedAsGot(cfg, book, r);
  }

  lemma ShortLands<T>(cfg: Config, run: Run<T>, q: nat, items: seq<T>) returns (r: Run<T>)
    requires IsRun(cfg, run) && Stalled(cfg, Final(cfg, run), q) && q <= cfg.maxPages && |items| < cfg.perPage
    ensures IsRun(cfg, r) && Sized(cfg, Final(cfg, r)) && Undisturbed(Final(cfg, run), Final(cfg, r))
    ensures var s, t := Final(cfg, run), Final(cfg, r);
            && t.pcs == s.pcs[q := Gone] && t.page == q + 1 && t.v.short == q && t.lock.None?
            && t.v.delivered == s.v.delivered && t.h.got == s.h.got[q := items]
  {
    var s := Final(cfg, run);
    r := Spawn(cfg, run);
    r := BeginFetch(cfg, r, q);
    r := Land(cfg, r, q, items);
    r := DrainInVain(cfg, r, q);
    assert Final(cfg, r).pcs == s.pcs[q := Gone];
  }

  /** The fetch of page 2 then cancels itself: nobody reports it, and the walk returns nil with page 1 alone. */
  lemma PageTwoIsLost<T>(cfg: Config, book: seq<seq<T>>) returns (r: Run<T>)
    requires cfg.Valid() && cfg.maxPages >= 3 && cfg.concurrency >= 2 && Paged(cfg, book)
    requires Full(cfg, book, 1) && !Full(cfg, book, cfg.maxPages)
    ensures IsRun(cfg, r) && ServesRun(book, r) && Finished(Final(cfg, r))
    ensures var s := Final(cfg, r); s.v.result.None? && !s.h.byCaller && s.h.out == [book[1]]
  {
    var run := ShortBehindTwo(cfg, book);
    var s := Final(cfg, run);
    var r1 := Then(run, FetchReturns(2, Failure(Canceled)));
    assert Final(cfg, r1) == Goto(s, 2, Work(Failed(Canceled)));
    var r2 := Then(r1, Act(2));
    assert Final(cfg, r2).pcs == s.pcs[2 := Work(Release)];
    assert ServesRun(book, r2);
    r := LeaveEmpty(cfg, r2, book);
  }

  /** The last worker leaves, the dispatcher sees the marker, and walkPages returns. */
  lemma LeaveEmpty<T>(cfg: Config, run: Run<T>, book: seq<seq<T>>) returns (r: Run<T>)
    requires IsRun(cfg, run) && Sized(cfg, Final(cfg, run)) && cfg.maxPages >= 3 && ServesRun(book, run)
    requires var s := Final(cfg, run);
            && s.pcs[0] == Main(Test) && s.pcs[2] == Work(Release) && 0 < s.v.short < s.page && s.slots > 0
            && (forall p :: 3 <= p < |s.pcs| ==> s.pcs[p].Idle? || s.pcs[p].Gone?)
            && s.lock.None? && s.v.delivered == 1 && !s.v.ready[2] && !s.v.aborted && s.v.firstErr.None?
    ensures IsRun(cfg, r) && ServesRun(book, r) && Finished(Final(cfg, r))
    ensures var s, t := Final(cfg, run), Final(cfg, r);
            t.v.result.None? && t.h.byCaller == s.h.byCaller && t.h.out == s.h.out
  {
    var s := Final(cfg, run);
    var r1 := Then(run, Act(2));
    assert Final(cfg, r1).pcs == s.pcs[2 := Finish];
    var r2 := Then(r1, Act(2));
    assert Final(cfg, r2).pcs == s.pcs[2 := Gone];
    var r3 := Then(r2, Act(0));
    assert Final(cfg, r3).pcs == s.pcs[2 := Gone][0 := Main(Wait)];
    assert ServesRun(book, r1) && ServesRun(book, r2) && ServesRun(book, r3);
    r := CloseEmpty(cfg, r3, book);
  }

  // ------------------------------------------------------------- the theorem

  /** Whatever fetches fail or cancel themselves, an uncancelled walk that returns nil is complete. */
  ghost predicate NilMeansAll<T>(cfg: Config, c: seq<T>, run: Run<T>)
    requires IsRun(cfg, run)
  {
    ServesRun(BookOf(cfg, c), run) && !Final(cfg, run).h.byCaller
    && Finished(Final(cfg, run)) && Final(cfg, run).v.result.None?
    ==> Flatten(Final(cfg, run).h.out) == Promised(cfg, c)
  }

  /**
    That is so for every run exactly when no needed page after the first can fail behind a
    marker: one slot, at most two pages, a collection that page 1 holds, or one without short
    pages up to the cap.
   */
  lemma EarlyCancelExact<T(!new)>(cfg: Config, c: seq<T>)
    requires cfg.Valid()
    ensures (forall run: Run<T> :: IsRun(cfg, run) ==> NilMeansAll(cfg, c, run)) <==>
              cfg.concurrency == 1 || cfg.maxPages <= 2 || |c| <= cfg.perPage || |c| >= cfg.maxPages * cfg.perPage
  {
    if cfg.concurrency == 1 || cfg.maxPages <= 2 || |c| <= cfg.perPage || |c| >= cfg.maxPages * cfg.perPage {
      forall run: Run<T> | IsRun(cfg, run)
        ensures NilMeansAll(cfg, c, run)
      {
        NothingLost(cfg, c, run);
      }
    } else {
      var run := PageTwoOfCollection(cfg, c);
      assert IsRun(cfg, run) && !NilMeansAll(cfg, c, run);
    }
  }

  lemma PageTwoOfCollection<T>(cfg: Config, c: seq<T>) returns (run: Run<T>)
    requires cfg.Valid() && cfg.maxPages >= 3 && cfg.concurrency >= 2
    requires cfg.perPage < |c| < cfg.maxPages * cfg.perPage
    ensures IsRun(cfg, run) && !NilMeansAll(cfg, c, run)
  {
    var book := BookOf(cfg, c);
    BookPaged(cfg, c);
    FullMeans(c, cfg.perPage, 1);
    FullMeans(c, cfg.perPage, cfg.maxPages);
    run := PageTwoIsLost(cfg, book);
    var out := Final(cfg, run).h.out;
    assert out[..0] == [];
    assert Flatten(out) == book[1];
    assert |Promised(cfg, c)| > cfg.perPage;
  }

  lemma {:induction false} NothingLost<T(!new)>(cfg: Config, c: seq<T>, run: Run<T>)
    requires cfg.Valid() && IsRun(cfg, run)
    requires cfg.concurrency == 1 || cfg.maxPages <= 2 || |c| <= cfg.perPage || |c| >= cfg.maxPages * cfg.perPage
    ensures NilMeansAll(cfg, c, run)
  {
    var book, s := BookOf(cfg, c), Final(cfg, run);
    if ServesRun(book, run) && !s.h.byCaller && Finished(s) && s.v.result.None? {
      BookPaged(cfg, c);
      if |c| <= cfg.perPage {
        FirstPageIsAll(cfg, c, run);
      } else if HonestRun(cfg, book, run) {
        RefinesSequentialWalk(cfg, c, run);
      } else {
        if |c| >= cfg.maxPages * cfg.perPage {
          AllPagesFull(cfg, c);
        }
        UntimelyIsDoomed(cfg, book, run);
        DoomedIsReturned(cfg, run);
      }
    }
  }

  lemma AllPagesFull<T>(cfg: Config, c: seq<T>)
    requires cfg.Valid() && |c| >= cfg.maxPages * cfg.perPage
    ensures NeverShort(cfg, BookOf(cfg, c))
  {
    forall p | 1 <= p <= cfg.maxPages
      ensures |BookOf(cfg, c)[p]| >= cfg.perPage
    {
      FullMeans(c, cfg.perPage, p);
      MulOrder(p, cfg.maxPages, cfg.perPage);
    }
  }

  lemma DoomedIsReturned<T>(cfg: Config, run: Run<T>)
    requires cfg.Valid() && IsRun(cfg, run) && Doomed(Final(cfg, run)) && Finished(Final(cfg, run))
    ensures Final(cfg, run).v.result.Some?
  {
    Reachable(cfg, run);
    assert AllQuiet(Final(cfg, run));
    FailingIsReturned(cfg, Final(cfg, run));
  }
}
