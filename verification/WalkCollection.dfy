/**
  Over a fixed collection, every schedule of the concurrent walk returns what the trivial
  sequential page loop returns: the first min(|c|, MaxPages * PerPage) items, in order.
 */
module WalkCollection {
  import opened Common
  import opened WalkModel
  import opened WalkSafety
  import opened WalkOutcome
  import opened WalkRefinement
  import opened WalkSchedules

  // ------------------------------------------------- pages of a collection

  /** Page p of collection c: its p-th slice of n items. */
  function Slice<T>(c: seq<T>, n: nat, p: nat): (r: seq<T>)
    requires p >= 1
    ensures |r| <= n
  {
    SliceBounds(|c|, n, p);
    c[Min((p - 1) * n, |c|)..Min(p * n, |c|)]
  }

  lemma SliceBounds(len: nat, n: nat, p: nat)
    requires p >= 1
    ensures 0 <= (p - 1) * n && p * n == (p - 1) * n + n
  {
  }

  predicate FullSlice<T>(c: seq<T>, n: nat, p: nat)
    requires p >= 1
  {
    |Slice(c, n, p)| == n
  }

  /** A page is full exactly when the collection reaches to its end. */
  lemma FullMeans<T>(c: seq<T>, n: nat, p: nat)
    requires p >= 1 && n >= 1
    ensures FullSlice(c, n, p) <==> p * n <= |c|
  {
  }

  lemma MulOrder(p: nat, q: nat, n: nat)
    requires p <= q
    ensures p * n <= q * n
  {
  }

  /** Only the end of a collection has short pages: whatever precedes a full page is full. */
  lemma FullBefore<T>(c: seq<T>, n: nat, p: nat, q: nat)
    requires 1 <= p <= q && n >= 1 && FullSlice(c, n, q)
    ensures FullSlice(c, n, p)
  {
    FullMeans(c, n, p);
    FullMeans(c, n, q);
    MulOrder(p, q, n);
  }

  /** The sequential page loop: fetch pages from p on until one is short or the cap is reached. */
  function SequentialWalk<T>(c: seq<T>, cfg: Config, p: nat): seq<T>
    requires 1 <= p
    decreases cfg.maxPages - p
  {
    var page := Slice(c, cfg.perPage, p);
    if |page| < cfg.perPage || p >= cfg.maxPages then page else page + SequentialWalk(c, cfg, p + 1)
  }

  lemma {:induction false} SequentialWalkMeans<T>(c: seq<T>, cfg: Config, p: nat)
    requires cfg.Valid() && 1 <= p <= cfg.maxPages && (p - 1) * cfg.perPage <= |c|
    ensures 0 <= (p - 1) * cfg.perPage <= Min(cfg.maxPages * cfg.perPage, |c|)
    ensures SequentialWalk(c, cfg, p) == c[(p - 1) * cfg.perPage..Min(cfg.maxPages * cfg.perPage, |c|)]
    decreases cfg.maxPages - p
  {
    var n := cfg.perPage;
    SliceBounds(|c|, n, p);
    FullMeans(c, n, p);
    MulOrder(p, cfg.maxPages, n);
    if FullSlice(c, n, p) && p < cfg.maxPages {
      SequentialWalkMeans(c, cfg, p + 1);
    }
  }

  /** What FetchPages accumulates: the pages handed over, appended in order. */
  function Flatten<T>(pages: seq<seq<T>>): seq<T> {
    if pages == [] then [] else Flatten(pages[..|pages| - 1]) + pages[|pages| - 1]
  }

  lemma {:induction false} FlattenSlices<T>(c: seq<T>, n: nat, pages: seq<seq<T>>)
    requires n >= 1 && forall i :: 0 <= i < |pages| ==> pages[i] == Slice(c, n, i + 1)
    ensures 0 <= |pages| * n
    ensures Flatten(pages) == c[..Min(|pages| * n, |c|)]
  {
    if pages != [] {
      var k := |pages| - 1;
      FlattenSlices(c, n, pages[..k]);
      SliceBounds(|c|, n, k + 1);
      NextSlice(c, k * n, n);
    }
  }

  lemma NextSlice<T>(c: seq<T>, lo: nat, n: nat)
    ensures c[..Min(lo, |c|)] + c[Min(lo, |c|)..Min(lo + n, |c|)] == c[..Min(lo + n, |c|)]
  {
  }

  /** The listing a server with collection c serves. */
  function BookOf<T>(cfg: Config, c: seq<T>): (book: seq<seq<T>>)
    ensures |book| == cfg.maxPages + 1
    ensures forall p :: 1 <= p <= cfg.maxPages ==> book[p] == Slice(c, cfg.perPage, p)
  {
    seq(cfg.maxPages + 1, p requires 0 <= p => if p == 0 then [] else Slice(c, cfg.perPage, p))
  }

  lemma BookPaged<T>(cfg: Config, c: seq<T>)
    requires cfg.Valid()
    ensures Paged(cfg, BookOf(cfg, c))
  {
    var book := BookOf(cfg, c);
    forall p, q | 1 <= p <= q && Full(cfg, book, q)
      ensures Full(cfg, book, p)
    {
      FullBefore(c, cfg.perPage, p, q);
    }
  }

  // ------------------------------------------------------------- the theorems

  /** The first min(|c|, MaxPages * PerPage) items. */
  function Promised<T>(cfg: Config, c: seq<T>): seq<T> {
    c[..Min(cfg.maxPages * cfg.perPage, |c|)]
  }

  lemma SequentialIsPromised<T>(cfg: Config, c: seq<T>)
    requires cfg.Valid()
    ensures SequentialWalk(c, cfg, 1) == Promised(cfg, c)
  {
    SequentialWalkMeans(c, cfg, 1);
  }

  /** Nil always means a prefix of the collection that ends at a page boundary or its end. */
  lemma {:induction false} NilIsPrefixOf<T>(cfg: Config, c: seq<T>, run: Run<T>)
    requires cfg.Valid() && IsRun(cfg, run) && ServesRun(BookOf(cfg, c), run)
    requires Finished(Final(cfg, run)) && Final(cfg, run).v.result.None?
    ensures var out := Final(cfg, run).h.out;
            1 <= |out| <= cfg.maxPages && 0 <= |out| * cfg.perPage
            && Flatten(out) == c[..Min(|out| * cfg.perPage, |c|)]
  {
    BookPaged(cfg, c);
    NilIsPrefix(cfg, BookOf(cfg, c), run);
    FlattenSlices(c, cfg.perPage, Final(cfg, run).h.out);
  }

  /**
    Refinement: whatever the schedule, if the caller does not cancel and nil is returned, the
    items handed over are those of the sequential page loop.
   */
  lemma {:induction false} RefinesSequentialWalk<T(!new)>(cfg: Config, c: seq<T>, run: Run<T>)
    requires cfg.Valid() && IsRun(cfg, run) && HonestRun(cfg, BookOf(cfg, c), run)
    requires var s := Final(cfg, run); Finished(s) && s.v.result.None? && !s.h.byCaller
    ensures Flatten(Final(cfg, run).h.out) == SequentialWalk(c, cfg, 1) == Promised(cfg, c)
  {
    var n := |Final(cfg, run).h.out|;
    BookPaged(cfg, c);
    HonestServes(cfg, BookOf(cfg, c), run);
    NilIsPrefixOf(cfg, c, run);
    NilIsComplete(cfg, BookOf(cfg, c), run);
    SequentialIsPromised(cfg, c);
    FullMeans(c, cfg.perPage, n);
    MulOrder(n, cfg.maxPages, cfg.perPage);
  }

  predicate Calm<T>(pc: Pc<T>) {
    !(pc.Work? && (pc.w.Failed? || pc.w.Abort?)) && !(pc.Drain? && pc.d.Fail?)
  }

  ghost predicate AllCalm<T>(s: State<T>) {
    && s.h.errors == []
    && (Finished(s) ==> s.v.result.None?)
    && forall a :: 0 <= a < |s.pcs| ==> Calm(s.pcs[a])
  }

  lemma CalmStep<T>(cfg: Config, s: State<T>, ev: Event<T>)
    requires Inv(cfg, s) && AllCalm(s) && Enabled(cfg, s, ev)
    requires (ev.FetchReturns? ==> ev.outcome.Page?) && (ev.CallReturns? ==> ev.failure.None?)
    ensures AllCalm(Step(cfg, s, ev))
  {
    match ev
    case Act(a) =>
      match s.pcs[a] {
        case Work(w) => CalmWork(cfg, s, a, w);
        case Drain(d) => CalmDrain(cfg, s, a, d);
        case _ =>
      }
    case _ =>
  }

  lemma CalmWork<T>(cfg: Config, s: State<T>, a: nat, w: WorkPc<T>)
    requires Inv(cfg, s) && AllCalm(s) && Enabled(cfg, s, Act(a)) && s.pcs[a] == Work(w)
    ensures AllCalm(WorkStep(s, a, w))
  {
  }

  lemma CalmDrain<T>(cfg: Config, s: State<T>, a: nat, d: DrainPc<T>)
    requires Inv(cfg, s) && AllCalm(s) && Enabled(cfg, s, Act(a)) && s.pcs[a] == Drain(d)
    ensures AllCalm(DrainStep(cfg, s, a, d))
  {
  }

  lemma {:induction false} FailureFreeIsCalm<T>(cfg: Config, run: Run<T>)
    requires cfg.Valid() && IsRun(cfg, run) && FailureFree(run)
    ensures AllCalm(Final(cfg, run))
  {
    if run.Then? {
      Reachable(cfg, run.prev);
      FailureFreeIsCalm(cfg, run.prev);
      CalmStep(cfg, Final(cfg, run.prev), run.ev);
    }
  }

  /** A failure that is about to be recorded by `fail`. */
  predicate Pending<T>(pc: Pc<T>) {
    match pc
    case Work(w) => (w.Failed? && !w.cause.Canceled?) || (w.Abort? && w.f.SetErr?)
    case Drain(d) => d.Fail? && d.f.SetErr?
    case _ => false
  }

  /** A failure has been, or will be, recorded. */
  ghost predicate Failing<T>(s: State<T>) {
    || s.h.errors != []
    || (Finished(s) && s.v.result.Some?)
    || exists a :: 0 <= a < |s.pcs| && Pending(s.pcs[a])
  }

  lemma FailingStep<T>(cfg: Config, s: State<T>, ev: Event<T>)
    requires Inv(cfg, s) && Enabled(cfg, s, ev) && Failing(s)
    ensures Failing(Step(cfg, s, ev))
  {
    StepGrows(cfg, s, ev);
    ControlStep(cfg, s, ev);
    if s.h.errors == [] && !Finished(s) {
      var a :| 0 <= a < |s.pcs| && Pending(s.pcs[a]);
      PendingStep(cfg, s, ev, a);
    } else if s.h.errors == [] {
      assert AllQuiet(s);
    }
  }

  lemma PendingStep<T>(cfg: Config, s: State<T>, ev: Event<T>, a: nat)
    requires Safe(cfg, s) && Enabled(cfg, s, ev) && a < |s.pcs| && Pending(s.pcs[a])
    ensures var t := Step(cfg, s, ev); a < |t.pcs| && (t.h.errors != [] || Pending(t.pcs[a]))
  {
    if ev.Act? {
      match s.pcs[ev.agent]
      case Work(w) =>
        WorkGrows(s, ev.agent, w);
        if ev.agent == a { PendingWork(s, a, w); }
      case Drain(d) => DrainGrows(cfg, s, ev.agent, d);
      case _ =>
    }
  }

  lemma PendingWork<T>(s: State<T>, a: nat, w: WorkPc<T>)
    requires a < |s.pcs| == |s.v.ready| == |s.v.pending| && s.pcs[a] == Work(w) && !w.InFetch? && Pending(s.pcs[a])
    ensures var t := WorkStep(s, a, w); a < |t.pcs| && (t.h.errors != [] || Pending(t.pcs[a]))
  {
  }

  lemma {:induction false} FailureIsFailing<T(!new)>(cfg: Config, book: seq<seq<T>>, run: Run<T>)
    requires cfg.Valid() && Paged(cfg, book) && IsRun(cfg, run) && HonestRun(cfg, book, run)
    requires !FailureFree(run) && !Final(cfg, run).h.byCaller
    ensures Failing(Final(cfg, run))
  {
    var s := Final(cfg, run.prev);
    Reachable(cfg, run.prev);
    StepGrows(cfg, s, run.ev);
    HonestBefore(cfg, book, run);
    if !FailureFree(run.prev) {
      FailureIsFailing(cfg, book, run.prev);
      FailingStep(cfg, s, run.ev);
    } else {
      var t := Final(cfg, run);
      var a := run.ev.agent;
      assert t.h.errors != [] || Finished(t) || Pending(t.pcs[a]);
    }
  }

  lemma FailingIsReturned<T>(cfg: Config, s: State<T>)
    requires Control(cfg, s) && Delivery(cfg, s) && Failures(s) && Ending(cfg, s) && Finished(s) && Failing(s)
    ensures s.v.result.Some?
  {
  }

  /**
    Without caller cancellation the walk returns an error exactly when some call of fetch or
    onPage returned one; errors are neither swallowed nor invented.
   */
  lemma {:induction false} ErrorIffFailure<T(!new)>(cfg: Config, c: seq<T>, run: Run<T>)
    requires cfg.Valid() && IsRun(cfg, run) && HonestRun(cfg, BookOf(cfg, c), run)
    requires Finished(Final(cfg, run)) && !Final(cfg, run).h.byCaller
    ensures Final(cfg, run).v.result.None? <==> FailureFree(run)
  {
    Reachable(cfg, run);
    if FailureFree(run) {
      FailureFreeIsCalm(cfg, run);
    } else {
      BookPaged(cfg, c);
      FailureIsFailing(cfg, BookOf(cfg, c), run);
      FailingIsReturned(cfg, Final(cfg, run));
    }
  }

  // --------------------------------------------- nil under caller cancellation

  /** Nothing dispatched is left, and the next page to deliver is missing. */
  ghost predicate NothingLeft<T>(cfg: Config, s: State<T>) {
    && Sized(cfg, s) && AllQuiet(s) && s.lock.None? && s.v.firstErr.None? && !s.v.aborted
    && s.v.delivered < cfg.maxPages && !s.v.ready[s.v.delivered + 1]
  }

  /** The later run ends with nil and the same pages handed over, and brought no page and no failure of its own. */
  ghost predicate Closes<T>(cfg: Config, run: Run<T>, r: Run<T>, book: seq<seq<T>>)
    requires IsRun(cfg, run)
  {
    && IsRun(cfg, r) && Finished(Final(cfg, r)) && Final(cfg, r).v.result.None?
    && Final(cfg, r).h.out == Final(cfg, run).h.out && Final(cfg, r).h.byCaller == Final(cfg, run).h.byCaller
    && (ServesRun(book, run) ==> ServesRun(book, r)) && (FailureFree(run) ==> FailureFree(r))
  }

  /** The caller cancels right after page 1; the dispatcher's select sees it and the walk returns nil. */
  lemma CancelAfterFirst<T>(cfg: Config, c: seq<T>) returns (r: Run<T>)
    requires cfg.Valid() && cfg.maxPages >= 2 && |c| >= cfg.perPage
    ensures IsRun(cfg, r) && ServesRun(BookOf(cfg, c), r) && FailureFree(r)
    ensures var s := Final(cfg, r); Finished(s) && s.v.result.None? && s.h.out == [c[..cfg.perPage]]
  {
    var book, first := BookOf(cfg, c), c[..cfg.perPage];
    assert first == Slice(c, cfg.perPage, 1);
    var r0 := Begin(cfg, first);
    BookPaged(cfg, c);
    ServedAsGot(cfg, book, r0);
    HealthyIsFailureFree(r0);
    var r1 := Then(r0, CallerCancels);
    var s := Final(cfg, r1);
    var r2 := Then(r1, Act(0));
    assert Final(cfg, r2) == Goto(s, 0, Main(Select));
    var r3 := Then(r2, SelectDone);
    assert Final(cfg, r3).pcs == s.pcs[0 := Main(Wait)];
    assert ServesRun(book, r2) && FailureFree(r2);
    r := CloseEmpty(cfg, r3, book);
  }

  /** The barrier, the final drain and the return. */
  lemma CloseEmpty<T>(cfg: Config, run: Run<T>, book: seq<seq<T>>) returns (r: Run<T>)
    requires IsRun(cfg, run) && NothingLeft(cfg, Final(cfg, run)) && Final(cfg, run).pcs[0] == Main(Wait)
    ensures Closes(cfg, run, r, book)
  {
    var s := Final(cfg, run);
    var r1 := Then(run, Act(0));
    assert Final(cfg, r1) == Goto(s, 0, Lock);
    var r2 := Then(r1, Act(0));
    assert Final(cfg, r2).pcs == s.pcs[0 := Drain(Check)];
    r := LastDrain(cfg, r2, book);
    assert ServesRun(book, r1) == ServesRun(book, run) && FailureFree(r1) == FailureFree(run);
  }

  /** The dispatcher's drain finds nothing to deliver, and walkPages returns. */
  lemma LastDrain<T>(cfg: Config, run: Run<T>, book: seq<seq<T>>) returns (r: Run<T>)
    requires IsRun(cfg, run) && Sized(cfg, Final(cfg, run))
    requires var s := Final(cfg, run);
             && s.pcs[0] == Drain(Check) && s.v.firstErr.None?
             && s.v.delivered < cfg.maxPages && !s.v.ready[s.v.delivered + 1] && !s.v.aborted
    ensures Closes(cfg, run, r, book)
  {
    var s := Final(cfg, run);
    var r1 := Then(run, Act(0));
    assert Final(cfg, r1) == Goto(s, 0, Drain(Read));
    var r2 := Then(r1, Act(0));
    var t := Final(cfg, r2);
    assert t.pcs == s.pcs[0 := Drain(Unlock)] && t.v == s.v && t.h == s.h;
    r := LastReturn(cfg, r2, book);
    assert ServesRun(book, r1) == ServesRun(book, run) && FailureFree(r1) == FailureFree(run);
  }

  lemma LastReturn<T>(cfg: Config, run: Run<T>, book: seq<seq<T>>) returns (r: Run<T>)
    requires IsRun(cfg, run) && Sized(cfg, Final(cfg, run))
    requires Final(cfg, run).pcs[0] == Drain(Unlock) && Final(cfg, run).v.firstErr.None?
    ensures Closes(cfg, run, r, book)
  {
    var s := Final(cfg, run);
    var r1 := Then(run, Act(0));
    assert Final(cfg, r1) == Goto(s, 0, Main(Collect)).(lock := None);
    r := Then(r1, Act(0));
    assert ServesRun(book, r1) == ServesRun(book, run) && FailureFree(r1) == FailureFree(run);
  }

  /** A failure-free walk that returned nil has returned everything promised. */
  ghost predicate NilMeansComplete<T>(cfg: Config, c: seq<T>, run: Run<T>)
    requires IsRun(cfg, run)
  {
    ServesRun(BookOf(cfg, c), run) && FailureFree(run)
    && Finished(Final(cfg, run)) && Final(cfg, run).v.result.None?
    ==> Flatten(Final(cfg, run).h.out) == Promised(cfg, c)
  }

  /**
    If the caller may cancel, nil is a proof of completeness for every run exactly when page 1
    alone holds all that is promised.
   */
  lemma {:induction false} CancellationExact<T(!new)>(cfg: Config, c: seq<T>)
    requires cfg.Valid()
    ensures (forall run: Run<T> :: IsRun(cfg, run) ==> NilMeansComplete(cfg, c, run))
            <==> |c| <= cfg.perPage || cfg.maxPages == 1
  {
    if |c| <= cfg.perPage || cfg.maxPages == 1 {
      forall run: Run<T> | IsRun(cfg, run)
        ensures NilMeansComplete(cfg, c, run)
      {
        FirstPageSuffices(cfg, c, run);
      }
    } else {
      var run := CancelAfterFirst(cfg, c);
      var out := Final(cfg, run).h.out;
      assert out[..0] == [];
      assert Flatten(out) == c[..cfg.perPage];
      MulOrder(2, cfg.maxPages, cfg.perPage);
      assert |Promised(cfg, c)| > cfg.perPage;
      assert IsRun(cfg, run) && !NilMeansComplete(cfg, c, run);
    }
  }

  lemma {:induction false} FirstPageSuffices<T>(cfg: Config, c: seq<T>, run: Run<T>)
    requires cfg.Valid() && IsRun(cfg, run) && (|c| <= cfg.perPage || cfg.maxPages == 1)
    ensures NilMeansComplete(cfg, c, run)
  {
    if ServesRun(BookOf(cfg, c), run) && Finished(Final(cfg, run)) && Final(cfg, run).v.result.None? {
      FirstPageIsAll(cfg, c, run);
    }
  }

  /** If page 1 holds all that is promised, nil means complete whatever fails or cancels. */
  lemma {:induction false} FirstPageIsAll<T>(cfg: Config, c: seq<T>, run: Run<T>)
    requires cfg.Valid() && IsRun(cfg, run) && (|c| <= cfg.perPage || cfg.maxPages == 1)
    requires ServesRun(BookOf(cfg, c), run) && Finished(Final(cfg, run)) && Final(cfg, run).v.result.None?
    ensures Flatten(Final(cfg, run).h.out) == Promised(cfg, c)
  {
    NilIsPrefixOf(cfg, c, run);
    MulOrder(1, |Final(cfg, run).h.out|, cfg.perPage);
    MulOrder(1, cfg.maxPages, cfg.perPage);
  }
}
