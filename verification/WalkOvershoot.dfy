/**
  How far the walk overshoots: although the dispatcher tests the short-page marker before it
  blocks on the semaphore, at most Concurrency fetches are ever begun at or beyond the first
  short page, because all their workers hold a slot at the instant the marker is first set.
 */
module WalkOvershoot {
  import opened Common
  import opened WalkModel
  import opened WalkSafety
  import opened WalkOutcome
  import opened WalkRefinement

  /** Page p has been fetched, or its worker will fetch it unless the caller cancels. */
  predicate MayFetch<T>(s: State<T>, p: nat)
    requires p < |s.pcs|
  {
    p in s.h.fetches ||
    (s.pcs[p].Work? &&
     match s.pcs[p].w
     case Load => s.v.short == 0 || p <= s.v.short
     case Skip(seen) => seen == 0 || p <= seen
     case Fetch => true
     case _ => false)
  }

  function Beyond<T>(s: State<T>, first: nat): set<nat> {
    set p: nat | 2 <= p < |s.pcs| && first <= p && MayFetch(s, p)
  }

  ghost predicate Marked<T>(s: State<T>) {
    && (s.v.short != 0 ==> 2 <= s.v.short < s.page)
    && forall p :: 2 <= p < |s.pcs| && s.pcs[p].Work? && s.pcs[p].w.Skip? ==>
         s.pcs[p].w.seen == 0 || s.pcs[p].w.seen == s.v.short
  }

  /** Until the marker is set, every worker from the first short page on still holds its slot. */
  ghost predicate NoneEscaped<T>(s: State<T>, first: nat) {
    s.v.short == 0 ==> forall p :: 2 <= p < |s.pcs| && first <= p < s.page ==> s.pcs[p].Early()
  }

  lemma MarkedStep<T>(cfg: Config, s: State<T>, ev: Event<T>)
    requires Control(cfg, s) && Marked(s) && Enabled(cfg, s, ev)
    ensures Marked(Step(cfg, s, ev))
  {
    match ev
    case Act(a) =>
      match s.pcs[a] {
        case Work(w) => MarkedWork(cfg, s, a, w);
        case Drain(d) => DrainGrows(cfg, s, a, d);
        case _ =>
      }
    case _ =>
  }

  lemma MarkedWork<T>(cfg: Config, s: State<T>, a: nat, w: WorkPc<T>)
    requires Control(cfg, s) && Marked(s) && Enabled(cfg, s, Act(a)) && s.pcs[a] == Work(w)
    ensures Marked(WorkStep(s, a, w))
  {
    WorkGrows(s, a, w);
    match w
    case Load => case Skip(_) => case Fetch => case Failed(_) => case Abort(_) => case Mark(_) =>
    case Count(_) => case Record(_) => case Release =>
  }

  lemma EarlyWork<T>(cfg: Config, s: State<T>, first: nat, a: nat, w: WorkPc<T>)
    requires Control(cfg, s) && Marked(s) && NoneEscaped(s, first)
    requires Enabled(cfg, s, Act(a)) && s.pcs[a] == Work(w)
    ensures NoneEscaped(WorkStep(s, a, w), first)
  {
  }

  lemma EarlyStep<T>(cfg: Config, book: seq<seq<T>>, s: State<T>, first: nat, ev: Event<T>)
    requires Paged(cfg, book) && Safe(cfg, s) && Marked(s) && NoneEscaped(s, first)
    requires 1 <= first && !Full(cfg, book, first)
    requires Enabled(cfg, s, ev) && Serves(book, ev) && (ev.FetchReturns? ==> ev.outcome.Page?)
    ensures NoneEscaped(Step(cfg, s, ev), first)
  {
    match ev
    case Act(a) =>
      match s.pcs[a] {
        case Work(w) => EarlyWork(cfg, s, first, a, w);
        case Drain(d) => DrainGrows(cfg, s, a, d);
        case _ =>
      }
    case FetchReturns(a, o) =>
      assert first <= a && Full(cfg, book, a) ==> Full(cfg, book, first);
    case _ =>
  }

  /** Once the marker is set no page is added to those that may be fetched. */
  lemma BeyondShrinks<T>(cfg: Config, s: State<T>, first: nat, ev: Event<T>)
    requires Safe(cfg, s) && Marked(s) && Enabled(cfg, s, ev)
    requires s.v.short != 0 || Step(cfg, s, ev).v.short != 0
    ensures Beyond(Step(cfg, s, ev), first) <= Beyond(s, first)
  {
    ControlStep(cfg, s, ev);
    var t := Step(cfg, s, ev);
    assert |t.pcs| == |s.pcs|;
    forall p: nat | 2 <= p < |t.pcs| && MayFetch(t, p)
      ensures MayFetch(s, p)
    {
      MayFetchBackwards(cfg, s, p, ev);
    }
  }

  lemma MayFetchBackwards<T>(cfg: Config, s: State<T>, p: nat, ev: Event<T>)
    requires Safe(cfg, s) && Marked(s) && Enabled(cfg, s, ev)
    requires s.v.short != 0 || Step(cfg, s, ev).v.short != 0
    requires 2 <= p < |s.pcs| == |Step(cfg, s, ev).pcs| && MayFetch(Step(cfg, s, ev), p)
    ensures MayFetch(s, p)
  {
    match ev
    case Act(a) =>
      match s.pcs[a] {
        case Work(w) => MayFetchWork(cfg, s, p, a, w);
        case Drain(d) => DrainGrows(cfg, s, a, d);
        case _ =>
      }
    case FetchReturns(a, o) =>
      assert s.pcs[a].Fetching() && 2 <= a ==> PageOk(s, a);
    case _ =>
  }

  lemma MayFetchWork<T>(cfg: Config, s: State<T>, p: nat, a: nat, w: WorkPc<T>)
    requires Control(cfg, s) && Marked(s) && Enabled(cfg, s, Act(a)) && s.pcs[a] == Work(w)
    requires 2 <= p < |s.pcs| == |WorkStep(s, a, w).pcs| && MayFetch(WorkStep(s, a, w), p)
    ensures MayFetch(s, p)
  {
  }

  /** Before that, they are among the holders of the semaphore. */
  lemma BeyondHolds<T>(cfg: Config, s: State<T>, first: nat)
    requires Safe(cfg, s) && NoneEscaped(s, first) && s.v.short == 0
    ensures |Beyond(s, first)| <= cfg.concurrency
  {
    forall p | p in Beyond(s, first)
      ensures p in Holders(s.pcs)
    {
      assert PageOk(s, p);
      assert p < s.page;
      assert s.pcs[p].Early();
    }
    SubsetSize(Beyond(s, first), Holders(s.pcs));
  }

  lemma {:induction false} BeyondBound<T>(cfg: Config, book: seq<seq<T>>, run: Run<T>, first: nat)
    requires cfg.Valid() && Paged(cfg, book) && IsRun(cfg, run) && ServesRun(book, run) && FetchesSucceed(run)
    requires 1 <= first && !Full(cfg, book, first)
    ensures var s := Final(cfg, run); Marked(s) && NoneEscaped(s, first) && |Beyond(s, first)| <= cfg.concurrency
  {
    var t := Final(cfg, run);
    Reachable(cfg, run);
    if run.Then? {
      var s := Final(cfg, run.prev);
      Reachable(cfg, run.prev);
      BeyondBound(cfg, book, run.prev, first);
      MarkedStep(cfg, s, run.ev);
      EarlyStep(cfg, book, s, first, run.ev);
      if t.v.short != 0 {
        BeyondShrinks(cfg, s, first, run.ev);
        SubsetSize(Beyond(t, first), Beyond(s, first));
      }
    }
    if t.v.short == 0 {
      BeyondHolds(cfg, t, first);
    }
  }

  /** The pages from `first` on whose fetch has been begun. */
  function FetchedFrom<T>(s: State<T>, first: nat): set<nat> {
    set p | p in s.h.fetches && first <= p
  }

  /**
    The overshoot bound: whatever the schedule, the callback or the caller's cancellation, at
    most Concurrency fetches are begun at or beyond the first short page, each at most once.
   */
  lemma {:induction false} OvershootBound<T>(cfg: Config, book: seq<seq<T>>, run: Run<T>, first: nat)
    requires cfg.Valid() && Paged(cfg, book) && IsRun(cfg, run) && ServesRun(book, run) && FetchesSucceed(run)
    requires 1 <= first && !Full(cfg, book, first)
    ensures |FetchedFrom(Final(cfg, run), first)| <= cfg.concurrency
    ensures Distinct(Final(cfg, run).h.fetches)
  {
    var s := Final(cfg, run);
    Reachable(cfg, run);
    BeyondBound(cfg, book, run, first);
    var f := FetchedFrom(s, first);
    if 1 in f {
      ShortFirstPage(cfg, book, run);
      assert f == {1};
    } else {
      assert forall p :: p in f ==> p in Beyond(s, first);
      SubsetSize(f, Beyond(s, first));
    }
  }

  /** A short first page ends the walk before it has begun. */
  lemma {:induction false} ShortFirstPage<T>(cfg: Config, book: seq<seq<T>>, run: Run<T>)
    requires cfg.Valid() && Paged(cfg, book) && IsRun(cfg, run) && ServesRun(book, run)
    requires !Full(cfg, book, 1)
    ensures var s := Final(cfg, run);
            && s.h.fetches == [1] && 0 < |s.pcs|
            && s.pcs[0].Main? && (s.pcs[0].m.FirstFetch? || s.pcs[0].m.FirstCall? || s.pcs[0].m.Done?)
  {
    Reachable(cfg, run);
    if run.Then? {
      Reachable(cfg, run.prev);
      ShortFirstPage(cfg, book, run.prev);
      ServedIsTruthful(cfg, book, run.prev);
      FirstPageOnly(cfg, book, Final(cfg, run.prev), run.ev);
    }
  }

  lemma FirstPageOnly<T>(cfg: Config, book: seq<seq<T>>, s: State<T>, ev: Event<T>)
    requires Paged(cfg, book) && Inv(cfg, s) && Truthful(book, s) && !Full(cfg, book, 1) && Enabled(cfg, s, ev)
    requires s.h.fetches == [1]
    requires s.pcs[0].Main? && (s.pcs[0].m.FirstFetch? || s.pcs[0].m.FirstCall? || s.pcs[0].m.Done?)
    ensures var t := Step(cfg, s, ev);
            && t.h.fetches == [1] && 0 < |t.pcs|
            && t.pcs[0].Main? && (t.pcs[0].m.FirstFetch? || t.pcs[0].m.FirstCall? || t.pcs[0].m.Done?)
  {
    assert AllQuiet(s);
    assert s.pcs[0].m.FirstCall? ==> s.h.got[1] == s.pcs[0].m.items;
  }

  // ------------------------------------------------- the marker ends the walk

  lemma {:induction false} MarkedHolds<T>(cfg: Config, run: Run<T>)
    requires cfg.Valid() && IsRun(cfg, run)
    ensures Marked(Final(cfg, run))
  {
    if run.Then? {
      MarkedHolds(cfg, run.prev);
      Reachable(cfg, run.prev);
      MarkedStep(cfg, Final(cfg, run.prev), run.ev);
    }
  }

  /** At most one page beyond the first n is dispatched, and that one was selected already. */
  ghost predicate Closing<T>(s: State<T>, n: nat)
    requires 0 < |s.pcs|
  {
    0 < s.v.short < n && (s.page == n || (s.page == n + 1 && s.pcs[0] != Main(Select)))
  }

  lemma ClosingStep<T>(cfg: Config, s: State<T>, n: nat, ev: Event<T>)
    requires Control(cfg, s) && Enabled(cfg, s, ev) && Closing(s, n)
    ensures 0 < |Step(cfg, s, ev).pcs| && Closing(Step(cfg, s, ev), n)
  {
    match ev
    case Act(a) =>
      match s.pcs[a] {
        case Work(w) => WorkGrows(s, a, w); MarkStays(s, a, w);
        case Drain(d) => DrainGrows(cfg, s, a, d);
        case _ =>
      }
    case _ =>
  }

  lemma MarkStays<T>(s: State<T>, a: nat, w: WorkPc<T>)
    requires a < |s.pcs| == |s.v.ready| == |s.v.pending| && s.pcs[a] == Work(w) && !w.InFetch?
    ensures s.v.short != 0 ==> WorkStep(s, a, w).v.short == s.v.short
  {
  }

  /** Once a short page has been seen, dispatching stops: at most one more worker is spawned, ever. */
  lemma {:induction false} DispatchStops<T(!new)>(cfg: Config, run: Run<T>, longer: Run<T>)
    requires cfg.Valid() && IsRun(cfg, longer) && Extends(longer, run)
    ensures IsRun(cfg, run)
    ensures Final(cfg, run).v.short != 0 ==>
              && Final(cfg, longer).page <= Final(cfg, run).page + 1
              && Final(cfg, longer).v.short == Final(cfg, run).v.short
  {
    ClosingHolds(cfg, run, longer);
  }

  lemma {:induction false} ClosingHolds<T(!new)>(cfg: Config, run: Run<T>, longer: Run<T>)
    requires cfg.Valid() && IsRun(cfg, longer) && Extends(longer, run)
    ensures IsRun(cfg, run)
    ensures var s, t := Final(cfg, run), Final(cfg, longer);
            s.v.short != 0 ==> 0 < |t.pcs| && Closing(t, s.page) && t.v.short == s.v.short
  {
    if longer == run {
      Reachable(cfg, run);
      MarkedHolds(cfg, run);
    } else {
      ClosingHolds(cfg, run, longer.prev);
      Reachable(cfg, longer.prev);
      var s := Final(cfg, longer.prev);
      if s.v.short != 0 {
        ShortStays(cfg, s, longer.ev);
        if Final(cfg, run).v.short != 0 {
          ClosingStep(cfg, s, Final(cfg, run).page, longer.ev);
        }
      }
    }
  }

  lemma ShortStays<T>(cfg: Config, s: State<T>, ev: Event<T>)
    requires Control(cfg, s) && Enabled(cfg, s, ev) && s.v.short != 0
    ensures Step(cfg, s, ev).v.short == s.v.short
  {
  }

  /** This page's worker has not loaded the marker yet, or has loaded it set, or will not fetch any more. */
  ghost predicate WillSkip<T>(s: State<T>, p: nat)
    requires p < |s.pcs|
  {
    && s.v.cancelled && s.v.short != 0 && p !in s.h.fetches
    && match s.pcs[p]
       case Idle => true
       case Work(w) => w.Load? || (w.Skip? && w.seen != 0) || w.Release?
       case Finish => true
       case Gone => true
       case _ => false
  }

  lemma WillSkipStep<T>(cfg: Config, s: State<T>, p: nat, ev: Event<T>)
    requires Safe(cfg, s) && 2 <= p < |s.pcs| && WillSkip(s, p) && Enabled(cfg, s, ev)
    ensures p < |Step(cfg, s, ev).pcs| && WillSkip(Step(cfg, s, ev), p)
  {
    ShortStays(cfg, s, ev);
    CancelledStays(cfg, s, ev);
    match ev
    case Act(a) =>
      match s.pcs[a] {
        case Work(w) => WillSkipWork(s, p, a, w);
        case Drain(d) => DrainGrows(cfg, s, a, d);
        case _ =>
      }
    case _ =>
  }

  lemma WillSkipWork<T>(s: State<T>, p: nat, a: nat, w: WorkPc<T>)
    requires a < |s.pcs| == |s.v.ready| == |s.v.pending| && s.pcs[a] == Work(w) && !w.InFetch?
    requires p < |s.pcs| && WillSkip(s, p)
    ensures p < |WorkStep(s, a, w).pcs| && WillSkip(WorkStep(s, a, w), p)
  {
  }

  /**
    Once the walk is cancelled and a short page has been seen, no page is fetched any more
    whose worker had not loaded the marker by then, earlier pages included.
   */
  lemma {:induction false} NoFetchAfterStop<T(!new)>(cfg: Config, run: Run<T>, longer: Run<T>, p: nat)
    requires cfg.Valid() && IsRun(cfg, longer) && Extends(longer, run) && 2 <= p <= cfg.maxPages
    ensures IsRun(cfg, run) && p < |Final(cfg, run).pcs| && p < |Final(cfg, longer).pcs|
    ensures var s := Final(cfg, run);
            s.v.cancelled && s.v.short != 0 && (s.pcs[p].Idle? || s.pcs[p] == Work(Load)) ==>
              WillSkip(Final(cfg, longer), p) && p !in Final(cfg, longer).h.fetches
  {
    Reachable(cfg, longer);
    if longer == run {
      assert PageOk(Final(cfg, run), p);
    } else {
      NoFetchAfterStop(cfg, run, longer.prev, p);
      Reachable(cfg, longer.prev);
      if WillSkip(Final(cfg, longer.prev), p) {
        WillSkipStep(cfg, Final(cfg, longer.prev), p, longer.ev);
      }
    }
  }
}
