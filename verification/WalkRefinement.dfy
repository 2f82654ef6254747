/**
  When short pages are at the end of the listing only, no schedule skips a page that is
  needed: the concurrent walk delivers what the trivial sequential page loop delivers.
 */
module WalkRefinement {
  import opened Common
  import opened WalkModel
  import opened WalkSafety
  import opened WalkOutcome

  // ------------------------------------------------------------- the listing

  /** The server's pages; index 0 is not used. */
  predicate Full<T>(cfg: Config, book: seq<seq<T>>, p: int) {
    1 <= p < |book| && |book[p]| >= cfg.perPage
  }

  /** What the walk relies on (pagination.go:50-52): short pages occur only at the end. */
  ghost predicate Paged<T>(cfg: Config, book: seq<seq<T>>) {
    && |book| == cfg.maxPages + 1
    && forall p, q :: 1 <= p <= q && Full(cfg, book, q) ==> Full(cfg, book, p)
  }

  // --------------------------------------------------------- an honest server

  /** A successful fetch of page p returns page p of the book. */
  ghost predicate Serves<T>(book: seq<seq<T>>, ev: Event<T>) {
    ev.FetchReturns? && ev.outcome.Page? ==> PageOf(ev.agent) < |book| && ev.outcome.items == book[PageOf(ev.agent)]
  }

  ghost predicate ServesRun<T>(book: seq<seq<T>>, run: Run<T>) {
    run.Then? ==> ServesRun(book, run.prev) && Serves(book, run.ev)
  }

  /** An early cancellation: a fetch reports context.Canceled although its context is not cancelled. */
  predicate Untimely<T>(s: State<T>, ev: Event<T>) {
    ev.FetchReturns? && ev.outcome == Failure(Canceled) && !s.v.cancelled
  }

  /** The server serves the book and never cancels a fetch of its own accord; it may fail it otherwise. */
  ghost predicate Honest<T>(book: seq<seq<T>>, s: State<T>, ev: Event<T>) {
    Serves(book, ev) && !Untimely(s, ev)
  }

  /** The server is honest at every event of the run. */
  ghost predicate HonestRun<T(!new)>(cfg: Config, book: seq<seq<T>>, run: Run<T>) {
    forall r: Run<T> :: Extends(run, r) ==> HonestLast(cfg, book, r)
  }

  ghost predicate HonestLast<T>(cfg: Config, book: seq<seq<T>>, run: Run<T>) {
    run.Then? ==>
      match Exec(cfg, run.prev)
      case None => true
      case Some(s) => Honest(book, s, run.ev)
  }

  lemma HonestBefore<T(!new)>(cfg: Config, book: seq<seq<T>>, run: Run<T>)
    requires IsRun(cfg, run) && run.Then? && HonestRun(cfg, book, run)
    ensures HonestRun(cfg, book, run.prev)
    ensures Honest(book, Final(cfg, run.prev), run.ev)
  {
    assert HonestLast(cfg, book, run) by { assert Extends(run, run); }
    forall r: Run<T> | Extends(run.prev, r)
      ensures HonestLast(cfg, book, r)
    {
      assert Extends(run, r);
    }
  }

  lemma {:induction false} HonestServes<T(!new)>(cfg: Config, book: seq<seq<T>>, run: Run<T>)
    requires IsRun(cfg, run) && HonestRun(cfg, book, run)
    ensures ServesRun(book, run)
  {
    if run.Then? {
      HonestBefore(cfg, book, run);
      HonestServes(cfg, book, run.prev);
    }
  }

  /** No page is fetched twice. */
  lemma NewPage<T>(cfg: Config, s: State<T>, ev: Event<T>)
    requires Safe(cfg, s) && Enabled(cfg, s, ev) && ev.FetchReturns?
    ensures PageOf(ev.agent) !in s.h.got
  {
    if ev.agent == 0 {
      assert s.pcs[0].Dispatcher() && s.pcs[0].m.FirstFetch?;
      assert BeforeWalk(s);
      assert 1 !in s.h.got;
    } else {
      assert PageOk(s, ev.agent);
      assert ev.agent !in s.h.got;
    }
  }

  /** So what has been fetched in the end tells whether the book was served. */
  lemma {:induction false} ServedAsGot<T>(cfg: Config, book: seq<seq<T>>, run: Run<T>)
    requires cfg.Valid() && IsRun(cfg, run) && Truthful(book, Final(cfg, run))
    ensures ServesRun(book, run)
  {
    if run.Then? {
      var s, ev := Final(cfg, run.prev), run.ev;
      Reachable(cfg, run.prev);
      ServedBefore(cfg, book, s, ev);
      ServedAsGot(cfg, book, run.prev);
    }
  }

  lemma ServedBefore<T>(cfg: Config, book: seq<seq<T>>, s: State<T>, ev: Event<T>)
    requires Inv(cfg, s) && Enabled(cfg, s, ev) && Truthful(book, Step(cfg, s, ev))
    ensures Truthful(book, s) && Serves(book, ev)
  {
    StepGrows(cfg, s, ev);
    if ev.FetchReturns? {
      NewPage(cfg, s, ev);
    }
    var t := Step(cfg, s, ev);
    assert forall p :: p in s.h.got ==> p in t.h.got && t.h.got[p] == s.h.got[p];
    assert ev.FetchReturns? && ev.outcome.Page? ==> PageOf(ev.agent) in t.h.got;
  }

  // ------------------------------------------------------------ the invariant

  /** No needed page is skipped: a page whose predecessor is full ends up recorded, or the walk has failed. */
  ghost predicate NeedOk<T>(cfg: Config, book: seq<seq<T>>, s: State<T>, p: nat)
    requires 2 <= p < |s.pcs| == |s.v.ready|
  {
    match s.pcs[p]
    case Work(w) => (
      match w
      case Skip(seen) => seen == 0 || !Full(cfg, book, seen)
      case Mark(items) => |items| < cfg.perPage
      case Failed(cause) => cause.Canceled? ==> s.h.errors != []
      case Release => Full(cfg, book, p - 1) ==> s.v.ready[p] || s.h.errors != []
      case _ => true)
    case Lock => s.v.ready[p]
    case Drain(_) => s.v.ready[p]
    case Finish => Full(cfg, book, p - 1) ==> s.v.ready[p] || s.h.errors != []
    case Gone => Full(cfg, book, p - 1) ==> s.v.ready[p] || s.h.errors != []
    case _ => true
  }

  /** Everything fetched is the page it should be. */
  ghost predicate Truthful<T>(book: seq<seq<T>>, s: State<T>) {
    forall p :: p in s.h.got ==> 1 <= p < |book| && s.h.got[p] == book[p]
  }

  predicate LoopOver<T>(s: State<T>)
    requires 0 < |s.pcs|
  {
    s.v.delivered >= 1 &&
    (s.pcs[0].Main? ==> s.pcs[0].m.Wait? || s.pcs[0].m.Collect? || s.pcs[0].m.Done?)
  }

  ghost predicate Faithful<T>(cfg: Config, book: seq<seq<T>>, s: State<T>)
    requires Control(cfg, s)
  {
    && (s.v.short != 0 ==> !Full(cfg, book, s.v.short))
    && (forall p :: 2 <= p < |s.pcs| ==> NeedOk(cfg, book, s, p))
    && (LoopOver(s) ==> s.page > cfg.maxPages || !Full(cfg, book, s.page - 1) || s.h.errors != [])
  }

  lemma NeedSkip<T>(cfg: Config, book: seq<seq<T>>, s: State<T>, a: nat, seen: nat)
    requires Paged(cfg, book) && Failures(s) && !s.h.byCaller
    requires 2 <= a < |s.pcs| == |s.v.ready| == |s.v.pending| && s.pcs[a] == Work(Skip(seen))
    requires NeedOk(cfg, book, s, a)
    ensures NeedOk(cfg, book, WorkStep(s, a, Skip(seen)), a)
  {
  }

  lemma NeedWork<T>(cfg: Config, book: seq<seq<T>>, s: State<T>, a: nat, w: WorkPc<T>)
    requires Paged(cfg, book) && Failures(s) && Truthful(book, s) && !s.h.byCaller
    requires 2 <= a < |s.pcs| == |s.v.ready| == |s.v.pending| && s.pcs[a] == Work(w) && !w.InFetch?
    requires PageOk(s, a) && NeedOk(cfg, book, s, a) && (s.v.short != 0 ==> !Full(cfg, book, s.v.short))
    ensures var t := WorkStep(s, a, w);
            && a < |t.pcs| == |t.v.ready| && NeedOk(cfg, book, t, a)
            && (t.v.short != 0 ==> !Full(cfg, book, t.v.short))
  {
    assert FailOk(s, s.pcs[a]);
    match w
    case Skip(seen) => NeedSkip(cfg, book, s, a, seen);
    case Load => case Fetch => case Failed(_) => case Abort(_) => case Mark(_) =>
    case Count(_) => case Record(_) => case Release =>
  }

  /** What a step of goroutine a must not disturb for the other pages. */
  lemma NeedOthers<T>(cfg: Config, book: seq<seq<T>>, s: State<T>, a: nat, t: State<T>)
    requires Control(cfg, s) && Shape(cfg, t) && Faithful(cfg, book, s) && a < |s.pcs|
    requires t.pcs == s.pcs[a := t.pcs[a]] && s.h.errors <= t.h.errors
    requires forall p :: 0 <= p < |s.v.ready| && s.v.ready[p] ==> t.v.ready[p]
    requires 2 <= a ==> NeedOk(cfg, book, t, a)
    ensures forall p :: 2 <= p < |t.pcs| ==> NeedOk(cfg, book, t, p)
  {
    forall p | 2 <= p < |t.pcs|
      ensures NeedOk(cfg, book, t, p)
    {
      assert NeedOk(cfg, book, s, p);
    }
  }

  lemma FaithfulWork<T>(cfg: Config, book: seq<seq<T>>, s: State<T>, a: nat, w: WorkPc<T>)
    requires Paged(cfg, book) && Inv(cfg, s) && Truthful(book, s) && Faithful(cfg, book, s) && !s.h.byCaller
    requires Enabled(cfg, s, Act(a)) && s.pcs[a] == Work(w)
    ensures Control(cfg, WorkStep(s, a, w)) && Faithful(cfg, book, WorkStep(s, a, w))
  {
    var t := WorkStep(s, a, w);
    ControlAct(cfg, s, a);
    assert 2 <= a && PageOk(s, a) && NeedOk(cfg, book, s, a);
    NeedWork(cfg, book, s, a, w);
    WorkGrows(s, a, w);
    NeedOthers(cfg, book, s, a, t);
  }

  lemma FaithfulDrain<T>(cfg: Config, book: seq<seq<T>>, s: State<T>, a: nat, d: DrainPc<T>)
    requires Paged(cfg, book) && Inv(cfg, s) && Faithful(cfg, book, s)
    requires Enabled(cfg, s, Act(a)) && s.pcs[a] == Drain(d)
    ensures Control(cfg, DrainStep(cfg, s, a, d)) && Faithful(cfg, book, DrainStep(cfg, s, a, d))
  {
    var t := DrainStep(cfg, s, a, d);
    ControlAct(cfg, s, a);
    assert 2 <= a ==> NeedOk(cfg, book, s, a);
    assert s.v.delivered >= 1;
    DrainGrows(cfg, s, a, d);
    assert LoopOver(t) ==> LoopOver(s);
    NeedOthers(cfg, book, s, a, t);
  }

  lemma FaithfulOther<T>(cfg: Config, book: seq<seq<T>>, s: State<T>, a: nat)
    requires Paged(cfg, book) && Inv(cfg, s) && Faithful(cfg, book, s) && Enabled(cfg, s, Act(a))
    requires !s.pcs[a].Work? && !s.pcs[a].Drain? && s.pcs[a] != Main(Select)
    ensures var t := Step(cfg, s, Act(a)); Control(cfg, t) && Faithful(cfg, book, t)
  {
    var t := Step(cfg, s, Act(a));
    ControlAct(cfg, s, a);
    assert 2 <= a ==> NeedOk(cfg, book, s, a);
    assert 0 < s.v.short < s.page && Full(cfg, book, s.page - 1) ==> Full(cfg, book, s.v.short);
    NeedOthers(cfg, book, s, a, t);
  }

  lemma FaithfulSpawn<T>(cfg: Config, book: seq<seq<T>>, s: State<T>)
    requires Paged(cfg, book) && Inv(cfg, s) && Faithful(cfg, book, s)
    requires s.pcs[0] == Main(Select) && MainEnabled(cfg, s, Select)
    ensures var t := MainStep(cfg, s, Select); Control(cfg, t) && Faithful(cfg, book, t)
  {
    var t := MainStep(cfg, s, Select);
    SpawnKeepsControl(cfg, s);
    forall p | 2 <= p < |t.pcs|
      ensures NeedOk(cfg, book, t, p)
    {
      assert NeedOk(cfg, book, s, p);
    }
  }

  lemma FaithfulFetch<T>(cfg: Config, book: seq<seq<T>>, s: State<T>, a: nat, o: FetchOutcome<T>)
    requires Paged(cfg, book) && Inv(cfg, s) && Truthful(book, s) && Faithful(cfg, book, s) && !s.h.byCaller
    requires Enabled(cfg, s, FetchReturns(a, o)) && Honest(book, s, FetchReturns(a, o))
    ensures var t := Step(cfg, s, FetchReturns(a, o)); Control(cfg, t) && Faithful(cfg, book, t)
  {
    var t := Step(cfg, s, FetchReturns(a, o));
    ControlStep(cfg, s, FetchReturns(a, o));
    NeedOthers(cfg, book, s, a, t);
  }

  lemma FaithfulCall<T>(cfg: Config, book: seq<seq<T>>, s: State<T>, a: nat, f: Option<Cause>)
    requires Paged(cfg, book) && Inv(cfg, s) && Truthful(book, s) && Faithful(cfg, book, s) && Enabled(cfg, s, CallReturns(a, f))
    ensures var t := Step(cfg, s, CallReturns(a, f)); Control(cfg, t) && Faithful(cfg, book, t)
  {
    var t := Step(cfg, s, CallReturns(a, f));
    ControlStep(cfg, s, CallReturns(a, f));
    ReturnGrows(cfg, s, CallReturns(a, f));
    assert 2 <= a ==> NeedOk(cfg, book, s, a);
    NeedOthers(cfg, book, s, a, t);
    if s.pcs[a].Main? {
      assert s.h.got[1] == s.pcs[0].m.items;
    }
  }

  lemma FaithfulStep<T>(cfg: Config, book: seq<seq<T>>, s: State<T>, ev: Event<T>)
    requires Paged(cfg, book) && Inv(cfg, s) && Truthful(book, s) && Faithful(cfg, book, s) && !s.h.byCaller
    requires Enabled(cfg, s, ev) && Honest(book, s, ev) && !ev.CallerCancels?
    ensures var t := Step(cfg, s, ev); Control(cfg, t) && Faithful(cfg, book, t)
  {
    match ev
    case SelectDone =>
      ControlStep(cfg, s, ev);
      NeedOthers(cfg, book, s, 0, Step(cfg, s, ev));
    case FetchReturns(a, o) => FaithfulFetch(cfg, book, s, a, o);
    case CallReturns(a, f) => FaithfulCall(cfg, book, s, a, f);
    case Act(a) =>
      match s.pcs[a] {
        case Work(w) => FaithfulWork(cfg, book, s, a, w);
        case Drain(d) => FaithfulDrain(cfg, book, s, a, d);
        case Main(m) => if m.Select? { FaithfulSpawn(cfg, book, s); } else { FaithfulOther(cfg, book, s, a); }
        case Lock => FaithfulOther(cfg, book, s, a);
        case Finish => FaithfulOther(cfg, book, s, a);
      }
  }

  // ------------------------------------------------------------- the theorems

  lemma TruthfulStep<T>(cfg: Config, book: seq<seq<T>>, s: State<T>, ev: Event<T>)
    requires Paged(cfg, book) && Inv(cfg, s) && Truthful(book, s)
    requires Enabled(cfg, s, ev) && Serves(book, ev)
    ensures Truthful(book, Step(cfg, s, ev))
  {
    StepGrows(cfg, s, ev);
  }

  lemma {:induction false} ServedIsTruthful<T>(cfg: Config, book: seq<seq<T>>, run: Run<T>)
    requires cfg.Valid() && Paged(cfg, book) && IsRun(cfg, run) && ServesRun(book, run)
    ensures Truthful(book, Final(cfg, run))
  {
    if run.Then? {
      ServedIsTruthful(cfg, book, run.prev);
      Reachable(cfg, run.prev);
      TruthfulStep(cfg, book, Final(cfg, run.prev), run.ev);
    }
  }

  lemma {:induction false} HonestFaithful<T(!new)>(cfg: Config, book: seq<seq<T>>, run: Run<T>)
    requires cfg.Valid() && Paged(cfg, book) && IsRun(cfg, run) && HonestRun(cfg, book, run)
    requires !Final(cfg, run).h.byCaller
    ensures Control(cfg, Final(cfg, run)) && Faithful(cfg, book, Final(cfg, run))
  {
    Reachable(cfg, run);
    if run.Then? {
      var s := Final(cfg, run.prev);
      Reachable(cfg, run.prev);
      StepGrows(cfg, s, run.ev);
      HonestBefore(cfg, book, run);
      HonestServes(cfg, book, run.prev);
      ServedIsTruthful(cfg, book, run.prev);
      HonestFaithful(cfg, book, run.prev);
      FaithfulStep(cfg, book, s, run.ev);
    }
  }

  /** What the invariant says of a run: the marker is at or past the end, and needed pages are not lost. */
  lemma {:induction false} NeededPagesRecorded<T(!new)>(cfg: Config, book: seq<seq<T>>, run: Run<T>, p: nat)
    requires cfg.Valid() && Paged(cfg, book) && IsRun(cfg, run) && HonestRun(cfg, book, run)
    requires !Final(cfg, run).h.byCaller && 2 <= p <= cfg.maxPages
    ensures var s := Final(cfg, run);
            && (s.v.short != 0 ==> !Full(cfg, book, s.v.short))
            && (p < |s.pcs| && s.pcs[p].Gone? && Full(cfg, book, p - 1) && s.h.errors == [] ==>
                  p < |s.v.ready| && s.v.ready[p])
  {
    HonestFaithful(cfg, book, run);
    assert NeedOk(cfg, book, Final(cfg, run), p);
  }

  /** Whatever is cancelled and by whom, a walk that returns nil has handed over a prefix of the listing, page by page. */
  lemma {:induction false} NilIsPrefix<T>(cfg: Config, book: seq<seq<T>>, run: Run<T>)
    requires cfg.Valid() && Paged(cfg, book) && IsRun(cfg, run) && ServesRun(book, run)
    requires var s := Final(cfg, run); Finished(s) && s.v.result.None?
    ensures var s := Final(cfg, run); 1 <= |s.h.out| <= cfg.maxPages && s.h.out == book[1..|s.h.out| + 1]
  {
    var s := Final(cfg, run);
    Reachable(cfg, run);
    ServedIsTruthful(cfg, book, run);
    assert forall p :: 1 <= p <= s.v.delivered ==> s.v.ready[p] && s.h.out[p - 1] == book[p];
  }

  lemma NothingMissing<T>(cfg: Config, book: seq<seq<T>>, s: State<T>)
    requires Paged(cfg, book) && Control(cfg, s) && Delivery(cfg, s) && Failures(s) && Ending(cfg, s)
    requires Faithful(cfg, book, s) && Finished(s) && s.v.result.None?
    ensures s.v.delivered == cfg.maxPages || !Full(cfg, book, s.v.delivered)
  {
    var n := s.v.delivered + 1;
    if n < s.page {
      assert n <= cfg.maxPages ==> NeedOk(cfg, book, s, n);
    } else {
      assert Full(cfg, book, n - 1) ==> Full(cfg, book, s.page - 1);
    }
  }

  /** Without caller cancellation, nil means complete: up to the cap or the first short page. */
  lemma {:induction false} NilIsComplete<T(!new)>(cfg: Config, book: seq<seq<T>>, run: Run<T>)
    requires cfg.Valid() && Paged(cfg, book) && IsRun(cfg, run) && HonestRun(cfg, book, run)
    requires var s := Final(cfg, run); Finished(s) && s.v.result.None? && !s.h.byCaller
    ensures var s := Final(cfg, run); |s.h.out| == cfg.maxPages || !Full(cfg, book, |s.h.out|)
  {
    Reachable(cfg, run);
    HonestFaithful(cfg, book, run);
    NothingMissing(cfg, book, Final(cfg, run));
  }
}
