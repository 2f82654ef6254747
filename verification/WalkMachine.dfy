/**
  walkPages and FetchPages in the source's own form: one object whose arrays and flags the
  goroutines update in place, one atomic action at a time.  Every action is proved to be the
  step of WalkModel, so that all theorems about runs hold of every execution of `Run`, which
  lets an arbitrary scheduler and environment choose among the enabled actions.
 */
module WalkMachine {
  import opened Common
  import opened WalkModel
  import opened WalkSafety
  import opened WalkOutcome
  import opened WalkBlame
  import opened WalkProgress
  import opened WalkRefinement
  import opened WalkCollection
  import opened WalkTheorems

  class Walk<T(!new)> {
    const cfg: Config
    const pcs: array<Pc<T>>
    const ready: array<bool>
    const pending: array<seq<T>>
    var page: nat
    var slots: nat
    var lock: Option<nat>
    var short: nat
    var items: nat
    var aborted: bool
    var cancelled: bool
    var firstErr: Option<WalkError>
    var delivered: nat
    var result: Option<WalkError>
    var h: History<T>

    ghost predicate Valid()
      reads this
    {
      && cfg.Valid()
      && pcs.Length == ready.Length == pending.Length == cfg.maxPages + 1
      && pcs as object != ready && pcs as object != pending && ready as object != pending
    }

    function Abs(): State<T>
      reads this, pcs, ready, pending
    {
      State(pcs[..], page, slots, lock,
            Vars(short, items, aborted, cancelled, firstErr, ready[..], pending[..], delivered, result), h)
    }

    constructor (c: Config)
      requires c.Valid()
      ensures Valid() && fresh(pcs) && fresh(ready) && fresh(pending)
      ensures cfg == c && Abs() == Init(c)
    {
      cfg := c;
      var n := c.maxPages + 1;
      pcs := new Pc<T>[n](i => if i == 0 then Main(FirstFetch) else Idle);
      ready := new bool[n](i => false);
      pending := new seq<T>[n](i => []);
      page, slots, lock := 2, 0, None;
      short, items, aborted, cancelled, firstErr, delivered, result := 0, 0, false, false, None, 0, None;
      h := History([1], map[], [], [], [], 0, false);
      new;
      assert pcs[..] == Init<T>(c).pcs;
      assert ready[..] == Init<T>(c).v.ready;
      assert pending[..] == Init<T>(c).v.pending;
    }

    /** The dispatcher outside its own drain (pagination.go:252-276, 278-289). */
    method Dispatch()
      requires Valid() && 1 < |Abs().pcs| && pcs[0].Main? && MainEnabled(cfg, Abs(), pcs[0].m)
      modifies this, pcs
      ensures Valid() && Abs() == MainStep(cfg, old(Abs()), old(pcs[0]).m)
    {
      match pcs[0].m
      case Test =>
        if page > cfg.maxPages || (short != 0 && page > short) {
          pcs[0] := Main(Wait);
        } else {
          pcs[0] := Main(Select);
        }
      case Select =>
        slots := slots + 1;
        pcs[0] := Main(Test);
        pcs[page] := Work(Load);
        page := page + 1;
      case Wait =>
        pcs[0] := Lock;
      case Collect =>
        result := firstErr;
        pcs[0] := Main(Done);
    }

    /** One action of `fail` (pagination.go:163-174). */
    method Fail(f: FailPc) returns (next: Option<FailPc>)
      requires Valid()
      modifies this
      ensures Valid() && Abs() == FailEffect(old(Abs()), f) && next == FailNext(f)
    {
      match f
      case SetErr(err) =>
        if firstErr.None? {
          firstErr := Some(err);
        }
        h := h.(errors := h.errors + [err]);
        next := Some(SetAborted);
      case SetAborted =>
        aborted := true;
        next := Some(Cancel);
      case Cancel =>
        cancelled := true;
        next := None;
    }

    /** One action of fetchAndRecord or of the deferred slot release (pagination.go:215-250, 272). */
    method WorkOn(p: nat)
      requires Valid() && p < pcs.Length && pcs[p].Work? && !pcs[p].w.InFetch?
      modifies this, pcs, ready, pending
      ensures Valid() && Abs() == WorkStep(old(Abs()), p, old(pcs[p]).w)
    {
      match pcs[p].w
      case Load =>
        pcs[p] := Work(Skip(short));
      case Skip(seen) =>
        if ShouldSkip(cancelled, seen, p) {
          pcs[p] := Work(Release);
        } else {
          pcs[p] := Work(Fetch);
        }
      case Fetch =>
        h := h.(fetches := h.fetches + [p]);
        pcs[p] := Work(InFetch);
      case Failed(cause) =>
        if short != 0 && cause.Canceled? {
          pcs[p] := Work(Release);
        } else {
          pcs[p] := Work(Abort(SetErr(FetchFailed(p, cause))));
        }
      case Abort(f) =>
        var next := Fail(f);
        pcs[p] := Work(if next.None? then Release else Abort(next.value));
      case Mark(xs) =>
        if short == 0 {
          short := p;
        }
        pcs[p] := Work(Count(xs));
      case Count(xs) =>
        items := items + |xs|;
        pcs[p] := Work(Record(xs));
      case Record(xs) =>
        ready[p] := true;
        pending[p] := xs;
        pcs[p] := Lock;
      case Release =>
        slots := if slots > 0 then slots - 1 else 0;
        pcs[p] := Finish;
    }

    /** One action of `drain` while deliverMu is held (pagination.go:180-211). */
    method DrainOn(a: nat)
      requires Valid() && a < pcs.Length && pcs[a].Drain? && !pcs[a].d.InCall?
      requires pcs[a].d.Read? || pcs[a].d.Advance? ==> delivered + 1 < ready.Length
      modifies this, pcs, pending
      ensures Valid() && Abs() == DrainStep(cfg, old(Abs()), a, old(pcs[a]).d)
    {
      match pcs[a].d
      case Check =>
        pcs[a] := Drain(if delivered < cfg.maxPages && !aborted then Read else Unlock);
      case Read =>
        var next := delivered + 1;
        pcs[a] := Drain(if ready[next] then Call(pending[next]) else Unlock);
      case Call(xs) =>
        h := h.(calls := h.calls + [delivered + 1], late := h.late + if aborted then 1 else 0);
        pcs[a] := Drain(InCall(xs));
      case Advance(xs) =>
        delivered := delivered + 1;
        pending[delivered] := [];
        h := h.(out := h.out + [xs]);
        pcs[a] := Drain(Check);
      case Fail(f) =>
        var next := Fail(f);
        pcs[a] := Drain(if next.None? then Unlock else DrainPc.Fail(next.value));
      case Unlock =>
        lock := None;
        pcs[a] := if a == 0 then Main(Collect) else Work(Release);
    }

    /** A call to fetch returns. */
    method FetchDone(a: nat, o: FetchOutcome<T>)
      requires Valid() && Enabled(cfg, Abs(), FetchReturns(a, o)) && (pcs[a].Main? ==> a == 0)
      modifies this, pcs
      ensures Valid() && Abs() == Step(cfg, old(Abs()), FetchReturns(a, o))
    {
      match o
      case Page(xs) =>
        if pcs[a].Main? {
          h := h.(got := h.got[1 := xs], calls := h.calls + [1]);
          pcs[a] := Main(FirstCall(xs));
        } else {
          h := h.(got := h.got[a := xs]);
          pcs[a] := Work(if |xs| < cfg.perPage then Mark(xs) else Count(xs));
        }
      case Failure(cause) =>
        if pcs[a].Main? {
          result := Some(FetchFailed(1, cause));
          pcs[a] := Main(Done);
        } else {
          pcs[a] := Work(Failed(cause));
        }
    }

    /** A call to onPage returns. */
    method CallDone(a: nat, f: Option<Cause>)
      requires Valid() && Enabled(cfg, Abs(), CallReturns(a, f)) && (pcs[a].Main? ==> a == 0)
      modifies this, pcs, ready, pending
      ensures Valid() && Abs() == Step(cfg, old(Abs()), CallReturns(a, f))
    {
      match pcs[a]
      case Main(m) =>
        match f {
          case Some(cause) =>
            result := Some(CallbackFailed(1, cause));
            pcs[0] := Main(Done);
          case None =>
            items := |m.items|;
            ready[1] := true;
            pending[1] := m.items;
            delivered := 1;
            h := h.(out := [m.items]);
            pcs[0] := Main(if |m.items| < cfg.perPage || cfg.maxPages == 1 then Done else Test);
        }
      case Drain(d) =>
        match f {
          case None => pcs[a] := Drain(Advance(d.items));
          case Some(cause) => pcs[a] := Drain(DrainPc.Fail(SetErr(CallbackFailed(delivered + 1, cause))));
        }
    }

    /** The action an event stands for. */
    method Perform(ev: Event<T>)
      requires Valid() && Safe(cfg, Abs()) && Enabled(cfg, Abs(), ev)
      modifies this, pcs, ready, pending
      ensures Valid() && Abs() == Step(cfg, old(Abs()), ev)
    {
      match ev
      case CallerCancels =>
        cancelled := true;
        h := h.(byCaller := true);
      case SelectDone => pcs[0] := Main(Wait);
      case FetchReturns(a, o) => FetchDone(a, o);
      case CallReturns(a, f) => CallDone(a, f);
      case Act(a) =>
        match pcs[a] {
          case Main(_) => Dispatch();
          case Work(_) => WorkOn(a);
          case Drain(_) => DrainOn(a);
          case Lock =>
            lock := Some(a);
            pcs[a] := Drain(Check);
          case Finish => pcs[a] := Gone;
        }
    }

    /**
      Any execution: while walkPages has not returned, some enabled action happens.  It always
      returns, and what it has done by then is a run of the model.  With `infallible`, onPage
      is a callback that never fails.
     */
    method Run(infallible: bool) returns (ghost run: Run<T>)
      requires Valid() && Abs() == Init(cfg)
      modifies this, pcs, ready, pending
      ensures Valid()
      ensures IsRun(cfg, run) && Abs() == Final(cfg, run) && Finished(Abs())
      ensures infallible ==> CallbacksSucceed(run)
    {
      run := Start;
      while !Finished(Abs())
        invariant Valid() && IsRun(cfg, run) && Abs() == Final(cfg, run)
        invariant infallible ==> CallbacksSucceed(run)
        decreases 25 * cfg.maxPages - run.Length()
      {
        MoreToCome(cfg, run);
        var ev: Event<T> :| Enabled(cfg, Abs(), ev) && (infallible && ev.CallReturns? ==> ev.failure.None?);
        Perform(ev);
        run := Then(run, ev);
        RunsAreShort(cfg, run);
      }
    }
  }

  lemma MoreToCome<T(!new)>(cfg: Config, run: Run<T>)
    requires cfg.Valid() && IsRun(cfg, run) && !Finished(Final(cfg, run))
    ensures Safe(cfg, Final(cfg, run))
    ensures exists ev: Event<T> :: Benign(ev) && Enabled(cfg, Final(cfg, run), ev)
  {
    Reachable(cfg, run);
    NotStuck(cfg, Final(cfg, run));
  }

  /** PaginationOptions; OnProgress only observes and is left out. */
  datatype Options = Options(maxPages: int, perPage: int, concurrency: int)

  datatype Error = InvalidPagination | WalkFailed(err: WalkError)

  const DEFAULT_PER_PAGE := 100
  const DEFAULT_CONCURRENCY := 3

  /** Zero and negative values mean the defaults (pagination.go:118-124). */
  function Resolve(o: Options): Config
    requires o.maxPages >= 1
  {
    Config(o.maxPages,
           if o.perPage <= 0 then DEFAULT_PER_PAGE else o.perPage,
           if o.concurrency <= 0 then DEFAULT_CONCURRENCY else o.concurrency)
  }

  /** The first items of a collection, as many as fit on so many pages. */
  function FirstPages<T>(c: seq<T>, pages: nat, size: nat): seq<T> {
    c[..Min(pages * size, |c|)]
  }

  /** At every point of the run no more workers hold slots than this. */
  ghost predicate NeverMoreThan<T(!new)>(cfg: Config, run: Run<T>, workers: int) {
    forall r: Run<T> :: Extends(run, r) ==> IsRun(cfg, r) && |Holders(Final(cfg, r).pcs)| <= workers
  }

  lemma {:induction false} HoldersBounded<T(!new)>(cfg: Config, run: Run<T>)
    requires cfg.Valid() && IsRun(cfg, run)
    ensures NeverMoreThan(cfg, run, cfg.concurrency)
  {
    forall r: Run<T> | Extends(run, r)
      ensures IsRun(cfg, r) && |Holders(Final(cfg, r).pcs)| <= cfg.concurrency
    {
      PartIsRun(cfg, run, r);
      Reachable(cfg, r);
    }
  }

  lemma {:induction false} PartIsRun<T(!new)>(cfg: Config, run: Run<T>, r: Run<T>)
    requires IsRun(cfg, run) && Extends(run, r)
    ensures IsRun(cfg, r)
  {
    if run != r {
      PartIsRun(cfg, run.prev, r);
    }
  }

  /** No page beyond the caller's cap is fetched, none twice, and all are handed over in order. */
  ghost predicate WithinCap<T>(s: State<T>, maxPages: int) {
    && Distinct(s.h.fetches) && (forall p :: p in s.h.fetches ==> 1 <= p <= maxPages)
    && |s.h.out| <= maxPages
    && forall i :: 0 <= i < |s.h.out| ==> i + 1 in s.h.got && s.h.out[i] == s.h.got[i + 1]
  }

  lemma CapHolds<T>(cfg: Config, run: Run<T>)
    requires cfg.Valid() && IsRun(cfg, run)
    ensures WithinCap(Final(cfg, run), cfg.maxPages)
  {
    Reachable(cfg, run);
    DeliveryInOrder(cfg, run);
  }

  /**
    walkPages, which StreamPages returns as it is: the error and the pages onPage has accepted.
    In terms of the caller's options: no more than Concurrency workers at once, or 3 if that is
    not positive, and MaxPages pages; an error is one that fetch or onPage returned, for its
    page; and if the server is honest about some collection and nobody cancels, nil means its
    first MaxPages pages, of 100 items each if PerPage is not positive.
   */
  method WalkPages<T(!new)>(o: Options, infallible: bool) returns (err: Option<Error>, out: seq<seq<T>>, ghost run: Run<T>)
    ensures o.maxPages < 1 ==> err == Some(InvalidPagination) && out == []
    ensures infallible ==> CallbacksSucceed(run)
    ensures o.maxPages >= 1 ==>
              Resolve(o) == Config(o.maxPages, if o.perPage > 0 then o.perPage else 100, if o.concurrency > 0 then o.concurrency else 3)
    ensures o.maxPages >= 1 ==>
              && IsRun(Resolve(o), run) && Finished(Final(Resolve(o), run))
              && out == Final(Resolve(o), run).h.out
              && err == match Final(Resolve(o), run).v.result
                        case None => None
                        case Some(e) => Some(WalkFailed(e))
    ensures o.maxPages >= 1 ==>
              && NeverMoreThan(Resolve(o), run, if o.concurrency > 0 then o.concurrency else 3)
              && WithinCap(Final(Resolve(o), run), o.maxPages)
              && (err.Some? ==> err.value.WalkFailed? && Genuine(Resolve(o), run, err.value.err))
    ensures o.maxPages >= 1 && !CallerCancelled(run) && err.None? ==>
              forall c :: HonestRun(Resolve(o), BookOf(Resolve(o), c), run) ==>
                Flatten(out) == FirstPages(c, o.maxPages, if o.perPage > 0 then o.perPage else 100)
  {
    if o.maxPages < 1 {
      return Some(InvalidPagination), [], Start;
    }
    var w := new Walk<T>(Resolve(o));
    run := w.Run(infallible);
    out := w.h.out;
    err := if w.result.None? then None else Some(WalkFailed(w.result.value));
    HoldersBounded(Resolve(o), run);
    CapHolds(Resolve(o), run);
    if w.result.Some? {
      ErrorIsGenuine(Resolve(o), run, w.result.value);
    }
    if !CallerCancelled(run) && err.None? {
      OnlyTheCallerCancels(Resolve(o), run);
      forall c | HonestRun(Resolve(o), BookOf(Resolve(o), c), run)
        ensures Flatten(out) == FirstPages(c, o.maxPages, if o.perPage > 0 then o.perPage else 100)
      {
        RefinesSequentialWalk(Resolve(o), c, run);
      }
    }
  }

  /**
    FetchPages: for every collection the server may hold, an uncancelled call returns an error
    exactly when some fetch failed, and then one of these failures; otherwise it returns the
    first MaxPages pages of items, as the sequential page loop does.  Its callback appends and
    never fails.
   */
  method FetchPages<T(!new)>(o: Options) returns (err: Option<Error>, all: seq<T>, ghost run: Run<T>)
    ensures err.Some? ==> all == []
    ensures o.maxPages < 1 ==> err == Some(InvalidPagination)
    ensures o.maxPages >= 1 ==>
              Resolve(o) == Config(o.maxPages, if o.perPage > 0 then o.perPage else 100, if o.concurrency > 0 then o.concurrency else 3)
    ensures o.maxPages >= 1 ==>
              && IsRun(Resolve(o), run) && Finished(Final(Resolve(o), run)) && CallbacksSucceed(run)
              && NeverMoreThan(Resolve(o), run, if o.concurrency > 0 then o.concurrency else 3)
              && WithinCap(Final(Resolve(o), run), o.maxPages)
              && (err.Some? ==> err.value.WalkFailed? && Genuine(Resolve(o), run, err.value.err))
    ensures o.maxPages >= 1 && !CallerCancelled(run) ==>
              forall c :: HonestRun(Resolve(o), BookOf(Resolve(o), c), run) ==>
                && (err.None? <==> FetchesSucceed(run))
                && (err.None? ==> all == FirstPages(c, o.maxPages, if o.perPage > 0 then o.perPage else 100) == SequentialWalk(c, Resolve(o), 1))
  {
    var out;
    err, out, run := WalkPages(o, true);
    all := if err.None? then Flatten(out) else [];
    if o.maxPages >= 1 && !CallerCancelled(run) {
      OnlyTheCallerCancels(Resolve(o), run);
      forall c | HonestRun(Resolve(o), BookOf(Resolve(o), c), run)
        ensures err.None? <==> FetchesSucceed(run)
        ensures err.None? ==> all == FirstPages(c, o.maxPages, if o.perPage > 0 then o.perPage else 100) == SequentialWalk(c, Resolve(o), 1)
      {
        ErrorIffFailure(Resolve(o), c, run);
        if err.None? {
          RefinesSequentialWalk(Resolve(o), c, run);
        }
      }
    }
  }

  lemma {:induction false} OnlyTheCallerCancels<T>(cfg: Config, run: Run<T>)
    requires cfg.Valid() && IsRun(cfg, run)
    ensures Final(cfg, run).h.byCaller == CallerCancelled(run)
  {
    if run.Then? {
      OnlyTheCallerCancels(cfg, run.prev);
      Reachable(cfg, run.prev);
      StepGrows(cfg, Final(cfg, run.prev), run.ev);
    }
  }
}
