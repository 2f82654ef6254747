/**
  The pagination walk (pagination.go) as a state machine.

  Every atomic action of the dispatcher goroutine and of the page workers is one step:
  an atomic load, store, add or compare-and-swap, one critical section under `mu`,
  acquiring or releasing `deliverMu` or a semaphore slot, and the beginning and the end
  of every call to `fetch` and `onPage`.  The scheduler, the server, the callback and the
  caller's cancellation are the environment: they decide which event happens next.
 */
module WalkModel {
  import opened Common

  /** Options after their zero values have been defaulted (pagination.go:118-124). */
  datatype Config = Config(maxPages: nat, perPage: nat, concurrency: nat) {
    predicate Valid() {
      maxPages >= 1 && perPage >= 1 && concurrency >= 1
    }
  }

  /** Whether an error matches context.Canceled is all the walk asks of it. */
  datatype Cause = Canceled | Other(code: int)

  datatype WalkError = FetchFailed(page: nat, cause: Cause) | CallbackFailed(page: nat, cause: Cause)

  datatype FetchOutcome<T> = Page(items: seq<T>) | Failure(cause: Cause)

  /** The closure `fail`: set firstErr under mu, set aborted, cancel the walk context. */
  datatype FailPc = SetErr(err: WalkError) | SetAborted | Cancel

  /** The closure `drain` after it has locked deliverMu. */
  datatype DrainPc<T> =
    | Check | Read | Call(items: seq<T>) | InCall(items: seq<T>) | Advance(items: seq<T>)
    | Fail(f: FailPc) | Unlock

  /** fetchAndRecord up to its call of drain, and after it the deferred slot release. */
  datatype WorkPc<T> =
    | Load | Skip(seen: nat) | Fetch | InFetch | Failed(cause: Cause) | Abort(f: FailPc)
    | Mark(items: seq<T>) | Count(items: seq<T>) | Record(items: seq<T>) | Release

  /** Page 1, the dispatch loop, wg.Wait, and after the final drain the read of firstErr. */
  datatype MainPc<T> = FirstFetch | FirstCall(items: seq<T>) | Test | Select | Wait | Collect | Done

  /**
    Program counters.  Index 0 of `State.pcs` is the dispatcher and index p >= 2 the worker
    of page p; both run `drain`.
   */
  datatype Pc<T> = Main(m: MainPc<T>) | Idle | Work(w: WorkPc<T>) | Lock | Drain(d: DrainPc<T>) | Finish | Gone
  {
    /** As a worker, this goroutine occupies a semaphore slot. */
    predicate Holds() {
      Work? || Lock? || Drain?
    }

    predicate Dispatcher() {
      Main? || Lock? || Drain?
    }

    /** The items this worker has fetched and not yet recorded. */
    ghost predicate Carries(xs: seq<T>) {
      Work? && (w == Mark(xs) || w == Count(xs) || w == Record(xs))
    }

    predicate Carrying() {
      Work? && (w.Mark? || w.Count? || w.Record?)
    }

    /** A call to fetch is running. */
    predicate Fetching() {
      (Main? && m.FirstFetch?) || (Work? && w.InFetch?)
    }

    /** This worker has not got past setting the short-page marker. */
    predicate Early() {
      Work? && (w.Load? || w.Skip? || w.Fetch? || w.InFetch? || w.Mark?)
    }

    /** Its call to fetch has just returned an error. */
    predicate FetchFailed() {
      Work? && w.Failed?
    }

    /** A call to onPage is running. */
    predicate Calling() {
      (Main? && m.FirstCall?) || (Drain? && d.InCall?)
    }

    /** Not yet, or not, at the point where fetch is called. */
    predicate BeforeFetch() {
      Idle? || (Work? && (w.Load? || w.Skip? || w.Fetch?))
    }
  }

  /** The variables the closures share (pagination.go:144-156), and the value returned. */
  datatype Vars<T> = Vars(
    short: nat,
    items: nat,
    aborted: bool,
    cancelled: bool,
    firstErr: Option<WalkError>,
    ready: seq<bool>,
    pending: seq<seq<T>>,
    delivered: nat,
    result: Option<WalkError>)

  /**
    What has happened so far; no step reads it.  The pages whose fetch has begun, the items
    of the fetches that succeeded, the pages whose onPage has begun, the items handed to the
    onPage calls that returned nil, the errors recorded by `fail` in order, the number of
    onPage calls begun after `aborted` was set, and whether the caller has cancelled.
   */
  datatype History<T> = History(
    fetches: seq<nat>,
    got: map<nat, seq<T>>,
    calls: seq<nat>,
    out: seq<seq<T>>,
    errors: seq<WalkError>,
    late: nat,
    byCaller: bool)

  /** `page` is the dispatch loop's counter, `lock` the owner of deliverMu, `slots` the fill of sem. */
  datatype State<T> = State(pcs: seq<Pc<T>>, page: nat, slots: nat, lock: Option<nat>, v: Vars<T>, h: History<T>)

  datatype Event<T> =
    | Act(agent: nat)                                      // one internal action of a goroutine
    | SelectDone                                           // the dispatcher's select takes walkCtx.Done()
    | FetchReturns(agent: nat, outcome: FetchOutcome<T>)   // agent 0 is the lone fetch of page 1
    | CallReturns(agent: nat, failure: Option<Cause>)      // onPage returns nil or an error
    | CallerCancels                                        // the caller cancels ctx

  function Init<T>(cfg: Config): State<T> {
    var n := cfg.maxPages + 1;
    State(seq(n, i => if i == 0 then Main(FirstFetch) else Idle), 2, 0, None,
          Vars(0, 0, false, false, None, seq(n, i => false), seq(n, i => []), 0, None),
          History([1], map[], [], [], [], 0, false))
  }

  function Goto<T>(s: State<T>, a: nat, pc: Pc<T>): State<T>
    requires a < |s.pcs|
  {
    s.(pcs := s.pcs[a := pc])
  }

  /** shouldSkip (pagination.go:294-300), with the marker already loaded. */
  predicate ShouldSkip(cancelled: bool, seen: nat, page: nat) {
    (seen != 0 && page > seen) || (cancelled && seen != 0)
  }

  predicate AllQuiet<T>(s: State<T>) {
    forall p :: 2 <= p < |s.pcs| ==> s.pcs[p].Idle? || s.pcs[p].Gone?
  }

  predicate MainEnabled<T>(cfg: Config, s: State<T>, m: MainPc<T>) {
    match m
    case Test | Collect => true
    case Select => s.slots < cfg.concurrency && s.page < |s.pcs|
    case Wait => AllQuiet(s)
    case FirstFetch | FirstCall(_) | Done => false
  }

  predicate Enabled<T>(cfg: Config, s: State<T>, ev: Event<T>) {
    && 1 < |s.pcs| == |s.v.ready| == |s.v.pending|
    && match ev
       case CallerCancels => !s.h.byCaller && !(s.pcs[0].Main? && s.pcs[0].m.Done?)
       case SelectDone => s.pcs[0].Main? && s.pcs[0].m.Select? && s.v.cancelled
       case FetchReturns(a, _) => a < |s.pcs| && s.pcs[a].Fetching()
       case CallReturns(a, _) => a < |s.pcs| && s.pcs[a].Calling()
       case Act(a) =>
         && a < |s.pcs|
         && match s.pcs[a] {
            case Main(m) => a == 0 && MainEnabled(cfg, s, m)
            case Work(w) => !w.InFetch?
            case Lock => s.lock.None?
            case Drain(d) => !d.InCall? && (d.Read? || d.Advance? ==> s.v.delivered + 1 < |s.v.ready|)
            case Finish => true
            case Idle | Gone => false
            }
  }

  /** The dispatch loop, the barrier and the final read (pagination.go:252-289). */
  function MainStep<T>(cfg: Config, s: State<T>, m: MainPc<T>): State<T>
    requires 1 < |s.pcs| && MainEnabled(cfg, s, m)
  {
    match m
    case Test =>
      if s.page > cfg.maxPages || (s.v.short != 0 && s.page > s.v.short)
      then Goto(s, 0, Main(Wait)) else Goto(s, 0, Main(Select))
    case Select =>
      s.(pcs := s.pcs[0 := Main(Test)][s.page := Work(Load)], slots := s.slots + 1, page := s.page + 1)
    case Wait => Goto(s, 0, Lock)
    case Collect => Goto(s, 0, Main(Done)).(v := s.v.(result := s.v.firstErr))
    case FirstFetch => s
    case FirstCall(_) => s
    case Done => s
  }

  /** The closure `fail` (pagination.go:163-174): its effect on the shared variables ... */
  function FailEffect<T>(s: State<T>, f: FailPc): State<T> {
    match f
    case SetErr(err) =>
      s.(v := s.v.(firstErr := if s.v.firstErr.None? then Some(err) else s.v.firstErr),
         h := s.h.(errors := s.h.errors + [err]))
    case SetAborted => s.(v := s.v.(aborted := true))
    case Cancel => s.(v := s.v.(cancelled := true))
  }

  /** ... and its next action; None when it returns. */
  function FailNext(f: FailPc): Option<FailPc> {
    match f
    case SetErr(_) => Some(SetAborted)
    case SetAborted => Some(Cancel)
    case Cancel => None
  }

  /** One page's work and its deferred slot release (pagination.go:215-250, 272). */
  function WorkStep<T>(s: State<T>, a: nat, w: WorkPc<T>): State<T>
    requires a < |s.pcs| == |s.v.ready| == |s.v.pending| && !w.InFetch?
  {
    match w
    case Load => Goto(s, a, Work(Skip(s.v.short)))
    case Skip(seen) => Goto(s, a, Work(if ShouldSkip(s.v.cancelled, seen, a) then Release else Fetch))
    case Fetch => Goto(s, a, Work(InFetch)).(h := s.h.(fetches := s.h.fetches + [a]))
    case InFetch => s
    case Failed(cause) =>
      Goto(s, a, Work(if s.v.short != 0 && cause.Canceled? then Release else Abort(SetErr(FetchFailed(a, cause)))))
    case Abort(f) =>
      Goto(FailEffect(s, f), a, Work(if FailNext(f).None? then Release else Abort(FailNext(f).value)))
    case Mark(items) => Goto(s, a, Work(Count(items))).(v := s.v.(short := if s.v.short == 0 then a else s.v.short))
    case Count(items) => Goto(s, a, Work(Record(items))).(v := s.v.(items := s.v.items + |items|))
    case Record(items) => Goto(s, a, Lock).(v := s.v.(ready := s.v.ready[a := true], pending := s.v.pending[a := items]))
    case Release => Goto(s, a, Finish).(slots := if s.slots > 0 then s.slots - 1 else 0)
  }

  /** The closure `drain` (pagination.go:180-211) while deliverMu is held. */
  function DrainStep<T>(cfg: Config, s: State<T>, a: nat, d: DrainPc<T>): State<T>
    requires a < |s.pcs| == |s.v.ready| == |s.v.pending| && !d.InCall?
    requires d.Read? || d.Advance? ==> s.v.delivered + 1 < |s.v.ready|
  {
    match d
    case Check => Goto(s, a, Drain(if s.v.delivered < cfg.maxPages && !s.v.aborted then Read else Unlock))
    case Read =>
      Goto(s, a, Drain(if s.v.ready[s.v.delivered + 1] then Call(s.v.pending[s.v.delivered + 1]) else Unlock))
    case Call(items) =>
      Goto(s, a, Drain(InCall(items))).(
        h := s.h.(calls := s.h.calls + [s.v.delivered + 1], late := s.h.late + if s.v.aborted then 1 else 0))
    case InCall(_) => s
    case Advance(items) =>
      Goto(s, a, Drain(Check)).(
        v := s.v.(delivered := s.v.delivered + 1, pending := s.v.pending[s.v.delivered + 1 := []]),
        h := s.h.(out := s.h.out + [items]))
    case Fail(f) =>
      Goto(FailEffect(s, f), a, Drain(if FailNext(f).None? then Unlock else Fail(FailNext(f).value)))
    case Unlock => Goto(s, a, if a == 0 then Main(Collect) else Work(Release)).(lock := None)
  }

  /** The lone fetch of page 1 returns (pagination.go:126-129). */
  function FirstFetchReturn<T>(s: State<T>, o: FetchOutcome<T>): State<T>
    requires 0 < |s.pcs|
  {
    match o
    case Page(items) => Goto(s, 0, Main(FirstCall(items))).(h := s.h.(got := s.h.got[1 := items], calls := s.h.calls + [1]))
    case Failure(cause) => Goto(s, 0, Main(Done)).(v := s.v.(result := Some(FetchFailed(1, cause))))
  }

  /** onPage(1) returns (pagination.go:133-161). */
  function FirstCallReturn<T>(cfg: Config, s: State<T>, items: seq<T>, f: Option<Cause>): State<T>
    requires 1 < |s.pcs| == |s.v.ready| == |s.v.pending|
  {
    match f
    case Some(cause) => Goto(s, 0, Main(Done)).(v := s.v.(result := Some(CallbackFailed(1, cause))))
    case None =>
      Goto(s, 0, Main(if |items| < cfg.perPage || cfg.maxPages == 1 then Done else Test)).(
        v := s.v.(items := |items|, ready := s.v.ready[1 := true], pending := s.v.pending[1 := items], delivered := 1),
        h := s.h.(out := [items]))
  }

  /** A worker's fetch returns (pagination.go:220-233). */
  function FetchReturn<T>(cfg: Config, s: State<T>, a: nat, o: FetchOutcome<T>): State<T>
    requires a < |s.pcs|
  {
    match o
    case Page(items) =>
      Goto(s, a, Work(if |items| < cfg.perPage then Mark(items) else Count(items))).(h := s.h.(got := s.h.got[a := items]))
    case Failure(cause) => Goto(s, a, Work(Failed(cause)))
  }

  /** onPage, called by drain, returns (pagination.go:200-204). */
  function CallReturn<T>(s: State<T>, a: nat, items: seq<T>, f: Option<Cause>): State<T>
    requires a < |s.pcs|
  {
    match f
    case None => Goto(s, a, Drain(Advance(items)))
    case Some(cause) => Goto(s, a, Drain(Fail(SetErr(CallbackFailed(s.v.delivered + 1, cause)))))
  }

  function Step<T>(cfg: Config, s: State<T>, ev: Event<T>): State<T>
    requires Enabled(cfg, s, ev)
  {
    match ev
    case CallerCancels => s.(v := s.v.(cancelled := true), h := s.h.(byCaller := true))
    case SelectDone => Goto(s, 0, Main(Wait))
    case FetchReturns(a, o) => if s.pcs[a].Main? then FirstFetchReturn(s, o) else FetchReturn(cfg, s, a, o)
    case CallReturns(a, f) =>
      if s.pcs[a].Main? then FirstCallReturn(cfg, s, s.pcs[a].m.items, f) else CallReturn(s, a, s.pcs[a].d.items, f)
    case Act(a) =>
      match s.pcs[a]
      case Main(m) => MainStep(cfg, s, m)
      case Work(w) => WorkStep(s, a, w)
      case Lock => Goto(s, a, Drain(Check)).(lock := Some(a))
      case Drain(d) => DrainStep(cfg, s, a, d)
      case _ => Goto(s, a, Gone)
  }

  /** A finite schedule: the events of a run, latest last. */
  datatype Run<T> = Start | Then(prev: Run<T>, ev: Event<T>) {
    function Length(): nat {
      if Start? then 0 else prev.Length() + 1
    }
  }

  /** The state a schedule leads to; None when some event was not enabled. */
  function Exec<T>(cfg: Config, run: Run<T>): Option<State<T>> {
    match run
    case Start => Some(Init(cfg))
    case Then(prev, ev) =>
      match Exec(cfg, prev)
      case None => None
      case Some(s) => if Enabled(cfg, s, ev) then Some(Step(cfg, s, ev)) else None
  }

  predicate IsRun<T>(cfg: Config, run: Run<T>) {
    Exec(cfg, run).Some?
  }

  function Final<T>(cfg: Config, run: Run<T>): State<T>
    requires IsRun(cfg, run)
  {
    Exec(cfg, run).value
  }

  /** The schedule goes on where `run` stopped. */
  ghost predicate Extends<T(!new)>(longer: Run<T>, run: Run<T>) {
    longer == run || (longer.Then? && Extends(longer.prev, run))
  }

  /** Every call to fetch that returned did so without error. */
  predicate FetchesSucceed<T>(run: Run<T>) {
    run.Then? ==> FetchesSucceed(run.prev) && (run.ev.FetchReturns? ==> run.ev.outcome.Page?)
  }

  /** Every call to onPage that returned, returned nil. */
  predicate CallbacksSucceed<T>(run: Run<T>) {
    run.Then? ==> CallbacksSucceed(run.prev) && (run.ev.CallReturns? ==> run.ev.failure.None?)
  }

  predicate FailureFree<T>(run: Run<T>) {
    FetchesSucceed(run) && CallbacksSucceed(run)
  }

  predicate CallerCancelled<T>(run: Run<T>) {
    run.Then? && (run.ev.CallerCancels? || CallerCancelled(run.prev))
  }
}
