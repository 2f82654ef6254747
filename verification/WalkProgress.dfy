/** Every schedule ends: no unfinished state is stuck, and every step uses up a finite measure. */
module WalkProgress {
  import opened Common
  import opened WalkModel
  import opened WalkSafety
  import opened WalkOutcome

  /** How many more steps a goroutine can take before it gains a page or ends. */
  function Rank<T>(pc: Pc<T>): nat {
    match pc
    case Idle => 0
    case Gone => 0
    case Finish => 1
    case Lock => 11
    case Main(m) => (
      match m
      case FirstFetch => 16 case FirstCall(_) => 15 case Test => 14 case Select => 13
      case Wait => 12 case Collect => 2 case Done => 0)
    case Work(w) => (
      match w
      case Load => 18 case Skip(_) => 17 case Fetch => 16 case InFetch => 15
      case Failed(_) => 6 case Abort(f) => 3 + FailRank(f)
      case Mark(_) => 14 case Count(_) => 13 case Record(_) => 12 case Release => 2)
    case Drain(d) => (
      match d
      case Check => 10 case Read => 9 case Call(_) => 8 case InCall(_) => 7 case Advance(_) => 6
      case Fail(f) => 4 + FailRank(f) case Unlock => 3)
  }

  function FailRank(f: FailPc): nat {
    match f case SetErr(_) => 2 case SetAborted => 1 case Cancel => 0
  }

  function Ranks<T>(pcs: seq<Pc<T>>): nat {
    if pcs == [] then 0 else Ranks(pcs[..|pcs| - 1]) + Rank(pcs[|pcs| - 1])
  }

  lemma {:induction false} RanksUpdate<T>(pcs: seq<Pc<T>>, a: nat, pc: Pc<T>)
    requires a < |pcs|
    ensures Ranks(pcs[a := pc]) == Ranks(pcs) - Rank(pcs[a]) + Rank(pc)
  {
    var n := |pcs| - 1;
    if a == n {
      assert pcs[a := pc][..n] == pcs[..n];
    } else {
      assert pcs[a := pc][..n] == pcs[..n][a := pc];
      RanksUpdate(pcs[..n], a, pc);
    }
  }

  ghost function Measure<T>(cfg: Config, s: State<T>): nat
    requires Safe(cfg, s)
  {
    Ranks(s.pcs) + 5 * (cfg.maxPages - s.v.delivered) + 20 * (cfg.maxPages + 1 - s.page)
    + if s.h.byCaller then 0 else 1
  }

  lemma WorkRank<T>(s: State<T>, a: nat, w: WorkPc<T>)
    requires a < |s.pcs| == |s.v.ready| == |s.v.pending| && s.pcs[a] == Work(w) && !w.InFetch?
    ensures var t := WorkStep(s, a, w);
            && t.pcs == s.pcs[a := t.pcs[a]] && Rank(t.pcs[a]) < Rank(s.pcs[a])
            && t.page == s.page && t.v.delivered == s.v.delivered && t.h.byCaller == s.h.byCaller
  {
  }

  lemma DrainRank<T>(cfg: Config, s: State<T>, a: nat, d: DrainPc<T>)
    requires a < |s.pcs| == |s.v.ready| == |s.v.pending| && s.pcs[a] == Drain(d) && !d.InCall?
    requires d.Read? || d.Advance? ==> s.v.delivered + 1 < |s.v.ready|
    ensures var t := DrainStep(cfg, s, a, d);
            && t.pcs == s.pcs[a := t.pcs[a]]
            && t.page == s.page && t.h.byCaller == s.h.byCaller && t.v.delivered >= s.v.delivered
            && Rank(t.pcs[a]) < Rank(s.pcs[a]) + 5 * (t.v.delivered - s.v.delivered)
  {
    match d
    case Check => case Read => case Call(_) => case Advance(_) => case Fail(_) => case Unlock =>
  }

  lemma ReturnRank<T>(cfg: Config, s: State<T>, ev: Event<T>)
    requires Enabled(cfg, s, ev) && (ev.FetchReturns? || ev.CallReturns?)
    requires s.pcs[ev.agent].Main? ==> ev.agent == 0 && s.v.delivered == 0
    ensures var t := Step(cfg, s, ev);
            && t.pcs == s.pcs[ev.agent := t.pcs[ev.agent]] && Rank(t.pcs[ev.agent]) < Rank(s.pcs[ev.agent])
            && t.page == s.page && t.h.byCaller == s.h.byCaller && t.v.delivered >= s.v.delivered
  {
  }

  /** One goroutine moves down, or up by less than the pages delivered meanwhile are worth. */
  lemma OneMoves<T>(cfg: Config, s: State<T>, a: nat, t: State<T>)
    requires Safe(cfg, s) && Safe(cfg, t) && a < |s.pcs| && t.pcs == s.pcs[a := t.pcs[a]]
    requires t.page == s.page && t.h.byCaller == s.h.byCaller && t.v.delivered >= s.v.delivered
    requires Rank(t.pcs[a]) < Rank(s.pcs[a]) + 5 * (t.v.delivered - s.v.delivered)
    ensures Measure(cfg, t) < Measure(cfg, s)
  {
    RanksUpdate(s.pcs, a, t.pcs[a]);
  }

  lemma SpawnDecreases<T>(cfg: Config, s: State<T>)
    requires Safe(cfg, s) && s.pcs[0] == Main(Select) && MainEnabled(cfg, s, Select)
    requires Safe(cfg, MainStep(cfg, s, Select))
    ensures Measure(cfg, MainStep(cfg, s, Select)) < Measure(cfg, s)
  {
    RanksUpdate(s.pcs, 0, Main(Test));
    RanksUpdate(s.pcs[0 := Main(Test)], s.page, Work(Load));
    assert s.pcs[s.page].Idle?;
  }

  lemma ActDecreases<T>(cfg: Config, s: State<T>, a: nat)
    requires Safe(cfg, s) && Enabled(cfg, s, Act(a))
    requires Safe(cfg, Step(cfg, s, Act(a)))
    ensures Measure(cfg, Step(cfg, s, Act(a))) < Measure(cfg, s)
  {
    match s.pcs[a]
    case Work(w) => WorkRank(s, a, w); OneMoves(cfg, s, a, WorkStep(s, a, w));
    case Drain(d) => DrainRank(cfg, s, a, d); OneMoves(cfg, s, a, DrainStep(cfg, s, a, d));
    case Main(m) => if m.Select? { SpawnDecreases(cfg, s); } else { OneMoves(cfg, s, a, MainStep(cfg, s, m)); }
    case Lock => OneMoves(cfg, s, a, Step(cfg, s, Act(a)));
    case Finish => OneMoves(cfg, s, a, Step(cfg, s, Act(a)));
  }

  lemma Decreases<T>(cfg: Config, s: State<T>, ev: Event<T>)
    requires Safe(cfg, s) && Enabled(cfg, s, ev)
    ensures Safe(cfg, Step(cfg, s, ev))
    ensures Measure(cfg, Step(cfg, s, ev)) < Measure(cfg, s)
  {
    DataStep(cfg, s, ev);
    match ev
    case CallerCancels =>
    case SelectDone => OneMoves(cfg, s, 0, Step(cfg, s, ev));
    case FetchReturns(a, _) => ReturnRank(cfg, s, ev); OneMoves(cfg, s, a, Step(cfg, s, ev));
    case CallReturns(a, _) => ReturnRank(cfg, s, ev); OneMoves(cfg, s, a, Step(cfg, s, ev));
    case Act(a) => ActDecreases(cfg, s, a);
  }

  /** Neither the caller's cancellation nor a failure is needed to go on. */
  predicate Benign<T>(ev: Event<T>) {
    && !ev.CallerCancels?
    && (ev.CallReturns? ==> ev.failure.None?)
    && (ev.FetchReturns? ==> ev.outcome.Page?)
  }

  /** The owner of deliverMu can always move on, once onPage returns. */
  lemma OwnerMoves<T>(cfg: Config, s: State<T>)
    requires Safe(cfg, s) && s.lock.Some?
    ensures exists ev: Event<T> :: Benign(ev) && Enabled(cfg, s, ev)
  {
    var o := s.lock.value;
    if s.pcs[o].d.InCall? {
      assert Enabled(cfg, s, CallReturns(o, None));
    } else {
      assert Enabled(cfg, s, Act(o));
    }
  }

  /** A worker that has not exited yet can move, or waits for deliverMu, whose owner can. */
  lemma WorkerMoves<T>(cfg: Config, s: State<T>, p: nat)
    requires Safe(cfg, s) && 2 <= p < |s.pcs| && !s.pcs[p].Idle? && !s.pcs[p].Gone?
    ensures exists ev: Event<T> :: Benign(ev) && Enabled(cfg, s, ev)
  {
    if s.lock.Some? {
      OwnerMoves(cfg, s);
    } else if s.pcs[p].Fetching() {
      assert Enabled(cfg, s, FetchReturns(p, Page([])));
    } else {
      assert Enabled(cfg, s, Act(p));
    }
  }

  /** No deadlock: while walkPages has not returned, some goroutine or its callee can move. */
  lemma NotStuck<T>(cfg: Config, s: State<T>)
    requires Inv(cfg, s) && !Finished(s)
    ensures exists ev: Event<T> :: Benign(ev) && Enabled(cfg, s, ev)
  {
    if p :| 2 <= p < |s.pcs| && !s.pcs[p].Idle? && !s.pcs[p].Gone? {
      WorkerMoves(cfg, s, p);
    } else if s.lock.Some? {
      OwnerMoves(cfg, s);
    } else if s.pcs[0].Fetching() {
      assert Enabled(cfg, s, FetchReturns(0, Page([])));
    } else if s.pcs[0].Calling() {
      assert Enabled(cfg, s, CallReturns(0, None));
    } else {
      assert Holders(s.pcs) == {};
      assert Enabled(cfg, s, Act(0));
    }
  }

  lemma {:induction false} InitRanks<T>(cfg: Config, n: nat)
    requires 1 <= n <= cfg.maxPages + 1
    ensures Ranks(Init<T>(cfg).pcs[..n]) == 16
  {
    var pcs := Init<T>(cfg).pcs;
    if n == 1 {
      assert pcs[..1][..0] == [];
    } else {
      assert pcs[..n][..n - 1] == pcs[..n - 1];
      InitRanks<T>(cfg, n - 1);
    }
  }

  /** No schedule has more than 25 * MaxPages - 3 steps. */
  lemma {:induction false} RunsAreShort<T>(cfg: Config, run: Run<T>)
    requires cfg.Valid() && IsRun(cfg, run)
    ensures Safe(cfg, Final(cfg, run))
    ensures run.Length() + Measure(cfg, Final(cfg, run)) <= 25 * cfg.maxPages - 3
  {
    Reachable(cfg, run);
    match run
    case Start =>
      InitRanks<T>(cfg, cfg.maxPages + 1);
      assert Init<T>(cfg).pcs[..cfg.maxPages + 1] == Init<T>(cfg).pcs;
    case Then(prev, ev) =>
      RunsAreShort(cfg, prev);
      Decreases(cfg, Final(cfg, prev), ev);
  }

  /** However far a walk has got, it can be brought to its end without the caller cancelling. */
  lemma {:induction false} CanFinish<T(!new)>(cfg: Config, run: Run<T>) returns (longer: Run<T>)
    requires cfg.Valid() && IsRun(cfg, run)
    ensures Extends(longer, run) && IsRun(cfg, longer) && Finished(Final(cfg, longer))
    ensures Final(cfg, longer).h.byCaller == Final(cfg, run).h.byCaller
    decreases 25 * cfg.maxPages - run.Length()
  {
    var s := Final(cfg, run);
    RunsAreShort(cfg, run);
    if Finished(s) {
      longer := run;
    } else {
      Reachable(cfg, run);
      NotStuck(cfg, s);
      var ev: Event<T> :| Benign(ev) && Enabled(cfg, s, ev);
      longer := CanFinish(cfg, Then(run, ev));
      ExtendsTail(longer, run, ev);
      OnlyCallerCancels(cfg, s, ev);
    }
  }

  lemma {:induction false} ExtendsTail<T(!new)>(longer: Run<T>, run: Run<T>, ev: Event<T>)
    requires Extends(longer, Then(run, ev))
    ensures Extends(longer, run)
  {
    if longer != Then(run, ev) {
      ExtendsTail(longer.prev, run, ev);
    }
  }

  lemma OnlyCallerCancels<T>(cfg: Config, s: State<T>, ev: Event<T>)
    requires Enabled(cfg, s, ev) && !ev.CallerCancels?
    ensures Step(cfg, s, ev).h.byCaller == s.h.byCaller
  {
  }
}
