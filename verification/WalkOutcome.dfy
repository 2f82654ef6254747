/** Failures, the value walkPages returns, and the count of fetched items. */
module WalkOutcome {
  import opened Common
  import opened WalkModel
  import opened WalkSafety

  ghost predicate Safe<T>(cfg: Config, s: State<T>) {
    Control(cfg, s) && Pages(cfg, s) && Delivery(cfg, s)
  }

  /** The page an event's goroutine works on; the dispatcher fetches page 1. */
  function PageOf(agent: nat): nat {
    if agent == 0 then 1 else agent
  }

  /** What no step undoes, and the one event that adds fetched items. */
  ghost predicate Grows<T>(s: State<T>, ev: Event<T>, t: State<T>) {
    && s.h.errors <= t.h.errors
    && (s.v.aborted ==> t.v.aborted)
    && |t.v.ready| == |s.v.ready|
    && (forall p :: 0 <= p < |s.v.ready| && s.v.ready[p] ==> t.v.ready[p])
    && s.page <= t.page && s.v.delivered <= t.v.delivered
    && t.h.byCaller == (s.h.byCaller || ev.CallerCancels?)
    && t.h.got == if ev.FetchReturns? && ev.outcome.Page? then s.h.got[PageOf(ev.agent) := ev.outcome.items] else s.h.got
  }

  lemma WorkGrows<T>(s: State<T>, a: nat, w: WorkPc<T>)
    requires a < |s.pcs| == |s.v.ready| == |s.v.pending| && s.pcs[a] == Work(w) && !w.InFetch?
    ensures var t := WorkStep(s, a, w);
            Grows(s, Act(a), t) && t.pcs == s.pcs[a := t.pcs[a]] && t.page == s.page && t.v.delivered == s.v.delivered
  {
    match w
    case Load => case Skip(_) => case Fetch => case Failed(_) => case Abort(_) => case Mark(_) =>
    case Count(_) => case Record(_) => case Release =>
  }

  lemma DrainGrows<T>(cfg: Config, s: State<T>, a: nat, d: DrainPc<T>)
    requires a < |s.pcs| == |s.v.ready| == |s.v.pending| && s.pcs[a] == Drain(d) && !d.InCall?
    requires d.Read? || d.Advance? ==> s.v.delivered + 1 < |s.v.ready|
    ensures var t := DrainStep(cfg, s, a, d);
            && Grows(s, Act(a), t) && t.pcs == s.pcs[a := t.pcs[a]] && t.page == s.page
            && t.v.ready == s.v.ready && t.v.short == s.v.short && t.h.fetches == s.h.fetches
            && t.slots == s.slots && t.v.items == s.v.items
            && (t.pcs[a].Drain? || (d.Unlock? && t.pcs[a] == if a == 0 then Main(Collect) else Work(Release)))
  {
    match d
    case Check => case Read => case Call(_) => case Advance(_) => case Fail(_) => case Unlock =>
  }

  lemma ReturnGrows<T>(cfg: Config, s: State<T>, ev: Event<T>)
    requires Safe(cfg, s) && Enabled(cfg, s, ev) && (ev.FetchReturns? || ev.CallReturns?)
    ensures Grows(s, ev, Step(cfg, s, ev))
  {
  }

  lemma StepGrows<T>(cfg: Config, s: State<T>, ev: Event<T>)
    requires Safe(cfg, s) && Enabled(cfg, s, ev)
    ensures Grows(s, ev, Step(cfg, s, ev))
  {
    match ev
    case Act(a) =>
      match s.pcs[a] {
        case Work(w) => WorkGrows(s, a, w);
        case Drain(d) => DrainGrows(cfg, s, a, d);
        case _ =>
      }
    case FetchReturns(_, _) => ReturnGrows(cfg, s, ev);
    case CallReturns(_, _) => ReturnGrows(cfg, s, ev);
    case _ =>
  }

  // ---------------------------------------------------------------- failures

  /** Inside `fail`, what has been set so far. */
  ghost predicate FailOk<T>(s: State<T>, pc: Pc<T>) {
    match pc
    case Work(Abort(f)) => (!f.SetErr? ==> s.h.errors != []) && (f.Cancel? ==> s.v.aborted)
    case Drain(Fail(f)) => (!f.SetErr? ==> s.h.errors != []) && (f.Cancel? ==> s.v.aborted)
    case _ => true
  }

  /** firstErr is the first recorded error for good; aborted and cancelled follow from it. */
  ghost predicate Failures<T>(s: State<T>) {
    && s.v.firstErr == (if s.h.errors == [] then None else Some(s.h.errors[0]))
    && (s.v.aborted ==> s.h.errors != [])
    && (s.v.cancelled ==> s.h.byCaller || s.v.aborted)
    && (s.h.byCaller ==> s.v.cancelled)
    && forall a :: 0 <= a < |s.pcs| ==> FailOk(s, s.pcs[a])
  }

  lemma WorkFailOk<T>(s: State<T>, a: nat, w: WorkPc<T>)
    requires a < |s.pcs| == |s.v.ready| == |s.v.pending| && s.pcs[a] == Work(w) && !w.InFetch?
    requires Failures(s)
    ensures Failures(WorkStep(s, a, w))
  {
    var t := WorkStep(s, a, w);
    assert FailOk(s, s.pcs[a]);
    WorkGrows(s, a, w);
    assert FailOk(t, t.pcs[a]) by {
      match w
      case Load => case Skip(_) => case Fetch => case Failed(_) => case Abort(_) => case Mark(_) =>
      case Count(_) => case Record(_) => case Release =>
    }
    forall b | 0 <= b < |t.pcs|
      ensures FailOk(t, t.pcs[b])
    {
      assert FailOk(s, s.pcs[b]);
    }
  }

  lemma DrainFailOk<T>(cfg: Config, s: State<T>, a: nat, d: DrainPc<T>)
    requires a < |s.pcs| == |s.v.ready| == |s.v.pending| && s.pcs[a] == Drain(d) && !d.InCall?
    requires d.Read? || d.Advance? ==> s.v.delivered + 1 < |s.v.ready|
    requires Failures(s)
    ensures Failures(DrainStep(cfg, s, a, d))
  {
    var t := DrainStep(cfg, s, a, d);
    assert FailOk(s, s.pcs[a]);
    DrainGrows(cfg, s, a, d);
    assert FailOk(t, t.pcs[a]) by {
      match d
      case Check => case Read => case Call(_) => case Advance(_) => case Fail(_) => case Unlock =>
    }
    forall b | 0 <= b < |t.pcs|
      ensures FailOk(t, t.pcs[b])
    {
      assert FailOk(s, s.pcs[b]);
    }
  }

  lemma FailuresStep<T>(cfg: Config, s: State<T>, ev: Event<T>)
    requires Enabled(cfg, s, ev) && Failures(s)
    ensures Failures(Step(cfg, s, ev))
  {
    var t := Step(cfg, s, ev);
    if ev.Act? && s.pcs[ev.agent].Work? {
      WorkFailOk(s, ev.agent, s.pcs[ev.agent].w);
    } else if ev.Act? && s.pcs[ev.agent].Drain? {
      DrainFailOk(cfg, s, ev.agent, s.pcs[ev.agent].d);
    } else {
      assert t.h.errors == s.h.errors && t.v.aborted == s.v.aborted && t.v.firstErr == s.v.firstErr;
      forall b | 0 <= b < |t.pcs|
        ensures FailOk(t, t.pcs[b])
      {
        assert FailOk(s, s.pcs[b]);
      }
    }
  }

  /** Inside `fail`, after the error has been recorded. */
  predicate Unwinding<T>(pc: Pc<T>) {
    match pc
    case Work(w) => w.Abort? && !w.f.SetErr?
    case Drain(d) => d.Fail? && !d.f.SetErr?
    case _ => false
  }

  /** Once an error is recorded, delivery is stopped and the walk context cancelled, or `fail` is about to. */
  ghost predicate Stopping<T>(s: State<T>) {
    s.h.errors != [] ==> (s.v.aborted && s.v.cancelled) || exists a :: 0 <= a < |s.pcs| && Unwinding(s.pcs[a])
  }

  lemma StoppingStep<T>(cfg: Config, s: State<T>, ev: Event<T>)
    requires Safe(cfg, s) && Failures(s) && Stopping(s) && Enabled(cfg, s, ev)
    ensures Stopping(Step(cfg, s, ev))
  {
    var t := Step(cfg, s, ev);
    StepGrows(cfg, s, ev);
    if s.h.errors != [] && !(s.v.aborted && s.v.cancelled) {
      var a :| 0 <= a < |s.pcs| && Unwinding(s.pcs[a]);
      UnwindingStep(cfg, s, ev, a);
    } else if t.h.errors != [] && s.h.errors == [] {
      assert Unwinding(t.pcs[ev.agent]);
    } else {
      CancelledStays(cfg, s, ev);
    }
  }

  lemma CancelledStays<T>(cfg: Config, s: State<T>, ev: Event<T>)
    requires Safe(cfg, s) && Enabled(cfg, s, ev)
    ensures s.v.cancelled ==> Step(cfg, s, ev).v.cancelled
  {
  }

  lemma UnwindingStep<T>(cfg: Config, s: State<T>, ev: Event<T>, a: nat)
    requires Safe(cfg, s) && Failures(s) && Enabled(cfg, s, ev) && a < |s.pcs| && Unwinding(s.pcs[a])
    ensures var t := Step(cfg, s, ev); a < |t.pcs| && ((t.v.aborted && t.v.cancelled) || Unwinding(t.pcs[a]))
  {
    assert FailOk(s, s.pcs[a]);
    match ev
    case Act(b) =>
      match s.pcs[b] {
        case Work(w) => if a != b { WorkGrows(s, b, w); }
        case Drain(d) => if a != b { DrainGrows(cfg, s, b, d); }
        case _ =>
      }
    case _ =>
  }

  // ------------------------------------------------------------- the result

  /** No further page is left to deliver. */
  ghost predicate Exhausted<T>(cfg: Config, s: State<T>)
    requires Shape(cfg, s)
  {
    s.v.delivered >= cfg.maxPages || s.v.aborted || !s.v.ready[s.v.delivered + 1]
  }

  predicate LeavingDrain<T>(pc: Pc<T>) {
    (pc.Drain? && pc.d.Unlock?) || (pc.Main? && (pc.m.Collect? || pc.m.Done?))
  }

  predicate Finished<T>(s: State<T>) {
    0 < |s.pcs| && s.pcs[0].Main? && s.pcs[0].m.Done?
  }

  /** The final drain ends only when nothing is left, and then firstErr is returned. */
  ghost predicate Ending<T>(cfg: Config, s: State<T>)
    requires Shape(cfg, s)
  {
    && (LeavingDrain(s.pcs[0]) && s.v.delivered >= 1 ==> Exhausted(cfg, s))
    && (Finished(s) ==> if s.v.delivered >= 1 then s.v.result == s.v.firstErr else s.v.result.Some?)
  }

  lemma EndingAct0<T>(cfg: Config, s: State<T>)
    requires Safe(cfg, s) && Failures(s) && Ending(cfg, s) && Enabled(cfg, s, Act(0))
    ensures Shape(cfg, Step(cfg, s, Act(0))) && Ending(cfg, Step(cfg, s, Act(0)))
  {
    ControlAct(cfg, s, 0);
    match s.pcs[0]
    case Main(m) =>
    case Lock =>
    case Drain(d) =>
      assert FailOk(s, s.pcs[0]);
      match d {
        case Check => case Read => case Call(_) => case Advance(_) => case Fail(_) => case Unlock =>
      }
  }

  lemma EndingOther<T>(cfg: Config, s: State<T>, a: nat)
    requires Safe(cfg, s) && Ending(cfg, s) && a != 0 && Enabled(cfg, s, Act(a))
    ensures Shape(cfg, Step(cfg, s, Act(a))) && Ending(cfg, Step(cfg, s, Act(a)))
  {
    assert !s.pcs[a].Idle? && !s.pcs[a].Gone? && 2 <= a;
    assert !LeavingDrain(s.pcs[0]);
    ControlAct(cfg, s, a);
    assert Step(cfg, s, Act(a)).pcs[0] == s.pcs[0] by {
      match s.pcs[a]
      case Work(w) => WorkMoves(s, a, w);
      case Drain(d) => DrainMoves(cfg, s, a, d);
      case _ =>
    }
  }

  lemma EndingReturn<T>(cfg: Config, s: State<T>, ev: Event<T>)
    requires Safe(cfg, s) && Failures(s) && Ending(cfg, s) && Enabled(cfg, s, ev)
    requires (ev.FetchReturns? || ev.CallReturns?) && ev.agent != 0
    ensures Shape(cfg, Step(cfg, s, ev)) && Ending(cfg, Step(cfg, s, ev))
  {
    ControlStep(cfg, s, ev);
    ReturnMoves(cfg, s, ev);
    assert !s.pcs[ev.agent].Idle? && !s.pcs[ev.agent].Gone?;
    assert !LeavingDrain(s.pcs[0]);
  }

  lemma EndingStep<T>(cfg: Config, s: State<T>, ev: Event<T>)
    requires Safe(cfg, s) && Failures(s) && Ending(cfg, s) && Enabled(cfg, s, ev)
    ensures Shape(cfg, Step(cfg, s, ev)) && Ending(cfg, Step(cfg, s, ev))
  {
    match ev
    case Act(a) => if a == 0 { EndingAct0(cfg, s); } else { EndingOther(cfg, s, a); }
    case FetchReturns(a, _) =>
      if a == 0 { ControlStep(cfg, s, ev); } else { EndingReturn(cfg, s, ev); }
    case CallReturns(a, f) =>
      if a != 0 {
        EndingReturn(cfg, s, ev);
      } else {
        ControlStep(cfg, s, ev);
        assert 2 < |s.pcs| ==> PageOk(s, 2);
      }
    case _ => ControlStep(cfg, s, ev);
  }

  // ------------------------------------------------------------ conservation

  /** The items of page p that itemsFetched has counted. */
  ghost function Counted<T>(s: State<T>, p: nat): nat
    requires p < |s.pcs|
  {
    if p !in s.h.got then 0
    else if p == 1 then (if s.v.delivered >= 1 then |s.h.got[1]| else 0)
    else if s.pcs[p].Work? && (s.pcs[p].w.Mark? || s.pcs[p].w.Count?) then 0
    else |s.h.got[p]|
  }

  ghost function Total<T>(s: State<T>, n: nat): nat
    requires n <= |s.pcs|
  {
    if n == 0 then 0 else Total(s, n - 1) + Counted(s, n - 1)
  }

  ghost predicate Conserved<T>(s: State<T>) {
    s.v.items == Total(s, |s.pcs|)
  }

  lemma {:induction false} TotalChange<T>(s: State<T>, t: State<T>, a: nat, n: nat)
    requires a < n <= |s.pcs| == |t.pcs|
    requires forall p :: 0 <= p < n && p != a ==> Counted(t, p) == Counted(s, p)
    ensures Total(t, n) == Total(s, n) - Counted(s, a) + Counted(t, a)
  {
    if n - 1 == a {
      TotalSame(s, t, n - 1);
    } else {
      TotalChange(s, t, a, n - 1);
    }
  }

  lemma {:induction false} TotalSame<T>(s: State<T>, t: State<T>, n: nat)
    requires n <= |s.pcs| == |t.pcs|
    requires forall p :: 0 <= p < n ==> Counted(t, p) == Counted(s, p)
    ensures Total(t, n) == Total(s, n)
  {
    if n > 0 {
      TotalSame(s, t, n - 1);
    }
  }

  lemma WorkConserves<T>(s: State<T>, a: nat, w: WorkPc<T>)
    requires a < |s.pcs| == |s.v.ready| == |s.v.pending| && s.pcs[a] == Work(w) && !w.InFetch?
    requires 2 <= a && PageOk(s, a) && Conserved(s)
    ensures Conserved(WorkStep(s, a, w))
  {
    var t := WorkStep(s, a, w);
    assert t.h.got == s.h.got && t.v.delivered == s.v.delivered
           && t.pcs == s.pcs[a := t.pcs[a]]
           && t.v.items == s.v.items - Counted(s, a) + Counted(t, a) by {
      match w
      case Load => case Skip(_) => case Fetch => case Failed(_) => case Abort(_) => case Mark(_) =>
      case Count(_) => case Record(_) => case Release =>
    }
    TotalChange(s, t, a, |s.pcs|);
  }

  lemma DrainConserves<T>(cfg: Config, s: State<T>, a: nat, d: DrainPc<T>)
    requires Safe(cfg, s) && Conserved(s) && Enabled(cfg, s, Act(a)) && s.pcs[a] == Drain(d)
    ensures Conserved(DrainStep(cfg, s, a, d))
  {
    var t := DrainStep(cfg, s, a, d);
    DrainGrows(cfg, s, a, d);
    TotalSame(s, t, |s.pcs|);
  }

  lemma OtherConserves<T>(cfg: Config, s: State<T>, a: nat)
    requires Safe(cfg, s) && Conserved(s) && Enabled(cfg, s, Act(a)) && !s.pcs[a].Work? && !s.pcs[a].Drain?
    ensures Conserved(Step(cfg, s, Act(a)))
  {
    var t := Step(cfg, s, Act(a));
    if s.pcs[a] == Main(Select) {
      assert PageOk(s, s.page);
      TotalChange(s, t, s.page, |s.pcs|);
    } else {
      TotalSame(s, t, |s.pcs|);
    }
  }

  lemma FetchConserves<T>(cfg: Config, s: State<T>, a: nat, o: FetchOutcome<T>)
    requires Safe(cfg, s) && Conserved(s) && Enabled(cfg, s, FetchReturns(a, o))
    ensures Conserved(Step(cfg, s, FetchReturns(a, o)))
  {
    var t := Step(cfg, s, FetchReturns(a, o));
    if a == 0 {
      TotalChange(s, t, 1, |s.pcs|);
    } else {
      assert PageOk(s, a);
      TotalChange(s, t, a, |s.pcs|);
    }
  }

  lemma CallConserves<T>(cfg: Config, s: State<T>, a: nat, f: Option<Cause>)
    requires Safe(cfg, s) && Conserved(s) && Enabled(cfg, s, CallReturns(a, f))
    ensures Conserved(Step(cfg, s, CallReturns(a, f)))
  {
    var t := Step(cfg, s, CallReturns(a, f));
    if s.pcs[a].Main? {
      TotalChange(s, t, 1, |s.pcs|);
    } else {
      TotalSame(s, t, |s.pcs|);
    }
  }

  lemma ConservedStep<T>(cfg: Config, s: State<T>, ev: Event<T>)
    requires Safe(cfg, s) && Conserved(s) && Enabled(cfg, s, ev)
    ensures Conserved(Step(cfg, s, ev))
  {
    match ev
    case CallerCancels => TotalSame(s, Step(cfg, s, ev), |s.pcs|);
    case SelectDone => TotalSame(s, Step(cfg, s, ev), |s.pcs|);
    case FetchReturns(a, o) => FetchConserves(cfg, s, a, o);
    case CallReturns(a, f) => CallConserves(cfg, s, a, f);
    case Act(a) =>
      match s.pcs[a] {
        case Work(w) => assert PageOk(s, a); WorkConserves(s, a, w);
        case Drain(d) => DrainConserves(cfg, s, a, d);
        case _ => OtherConserves(cfg, s, a);
      }
  }

  // ------------------------------------------------------------------ all of it

  ghost predicate Inv<T>(cfg: Config, s: State<T>) {
    Safe(cfg, s) && Failures(s) && Stopping(s) && Ending(cfg, s) && Conserved(s)
  }

  lemma InvInit<T>(cfg: Config)
    requires cfg.Valid()
    ensures Inv(cfg, Init<T>(cfg))
  {
    var s := Init<T>(cfg);
    assert Holders(s.pcs) == {};
    InitTotal<T>(cfg, |s.pcs|);
  }

  lemma {:induction false} InitTotal<T>(cfg: Config, n: nat)
    requires n <= cfg.maxPages + 1
    ensures Total(Init<T>(cfg), n) == 0
  {
    if n > 0 {
      InitTotal<T>(cfg, n - 1);
    }
  }

  lemma InvStep<T>(cfg: Config, s: State<T>, ev: Event<T>)
    requires Inv(cfg, s) && Enabled(cfg, s, ev)
    ensures Inv(cfg, Step(cfg, s, ev))
  {
    DataStep(cfg, s, ev);
    FailuresStep(cfg, s, ev);
    StoppingStep(cfg, s, ev);
    EndingStep(cfg, s, ev);
    ConservedStep(cfg, s, ev);
  }

  /** Every state that any schedule reaches satisfies the invariant. */
  lemma {:induction false} Reachable<T>(cfg: Config, run: Run<T>)
    requires cfg.Valid() && IsRun(cfg, run)
    ensures Inv(cfg, Final(cfg, run))
  {
    match run
    case Start => InvInit<T>(cfg);
    case Then(prev, ev) =>
      Reachable(cfg, prev);
      InvStep(cfg, Final(cfg, prev), ev);
  }
}
