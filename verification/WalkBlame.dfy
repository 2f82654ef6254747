/** The error walkPages returns is one that fetch or onPage has returned, for the page it names. */
module WalkBlame {
  import opened Common
  import opened WalkModel
  import opened WalkSafety
  import opened WalkOutcome

  /** What a callee's return reports, given the pages handed to onPage so far. */
  function Report<T>(calls: seq<nat>, ev: Event<T>): seq<WalkError> {
    match ev
    case FetchReturns(a, Failure(cause)) => [FetchFailed(if a == 0 then 1 else a, cause)]
    case CallReturns(_, Some(cause)) => if calls == [] then [] else [CallbackFailed(calls[|calls| - 1], cause)]
    case _ => []
  }

  /** The errors fetch and onPage have returned in a run, in order, each with its page. */
  ghost function Reported<T>(cfg: Config, run: Run<T>): seq<WalkError>
    requires IsRun(cfg, run)
  {
    match run
    case Start => []
    case Then(prev, ev) => Reported(cfg, prev) + Report(Final(cfg, prev).h.calls, ev)
  }

  /** The error this goroutine is about to record has been reported. */
  ghost predicate BlameOk<T>(failed: seq<WalkError>, a: nat, pc: Pc<T>) {
    match pc
    case Work(Failed(cause)) => FetchFailed(a, cause) in failed
    case Work(Abort(SetErr(err))) => err in failed
    case Drain(Fail(SetErr(err))) => err in failed
    case _ => true
  }

  ghost predicate Blamed<T>(s: State<T>, failed: seq<WalkError>) {
    && (forall e :: e in s.h.errors ==> e in failed)
    && (s.v.result.Some? ==> s.v.result.value in failed)
    && forall a :: 0 <= a < |s.pcs| ==> BlameOk(failed, a, s.pcs[a])
  }

  lemma BlameOthers<T>(s: State<T>, a: nat, t: State<T>, failed: seq<WalkError>, more: seq<WalkError>)
    requires Blamed(s, failed) && a < |s.pcs| == |t.pcs| && t.pcs == s.pcs[a := t.pcs[a]]
    requires BlameOk(failed + more, a, t.pcs[a])
    requires forall e :: e in t.h.errors ==> e in failed + more
    requires t.v.result.Some? ==> t.v.result.value in failed + more
    ensures Blamed(t, failed + more)
  {
    forall b | 0 <= b < |t.pcs|
      ensures BlameOk(failed + more, b, t.pcs[b])
    {
      assert BlameOk(failed, b, s.pcs[b]);
    }
  }

  lemma BlameWork<T>(s: State<T>, a: nat, w: WorkPc<T>, failed: seq<WalkError>)
    requires a < |s.pcs| == |s.v.ready| == |s.v.pending| && s.pcs[a] == Work(w) && !w.InFetch?
    requires Blamed(s, failed)
    ensures Blamed(WorkStep(s, a, w), failed)
  {
    var t := WorkStep(s, a, w);
    assert BlameOk(failed, a, s.pcs[a]);
    assert failed + [] == failed;
    match w
    case Load => case Skip(_) => case Fetch => case Failed(_) => case Abort(_) => case Mark(_) =>
    case Count(_) => case Record(_) => case Release =>
  }

  lemma BlameDrain<T>(cfg: Config, s: State<T>, a: nat, d: DrainPc<T>, failed: seq<WalkError>)
    requires a < |s.pcs| == |s.v.ready| == |s.v.pending| && s.pcs[a] == Drain(d) && !d.InCall?
    requires d.Read? || d.Advance? ==> s.v.delivered + 1 < |s.v.ready|
    requires Blamed(s, failed)
    ensures Blamed(DrainStep(cfg, s, a, d), failed)
  {
    assert BlameOk(failed, a, s.pcs[a]);
    match d
    case Check => case Read => case Call(_) => case Advance(_) => case Fail(_) => case Unlock =>
  }

  lemma BlameFetch<T>(cfg: Config, s: State<T>, ev: Event<T>, failed: seq<WalkError>)
    requires Safe(cfg, s) && Enabled(cfg, s, ev) && ev.FetchReturns? && Blamed(s, failed)
    ensures Blamed(Step(cfg, s, ev), failed + Report(s.h.calls, ev))
  {
    BlameOthers(s, ev.agent, Step(cfg, s, ev), failed, Report(s.h.calls, ev));
  }

  lemma BlameCall<T>(cfg: Config, s: State<T>, ev: Event<T>, failed: seq<WalkError>)
    requires Safe(cfg, s) && Enabled(cfg, s, ev) && ev.CallReturns? && Blamed(s, failed)
    ensures Blamed(Step(cfg, s, ev), failed + Report(s.h.calls, ev))
  {
    assert s.h.calls != [] && s.h.calls[|s.h.calls| - 1] == s.v.delivered + 1;
    BlameOthers(s, ev.agent, Step(cfg, s, ev), failed, Report(s.h.calls, ev));
  }

  lemma BlameAct<T>(cfg: Config, s: State<T>, a: nat, failed: seq<WalkError>)
    requires Inv(cfg, s) && Enabled(cfg, s, Act(a)) && Blamed(s, failed)
    ensures Blamed(Step(cfg, s, Act(a)), failed)
  {
    match s.pcs[a]
    case Work(w) => BlameWork(s, a, w, failed);
    case Drain(d) => BlameDrain(cfg, s, a, d, failed);
    case Main(_) =>
    case Lock =>
    case Finish =>
  }

  lemma {:induction false} BlameHolds<T>(cfg: Config, run: Run<T>)
    requires cfg.Valid() && IsRun(cfg, run)
    ensures Blamed(Final(cfg, run), Reported(cfg, run))
  {
    if run.Then? {
      var s, ev, failed := Final(cfg, run.prev), run.ev, Reported(cfg, run.prev);
      Reachable(cfg, run.prev);
      BlameHolds(cfg, run.prev);
      assert failed + [] == failed;
      match ev {
        case Act(a) => BlameAct(cfg, s, a, failed);
        case FetchReturns(_, _) => BlameFetch(cfg, s, ev, failed);
        case CallReturns(_, _) => BlameCall(cfg, s, ev, failed);
        case _ =>
      }
    }
  }

  /** This event is the return of fetch or onPage that the error reports. */
  ghost predicate ReportedLast<T>(cfg: Config, run: Run<T>, e: WalkError) {
    run.Then? && IsRun(cfg, run.prev) && e in Report(Final(cfg, run.prev).h.calls, run.ev)
  }

  /** So is some event of the run. */
  ghost predicate Genuine<T(!new)>(cfg: Config, run: Run<T>, e: WalkError) {
    exists r: Run<T> :: Extends(run, r) && ReportedLast(cfg, r, e)
  }

  lemma {:induction false} ReportedIsGenuine<T(!new)>(cfg: Config, run: Run<T>, e: WalkError)
    requires IsRun(cfg, run) && e in Reported(cfg, run)
    ensures Genuine(cfg, run, e)
  {
    if e in Reported(cfg, run.prev) {
      ReportedIsGenuine(cfg, run.prev, e);
      var r: Run<T> :| Extends(run.prev, r) && ReportedLast(cfg, r, e);
      assert Extends(run, r);
    } else {
      assert Extends(run, run) && ReportedLast(cfg, run, e);
    }
  }

  /**
    Whatever is recorded or returned as an error is one that fetch or onPage returned in this
    run, with its own cause and for the page it names.
   */
  lemma {:induction false} ErrorIsGenuine<T(!new)>(cfg: Config, run: Run<T>, e: WalkError)
    requires cfg.Valid() && IsRun(cfg, run)
    requires e in Final(cfg, run).h.errors || Final(cfg, run).v.result == Some(e)
    ensures Genuine(cfg, run, e)
  {
    BlameHolds(cfg, run);
    ReportedIsGenuine(cfg, run, e);
  }
}
