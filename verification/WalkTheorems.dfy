/** What holds of every run of the walk, for any schedule, server, callback and cancellation. */
module WalkTheorems {
  import opened Common
  import opened WalkModel
  import opened WalkSafety
  import opened WalkOutcome
  import opened WalkProgress

  /**
    onPage is called for pages 1, 2, 3, ... in this order, for each page once and never twice
    at a time, and with exactly the items fetched for that page.
   */
  lemma DeliveryInOrder<T>(cfg: Config, run: Run<T>)
    requires cfg.Valid() && IsRun(cfg, run)
    ensures var s := Final(cfg, run);
            && s.v.delivered == |s.h.out| <= |s.h.calls| <= |s.h.out| + 1
            && |s.h.calls| <= cfg.maxPages
            && (forall i :: 0 <= i < |s.h.calls| ==> s.h.calls[i] == i + 1 && s.h.calls[i] in s.h.got)
            && (forall i :: 0 <= i < |s.h.out| ==> i + 1 in s.h.got && s.h.out[i] == s.h.got[i + 1])
  {
    var s := Final(cfg, run);
    Reachable(cfg, run);
    CallsAndOut(cfg, s);
    forall i | 0 <= i < |s.h.out|
      ensures i + 1 in s.h.got && s.h.out[i] == s.h.got[i + 1]
    {
      assert s.v.ready[i + 1];
    }
  }

  lemma CallsAndOut<T>(cfg: Config, s: State<T>)
    requires Control(cfg, s) && Pages(cfg, s) && Delivery(cfg, s)
    ensures |s.h.out| <= |s.h.calls| <= |s.h.out| + 1 && |s.h.calls| <= cfg.maxPages
  {
    if |s.h.calls| > 0 {
      assert s.h.calls[|s.h.calls| - 1] in s.h.got;
    }
  }

  /** While an onPage runs no other does, and it has been given page |out| + 1 as it was fetched. */
  lemma CallsDoNotOverlap<T>(cfg: Config, run: Run<T>, a: nat, b: nat)
    requires cfg.Valid() && IsRun(cfg, run)
    requires var s := Final(cfg, run); a < |s.pcs| && b < |s.pcs| && s.pcs[a].Calling() && s.pcs[b].Calling()
    ensures a == b
    ensures var s := Final(cfg, run);
            && |s.h.calls| == |s.h.out| + 1 && |s.h.calls| in s.h.got
            && s.h.got[|s.h.calls|] == if s.pcs[a].Main? then s.pcs[a].m.items else s.pcs[a].d.items
  {
    Reachable(cfg, run);
    OneCall(cfg, Final(cfg, run), a);
    OneCall(cfg, Final(cfg, run), b);
  }

  lemma OneCall<T>(cfg: Config, s: State<T>, a: nat)
    requires Control(cfg, s) && Delivery(cfg, s) && a < |s.pcs| && s.pcs[a].Calling()
    ensures if s.v.delivered == 0 then a == 0 && s.pcs[0].Main? else s.lock == Some(a) && s.pcs[a].Drain?
    ensures |s.h.calls| == |s.h.out| + 1 && |s.h.calls| in s.h.got
    ensures s.h.got[|s.h.calls|] == if s.pcs[a].Main? then s.pcs[a].m.items else s.pcs[a].d.items
  {
  }

  /** An onPage begins only when every onPage begun before it has returned nil. */
  lemma BeginsAfterSuccess<T>(cfg: Config, run: Run<T>, a: nat)
    requires cfg.Valid() && IsRun(cfg, run)
    requires var s := Final(cfg, run); a < |s.pcs| && s.pcs[a].Drain? && s.pcs[a].d.Call?
    ensures var s := Final(cfg, run); |s.h.calls| == |s.h.out|
  {
    Reachable(cfg, run);
  }

  /**
    aborted is set only after an error has been recorded; at most one onPage begins once it is
    set; what is returned is the first recorded error, and nil means none was recorded and the
    pages delivered are all those up to the first page that is missing.
   */
  lemma FailureDiscipline<T>(cfg: Config, run: Run<T>)
    requires cfg.Valid() && IsRun(cfg, run)
    ensures var s := Final(cfg, run);
            && |s.v.ready| == cfg.maxPages + 1
            && (s.v.aborted ==> s.v.firstErr.Some?)
            && s.v.firstErr == (if s.h.errors == [] then None else Some(s.h.errors[0]))
            && (s.v.cancelled ==> s.h.byCaller || s.v.firstErr.Some?)
            && s.h.late <= 1
            && (Finished(s) && |s.h.out| >= 1 ==> s.v.result == s.v.firstErr)
            && (Finished(s) && |s.h.out| == 0 ==> s.v.result.Some?)
            && (Finished(s) && s.v.result.None? ==>
                  && |s.h.out| <= cfg.maxPages
                  && (forall p :: 1 <= p <= |s.h.out| ==> s.v.ready[p])
                  && (|s.h.out| == cfg.maxPages || !s.v.ready[|s.h.out| + 1]))
  {
    Reachable(cfg, run);
  }

  /** The first recorded error is never overwritten. */
  lemma {:induction false} FirstErrorKept<T(!new)>(cfg: Config, run: Run<T>, longer: Run<T>)
    requires cfg.Valid() && IsRun(cfg, longer) && Extends(longer, run)
    ensures IsRun(cfg, run)
    ensures Final(cfg, run).v.firstErr.Some? ==> Final(cfg, longer).v.firstErr == Final(cfg, run).v.firstErr
  {
    if longer != run {
      FirstErrorKept(cfg, run, longer.prev);
      Reachable(cfg, longer.prev);
      Reachable(cfg, longer);
      StepGrows(cfg, Final(cfg, longer.prev), longer.ev);
    }
  }

  /** The items of all pages below n that have been fetched. */
  ghost function AllFetched<T>(s: State<T>, n: nat): nat {
    if n == 0 then 0 else AllFetched(s, n - 1) + if n - 1 in s.h.got then |s.h.got[n - 1]| else 0
  }

  /**
    Conservation: at most Concurrency workers hold a slot or run fetch, no page is fetched
    twice, and itemsFetched counts every fetched page once it has been added, and no other.
   */
  lemma Conservation<T>(cfg: Config, run: Run<T>)
    requires cfg.Valid() && IsRun(cfg, run)
    ensures var s := Final(cfg, run);
            && s.slots == |Holders(s.pcs)| <= cfg.concurrency
            && (forall p :: 2 <= p < |s.pcs| && s.pcs[p].Fetching() ==> p in Holders(s.pcs))
            && Distinct(s.h.fetches)
            && s.v.items == Total(s, |s.pcs|)
  {
    Reachable(cfg, run);
  }

  /** Pages wait in pending from their recording to their delivery and no longer. */
  lemma BuffersReleased<T>(cfg: Config, run: Run<T>, p: nat)
    requires cfg.Valid() && IsRun(cfg, run) && 2 <= p <= cfg.maxPages
    ensures var s := Final(cfg, run);
            && p < |s.v.ready| == |s.v.pending|
            && (s.v.ready[p] ==> p in s.h.got)
            && s.v.pending[p] == if s.v.ready[p] && p > |s.h.out| then s.h.got[p] else []
  {
    Reachable(cfg, run);
    assert PageOk(Final(cfg, run), p);
  }

  /**
    When the walk returns, every slot and lock is released, every fetched page is recorded and
    counted, and a recorded error has stopped delivery and cancelled the walk context.
   */
  lemma AllReleased<T>(cfg: Config, run: Run<T>)
    requires cfg.Valid() && IsRun(cfg, run) && Finished(Final(cfg, run))
    ensures var s := Final(cfg, run);
            && s.slots == 0 && s.lock.None? && AllQuiet(s)
            && (s.h.errors != [] ==> s.v.aborted && s.v.cancelled)
            && (|s.h.out| >= 1 ==> s.v.items == AllFetched(s, cfg.maxPages + 1))
            && (forall p :: 2 <= p < |s.pcs| && p in s.h.got ==> p < |s.v.ready| && s.v.ready[p])
  {
    var s := Final(cfg, run);
    Reachable(cfg, run);
    assert Holders(s.pcs) == {};
    assert forall a :: 0 <= a < |s.pcs| ==> !Unwinding(s.pcs[a]);
    forall p | 2 <= p < |s.pcs| && p in s.h.got
      ensures s.v.ready[p]
    {
      assert PageOk(s, p);
    }
    if |s.h.out| >= 1 {
      CountedAll(cfg, s, |s.pcs|);
    }
  }

  lemma {:induction false} CountedAll<T>(cfg: Config, s: State<T>, n: nat)
    requires Shape(cfg, s) && Pages(cfg, s) && AllQuiet(s) && s.v.delivered >= 1 && n <= |s.pcs|
    ensures Total(s, n) == AllFetched(s, n)
  {
    if n > 0 {
      CountedAll(cfg, s, n - 1);
    }
  }

  /**
    Termination: every schedule is finite, within 25 * MaxPages - 3 steps, and a walk that has
    not returned can always move without the caller's help.
   */
  lemma AlwaysEnds<T>(cfg: Config, run: Run<T>)
    requires cfg.Valid() && IsRun(cfg, run)
    ensures run.Length() <= 25 * cfg.maxPages - 3
    ensures !Finished(Final(cfg, run)) ==> exists ev: Event<T> :: Benign(ev) && IsRun(cfg, Then(run, ev))
  {
    RunsAreShort(cfg, run);
    Reachable(cfg, run);
    if !Finished(Final(cfg, run)) {
      NotStuck(cfg, Final(cfg, run));
      var ev: Event<T> :| Benign(ev) && Enabled(cfg, Final(cfg, run), ev);
      assert IsRun(cfg, Then(run, ev));
    }
  }
}
