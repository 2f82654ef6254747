/** Pieces of schedules: what a goroutine does to the state when it runs undisturbed. */
module WalkSchedules {
  import opened Common
  import opened WalkModel

  /** Nothing fails and the caller does not cancel. */
  predicate Healthy<T>(run: Run<T>) {
    run.Then? ==>
      && Healthy(run.prev)
      && match run.ev
         case FetchReturns(_, o) => o.Page?
         case CallReturns(_, f) => f.None?
         case CallerCancels => false
         case _ => true
  }

  lemma {:induction false} HealthyIsFailureFree<T>(run: Run<T>)
    requires Healthy(run)
    ensures FailureFree(run)
  {
    if run.Then? {
      HealthyIsFailureFree(run.prev);
    }
  }

  predicate Sized<T>(cfg: Config, s: State<T>) {
    cfg.Valid() && |s.pcs| == |s.v.ready| == |s.v.pending| == cfg.maxPages + 1
  }

  /** Page 1 is fetched full and delivered, and there are more pages to walk. */
  lemma Begin<T>(cfg: Config, items: seq<T>) returns (r: Run<T>)
    requires cfg.Valid() && cfg.maxPages >= 2 && |items| >= cfg.perPage
    ensures IsRun(cfg, r) && Healthy(r) && Sized(cfg, Final(cfg, r))
    ensures var s, i := Final(cfg, r), Init<T>(cfg);
            s == i.(pcs := i.pcs[0 := Main(Test)],
                    v := i.v.(items := |items|, ready := i.v.ready[1 := true], pending := i.v.pending[1 := items], delivered := 1),
                    h := i.h.(got := map[1 := items], calls := [1], out := [items]))
  {
    var r0: Run<T> := Start;
    var r1 := Then(r0, FetchReturns(0, Page(items)));
    var s1 := Final(cfg, r1);
    r := Then(r1, CallReturns(0, None));
    assert s1.pcs[0] == Main(FirstCall(items));
    assert Final(cfg, r).pcs == Init<T>(cfg).pcs[0 := Main(Test)];
  }

  /** The dispatcher spawns the next worker. */
  lemma Spawn<T>(cfg: Config, run: Run<T>) returns (r: Run<T>)
    requires IsRun(cfg, run) && Sized(cfg, Final(cfg, run))
    requires var s := Final(cfg, run);
             s.pcs[0] == Main(Test) && 2 <= s.page <= cfg.maxPages && s.v.short == 0 && s.slots < cfg.concurrency
    ensures IsRun(cfg, r) && (Healthy(run) ==> Healthy(r))
    ensures var s := Final(cfg, run);
            Final(cfg, r) == s.(pcs := s.pcs[s.page := Work(Load)], slots := s.slots + 1, page := s.page + 1)
  {
    var s := Final(cfg, run);
    var r1 := Then(run, Act(0));
    assert Final(cfg, r1) == Goto(s, 0, Main(Select));
    r := Then(r1, Act(0));
    assert Final(cfg, r).pcs == s.pcs[s.page := Work(Load)];
  }

  /** A worker runs up to its call of fetch, no short page having been seen. */
  lemma BeginFetch<T>(cfg: Config, run: Run<T>, p: nat) returns (r: Run<T>)
    requires IsRun(cfg, run) && Sized(cfg, Final(cfg, run)) && 2 <= p <= cfg.maxPages
    requires var s := Final(cfg, run); s.pcs[p] == Work(Load) && s.v.short == 0
    ensures IsRun(cfg, r) && (Healthy(run) ==> Healthy(r))
    ensures var s := Final(cfg, run);
            Final(cfg, r) == s.(pcs := s.pcs[p := Work(InFetch)], h := s.h.(fetches := s.h.fetches + [p]))
  {
    var s := Final(cfg, run);
    var r1 := Then(run, Act(p));
    assert Final(cfg, r1) == Goto(s, p, Work(Skip(0)));
    var r2 := Then(r1, Act(p));
    assert Final(cfg, r2).pcs == s.pcs[p := Work(Fetch)];
    r := Then(r2, Act(p));
    assert Final(cfg, r).pcs == s.pcs[p := Work(InFetch)];
  }

  /** The state once a worker has fetched and recorded its page and is about to drain. */
  function Landed<T>(cfg: Config, s: State<T>, p: nat, items: seq<T>): State<T>
    requires p < |s.pcs| == |s.v.ready| == |s.v.pending|
  {
    s.(pcs := s.pcs[p := Lock],
       v := s.v.(short := if |items| < cfg.perPage && s.v.short == 0 then p else s.v.short,
                 items := s.v.items + |items|,
                 ready := s.v.ready[p := true],
                 pending := s.v.pending[p := items]),
       h := s.h.(got := s.h.got[p := items]))
  }

  /** A fetch returns and, if its page is short, the marker is set. */
  lemma Receive<T>(cfg: Config, run: Run<T>, p: nat, items: seq<T>) returns (r: Run<T>)
    requires IsRun(cfg, run) && Sized(cfg, Final(cfg, run)) && 2 <= p <= cfg.maxPages
    requires Final(cfg, run).pcs[p] == Work(InFetch)
    ensures IsRun(cfg, r) && (Healthy(run) ==> Healthy(r))
    ensures var s := Final(cfg, run);
            Final(cfg, r) == s.(pcs := s.pcs[p := Work(Count(items))],
                                v := s.v.(short := if |items| < cfg.perPage && s.v.short == 0 then p else s.v.short),
                                h := s.h.(got := s.h.got[p := items]))
  {
    var s := Final(cfg, run);
    r := Then(run, FetchReturns(p, Page(items)));
    assert Healthy(run) ==> Healthy(r);
    if |items| < cfg.perPage {
      assert Final(cfg, r).pcs[p] == Work(Mark(items));
      r := Then(r, Act(p));
    }
    assert Final(cfg, r).pcs == s.pcs[p := Work(Count(items))];
  }

  lemma Land<T>(cfg: Config, run: Run<T>, p: nat, items: seq<T>) returns (r: Run<T>)
    requires IsRun(cfg, run) && Sized(cfg, Final(cfg, run)) && 2 <= p <= cfg.maxPages
    requires Final(cfg, run).pcs[p] == Work(InFetch)
    ensures IsRun(cfg, r) && (Healthy(run) ==> Healthy(r))
    ensures Final(cfg, r) == Landed(cfg, Final(cfg, run), p, items)
  {
    var s := Final(cfg, run);
    var r1 := Receive(cfg, run, p, items);
    var r2 := Then(r1, Act(p));
    assert Final(cfg, r2).pcs == s.pcs[p := Work(Record(items))];
    r := Then(r2, Act(p));
    assert Final(cfg, r).pcs == s.pcs[p := Lock];
  }

  /** A worker drains to no effect, because the next page is missing or the walk is aborted, and exits. */
  lemma DrainInVain<T>(cfg: Config, run: Run<T>, p: nat) returns (r: Run<T>)
    requires IsRun(cfg, run) && Sized(cfg, Final(cfg, run)) && 2 <= p <= cfg.maxPages
    requires var s := Final(cfg, run);
             && s.pcs[p] == Lock && s.lock.None? && s.slots > 0
             && s.v.delivered < cfg.maxPages && (s.v.aborted || !s.v.ready[s.v.delivered + 1])
    ensures IsRun(cfg, r) && (Healthy(run) ==> Healthy(r))
    ensures var s := Final(cfg, run); Final(cfg, r) == s.(pcs := s.pcs[p := Gone], slots := s.slots - 1)
  {
    var s := Final(cfg, run);
    var r1 := Then(run, Act(p));
    assert Final(cfg, r1) == s.(pcs := s.pcs[p := Drain(Check)], lock := Some(p));
    var r2 := Then(r1, Act(p));
    assert Healthy(run) ==> Healthy(r2);
    if !s.v.aborted {
      assert Final(cfg, r2) == s.(pcs := s.pcs[p := Drain(Read)], lock := Some(p));
      r2 := Then(r2, Act(p));
    }
    assert Final(cfg, r2) == s.(pcs := s.pcs[p := Drain(Unlock)], lock := Some(p));
    assert Healthy(run) ==> Healthy(r2);
    r := LeaveDrain(cfg, r2, p);
    assert Final(cfg, r).pcs == s.pcs[p := Gone];
  }

  lemma LeaveDrain<T>(cfg: Config, run: Run<T>, p: nat) returns (r: Run<T>)
    requires IsRun(cfg, run) && Sized(cfg, Final(cfg, run)) && 2 <= p <= cfg.maxPages
    requires Final(cfg, run).pcs[p] == Drain(Unlock) && Final(cfg, run).slots > 0
    ensures IsRun(cfg, r) && (Healthy(run) ==> Healthy(r))
    ensures var s := Final(cfg, run);
            Final(cfg, r) == s.(pcs := s.pcs[p := Gone], slots := s.slots - 1, lock := None)
  {
    var s := Final(cfg, run);
    var r1 := Then(run, Act(p));
    assert Final(cfg, r1) == s.(pcs := s.pcs[p := Work(Release)], lock := None);
    var r2 := Then(r1, Act(p));
    assert Final(cfg, r2) == s.(pcs := s.pcs[p := Finish], slots := s.slots - 1, lock := None);
    r := Then(r2, Act(p));
    assert Final(cfg, r).pcs == s.pcs[p := Gone];
  }

  /** The owner of deliverMu begins onPage for the next page. */
  lemma BeginCall<T>(cfg: Config, run: Run<T>, p: nat) returns (r: Run<T>)
    requires IsRun(cfg, run) && Sized(cfg, Final(cfg, run)) && 2 <= p <= cfg.maxPages
    requires var s := Final(cfg, run);
             && s.pcs[p] == Drain(Check) && !s.v.aborted
             && s.v.delivered < cfg.maxPages && s.v.ready[s.v.delivered + 1]
    ensures IsRun(cfg, r) && (Healthy(run) ==> Healthy(r))
    ensures var s := Final(cfg, run);
            Final(cfg, r) == s.(pcs := s.pcs[p := Drain(InCall(s.v.pending[s.v.delivered + 1]))],
                                h := s.h.(calls := s.h.calls + [s.v.delivered + 1]))
  {
    var s := Final(cfg, run);
    var items := s.v.pending[s.v.delivered + 1];
    var r1 := Then(run, Act(p));
    assert Final(cfg, r1) == Goto(s, p, Drain(Read));
    var r2 := Then(r1, Act(p));
    assert Final(cfg, r2).pcs == s.pcs[p := Drain(Call(items))];
    r := Then(r2, Act(p));
    assert Final(cfg, r).pcs == s.pcs[p := Drain(InCall(items))];
  }

  /** That onPage returns nil and the frontier advances. */
  lemma EndCall<T>(cfg: Config, run: Run<T>, p: nat, items: seq<T>) returns (r: Run<T>)
    requires IsRun(cfg, run) && Sized(cfg, Final(cfg, run)) && 2 <= p <= cfg.maxPages
    requires var s := Final(cfg, run); s.pcs[p] == Drain(InCall(items)) && s.v.delivered < cfg.maxPages
    ensures IsRun(cfg, r) && (Healthy(run) ==> Healthy(r))
    ensures var s := Final(cfg, run);
            Final(cfg, r) == s.(pcs := s.pcs[p := Drain(Check)],
                                v := s.v.(delivered := s.v.delivered + 1, pending := s.v.pending[s.v.delivered + 1 := []]),
                                h := s.h.(out := s.h.out + [items]))
  {
    var s := Final(cfg, run);
    var r1 := Then(run, CallReturns(p, None));
    assert Final(cfg, r1) == Goto(s, p, Drain(Advance(items)));
    r := Then(r1, Act(p));
    assert Final(cfg, r).pcs == s.pcs[p := Drain(Check)];
  }
}
