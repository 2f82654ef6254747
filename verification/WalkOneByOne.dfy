/** A walk with one slot: it fetches and delivers one page after the other. */
module WalkOneByOne {
  import opened Common
  import opened WalkModel
  import opened WalkSafety
  import opened WalkOutcome
  import opened WalkCollection

  /** A short first page ends the walk. */
  ghost predicate FirstShort<T>(cfg: Config, s: State<T>) {
    1 in s.h.got && |s.h.got[1]| < cfg.perPage ==>
      s.page == 2 && 0 < |s.pcs| && s.pcs[0].Main? && (s.pcs[0].m.FirstCall? || s.pcs[0].m.Done?)
  }

  /** All pages of the listing before p are full, as far as they have been fetched. */
  ghost predicate FetchedFullBefore<T>(cfg: Config, s: State<T>, p: nat) {
    forall q :: q in s.h.got && q < p ==> |s.h.got[q]| >= cfg.perPage
  }

  /** A sequential walk: one worker at a time, and none fetches beyond a short page. */
  ghost predicate OneByOne<T>(cfg: Config, s: State<T>)
    requires Shape(cfg, s)
  {
    && s.v.short < s.page
    && (forall q :: 2 <= q < |s.pcs| && s.pcs[q].Holds() ==> s.page == q + 1)
    && (forall q :: q in s.h.got && q >= 2 && |s.h.got[q]| < cfg.perPage && q < |s.pcs| ==>
          (s.pcs[q].Work? && s.pcs[q].w.Mark?) || 0 < s.v.short <= q)
    && (forall p :: 2 <= p < |s.pcs| ==> Clear(cfg, s, p))
  }

  ghost predicate Clear<T>(cfg: Config, s: State<T>, p: nat)
    requires p < |s.pcs|
  {
    && (p in s.h.fetches || s.pcs[p] == Work(Fetch) ==> FetchedFullBefore(cfg, s, p))
    && (s.pcs[p].Work? && s.pcs[p].w.Skip? && (s.pcs[p].w.seen == 0 || p <= s.pcs[p].w.seen) ==> FetchedFullBefore(cfg, s, p))
  }

  lemma FirstShortReturn<T>(cfg: Config, s: State<T>, ev: Event<T>)
    requires Safe(cfg, s) && FirstShort(cfg, s) && Enabled(cfg, s, ev) && (ev.FetchReturns? || ev.CallReturns?)
    ensures FirstShort(cfg, Step(cfg, s, ev))
  {
    assert ev.agent != 0 ==> s.page > ev.agent;
  }

  lemma FirstShortStep<T>(cfg: Config, s: State<T>, ev: Event<T>)
    requires Safe(cfg, s) && FirstShort(cfg, s) && Enabled(cfg, s, ev)
    ensures FirstShort(cfg, Step(cfg, s, ev))
  {
    match ev
    case Act(a) =>
      match s.pcs[a] {
        case Work(w) => assert s.page > a; WorkGrows(s, a, w);
        case Drain(d) => DrainGrows(cfg, s, a, d);
        case _ =>
      }
    case FetchReturns(_, _) => FirstShortReturn(cfg, s, ev);
    case CallReturns(_, _) => FirstShortReturn(cfg, s, ev);
    case _ =>
  }

  lemma ClearLoad<T>(cfg: Config, s: State<T>, a: nat)
    requires cfg.concurrency == 1 && Safe(cfg, s) && FirstShort(cfg, s) && OneByOne(cfg, s)
    requires 2 <= a < |s.pcs| && s.pcs[a] == Work(Load)
    requires s.v.short == 0 || a <= s.v.short
    ensures FetchedFullBefore(cfg, s, a)
  {
    forall q | q in s.h.got && q < a
      ensures |s.h.got[q]| >= cfg.perPage
    {
      assert s.page == a + 1;
    }
  }

  lemma ClearWork<T>(cfg: Config, s: State<T>, a: nat, w: WorkPc<T>)
    requires 2 <= a < |s.pcs| == |s.v.ready| == |s.v.pending| && s.pcs[a] == Work(w) && !w.InFetch?
    requires Clear(cfg, s, a) && (w.Load? && (s.v.short == 0 || a <= s.v.short) ==> FetchedFullBefore(cfg, s, a))
    ensures var t := WorkStep(s, a, w);
            && a < |t.pcs| && Clear(cfg, t, a)
            && (t.h.fetches == s.h.fetches || t.h.fetches == s.h.fetches + [a])
            && (t.v.short == s.v.short || (w.Mark? && s.v.short == 0 && t.v.short == a))
            && (t.pcs[a].Holds() || w.Release?)
  {
  }

  lemma OneByOneWork<T>(cfg: Config, s: State<T>, a: nat, w: WorkPc<T>)
    requires cfg.concurrency == 1 && Safe(cfg, s) && FirstShort(cfg, s) && OneByOne(cfg, s)
    requires Enabled(cfg, s, Act(a)) && s.pcs[a] == Work(w)
    ensures Shape(cfg, WorkStep(s, a, w)) && OneByOne(cfg, WorkStep(s, a, w))
  {
    var t := WorkStep(s, a, w);
    ControlAct(cfg, s, a);
    WorkGrows(s, a, w);
    assert s.page == a + 1;
    if w.Load? && (s.v.short == 0 || a <= s.v.short) {
      ClearLoad(cfg, s, a);
    }
    assert Clear(cfg, s, a);
    ClearWork(cfg, s, a, w);
    forall p | 2 <= p < |t.pcs|
      ensures Clear(cfg, t, p)
    {
      assert Clear(cfg, s, p);
    }
  }

  lemma OneByOneFetch<T>(cfg: Config, s: State<T>, a: nat, o: FetchOutcome<T>)
    requires cfg.concurrency == 1 && Safe(cfg, s) && OneByOne(cfg, s)
    requires Enabled(cfg, s, FetchReturns(a, o))
    ensures var t := Step(cfg, s, FetchReturns(a, o)); Shape(cfg, t) && OneByOne(cfg, t)
  {
    var t := Step(cfg, s, FetchReturns(a, o));
    ControlStep(cfg, s, FetchReturns(a, o));
    ReturnGrows(cfg, s, FetchReturns(a, o));
    forall p | 2 <= p < |t.pcs|
      ensures Clear(cfg, t, p)
    {
      assert Clear(cfg, s, p) && PageOk(s, p);
    }
  }

  lemma OneByOneSpawn<T>(cfg: Config, s: State<T>)
    requires cfg.concurrency == 1 && Safe(cfg, s) && OneByOne(cfg, s)
    requires s.pcs[0] == Main(Select) && MainEnabled(cfg, s, Select)
    ensures var t := MainStep(cfg, s, Select); Shape(cfg, t) && OneByOne(cfg, t)
  {
    var t := MainStep(cfg, s, Select);
    SpawnKeepsControl(cfg, s);
    assert Holders(s.pcs) == {};
    assert forall q :: 2 <= q < |s.pcs| && s.pcs[q].Holds() ==> q in Holders(s.pcs);
    assert PageOk(s, s.page);
    forall p | 2 <= p < |t.pcs|
      ensures Clear(cfg, t, p)
    {
      assert Clear(cfg, s, p);
    }
  }

  /** A step that fetches nothing, marks nothing and gives nobody a slot. */
  lemma OneByOneQuiet<T>(cfg: Config, s: State<T>, a: nat, t: State<T>)
    requires Shape(cfg, s) && Shape(cfg, t) && OneByOne(cfg, s) && a < |s.pcs|
    requires t.pcs == s.pcs[a := t.pcs[a]] && t.page == s.page && t.v.short == s.v.short
    requires t.h.fetches == s.h.fetches && t.h.got == s.h.got
    requires 2 <= a ==> (t.pcs[a].Holds() ==> s.pcs[a].Holds()) && !s.pcs[a].Work?
    requires 2 <= a && t.pcs[a].Work? ==> t.pcs[a].w.Release?
    ensures OneByOne(cfg, t)
  {
    forall p | 2 <= p < |t.pcs|
      ensures Clear(cfg, t, p)
    {
      assert Clear(cfg, s, p);
    }
  }

  lemma OneByOneAct<T>(cfg: Config, s: State<T>, a: nat)
    requires cfg.concurrency == 1 && Safe(cfg, s) && OneByOne(cfg, s) && Enabled(cfg, s, Act(a))
    requires !s.pcs[a].Work?
    ensures var t := Step(cfg, s, Act(a)); Shape(cfg, t) && OneByOne(cfg, t)
  {
    ControlAct(cfg, s, a);
    match s.pcs[a]
    case Drain(d) => DrainGrows(cfg, s, a, d); OneByOneQuiet(cfg, s, a, DrainStep(cfg, s, a, d));
    case Main(m) =>
      if m.Select? { OneByOneSpawn(cfg, s); } else { OneByOneQuiet(cfg, s, a, MainStep(cfg, s, m)); }
    case Lock => OneByOneQuiet(cfg, s, a, Step(cfg, s, Act(a)));
    case Finish => OneByOneQuiet(cfg, s, a, Step(cfg, s, Act(a)));
  }

  lemma OneByOneCall<T>(cfg: Config, s: State<T>, a: nat, f: Option<Cause>)
    requires cfg.concurrency == 1 && Safe(cfg, s) && OneByOne(cfg, s) && Enabled(cfg, s, CallReturns(a, f))
    ensures var t := Step(cfg, s, CallReturns(a, f)); Shape(cfg, t) && OneByOne(cfg, t)
  {
    ControlStep(cfg, s, CallReturns(a, f));
    ReturnGrows(cfg, s, CallReturns(a, f));
    OneByOneQuiet(cfg, s, a, Step(cfg, s, CallReturns(a, f)));
  }

  lemma OneByOneOther<T>(cfg: Config, s: State<T>, ev: Event<T>)
    requires cfg.concurrency == 1 && Safe(cfg, s) && OneByOne(cfg, s) && Enabled(cfg, s, ev)
    requires ev.SelectDone? || ev.CallerCancels?
    ensures var t := Step(cfg, s, ev); Shape(cfg, t) && OneByOne(cfg, t)
  {
    ControlStep(cfg, s, ev);
    OneByOneQuiet(cfg, s, 0, Step(cfg, s, ev));
  }

  lemma {:induction false} FirstShortHolds<T>(cfg: Config, run: Run<T>)
    requires cfg.Valid() && IsRun(cfg, run)
    ensures FirstShort(cfg, Final(cfg, run))
  {
    if run.Then? {
      Reachable(cfg, run.prev);
      FirstShortHolds(cfg, run.prev);
      FirstShortStep(cfg, Final(cfg, run.prev), run.ev);
    }
  }

  lemma {:induction false} OneByOneHolds<T>(cfg: Config, run: Run<T>)
    requires cfg.Valid() && IsRun(cfg, run) && cfg.concurrency == 1
    ensures Shape(cfg, Final(cfg, run)) && OneByOne(cfg, Final(cfg, run))
  {
    if run.Then? {
      var s := Final(cfg, run.prev);
      Reachable(cfg, run.prev);
      FirstShortHolds(cfg, run.prev);
      OneByOneHolds(cfg, run.prev);
      match run.ev {
        case FetchReturns(a, o) => OneByOneFetch(cfg, s, a, o);
        case CallReturns(a, f) => OneByOneCall(cfg, s, a, f);
        case Act(a) =>
          if s.pcs[a].Work? { OneByOneWork(cfg, s, a, s.pcs[a].w); } else { OneByOneAct(cfg, s, a); }
        case _ => OneByOneOther(cfg, s, run.ev);
      }
    }
  }

  /** With one slot the walk is sequential: only the last page dispatched is worked on, and none beyond a short one is fetched. */
  lemma {:induction false} OneAtATime<T>(cfg: Config, run: Run<T>, q: nat, p: nat)
    requires cfg.Valid() && IsRun(cfg, run) && cfg.concurrency == 1
    ensures var s := Final(cfg, run);
            && (2 <= q < |s.pcs| && s.pcs[q].Holds() ==> s.page == q + 1)
            && (q in s.h.got && |s.h.got[q]| < cfg.perPage && p in s.h.fetches ==> p <= q)
  {
    var s := Final(cfg, run);
    Reachable(cfg, run);
    OneByOneHolds(cfg, run);
    if 2 <= p < |s.pcs| {
      assert Clear(cfg, s, p);
    }
  }

  // --------------------------------------------------------- prompt delivery

  /** This page has been, or is about to be, fetched. */
  predicate Past<T>(s: State<T>, p: nat)
    requires p < |s.pcs|
  {
    p in s.h.fetches || s.pcs[p] == Work(Fetch) ||
    (s.pcs[p].Work? && s.pcs[p].w.Skip? && (s.pcs[p].w.seen == 0 || p <= s.pcs[p].w.seen))
  }

  predicate Through<T>(pc: Pc<T>) {
    pc.Finish? || pc.Gone? || (pc.Work? && pc.w.Release?)
  }

  /** When nothing fails, page p is fetched after all before it are recorded, and delivered before its worker lets go of deliverMu. */
  ghost predicate Prompt<T>(s: State<T>, p: nat)
    requires p < |s.pcs| == |s.v.ready|
  {
    && (Past(s, p) ==> forall q :: 2 <= q < p ==> s.v.ready[q])
    && (s.pcs[p].Early() ==> s.v.short < p)
    && (s.pcs[p].Work? && s.pcs[p].w.Skip? ==> s.pcs[p].w.seen == s.v.short)
    && (Through(s.pcs[p]) && !s.v.ready[p] ==> 0 < s.v.short < p)
    && (s.pcs[p].Lock? || s.pcs[p].Drain? ==> s.v.ready[p])
    && (s.v.ready[p] && !s.pcs[p].Lock? && !s.pcs[p].Drain? ==> p <= s.v.delivered)
    && (s.pcs[p].Drain? && s.pcs[p].d.Unlock? ==> p <= s.v.delivered)
  }

  ghost predicate AllPrompt<T>(cfg: Config, s: State<T>)
    requires Shape(cfg, s)
  {
    forall p :: 2 <= p < |s.pcs| ==> Prompt(s, p)
  }

  /** A step of goroutine a leaves the other pages as they were: no other worker holds the slot. */
  lemma PromptOthers<T>(cfg: Config, s: State<T>, a: nat, t: State<T>)
    requires Shape(cfg, s) && Shape(cfg, t) && OneByOne(cfg, s) && AllPrompt(cfg, s) && a < |s.pcs|
    requires t.pcs == s.pcs[a := t.pcs[a]] && s.v.delivered <= t.v.delivered
    requires t.v.short == s.v.short || (2 <= a && s.pcs[a].Holds() && s.v.short == 0)
    requires forall p :: 0 <= p < |s.v.ready| && s.v.ready[p] ==> t.v.ready[p]
    requires forall p :: 2 <= p < |s.v.ready| && p != a ==> t.v.ready[p] == s.v.ready[p]
    requires forall p :: p in t.h.fetches ==> p in s.h.fetches || p == a
    requires 2 <= a ==> Prompt(t, a)
    ensures AllPrompt(cfg, t)
  {
    forall p | 2 <= p < |t.pcs|
      ensures Prompt(t, p)
    {
      assert Prompt(s, p);
    }
  }

  lemma PromptWork<T>(cfg: Config, s: State<T>, a: nat, w: WorkPc<T>)
    requires cfg.concurrency == 1 && Safe(cfg, s) && AllCalm(s) && OneByOne(cfg, s) && AllPrompt(cfg, s)
    requires Enabled(cfg, s, Act(a)) && s.pcs[a] == Work(w) && !w.Load?
    ensures var t := WorkStep(s, a, w); a < |t.pcs| == |t.v.ready| && Prompt(t, a)
  {
    assert Calm(s.pcs[a]) && Prompt(s, a) && PageOk(s, a);
    assert s.page == a + 1;
    match w
    case Skip(_) => case Fetch => case Mark(_) =>
    case Count(_) => case Record(_) => case Release =>
  }

  lemma PromptLoad<T>(cfg: Config, s: State<T>, a: nat)
    requires cfg.concurrency == 1 && Safe(cfg, s) && AllCalm(s) && OneByOne(cfg, s) && AllPrompt(cfg, s)
    requires Enabled(cfg, s, Act(a)) && s.pcs[a] == Work(Load)
    ensures var t := WorkStep(s, a, Load); a < |t.pcs| == |t.v.ready| && Prompt(t, a)
  {
    assert Prompt(s, a) && PageOk(s, a);
    assert s.page == a + 1;
    forall q | 2 <= q < a && s.v.short == 0
      ensures s.v.ready[q]
    {
      assert Prompt(s, q) && !s.pcs[q].Holds() && !s.pcs[q].Idle? && !s.pcs[q].Main?;
    }
  }

  lemma PromptDrain<T>(cfg: Config, s: State<T>, a: nat, d: DrainPc<T>)
    requires cfg.concurrency == 1 && Safe(cfg, s) && AllCalm(s) && Failures(s) && OneByOne(cfg, s) && AllPrompt(cfg, s)
    requires 2 <= a && Enabled(cfg, s, Act(a)) && s.pcs[a] == Drain(d)
    ensures var t := DrainStep(cfg, s, a, d); a < |t.pcs| == |t.v.ready| && Prompt(t, a)
  {
    assert Calm(s.pcs[a]) && Prompt(s, a) && PageOk(s, a);
    assert s.v.delivered >= 1 && !s.v.aborted;
    match d
    case Check => case Read => case Call(_) => case Advance(_) => case Unlock =>
  }

  lemma PromptFetch<T>(cfg: Config, s: State<T>, a: nat, items: seq<T>)
    requires cfg.concurrency == 1 && Safe(cfg, s) && OneByOne(cfg, s) && AllPrompt(cfg, s)
    requires Enabled(cfg, s, FetchReturns(a, Page(items)))
    ensures var t := Step(cfg, s, FetchReturns(a, Page(items))); Shape(cfg, t) && AllPrompt(cfg, t)
  {
    var ev: Event<T> := FetchReturns(a, Page(items));
    ControlStep(cfg, s, ev);
    ReturnGrows(cfg, s, ev);
    assert 2 <= a ==> Prompt(s, a) && PageOk(s, a);
    PromptOthers(cfg, s, a, Step(cfg, s, ev));
  }

  lemma PromptCall<T>(cfg: Config, s: State<T>, a: nat)
    requires cfg.concurrency == 1 && Safe(cfg, s) && OneByOne(cfg, s) && AllPrompt(cfg, s)
    requires Enabled(cfg, s, CallReturns(a, None))
    ensures var t := Step(cfg, s, CallReturns(a, None)); Shape(cfg, t) && AllPrompt(cfg, t)
  {
    var ev: Event<T> := CallReturns(a, None);
    ControlStep(cfg, s, ev);
    ReturnGrows(cfg, s, ev);
    assert 2 <= a ==> Prompt(s, a);
    PromptOthers(cfg, s, a, Step(cfg, s, ev));
  }

  lemma PromptSpawn<T>(cfg: Config, s: State<T>)
    requires cfg.concurrency == 1 && Safe(cfg, s) && OneByOne(cfg, s) && AllPrompt(cfg, s)
    requires s.pcs[0] == Main(Select) && MainEnabled(cfg, s, Select)
    ensures var t := MainStep(cfg, s, Select); Shape(cfg, t) && AllPrompt(cfg, t)
  {
    var t := MainStep(cfg, s, Select);
    SpawnKeepsControl(cfg, s);
    assert PageOk(s, s.page);
    forall p | 2 <= p < |t.pcs|
      ensures Prompt(t, p)
    {
      assert Prompt(s, p);
    }
  }

  lemma PromptOther<T>(cfg: Config, s: State<T>, a: nat)
    requires cfg.concurrency == 1 && Safe(cfg, s) && OneByOne(cfg, s) && AllPrompt(cfg, s)
    requires Enabled(cfg, s, Act(a)) && !s.pcs[a].Work? && !s.pcs[a].Drain? && s.pcs[a] != Main(Select)
    ensures var t := Step(cfg, s, Act(a)); Shape(cfg, t) && AllPrompt(cfg, t)
  {
    ControlAct(cfg, s, a);
    assert 2 <= a ==> Prompt(s, a);
    PromptOthers(cfg, s, a, Step(cfg, s, Act(a)));
  }

  lemma PromptAct<T>(cfg: Config, s: State<T>, a: nat)
    requires cfg.concurrency == 1 && Inv(cfg, s) && AllCalm(s) && OneByOne(cfg, s) && AllPrompt(cfg, s)
    requires Enabled(cfg, s, Act(a))
    ensures var t := Step(cfg, s, Act(a)); Shape(cfg, t) && AllPrompt(cfg, t)
  {
    ControlAct(cfg, s, a);
    match s.pcs[a]
    case Work(w) =>
      WorkGrows(s, a, w);
      if w.Load? { PromptLoad(cfg, s, a); } else { PromptWork(cfg, s, a, w); }
      PromptWorkOthers(cfg, s, a, w);
    case Drain(d) =>
      DrainGrows(cfg, s, a, d);
      if 2 <= a { PromptDrain(cfg, s, a, d); }
      PromptOthers(cfg, s, a, DrainStep(cfg, s, a, d));
    case Main(m) => if m.Select? { PromptSpawn(cfg, s); } else { PromptOther(cfg, s, a); }
    case Lock => PromptOther(cfg, s, a);
    case Finish => PromptOther(cfg, s, a);
  }

  lemma PromptWorkOthers<T>(cfg: Config, s: State<T>, a: nat, w: WorkPc<T>)
    requires Shape(cfg, s) && OneByOne(cfg, s) && AllPrompt(cfg, s)
    requires 2 <= a < |s.pcs| && s.pcs[a] == Work(w) && !w.InFetch?
    requires Shape(cfg, WorkStep(s, a, w)) && Prompt(WorkStep(s, a, w), a)
    ensures AllPrompt(cfg, WorkStep(s, a, w))
  {
    WorkGrows(s, a, w);
    WorkConcerns(s, a, w);
    WorkMarks(s, a, w);
    PromptOthers(cfg, s, a, WorkStep(s, a, w));
  }

  lemma WorkMarks<T>(s: State<T>, a: nat, w: WorkPc<T>)
    requires a < |s.pcs| == |s.v.ready| == |s.v.pending| && s.pcs[a] == Work(w) && !w.InFetch?
    ensures WorkStep(s, a, w).v.short == s.v.short || s.v.short == 0
  {
  }

  lemma {:induction false} PromptHolds<T>(cfg: Config, run: Run<T>)
    requires cfg.Valid() && IsRun(cfg, run) && cfg.concurrency == 1 && FailureFree(run)
    ensures Shape(cfg, Final(cfg, run)) && AllPrompt(cfg, Final(cfg, run))
  {
    if run.Then? {
      var s := Final(cfg, run.prev);
      Reachable(cfg, run.prev);
      OneByOneHolds(cfg, run.prev);
      FailureFreeIsCalm(cfg, run.prev);
      PromptHolds(cfg, run.prev);
      match run.ev {
        case FetchReturns(a, o) => PromptFetch(cfg, s, a, o.items);
        case CallReturns(a, f) => PromptCall(cfg, s, a);
        case Act(a) => PromptAct(cfg, s, a);
        case _ => ControlStep(cfg, s, run.ev); PromptOthers(cfg, s, 0, Final(cfg, run));
      }
    }
  }

  /** With one slot and nothing failing, at most one page is recorded and not yet delivered. */
  lemma {:induction false} OneWaits<T>(cfg: Config, run: Run<T>, p: nat, q: nat)
    requires cfg.Valid() && IsRun(cfg, run) && cfg.concurrency == 1 && FailureFree(run)
    requires var s := Final(cfg, run);
             && 2 <= p < |s.pcs| == |s.v.ready| && 2 <= q < |s.pcs|
             && s.v.ready[p] && s.v.ready[q] && p > s.v.delivered && q > s.v.delivered
    ensures p == q
  {
    PromptHolds(cfg, run);
    OneByOneHolds(cfg, run);
    assert Prompt(Final(cfg, run), p) && Prompt(Final(cfg, run), q);
  }
}
