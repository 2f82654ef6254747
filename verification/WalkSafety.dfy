/** What every step of the walk keeps, for any schedule, server, callback and cancellation. */
module WalkSafety {
  import opened Common
  import opened WalkModel

  // ---------------------------------------------------------------- control

  ghost predicate Shape<T>(cfg: Config, s: State<T>) {
    && cfg.Valid()
    && |s.pcs| == |s.v.ready| == |s.v.pending| == cfg.maxPages + 1
    && s.pcs[0].Dispatcher()
    && s.pcs[1].Idle?
    && forall p :: 2 <= p < |s.pcs| ==> !s.pcs[p].Main?
  }

  /** Pages 2..page-1 have been dispatched and no others; no worker is left after wg.Wait. */
  ghost predicate Frontier<T>(cfg: Config, s: State<T>)
    requires Shape(cfg, s)
  {
    && 2 <= s.page <= Max(2, cfg.maxPages + 1)
    && (forall p :: 2 <= p < |s.pcs| ==> (s.pcs[p].Idle? <==> s.page <= p))
    && (s.pcs[0].Main? ==>
          match s.pcs[0].m
          case FirstFetch => s.page == 2
          case FirstCall(_) => s.page == 2
          case Select => s.page <= cfg.maxPages
          case Collect => AllQuiet(s)
          case Done => AllQuiet(s)
          case _ => true)
    && (!s.pcs[0].Main? ==> AllQuiet(s))
  }

  function Holders<T>(pcs: seq<Pc<T>>): set<nat> {
    set p: nat | 2 <= p < |pcs| && pcs[p].Holds()
  }

  /** deliverMu has at most one owner; the semaphore counts the workers that hold a slot. */
  ghost predicate Locks<T>(cfg: Config, s: State<T>)
    requires Shape(cfg, s)
  {
    && (forall a :: 0 <= a < |s.pcs| ==> (s.pcs[a].Drain? <==> s.lock == Some(a)))
    && (s.lock.Some? ==> s.lock.value < |s.pcs|)
    && s.slots == |Holders(s.pcs)|
    && s.slots <= cfg.concurrency
  }

  ghost predicate Control<T>(cfg: Config, s: State<T>) {
    Shape(cfg, s) && Frontier(cfg, s) && Locks(cfg, s)
  }

  lemma HoldersUpdate<T>(pcs: seq<Pc<T>>, a: nat, pc: Pc<T>)
    requires a < |pcs|
    ensures var h, k := Holders(pcs), Holders(pcs[a := pc]);
            if a < 2 || (pcs[a].Holds() <==> pc.Holds()) then h == k
            else if pcs[a].Holds() then a in h && k == h - {a}
            else a !in h && k == h + {a}
  {
  }

  /** How one goroutine's action moves its own counter, the lock and the semaphore. */
  ghost predicate Moves<T>(s: State<T>, a: nat, t: State<T>)
  {
    && a < |s.pcs| == |t.pcs|
    && t.pcs == s.pcs[a := t.pcs[a]]
    && t.page == s.page
    && |t.v.ready| == |s.v.ready| && |t.v.pending| == |s.v.pending|
    && match (s.pcs[a], t.pcs[a])
       case (Work(w), Work(_)) => t.lock == s.lock && t.slots == s.slots
       case (Work(w), Lock) => t.lock == s.lock && t.slots == s.slots
       case (Work(w), Finish) => t.lock == s.lock && t.slots == if s.slots > 0 then s.slots - 1 else 0
       case (Finish, Gone) => t.lock == s.lock && t.slots == s.slots
       case (Lock, Drain(_)) => s.lock.None? && t.lock == Some(a) && t.slots == s.slots
       case (Drain(_), Drain(_)) => t.lock == s.lock && t.slots == s.slots
       case (Drain(_), Main(m)) => a == 0 && m.Collect? && t.lock.None? && t.slots == s.slots
       case (Drain(_), Work(_)) => a != 0 && t.lock.None? && t.slots == s.slots
       case (Main(n), Main(m)) =>
         && a == 0 && t.lock == s.lock && t.slots == s.slots
         && !m.FirstFetch? && (m.FirstCall? ==> n.FirstFetch?)
         && (m.Select? ==> n.Test? && s.page < |s.pcs|)
         && !m.Collect?
         && (m.Done? ==> n.Collect? || n.FirstFetch? || n.FirstCall?)
       case (Main(n), Lock) => a == 0 && n.Wait? && AllQuiet(s) && t.lock == s.lock && t.slots == s.slots
       case _ => false
  }

  lemma MovesKeepControl<T>(cfg: Config, s: State<T>, a: nat, t: State<T>)
    requires Control(cfg, s) && Moves(s, a, t)
    ensures Control(cfg, t)
  {
    HoldersUpdate(s.pcs, a, t.pcs[a]);
    if a == 0 && !t.pcs[0].Main? {
      assert AllQuiet(s);
    }
  }

  lemma WorkMoves<T>(s: State<T>, a: nat, w: WorkPc<T>)
    requires a < |s.pcs| == |s.v.ready| == |s.v.pending| && s.pcs[a] == Work(w) && !w.InFetch?
    ensures Moves(s, a, WorkStep(s, a, w))
  {
  }

  lemma DrainMoves<T>(cfg: Config, s: State<T>, a: nat, d: DrainPc<T>)
    requires a < |s.pcs| == |s.v.ready| == |s.v.pending| && s.pcs[a] == Drain(d) && !d.InCall?
    requires d.Read? || d.Advance? ==> s.v.delivered + 1 < |s.v.ready|
    ensures Moves(s, a, DrainStep(cfg, s, a, d))
  {
  }

  lemma ReturnMoves<T>(cfg: Config, s: State<T>, ev: Event<T>)
    requires Enabled(cfg, s, ev) && (ev.FetchReturns? || ev.CallReturns?)
    requires s.pcs[ev.agent].Main? ==> ev.agent == 0
    ensures Moves(s, ev.agent, Step(cfg, s, ev))
  {
  }

  /** The dispatcher spawns the worker of the next page. */
  lemma SpawnKeepsControl<T>(cfg: Config, s: State<T>)
    requires Control(cfg, s) && s.pcs[0] == Main(Select) && MainEnabled(cfg, s, Select)
    ensures Control(cfg, MainStep(cfg, s, Select))
  {
    HoldersUpdate(s.pcs, 0, Main(Test));
    HoldersUpdate(s.pcs[0 := Main(Test)], s.page, Work(Load));
  }

  lemma ControlAct<T>(cfg: Config, s: State<T>, a: nat)
    requires Control(cfg, s) && Enabled(cfg, s, Act(a))
    ensures Control(cfg, Step(cfg, s, Act(a)))
  {
    match s.pcs[a]
    case Main(m) =>
      if m.Select? { SpawnKeepsControl(cfg, s); } else { MovesKeepControl(cfg, s, a, MainStep(cfg, s, m)); }
    case Work(w) => WorkMoves(s, a, w); MovesKeepControl(cfg, s, a, WorkStep(s, a, w));
    case Drain(d) => DrainMoves(cfg, s, a, d); MovesKeepControl(cfg, s, a, DrainStep(cfg, s, a, d));
    case Lock => MovesKeepControl(cfg, s, a, Step(cfg, s, Act(a)));
    case Finish => MovesKeepControl(cfg, s, a, Step(cfg, s, Act(a)));
  }

  lemma ControlStep<T>(cfg: Config, s: State<T>, ev: Event<T>)
    requires Control(cfg, s) && Enabled(cfg, s, ev)
    ensures Control(cfg, Step(cfg, s, ev))
  {
    match ev
    case CallerCancels =>
    case SelectDone => MovesKeepControl(cfg, s, 0, Step(cfg, s, ev));
    case FetchReturns(a, _) => ReturnMoves(cfg, s, ev); MovesKeepControl(cfg, s, a, Step(cfg, s, ev));
    case CallReturns(a, _) => ReturnMoves(cfg, s, ev); MovesKeepControl(cfg, s, a, Step(cfg, s, ev));
    case Act(a) => ControlAct(cfg, s, a);
  }

  // ------------------------------------------------------------------- data

  /** What is known of page p >= 2 from where its worker stands. */
  ghost predicate PageOk<T>(s: State<T>, p: nat)
    requires p < |s.pcs| == |s.v.ready| == |s.v.pending|
  {
    && (s.v.ready[p] ==> p in s.h.got)
    && s.v.pending[p] == (if s.v.ready[p] && p > s.v.delivered then s.h.got[p] else [])
    && (p in s.h.got ==> s.v.ready[p] || s.pcs[p].Carries(s.h.got[p]))
    && (s.pcs[p].Carrying() ==> p in s.h.got && !s.v.ready[p])
    && (s.pcs[p].BeforeFetch() || s.pcs[p].Fetching() || s.pcs[p].FetchFailed() ==> p !in s.h.got && !s.v.ready[p])
    && (s.pcs[p].BeforeFetch() ==> p !in s.h.fetches)
    && (p in s.h.got || s.pcs[p].Fetching() || s.pcs[p].FetchFailed() ==> p in s.h.fetches)
  }

  ghost predicate Distinct(xs: seq<nat>) {
    forall i, j :: 0 <= i < j < |xs| ==> xs[i] != xs[j]
  }

  ghost predicate Pages<T>(cfg: Config, s: State<T>)
    requires Shape(cfg, s)
  {
    && (forall p :: 2 <= p < |s.pcs| ==> PageOk(s, p))
    && (forall p :: p in s.h.got ==> 1 <= p < |s.pcs|)
    && (forall p :: p in s.h.fetches ==> 1 <= p < |s.pcs|)
    && 1 in s.h.fetches
    && Distinct(s.h.fetches)
    && !s.v.ready[0]
  }

  /** Every onPage begun has returned nil, or the last one failed and the walk is aborted. */
  ghost predicate Settled<T>(s: State<T>) {
    |s.h.calls| == s.v.delivered || (|s.h.calls| == s.v.delivered + 1 && s.v.aborted)
  }

  /** The owner of deliverMu is at d. */
  ghost predicate DrainOk<T>(cfg: Config, s: State<T>, d: DrainPc<T>)
    requires Shape(cfg, s)
  {
    && 1 <= s.v.delivered
    && match d
       case Check => Settled(s)
       case Unlock => Settled(s)
       case Read => s.v.delivered < cfg.maxPages && |s.h.calls| == s.v.delivered && (s.v.aborted ==> s.h.late == 0)
       case Call(items) =>
         && s.v.delivered < cfg.maxPages && |s.h.calls| == s.v.delivered && (s.v.aborted ==> s.h.late == 0)
         && s.v.ready[s.v.delivered + 1]
         && s.v.delivered + 1 in s.h.got && s.h.got[s.v.delivered + 1] == items
       case InCall(items) => Handing(cfg, s, items)
       case Advance(items) => Handing(cfg, s, items)
       case Fail(f) => |s.h.calls| == s.v.delivered + 1 && (f.Cancel? ==> s.v.aborted)
  }

  /** onPage has been given page delivered+1, which has not been counted as delivered yet. */
  ghost predicate Handing<T>(cfg: Config, s: State<T>, items: seq<T>)
    requires Shape(cfg, s)
  {
    && s.v.delivered < cfg.maxPages && |s.h.calls| == s.v.delivered + 1
    && s.v.ready[s.v.delivered + 1]
    && s.v.delivered + 1 in s.h.got && s.h.got[s.v.delivered + 1] == items
  }

  /** Page 1 has not been delivered yet; nothing concurrent has begun. */
  ghost predicate BeforeWalk<T>(s: State<T>)
    requires 0 < |s.pcs|
  {
    && s.page == 2 && s.lock.None? && !s.v.aborted && s.h.errors == []
    && s.pcs[0].Main?
    && match s.pcs[0].m
       case FirstFetch => 1 !in s.h.got && s.h.calls == [] && s.v.items == 0 && s.v.result.None?
       case FirstCall(items) =>
         s.h.calls == [1] && 1 in s.h.got && s.h.got[1] == items && s.v.items == 0 && s.v.result.None?
       case Done => s.v.result.Some? && |s.h.calls| <= 1
       case _ => false
  }

  /** In-order, exactly-once delivery of exactly what was fetched. */
  ghost predicate Delivery<T>(cfg: Config, s: State<T>)
    requires Control(cfg, s)
  {
    && s.v.delivered <= cfg.maxPages
    && |s.h.out| == s.v.delivered
    && (forall p :: 1 <= p <= s.v.delivered ==> s.v.ready[p] && p in s.h.got && s.h.out[p - 1] == s.h.got[p])
    && (forall i :: 0 <= i < |s.h.calls| ==> s.h.calls[i] == i + 1 && s.h.calls[i] in s.h.got)
    && (s.v.delivered == 0 ==> BeforeWalk(s))
    && (s.v.delivered >= 1 && s.pcs[0].Main? ==> !s.pcs[0].m.FirstFetch? && !s.pcs[0].m.FirstCall?)
    && (s.v.delivered >= 1 && s.lock.None? ==> Settled(s))
    && (s.lock.Some? ==> DrainOk(cfg, s, s.pcs[s.lock.value].d))
    && s.h.late <= 1 && (s.h.late == 1 ==> s.v.aborted)
  }

  /** Of all the pages, a step concerns page a alone. */
  ghost predicate Concerns<T>(s: State<T>, a: nat, t: State<T>) {
    && |s.pcs| == |s.v.ready| == |s.v.pending| && a < |s.pcs|
    && |t.pcs| == |t.v.ready| == |t.v.pending| == |s.pcs|
    && t.v.delivered == s.v.delivered
    && t.pcs == s.pcs[a := t.pcs[a]]
    && t.v.ready == s.v.ready[a := t.v.ready[a]]
    && t.v.pending == s.v.pending[a := t.v.pending[a]]
    && (t.h.fetches == s.h.fetches || (t.h.fetches == s.h.fetches + [a] && s.pcs[a] == Work(Fetch)))
    && (t.h.got == s.h.got || (a in t.h.got && t.h.got == s.h.got[a := t.h.got[a]]))
  }

  lemma ConcernsKeepsPages<T>(cfg: Config, s: State<T>, a: nat, t: State<T>)
    requires Shape(cfg, s) && Shape(cfg, t) && Pages(cfg, s) && Concerns(s, a, t)
    requires 2 <= a ==> PageOk(t, a)
    requires !t.v.ready[0]
    requires a == 0 ==> t.h.got == s.h.got && t.h.fetches == s.h.fetches
    ensures Pages(cfg, t)
  {
    forall p | 2 <= p < |t.pcs|
      ensures PageOk(t, p)
    {
      assert PageOk(s, p);
    }
    if t.h.fetches != s.h.fetches {
      assert PageOk(s, a);
    }
  }

  lemma WorkConcerns<T>(s: State<T>, a: nat, w: WorkPc<T>)
    requires a < |s.pcs| == |s.v.ready| == |s.v.pending| && s.pcs[a] == Work(w) && !w.InFetch?
    ensures Concerns(s, a, WorkStep(s, a, w))
  {
    match w
    case Load => case Skip(_) => case Fetch => case Failed(_) => case Abort(_) => case Mark(_) =>
    case Count(_) => case Record(_) => case Release =>
  }

  lemma WorkPageOk<T>(s: State<T>, a: nat, w: WorkPc<T>)
    requires a < |s.pcs| == |s.v.ready| == |s.v.pending| && s.pcs[a] == Work(w) && !w.InFetch?
    requires PageOk(s, a) && (!s.v.ready[a] ==> a > s.v.delivered)
    ensures var t := WorkStep(s, a, w); a < |t.pcs| == |t.v.ready| == |t.v.pending| && PageOk(t, a)
  {
    match w
    case Load => case Skip(_) => case Fetch => case Failed(_) => case Abort(_) => case Mark(_) =>
    case Count(_) => case Record(_) => case Release =>
  }

  lemma DrainConcerns<T>(cfg: Config, s: State<T>, a: nat, d: DrainPc<T>)
    requires a < |s.pcs| == |s.v.ready| == |s.v.pending| && s.pcs[a] == Drain(d) && !d.InCall? && !d.Advance?
    requires d.Read? ==> s.v.delivered + 1 < |s.v.ready|
    ensures Concerns(s, a, DrainStep(cfg, s, a, d))
    ensures PageOk(s, a) ==> PageOk(DrainStep(cfg, s, a, d), a)
    ensures var t := DrainStep(cfg, s, a, d); t.v.ready == s.v.ready && t.h.got == s.h.got && t.h.fetches == s.h.fetches
  {
    match d
    case Check => case Read => case Call(_) => case Fail(_) => case Unlock =>
  }

  lemma PagesWork<T>(cfg: Config, s: State<T>, a: nat, w: WorkPc<T>)
    requires Control(cfg, s) && Pages(cfg, s) && Delivery(cfg, s)
    requires Enabled(cfg, s, Act(a)) && s.pcs[a] == Work(w)
    ensures Control(cfg, WorkStep(s, a, w)) && Pages(cfg, WorkStep(s, a, w))
  {
    ControlAct(cfg, s, a);
    assert PageOk(s, a);
    WorkConcerns(s, a, w);
    WorkPageOk(s, a, w);
    ConcernsKeepsPages(cfg, s, a, WorkStep(s, a, w));
  }

  lemma PagesAdvance<T>(cfg: Config, s: State<T>, a: nat, items: seq<T>)
    requires Control(cfg, s) && Pages(cfg, s) && Delivery(cfg, s)
    requires Enabled(cfg, s, Act(a)) && s.pcs[a] == Drain(Advance(items))
    ensures var t := DrainStep(cfg, s, a, Advance(items)); Shape(cfg, t) && Pages(cfg, t)
  {
    var t := DrainStep(cfg, s, a, Advance(items));
    ControlAct(cfg, s, a);
    forall p | 2 <= p < |t.pcs|
      ensures PageOk(t, p)
    {
      assert PageOk(s, p);
    }
  }

  lemma PagesDrain<T>(cfg: Config, s: State<T>, a: nat, d: DrainPc<T>)
    requires Control(cfg, s) && Pages(cfg, s) && Delivery(cfg, s)
    requires Enabled(cfg, s, Act(a)) && s.pcs[a] == Drain(d)
    ensures Control(cfg, DrainStep(cfg, s, a, d)) && Pages(cfg, DrainStep(cfg, s, a, d))
  {
    ControlAct(cfg, s, a);
    if d.Advance? {
      PagesAdvance(cfg, s, a, d.items);
    } else {
      assert 2 <= a ==> PageOk(s, a);
      DrainConcerns(cfg, s, a, d);
      ConcernsKeepsPages(cfg, s, a, DrainStep(cfg, s, a, d));
    }
  }

  /** A step of a goroutine that does not own deliverMu, as far as delivery can tell. */
  ghost predicate Aside<T>(s: State<T>, a: nat, t: State<T>) {
    && a < |s.pcs| == |t.pcs|
    && t.pcs == s.pcs[a := t.pcs[a]] && t.lock == s.lock
    && t.v.delivered == s.v.delivered && (s.v.aborted ==> t.v.aborted)
    && t.h.calls == s.h.calls && t.h.out == s.h.out && t.h.late == s.h.late
    && |t.v.ready| == |s.v.ready|
    && (forall p :: 0 <= p < |s.v.ready| && s.v.ready[p] ==> t.v.ready[p])
    && (forall p :: p in s.h.got ==> p in t.h.got && t.h.got[p] == s.h.got[p])
  }

  lemma AsideKeepsDelivery<T>(cfg: Config, s: State<T>, a: nat, t: State<T>)
    requires Control(cfg, s) && Control(cfg, t) && a < |s.pcs| && s.lock != Some(a)
    requires s.v.delivered >= 1
    requires a == 0 ==> t.pcs[0].Main? ==> !t.pcs[0].m.FirstFetch? && !t.pcs[0].m.FirstCall?
    requires Delivery(cfg, s) && Aside(s, a, t)
    ensures Delivery(cfg, t)
  {
  }

  lemma WorkAside<T>(s: State<T>, a: nat, w: WorkPc<T>)
    requires a < |s.pcs| == |s.v.ready| == |s.v.pending| && s.pcs[a] == Work(w) && !w.InFetch?
    ensures Aside(s, a, WorkStep(s, a, w))
  {
    match w
    case Load => case Skip(_) => case Fetch => case Failed(_) => case Abort(_) => case Mark(_) =>
    case Count(_) => case Record(_) => case Release =>
  }

  lemma DeliveryWork<T>(cfg: Config, s: State<T>, a: nat, w: WorkPc<T>)
    requires Control(cfg, s) && Delivery(cfg, s) && Enabled(cfg, s, Act(a)) && s.pcs[a] == Work(w)
    ensures Control(cfg, WorkStep(s, a, w)) && Delivery(cfg, WorkStep(s, a, w))
  {
    ControlAct(cfg, s, a);
    assert s.page > a;
    WorkAside(s, a, w);
    AsideKeepsDelivery(cfg, s, a, WorkStep(s, a, w));
  }

  /** The owner of deliverMu moves without touching what has been delivered or handed over. */
  lemma DeliveryDrainQuiet<T>(cfg: Config, s: State<T>, a: nat, d: DrainPc<T>)
    requires Control(cfg, s) && Pages(cfg, s) && Delivery(cfg, s)
    requires Enabled(cfg, s, Act(a)) && s.pcs[a] == Drain(d) && (d.Check? || d.Read? || d.Unlock?)
    requires Control(cfg, DrainStep(cfg, s, a, d))
    ensures Delivery(cfg, DrainStep(cfg, s, a, d))
  {
    if d.Read? && s.v.ready[s.v.delivered + 1] {
      assert PageOk(s, s.v.delivered + 1);
    }
  }

  lemma DeliveryDrainFail<T>(cfg: Config, s: State<T>, a: nat, f: FailPc)
    requires Control(cfg, s) && Delivery(cfg, s)
    requires Enabled(cfg, s, Act(a)) && s.pcs[a] == Drain(Fail(f))
    requires Control(cfg, DrainStep(cfg, s, a, Fail(f)))
    ensures Delivery(cfg, DrainStep(cfg, s, a, Fail(f)))
  {
  }

  lemma DeliveryCall<T>(cfg: Config, s: State<T>, a: nat, items: seq<T>)
    requires Control(cfg, s) && Delivery(cfg, s)
    requires Enabled(cfg, s, Act(a)) && s.pcs[a] == Drain(Call(items))
    requires Control(cfg, DrainStep(cfg, s, a, Call(items)))
    ensures Delivery(cfg, DrainStep(cfg, s, a, Call(items)))
  {
  }

  lemma DeliveryAdvance<T>(cfg: Config, s: State<T>, a: nat, items: seq<T>)
    requires Control(cfg, s) && Delivery(cfg, s)
    requires Enabled(cfg, s, Act(a)) && s.pcs[a] == Drain(Advance(items))
    requires Control(cfg, DrainStep(cfg, s, a, Advance(items)))
    ensures Delivery(cfg, DrainStep(cfg, s, a, Advance(items)))
  {
  }

  lemma DeliveryDrain<T>(cfg: Config, s: State<T>, a: nat, d: DrainPc<T>)
    requires Control(cfg, s) && Pages(cfg, s) && Delivery(cfg, s)
    requires Enabled(cfg, s, Act(a)) && s.pcs[a] == Drain(d)
    ensures Control(cfg, DrainStep(cfg, s, a, d)) && Delivery(cfg, DrainStep(cfg, s, a, d))
  {
    ControlAct(cfg, s, a);
    match d
    case Fail(f) => DeliveryDrainFail(cfg, s, a, f);
    case Call(items) => DeliveryCall(cfg, s, a, items);
    case Advance(items) => DeliveryAdvance(cfg, s, a, items);
    case _ => DeliveryDrainQuiet(cfg, s, a, d);
  }

  // ---------------------------------------------------- the remaining steps

  lemma SpawnOk<T>(cfg: Config, s: State<T>)
    requires Control(cfg, s) && Pages(cfg, s) && Delivery(cfg, s)
    requires s.pcs[0] == Main(Select) && MainEnabled(cfg, s, Select)
    ensures var t := MainStep(cfg, s, Select); Control(cfg, t) && Pages(cfg, t) && Delivery(cfg, t)
  {
    var t := MainStep(cfg, s, Select);
    SpawnKeepsControl(cfg, s);
    forall p | 2 <= p < |t.pcs|
      ensures PageOk(t, p)
    {
      assert PageOk(s, p);
    }
  }

  /** A step that moves one goroutine's counter and nothing else that data depends on. */
  lemma PlainOk<T>(cfg: Config, s: State<T>, a: nat, t: State<T>)
    requires Control(cfg, s) && Pages(cfg, s) && Delivery(cfg, s)
    requires Control(cfg, t) && a < |s.pcs| && t.pcs == s.pcs[a := t.pcs[a]] && t.h == s.h
    requires t.v == s.v.(result := t.v.result) && s.lock != Some(a) && t.lock == s.lock && s.v.delivered >= 1
    requires a == 0 ==> t.pcs[0].Main? ==> !t.pcs[0].m.FirstFetch? && !t.pcs[0].m.FirstCall?
    requires 2 <= a ==> s.pcs[a] == Finish && t.pcs[a] == Gone
    ensures Pages(cfg, t) && Delivery(cfg, t)
  {
    assert 2 <= a ==> PageOk(s, a);
    ConcernsKeepsPages(cfg, s, a, t);
    AsideKeepsDelivery(cfg, s, a, t);
  }

  lemma LockOk<T>(cfg: Config, s: State<T>, a: nat)
    requires Control(cfg, s) && Pages(cfg, s) && Delivery(cfg, s)
    requires Enabled(cfg, s, Act(a)) && s.pcs[a] == Lock
    ensures var t := Step(cfg, s, Act(a)); Control(cfg, t) && Pages(cfg, t) && Delivery(cfg, t)
  {
    var t := Step(cfg, s, Act(a));
    ControlAct(cfg, s, a);
    assert 2 <= a ==> PageOk(s, a) && s.page > a;
    ConcernsKeepsPages(cfg, s, a, t);
  }

  lemma MainOk<T>(cfg: Config, s: State<T>, m: MainPc<T>)
    requires Control(cfg, s) && Pages(cfg, s) && Delivery(cfg, s)
    requires Enabled(cfg, s, Act(0)) && s.pcs[0] == Main(m)
    ensures var t := MainStep(cfg, s, m); Control(cfg, t) && Pages(cfg, t) && Delivery(cfg, t)
  {
    if m.Select? {
      SpawnOk(cfg, s);
    } else {
      ControlAct(cfg, s, 0);
      PlainOk(cfg, s, 0, MainStep(cfg, s, m));
    }
  }

  lemma FinishOk<T>(cfg: Config, s: State<T>, a: nat)
    requires Control(cfg, s) && Pages(cfg, s) && Delivery(cfg, s)
    requires Enabled(cfg, s, Act(a)) && s.pcs[a] == Finish
    ensures var t := Goto(s, a, Gone); Control(cfg, t) && Pages(cfg, t) && Delivery(cfg, t)
  {
    assert s.page > a;
    ControlAct(cfg, s, a);
    PlainOk(cfg, s, a, Goto(s, a, Gone));
  }

  lemma GiveUpOk<T>(cfg: Config, s: State<T>)
    requires Control(cfg, s) && Pages(cfg, s) && Delivery(cfg, s) && Enabled(cfg, s, SelectDone)
    ensures var t := Goto(s, 0, Main(Wait)); Control(cfg, t) && Pages(cfg, t) && Delivery(cfg, t)
  {
    ControlStep(cfg, s, SelectDone);
    PlainOk(cfg, s, 0, Goto(s, 0, Main(Wait)));
  }

  lemma FetchReturnConcerns<T>(cfg: Config, s: State<T>, a: nat, o: FetchOutcome<T>)
    requires 2 <= a < |s.pcs| == |s.v.ready| == |s.v.pending| && s.pcs[a] == Work(InFetch) && PageOk(s, a)
    ensures var t := FetchReturn(cfg, s, a, o);
            Concerns(s, a, t) && PageOk(t, a) && Aside(s, a, t) && t.v.ready == s.v.ready && t.lock == s.lock
  {
  }

  lemma FetchReturnOk<T>(cfg: Config, s: State<T>, a: nat, o: FetchOutcome<T>)
    requires Control(cfg, s) && Pages(cfg, s) && Delivery(cfg, s) && a != 0
    requires Enabled(cfg, s, FetchReturns(a, o))
    ensures var t := FetchReturn(cfg, s, a, o); Control(cfg, t) && Pages(cfg, t) && Delivery(cfg, t)
  {
    var t := FetchReturn(cfg, s, a, o);
    ControlStep(cfg, s, FetchReturns(a, o));
    assert s.page > a;
    assert PageOk(s, a);
    FetchReturnConcerns(cfg, s, a, o);
    ConcernsKeepsPages(cfg, s, a, t);
    AsideKeepsDelivery(cfg, s, a, t);
  }

  lemma CallReturnDelivery<T>(cfg: Config, s: State<T>, a: nat, f: Option<Cause>, items: seq<T>)
    requires Control(cfg, s) && Delivery(cfg, s) && a < |s.pcs| && s.pcs[a] == Drain(InCall(items))
    requires Control(cfg, CallReturn(s, a, items, f))
    ensures Delivery(cfg, CallReturn(s, a, items, f))
  {
  }

  lemma CallReturnOk<T>(cfg: Config, s: State<T>, a: nat, f: Option<Cause>, items: seq<T>)
    requires Control(cfg, s) && Pages(cfg, s) && Delivery(cfg, s)
    requires Enabled(cfg, s, CallReturns(a, f)) && s.pcs[a] == Drain(InCall(items))
    ensures var t := CallReturn(s, a, items, f); Control(cfg, t) && Pages(cfg, t) && Delivery(cfg, t)
  {
    var t := CallReturn(s, a, items, f);
    ControlStep(cfg, s, CallReturns(a, f));
    assert 2 <= a ==> PageOk(s, a);
    ConcernsKeepsPages(cfg, s, a, t);
    CallReturnDelivery(cfg, s, a, f, items);
  }

  lemma FirstFetchOk<T>(cfg: Config, s: State<T>, o: FetchOutcome<T>)
    requires Control(cfg, s) && Pages(cfg, s) && Delivery(cfg, s) && Enabled(cfg, s, FetchReturns(0, o))
    ensures var t := FirstFetchReturn(s, o); Control(cfg, t) && Pages(cfg, t) && Delivery(cfg, t)
  {
    var t := FirstFetchReturn(s, o);
    assert s.pcs[0] == Main(FirstFetch);
    ControlStep(cfg, s, FetchReturns(0, o));
    forall p | 2 <= p < |t.pcs|
      ensures PageOk(t, p)
    {
      assert PageOk(s, p);
    }
  }

  lemma FirstCallOk<T>(cfg: Config, s: State<T>, f: Option<Cause>)
    requires Control(cfg, s) && Pages(cfg, s) && Delivery(cfg, s)
    requires Enabled(cfg, s, CallReturns(0, f)) && s.pcs[0].Main?
    ensures var t := FirstCallReturn(cfg, s, s.pcs[0].m.items, f); Control(cfg, t) && Pages(cfg, t) && Delivery(cfg, t)
  {
    var t := FirstCallReturn(cfg, s, s.pcs[0].m.items, f);
    ControlStep(cfg, s, CallReturns(0, f));
    forall p | 2 <= p < |t.pcs|
      ensures PageOk(t, p)
    {
      assert PageOk(s, p);
    }
  }

  lemma CallerOk<T>(cfg: Config, s: State<T>)
    requires Control(cfg, s) && Pages(cfg, s) && Delivery(cfg, s)
    ensures var t := s.(v := s.v.(cancelled := true), h := s.h.(byCaller := true));
            Control(cfg, t) && Pages(cfg, t) && Delivery(cfg, t)
  {
    var t := s.(v := s.v.(cancelled := true), h := s.h.(byCaller := true));
    forall p | 2 <= p < |t.pcs|
      ensures PageOk(t, p)
    {
      assert PageOk(s, p);
    }
  }

  lemma DataAct<T>(cfg: Config, s: State<T>, a: nat)
    requires Control(cfg, s) && Pages(cfg, s) && Delivery(cfg, s) && Enabled(cfg, s, Act(a))
    ensures var t := Step(cfg, s, Act(a)); Control(cfg, t) && Pages(cfg, t) && Delivery(cfg, t)
  {
    match s.pcs[a]
    case Main(m) => MainOk(cfg, s, m);
    case Work(w) => PagesWork(cfg, s, a, w); DeliveryWork(cfg, s, a, w);
    case Drain(d) => PagesDrain(cfg, s, a, d); DeliveryDrain(cfg, s, a, d);
    case Lock => LockOk(cfg, s, a);
    case Finish => FinishOk(cfg, s, a);
  }

  lemma DataStep<T>(cfg: Config, s: State<T>, ev: Event<T>)
    requires Control(cfg, s) && Pages(cfg, s) && Delivery(cfg, s) && Enabled(cfg, s, ev)
    ensures var t := Step(cfg, s, ev); Control(cfg, t) && Pages(cfg, t) && Delivery(cfg, t)
  {
    match ev
    case CallerCancels => CallerOk(cfg, s);
    case SelectDone => GiveUpOk(cfg, s);
    case FetchReturns(a, o) => if a == 0 { FirstFetchOk(cfg, s, o); } else { FetchReturnOk(cfg, s, a, o); }
    case CallReturns(a, f) =>
      if s.pcs[a].Main? { FirstCallOk(cfg, s, f); } else { CallReturnOk(cfg, s, a, f, s.pcs[a].d.items); }
    case Act(a) => DataAct(cfg, s, a);
  }
}
