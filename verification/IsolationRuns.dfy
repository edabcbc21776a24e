/** Context isolation over whole runs of the kernel. */
module IsolationRuns {
  import opened Scheduling
  import opened Cells
  import opened Machine
  import opened Kernel
  import opened Isolation

  // ----- Runs -----

  /** Both machines, and what the next event, which has to be legal, does to them. */
  ghost predicate NextEvent(s: Sys, i: Ideal, e: KernelEvent, s': Sys, i': Ideal) {
    Wired(s) && Enabled(s, e) && s' == SysStep(s, e) && i' == IdealStep(i, e)
  }

  /** Events, and the states of the kernel and of the reference machine before, between and after them. */
  datatype Run = Run(kernel: seq<Sys>, ideal: seq<Ideal>, events: seq<KernelEvent>)

  predicate Sized(r: Run) {
    |r.kernel| == |r.ideal| == |r.events| + 1
  }

  ghost predicate StepAt(r: Run, k: nat)
    requires Sized(r) && k < |r.events|
  {
    NextEvent(r.kernel[k], r.ideal[k], r.events[k], r.kernel[k + 1], r.ideal[k + 1])
  }

  /** Every event is legal, and both machines do what it says. */
  ghost predicate IsRun(r: Run) {
    Sized(r) && forall k :: 0 <= k < |r.events| ==> StepAt(r, k)
  }

  function Extended(r: Run, e: KernelEvent, s: Sys, i: Ideal): Run {
    Run(r.kernel + [s], r.ideal + [i], r.events + [e])
  }

  lemma StepKept(r: Run, x: Run, k: nat)
    requires IsRun(r) && Sized(x) && k < |r.events| <= |x.events| && r.events[k] == x.events[k]
    requires x.kernel[k] == r.kernel[k] && x.kernel[k + 1] == r.kernel[k + 1]
    requires x.ideal[k] == r.ideal[k] && x.ideal[k + 1] == r.ideal[k + 1]
    ensures StepAt(x, k)
  {
    assert StepAt(r, k);
  }

  /** Any legal event continues a run. */
  lemma RunExtends(r: Run, e: KernelEvent, s: Sys, i: Ideal)
    requires IsRun(r) && NextEvent(r.kernel[|r.events|], r.ideal[|r.events|], e, s, i)
    ensures IsRun(Extended(r, e, s, i))
  {
    var x := Extended(r, e, s, i);
    forall k | 0 <= k < |r.events|
      ensures StepAt(x, k)
    {
      StepKept(r, x, k);
    }
    assert StepAt(x, |r.events|);
  }

  // ----- Rings -----

  /** The code segment a task runs under, whether it is running or suspended. */
  function CsOf(i: Ideal, p: Slot): int {
    if p == SaveSlot(i.sched) || p !in i.ctx then i.cpu.cs else i.ctx[p].cs
  }

  ghost predicate NoUser(i: Ideal) {
    forall p :: p in i.ctx ==> Ring(CsOf(i, p)) == 0
  }

  ghost predicate AtMostOneUser(i: Ideal) {
    forall p, q :: p in i.ctx && q in i.ctx && Ring(CsOf(i, p)) != 0 && Ring(CsOf(i, q)) != 0 ==> p == q
  }

  /** How many of the first `k` events start a ring 3 task. */
  function UserStarts(es: seq<KernelEvent>, k: nat): nat
    requires k <= |es|
  {
    if k == 0 then 0 else UserStarts(es, k - 1) + if es[k - 1].Birthing? && !es[k - 1].b.kernel then 1 else 0
  }

  lemma RingKeptByTick(s: Sys, i: Ideal, t: TickInput, p: Slot)
    requires Refines(s, i) && Enabled(s, Timer(t)) && p in i.ctx
    ensures p in SwitchedTable(i, t) && CsOf(IdealStep(i, Timer(t)), p) == CsOf(i, p)
  {
    DispatchIsNextSave(s.sched);
    if p != SaveSlot(s.sched) {
      OthersUntouched(s, i, t, p);
    }
  }

  /** Nothing but its birth decides a task's ring. */
  lemma RingKept(s: Sys, i: Ideal, e: KernelEvent, p: Slot)
    requires Refines(s, i) && Enabled(s, e) && p in i.ctx
    ensures p in IdealStep(i, e).ctx && CsOf(IdealStep(i, e), p) == CsOf(i, p)
  {
    if e.Timer? {
      RingKeptByTick(s, i, e.t, p);
    }
  }

  lemma RingOfNew(s: Sys, i: Ideal, e: KernelEvent, p: Slot)
    requires Refines(s, i) && Enabled(s, e) && p !in i.ctx && p in IdealStep(i, e).ctx
    ensures Ring(CsOf(IdealStep(i, e), p)) != 0 ==> e.Birthing? && !e.b.kernel && p == TaskSlot(i.sched.boxes)
  {
    if e.Timer? {
      IdleIsKernel(s, i, e.t, p);
    }
  }

  lemma IdleIsKernel(s: Sys, i: Ideal, t: TickInput, p: Slot)
    requires Refines(s, i) && Enabled(s, Timer(t)) && p !in i.ctx && p in IdealStep(i, Timer(t)).ctx
    ensures Ring(CsOf(IdealStep(i, Timer(t)), p)) == 0
  {
    DispatchIsNextSave(s.sched);
  }

  lemma UsersCounted(s: Sys, i: Ideal, e: KernelEvent)
    requires Refines(s, i) && Enabled(s, e) && AtMostOneUser(i)
    requires e.Birthing? && !e.b.kernel ==> NoUser(i)
    ensures AtMostOneUser(IdealStep(i, e))
    ensures NoUser(i) && !(e.Birthing? && !e.b.kernel) ==> NoUser(IdealStep(i, e))
  {
    var i' := IdealStep(i, e);
    forall p | p in i'.ctx
      ensures p in i.ctx ==> CsOf(i', p) == CsOf(i, p)
      ensures p !in i.ctx && Ring(CsOf(i', p)) != 0 ==> e.Birthing? && !e.b.kernel && p == TaskSlot(i.sched.boxes)
    {
      if p in i.ctx {
        RingKept(s, i, e, p);
      } else {
        RingOfNew(s, i, e, p);
      }
    }
  }

  lemma OneUserAlone(s: Sys, i: Ideal, p: Slot)
    requires Refines(s, i) && AtMostOneUser(i) && Ring(s.cpu.cs) != 0 && p in s.states && p != SaveSlot(s.sched)
    ensures !Shares(s, p)
  {
    if Shares(s, p) {
      SharedIsUser(s, i, p);
    }
  }

  lemma SharedIsUser(s: Sys, i: Ideal, p: Slot)
    requires Refines(s, i) && p in s.states && p != SaveSlot(s.sched) && s.states[p].kernelRsp == SharedFrame(s.rsp0)
    ensures Ring(CsOf(i, p)) != 0
  {
    SharedIsNotOwn(s.states[p], s.rsp0);
  }

  // ----- Harmless runs -----

  ghost predicate HarmlessEvent(s: Sys, i: Ideal, e: KernelEvent) {
    match e
    case Birthing(_) => true
    case Timer(_) => s.states.Keys == i.ctx.Keys && Harmless(s, i.ctx)
    case Exec(_, _) => true
    case Trap(w) => s.states.Keys == i.ctx.Keys && TrapHarmless(s, i.ctx, w)
  }

  lemma RefinesNext(s: Sys, i: Ideal, e: KernelEvent, s': Sys, i': Ideal)
    requires Refines(s, i) && NextEvent(s, i, e, s', i')
    ensures Refines(s', i') <==> HarmlessEvent(s, i, e)
  {
    match e
    case Birthing(b) => BirthRefines(s, i, b);
    case Timer(t) => TickIsolation(s, i, t);
    case Exec(c, w) => ExecRefines(s, i, c, w);
    case Trap(w) => TrapIsolation(s, i, w);
  }

  /** Event `k` pushes no ring 3 frame over a different one. */
  ghost predicate HarmlessAt(r: Run, k: nat)
    requires Sized(r) && k < |r.events|
  {
    HarmlessEvent(r.kernel[k], r.ideal[k], r.events[k])
  }

  /** A run from a good start, whose first `n` events are harmless. */
  ghost predicate HarmlessRun(r: Run, n: nat) {
    && IsRun(r) && n <= |r.events| && Refines(r.kernel[0], r.ideal[0])
    && forall k :: 0 <= k < n ==> HarmlessAt(r, k)
  }

  lemma RefinesStep(r: Run, k: nat)
    requires IsRun(r) && k < |r.events| && Refines(r.kernel[k], r.ideal[k])
    ensures Refines(r.kernel[k + 1], r.ideal[k + 1]) <==> HarmlessAt(r, k)
  {
    assert StepAt(r, k);
    RefinesNext(r.kernel[k], r.ideal[k], r.events[k], r.kernel[k + 1], r.ideal[k + 1]);
  }

  /**
    With any number of ring 3 tasks, the kernel is at every point of a harmless run in the state of
    the reference machine: frames in memory are as good as a private context table ...
  */
  lemma {:induction false} HarmlessRunIsolates(r: Run, k: nat, n: nat)
    requires k <= n && HarmlessRun(r, n)
    ensures Refines(r.kernel[k], r.ideal[k])
  {
    if k != 0 {
      HarmlessRunIsolates(r, k - 1, n);
      RefinesStep(r, k - 1);
      assert HarmlessAt(r, k - 1);
    }
  }

  /** ... and loses a context at exactly the first event that is not harmless. */
  lemma FirstHarmBreaks(r: Run, n: nat)
    requires HarmlessRun(r, n) && n < |r.events|
    ensures Refines(r.kernel[n + 1], r.ideal[n + 1]) <==> HarmlessAt(r, n)
  {
    HarmlessRunIsolates(r, n, n);
    RefinesStep(r, n);
  }

  // ----- One ring 3 task is harmless -----

  /** A run from a good start, with at most one ring 3 task started by its first `n` events. */
  ghost predicate GoodRun(r: Run, n: nat) {
    && IsRun(r) && n <= |r.events| && Refines(r.kernel[0], r.ideal[0])
    && NoUser(r.ideal[0]) && UserStarts(r.events, n) <= 1
  }

  /** The kernel refines the reference machine after `n` ring 3 tasks were started. */
  ghost predicate InStep(s: Sys, i: Ideal, n: nat) {
    Refines(s, i) && AtMostOneUser(i) && (n == 0 ==> NoUser(i))
  }

  lemma InStepHarmless(s: Sys, i: Ideal, e: KernelEvent, n: nat)
    requires InStep(s, i, n) && Wired(s) && Enabled(s, e)
    ensures HarmlessEvent(s, i, e)
  {
    if Ring(s.cpu.cs) != 0 {
      forall p | p in s.states && p != SaveSlot(s.sched)
        ensures !Shares(s, p)
      {
        OneUserAlone(s, i, p);
      }
    }
  }

  lemma InStepKept(s: Sys, i: Ideal, e: KernelEvent, n: nat, s': Sys, i': Ideal, n': nat)
    requires InStep(s, i, n) && NextEvent(s, i, e, s', i')
    requires n' == (if e.Birthing? && !e.b.kernel then n + 1 else n) && n' <= 1
    ensures InStep(s', i', n')
  {
    InStepHarmless(s, i, e, n);
    RefinesNext(s, i, e, s', i');
    UsersCounted(s, i, e);
  }

  lemma {:induction false} UserStartsGrow(es: seq<KernelEvent>, k: nat, n: nat)
    requires k <= n <= |es|
    ensures UserStarts(es, k) <= UserStarts(es, n)
    decreases n
  {
    if k != n {
      UserStartsGrow(es, k, n - 1);
    }
  }

  lemma InStepNext(r: Run, k: nat)
    requires IsRun(r) && 0 < k <= |r.events| && UserStarts(r.events, k) <= 1
    ensures InStep(r.kernel[k - 1], r.ideal[k - 1], UserStarts(r.events, k - 1)) ==>
            InStep(r.kernel[k], r.ideal[k], UserStarts(r.events, k))
  {
    assert StepAt(r, k - 1);
    if InStep(r.kernel[k - 1], r.ideal[k - 1], UserStarts(r.events, k - 1)) {
      InStepKept(r.kernel[k - 1], r.ideal[k - 1], r.events[k - 1], UserStarts(r.events, k - 1),
                 r.kernel[k], r.ideal[k], UserStarts(r.events, k));
    }
  }

  lemma {:induction false} GoodRunInStep(r: Run, k: nat, n: nat)
    requires k <= n && GoodRun(r, n)
    ensures InStep(r.kernel[k], r.ideal[k], UserStarts(r.events, k))
  {
    if k != 0 {
      GoodRunInStep(r, k - 1, n);
      UserStartsGrow(r.events, k, n);
      InStepNext(r, k);
    }
  }

  /** With at most one ring 3 task every run is harmless, so the kernel refines the reference machine. */
  lemma ContextIsolation(r: Run, n: nat)
    requires GoodRun(r, n)
    ensures HarmlessRun(r, n)
    ensures forall k :: 0 <= k <= n ==> Refines(r.kernel[k], r.ideal[k])
  {
    forall k | 0 <= k <= n
      ensures Refines(r.kernel[k], r.ideal[k]) && (k < n ==> HarmlessAt(r, k))
    {
      GoodRunInStep(r, k, n);
      if k < n {
        assert StepAt(r, k);
        InStepHarmless(r.kernel[k], r.ideal[k], r.events[k], UserStarts(r.events, k));
      }
    }
  }

  // ----- From boot -----

  /** The kernel when its first task is started: boot code running on its own stack. */
  lemma BootRefines(boot: ProcessState, m: Memory, c: Context, k: Stack)
    requires Ring(c.cs) == 0 && Room(c, boot.area) && Off(boot.area, k) && k.lo <= SharedFrame(k)
    ensures Refines(Sys(BOOT, map[VoidSlot := boot], m, c, k), Ideal(BOOT, map[VoidSlot := c], c))
    ensures NoUser(Ideal(BOOT, map[VoidSlot := c], c))
  {
  }

  // ----- The queue of a running kernel -----

  function QueueStep(q: Sched, e: KernelEvent): Sched {
    match e
    case Birthing(_) => Started(q)
    case Timer(_) => Ticked(q)
    case Exec(_, _) => q
    case Trap(_) => q
  }

  /** The queue after the first `k` kernel events. */
  function QueueAt(q: Sched, es: seq<KernelEvent>, k: nat): Sched
    requires k <= |es|
  {
    if k == 0 then q else QueueStep(QueueAt(q, es, k - 1), es[k - 1])
  }

  lemma QueueNext(s: Sys, i: Ideal, e: KernelEvent, s': Sys, i': Ideal)
    requires NextEvent(s, i, e, s', i')
    ensures s'.sched == QueueStep(s.sched, e) && i'.sched == QueueStep(i.sched, e)
  {
  }

  /** Both machines keep the queue that starts and ticks alone determine. */
  lemma {:induction false} QueueOfRun(r: Run, k: nat)
    requires IsRun(r) && k <= |r.events|
    ensures r.kernel[k].sched == QueueAt(r.kernel[0].sched, r.events, k)
    ensures r.ideal[k].sched == QueueAt(r.ideal[0].sched, r.events, k)
  {
    if k != 0 {
      QueueOfRun(r, k - 1);
      assert StepAt(r, k - 1);
      QueueNext(r.kernel[k - 1], r.ideal[k - 1], r.events[k - 1], r.kernel[k], r.ideal[k]);
    }
  }

  /** The queue events among the first `k` kernel events. */
  function QueueEvents(es: seq<KernelEvent>, k: nat): seq<Event>
    requires k <= |es|
  {
    if k == 0 then []
    else match es[k - 1]
      case Birthing(_) => QueueEvents(es, k - 1) + [Start]
      case Timer(_) => QueueEvents(es, k - 1) + [Tick]
      case Exec(_, _) => QueueEvents(es, k - 1)
      case Trap(_) => QueueEvents(es, k - 1)
  }

  lemma {:induction false} AtExtended(s: Sched, es: seq<Event>, e: Event, k: nat)
    requires k <= |es|
    ensures At(s, es + [e], k) == At(s, es, k)
  {
    if k != 0 {
      AtExtended(s, es, e, k - 1);
    }
  }

  lemma AtAppended(s: Sched, es: seq<Event>, e: Event)
    ensures At(s, es + [e], |es| + 1) == Step(At(s, es, |es|), e)
  {
    AtExtended(s, es, e, |es|);
  }

  /** It is the queue the scheduling laws speak about. */
  lemma {:induction false} QueueIsScheduled(q: Sched, es: seq<KernelEvent>, k: nat)
    requires k <= |es|
    ensures QueueAt(q, es, k) == At(q, QueueEvents(es, k), |QueueEvents(es, k)|)
  {
    if k != 0 {
      QueueIsScheduled(q, es, k - 1);
      var qs := QueueEvents(es, k - 1);
      match es[k - 1]
      case Birthing(_) => AtAppended(q, qs, Start);
      case Timer(_) => AtAppended(q, qs, Tick);
      case Exec(_, _) =>
      case Trap(_) =>
    }
  }

  // ----- Resuming -----

  /** What the reference machine keeps in order by itself: every slot the queue can name has an entry. */
  ghost predicate Tidy(i: Ideal) {
    && SaveSlot(i.sched) in i.ctx
    && (i.sched.current.Some? ==> i.sched.init)
    && (forall k :: 0 <= k < |i.sched.tasks| ==> TaskSlot(i.sched.tasks[k].box) in i.ctx)
    && (forall p :: p in i.ctx && p.TaskSlot? ==> p.box < i.sched.boxes)
  }

  lemma RefinesTidy(s: Sys, i: Ideal)
    requires Refines(s, i)
    ensures Tidy(i)
  {
  }

  lemma TidyTick(i: Ideal, t: TickInput)
    requires Tidy(i)
    ensures Tidy(IdealStep(i, Timer(t)))
  {
    var i' := IdealStep(i, Timer(t));
    DispatchIsNextSave(i.sched);
    forall k | 0 <= k < |i'.sched.tasks|
      ensures TaskSlot(i'.sched.tasks[k].box) in i'.ctx
    {
      QueueStaysWithin(i.sched, k);
    }
  }

  lemma TidyKept(i: Ideal, e: KernelEvent)
    requires Tidy(i)
    ensures Tidy(IdealStep(i, e))
  {
    if e.Timer? {
      TidyTick(i, e.t);
    }
  }

  lemma {:induction false} TidyAlways(r: Run, k: nat)
    requires IsRun(r) && k <= |r.events| && Tidy(r.ideal[0])
    ensures Tidy(r.ideal[k])
  {
    if k != 0 {
      TidyAlways(r, k - 1);
      assert StepAt(r, k - 1);
      TidyKept(r.ideal[k - 1], r.events[k - 1]);
    }
  }

  /** The table entry of `p` holds `c`, and `p` is not running. */
  ghost predicate Stored(i: Ideal, p: Slot, c: Context) {
    SaveSlot(i.sched) != p && p in i.ctx && i.ctx[p] == c
  }

  lemma TickStores(i: Ideal, t: TickInput)
    requires Tidy(i) && DispatchSlot(i.sched) != SaveSlot(i.sched)
    ensures Stored(IdealStep(i, Timer(t)), SaveSlot(i.sched), i.cpu)
  {
  }

  lemma StoredStays(i: Ideal, e: KernelEvent, p: Slot, c: Context)
    requires Tidy(i) && Stored(i, p, c) && (e.Timer? ==> DispatchSlot(i.sched) != p)
    ensures Stored(IdealStep(i, e), p, c)
  {
  }

  lemma StoredIsLoaded(i: Ideal, t: TickInput, p: Slot, c: Context)
    requires Tidy(i) && p == DispatchSlot(i.sched) && (if p == SaveSlot(i.sched) then c == i.cpu else Stored(i, p, c))
    ensures IdealStep(i, Timer(t)).cpu == c
  {
  }

  /** No event from `a` up to `b` dispatches `p`. */
  predicate Waiting(q: Sched, es: seq<KernelEvent>, a: nat, b: nat, p: Slot)
    requires a <= b <= |es|
    decreases b
  {
    a == b || (Waiting(q, es, a, b - 1, p) && (es[b - 1].Timer? ==> DispatchSlot(QueueAt(q, es, b - 1)) != p))
  }

  /** No event between its preemption and its next dispatch touches the stored context of `p`. */
  lemma {:induction false} StoredUntouched(r: Run, a: nat, b: nat, p: Slot)
    requires IsRun(r) && Tidy(r.ideal[0]) && a < b <= |r.events| && r.events[a].Timer?
    requires p == SaveSlot(r.ideal[a].sched) && Waiting(r.ideal[0].sched, r.events, a, b, p)
    ensures Stored(r.ideal[b], p, r.ideal[a].cpu)
    decreases b
  {
    var l := b - 1;
    TidyAlways(r, l);
    QueueOfRun(r, l);
    assert StepAt(r, l);
    if l == a {
      TickStores(r.ideal[l], r.events[l].t);
    } else {
      StoredUntouched(r, a, l, p);
      StoredStays(r.ideal[l], r.events[l], p, r.ideal[a].cpu);
    }
  }

  /** `p` is preempted by event `a` and not dispatched again before event `b`, which dispatches it. */
  predicate Returns(q: Sched, es: seq<KernelEvent>, a: nat, b: nat, p: Slot) {
    && a <= b < |es| && es[a].Timer? && es[b].Timer?
    && SaveSlot(QueueAt(q, es, a)) == p == DispatchSlot(QueueAt(q, es, b)) && Waiting(q, es, a, b, p)
  }

  lemma IdealResumes(r: Run, a: nat, b: nat, p: Slot)
    requires IsRun(r) && Tidy(r.ideal[0]) && Returns(r.ideal[0].sched, r.events, a, b, p)
    ensures r.ideal[b + 1].cpu == r.ideal[a].cpu
  {
    TidyAlways(r, b);
    QueueOfRun(r, a);
    QueueOfRun(r, b);
    assert StepAt(r, b);
    if a < b {
      StoredUntouched(r, a, b, p);
    }
    StoredIsLoaded(r.ideal[b], r.events[b].t, p, r.ideal[a].cpu);
  }

  /** At every point of a harmless run, the processor is in the state the reference machine says. */
  lemma CpuAgrees(r: Run, k: nat, n: nat)
    requires k <= n && HarmlessRun(r, n)
    ensures r.kernel[k].cpu == r.ideal[k].cpu
  {
    HarmlessRunIsolates(r, k, n);
  }

  /**
    With any number of ring 3 tasks: in a harmless run, a task preempted at event `a` and next
    dispatched at event `b` goes on with exactly the registers, instruction pointer, flags, stack
    pointer and segments it had.
  */
  lemma ResumedContext(r: Run, a: nat, b: nat, p: Slot)
    requires HarmlessRun(r, b + 1) && Returns(r.kernel[0].sched, r.events, a, b, p)
    ensures r.kernel[b + 1].cpu == r.kernel[a].cpu
  {
    RefinesTidy(r.kernel[0], r.ideal[0]);
    IdealResumes(r, a, b, p);
    CpuAgrees(r, a, b + 1);
    CpuAgrees(r, b + 1, b + 1);
  }

  /** So with at most one of them, in every run. */
  lemma OneUserResumes(r: Run, a: nat, b: nat, p: Slot)
    requires GoodRun(r, b + 1) && Returns(r.kernel[0].sched, r.events, a, b, p)
    ensures r.kernel[b + 1].cpu == r.kernel[a].cpu
  {
    ContextIsolation(r, b + 1);
    ResumedContext(r, a, b, p);
  }
}
