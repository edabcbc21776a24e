/**
  Why the isolation theorem stops at one ring 3 task. Interrupts from ring 3 always push onto the
  same `RSP0` stack, because the handler updates a copy of the task state segment; so the second
  ring 3 task to be preempted overwrites the frame of the first.
*/
module SharedStackClash {
  import opened Prelude
  import opened Scheduling
  import opened Machine
  import opened Kernel
  import opened Isolation
  import opened IsolationRuns

  // Every stack is a box of 4096 bytes. The word past a frame, which `iretq` loads into the stack
  // segment register and nothing writes, happens to hold the user data segment.
  const USER_SS := 24 + 3
  const BOOT_AREA := Area(0, 512, 0, 0)
  const FIRST := Birth(false, 1, Area(1000, 1512, 2000, 2512), map[1513 := USER_SS])
  const SECOND := Birth(false, 2, Area(3000, 3512, 4000, 4512), map[3513 := USER_SS])
  const QUIET := TickInput(map[], map[], FIRST)
  const RSP0 := Stack(5000, 5512)
  const BOOT_CONTEXT := BirthContext(Birth(true, 0, BOOT_AREA, map[]))

  const SYS0 := Sys(BOOT, map[VoidSlot := ProcessState(0, BOOT_AREA)], map[], BOOT_CONTEXT, RSP0)
  const IDEAL0 := Ideal(BOOT, map[VoidSlot := BOOT_CONTEXT], BOOT_CONTEXT)

  /** Two ring 3 tasks; the later one runs until it is in `b`, then the other until it is in `a`, then a tick. */
  function ClashRun(a: Context, b: Context): seq<KernelEvent> {
    RunsUntil(RunsUntil([Birthing(FIRST)] + [Birthing(SECOND)], b), a) + [Timer(QUIET)]
  }

  /** `es`, then a tick, and the dispatched task running until it is in `c`. */
  function RunsUntil(es: seq<KernelEvent>, c: Context): seq<KernelEvent> {
    es + [Timer(QUIET)] + [Exec(c, map[])]
  }

  const FIRST_TASK := Task(1, 0)
  const SECOND_TASK := Task(2, 1)

  /** A point of the run: both machines agree so far, and the queue is as given. */
  ghost predicate Point(s: Sys, i: Ideal, q: Sched) {
    Refines(s, i) && s.sched == q && s.rsp0 == RSP0 && s.states.Keys == {VoidSlot, TaskSlot(0), TaskSlot(1)}
  }

  lemma FirstGood()
    ensures GoodBirth(SYS0, FIRST)
  {
  }

  lemma SecondGood()
    ensures GoodBirth(StartedSys(SYS0, FIRST), SECOND)
  {
  }

  lemma StartsRefine()
    ensures Refines(SYS0, IDEAL0)
    ensures Refines(StartedSys(SYS0, FIRST), IdealStep(IDEAL0, Birthing(FIRST)))
  {
    BootRefines(ProcessState(0, BOOT_AREA), map[], BOOT_CONTEXT, RSP0);
    FirstGood();
    BirthRefines(SYS0, IDEAL0, FIRST);
  }

  lemma SecondStartRefines(s1: Sys, i1: Ideal)
    requires s1 == StartedSys(SYS0, FIRST) && i1 == IdealStep(IDEAL0, Birthing(FIRST))
    ensures Refines(StartedSys(s1, SECOND), IdealStep(i1, Birthing(SECOND)))
  {
    StartsRefine();
    SecondGood();
    BirthRefines(s1, i1, SECOND);
  }

  lemma Started2(s1: Sys, s: Sys)
    requires s1 == StartedSys(SYS0, FIRST) && s == StartedSys(s1, SECOND)
    ensures s.sched == QUEUE1 && s.rsp0 == RSP0 && s.cpu == BOOT_CONTEXT
    ensures s.states.Keys == {VoidSlot, TaskSlot(0), TaskSlot(1)} && s.states[TaskSlot(0)] == NewState(FIRST)
  {
    assert s.sched.tasks == [FIRST_TASK, SECOND_TASK];
  }

  lemma Started2Contexts(i1: Ideal, i: Ideal)
    requires i1 == IdealStep(IDEAL0, Birthing(FIRST)) && i == IdealStep(i1, Birthing(SECOND))
    ensures i.ctx.Keys == {VoidSlot, TaskSlot(0), TaskSlot(1)}
    ensures i.ctx[TaskSlot(0)] == BirthContext(FIRST) && i.ctx[TaskSlot(1)] == BirthContext(SECOND)
  {
  }

  /** A tick without scratch writes is legal whenever some task is waiting. */
  lemma QuietTick(s: Sys)
    requires Wired(s) && s.sched.tasks != []
    ensures Enabled(s, Timer(QUIET))
  {
  }

  lemma QuietStates(s: Sys, i: Ideal, q: Sched)
    requires Point(s, i, q) && q.tasks != [] && DispatchSlot(q) in s.states && DispatchSlot(q) != SaveSlot(q)
    ensures SwitchedStates(s, QUIET) == s.states[SaveSlot(q) := s.states[SaveSlot(q)].(kernelRsp := SavedAt(s))]
    ensures SwitchedStates(s, QUIET).Keys == s.states.Keys
  {
  }

  lemma QuietTableOf(i: Ideal, q: Sched)
    requires i.sched == q && q.tasks != [] && DispatchSlot(q) in i.ctx && DispatchSlot(q) != SaveSlot(q)
    ensures SwitchedTable(i, QUIET) == i.ctx[SaveSlot(q) := i.cpu]
    ensures IdealStep(i, Timer(QUIET)).cpu == i.ctx[DispatchSlot(q)]
  {
  }

  lemma QuietTable(s: Sys, i: Ideal, q: Sched)
    requires Point(s, i, q) && q.tasks != [] && DispatchSlot(q) in s.states && DispatchSlot(q) != SaveSlot(q)
    ensures SwitchedTable(i, QUIET) == i.ctx[SaveSlot(q) := i.cpu]
    ensures IdealStep(i, Timer(QUIET)).cpu == i.ctx[DispatchSlot(q)]
  {
    QuietTableOf(i, q);
  }

  lemma TickPoint(s: Sys, i: Ideal, q: Sched)
    requires Point(s, i, q) && q.tasks != [] && DispatchSlot(q) in s.states && DispatchSlot(q) != SaveSlot(q)
    requires Harmless(s, i.ctx)
    ensures Enabled(s, Timer(QUIET))
    ensures Point(TickedSys(s, QUIET), IdealStep(i, Timer(QUIET)), Ticked(q))
  {
    QuietTick(s);
    HarmlessTickRefines(s, i, QUIET);
    QuietStates(s, i, q);
  }

  lemma ExecPoint(s: Sys, i: Ideal, q: Sched, c: Context)
    requires Point(s, i, q) && s.cpu.cs == c.cs == USER_CS
    ensures Enabled(s, Exec(c, map[]))
    ensures Point(SysStep(s, Exec(c, map[])), IdealStep(i, Exec(c, map[])), q)
  {
    ExecRefines(s, i, c, map[]);
  }

  /** A legal tick, after which the dispatched task runs on until it is in `c`. */
  ghost predicate Round(s: Sys, i: Ideal, c: Context, t: Sys, j: Ideal, s': Sys, i': Ideal) {
    NextEvent(s, i, Timer(QUIET), t, j) && NextEvent(t, j, Exec(c, map[]), s', i')
  }

  lemma TickThenExec(s: Sys, i: Ideal, q: Sched, c: Context) returns (t: Sys, j: Ideal, s': Sys, i': Ideal)
    requires Point(s, i, q) && q.tasks != [] && DispatchSlot(q) in s.states && DispatchSlot(q) != SaveSlot(q)
    requires Harmless(s, i.ctx) && i.ctx[DispatchSlot(q)].cs == c.cs == USER_CS
    ensures Round(s, i, c, t, j, s', i')
    ensures Point(s', i', Ticked(q)) && s'.cpu == c
    ensures s'.states == s.states[SaveSlot(q) := s.states[SaveSlot(q)].(kernelRsp := SavedAt(s))]
    ensures i'.ctx == i.ctx[SaveSlot(q) := i.cpu]
  {
    t, j := TickedSys(s, QUIET), IdealStep(i, Timer(QUIET));
    TickPoint(s, i, q);
    QuietTable(s, i, q);
    ExecPoint(t, j, Ticked(q), c);
    s', i' := SysStep(t, Exec(c, map[])), IdealStep(j, Exec(c, map[]));
  }

  const QUEUE1 := Sched([FIRST_TASK, SECOND_TASK], 2, 2, None, false)
  const QUEUE2 := Sched([FIRST_TASK], 2, 2, Some(SECOND_TASK), true)
  const QUEUE3 := Sched([SECOND_TASK], 2, 2, Some(FIRST_TASK), true)

  lemma Queues()
    ensures Ticked(QUEUE1) == QUEUE2 && Ticked(QUEUE2) == QUEUE3
  {
  }

  ghost predicate BothStarted(s: Sys, i: Ideal) {
    && Point(s, i, QUEUE1) && s.cpu == BOOT_CONTEXT
    && s.states[TaskSlot(0)] == NewState(FIRST) && i.ctx[TaskSlot(0)] == BirthContext(FIRST)
    && i.ctx[TaskSlot(1)] == BirthContext(SECOND)
  }

  /** The second task runs in `b`; the first has not run yet. */
  ghost predicate SecondRuns(s: Sys, i: Ideal, b: Context) {
    && Point(s, i, QUEUE2) && s.cpu == b
    && s.states[TaskSlot(0)] == NewState(FIRST) && i.ctx[TaskSlot(0)] == BirthContext(FIRST)
    && s.states[VoidSlot].kernelRsp == 492
  }

  /** The first task runs in `a`; the second was preempted in `b` and its frame is on the `RSP0` stack. */
  ghost predicate FirstRuns(s: Sys, i: Ideal, a: Context, b: Context) {
    && Point(s, i, QUEUE3) && s.cpu == a
    && s.states[TaskSlot(1)].kernelRsp == SharedFrame(RSP0) && i.ctx[TaskSlot(1)] == b
  }

  lemma FirstRound(s: Sys, i: Ideal, b: Context) returns (t: Sys, j: Ideal, s': Sys, i': Ideal)
    requires b.cs == USER_CS && BothStarted(s, i)
    ensures Round(s, i, b, t, j, s', i')
    ensures SecondRuns(s', i', b)
  {
    Queues();
    t, j, s', i' := TickThenExec(s, i, QUEUE1, b);
  }

  /** The waiting task is still on its own stack, so the first ring 3 preemption does no harm. */
  lemma NobodyShares(s: Sys, i: Ideal, b: Context)
    requires SecondRuns(s, i, b)
    ensures Harmless(s, i.ctx)
  {
    forall p | p in s.states && p != SaveSlot(s.sched)
      ensures s.states[p].kernelRsp != SharedFrame(RSP0)
    {
      assert p in {VoidSlot, TaskSlot(0), TaskSlot(1)};
    }
  }

  lemma SecondRound(s: Sys, i: Ideal, a: Context, b: Context) returns (t: Sys, j: Ideal, s': Sys, i': Ideal)
    requires a.cs == b.cs == USER_CS && SecondRuns(s, i, b)
    ensures Round(s, i, a, t, j, s', i')
    ensures FirstRuns(s', i', a, b)
  {
    Queues();
    NobodyShares(s, i, b);
    t, j, s', i' := TickThenExec(s, i, QUEUE2, a);
  }

  lemma ThirdTick(s: Sys, i: Ideal, a: Context, b: Context)
    requires a.cs == USER_CS && a != b && FirstRuns(s, i, a, b)
    ensures Enabled(s, Timer(QUIET))
    ensures TickedSys(s, QUIET).cpu == a && IdealStep(i, Timer(QUIET)).cpu == b
  {
    QuietTick(s);
    HarmfulTickBreaks(s, i, QUIET, TaskSlot(1));
  }

  lemma Starts2() returns (s1: Sys, i1: Ideal, s: Sys, i: Ideal)
    ensures NextEvent(SYS0, IDEAL0, Birthing(FIRST), s1, i1) && NextEvent(s1, i1, Birthing(SECOND), s, i)
    ensures BothStarted(s, i)
  {
    FirstGood();
    s1, i1 := StartedSys(SYS0, FIRST), IdealStep(IDEAL0, Birthing(FIRST));
    StartKeepsWired(SYS0, FIRST);
    SecondGood();
    s, i := StartedSys(s1, SECOND), IdealStep(i1, Birthing(SECOND));
    SecondStartRefines(s1, i1);
    Started2(s1, s);
    Started2Contexts(i1, i);
  }

  /** `r` goes from boot through `es` to the given states. */
  ghost predicate Leads(r: Run, es: seq<KernelEvent>, s: Sys, i: Ideal) {
    && IsRun(r) && r.events == es && r.kernel[0] == SYS0 && r.ideal[0] == IDEAL0
    && r.kernel[|es|] == s && r.ideal[|es|] == i
  }

  lemma LeadsOn(r: Run, es: seq<KernelEvent>, s: Sys, i: Ideal, e: KernelEvent, s': Sys, i': Ideal) returns (r': Run)
    requires Leads(r, es, s, i) && NextEvent(s, i, e, s', i')
    ensures Leads(r', es + [e], s', i')
  {
    r' := Extended(r, e, s', i');
    RunExtends(r, e, s', i');
  }

  lemma RunFirst(s: Sys, i: Ideal) returns (r: Run)
    requires NextEvent(SYS0, IDEAL0, Birthing(FIRST), s, i)
    ensures Leads(r, [Birthing(FIRST)], s, i)
  {
    r := Run([SYS0, s], [IDEAL0, i], [Birthing(FIRST)]);
  }

  lemma RunStart() returns (r: Run, s: Sys, i: Ideal)
    ensures Leads(r, [Birthing(FIRST)] + [Birthing(SECOND)], s, i) && BothStarted(s, i)
  {
    var s1, i1;
    s1, i1, s, i := Starts2();
    r := RunFirst(s1, i1);
    r := LeadsOn(r, [Birthing(FIRST)], s1, i1, Birthing(SECOND), s, i);
  }

  lemma RunRound(r: Run, es: seq<KernelEvent>, s: Sys, i: Ideal, c: Context, t: Sys, j: Ideal, s': Sys, i': Ideal)
    returns (r': Run)
    requires Leads(r, es, s, i) && Round(s, i, c, t, j, s', i')
    ensures Leads(r', RunsUntil(es, c), s', i')
  {
    r' := LeadsOn(r, es, s, i, Timer(QUIET), t, j);
    r' := LeadsOn(r', es + [Timer(QUIET)], t, j, Exec(c, map[]), s', i');
  }

  lemma RunMiddle(b: Context) returns (r: Run, s: Sys, i: Ideal)
    requires b.cs == USER_CS
    ensures Leads(r, RunsUntil([Birthing(FIRST)] + [Birthing(SECOND)], b), s, i) && SecondRuns(s, i, b)
  {
    var s0, i0, t, j;
    r, s0, i0 := RunStart();
    t, j, s, i := FirstRound(s0, i0, b);
    r := RunRound(r, [Birthing(FIRST)] + [Birthing(SECOND)], s0, i0, b, t, j, s, i);
  }

  lemma RunToClash(a: Context, b: Context) returns (r: Run, s: Sys, i: Ideal)
    requires a.cs == b.cs == USER_CS
    ensures Leads(r, RunsUntil(RunsUntil([Birthing(FIRST)] + [Birthing(SECOND)], b), a), s, i)
    ensures FirstRuns(s, i, a, b)
  {
    var s0, i0, t, j;
    r, s0, i0 := RunMiddle(b);
    t, j, s, i := SecondRound(s0, i0, a, b);
    r := RunRound(r, RunsUntil([Birthing(FIRST)] + [Birthing(SECOND)], b), s0, i0, a, t, j, s, i);
  }

  /**
    Whatever different contexts `a` and `b` the two tasks are preempted in, the task preempted in
    `b` is resumed in `a`: it goes on with the other task's registers, code and stack.
  */
  lemma TwoUserTasksClash(a: Context, b: Context) returns (r: Run)
    requires a.cs == b.cs == USER_CS && a != b
    ensures IsRun(r) && r.kernel[0] == SYS0 && r.ideal[0] == IDEAL0 && r.events == ClashRun(a, b)
    ensures r.kernel[|r.events|].cpu == a && r.ideal[|r.events|].cpu == b
  {
    var s, i;
    r, s, i := RunToClash(a, b);
    ThirdTick(s, i, a, b);
    r := LeadsOn(r, RunsUntil(RunsUntil([Birthing(FIRST)] + [Birthing(SECOND)], b), a), s, i,
                 Timer(QUIET), TickedSys(s, QUIET), IdealStep(i, Timer(QUIET)));
  }

  /** It does not take a tick: a system call of one task loses the suspended context of the other. */
  lemma SystemCallClash(a: Context, b: Context) returns (r: Run)
    requires a.cs == b.cs == USER_CS && TrapWords(a) != TrapWords(b)
    ensures IsRun(r) && r.kernel[0] == SYS0 && r.ideal[0] == IDEAL0
    ensures r.events == RunsUntil(RunsUntil([Birthing(FIRST)] + [Birthing(SECOND)], b), a) + [Trap(map[])]
    ensures !Refines(r.kernel[|r.events|], r.ideal[|r.events|])
  {
    var s, i;
    r, s, i := RunToClash(a, b);
    TrapBreaks(s, i, a, b);
    r := LeadsOn(r, RunsUntil(RunsUntil([Birthing(FIRST)] + [Birthing(SECOND)], b), a), s, i,
                 Trap(map[]), SysStep(s, Trap(map[])), i);
  }

  lemma PointWired(s: Sys, i: Ideal, q: Sched)
    requires Point(s, i, q)
    ensures Wired(s) && s.states.Keys == i.ctx.Keys
  {
  }

  lemma TrapNext(s: Sys, i: Ideal)
    requires Wired(s) && Ring(s.cpu.cs) != 0
    ensures NextEvent(s, i, Trap(map[]), SysStep(s, Trap(map[])), i)
  {
  }

  lemma TrapBreaks(s: Sys, i: Ideal, a: Context, b: Context)
    requires a.cs == USER_CS && TrapWords(a) != TrapWords(b) && FirstRuns(s, i, a, b)
    ensures NextEvent(s, i, Trap(map[]), SysStep(s, Trap(map[])), i)
    ensures !Refines(SysStep(s, Trap(map[])), i)
  {
    PointWired(s, i, QUEUE3);
    TrapNext(s, i);
    TrapIsolation(s, i, map[]);
    TrapHarms(s, i.ctx, a, b);
  }

  lemma TrapHarms(s: Sys, ctx: map<Slot, Context>, a: Context, b: Context)
    requires s.states.Keys == ctx.Keys && Shares(s, TaskSlot(1)) && TrapWords(a) != TrapWords(b)
    requires s.cpu == a && ctx[TaskSlot(1)] == b
    ensures !TrapHarmless(s, ctx, map[])
  {
    assert !PushesSame(s.mem, s.rsp0, s.cpu, map[], ctx[TaskSlot(1)]);
  }
}
