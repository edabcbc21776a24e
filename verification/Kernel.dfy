/**
  The kernel around the run queue: process states with their stacks, the lazily created idle
  task, and the timer handler that switches from one saved context to another.
*/
module Kernel {
  import opened Prelude
  import opened Scheduling
  import opened Cells
  import opened Machine

  /**
    The memory behind a `ProcessState`: the kernel stack box `lo..top` and the user stack box
    `ulo..uhi`. The initial frame also uses the words `top` and `top + 1`, which are past the box.
  */
  datatype Area = Area(lo: int, top: int, ulo: int, uhi: int)

  predicate Owns(a: Area, x: int) {
    a.lo <= x < a.top + 2 || a.ulo <= x < a.uhi
  }

  datatype ProcessState = ProcessState(kernelRsp: int, area: Area)

  /** A new process state: whose code it runs and where, and what its memory held on arrival. */
  datatype Birth = Birth(kernel: bool, entry: int, area: Area, fill: Memory)

  function Zeros(n: nat): seq<int> {
    seq(n, _ => 0)
  }

  /** What `iretq` will find: the entry point, the ring's code segment, and the stack to start on. */
  function IretWords(b: Birth): seq<int> {
    [b.entry, if b.kernel then KERNEL_CS else USER_CS, DEFAULT_FLAGS, if b.kernel then b.area.top else b.area.ulo]
  }

  /** The frame `ProcessState::new` builds below and at `top`, lowest address first. */
  function FreshWords(b: Birth): seq<int> {
    [b.area.top] + Zeros(14) + IretWords(b)
  }

  /** All memory a birth writes. */
  function BirthWrites(b: Birth): Memory {
    b.fill + Block(b.area.top - 18, FreshWords(b))
  }

  function NewState(b: Birth): ProcessState {
    ProcessState(b.area.top - 18, b.area)
  }

  /** The `RSP0` stack of the task state segment, `lo..top`. */
  datatype Stack = Stack(lo: int, top: int)

  datatype Sys = Sys(sched: Sched, states: map<Slot, ProcessState>, mem: Memory, cpu: Context, rsp0: Stack)

  function StartedSys(s: Sys, b: Birth): Sys {
    var states := s.states[TaskSlot(s.sched.boxes) := NewState(b)];
    s.(sched := Started(s.sched), states := states, mem := s.mem + BirthWrites(b))
  }

  /** What one tick takes from its surroundings: writes below either stack pointer, and memory for the idle task. */
  datatype TickInput = TickInput(outgoing: Memory, incoming: Memory, idle: Birth)

  /** `get_idle_task` has to create the idle task in this tick. */
  predicate CreatesIdle(s: Sys) {
    DispatchSlot(s.sched).IdleSlot? && IdleSlot !in s.states
  }

  /** The address of the frame this tick saves. */
  function SavedAt(s: Sys): int {
    EntrySp(s.cpu, s.rsp0.top) - FRAME
  }

  /** The process states after `mov [rax], rsp` and `select_next_task`. */
  function SwitchedStates(s: Sys, t: TickInput): map<Slot, ProcessState>
    requires SaveSlot(s.sched) in s.states
  {
    var slot := SaveSlot(s.sched);
    var states := s.states[slot := s.states[slot].(kernelRsp := SavedAt(s))];
    if CreatesIdle(s) then states[IdleSlot := NewState(t.idle)] else states
  }

  /** Memory when the registers are popped. */
  function SwitchedMemory(s: Sys, t: TickInput): Memory {
    var saved := s.mem + Block(SavedAt(s), FrameWords(s.cpu)) + t.outgoing;
    (if CreatesIdle(s) then saved + BirthWrites(t.idle) else saved) + t.incoming
  }

  /** Every state the queue can name exists. */
  predicate Wired(s: Sys) {
    && SaveSlot(s.sched) in s.states
    && (s.sched.current.Some? ==> s.sched.init)
    && (forall i :: 0 <= i < |s.sched.tasks| ==> TaskSlot(s.sched.tasks[i].box) in s.states)
  }

  function TickedSys(s: Sys, t: TickInput): Sys
    requires Wired(s)
  {
    var states, mem := SwitchedStates(s, t), SwitchedMemory(s, t);
    Sys(Ticked(s.sched), states, mem, ContextAt(mem, states[DispatchSlot(s.sched)].kernelRsp), s.rsp0)
  }

  lemma StartKeepsWired(s: Sys, b: Birth)
    requires Wired(s)
    ensures Wired(StartedSys(s, b))
  {
  }

  /** After a tick, the state it dispatched is the one the next tick will save into. */
  lemma DispatchIsNextSave(q: Sched)
    requires q.current.Some? ==> q.init
    ensures SaveSlot(Ticked(q)) == DispatchSlot(q)
    ensures Ticked(q).current.Some? ==> Ticked(q).init
  {
  }

  lemma QueueStaysWithin(q: Sched, i: nat)
    requires i < |Ticked(q).tasks|
    ensures Ticked(q).tasks[i] in Population(q)
  {
  }

  lemma TickKeepsWired(s: Sys, t: TickInput)
    requires Wired(s)
    ensures Wired(TickedSys(s, t))
  {
    var s' := TickedSys(s, t);
    DispatchIsNextSave(s.sched);
    forall i | 0 <= i < |s'.sched.tasks|
      ensures TaskSlot(s'.sched.tasks[i].box) in s'.states
    {
      QueueStaysWithin(s.sched, i);
    }
  }

  lemma FreshWordsSplit(b: Birth)
    ensures FreshWords(b) == ([b.area.top] + Zeros(7)) + (Zeros(7) + IretWords(b))
  {
  }

  /** The frame of a new task, word by word: registers from `top - 18`, then entry, segment, flags and stack. */
  ghost predicate HoldsFresh(m: Memory, b: Birth) {
    && Read(m, b.area.top - 18) == b.area.top
    && (forall x :: Within(b.area.top - 17, 14, x) ==> Read(m, x) == 0)
    && Read(m, b.area.top - 3) == b.entry
    && Read(m, b.area.top - 2) == (if b.kernel then 8 else 19)
    && Read(m, b.area.top - 1) == 0x202
    && Read(m, b.area.top) == (if b.kernel then b.area.top else b.area.ulo)
  }

  lemma FreshWordsHold(m: Memory, b: Birth)
    ensures HoldsFresh(m + Block(b.area.top - 18, FreshWords(b)), b)
  {
    var ws, m' := FreshWords(b), m + Block(b.area.top - 18, FreshWords(b));
    forall x | Within(b.area.top - 18, 19, x)
      ensures Read(m', x) == ws[x - (b.area.top - 18)]
    {
    }
    forall x | Within(b.area.top - 17, 14, x)
      ensures Read(m', x) == 0
    {
      assert Within(b.area.top - 18, 19, x);
    }
  }

  class KernelState {
    const cpu: Cpu
    const scheduler: RoundRobinScheduler
    const rsp0: Stack
    var current: Option<Task>
    var init: bool
    var states: map<Slot, ProcessState>

    /** The kernel at boot: no task, and the boot stack recorded as what the void state stands for. */
    constructor (c: Context, m: Memory, stack: Stack, boot: ProcessState)
      ensures fresh(cpu) && fresh(scheduler)
      ensures View() == Sys(BOOT, map[VoidSlot := boot], m, c, stack)
    {
      cpu := new Cpu(c, m);
      scheduler := new RoundRobinScheduler();
      rsp0, current, init, states := stack, None, false, map[VoidSlot := boot];
    }

    function Queue(): Sched
      reads this, scheduler
    {
      Sched(scheduler.tasks, scheduler.taskId, scheduler.boxes, current, init)
    }

    function View(): Sys
      reads this, scheduler, cpu
    {
      Sys(Queue(), states, cpu.mem, cpu.Now(), rsp0)
    }

    /** The part of the initial frame that `iretq` consumes. */
    method BuildInterruptFrame(top: int, stack: int, selector: int, entry: int)
      modifies cpu`mem
      ensures cpu.mem == old(cpu.mem) + Block(top - 3, [entry, selector, DEFAULT_FLAGS, stack])
    {
      ghost var m := cpu.mem;
      ghost var ws := cpu.Poke(top, stack, m, []);
      ws := cpu.Poke(top - 1, DEFAULT_FLAGS, m, ws);
      ws := cpu.Poke(top - 2, selector, m, ws);
      ws := cpu.Poke(top - 3, entry, m, ws);
      assert ws == [entry, selector, DEFAULT_FLAGS, stack];
    }

    method BuildLowRegisters(top: int)
      modifies cpu`mem
      ensures cpu.mem == old(cpu.mem) + Block(top - 10, Zeros(7))
    {
      ghost var m := cpu.mem;
      ghost var ws := cpu.Poke(top - 4, 0, m, []);  // rax
      ws := cpu.Poke(top - 5, 0, m, ws);  // rbx
      ws := cpu.Poke(top - 6, 0, m, ws);  // rcx
      ws := cpu.Poke(top - 7, 0, m, ws);  // rdx
      ws := cpu.Poke(top - 8, 0, m, ws);  // rsi
      ws := cpu.Poke(top - 9, 0, m, ws);  // rdi
      ws := cpu.Poke(top - 10, 0, m, ws);  // r8
      assert ws == Zeros(7);
    }

    method BuildHighRegisters(top: int)
      modifies cpu`mem
      ensures cpu.mem == old(cpu.mem) + Block(top - 18, [top] + Zeros(7))
    {
      ghost var m := cpu.mem;
      ghost var ws := cpu.Poke(top - 11, 0, m, []);  // r9
      ws := cpu.Poke(top - 12, 0, m, ws);  // r10
      ws := cpu.Poke(top - 13, 0, m, ws);  // r11
      ws := cpu.Poke(top - 14, 0, m, ws);  // r12
      ws := cpu.Poke(top - 15, 0, m, ws);  // r13
      ws := cpu.Poke(top - 16, 0, m, ws);  // r14
      ws := cpu.Poke(top - 17, 0, m, ws);  // r15
      ws := cpu.Poke(top - 18, top, m, ws);  // rbp
      assert ws == [top] + Zeros(7);
    }

    method BuildReturnFrame(b: Birth)
      modifies cpu`mem
      ensures cpu.mem == old(cpu.mem) + Block(b.area.top - 3, IretWords(b))
    {
      var selector := if b.kernel then KERNEL_CS else USER_CS;
      var stack := if b.kernel then b.area.top else b.area.ulo;
      BuildInterruptFrame(b.area.top, stack, selector, b.entry);
    }

    method BuildUpperFrame(b: Birth)
      modifies cpu`mem
      ensures cpu.mem == old(cpu.mem) + Block(b.area.top - 10, Zeros(7) + IretWords(b))
    {
      ghost var m := cpu.mem;
      BuildReturnFrame(b);
      ghost var mid := cpu.mem;
      BuildLowRegisters(b.area.top);
      WritesJoin(m, mid, cpu.mem, b.area.top - 10, b.area.top - 3, Zeros(7), IretWords(b), Zeros(7) + IretWords(b));
    }

    /** The whole initial frame, word by word. */
    method BuildFrame(b: Birth)
      modifies cpu`mem
      ensures cpu.mem == old(cpu.mem) + Block(b.area.top - 18, FreshWords(b))
    {
      ghost var m, ws, vs := cpu.mem, [b.area.top] + Zeros(7), Zeros(7) + IretWords(b);
      BuildUpperFrame(b);
      ghost var mid := cpu.mem;
      BuildHighRegisters(b.area.top);
      FreshWordsSplit(b);
      WritesJoin(m, mid, cpu.mem, b.area.top - 18, b.area.top - 10, ws, vs, FreshWords(b));
    }

    /** `ProcessState::new` on newly allocated stacks. */
    method BuildState(b: Birth) returns (st: ProcessState)
      modifies cpu`mem
      ensures st == NewState(b) && cpu.mem == old(cpu.mem) + BirthWrites(b)
      ensures st.kernelRsp == b.area.top - 18 && st.area == b.area && HoldsFresh(cpu.mem, b)
    {
      cpu.mem := cpu.mem + b.fill;
      BuildFrame(b);
      FreshWordsHold(old(cpu.mem) + b.fill, b);
      WritesAssociate(old(cpu.mem), b.fill, Block(b.area.top - 18, FreshWords(b)));
      st := ProcessState(b.area.top - 18, b.area);
    }

    method StartProcess(b: Birth) returns (id: nat)
      modifies cpu`mem, scheduler, this`states
      ensures View() == StartedSys(old(View()), b)
      ensures id == scheduler.taskId
    {
      var st := BuildState(b);
      states := states[TaskSlot(scheduler.boxes) := st];
      id := scheduler.StartProcess();
    }

    method ReplaceCurrTask(task: Option<Task>)
      modifies this`current, scheduler`tasks
      ensures current == task
      ensures scheduler.tasks
           == match old(current) { case Some(t) => [t] case None => [] } + old(scheduler.tasks)
    {
      if current.Some? {
        scheduler.ReinsertTask(current.value);
      }
      current := task;
    }

    /** `get_idle_task`: created by its first caller. */
    method GetIdleTask(idle: Birth) returns (slot: Slot)
      modifies cpu`mem, this`states
      ensures slot == IdleSlot
      ensures states == if IdleSlot in old(states) then old(states) else old(states)[IdleSlot := NewState(idle)]
      ensures cpu.mem == if IdleSlot in old(states) then old(cpu.mem) else old(cpu.mem) + BirthWrites(idle)
    {
      if IdleSlot !in states {
        var st := BuildState(idle);
        states := states[IdleSlot := st];
      }
      slot := IdleSlot;
    }

    method CurrentTaskPtr(idle: Birth) returns (slot: Slot)
      modifies cpu`mem, this`init, this`states
      ensures slot == SaveSlot(old(Queue())) && Queue() == MarkInit(old(Queue()))
      ensures var create := slot.IdleSlot? && IdleSlot !in old(states);
              && states == (if create then old(states)[IdleSlot := NewState(idle)] else old(states))
              && cpu.mem == (if create then old(cpu.mem) + BirthWrites(idle) else old(cpu.mem))
    {
      if current.Some? {
        slot := TaskSlot(current.value.box);
      } else {
        if !init {
          init := true;
          return VoidSlot;
        }
        slot := GetIdleTask(idle);
      }
    }

    method SelectNextTask(idle: Birth) returns (slot: Slot)
      modifies cpu`mem, this`current, this`states, scheduler`tasks
      ensures slot == DispatchSlot(old(Queue())) && Queue() == Switched(old(Queue()))
      ensures var create := slot.IdleSlot? && IdleSlot !in old(states);
              && states == (if create then old(states)[IdleSlot := NewState(idle)] else old(states))
              && cpu.mem == (if create then old(cpu.mem) + BirthWrites(idle) else old(cpu.mem))
    {
      var next := scheduler.PickNext();
      if next.None? {
        ReplaceCurrTask(None);
        slot := GetIdleTask(idle);
      } else {
        ReplaceCurrTask(next);
        slot := TaskSlot(current.value.box);
      }
    }

    /** The outgoing half of the handler: everything up to storing `rsp` into the current state. */
    method Preempt(t: TickInput)
      requires SaveSlot(Queue()) in states
      requires forall x :: x in t.outgoing ==> x < SavedAt(View())
      modifies cpu, this`init, this`states
      ensures Queue() == MarkInit(old(Queue()))
      ensures var slot := SaveSlot(old(Queue()));
              states == old(states)[slot := old(states)[slot].(kernelRsp := SavedAt(old(View())))]
      ensures cpu.mem == old(cpu.mem) + Block(SavedAt(old(View())), FrameWords(old(cpu.Now()))) + t.outgoing
    {
      cpu.SaveContext(rsp0.top);
      cpu.Scribble(t.outgoing);
      var slot := CurrentTaskPtr(t.idle);
      states := states[slot := states[slot].(kernelRsp := cpu.rsp)];
    }

    /** The states once `select_next_task` has made sure of the idle one. */
    function Selected(idle: Birth): map<Slot, ProcessState>
      reads this, scheduler
    {
      if DispatchSlot(Queue()).IdleSlot? && IdleSlot !in states then states[IdleSlot := NewState(idle)] else states
    }

    /** The incoming half of the handler: from `select_next_task` to `iretq`. */
    method Dispatch(t: TickInput)
      requires DispatchSlot(Queue()) in Selected(t.idle)
      requires forall x :: x in t.incoming ==> x < Selected(t.idle)[DispatchSlot(Queue())].kernelRsp
      modifies cpu, scheduler`tasks, this`current, this`states
      ensures Queue() == Switched(old(Queue())) && states == old(Selected(t.idle))
      ensures var born := if states == old(states) then old(cpu.mem) else old(cpu.mem) + BirthWrites(t.idle);
              cpu.mem == born + t.incoming
      ensures cpu.Now() == ContextAt(cpu.mem, states[DispatchSlot(old(Queue()))].kernelRsp)
    {
      var slot := SelectNextTask(t.idle);
      cpu.rsp := states[slot].kernelRsp;
      cpu.Scribble(t.incoming);
      cpu.LoadContext();
    }

    /** `apic_timer_handler`, from the interrupt to `iretq`. */
    method TimerTick(t: TickInput)
      requires Wired(View())
      requires forall x :: x in t.outgoing ==> x < SavedAt(View())
      requires forall x :: x in t.incoming ==> x < SwitchedStates(View(), t)[DispatchSlot(Queue())].kernelRsp
      modifies cpu, scheduler`tasks, this`current, this`init, this`states
      ensures View() == TickedSys(old(View()), t)
    {
      Preempt(t);
      Dispatch(t);
    }
  }
}
