/**
  Context isolation: the kernel, which keeps suspended contexts as frames in shared memory,
  behaves like a machine that keeps them in a private table.
*/
module Isolation {
  import opened Scheduling
  import opened Cells
  import opened Machine
  import opened Kernel

  // ----- The reference machine -----

  datatype Ideal = Ideal(sched: Sched, ctx: map<Slot, Context>, cpu: Context)

  /**
    A task is started; the timer ticks; the running task computes; or it is interrupted in ring 3 by
    something else than the timer, a system call say, whose handler writes `w` and returns to it.
  */
  datatype KernelEvent = Birthing(b: Birth) | Timer(t: TickInput) | Exec(c: Context, w: Memory) | Trap(w: Memory)

  /** The context a new task starts with; the stack segment is whatever the memory past the stack held. */
  function BirthContext(b: Birth): Context {
    Context(Regs(0, 0, 0, 0, 0, 0, 0, 0, 0, 0, 0, 0, 0, 0, b.area.top), b.entry,
            if b.kernel then KERNEL_CS else USER_CS, DEFAULT_FLAGS,
            if b.kernel then b.area.top else b.area.ulo, Read(b.fill, b.area.top + 1))
  }

  /** The table after a tick: the preempted context stored, the idle one added when first needed. */
  function SwitchedTable(i: Ideal, t: TickInput): map<Slot, Context> {
    var ctx := i.ctx[SaveSlot(i.sched) := i.cpu];
    if DispatchSlot(i.sched).IdleSlot? && IdleSlot !in i.ctx then ctx[IdleSlot := BirthContext(t.idle)] else ctx
  }

  /** The entry of `p`; `otherwise` only if the queue names a slot that was never created. */
  function Lookup(ctx: map<Slot, Context>, p: Slot, otherwise: Context): Context {
    if p in ctx then ctx[p] else otherwise
  }

  function IdealStep(i: Ideal, e: KernelEvent): Ideal {
    match e
    case Birthing(b) => i.(sched := Started(i.sched), ctx := i.ctx[TaskSlot(i.sched.boxes) := BirthContext(b)])
    case Timer(t) =>
      var ctx := SwitchedTable(i, t);
      Ideal(Ticked(i.sched), ctx, Lookup(ctx, DispatchSlot(i.sched), i.cpu))
    case Exec(c, w) => i.(cpu := c)
    case Trap(w) => i
  }

  // ----- What the kernel relies on -----

  ghost predicate Apart(a: Area, b: Area) {
    forall x :: Owns(a, x) ==> !Owns(b, x)
  }

  predicate OnStack(k: Stack, x: int) {
    k.lo <= x < k.top
  }

  ghost predicate Off(a: Area, k: Stack) {
    forall x :: Owns(a, x) ==> !OnStack(k, x)
  }

  /** A context preempted in ring 0 leaves room for its frame on its own stack. */
  predicate Room(c: Context, a: Area) {
    Ring(c.cs) == 0 ==> a.lo + FRAME <= AlignDown(c.rsp) && c.rsp <= a.top + 2
  }

  ghost predicate WritesOwn(w: Memory, a: Area) {
    forall x :: x in w ==> Owns(a, x)
  }

  /** Newly allocated memory, big enough, that nothing else uses. */
  ghost predicate GoodBirth(s: Sys, b: Birth) {
    && b.area.lo + 22 <= b.area.top
    && b.area.top + 1 in b.fill
    && WritesOwn(b.fill, b.area)
    && Off(b.area, s.rsp0)
    && (forall p :: p in s.states ==> Apart(s.states[p].area, b.area) && Apart(b.area, s.states[p].area))
  }

  /** Where a ring 3 context is saved. */
  function SharedFrame(k: Stack): int {
    AlignDown(k.top) - FRAME
  }

  predicate OwnFrame(st: ProcessState) {
    st.area.lo <= st.kernelRsp && st.kernelRsp + FRAME <= st.area.top + 2
  }

  /** The two places a frame can be. */
  predicate Home(st: ProcessState, k: Stack) {
    OwnFrame(st) || st.kernelRsp == SharedFrame(k)
  }

  /** `w` lies on the stack that holds the frame at `rsp`, below that frame. */
  ghost predicate Below(w: Memory, area: Area, own: bool, k: Stack, rsp: int) {
    forall x :: x in w ==> x < rsp && if own then area.lo <= x else k.lo <= x
  }

  ghost predicate Enabled(s: Sys, e: KernelEvent)
    requires Wired(s)
  {
    match e
    case Birthing(b) => GoodBirth(s, b)
    case Timer(t) =>
      && (CreatesIdle(s) ==> GoodBirth(s, t.idle) && t.idle.kernel)
      && Below(t.outgoing, s.states[SaveSlot(s.sched)].area, Ring(s.cpu.cs) == 0, s.rsp0, SavedAt(s))
      && var st := SwitchedStates(s, t)[DispatchSlot(s.sched)];
         Below(t.incoming, st.area, OwnFrame(st), s.rsp0, st.kernelRsp)
    case Exec(c, w) =>
      && c.cs == s.cpu.cs
      && Room(c, s.states[SaveSlot(s.sched)].area)
      && WritesOwn(w, s.states[SaveSlot(s.sched)].area)
    case Trap(w) => Ring(s.cpu.cs) != 0 && Handled(w, s.rsp0)
  }

  /** Where an interrupt from ring 3 pushes its frame: at the upper end of a saved context. */
  function TrapFrame(k: Stack): int {
    SharedFrame(k) + 15
  }

  /** A handler writes on the `RSP0` stack, below the interrupt frame. */
  ghost predicate Handled(w: Memory, k: Stack) {
    forall x :: x in w ==> k.lo <= x < TrapFrame(k)
  }

  /** What a handler entered in `cpu` makes of the memory `m`. */
  function Trapped(m: Memory, k: Stack, cpu: Context, w: Memory): Memory {
    m + Block(TrapFrame(k), TrapWords(cpu)) + w
  }

  function SysStep(s: Sys, e: KernelEvent): Sys
    requires Wired(s)
  {
    match e
    case Birthing(b) => StartedSys(s, b)
    case Timer(t) => TickedSys(s, t)
    case Exec(c, w) => s.(cpu := c, mem := s.mem + w)
    case Trap(w) => s.(mem := Trapped(s.mem, s.rsp0, s.cpu, w))
  }

  // ----- The invariant -----

  ghost predicate Separate(states: map<Slot, ProcessState>, k: Stack) {
    && (forall p :: p in states ==> Off(states[p].area, k))
    && (forall p, q :: p in states && q in states && p != q ==> Apart(states[p].area, states[q].area))
  }

  /** The suspended context `c` can be read back from where `st` says it is. */
  ghost predicate Parked(m: Memory, k: Stack, st: ProcessState, c: Context) {
    && (OwnFrame(st) || (st.kernelRsp == SharedFrame(k) && Ring(c.cs) != 0))
    && ContextAt(m, st.kernelRsp) == c
    && Room(c, st.area)
  }

  /** Everything but the contents of the suspended frames. */
  ghost predicate Shape(s: Sys, ctx: map<Slot, Context>) {
    && Wired(s)
    && s.states.Keys == ctx.Keys
    && (forall p :: p in s.states && p.TaskSlot? ==> p.box < s.sched.boxes)
    && Separate(s.states, s.rsp0)
    && s.rsp0.lo <= SharedFrame(s.rsp0)
    && Room(s.cpu, s.states[SaveSlot(s.sched)].area)
  }

  ghost predicate AllParked(s: Sys, ctx: map<Slot, Context>)
    requires s.states.Keys == ctx.Keys
  {
    forall p :: p in s.states && p != SaveSlot(s.sched) ==> Parked(s.mem, s.rsp0, s.states[p], ctx[p])
  }

  ghost predicate Refines(s: Sys, i: Ideal) {
    s.sched == i.sched && s.cpu == i.cpu && Shape(s, i.ctx) && AllParked(s, i.ctx)
  }

  // ----- Frames and writes -----

  lemma OwnWriteMissesOwn(w: Memory, a: Area, st: ProcessState)
    requires WritesOwn(w, a) && Apart(a, st.area) && OwnFrame(st)
    ensures Misses(w, st.kernelRsp)
  {
  }

  lemma OwnWriteMissesShared(w: Memory, a: Area, k: Stack)
    requires WritesOwn(w, a) && Off(a, k) && k.lo <= SharedFrame(k)
    ensures Misses(w, SharedFrame(k))
  {
  }

  lemma SharedWriteMissesOwn(w: Memory, k: Stack, st: ProcessState)
    requires (forall x :: x in w ==> OnStack(k, x)) && Off(st.area, k) && OwnFrame(st)
    ensures Misses(w, st.kernelRsp)
  {
  }

  lemma ParkedSkips(m: Memory, w: Memory, k: Stack, st: ProcessState, c: Context)
    requires Parked(m, k, st, c) && Misses(w, st.kernelRsp)
    ensures Parked(m + w, k, st, c)
  {
  }

  /** Writes confined to one task's memory leave every other task's frame alone. */
  lemma OwnWriteKeepsParked(m: Memory, w: Memory, a: Area, k: Stack, st: ProcessState, c: Context)
    requires Parked(m, k, st, c) && WritesOwn(w, a) && Apart(a, st.area) && Off(a, k) && k.lo <= SharedFrame(k)
    ensures Parked(m + w, k, st, c)
  {
    ParkedSkips(m, w, k, st, c);
  }

  lemma BirthWritesOwn(b: Birth)
    requires WritesOwn(b.fill, b.area) && b.area.lo + 22 <= b.area.top
    ensures WritesOwn(BirthWrites(b), b.area)
  {
  }

  lemma BirthWords(b: Birth)
    ensures FrameWords(BirthContext(b)) == FreshWords(b) + [Read(b.fill, b.area.top + 1)]
  {
  }

  /** A new ring 3 task starts at the low end of its user stack: its first push is outside, unless the stacks adjoin. */
  lemma FirstUserPush(b: Birth)
    requires !b.kernel
    ensures Owns(b.area, BirthContext(b).rsp - 1) <==> b.area.lo < b.area.ulo < b.area.top + 3
  {
  }

  /** The handler's pops and `iretq` start a new task at its entry point, with clean registers and interrupts on. */
  lemma FreshFrame(m: Memory, b: Birth, c: Context)
    requires b.area.top + 1 in b.fill && c == ContextAt(m + BirthWrites(b), NewState(b).kernelRsp)
    ensures c.regs == Regs(0, 0, 0, 0, 0, 0, 0, 0, 0, 0, 0, 0, 0, 0, b.area.top)
    ensures c.rip == b.entry && c.cs == (if b.kernel then 8 else 19) && c.rflags == 0x202
    ensures c.rsp == (if b.kernel then b.area.top else b.area.ulo)
    ensures Ring(c.cs) == if b.kernel then 0 else 3
  {
    FreshContext(m, b);
  }

  lemma FreshContext(m: Memory, b: Birth)
    requires b.area.top + 1 in b.fill
    ensures ContextAt(m + BirthWrites(b), b.area.top - 18) == BirthContext(b)
  {
    var ws := FrameWords(BirthContext(b));
    BirthWords(b);
    forall x | Within(b.area.top - 18, |ws|, x)
      ensures Read(m + BirthWrites(b), x) == ws[x - (b.area.top - 18)]
    {
    }
    ContextFromWords(m + BirthWrites(b), b.area.top - 18, BirthContext(b));
  }

  lemma BirthParked(m: Memory, b: Birth, k: Stack)
    requires b.area.top + 1 in b.fill && b.area.lo + 22 <= b.area.top
    ensures Parked(m + BirthWrites(b), k, NewState(b), BirthContext(b))
  {
    FreshContext(m, b);
    BirthRoom(b);
  }

  lemma BirthRoom(b: Birth)
    requires b.area.lo + 22 <= b.area.top
    ensures OwnFrame(NewState(b)) && Room(BirthContext(b), b.area)
  {
  }

  // ----- Starts and execution keep the refinement -----

  lemma SeparateExtended(states: map<Slot, ProcessState>, k: Stack, p: Slot, st: ProcessState)
    requires Separate(states, k) && p !in states && Off(st.area, k)
    requires forall q :: q in states ==> Apart(states[q].area, st.area) && Apart(st.area, states[q].area)
    ensures Separate(states[p := st], k)
  {
  }

  lemma SeparateMoved(states: map<Slot, ProcessState>, k: Stack, p: Slot, rsp: int)
    requires Separate(states, k) && p in states
    ensures Separate(states[p := states[p].(kernelRsp := rsp)], k)
  {
  }

  lemma BirthKeepsShape(s: Sys, i: Ideal, b: Birth)
    requires Refines(s, i) && GoodBirth(s, b)
    ensures Shape(StartedSys(s, b), IdealStep(i, Birthing(b)).ctx)
  {
    StartKeepsWired(s, b);
    SeparateExtended(s.states, s.rsp0, TaskSlot(s.sched.boxes), NewState(b));
  }

  lemma BirthKeepsFrames(s: Sys, i: Ideal, b: Birth, p: Slot)
    requires Refines(s, i) && GoodBirth(s, b)
    requires p in StartedSys(s, b).states && p != SaveSlot(s.sched)
    ensures Parked(s.mem + BirthWrites(b), s.rsp0, StartedSys(s, b).states[p], IdealStep(i, Birthing(b)).ctx[p])
  {
    if p == TaskSlot(s.sched.boxes) {
      BirthParked(s.mem, b, s.rsp0);
    } else {
      BirthWritesOwn(b);
      OwnWriteKeepsParked(s.mem, BirthWrites(b), b.area, s.rsp0, s.states[p], i.ctx[p]);
    }
  }

  lemma BirthRefines(s: Sys, i: Ideal, b: Birth)
    requires Refines(s, i) && GoodBirth(s, b)
    ensures Refines(StartedSys(s, b), IdealStep(i, Birthing(b)))
  {
    BirthKeepsShape(s, i, b);
    var s' := StartedSys(s, b);
    forall p | p in s'.states && p != SaveSlot(s'.sched)
      ensures Parked(s'.mem, s'.rsp0, s'.states[p], IdealStep(i, Birthing(b)).ctx[p])
    {
      BirthKeepsFrames(s, i, b, p);
    }
  }

  lemma ExecRefines(s: Sys, i: Ideal, c: Context, w: Memory)
    requires Refines(s, i) && Enabled(s, Exec(c, w))
    ensures Refines(SysStep(s, Exec(c, w)), IdealStep(i, Exec(c, w)))
  {
    var area := s.states[SaveSlot(s.sched)].area;
    forall p | p in s.states && p != SaveSlot(s.sched)
      ensures Parked(s.mem + w, s.rsp0, s.states[p], i.ctx[p])
    {
      OwnWriteKeepsParked(s.mem, w, area, s.rsp0, s.states[p], i.ctx[p]);
    }
  }

  // ----- Ticks -----

  /** The frame this tick saves destroys no other: it comes from ring 0, or nothing else is on the `RSP0` stack. */
  ghost predicate Harmless(s: Sys, ctx: map<Slot, Context>)
    requires s.states.Keys == ctx.Keys
  {
    Ring(s.cpu.cs) != 0 ==>
      forall p :: p in s.states && p != SaveSlot(s.sched) && s.states[p].kernelRsp == SharedFrame(s.rsp0) ==>
        ctx[p] == s.cpu
  }

  ghost predicate WritesShared(w: Memory, k: Stack) {
    forall x :: x in w ==> OnStack(k, x)
  }

  lemma SaveWritesOwn(s: Sys, ctx: map<Slot, Context>)
    requires Shape(s, ctx)
    ensures var w := Block(SavedAt(s), FrameWords(s.cpu));
            if Ring(s.cpu.cs) == 0 then WritesOwn(w, s.states[SaveSlot(s.sched)].area) else WritesShared(w, s.rsp0)
    ensures Ring(s.cpu.cs) != 0 ==> SavedAt(s) == SharedFrame(s.rsp0)
  {
  }

  /** Memory as the outgoing half of a tick leaves it. */
  function SavedMemory(s: Sys, t: TickInput): Memory {
    s.mem + Block(SavedAt(s), FrameWords(s.cpu)) + t.outgoing
  }

  lemma OutgoingConfined(s: Sys, ctx: map<Slot, Context>, t: TickInput)
    requires Shape(s, ctx) && Enabled(s, Timer(t))
    ensures if Ring(s.cpu.cs) == 0 then WritesOwn(t.outgoing, s.states[SaveSlot(s.sched)].area)
            else WritesShared(t.outgoing, s.rsp0)
    ensures Misses(t.outgoing, SavedAt(s))
  {
  }

  lemma SavedFrame(s: Sys, ctx: map<Slot, Context>, t: TickInput)
    requires Shape(s, ctx) && Enabled(s, Timer(t))
    ensures ContextAt(SavedMemory(s, t), SavedAt(s)) == s.cpu
  {
    ContextReadBack(s.mem, SavedAt(s), s.cpu);
    ContextSkips(s.mem + Block(SavedAt(s), FrameWords(s.cpu)), t.outgoing, SavedAt(s));
  }

  /** The saved context is parked, whichever ring it came from. */
  lemma SaveParks(s: Sys, ctx: map<Slot, Context>, t: TickInput)
    requires Shape(s, ctx) && Enabled(s, Timer(t))
    ensures Parked(SavedMemory(s, t), s.rsp0, s.states[SaveSlot(s.sched)].(kernelRsp := SavedAt(s)), s.cpu)
  {
    SavedFrame(s, ctx, t);
    SaveWritesOwn(s, ctx);
  }

  /** A frame on another stack survives the outgoing half of a tick. */
  lemma SaveSpares(s: Sys, ctx: map<Slot, Context>, t: TickInput, p: Slot)
    requires Shape(s, ctx) && Enabled(s, Timer(t)) && p in s.states && p != SaveSlot(s.sched)
    requires Parked(s.mem, s.rsp0, s.states[p], ctx[p])
    requires Ring(s.cpu.cs) == 0 || OwnFrame(s.states[p])
    ensures Parked(SavedMemory(s, t), s.rsp0, s.states[p], ctx[p])
  {
    var w := Block(SavedAt(s), FrameWords(s.cpu));
    SaveWritesOwn(s, ctx);
    OutgoingConfined(s, ctx, t);
    if Ring(s.cpu.cs) == 0 {
      var area := s.states[SaveSlot(s.sched)].area;
      OwnWriteKeepsParked(s.mem, w, area, s.rsp0, s.states[p], ctx[p]);
      OwnWriteKeepsParked(s.mem + w, t.outgoing, area, s.rsp0, s.states[p], ctx[p]);
    } else {
      SharedWriteMissesOwn(w, s.rsp0, s.states[p]);
      ParkedSkips(s.mem, w, s.rsp0, s.states[p], ctx[p]);
      SharedWriteMissesOwn(t.outgoing, s.rsp0, s.states[p]);
      ParkedSkips(s.mem + w, t.outgoing, s.rsp0, s.states[p], ctx[p]);
    }
  }

  /** Under `Harmless` nothing suspended is lost, not even what shares the `RSP0` stack. */
  lemma SaveKeepsParked(s: Sys, ctx: map<Slot, Context>, t: TickInput, p: Slot)
    requires Shape(s, ctx) && AllParked(s, ctx) && Enabled(s, Timer(t)) && Harmless(s, ctx)
    requires p in s.states && p != SaveSlot(s.sched)
    ensures Parked(SavedMemory(s, t), s.rsp0, s.states[p], ctx[p])
  {
    if Ring(s.cpu.cs) == 0 || OwnFrame(s.states[p]) {
      SaveSpares(s, ctx, t, p);
    } else {
      SavedFrame(s, ctx, t);
    }
  }

  /** Memory after `select_next_task`. */
  function SelectedMemory(s: Sys, t: TickInput): Memory {
    if CreatesIdle(s) then SavedMemory(s, t) + BirthWrites(t.idle) else SavedMemory(s, t)
  }

  lemma SelectKeepsParked(s: Sys, t: TickInput, st: ProcessState, c: Context)
    requires s.rsp0.lo <= SharedFrame(s.rsp0) && Parked(SavedMemory(s, t), s.rsp0, st, c)
    requires CreatesIdle(s) ==> GoodBirth(s, t.idle) && Apart(t.idle.area, st.area)
    ensures Parked(SelectedMemory(s, t), s.rsp0, st, c)
  {
    if CreatesIdle(s) {
      BirthWritesOwn(t.idle);
      OwnWriteKeepsParked(SavedMemory(s, t), BirthWrites(t.idle), t.idle.area, s.rsp0, st, c);
    }
  }

  /** What is written below the dispatched frame touches no frame at all. */
  lemma IncomingMisses(w: Memory, k: Stack, next: ProcessState, st: ProcessState)
    requires k.lo <= SharedFrame(k) && Home(next, k) && Below(w, next.area, OwnFrame(next), k, next.kernelRsp)
    requires Off(next.area, k) && Off(st.area, k) && (next == st || Apart(next.area, st.area)) && Home(st, k)
    ensures Misses(w, st.kernelRsp)
  {
    if next.kernelRsp != st.kernelRsp {
      if OwnFrame(next) {
        if OwnFrame(st) {
          OwnWriteMissesOwn(w, next.area, st);
        } else {
          OwnWriteMissesShared(w, next.area, k);
        }
      } else {
        SharedWriteMissesOwn(w, k, st);
      }
    }
  }

  /** The states and contexts between saving and loading: all of them are parked, the running one too. */
  lemma SwitchedStatesSeparate(s: Sys, i: Ideal, t: TickInput)
    requires s.sched == i.sched && Shape(s, i.ctx) && Enabled(s, Timer(t))
    ensures Separate(SwitchedStates(s, t), s.rsp0)
    ensures SwitchedStates(s, t).Keys == SwitchedTable(i, t).Keys
    ensures DispatchSlot(s.sched) in SwitchedStates(s, t)
  {
    var slot := SaveSlot(s.sched);
    SeparateMoved(s.states, s.rsp0, slot, SavedAt(s));
    if CreatesIdle(s) {
      SeparateExtended(s.states[slot := s.states[slot].(kernelRsp := SavedAt(s))], s.rsp0, IdleSlot, NewState(t.idle));
    }
  }

  lemma SelectedParkedSave(s: Sys, i: Ideal, t: TickInput)
    requires Refines(s, i) && Enabled(s, Timer(t))
    ensures var p := SaveSlot(s.sched);
            Parked(SelectedMemory(s, t), s.rsp0, SwitchedStates(s, t)[p], s.cpu) && SwitchedTable(i, t)[p] == s.cpu
  {
    var st := s.states[SaveSlot(s.sched)].(kernelRsp := SavedAt(s));
    SaveParks(s, i.ctx, t);
    SelectKeepsParked(s, t, st, s.cpu);
  }

  lemma SelectedParkedOther(s: Sys, i: Ideal, t: TickInput, p: Slot)
    requires Refines(s, i) && Enabled(s, Timer(t)) && Harmless(s, i.ctx) && p in s.states && p != SaveSlot(s.sched)
    ensures Parked(SelectedMemory(s, t), s.rsp0, s.states[p], i.ctx[p])
  {
    SaveKeepsParked(s, i.ctx, t, p);
    SelectKeepsParked(s, t, s.states[p], i.ctx[p]);
  }

  lemma SelectedParked(s: Sys, i: Ideal, t: TickInput, p: Slot)
    requires Refines(s, i) && Enabled(s, Timer(t)) && (p == SaveSlot(s.sched) || Harmless(s, i.ctx))
    requires p in SwitchedStates(s, t) && p in SwitchedTable(i, t)
    ensures Parked(SelectedMemory(s, t), s.rsp0, SwitchedStates(s, t)[p], SwitchedTable(i, t)[p])
  {
    if p == SaveSlot(s.sched) {
      SelectedParkedSave(s, i, t);
    } else if p in s.states {
      SelectedParkedOther(s, i, t, p);
      OthersUntouched(s, i, t, p);
    } else {
      BirthParked(SavedMemory(s, t), t.idle, s.rsp0);
    }
  }

  lemma SwitchedHome(s: Sys, i: Ideal, t: TickInput, p: Slot)
    requires Refines(s, i) && Enabled(s, Timer(t)) && p in SwitchedStates(s, t)
    ensures Home(SwitchedStates(s, t)[p], s.rsp0)
  {
    if p in s.states && p != SaveSlot(s.sched) {
      assert Parked(s.mem, s.rsp0, s.states[p], i.ctx[p]);
    }
  }

  lemma TickParks(s: Sys, i: Ideal, t: TickInput, p: Slot)
    requires Refines(s, i) && Enabled(s, Timer(t)) && (p == SaveSlot(s.sched) || Harmless(s, i.ctx))
    requires p in SwitchedStates(s, t) && p in SwitchedTable(i, t)
    ensures Parked(SwitchedMemory(s, t), s.rsp0, SwitchedStates(s, t)[p], SwitchedTable(i, t)[p])
  {
    var next := DispatchSlot(s.sched);
    SelectedParked(s, i, t, p);
    SwitchedStatesSeparate(s, i, t);
    SwitchedHome(s, i, t, next);
    IncomingMisses(t.incoming, s.rsp0, SwitchedStates(s, t)[next], SwitchedStates(s, t)[p]);
    ParkedSkips(SelectedMemory(s, t), t.incoming, s.rsp0, SwitchedStates(s, t)[p], SwitchedTable(i, t)[p]);
  }

  lemma TickKeepsShape(s: Sys, i: Ideal, t: TickInput)
    requires Refines(s, i) && Enabled(s, Timer(t)) && Harmless(s, i.ctx)
    ensures Shape(TickedSys(s, t), SwitchedTable(i, t))
    ensures TickedSys(s, t).cpu == IdealStep(i, Timer(t)).cpu
  {
    SwitchedStatesSeparate(s, i, t);
    TickKeepsWired(s, t);
    TickParks(s, i, t, DispatchSlot(s.sched));
  }

  lemma HarmlessTickRefines(s: Sys, i: Ideal, t: TickInput)
    requires Refines(s, i) && Enabled(s, Timer(t)) && Harmless(s, i.ctx)
    ensures Refines(TickedSys(s, t), IdealStep(i, Timer(t)))
  {
    var s' := TickedSys(s, t);
    TickKeepsShape(s, i, t);
    forall p | p in s'.states && p != SaveSlot(s'.sched)
      ensures Parked(s'.mem, s'.rsp0, s'.states[p], SwitchedTable(i, t)[p])
    {
      TickParks(s, i, t, p);
    }
  }

  /** After a ring 3 preemption, the frame on the `RSP0` stack is the one just saved. */
  lemma SharedFrameIsLatest(s: Sys, i: Ideal, t: TickInput)
    requires Refines(s, i) && Enabled(s, Timer(t)) && Ring(s.cpu.cs) != 0
    ensures ContextAt(SwitchedMemory(s, t), SharedFrame(s.rsp0)) == s.cpu
  {
    TickParks(s, i, t, SaveSlot(s.sched));
    SaveWritesOwn(s, i.ctx);
  }

  lemma HarmfulTickBreaks(s: Sys, i: Ideal, t: TickInput, p: Slot)
    requires Refines(s, i) && Enabled(s, Timer(t)) && Ring(s.cpu.cs) != 0
    requires p in s.states && p != SaveSlot(s.sched)
    requires s.states[p].kernelRsp == SharedFrame(s.rsp0) && i.ctx[p] != s.cpu
    ensures !Refines(TickedSys(s, t), IdealStep(i, Timer(t)))
    ensures p == DispatchSlot(s.sched) ==> TickedSys(s, t).cpu == s.cpu != IdealStep(i, Timer(t)).cpu
  {
    SharedFrameIsLatest(s, i, t);
    OthersUntouched(s, i, t, p);
    if p != DispatchSlot(s.sched) {
      DispatchIsNextSave(s.sched);
      assert !Parked(SwitchedMemory(s, t), s.rsp0, SwitchedStates(s, t)[p], SwitchedTable(i, t)[p]);
    }
  }

  lemma OthersUntouched(s: Sys, i: Ideal, t: TickInput, p: Slot)
    requires s.sched == i.sched && Shape(s, i.ctx) && p in s.states && p != SaveSlot(s.sched)
    ensures p in SwitchedStates(s, t) && SwitchedStates(s, t)[p] == s.states[p]
    ensures p in SwitchedTable(i, t) && SwitchedTable(i, t)[p] == i.ctx[p]
  {
  }

  /** A tick keeps every context exactly when the frame it saves does not land on another one. */
  lemma TickIsolation(s: Sys, i: Ideal, t: TickInput)
    requires Refines(s, i) && Enabled(s, Timer(t))
    ensures Refines(TickedSys(s, t), IdealStep(i, Timer(t))) <==> Harmless(s, i.ctx)
  {
    if Harmless(s, i.ctx) {
      HarmlessTickRefines(s, i, t);
    } else {
      var p :| p in s.states && p != SaveSlot(s.sched)
               && s.states[p].kernelRsp == SharedFrame(s.rsp0) && i.ctx[p] != s.cpu;
      HarmfulTickBreaks(s, i, t, p);
    }
  }

  // ----- Other interrupts from ring 3 -----

  /** The suspended context `p` is on the `RSP0` stack. */
  predicate Shares(s: Sys, p: Slot) {
    p in s.states && p != SaveSlot(s.sched) && s.states[p].kernelRsp == SharedFrame(s.rsp0)
  }

  /** Nothing different is suspended on the `RSP0` stack. */
  ghost predicate TrapHarmless(s: Sys, ctx: map<Slot, Context>, w: Memory)
    requires s.states.Keys == ctx.Keys
  {
    forall p :: Shares(s, p) ==> PushesSame(s.mem, s.rsp0, s.cpu, w, ctx[p])
  }

  ghost predicate LeavesRegisters(m: Memory, w: Memory, a: int) {
    forall x :: Within(a, 15, x) && x in w ==> w[x] == Read(m, x)
  }

  lemma TrapReads(m: Memory, w: Memory, a: int, c: Context, x: int)
    requires (forall y :: y in w ==> y < a + 15) && Within(a, FRAME, x)
    ensures Read(m + Block(a + 15, TrapWords(c)) + w, x)
         == if x < a + 15 then if x in w then w[x] else Read(m, x) else TrapWords(c)[x - a - 15]
  {
  }

  lemma TrapOverSame(m: Memory, w: Memory, a: int, c: Context)
    requires (forall y :: y in w ==> y < a + 15)
    requires TrapWords(ContextAt(m, a)) == TrapWords(c) && LeavesRegisters(m, w, a)
    ensures ContextAt(m + Block(a + 15, TrapWords(c)) + w, a) == ContextAt(m, a)
  {
    var m' := m + Block(a + 15, TrapWords(c)) + w;
    forall x | Within(a, FRAME, x)
      ensures Read(m', x) == Read(m, x)
    {
      TrapReads(m, w, a, c, x);
      if x >= a + 15 {
        TrapWordsAt(m, a, x);
      } else if x in w {
        assert Within(a, 15, x);
      }
    }
    SameReadsContext(m, m', a);
  }

  lemma TrapOverOther(m: Memory, w: Memory, a: int, c: Context)
    requires forall y :: y in w ==> y < a + 15
    requires ContextAt(m + Block(a + 15, TrapWords(c)) + w, a) == ContextAt(m, a)
    ensures TrapWords(ContextAt(m, a)) == TrapWords(c) && LeavesRegisters(m, w, a)
  {
    var m' := m + Block(a + 15, TrapWords(c)) + w;
    forall j | 0 <= j < 5
      ensures TrapWords(ContextAt(m, a))[j] == TrapWords(c)[j]
    {
      SameContextReads(m, m', a, a + 15 + j);
      TrapReads(m, w, a, c, a + 15 + j);
      TrapWordsAt(m, a, a + 15 + j);
    }
    forall x | Within(a, 15, x) && x in w
      ensures w[x] == Read(m, x)
    {
      SameContextReads(m, m', a, x);
      TrapReads(m, w, a, c, x);
    }
  }

  lemma SharedWriteKeepsOwn(m: Memory, w: Memory, k: Stack, st: ProcessState, c: Context)
    requires Parked(m, k, st, c) && WritesShared(w, k) && Off(st.area, k) && OwnFrame(st)
    ensures Parked(m + w, k, st, c)
  {
    SharedWriteMissesOwn(w, k, st);
    ParkedSkips(m, w, k, st, c);
  }

  lemma TrapWritesShared(w: Memory, k: Stack, cpu: Context)
    requires k.lo <= SharedFrame(k) && Handled(w, k)
    ensures WritesShared(Block(TrapFrame(k), TrapWords(cpu)), k) && WritesShared(w, k)
  {
  }

  /** A frame on the task's own stack is out of reach of any handler entered from ring 3. */
  lemma TrapSparesOwn(m: Memory, k: Stack, cpu: Context, w: Memory, st: ProcessState, c: Context)
    requires Parked(m, k, st, c) && k.lo <= SharedFrame(k) && Handled(w, k) && Off(st.area, k) && OwnFrame(st)
    ensures Parked(Trapped(m, k, cpu, w), k, st, c)
  {
    var frame := Block(TrapFrame(k), TrapWords(cpu));
    TrapWritesShared(w, k, cpu);
    SharedWriteKeepsOwn(m, frame, k, st, c);
    SharedWriteKeepsOwn(m + frame, w, k, st, c);
  }

  lemma SharedIsNotOwn(st: ProcessState, k: Stack)
    requires Off(st.area, k) && k.lo <= SharedFrame(k) && st.kernelRsp == SharedFrame(k)
    ensures !OwnFrame(st)
  {
    assert OnStack(k, SharedFrame(k));
    assert !Owns(st.area, SharedFrame(k));
  }

  lemma TrapOverIff(m: Memory, m': Memory, w: Memory, a: int, cpu: Context, c: Context)
    requires (forall y :: y in w ==> y < a + 15) && m' == m + Block(a + 15, TrapWords(cpu)) + w && ContextAt(m, a) == c
    ensures ContextAt(m', a) == c <==> TrapWords(c) == TrapWords(cpu) && LeavesRegisters(m, w, a)
  {
    if TrapWords(c) == TrapWords(cpu) && LeavesRegisters(m, w, a) {
      TrapOverSame(m, w, a, cpu);
    } else if ContextAt(m', a) == c {
      TrapOverOther(m, w, a, cpu);
    }
  }

  /** The interrupt frame pushed now equals that of `c`, and the handler leaves the registers below it alone. */
  ghost predicate PushesSame(m: Memory, k: Stack, cpu: Context, w: Memory, c: Context) {
    TrapWords(c) == TrapWords(cpu) && LeavesRegisters(m, w, SharedFrame(k))
  }

  lemma TrapReadsSame(m: Memory, m': Memory, k: Stack, a: int, cpu: Context, w: Memory, c: Context)
    requires a == SharedFrame(k) && Handled(w, k) && m' == Trapped(m, k, cpu, w) && ContextAt(m, a) == c
    ensures ContextAt(m', a) == c <==> PushesSame(m, k, cpu, w, c)
  {
    TrapOverIff(m, m', w, a, cpu, c);
  }

  lemma TrapOnShared(m: Memory, m': Memory, k: Stack, cpu: Context, w: Memory, st: ProcessState, c: Context)
    requires Parked(m, k, st, c) && Handled(w, k) && st.kernelRsp == SharedFrame(k) && m' == Trapped(m, k, cpu, w)
    ensures Parked(m', k, st, c) <==> PushesSame(m, k, cpu, w, c)
  {
    TrapReadsSame(m, m', k, st.kernelRsp, cpu, w, c);
  }

  /** What an interrupt does to the suspended context of `p`. */
  lemma TrapParks(s: Sys, i: Ideal, w: Memory, p: Slot)
    requires Refines(s, i) && Handled(w, s.rsp0) && p in s.states && p != SaveSlot(s.sched)
    ensures Parked(Trapped(s.mem, s.rsp0, s.cpu, w), s.rsp0, s.states[p], i.ctx[p])
       <==> (Shares(s, p) ==> PushesSame(s.mem, s.rsp0, s.cpu, w, i.ctx[p]))
  {
    assert Parked(s.mem, s.rsp0, s.states[p], i.ctx[p]);
    if Shares(s, p) {
      TrapOnShared(s.mem, Trapped(s.mem, s.rsp0, s.cpu, w), s.rsp0, s.cpu, w, s.states[p], i.ctx[p]);
    } else {
      TrapSparesOwn(s.mem, s.rsp0, s.cpu, w, s.states[p], i.ctx[p]);
    }
  }

  /** An interrupt from ring 3 keeps every context exactly when it pushes over none but equal words. */
  lemma TrapIsolation(s: Sys, i: Ideal, w: Memory)
    requires Refines(s, i) && Enabled(s, Trap(w))
    ensures Refines(SysStep(s, Trap(w)), IdealStep(i, Trap(w))) <==> TrapHarmless(s, i.ctx, w)
  {
    forall p | p in s.states && p != SaveSlot(s.sched)
      ensures Parked(Trapped(s.mem, s.rsp0, s.cpu, w), s.rsp0, s.states[p], i.ctx[p])
         <==> (Shares(s, p) ==> PushesSame(s.mem, s.rsp0, s.cpu, w, i.ctx[p]))
    {
      TrapParks(s, i, w, p);
    }
  }
}
