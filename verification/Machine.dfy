/**
  The part of the processor that `interrupts.rs` drives: fifteen general registers, the
  interrupt frame, and memory as cells of eight bytes. Addresses count such words.
*/
module Machine {

  import opened Cells

  datatype Regs = Regs(rax: int, rbx: int, rcx: int, rdx: int, rsi: int, rdi: int, r8: int, r9: int,
                       r10: int, r11: int, r12: int, r13: int, r14: int, r15: int, rbp: int)

  /** Everything a preempted computation needs to go on. */
  datatype Context = Context(regs: Regs, rip: int, cs: int, rflags: int, rsp: int, ss: int)

  const KERNEL_CS := 8        // segment 1, ring 0
  const USER_CS := 16 + 3     // segment 2, ring 3
  const DEFAULT_FLAGS := 0x202
  const FRAME := 20           // fifteen registers on top of a five-word interrupt frame

  function Ring(cs: int): int {
    cs % 4
  }

  /** The stack pointer is rounded down to sixteen bytes before the interrupt frame is pushed. */
  function AlignDown(sp: int): int {
    sp - sp % 2
  }

  /** Where the interrupt frame starts: on the current stack, or, coming from another ring, on the `RSP0` stack. */
  function EntrySp(c: Context, rsp0: int): int {
    AlignDown(if Ring(c.cs) == 0 then c.rsp else rsp0)
  }

  /** The registers as the handler leaves them on the stack, lowest address first. */
  function RegWords(r: Regs): seq<int> {
    [r.rbp, r.r15, r.r14, r.r13, r.r12, r.r11, r.r10, r.r9, r.r8, r.rdi, r.rsi, r.rdx, r.rcx, r.rbx, r.rax]
  }

  /** The interrupt frame, as the processor pushes it. */
  function TrapWords(c: Context): seq<int> {
    [c.rip, c.cs, c.rflags, c.rsp, c.ss]
  }

  function FrameWords(c: Context): seq<int> {
    RegWords(c.regs) + TrapWords(c)
  }

  /** The registers found at `a` by the handler's pops. */
  function RegsAt(m: Memory, a: int): Regs {
    Regs(Read(m, a + 14), Read(m, a + 13), Read(m, a + 12), Read(m, a + 11), Read(m, a + 10), Read(m, a + 9),
         Read(m, a + 8), Read(m, a + 7), Read(m, a + 6), Read(m, a + 5), Read(m, a + 4), Read(m, a + 3),
         Read(m, a + 2), Read(m, a + 1), Read(m, a))
  }

  /** What popping the registers and `iretq` restore from a frame at `a`. */
  function ContextAt(m: Memory, a: int): Context {
    Context(RegsAt(m, a), Read(m, a + 15), Read(m, a + 16), Read(m, a + 17), Read(m, a + 18), Read(m, a + 19))
  }

  /** No write in `w` hits the frame at `a`. */
  ghost predicate Misses(w: Memory, a: int) {
    forall x :: Within(a, FRAME, x) ==> x !in w
  }

  lemma ContextSkips(m: Memory, w: Memory, a: int)
    requires Misses(w, a)
    ensures ContextAt(m + w, a) == ContextAt(m, a)
  {
  }

  /** The cells from `a` on hold `ws`. */
  ghost predicate HasWords(m: Memory, a: int, ws: seq<int>) {
    forall x :: Within(a, |ws|, x) ==> Read(m, x) == ws[x - a]
  }

  lemma ContextFromWords(m: Memory, a: int, c: Context)
    requires HasWords(m, a, FrameWords(c))
    ensures ContextAt(m, a) == c
  {
  }

  lemma RegWordsAt(m: Memory, a: int, x: int)
    requires Within(a, 15, x)
    ensures RegWords(RegsAt(m, a))[x - a] == Read(m, x)
  {
    var found := seq(15, j requires 0 <= j < 15 => Read(m, a + j));
    assert found[x - a] == Read(m, x);
    assert RegWords(RegsAt(m, a)) == found;
  }

  lemma TrapWordsAt(m: Memory, a: int, x: int)
    requires Within(a + 15, 5, x)
    ensures TrapWords(ContextAt(m, a))[x - a - 15] == Read(m, x)
  {
  }

  lemma SameContextReads(m: Memory, m': Memory, a: int, x: int)
    requires ContextAt(m', a) == ContextAt(m, a) && Within(a, FRAME, x)
    ensures Read(m', x) == Read(m, x)
  {
    if x < a + 15 {
      RegWordsAt(m, a, x);
      RegWordsAt(m', a, x);
    } else {
      TrapWordsAt(m, a, x);
      TrapWordsAt(m', a, x);
    }
  }

  lemma SameReadsContext(m: Memory, m': Memory, a: int)
    requires forall x :: Within(a, FRAME, x) ==> Read(m', x) == Read(m, x)
    ensures ContextAt(m', a) == ContextAt(m, a)
  {
  }

  lemma BlockHasWords(m: Memory, a: int, ws: seq<int>)
    ensures HasWords(m + Block(a, ws), a, ws)
  {
  }

  /** Popping undoes pushing, whatever was in memory. */
  lemma ContextReadBack(m: Memory, a: int, c: Context)
    ensures ContextAt(m + Block(a, FrameWords(c)), a) == c
  {
    BlockHasWords(m, a, FrameWords(c));
    ContextFromWords(m + Block(a, FrameWords(c)), a, c);
  }

  /** The processor, as the handlers see it. */
  class Cpu {
    var regs: Regs
    var rip: int
    var cs: int
    var rflags: int
    var rsp: int
    var ss: int
    var mem: Memory

    constructor (c: Context, m: Memory)
      ensures Now() == c && mem == m
    {
      regs, rip, cs, rflags, rsp, ss, mem := c.regs, c.rip, c.cs, c.rflags, c.rsp, c.ss, m;
    }

    function Now(): Context
      reads this
    {
      Context(regs, rip, cs, rflags, rsp, ss)
    }

    /** Push `v` below the words `ws` pushed onto `base` so far. */
    method Push(v: int, ghost base: Memory, ghost ws: seq<int>) returns (ghost ws': seq<int>)
      requires mem == base + Block(rsp, ws)
      modifies this`rsp, this`mem
      ensures rsp == old(rsp) - 1 && ws' == [v] + ws && mem == base + Block(rsp, ws')
    {
      rsp := rsp - 1;
      mem := mem[rsp := v];
      ws' := [v] + ws;
      BlockGrows(base, rsp, v, ws);
    }

    /** Store `v` just below the words `ws` stored into `base` so far. */
    method Poke(a: int, v: int, ghost base: Memory, ghost ws: seq<int>) returns (ghost ws': seq<int>)
      requires mem == base + Block(a + 1, ws)
      modifies this`mem
      ensures ws' == [v] + ws && mem == base + Block(a, ws')
    {
      mem := mem[a := v];
      ws' := [v] + ws;
      BlockGrows(base, a, v, ws);
    }

    method Pop() returns (v: int)
      modifies this`rsp
      ensures rsp == old(rsp) + 1 && v == Read(mem, old(rsp))
    {
      v := Read(mem, rsp);
      rsp := rsp + 1;
    }

    /** What the processor does before the first instruction of the handler. */
    method InterruptEntry(rsp0: int)
      modifies this
      ensures regs == old(regs)
      ensures rsp == EntrySp(old(Now()), rsp0) - 5
      ensures var top := if old(cs) % 4 == 0 then old(rsp) else rsp0; (rsp + 5) % 2 == 0 && top - 1 <= rsp + 5 <= top
      ensures mem == old(mem) + Block(rsp, [old(rip), old(cs), old(rflags), old(rsp), old(ss)])
    {
      var outer := rsp;
      if Ring(cs) != 0 {
        rsp := rsp0;
      }
      rsp := AlignDown(rsp);
      ghost var m := mem;
      ghost var ws := Push(ss, m, []);
      ws := Push(outer, m, ws);
      ws := Push(rflags, m, ws);
      ws := Push(cs, m, ws);
      ws := Push(rip, m, ws);
      assert ws == [rip, cs, rflags, outer, ss];
      cs := KERNEL_CS;
    }

    /** `push rax` to `push r8`. */
    method PushLowRegisters()
      modifies this`rsp, this`mem
      ensures rsp == old(rsp) - 7
      ensures mem == old(mem) + Block(rsp, [regs.r8, regs.rdi, regs.rsi, regs.rdx, regs.rcx, regs.rbx, regs.rax])
    {
      ghost var m := mem;
      ghost var ws := Push(regs.rax, m, []);
      ws := Push(regs.rbx, m, ws);
      ws := Push(regs.rcx, m, ws);
      ws := Push(regs.rdx, m, ws);
      ws := Push(regs.rsi, m, ws);
      ws := Push(regs.rdi, m, ws);
      ws := Push(regs.r8, m, ws);
      assert ws == [regs.r8, regs.rdi, regs.rsi, regs.rdx, regs.rcx, regs.rbx, regs.rax];
    }

    /** `push r9` to `push rbp`. */
    method PushHighRegisters()
      modifies this`rsp, this`mem
      ensures rsp == old(rsp) - 8
      ensures mem == old(mem) + Block(rsp, [regs.rbp, regs.r15, regs.r14, regs.r13, regs.r12,
                                            regs.r11, regs.r10, regs.r9])
    {
      ghost var m := mem;
      ghost var ws := Push(regs.r9, m, []);
      ws := Push(regs.r10, m, ws);
      ws := Push(regs.r11, m, ws);
      ws := Push(regs.r12, m, ws);
      ws := Push(regs.r13, m, ws);
      ws := Push(regs.r14, m, ws);
      ws := Push(regs.r15, m, ws);
      ws := Push(regs.rbp, m, ws);
      assert ws == [regs.rbp, regs.r15, regs.r14, regs.r13, regs.r12, regs.r11, regs.r10, regs.r9];
    }

    /** `push rax` to `push rbp`. */
    method PushRegisters()
      modifies this`rsp, this`mem
      ensures rsp == old(rsp) - 15 && mem == old(mem) + Block(rsp, RegWords(regs))
    {
      ghost var low := [regs.r8, regs.rdi, regs.rsi, regs.rdx, regs.rcx, regs.rbx, regs.rax];
      ghost var high := [regs.rbp, regs.r15, regs.r14, regs.r13, regs.r12, regs.r11, regs.r10, regs.r9];
      PushLowRegisters();
      PushHighRegisters();
      BlocksJoin(old(mem), rsp, high, low);
      assert high + low == RegWords(regs);
    }

    /** `pop rbp` to `pop r9`. */
    method PopHighRegisters()
      modifies this`rsp, this`regs
      ensures rsp == old(rsp) + 8
      ensures regs == old(regs).(rbp := Read(mem, old(rsp)), r15 := Read(mem, old(rsp) + 1),
                                 r14 := Read(mem, old(rsp) + 2), r13 := Read(mem, old(rsp) + 3),
                                 r12 := Read(mem, old(rsp) + 4), r11 := Read(mem, old(rsp) + 5),
                                 r10 := Read(mem, old(rsp) + 6), r9 := Read(mem, old(rsp) + 7))
    {
      var rbp := Pop();
      var r15 := Pop();
      var r14 := Pop();
      var r13 := Pop();
      var r12 := Pop();
      var r11 := Pop();
      var r10 := Pop();
      var r9 := Pop();
      regs := regs.(rbp := rbp, r15 := r15, r14 := r14, r13 := r13, r12 := r12, r11 := r11, r10 := r10, r9 := r9);
    }

    /** `pop r8` to `pop rax`. */
    method PopLowRegisters()
      modifies this`rsp, this`regs
      ensures rsp == old(rsp) + 7
      ensures regs == old(regs).(r8 := Read(mem, old(rsp)), rdi := Read(mem, old(rsp) + 1),
                                 rsi := Read(mem, old(rsp) + 2), rdx := Read(mem, old(rsp) + 3),
                                 rcx := Read(mem, old(rsp) + 4), rbx := Read(mem, old(rsp) + 5),
                                 rax := Read(mem, old(rsp) + 6))
    {
      var r8 := Pop();
      var rdi := Pop();
      var rsi := Pop();
      var rdx := Pop();
      var rcx := Pop();
      var rbx := Pop();
      var rax := Pop();
      regs := regs.(r8 := r8, rdi := rdi, rsi := rsi, rdx := rdx, rcx := rcx, rbx := rbx, rax := rax);
    }

    /** `pop rbp` to `pop rax`. */
    method PopRegisters()
      modifies this`rsp, this`regs
      ensures rsp == old(rsp) + 15 && regs == RegsAt(mem, old(rsp))
    {
      PopHighRegisters();
      PopLowRegisters();
    }

    method Iretq()
      modifies this
      ensures regs == old(regs) && mem == old(mem)
      ensures rip == Read(mem, old(rsp)) && cs == Read(mem, old(rsp) + 1) && rflags == Read(mem, old(rsp) + 2)
      ensures rsp == Read(mem, old(rsp) + 3) && ss == Read(mem, old(rsp) + 4)
    {
      rip := Pop();
      cs := Pop();
      rflags := Pop();
      var outer := Pop();
      ss := Pop();
      rsp := outer;
    }

    /** Entry and pushes together leave the whole context as one frame. */
    method SaveContext(rsp0: int)
      modifies this
      ensures rsp == EntrySp(old(Now()), rsp0) - FRAME
      ensures mem == old(mem) + Block(rsp, FrameWords(old(Now())))
    {
      ghost var m, c := mem, Now();
      InterruptEntry(rsp0);
      ghost var mid := mem;
      PushRegisters();
      WritesJoin(m, mid, mem, rsp, rsp + 15, RegWords(c.regs), TrapWords(c), FrameWords(c));
    }

    /** Pops and `iretq` together resume the frame `rsp` points to. */
    method LoadContext()
      modifies this
      ensures mem == old(mem) && Now() == ContextAt(mem, old(rsp))
    {
      PopRegisters();
      Iretq();
    }

    /** Called code may leave anything below the stack pointer. */
    method Scribble(w: Memory)
      requires forall x :: x in w ==> x < rsp
      modifies this`mem
      ensures mem == old(mem) + w
    {
      mem := mem + w;
    }
  }
}
