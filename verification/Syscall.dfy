/** The system call gate: the assembly block of `syscall_handler` around `handle_syscall`. */
module Syscall {
  import opened Cells
  import opened Machine

  /** The fields of `SyscallArgs`, in memory order. */
  datatype SyscallArgs = SyscallArgs(id: int, arg0: int, arg1: int, arg2: int, arg3: int, arg4: int, arg5: int,
                                     error: int)

  const WRITE := 1
  const STDOUT_FD := 1
  const EIO := 5
  const ERROR_OFFSET := 7

  function ArgsAt(m: Memory, a: int): SyscallArgs {
    SyscallArgs(Read(m, a), Read(m, a + 1), Read(m, a + 2), Read(m, a + 3),
                Read(m, a + 4), Read(m, a + 5), Read(m, a + 6), Read(m, a + 7))
  }

  function ArgWords(r: Regs): seq<int> {
    [r.rax, r.rdi, r.rsi, r.rdx, r.rcx, r.r8, r.r9, 0]
  }

  /** The return code of `_handle_write`. */
  function WriteCode(fd: int): int {
    if fd == STDOUT_FD then 0 else EIO
  }

  /** What a call under the C calling convention may do to the registers. */
  function Clobbered(r: Regs, c: Regs): Regs {
    r.(rax := c.rax, rcx := c.rcx, rdx := c.rdx, rsi := c.rsi, rdi := c.rdi,
       r8 := c.r8, r9 := c.r9, r10 := c.r10, r11 := c.r11)
  }

  /** The registers when the block ends: the arguments as they were, `rax` the code, `r10` and `r11` lost. */
  function AfterSyscall(r: Regs, c: Regs, code: int): Regs {
    r.(rax := code, r10 := c.r10, r11 := c.r11)
  }

  /** `push 0` to `push rax`: the arguments, field by field, with no error yet. */
  method PushArgs(cpu: Cpu)
    modifies cpu`rsp, cpu`mem
    ensures cpu.rsp == old(cpu.rsp) - 8 && cpu.mem == old(cpu.mem) + Block(cpu.rsp, ArgWords(cpu.regs))
  {
    ghost var m := cpu.mem;
    ghost var ws := cpu.Push(0, m, []);
    ws := cpu.Push(cpu.regs.r9, m, ws);
    ws := cpu.Push(cpu.regs.r8, m, ws);
    ws := cpu.Push(cpu.regs.rcx, m, ws);
    ws := cpu.Push(cpu.regs.rdx, m, ws);
    ws := cpu.Push(cpu.regs.rsi, m, ws);
    ws := cpu.Push(cpu.regs.rdi, m, ws);
    ws := cpu.Push(cpu.regs.rax, m, ws);
    assert ws == ArgWords(cpu.regs);
  }

  lemma ArgsReadBack(m: Memory, a: int, r: Regs)
    ensures ArgsAt(m + Block(a, ArgWords(r)), a) == SyscallArgs(r.rax, r.rdi, r.rsi, r.rdx, r.rcx, r.r8, r.r9, 0)
  {
  }

  /** `handle_syscall`: only `write` is implemented, and it stores its code into the caller's arguments. */
  method HandleSyscall(cpu: Cpu, clobber: Regs, below: Memory) returns (returned: bool)
    requires forall x :: x in below ==> x < cpu.rsp
    modifies cpu`mem, cpu`regs
    ensures returned <==> Read(old(cpu.mem), cpu.rsp) == 1
    ensures returned ==> Read(cpu.mem, cpu.rsp + 7) == if Read(old(cpu.mem), cpu.rsp + 1) == 1 then 0 else 5
    ensures returned ==> cpu.regs == Clobbered(old(cpu.regs), clobber)
    ensures var args := ArgsAt(old(cpu.mem), cpu.rsp);
            returned ==> ArgsAt(cpu.mem, cpu.rsp) == args.(error := WriteCode(args.arg0))
    ensures returned ==> forall x :: x >= cpu.rsp + 8 ==> Read(cpu.mem, x) == Read(old(cpu.mem), x)
  {
    returned := Read(cpu.mem, cpu.rsp) == WRITE;
    if returned {
      cpu.mem := cpu.mem + below;
      var code := WriteCode(Read(cpu.mem, cpu.rsp + 1));
      cpu.mem := cpu.mem[cpu.rsp + ERROR_OFFSET := code];
      cpu.regs := Clobbered(cpu.regs, clobber);
    }
  }

  /** `add rsp, 8` and the pops. */
  method PopArgs(cpu: Cpu)
    modifies cpu`rsp, cpu`regs
    ensures cpu.rsp == old(cpu.rsp) + 8
    ensures var a := ArgsAt(cpu.mem, old(cpu.rsp));
            cpu.regs == old(cpu.regs).(rdi := a.arg0, rsi := a.arg1, rdx := a.arg2, rcx := a.arg3,
                                       r8 := a.arg4, r9 := a.arg5, rax := a.error)
  {
    cpu.rsp := cpu.rsp + 1;
    var rdi := cpu.Pop();
    var rsi := cpu.Pop();
    var rdx := cpu.Pop();
    var rcx := cpu.Pop();
    var r8 := cpu.Pop();
    var r9 := cpu.Pop();
    var rax := cpu.Pop();
    cpu.regs := cpu.regs.(rdi := rdi, rsi := rsi, rdx := rdx, rcx := rcx, r8 := r8, r9 := r9, rax := rax);
  }

  /** Whatever the handler does to the registers, a write call gives the caller back its own, and the code in `rax`. */
  method SyscallBlock(cpu: Cpu, clobber: Regs, below: Memory) returns (returned: bool)
    requires forall x :: x in below ==> x < cpu.rsp - 8
    modifies cpu
    ensures returned <==> old(cpu.regs).rax == 1
    ensures returned ==> cpu.regs.rax == if old(cpu.regs).rdi == 1 then 0 else 5
    ensures returned ==> cpu.regs == AfterSyscall(old(cpu.regs), clobber, WriteCode(old(cpu.regs).rdi))
    ensures returned ==> cpu.rsp == old(cpu.rsp)
    ensures returned ==> forall x :: x >= cpu.rsp ==> Read(cpu.mem, x) == Read(old(cpu.mem), x)
  {
    ghost var r := cpu.regs;
    PushArgs(cpu);
    ArgsReadBack(old(cpu.mem), cpu.rsp, r);
    returned := HandleSyscall(cpu, clobber, below);
    if returned {
      PopArgs(cpu);
    }
  }
}
