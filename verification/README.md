# LeafOS, verified

A Dafny model of the parts of LeafOS, a small x86-64 kernel, that keep invariants over unbounded
runs, with machine-checked proofs about them. `dafny verify dfyconfig.toml` checks everything.

## What is modelled

**Scheduler and context switch** (`Scheduling`, `SchedulingLaws`, `Machine`, `Kernel`,
`Isolation`, `IsolationRuns`, `SharedStackClash`). The run queue, the void and idle states, and
the timer handler as pushes, pops and stores on a memory of words. The main theorem is a
refinement: the kernel, which keeps suspended contexts as frames in ordinary memory, is at every
point of every run in the state of a machine that keeps them in a private table. Called code may
leave anything below the stack pointer; tasks may write anything into their own stacks.

The handler means to update `RSP0` but stores into a copy of the task state segment
(`src/gdt.rs:95-99`), so all ring 3 preemptions push onto one stack. The refinement is therefore
false with two ring 3 tasks: `TwoUserTasksClash` is a legal run in which one task is resumed with
the other's context. `TickIsolation` gives the exact condition under which a tick is safe, and
`TrapIsolation` the one for any other interrupt or system call taken in ring 3, which pushes onto the
same stack. A run whose events are safe in that sense resumes every task where it was, however many
ring 3 tasks there are; with at most one of them every run is such a run.

**Block allocator** (`Blocks`, `BlocksSafety`, `BlocksRuns`). Ten free lists threaded through the
free blocks, over byte memory in which clients write whatever they like into blocks they hold. The
fallback heap is a contract: what it hands out is aligned, large enough and disjoint from what it
has handed out, and it writes only to memory it has not handed out.

**Screen and line editor** (`Screens`, `ScreenLog`, `Tapes`, `Shells`, `Keys`, `ShellRuns`,
`Prompts`, `Erasing`). The 25x80 array scrolled in place is a window on an unbounded log, and the log is the
text broken into rows. Typing and erasing are studied on a tape of rows that forgets what leaves the
top of the screen. The theorems are about the screen itself: after every run of keys and output, each
cell before the start of a line is where scrolling has taken it, unchanged, or blank if it ever left
the screen. How far each event scrolls is computed from the editor alone.

The shell counts characters but the screen holds bytes, so a character of several bytes is not
wholly erased by one backspace: `EraseReturnsIff` says exactly when the cursor comes back, and
`EraseLeavesSurplus` what remains on the screen.

**Boot memory** (`Frames`, `HeapMapping`). The frame allocator, and the heap mapping loop that shares
it with the page mapper.

**Smaller parts** (`Syscall`, `Pit`). The system call gate's register frame and the timer divisor.

Each class mirrors the source's mutable object. Its methods are proved equal to a function on a
value (`View()`), and the theorems are about that function.

## Decisions

- Stack memory is addressed in words of eight bytes; the allocator's memory in bytes. Words hold
  any integer: no arithmetic is done on them except on stack pointers that stay inside a stack.
- Interrupt delivery and `iretq` follow sections 6.14.2 and 6.14.3 of the Intel SDM, Volume 3A: the
  stack pointer is rounded down to 16 bytes, five words are pushed, and a change of ring switches to
  `RSP0`.
- `ProcessState::new` writes one word past its stack box, and `iretq` reads one more. Both words are
  counted as the task's own memory, next to the box, and a new task's memory is assumed to overlap
  nothing else in use. The second of them becomes the stack segment of a new task; the run of
  `TwoUserTasksClash` is one in which it holds the user data segment, as ring 3 needs.
- A ring 3 task starts with its stack pointer at the low end of its user stack (`FirstUserPush`), so a
  task that pushes before it moves its stack pointer writes below that box. Running tasks are assumed
  to write only their own memory, which leaves such a task out unless its two stacks adjoin.
- An interrupt other than the timer that is taken in ring 3 pushes its frame, its handler writes on the
  `RSP0` stack below it, and the task goes on where it was; what a system call changes in registers is
  part of the task's next stretch of execution. Taken in ring 0 it writes on the task's own stack, and
  is part of that task's execution.
- `start_process` counts ids in a `u64` that wraps; the id law says exactly when that matters.
- Starts, ticks and stretches of task execution are atomic steps.
- Names of raw keys and encodings of characters other than enter are assumed to be non-empty and
  to hold no newline byte.
- A request for zero bytes is not a valid layout, as the allocation interface demands.
- In runs of the allocator, an event that breaks a client's or the fallback's contract does not
  happen.

## Model

| member | source | states |
|---|---|---|
| Scheduling.RoundRobinScheduler.PickNext | src/scheduler.rs:54-56 | removes and returns the task at the right end, if any |
| Scheduling.RoundRobinScheduler.ReinsertTask | src/scheduler.rs:58-60 | puts the task at the far left end |
| Scheduling.RoundRobinScheduler.StartProcess | src/scheduler.rs:67-74 | gives the next id (wrapping) to a new task at the end popped next |
| Scheduling.TickTurns | src/scheduler.rs:215-234 | a tick turns the population (current task, then queue) by one place, or leaves it when nobody waits |
| Scheduling.DistinctBoxesAlways | src/scheduler.rs:215-234 | over every run no task is in two places |
| SchedulingLaws.SaveTargetIsLastDispatch | src/scheduler.rs:215-251 | in every run a tick saves into exactly the state the previous tick dispatched, the first one and only it into the void state |
| SchedulingLaws.TasksConserved | src/scheduler.rs:54-74 | in every reachable state the tasks are exactly those started, each once and with its own id |
| SchedulingLaws.IdsConserved | src/scheduler.rs:67-74 | the ids in use are exactly 1..task_id, each once, if and only if fewer than 2^64 tasks were started |
| SchedulingLaws.WaitingLaw | src/scheduler.rs:54-74 | a task with d tasks before it is first dispatched on exactly the first tick whose number is d + s + 1, where s starts came before that tick; both directions |
| SchedulingLaws.DispatchedIff | src/scheduler.rs:54-74 | that tick comes if and only if ticks at some point outrun d plus starts |
| SchedulingLaws.StartsStarve | src/scheduler.rs:67-74 | while starts keep ahead of ticks a waiting task is never dispatched |
| SchedulingLaws.RotationLaw | src/scheduler.rs:215-234 | with n >= 2 tasks and no starts, tick k dispatches ring element n-1-(k mod n), never idle |
| SchedulingLaws.RotationPeriod | src/scheduler.rs:215-234 | n ticks restore the whole scheduler state |
| SchedulingLaws.OncePerRound | src/scheduler.rs:215-234 | in every window of n ticks each task is dispatched at exactly one of them, which is computed |
| SchedulingLaws.RotationBegins | src/scheduler.rs:215-227 | the first tick without a current task starts the cycle from the queue turned by one |
| SchedulingLaws.OneTaskAlternates | src/scheduler.rs:215-234 | a single task alternates with idle, period 2 |
| SchedulingLaws.NoTaskIdles | src/scheduler.rs:215-222 | without tasks every tick idles |
| Machine.Cpu.InterruptEntry | src/interrupts.rs:247 | the five-word frame is pushed on the current stack, or on RSP0 when cs is not ring 0, rounded down to an even word |
| Machine.Cpu.PushRegisters | src/interrupts.rs:250-264 | the fifteen pushes leave exactly the register block the pops expect, and change nothing else |
| Machine.Cpu.PopRegisters | src/interrupts.rs:290-304 | the fifteen pops load each register from its own word |
| Machine.Cpu.SaveContext | src/interrupts.rs:247-264 | entry and pushes write one twenty-word frame holding the whole context |
| Machine.Cpu.LoadContext | src/interrupts.rs:290-305 | pops and iretq load exactly the context of the frame at rsp |
| Machine.ContextReadBack | src/interrupts.rs:250-305 | popping undoes pushing, over any memory and address |
| Machine.ContextSkips | src/interrupts.rs:290-305 | writes that miss a frame do not change what is popped from it |
| Kernel.KernelState.BuildState | src/scheduler.rs:86-173 | the nineteen words of a new process state by address: rbp, fourteen zeros, entry, selector 8 or 19, flags 0x202, stack; and kernel_rsp |
| Kernel.KernelState.StartProcess | src/scheduler.rs:67-74 | whole new kernel state of a start |
| Kernel.KernelState.ReplaceCurrTask | src/scheduler.rs:229-234 | the old task is reinserted, the new one becomes current |
| Kernel.KernelState.GetIdleTask | src/scheduler.rs:196-201 | the idle state is created by its first caller only |
| Kernel.KernelState.CurrentTaskPtr | src/scheduler.rs:237-251 | task, void state once, or idle state, created if it is missing; the flag it leaves |
| Kernel.KernelState.SelectNextTask | src/scheduler.rs:215-227 | pop first, reinsert after, idle when the queue was empty |
| Kernel.KernelState.Preempt | src/interrupts.rs:247-269 | the outgoing half stores the frame's address into the state last dispatched |
| Kernel.KernelState.Dispatch | src/interrupts.rs:271-305 | the incoming half resumes the frame the selected state points to |
| Kernel.KernelState.TimerTick | src/interrupts.rs:247-308 | whole new kernel, memory and processor state of a tick |
| Kernel.TickKeepsWired | src/scheduler.rs:215-251 | after every tick each state the queue can name exists |
| Isolation.FreshFrame | src/scheduler.rs:86-173 | for every stack, entry point and ring, the handler's pops and iretq start a new task at its entry, with flags 0x202, selector 8 or 19, zero registers, rbp = stack top, and its own stack |
| Isolation.BirthRefines | src/scheduler.rs:67-74 | a start disturbs no suspended context |
| Isolation.ExecRefines | src/interrupts.rs:247-308 | execution confined to a task's own memory disturbs no other suspended context |
| Isolation.TickIsolation | src/interrupts.rs:249-306 | a tick keeps every context and resumes the right one if and only if it comes from ring 0 or no different ring 3 context is suspended on the RSP0 stack |
| Isolation.HarmfulTickBreaks | src/gdt.rs:95-99 | otherwise a suspended context is lost, and a task dispatched then runs with the wrong one |
| Isolation.TrapIsolation | src/interrupts.rs:384-404 | a system call or interrupt taken in ring 3 keeps every context if and only if whatever is suspended on the RSP0 stack has an equal interrupt frame and the handler leaves its registers alone |
| Isolation.FirstUserPush | src/scheduler.rs:113-119 | the first push of a new ring 3 task is outside its memory unless its stacks adjoin |
| IsolationRuns.HarmlessRunIsolates | src/interrupts.rs:249-306 | in every legal run of starts, ticks, execution and other interrupts, with any number of ring 3 tasks, kernel and reference machine agree after every event as long as the events are harmless in that sense |
| IsolationRuns.FirstHarmBreaks | src/interrupts.rs:249-306 | and a context is lost at exactly the first event that is not; both directions |
| IsolationRuns.ContextIsolation | src/interrupts.rs:249-306 | a legal run that starts at most one ring 3 task is harmless, so they agree after every event of it |
| IsolationRuns.ResumedContext | src/interrupts.rs:249-306 | in a harmless run, with any number of ring 3 tasks, a task preempted at one tick and next dispatched at a later one resumes with exactly its registers, rip, flags, rsp and segments |
| IsolationRuns.OneUserResumes | src/interrupts.rs:249-306 | the same in every legal run that starts at most one ring 3 task |
| IsolationRuns.QueueOfRun | src/scheduler.rs:215-234 | the kernel's queue moves by starts and ticks only |
| IsolationRuns.QueueIsScheduled | src/scheduler.rs:215-234 | the queue of a running kernel is the queue of the scheduling laws |
| IsolationRuns.BootRefines | src/scheduler.rs:206-208 | the boot state satisfies the theorem's starting condition |
| SharedStackClash.TwoUserTasksClash | src/gdt.rs:95-99 | a legal run from boot with two ring 3 tasks on stacks of 4096 bytes in which the one preempted in b is resumed in a, for all different user contexts a and b |
| SharedStackClash.SystemCallClash | src/gdt.rs:95-99 | a legal run in which a system call of one ring 3 task loses the suspended context of the other |
| Syscall.PushArgs | src/interrupts.rs:384-392 | the pushes leave the eight words of the argument block |
| Syscall.ArgsReadBack | src/syscall.rs:17-27 | those words are SyscallArgs, field by field, with error 0 |
| Syscall.HandleSyscall | src/syscall.rs:7-46 | only id 1 returns; it stores 0 for descriptor 1 and 5 otherwise into the caller's block and leaves the rest |
| Syscall.PopArgs | src/interrupts.rs:396-403 | the pops load each argument register from its field and rax from error |
| Syscall.SyscallBlock | src/interrupts.rs:384-404 | whatever registers the handler clobbers, call 1 restores rdi, rsi, rdx, rcx, r8, r9 and rsp and puts 0 into rax if rdi was 1, else 5 |
| Pit.SetFrequency | src/drivers/pit.rs:106-115 | 0x34 to port 0x43, then the low and the high byte of the divisor to port 0x40 |
| Pit.DivisorIsNearest | src/drivers/pit.rs:106-111 | no divisor is closer, and twice the error is at most the frequency |
| Pit.DivisorIsRounded | src/drivers/pit.rs:106-111 | the divisor is the one with -f <= 2 (d f - 1193182) < f: halves are rounded down |
| Pit.DivisorFits | src/drivers/pit.rs:106-115 | the divisor is in 1..65535 if and only if the frequency is in 19..2386363 |
| Pit.ProgrammedAsRounded | src/drivers/pit.rs:82-95 | the bytes carry the whole divisor if and only if the frequency is at least 19 |
| Blocks.Position | src/allocators/fixed_size_block.rs:54-57 | the first sufficient class, or none is sufficient |
| BlocksRuns.ListIndexLaw | src/allocators/fixed_size_block.rs:54-57 | the class is the smallest power of two from 8 to 4096 that fits size and alignment, and there is none exactly above 4096 |
| Blocks.ClassOfClassLayout | src/allocators/fixed_size_block.rs:70-75 | the layout a block is carved with belongs to its own class |
| Blocks.NextReadBack | src/allocators/fixed_size_block.rs:88-96 | a node written as eight bytes is read back |
| Blocks.FixedSizeBlockAllocator.FallbackAllocate | src/allocators/fixed_size_block.rs:43-48 | the fallback's answer, with its layout recorded, and null on failure |
| Blocks.FixedSizeBlockAllocator.Alloc | src/allocators/fixed_size_block.rs:60-82 | the list's head if there is one, else the fallback's answer to the class layout, or to the request itself if it has no class; whole new state |
| Blocks.FixedSizeBlockAllocator.Dealloc | src/allocators/fixed_size_block.rs:84-103 | whole new allocator and memory state of a deallocation |
| BlocksSafety.StepKeepsInv | src/allocators/fixed_size_block.rs:60-103 | every allocation, deallocation and client write keeps ownership and the in-memory lists in order |
| BlocksRuns.RunKeepsInv | src/allocators/fixed_size_block.rs:60-103 | so they are in order at every point of every run |
| BlocksRuns.AlignedToSmaller | src/allocators/fixed_size_block.rs:10-14 | because block sizes are powers of two, block alignment implies every smaller requested alignment |
| BlocksRuns.LiveBlocksSafe | src/allocators/fixed_size_block.rs:60-103 | after every run live blocks are aligned, large enough and pairwise disjoint |
| BlocksRuns.FreeListsSafe | src/allocators/fixed_size_block.rs:60-103 | after every run walking a list in memory ends, visits each block once, and finds only free blocks of its class; no block is in two lists |
| BlocksRuns.FreeApartFromLive | src/allocators/fixed_size_block.rs:60-103 | after every run no live block overlaps a block waiting in a list |
| BlocksRuns.ClientDataKept | src/allocators/fixed_size_block.rs:60-103 | no allocator call changes a byte of a live block |
| BlocksRuns.ClientDataKeptInRuns | src/allocators/fixed_size_block.rs:60-103 | over every run a byte of a block that is neither freed nor written meanwhile reads the same |
| BlocksRuns.TakenBlockUnlinked | src/allocators/fixed_size_block.rs:64-68 | a block taken from a list is its first one and its link is cleared |
| BlocksRuns.AllocationAnswers | src/allocators/fixed_size_block.rs:60-82 | an allocation answers null if and only if no block of its class is free and the fallback fails; otherwise the block becomes live with the requested layout |
| BlocksRuns.FreedIsNext | src/allocators/fixed_size_block.rs:60-97 | a freed block is the next one handed out for its class, and the list is then as before |
| BlocksRuns.ClassStability | src/allocators/fixed_size_block.rs:84-97 | a block carved for a class is never returned to the fallback or carved anew |
| BlocksRuns.ClassReuse | src/allocators/fixed_size_block.rs:62-68 | it is handed out only for requests of its class |
| BlocksRuns.ReturnedAsGranted | src/allocators/fixed_size_block.rs:98-101 | the fallback gets a block back with the layout it was asked for |
| BlocksRuns.Balance | src/allocators/fixed_size_block.rs:62-97 | blocks carved for a class = live blocks + length of its list |
| BlocksRuns.PeakLaw | src/allocators/fixed_size_block.rs:62-97 | over every run, blocks carved for a class = the most that were live at once |
| Screens.Writer.ClearRow | src/vga_buffer.rs:230-238 | exactly that row becomes blank |
| Screens.Writer.NewLine | src/vga_buffer.rs:208-217 | the in-place copy is a shift up by one row with a blank last row |
| Screens.Writer.OldLine | src/vga_buffer.rs:219-228 | the in-place copy is a shift down by one row with a blank first row |
| Screens.Writer.SetByteColored | src/vga_buffer.rs:185-206 | newline, or wrap and write under the cursor |
| Screens.Writer.WriteByteColored | src/vga_buffer.rs:175-179 | the same, moving on by one |
| Screens.Writer.WriteString | src/vga_buffer.rs:146-155 | the bytes written one after the other, unprintable ones as 0xfe |
| Screens.Writer.WriteColoredString | src/vga_buffer.rs:157-169 | every character a cell, newlines too |
| Screens.Writer.IsCurrentRowClear | src/vga_buffer.rs:240-248 | true if and only if the last row is blank in the current color |
| ScreenLog.ScreenIsWindow | src/vga_buffer.rs:146-217 | for every text and start, the screen is the last 25 rows of the unbounded log |
| ScreenLog.ColumnKept | src/vga_buffer.rs:191-194 | the column stays at most 80 |
| ScreenLog.LogIsLayout | src/vga_buffer.rs:146-217 | the log is the text broken into rows at newlines and after 80 cells |
| ScreenLog.TextOnScreen | src/vga_buffer.rs:146-217 | from any screen, every byte of every text is on the screen where counting newlines and 80 columns puts it, as itself from 0x20 to 0x7e and as 0xfe otherwise, unless its row has left |
| ScreenLog.ByteShows | src/vga_buffer.rs:146-206 | a byte shows at the cursor, after a wrap if the row was full |
| ScreenLog.NewRowIsBlank | src/vga_buffer.rs:208-238 | rows scrolled in are 0x20 in the own color, and the column is 0 |
| ScreenLog.ScreenShowsLayout | src/vga_buffer.rs:146-217 | from a blank row the screen shows the last 25 rows of old rows plus laid-out text, cursor after it |
| ScreenLog.LineScrolls | src/vga_buffer.rs:185-217 | a line of L characters and its newline add max(1, ceil(L/80)) rows |
| Tapes.ViewTyped | src/vga_buffer.rs:175-206 | a write on the screen is a write at the end of the tape |
| Tapes.ViewRubbed | src/shell.rs:118-125 | a backspace on the screen is one on the tape, back over a row edge |
| Tapes.RubOutMany | src/shell.rs:113-138 | typing cells and erasing the last e of them leaves what typing the others leaves, but for rows that left the screen |
| Tapes.TypedPosition | src/vga_buffer.rs:191-205 | where n cells from column c end and how often the screen scrolled |
| Tapes.TypeThenEraseSome | src/vga_buffer.rs:171-238 | the same on the screen: the exact rows and column left by typing n cells and erasing e of them |
| Tapes.TypeThenErase | src/vga_buffer.rs:171-238 | n cells typed and erased restore the column and all rows but the (c+n-1)/80 that scrolled away, which are blank |
| Tapes.TypeThenEraseFromFullRow | src/vga_buffer.rs:192-194 | from column 80 the wrap is not undone: the screen left is one row further, with the scrolled rows blank and the cursor in column 0 |
| Shells.Shell.Init | src/shell.rs:36-43 | the prompt, on a new row unless the current one is blank |
| Shells.Shell.Newline | src/shell.rs:68-72 | new row, prompt if enabled, nothing erasable |
| Shells.Shell.Write | src/shell.rs:74-87 | the text printed byte by byte |
| Shells.Shell.WriteColored | src/shell.rs:45-60 | the cells printed one by one, every newline with a prompt |
| Shells.Shell.KeyEvent | src/shell.rs:89-143 | whole new editor state of a key |
| Shells.Shell.EraseBack | src/shell.rs:117-125 | step back, over the row edge if need be, and blank the cell |
| Keys.BackspaceKey | src/shell.rs:113-127 | character 8 moves back one cell, over the left edge too, and blanks it and no other; nothing without something to erase |
| Keys.RawBackspaceKey | src/shell.rs:92-103 | the raw key does the same, but at the left edge only counts |
| Keys.EnterKey | src/shell.rs:130-134 | character 10 scrolls by a row, shows the prompt if enabled, and makes nothing erasable |
| Keys.CharacterKey | src/shell.rs:104-138 | any other key or character is written and counts as one |
| Keys.OutputIsText | src/shell.rs:74-87 | output without newlines is written as by write_string and does not count |
| Keys.OutputNewline | src/shell.rs:78-80 | a newline in output does what enter does |
| Keys.ColoredOutput | src/shell.rs:45-60 | colored cells as they are, unprintable ones as 0xfe in the own color, newlines with the prompt even if disabled |
| Keys.FirstPrompt | src/shell.rs:36-43 | the first prompt goes onto the current row exactly if that is blank, and onto a new one otherwise |
| ShellRuns.PressKeeps | src/shell.rs:89-143 | every key keeps the cursor at least count cells past the prompt and changes nothing before the prompt's end |
| ShellRuns.BegunKeeps | src/shell.rs:68-72 | a new line starts a new protected prompt and keeps everything before it |
| ShellRuns.PromptProtection | src/shell.rs:45-143 | the same over every run of keys and output, on the tape that the run computes |
| Prompts.GoneIsPeak | src/vga_buffer.rs:208-228 | the rows that have left the screen are exactly those it was ever scrolled by, counted from the events |
| Prompts.LineProtected | src/shell.rs:45-143 | from any line with nothing to erase, over every run: the cursor stays count cells after the line's start, and every screen cell before it is where scrolling took it, unchanged, or blank if it ever left the screen |
| Prompts.BegunPrompts | src/shell.rs:62-72 | a line begun with its prompt is such a line, with the prompt just before the cursor |
| Prompts.InitPrompts | src/shell.rs:36-43 | so is a shell just initialized, over any screen |
| Prompts.LineInsidePrint | src/shell.rs:74-87 | a newline in the middle of an output begins such a line too, and the run goes on from it |
| Prompts.LineInsideColored | src/shell.rs:45-60 | the same for colored output, whose new line always has its prompt |
| Prompts.InitializedShellProtectsPrompt | src/shell.rs:36-143 | all of this for every run of an initialized shell |
| Prompts.BackspaceStaysAfterPrompt | src/shell.rs:116-127 | at any point of any run a backspace moves back by one cell, to after the line's start, and old_line loses only a row that is wholly after it |
| Prompts.PromptOnScreen | src/shell.rs:62-66 | over every run the prompt's cells that never left the screen show the prompt, as many rows up as was scrolled |
| Erasing.AlwaysWritable | src/shell.rs:36-143 | in every run of an initialized shell nothing is to the right of the cursor |
| Erasing.TypeEraseRoundTrip | src/shell.rs:113-138 | there, n single-byte characters and n backspaces restore count, column and every row that did not scroll away |
| Erasing.EraseLeavesSurplus | src/shell.rs:113-138 | n characters of any length and n backspaces: the count is restored, and the surplus bytes remain on the screen, given exactly |
| Erasing.EraseLeavesColumn | src/shell.rs:136-137 | the column is then (c + surplus) mod 80 |
| Erasing.EraseReturnsIff | src/shell.rs:136-137 | the cursor returns if and only if every character typed was a single byte |
| Erasing.ColumnReturnsIff | src/shell.rs:136-137 | its column returns if and only if the surplus bytes fill whole rows |
| Erasing.TwoByteCharacterStays | src/shell.rs:136-137 | U+00E9 and a backspace leave one 0xfe cell and the cursor after it |
| Erasing.EightyAccentsReturnColumn | src/shell.rs:136-137 | eighty of them and eighty backspaces return the column one row further on |
| Frames.BootInfoFrameAllocator.AllocateFrame | src/memory.rs:89-93 | the next frame of the enumeration, none after the last |
| Frames.FramesExact | src/memory.rs:73-85 | the enumeration holds exactly the whole frames of usable regions |
| Frames.FramesDistinct | src/memory.rs:73-85 | it holds no frame twice |
| Frames.CallGives | src/memory.rs:73-93 | which frame each call returns: region after region, upwards from its start in steps of 4096, and none exactly after the last |
| Frames.CallsHandOutFrames | src/memory.rs:89-93 | later frames of the enumeration differ from earlier ones, are usable, and none follows its end |
| Frames.AllocateFrames | src/memory.rs:89-93 | n calls return the next n frames in order and then failures; the successful ones are different usable frames |
| HeapMapping.Mapper.MapTo | src/allocators/mod.rs:56-58 | contract of the mapper: table frames come from the same allocator, then the page is mapped or refused |
| HeapMapping.InitHeap | src/allocators/mod.rs:39-66 | the loop over the heap's pages, stopping at the first failure |
| HeapMapping.HeapCovered | src/allocators/mod.rs:43-49 | every heap byte is on a page of the range |
| HeapMapping.HeapMappedSafely | src/allocators/mod.rs:51-59 | on success exactly the heap's pages are mapped, to different usable frames, none of them a page table |
| HeapMapping.HeapMappedIff | src/allocators/mod.rs:51-59 | it succeeds if and only if no page is refused and the frames suffice for pages and tables |
| HeapMapping.HeapMappingFails | src/allocators/mod.rs:51-59 | which error is reported: frames ran out, or a page was refused, whichever comes first |
| HeapMapping.FrameOfPage | src/allocators/mod.rs:51-59 | each page gets the frame that follows those of the pages and tables before it |
| HeapMapping.KernelHeapPages | src/allocators/mod.rs:35-49 | the kernel's heap is the 250 pages from 0x4444_4444_0000 on, in order |

## Left out

- Port I/O, LAPIC and PIC programming, GDT and IDT loading, serial output, exception handlers: hardware effects without logic.
- `kernel_top_rsp` and the store through `tss_ptr`: the store goes below the stack pointer into a dead copy and is covered by the scratch writes of a tick.
- Segment registers other than CS and SS in the timer handler: they are loaded with a constant.
- A timer tick inside a handler that was entered from ring 3: handlers other than the timer's run to their end.
- Preemption inside the scheduler's locks: starts and ticks are atomic, so nothing is claimed about deadlock.
- The internals of the fallback heap, the page table mapper and the keyboard decoder: not part of this model; they appear as contracts.
- The heap allocator the kernel currently installs is the fallback alone (`src/allocators/mod.rs:32-33`); the block allocator is modelled as its own file has it.
- `write_char_indexed`: its width mask is not shifted, so it does not do what its comment says.
- The compiler's prologue and epilogue of `syscall_handler`: only the assembly block is modelled, so r10 and r11 are lost in it.
- The message a write call prints, and its pointer: only the return code is modelled.
- APIC calibration, linked lists, the ring buffer stub, driver wrappers and the other architectures: no strong property to state.
- Overflow of `written_char_count` and of `next` in the frame allocator: modelled without bound.
