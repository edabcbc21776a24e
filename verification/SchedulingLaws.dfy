/** Whole-run theorems about the round-robin queue. */
module SchedulingLaws {
  import opened Prelude
  import opened Scheduling

  // ----- Save target -----

  /** What the most recent of the first `k` events that is a tick dispatched; before any, the void state. */
  function LastDispatch(s: Sched, es: seq<Event>, k: nat): Slot
    requires k <= |es|
  {
    if k == 0 then VoidSlot
    else if es[k - 1].Tick? then DispatchSlot(At(s, es, k - 1))
    else LastDispatch(s, es, k - 1)
  }

  /** A tick saves into exactly the state the tick before it dispatched; only the first one into the void. */
  lemma {:induction false} SaveTargetIsLastDispatch(es: seq<Event>, k: nat)
    requires k <= |es|
    ensures SaveSlot(At(BOOT, es, k)) == LastDispatch(BOOT, es, k)
    ensures LastDispatch(BOOT, es, k).VoidSlot? <==> Ticks(es, k) == 0
    ensures At(BOOT, es, k).init <==> Ticks(es, k) != 0
  {
    if k != 0 {
      SaveTargetIsLastDispatch(es, k - 1);
    }
  }

  // ----- Conservation -----

  /** The id the `n`th start hands out. */
  function IdOf(n: nat): (id: nat)
    ensures id < U64
    ensures n < U64 ==> id == n
  {
    if n == 0 then 0 else NextId(IdOf(n - 1))
  }

  lemma {:induction false} Counters(es: seq<Event>, k: nat)
    requires k <= |es|
    ensures At(BOOT, es, k).boxes == Starts(es, k)
    ensures At(BOOT, es, k).taskId == IdOf(Starts(es, k))
  {
    if k != 0 {
      Counters(es, k - 1);
    }
  }

  /** The task whose box is the `b`th one created. */
  function Newborn(b: nat): Task {
    Task(IdOf(b + 1), b)
  }

  /** `all` holds each task that `n` starts create, once, and nothing else. */
  ghost predicate Complete(all: seq<Task>, n: nat) {
    && Distinct(all, n)
    && (forall i :: 0 <= i < |all| ==> all[i] == Newborn(all[i].box))
    && (forall b :: 0 <= b < n ==> Newborn(b) in all)
  }

  lemma CompleteExtended(all: seq<Task>, n: nat)
    requires Complete(all, n)
    ensures Complete(all + [Newborn(n)], n + 1)
  {
  }

  lemma CompleteTurned(all: seq<Task>, n: nat)
    requires Complete(all, n) && all != []
    ensures Complete([all[|all| - 1]] + all[..|all| - 1], n)
  {
  }

  lemma CompleteKept(s: Sched, e: Event, n: nat)
    requires Complete(Population(s), n) && s.boxes == n && s.taskId == IdOf(n)
    ensures Complete(Population(Step(s, e)), if e.Start? then n + 1 else n)
  {
    if e.Start? {
      StartExtends(s);
      CompleteExtended(Population(s), n);
    } else {
      TickTurns(s);
      if s.tasks != [] {
        CompleteTurned(Population(s), n);
      }
    }
  }

  /** No run loses, duplicates or renames a task. */
  lemma {:induction false} TasksConserved(es: seq<Event>, k: nat)
    requires k <= |es|
    ensures Complete(Population(At(BOOT, es, k)), Starts(es, k))
  {
    if k != 0 {
      TasksConserved(es, k - 1);
      Counters(es, k - 1);
      CompleteKept(At(BOOT, es, k - 1), es[k - 1], Starts(es, k - 1));
    }
  }

  predicate HasId(all: seq<Task>, p: nat) {
    exists i :: 0 <= i < |all| && all[i].pid == p
  }

  /** The ids in `all` are exactly `1..n`, each once. */
  ghost predicate EachIdOnce(all: seq<Task>, n: nat) {
    && (forall i, j :: 0 <= i < j < |all| ==> all[i].pid != all[j].pid)
    && (forall p: nat :: HasId(all, p) <==> 1 <= p <= n)
  }

  lemma {:induction false} CompleteIds(all: seq<Task>, n: nat)
    requires Complete(all, n)
    ensures EachIdOnce(all, IdOf(n)) <==> n < U64
  {
    if n < U64 {
      forall p | 1 <= p <= n
        ensures HasId(all, p)
      {
        assert Newborn(p - 1) in all;
      }
    } else {
      assert Newborn(U64 - 1) in all;
      assert Newborn(U64 - 1).pid == 0;
      assert HasId(all, 0);
    }
  }

  /** The ids in use are exactly `1..task_id`, each once, until 2^64 tasks have been started. */
  lemma IdsConserved(es: seq<Event>, k: nat)
    requires k <= |es|
    ensures EachIdOnce(Population(At(BOOT, es, k)), At(BOOT, es, k).taskId) <==> Starts(es, k) < U64
  {
    Counters(es, k);
    TasksConserved(es, k);
    CompleteIds(Population(At(BOOT, es, k)), Starts(es, k));
  }

  // ----- Waiting -----

  /** The tick at position `k` is number `d + s + 1`, where `s` starts came before it. */
  predicate OnTime(d: nat, es: seq<Event>, k: nat)
    requires k < |es|
  {
    es[k].Tick? && Ticks(es, k) + 1 == d + Starts(es, k) + 1
  }

  predicate Dispatches(s: Sched, es: seq<Event>, k: nat, task: Task)
    requires k < |es|
  {
    es[k].Tick? && DispatchSlot(At(s, es, k)) == TaskSlot(task.box)
  }

  /** `task` is in the queue with `above` tasks between it and the pop end. */
  predicate Waits(t: Sched, above: int, task: Task) {
    0 <= above < |t.tasks| && t.tasks[|t.tasks| - 1 - above] == task
  }

  lemma TickBringsNearer(t: Sched, above: nat, task: Task)
    requires Waits(t, above, task) && above != 0
    ensures Waits(Ticked(t), above - 1, task)
  {
  }

  lemma DispatchedAtEnd(t: Sched, above: nat, task: Task)
    requires DistinctBoxes(t) && Waits(t, above, task)
    ensures DispatchSlot(t) == TaskSlot(task.box) <==> above == 0
  {
    var all := Population(t);
    assert all[|all| - 1] == t.tasks[|t.tasks| - 1];
    assert all[|all| - 1 - above] == task;
  }

  function Above(d: nat, es: seq<Event>, k: nat): int
    requires k <= |es|
  {
    d + Starts(es, k) - Ticks(es, k)
  }

  lemma WaitsOn(t: Sched, above: nat, task: Task, e: Event)
    requires DistinctBoxes(t) && Waits(t, above, task) && (e.Tick? ==> above != 0)
    ensures Waits(Step(t, e), if e.Start? then above + 1 else above - 1, task)
    ensures e.Tick? ==> DispatchSlot(t) != TaskSlot(task.box)
  {
    if e.Tick? {
      DispatchedAtEnd(t, above, task);
      TickBringsNearer(t, above, task);
    }
  }

  /** While no tick has been on time, the task moves one place per tick and is pushed back one per start. */
  lemma {:induction false} StillWaiting(s: Sched, d: nat, task: Task, es: seq<Event>, k: nat)
    requires DistinctBoxes(s) && Waits(s, d, task) && k <= |es|
    requires forall j :: 0 <= j < k ==> !OnTime(d, es, j)
    ensures Waits(At(s, es, k), Above(d, es, k), task)
  {
    if k != 0 {
      StillWaiting(s, d, task, es, k - 1);
      DistinctBoxesAlways(s, es, k - 1);
      assert !OnTime(d, es, k - 1);
      WaitsOn(At(s, es, k - 1), Above(d, es, k - 1), task, es[k - 1]);
    }
  }

  lemma NotYetDispatched(s: Sched, d: nat, task: Task, es: seq<Event>, k: nat)
    requires DistinctBoxes(s) && Waits(s, d, task) && k <= |es|
    requires forall j :: 0 <= j < k ==> !OnTime(d, es, j)
    ensures forall j :: 0 <= j < k ==> !Dispatches(s, es, j, task)
  {
    forall j | 0 <= j < k
      ensures !Dispatches(s, es, j, task)
    {
      OnTimeIsDispatch(s, d, task, es, j);
    }
  }

  /** As long as no earlier tick was on time, being on time and being dispatched are the same. */
  lemma OnTimeIsDispatch(s: Sched, d: nat, task: Task, es: seq<Event>, k: nat)
    requires DistinctBoxes(s) && Waits(s, d, task) && k < |es|
    requires forall j :: 0 <= j < k ==> !OnTime(d, es, j)
    ensures OnTime(d, es, k) <==> Dispatches(s, es, k, task)
  {
    StillWaiting(s, d, task, es, k);
    DistinctBoxesAlways(s, es, k);
    DispatchedAtEnd(At(s, es, k), Above(d, es, k), task);
  }

  /** The first on-time position up to `k`, when there is one. */
  function FirstOnTime(d: nat, es: seq<Event>, k: nat): (r: nat)
    requires k <= |es|
    ensures r <= k
    ensures forall j :: 0 <= j < r ==> !OnTime(d, es, j)
    ensures r < k ==> OnTime(d, es, r)
  {
    if k == 0 then 0
    else
      var r := FirstOnTime(d, es, k - 1);
      if r < k - 1 || OnTime(d, es, k - 1) then r else k
  }

  /**
    A task with `d` tasks between it and the pop end is dispatched for the first time on exactly
    the first tick whose number is `d + s + 1`, where `s` starts came before it.
  */
  lemma WaitingLaw(s: Sched, d: nat, task: Task, es: seq<Event>, k: nat)
    requires DistinctBoxes(s) && Waits(s, d, task) && k < |es|
    ensures Dispatches(s, es, k, task) && (forall j :: 0 <= j < k ==> !Dispatches(s, es, j, task))
       <==> OnTime(d, es, k) && forall j :: 0 <= j < k ==> !OnTime(d, es, j)
  {
    var first := FirstOnTime(d, es, k);
    NotYetDispatched(s, d, task, es, first);
    OnTimeIsDispatch(s, d, task, es, first);
  }

  /** How the first tick that is on time shows: ticks have got ahead of starts. */
  lemma OutrunByFirst(d: nat, es: seq<Event>, k: nat)
    requires k < |es| && OnTime(d, es, k)
    ensures Outruns(d, es, k + 1)
  {
  }

  /** More of the first `k` events are ticks than are starts, by more than `d`. */
  predicate Outruns(d: nat, es: seq<Event>, k: nat)
    requires k <= |es|
  {
    Ticks(es, k) > d + Starts(es, k)
  }

  lemma OutrunIsDispatched(s: Sched, d: nat, task: Task, es: seq<Event>, k: nat)
    requires DistinctBoxes(s) && Waits(s, d, task) && k <= |es| && Outruns(d, es, k)
    ensures FirstOnTime(d, es, k) < k && Dispatches(s, es, FirstOnTime(d, es, k), task)
  {
    var first := FirstOnTime(d, es, k);
    if first == k {
      StillWaiting(s, d, task, es, k);
      assert false;
    }
    OnTimeIsDispatch(s, d, task, es, first);
  }

  /**
    The tick comes exactly when ticks outrun starts: among the first `k` events one dispatches the
    task if and only if at some point up to there the ticks were more than `d` ahead of the starts.
  */
  lemma DispatchedIff(s: Sched, d: nat, task: Task, es: seq<Event>, k: nat)
    requires DistinctBoxes(s) && Waits(s, d, task) && k <= |es|
    ensures (exists j :: 0 <= j < k && Dispatches(s, es, j, task)) <==> (exists j :: 0 <= j <= k && Outruns(d, es, j))
  {
    var first := FirstOnTime(d, es, k);
    NotYetDispatched(s, d, task, es, first);
    if first < k {
      OnTimeIsDispatch(s, d, task, es, first);
      OutrunByFirst(d, es, first);
    }
    forall j | 0 <= j <= k && Outruns(d, es, j)
      ensures first < k
    {
      OutrunIsDispatched(s, d, task, es, j);
      assert OnTime(d, es, FirstOnTime(d, es, j));
    }
  }

  /** New tasks overtake waiting ones: as long as starts keep up with ticks, a waiting task is never run. */
  lemma StartsStarve(s: Sched, d: nat, task: Task, es: seq<Event>)
    requires DistinctBoxes(s) && Waits(s, d, task)
    requires forall k :: 0 <= k < |es| && es[k].Tick? ==> Ticks(es, k) < Starts(es, k)
    ensures forall k :: 0 <= k < |es| ==> !Dispatches(s, es, k, task)
  {
    NotYetDispatched(s, d, task, es, |es|);
  }

  // ----- Rotation -----

  function TickN(s: Sched, n: nat): Sched {
    if n == 0 then s else Ticked(TickN(s, n - 1))
  }

  /** `xs` turned right by `k` places. */
  function Turned<T>(xs: seq<T>, k: nat): seq<T>
    requires k <= |xs|
  {
    xs[|xs| - k..] + xs[..|xs| - k]
  }

  lemma TurnedAgain<T>(xs: seq<T>, k: nat)
    requires k < |xs|
    ensures Turned(Turned(xs, k), 1) == if k + 1 < |xs| then Turned(xs, k + 1) else xs
  {
  }

  ghost predicate RingIs(t: Sched, ring: seq<Task>) {
    t.current.Some? && t.tasks != [] && Population(t) == ring
  }

  lemma RingTurnsOnce(t: Sched, ring: seq<Task>)
    requires RingIs(t, ring)
    ensures RingIs(Ticked(t), Turned(ring, 1))
    ensures Ticked(t) == t.(tasks := Ticked(t).tasks, current := Ticked(t).current)
  {
    assert ring[|ring| - 1..] == [ring[|ring| - 1]];
  }

  /** How far the ring has turned after `k` ticks. */
  function Offset(k: nat, n: nat): (r: nat)
    requires n > 0
    ensures r < n
  {
    if k == 0 then 0
    else if Offset(k - 1, n) + 1 < n then Offset(k - 1, n) + 1
    else 0
  }

  lemma {:induction false} OffsetIsResidue(k: nat, n: nat)
    requires n > 0
    ensures Offset(k, n) == k % n
  {
    if k != 0 {
      OffsetIsResidue(k - 1, n);
      NextResidue(k - 1, n);
    }
  }

  /** With a running task and at least one waiting, every tick turns the ring of tasks by one place. */
  lemma {:induction false} RingTurns(s: Sched, ring: seq<Task>, k: nat)
    requires RingIs(s, ring)
    ensures RingIs(TickN(s, k), Turned(ring, Offset(k, |ring|)))
    ensures TickN(s, k) == s.(tasks := TickN(s, k).tasks, current := TickN(s, k).current)
  {
    assert Turned(ring, 0) == ring;
    if k != 0 {
      RingTurns(s, ring, k - 1);
      var r := Offset(k - 1, |ring|);
      RingTurnsOnce(TickN(s, k - 1), Turned(ring, r));
      TurnedAgain(ring, r);
    }
  }

  lemma Residue(x: nat, q: int, r: nat, n: nat)
    requires r < n && x == q * n + r
    ensures x % n == r && x / n == q
  {
    var d := x / n - q;
    MulGrows(d, n);
  }

  lemma NextResidue(k: nat, n: nat)
    requires n > 0
    ensures (k + 1) % n == if k % n + 1 < n then k % n + 1 else 0
  {
    var q, r := k / n, k % n;
    if r + 1 < n {
      Residue(k + 1, q, r + 1, n);
    } else {
      Residue(k + 1, q + 1, 0, n);
    }
  }

  lemma LastOfTurned<T>(ring: seq<T>, r: nat)
    requires r < |ring|
    ensures Turned(ring, r)[|ring| - 1] == ring[|ring| - 1 - r]
  {
  }

  /** With `n >= 2` tasks the schedule is a cycle that never idles ... */
  lemma RotationLaw(s: Sched, ring: seq<Task>, k: nat)
    requires RingIs(s, ring)
    ensures DispatchSlot(TickN(s, k)) == TaskSlot(ring[|ring| - 1 - k % |ring|].box)
  {
    var t := TickN(s, k);
    RingTurns(s, ring, k);
    OffsetIsResidue(k, |ring|);
    LastOfTurned(ring, Offset(k, |ring|));
    assert t.tasks[|t.tasks| - 1] == Population(t)[|ring| - 1];
  }

  /** ... of period `n` ... */
  lemma RotationPeriod(s: Sched, ring: seq<Task>)
    requires RingIs(s, ring)
    ensures TickN(s, |ring|) == s
  {
    var t := TickN(s, |ring|);
    RingTurns(s, ring, |ring|);
    OffsetIsResidue(|ring|, |ring|);
    SameRing(s, t, ring);
  }

  lemma SameRing(s: Sched, t: Sched, ring: seq<Task>)
    requires RingIs(s, ring) && RingIs(t, ring)
    ensures s.current == t.current && s.tasks == t.tasks
  {
    assert s.tasks == ring[1..] && t.tasks == ring[1..];
    assert s.current.value == ring[0] && t.current.value == ring[0];
  }

  /** The tick in the window of `n` ticks from `start` on at which the task `r` places from the end comes up. */
  function Turn(start: nat, r: nat, n: nat): (k: nat)
    requires r < n
    ensures start <= k < start + n && k % n == r
  {
    var q := start / n;
    assert q * n >= 0;
    assert (q + 1) * n == q * n + n;
    var k := if start % n <= r then q * n + r else (q + 1) * n + r;
    Residue(k, if start % n <= r then q else q + 1, r, n);
    k
  }

  lemma SameResidue(j: nat, k: nat, n: nat)
    requires n > 0 && j % n == k % n && -(n as int) < j - k < n
    ensures j == k
  {
    var d := j / n - k / n;
    MulGrows(d, n);
  }

  /** ... in which every window of `n` ticks dispatches each task exactly once. */
  lemma OncePerRound(s: Sched, ring: seq<Task>, i: nat, start: nat, j: nat)
    requires RingIs(s, ring) && DistinctBoxes(s) && i < |ring|
    requires start <= j < start + |ring|
    ensures DispatchSlot(TickN(s, j)) == TaskSlot(ring[i].box) <==> j == Turn(start, |ring| - 1 - i, |ring|)
  {
    var n := |ring|;
    var k := Turn(start, n - 1 - i, n);
    RotationLaw(s, ring, j);
    if j % n == n - 1 - i {
      SameResidue(j, k, n);
    }
  }

  /** The first tick that finds no current task starts the cycle. */
  lemma RotationBegins(s: Sched)
    requires s.current.None? && |s.tasks| >= 2
    ensures DispatchSlot(s) == TaskSlot(s.tasks[|s.tasks| - 1].box)
    ensures RingIs(Ticked(s), Turned(s.tasks, 1))
  {
  }

  /** One task alternates with the idle task. */
  lemma {:induction false} OneTaskAlternates(s: Sched, task: Task, k: nat)
    requires s.current.None? && s.tasks == [task]
    ensures DispatchSlot(TickN(s, k)) == if k % 2 == 0 then TaskSlot(task.box) else IdleSlot
    ensures TickN(s, k).tasks == (if k % 2 == 0 then [task] else [])
    ensures TickN(s, k).current == (if k % 2 == 0 then None else Some(task))
  {
    if k != 0 {
      OneTaskAlternates(s, task, k - 1);
    }
  }

  /** With no task every tick idles. */
  lemma {:induction false} NoTaskIdles(s: Sched, k: nat)
    requires s.current.None? && s.tasks == []
    ensures DispatchSlot(TickN(s, k)) == IdleSlot
    ensures TickN(s, k).tasks == [] && TickN(s, k).current.None?
  {
    if k != 0 {
      NoTaskIdles(s, k - 1);
    }
  }
}
