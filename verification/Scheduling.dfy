/**
  The run queue of `scheduler.rs`: which task a timer tick saves, which one it dispatches, and
  what that does to the queue. A `ProcessState` lives in a box that is moved but never copied, so
  a task is identified by its box; `pid` is the number the scheduler gave it.
*/
module Scheduling {
  import opened Prelude

  datatype Task = Task(pid: nat, box: nat)

  /** What a `*mut ProcessState` can point to. */
  datatype Slot = VoidSlot | IdleSlot | TaskSlot(box: nat)

  /** `tasks` is popped at its right end; `boxes` counts the task boxes created so far. */
  datatype Sched = Sched(tasks: seq<Task>, taskId: nat, boxes: nat, current: Option<Task>, init: bool)

  const BOOT := Sched([], 0, 0, None, false)

  /** `task_id += 1` on a `u64`. */
  function NextId(id: nat): nat {
    if id + 1 == U64 then 0 else id + 1
  }

  /** `start_process`: the new task goes to the end that is popped next. */
  function Started(s: Sched): Sched {
    s.(tasks := s.tasks + [Task(NextId(s.taskId), s.boxes)], taskId := NextId(s.taskId), boxes := s.boxes + 1)
  }

  /** The state `current_task_ptr` returns. */
  function SaveSlot(s: Sched): Slot {
    match s.current
    case Some(task) => TaskSlot(task.box)
    case None => if s.init then IdleSlot else VoidSlot
  }

  /** The flag `current_task_ptr` leaves behind. */
  function MarkInit(s: Sched): Sched {
    s.(init := s.init || s.current.None?)
  }

  /** The state `select_next_task` returns. */
  function DispatchSlot(s: Sched): Slot {
    if s.tasks == [] then IdleSlot else TaskSlot(s.tasks[|s.tasks| - 1].box)
  }

  /** `select_next_task`: pop the next task, only then reinsert the old one at the far end. */
  function Switched(s: Sched): Sched {
    var next := if s.tasks == [] then None else Some(s.tasks[|s.tasks| - 1]);
    var rest := if s.tasks == [] then [] else s.tasks[..|s.tasks| - 1];
    s.(tasks := match s.current { case Some(task) => [task] + rest case None => rest }, current := next)
  }

  function Ticked(s: Sched): Sched {
    Switched(MarkInit(s))
  }

  datatype Event = Start | Tick

  function Step(s: Sched, e: Event): Sched {
    match e
    case Start => Started(s)
    case Tick => Ticked(s)
  }

  /** The state after the first `k` events. */
  function At(s: Sched, es: seq<Event>, k: nat): Sched
    requires k <= |es|
  {
    if k == 0 then s else Step(At(s, es, k - 1), es[k - 1])
  }

  /** How many of the first `k` events are ticks. */
  function Ticks(es: seq<Event>, k: nat): nat
    requires k <= |es|
  {
    if k == 0 then 0 else Ticks(es, k - 1) + if es[k - 1].Tick? then 1 else 0
  }

  /** How many of the first `k` events are starts. */
  function Starts(es: seq<Event>, k: nat): nat
    requires k <= |es|
  {
    if k == 0 then 0 else Starts(es, k - 1) + if es[k - 1].Start? then 1 else 0
  }

  /** Every task there is: the current one, then the queue. */
  function Population(s: Sched): seq<Task> {
    (match s.current case Some(task) => [task] case None => []) + s.tasks
  }

  /** All boxes are different and were created before the count reached `bound`. */
  ghost predicate Distinct(xs: seq<Task>, bound: nat) {
    && (forall i :: 0 <= i < |xs| ==> xs[i].box < bound)
    && (forall i, j :: 0 <= i < j < |xs| ==> xs[i].box != xs[j].box)
  }

  ghost predicate DistinctBoxes(s: Sched) {
    Distinct(Population(s), s.boxes)
  }

  lemma DistinctTurned(xs: seq<Task>, bound: nat)
    requires Distinct(xs, bound) && xs != []
    ensures Distinct([xs[|xs| - 1]] + xs[..|xs| - 1], bound)
  {
  }

  /** A tick turns the population by one place, unless there is nobody waiting. */
  lemma TickTurns(s: Sched)
    ensures var all := Population(s);
            Population(Ticked(s)) == if s.tasks == [] then all else [all[|all| - 1]] + all[..|all| - 1]
  {
  }

  lemma StartExtends(s: Sched)
    ensures Population(Started(s)) == Population(s) + [Task(NextId(s.taskId), s.boxes)]
  {
  }

  lemma DistinctBoxesKept(s: Sched, e: Event)
    requires DistinctBoxes(s)
    ensures DistinctBoxes(Step(s, e))
  {
    match e
    case Start =>
      StartExtends(s);
    case Tick =>
      TickTurns(s);
      if s.tasks != [] {
        DistinctTurned(Population(s), s.boxes);
      }
  }

  lemma {:induction false} DistinctBoxesAlways(s: Sched, es: seq<Event>, k: nat)
    requires DistinctBoxes(s) && k <= |es|
    ensures DistinctBoxes(At(s, es, k))
  {
    if k != 0 {
      DistinctBoxesAlways(s, es, k - 1);
      DistinctBoxesKept(At(s, es, k - 1), es[k - 1]);
    }
  }

  class RoundRobinScheduler {
    var tasks: seq<Task>
    var taskId: nat
    var boxes: nat

    constructor ()
      ensures tasks == [] && taskId == 0 && boxes == 0
    {
      tasks, taskId, boxes := [], 0, 0;
    }

    method PickNext() returns (next: Option<Task>)
      modifies this`tasks
      ensures old(tasks) == [] ==> next == None && tasks == []
      ensures old(tasks) != [] ==> next.Some? && tasks + [next.value] == old(tasks)
    {
      if tasks == [] {
        next := None;
      } else {
        next := Some(tasks[|tasks| - 1]);
        tasks := tasks[..|tasks| - 1];
      }
    }

    method ReinsertTask(task: Task)
      modifies this`tasks
      ensures tasks == [task] + old(tasks)
    {
      tasks := [task] + tasks;
    }

    /** Returns the id of the new task, whose state is boxed as number `old(boxes)`. */
    method StartProcess() returns (id: nat)
      modifies this
      ensures id == taskId == NextId(old(taskId)) && boxes == old(boxes) + 1
      ensures tasks == old(tasks) + [Task(id, old(boxes))]
    {
      taskId := NextId(taskId);
      tasks := tasks + [Task(taskId, boxes)];
      boxes := boxes + 1;
      id := taskId;
    }
  }
}
