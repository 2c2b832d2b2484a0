/** The scheduler queue object: each method is one region that the queue's lock protects. */
module SchedulerQueueObjects {
  import opened SchedulerQueues

  class SchedulerQueue {
    var queue: seq<Item>
    var numPendingTasks: int
    var numTasksToAdd: int
    var runningCount: int

    ghost function State(): Core
      reads this
    {
      Core(multiset(queue), numPendingTasks, numTasksToAdd, runningCount)
    }

    constructor ()
      ensures State() == Fresh.core
    {
      queue, numPendingTasks, numTasksToAdd, runningCount := [], 0, 0, 0;
    }

    method SetRunning(running: bool)
      modifies this
      ensures State() == SchedulerQueues.SetRunning(old(State()), running)
    {
      runningCount := runningCount + if running then 1 else -1;
    }

    method GetTasksToSubmitToExecutor() returns (tasks: int)
      modifies this`numTasksToAdd, this`numPendingTasks
      ensures tasks == old(numTasksToAdd) && numTasksToAdd == 0
      ensures numPendingTasks == old(numPendingTasks) + tasks
    {
      tasks := numTasksToAdd;
      numTasksToAdd := 0;
      numPendingTasks := numPendingTasks + tasks;
    }

    method AddItemToQueue(item: Item) returns (wasIdle: bool, tasks: int)
      modifies this
      ensures wasIdle == IsIdle(old(State()))
      ensures (State(), tasks) == PushItem(old(State()), item)
    {
      wasIdle := queue == [] && numPendingTasks == 0;
      queue := queue + [item];
      numTasksToAdd := numTasksToAdd + 1;
      tasks := 0;
      if runningCount > 0 {
        tasks := GetTasksToSubmitToExecutor();
      }
    }

    method SubmitWaitingTasksToExecutor() returns (tasks: int)
      modifies this
      ensures (State(), tasks) == TakeTasks(old(State()))
    {
      tasks := 0;
      if runningCount > 0 {
        tasks := GetTasksToSubmitToExecutor();
      }
    }

    /** The item a priority queue would give: none ought to run before it. */
    method TopIndex() returns (k: nat)
      requires queue != []
      ensures k < |queue|
      ensures IsTop(multiset(queue), queue[k])
    {
      k := 0;
      for n := 1 to |queue|
        invariant k < n
        invariant forall i :: 0 <= i < n ==> !RunsAfter(queue[k], queue[i])
      {
        if RunsAfter(queue[k], queue[n]) {
          forall i | 0 <= i < n + 1
            ensures !RunsAfter(queue[n], queue[i])
          {
            RunsAfterIsStrictWeakOrder(queue[k], queue[n], queue[i]);
            RunsAfterIsStrictWeakOrder(queue[n], queue[n], queue[i]);
          }
          k := n;
        }
      }
      forall x | x in multiset(queue)
        ensures !RunsAfter(queue[k], x)
      {
        assert x in queue;
      }
    }

    method StartTask() returns (top: Item)
      requires queue != []
      modifies this
      ensures IsTop(old(State()).queue, top)
      ensures State() == SchedulerQueues.StartTask(old(State()), top)
    {
      var k := TopIndex();
      top := queue[k];
      assert queue == queue[..k] + [top] + queue[k + 1..];
      queue := queue[..k] + queue[k + 1..];
    }

    method EndTask() returns (isIdle: bool)
      modifies this
      ensures State() == SchedulerQueues.EndTask(old(State())) && isIdle == IsIdle(State())
    {
      numPendingTasks := numPendingTasks - 1;
      isIdle := queue == [] && numPendingTasks == 0;
    }

    /** The two equalities are the runtime's own checks. */
    method CleanupAfterRun() returns (wasIdle: bool)
      requires numPendingTasks == 0 && numTasksToAdd == |queue|
      modifies this
      ensures wasIdle == IsIdle(old(State()))
      ensures State() == SchedulerQueues.CleanupAfterRun(old(State()))
    {
      wasIdle := queue == [] && numPendingTasks == 0;
      numTasksToAdd := 0;
      while queue != []
        invariant numTasksToAdd == 0 && numPendingTasks == old(numPendingTasks) && runningCount == old(runningCount)
        decreases |queue|
      {
        var k := TopIndex();
        queue := queue[..k] + queue[k + 1..];
      }
    }
  }
}
