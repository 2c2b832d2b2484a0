/**
 The queue between the scheduler and its executor.

 Regions under the queue's lock are functions on `Core`. The machine around them keeps the
 threads' unfinished business: callbacks not yet made, tasks not yet given to the executor,
 tasks in the executor, and tasks being run.
 */
module SchedulerQueues {
  import opened Timestamps
  import opened Sums

  // ---------------------------------------------------------------- priorities

  datatype Item = Item(isOpenNode: bool, isSource: bool, id: int, layer: int, sourceProcessOrder: Timestamp)

  /** `a` runs after `b`. */
  predicate RunsAfter(a: Item, b: Item) {
    if a.isOpenNode || b.isOpenNode then
      if !b.isOpenNode then false
      else if !a.isOpenNode then true
      else a.id > b.id
    else if a.isSource then
      if !b.isSource then true
      else if a.layer != b.layer then a.layer > b.layer
      else if a.sourceProcessOrder != b.sourceProcessOrder then a.sourceProcessOrder > b.sourceProcessOrder
      else a.id > b.id
    else
      if b.isSource then false
      else a.id < b.id
  }

  predicate Incomparable(a: Item, b: Item) {
    !RunsAfter(a, b) && !RunsAfter(b, a)
  }

  /** The comparison is a strict weak order, as a priority queue needs. */
  lemma RunsAfterIsStrictWeakOrder(a: Item, b: Item, c: Item)
    ensures !RunsAfter(a, a)
    ensures !(RunsAfter(a, b) && RunsAfter(b, a))
    ensures RunsAfter(a, b) && RunsAfter(b, c) ==> RunsAfter(a, c)
    ensures Incomparable(a, b) && Incomparable(b, c) ==> Incomparable(a, c)
  {
  }

  /**
   When an item is due: opening nodes by number, then non-sources from the end of the graph,
   then sources by layer, process order and number. Smaller keys run first.
   */
  function DueKey(a: Item): seq<int> {
    if a.isOpenNode then [0, a.id, 0, 0]
    else if !a.isSource then [1, -a.id, 0, 0]
    else [2, a.layer, a.sourceProcessOrder as int, a.id]
  }

  predicate LexicographicallyAfter(x: seq<int>, y: seq<int>)
    requires |x| == |y|
  {
    x != [] && (x[0] > y[0] || (x[0] == y[0] && LexicographicallyAfter(x[1..], y[1..])))
  }

  /** The nested comparisons amount to comparing the keys; items with equal keys, and only those, are unordered. */
  lemma RunsAfterComparesKeys(a: Item, b: Item)
    ensures RunsAfter(a, b) <==> LexicographicallyAfter(DueKey(a), DueKey(b))
    ensures Incomparable(a, b) <==> DueKey(a) == DueKey(b)
  {
    var x, y := DueKey(a), DueKey(b);
    FourComponents(x, y);
    FourComponents(y, x);
    assert x == y <==> x[0] == y[0] && x[1] == y[1] && x[2] == y[2] && x[3] == y[3];
  }

  lemma FourComponents(x: seq<int>, y: seq<int>)
    requires |x| == |y| == 4
    ensures LexicographicallyAfter(x, y) <==>
              || x[0] > y[0]
              || (x[0] == y[0] && (x[1] > y[1] || (x[1] == y[1] && (x[2] > y[2] || (x[2] == y[2] && x[3] > y[3])))))
  {
    var x', y' := x[1..], y[1..];
    var x'', y'' := x'[1..], y'[1..];
    assert LexicographicallyAfter(x''[1..], y''[1..]) <==> x[3] > y[3];
    assert LexicographicallyAfter(x'', y'') <==> x[2] > y[2] || (x[2] == y[2] && x[3] > y[3]);
  }

  /** No queued item ought to run before `top`. */
  ghost predicate IsTop(queue: multiset<Item>, top: Item) {
    top in queue && forall x :: x in queue ==> !RunsAfter(top, x)
  }

  lemma {:induction false} TopExists(queue: multiset<Item>) returns (top: Item)
    requires queue != multiset{}
    ensures IsTop(queue, top)
    decreases |queue|
  {
    var x :| x in queue;
    var rest := queue - multiset{x};
    if rest == multiset{} {
      assert queue == rest + multiset{x};
      top := x;
    } else {
      var t := TopExists(rest);
      assert forall y :: y in queue ==> y == x || y in rest;
      if RunsAfter(t, x) {
        top := x;
        forall y | y in queue
          ensures !RunsAfter(x, y)
        {
          RunsAfterIsStrictWeakOrder(t, x, y);
        }
      } else {
        top := t;
      }
    }
  }

  // ---------------------------------------------------------------- lock-protected regions

  datatype Core = Core(queue: multiset<Item>, pending: int, toAdd: int, running: int)

  predicate IsIdle(c: Core) {
    |c.queue| == 0 && c.pending == 0
  }

  /** Moves every waiting task to the caller, who must hand them to the executor. */
  function TakeTasks(c: Core): (Core, int) {
    if c.running > 0 then (c.(toAdd := 0, pending := c.pending + c.toAdd), c.toAdd) else (c, 0)
  }

  function PushItem(c: Core, item: Item): (Core, int) {
    TakeTasks(c.(queue := c.queue + multiset{item}, toAdd := c.toAdd + 1))
  }

  function StartTask(c: Core, top: Item): Core {
    c.(queue := c.queue - multiset{top})
  }

  function EndTask(c: Core): Core {
    c.(pending := c.pending - 1)
  }

  function SetRunning(c: Core, running: bool): Core {
    c.(running := c.running + if running then 1 else -1)
  }

  function CleanupAfterRun(c: Core): Core {
    c.(queue := multiset{}, toAdd := 0)
  }

  // ---------------------------------------------------------------- the machine

  /**
   `owers` lists, for each thread that pushed onto an idle queue and has not yet reported it,
   how many tasks it will hand over afterwards. `free` counts tasks about to be handed over by
   threads that owe nothing, `executor` tasks in the executor, `active` tasks being run,
   `owedIdle` threads about to report idleness. The last two fields count delivered reports.
   */
  datatype Queue = Queue(
    core: Core,
    owers: seq<nat>,
    free: nat,
    executor: nat,
    active: nat,
    owedIdle: nat,
    becameActive: nat,
    becameIdle: nat)

  datatype Step =
    | Push(item: Item)
    | ReportActive(j: nat)
    | AddTask
    | Submit
    | Switch(running: bool)
    | Start(top: Item)
    | Finish
    | ReportIdle
    | Cleanup

  /** A thread that pushed while the queue was stopped has not yet reported it. */
  predicate StoppedPushUnreported(q: Queue) {
    exists j :: 0 <= j < |q.owers| && q.owers[j] == 0
  }

  ghost predicate Enabled(q: Queue, step: Step) {
    match step
    case Push(_) => true
    case ReportActive(j) => j < |q.owers|
    case AddTask => q.free > 0
    case Submit => true
    case Switch(_) => true
    case Start(top) => q.executor > 0 && IsTop(q.core.queue, top)
    case Finish => q.active > 0
    case ReportIdle => q.owedIdle > 0
    case Cleanup => q.core.pending == 0
  }

  function Effect(q: Queue, step: Step): Queue
    requires step.ReportActive? ==> step.j < |q.owers|
    requires step.AddTask? ==> q.free > 0
    requires step.Start? ==> q.executor > 0
    requires step.Finish? ==> q.active > 0
    requires step.ReportIdle? ==> q.owedIdle > 0
  {
    match step
    case Push(item) =>
      var (core, tasks) := PushItem(q.core, item);
      var n: nat := if tasks < 0 then 0 else tasks;
      if IsIdle(q.core) then q.(core := core, owers := q.owers + [n])
      else q.(core := core, free := q.free + n)
    case ReportActive(j) =>
      q.(owers := q.owers[..j] + q.owers[j + 1..], free := q.free + q.owers[j], becameActive := q.becameActive + 1)
    case AddTask => q.(free := q.free - 1, executor := q.executor + 1)
    case Submit =>
      var (core, tasks) := TakeTasks(q.core);
      q.(core := core, free := q.free + if tasks < 0 then 0 else tasks)
    case Switch(running) => q.(core := SetRunning(q.core, running))
    case Start(top) => q.(core := StartTask(q.core, top), executor := q.executor - 1, active := q.active + 1)
    case Finish =>
      var core := EndTask(q.core);
      q.(core := core, active := q.active - 1, owedIdle := q.owedIdle + if IsIdle(core) then 1 else 0)
    case ReportIdle => q.(owedIdle := q.owedIdle - 1, becameIdle := q.becameIdle + 1)
    case Cleanup =>
      q.(core := CleanupAfterRun(q.core), owedIdle := q.owedIdle + if IsIdle(q.core) then 0 else 1)
  }

  ghost function Apply(q: Queue, step: Step): Queue {
    if Enabled(q, step) then Effect(q, step) else q
  }

  ghost function Run(q: Queue, steps: seq<Step>): Queue
    decreases |steps|
  {
    if steps == [] then q else Run(Apply(q, steps[0]), steps[1..])
  }

  const Fresh: Queue := Queue(Core(multiset{}, 0, 0, 0), [], 0, 0, 0, 0, 0, 0)

  // ---------------------------------------------------------------- accounting

  /** Every queued or running item is matched by exactly one task somewhere. */
  predicate Accounted(q: Queue) {
    && 0 <= q.core.toAdd
    && |q.core.queue| + q.active == q.core.toAdd + q.core.pending
    && q.core.pending == q.executor + q.active + q.free + Sum(q.owers, Itself)
  }

  /** Reports made or owed differ by exactly one while the queue is not idle. */
  predicate Balanced(q: Queue) {
    (q.becameActive + |q.owers|) - (q.becameIdle + q.owedIdle) == if IsIdle(q.core) then 0 else 1
  }

  lemma PushIsAccounted(q: Queue, item: Item)
    requires Accounted(q) && Balanced(q)
    ensures Accounted(Effect(q, Push(item))) && Balanced(Effect(q, Push(item)))
  {
    SumAppend<nat>(q.owers, 0, Itself);
    SumAppend<nat>(q.owers, q.core.toAdd + 1, Itself);
  }

  lemma ReportIsAccounted(q: Queue, j: nat)
    requires Accounted(q) && Balanced(q) && j < |q.owers|
    ensures Accounted(Effect(q, ReportActive(j))) && Balanced(Effect(q, ReportActive(j)))
  {
    SumWithout(q.owers, j, Itself);
  }

  lemma StepIsAccounted(q: Queue, step: Step)
    requires Accounted(q) && Balanced(q)
    ensures Accounted(Apply(q, step)) && Balanced(Apply(q, step))
  {
    if Enabled(q, step) {
      match step
      case Push(item) => PushIsAccounted(q, item);
      case ReportActive(j) => ReportIsAccounted(q, j);
      case _ =>
    }
  }

  lemma {:induction false} EveryRunIsAccounted(q: Queue, steps: seq<Step>)
    requires Accounted(q) && Balanced(q)
    ensures Accounted(Run(q, steps)) && Balanced(Run(q, steps))
    decreases |steps|
  {
    if steps != [] {
      StepIsAccounted(q, steps[0]);
      EveryRunIsAccounted(Apply(q, steps[0]), steps[1..]);
    }
  }

  /** How many more starts than stops there are among these steps. */
  function StartsOverStops(steps: seq<Step>): int {
    if steps == [] then 0
    else (if steps[0] == Switch(true) then 1 else if steps[0] == Switch(false) then -1 else 0) + StartsOverStops(steps[1..])
  }

  /** A queue runs exactly while it was started more often than it was stopped: pauses nest. */
  lemma {:induction false} RunningCountsStarts(q: Queue, steps: seq<Step>)
    ensures Run(q, steps).core.running == q.core.running + StartsOverStops(steps)
    decreases |steps|
  {
    if steps != [] {
      RunningCountsStarts(Apply(q, steps[0]), steps[1..]);
    }
  }

  /** A task in the executor never finds the queue empty, and the item it takes is of top priority. */
  lemma TasksFindItems(steps: seq<Step>)
    ensures var q := Run(Fresh, steps);
            q.executor > 0 ==> |q.core.queue| > 0 && exists top :: IsTop(q.core.queue, top) && Enabled(q, Start(top))
  {
    EveryRunIsAccounted(Fresh, steps);
    var q := Run(Fresh, steps);
    if q.executor > 0 {
      assert |q.core.queue| > 0;
      var top := TopExists(q.core.queue);
      assert Enabled(q, Start(top));
    }
  }

  /** With no task pending, every queued item is one that still waits for its task: the clean-up check holds. */
  lemma CleanupCheckHolds(steps: seq<Step>)
    ensures var q := Run(Fresh, steps);
            && |q.core.queue| + q.active == q.core.toAdd + q.core.pending
            && (q.core.pending == 0 ==> q.core.toAdd == |q.core.queue|)
  {
    EveryRunIsAccounted(Fresh, steps);
  }

  // ---------------------------------------------------------------- no stranded work

  /** Whether a restart is still waiting for its Submit after these steps; `owed` says so before them. */
  predicate SubmitOwed(owed: bool, steps: seq<Step>)
    decreases |steps|
  {
    if steps == [] then owed
    else SubmitOwed(if steps[0].Switch? && steps[0].running then true else if steps[0].Submit? then false else owed, steps[1..])
  }

  /** Every restart has been followed by a Submit, as the scheduler does when it starts or resumes. */
  ghost predicate RestartsSubmitted(steps: seq<Step>) {
    forall i :: 0 <= i < |steps| && steps[i] == Switch(true) ==> exists j :: i < j < |steps| && steps[j].Submit?
  }

  lemma {:induction false} LastRestartSubmitted(owed: bool, steps: seq<Step>)
    requires RestartsSubmitted(steps) && (owed ==> exists j :: 0 <= j < |steps| && steps[j].Submit?)
    ensures !SubmitOwed(owed, steps)
    decreases |steps|
  {
    if steps != [] {
      var tail := steps[1..];
      var still := if steps[0].Switch? && steps[0].running then true else if steps[0].Submit? then false else owed;
      assert forall i :: 0 <= i < |tail| ==> tail[i] == steps[i + 1];
      forall i | 0 <= i < |tail| && tail[i] == Switch(true)
        ensures exists j :: i < j < |tail| && tail[j].Submit?
      {
        assert steps[i + 1] == Switch(true);
        var j :| i + 1 < j < |steps| && steps[j].Submit?;
        assert tail[j - 1].Submit?;
      }
      if still {
        var j :| 0 < j < |steps| && steps[j].Submit?;
        assert tail[j - 1].Submit?;
      }
      LastRestartSubmitted(still, tail);
    }
  }

  lemma {:induction false} WaitingMeansOwed(q: Queue, steps: seq<Step>, owed: bool)
    requires q.core.running > 0 && !owed ==> q.core.toAdd == 0
    ensures var r := Run(q, steps); r.core.running > 0 && !SubmitOwed(owed, steps) ==> r.core.toAdd == 0
    decreases |steps|
  {
    if steps != [] {
      var still := if steps[0].Switch? && steps[0].running then true else if steps[0].Submit? then false else owed;
      WaitingMeansOwed(Apply(q, steps[0]), steps[1..], still);
    }
  }

  /** Once a running queue has been pushed to, or asked to submit, no item waits for its task. */
  lemma PushedItemsGetTasks(steps: seq<Step>, step: Step)
    requires step.Push? || step.Submit?
    ensures var q := Run(Fresh, steps); var r := Apply(q, step);
            && r.core.queue == (if step.Push? then q.core.queue + multiset{step.item} else q.core.queue)
            && r.core.running == q.core.running
            && (r.core.running > 0 ==> r.core.toAdd == 0 && |r.core.queue| == r.free + r.executor + Sum(r.owers, Itself))
  {
    EveryRunIsAccounted(Fresh, steps);
    StepIsAccounted(Run(Fresh, steps), step);
  }

  /**
   In every run that submits after its restarts, each item in a running queue has a task of its
   own on the way to it. So when no task is left anywhere, no item is stranded.
   */
  lemma NoWorkIsStranded(steps: seq<Step>)
    requires RestartsSubmitted(steps) && Run(Fresh, steps).core.running > 0
    ensures var q := Run(Fresh, steps); |q.core.queue| == q.free + q.executor + Sum(q.owers, Itself)
    ensures var q := Run(Fresh, steps); q.free == q.executor == 0 && q.owers == [] ==> q.core.queue == multiset{}
  {
    EveryRunIsAccounted(Fresh, steps);
    LastRestartSubmitted(false, steps);
    WaitingMeansOwed(Fresh, steps, false);
  }

  /** Without the Submit an item is stranded: it was pushed before the restart, and no task will come for it. */
  lemma RestartAloneStrands(item: Item)
    ensures var q := Run(Fresh, [Push(item), ReportActive(0), Switch(true)]);
            && q.core.running > 0 && q.free == q.executor == q.active == 0 && q.owers == []
            && q.core.queue == multiset{item}
  {
    var steps := [Push(item), ReportActive(0), Switch(true)];
    var pushed := Apply(Fresh, Push(item));
    var reported := Apply(pushed, ReportActive(0));
    var restarted := Apply(reported, Switch(true));
    assert steps[1..] == [ReportActive(0), Switch(true)] && steps[1..][1..] == [Switch(true)] && [Switch(true)][1..] == [];
    assert Run(restarted, []) == restarted == Run(reported, [Switch(true)]);
    assert Run(reported, [Switch(true)]) == Run(pushed, steps[1..]) == Run(Fresh, steps);
    assert pushed.owers == [0] && pushed.core.queue == multiset{item};
    assert reported.owers == [];
  }

  /** From any such state every item can be run: some continuation empties the queue. */
  lemma QueueCanBeEmptied(steps: seq<Step>) returns (more: seq<Step>)
    requires RestartsSubmitted(steps) && Run(Fresh, steps).core.running > 0 && Run(Fresh, steps).owers == []
    ensures var r := Run(Run(Fresh, steps), more); r.core.queue == multiset{} && IsIdle(r.core)
  {
    NoWorkIsStranded(steps);
    EveryRunIsAccounted(Fresh, steps);
    LastRestartSubmitted(false, steps);
    WaitingMeansOwed(Fresh, steps, false);
    more := Drain(Run(Fresh, steps));
  }

  // ---------------------------------------------------------------- idle counting

  /**
   A stopped queue is restarted only when no push made while it was stopped is still unreported,
   and cleaned up only when no push at all is.
   */
  predicate Disciplined(q: Queue, step: Step) {
    && (step.Switch? && step.running && q.core.running == 0 ==> !StoppedPushUnreported(q))
    && (step.Cleanup? && q.core.pending == 0 ==> q.owers == [])
  }

  ghost predicate DisciplinedRun(q: Queue, steps: seq<Step>)
    decreases |steps|
  {
    steps == [] || (Disciplined(q, steps[0]) && DisciplinedRun(Apply(q, steps[0]), steps[1..]))
  }

  /** A thread that owes its report keeps the queue from becoming idle. */
  predicate OwersHold(q: Queue) {
    && |q.owers| <= 1
    && forall j :: 0 <= j < |q.owers| && q.owers[j] == 0 ==> q.core.running <= 0 && q.core.toAdd > 0
  }

  lemma OwedMeansBusy(q: Queue)
    requires Accounted(q) && OwersHold(q) && q.owers != []
    ensures !IsIdle(q.core)
  {
    assert q.owers == [] + [q.owers[0]];
    SumAppend([], q.owers[0], Itself);
  }

  lemma StepKeepsOwers(q: Queue, step: Step)
    requires Accounted(q) && Balanced(q) && OwersHold(q) && Disciplined(q, step)
    ensures OwersHold(Apply(q, step))
  {
    if Enabled(q, step) {
      if q.owers != [] { OwedMeansBusy(q); }
      match step
      case Push(item) =>
      case ReportActive(j) =>
      case Switch(running) =>
      case _ =>
    }
  }

  lemma {:induction false} DisciplinedRunHolds(q: Queue, steps: seq<Step>)
    requires Accounted(q) && Balanced(q) && OwersHold(q) && DisciplinedRun(q, steps)
    ensures var r := Run(q, steps); Accounted(r) && Balanced(r) && OwersHold(r)
    decreases |steps|
  {
    if steps != [] {
      StepIsAccounted(q, steps[0]);
      StepKeepsOwers(q, steps[0]);
      DisciplinedRunHolds(Apply(q, steps[0]), steps[1..]);
    }
  }

  /**
   Idleness is never reported more often than activity, and the two counts agree only if the queue
   is idle or a thread still owes its report.
   */
  lemma IdleCountIsSound(steps: seq<Step>)
    requires DisciplinedRun(Fresh, steps)
    ensures var q := Run(Fresh, steps);
            && q.becameIdle <= q.becameActive
            && (q.becameIdle == q.becameActive ==> IsIdle(q.core) || q.owers != [])
  {
    DisciplinedRunHolds(Fresh, steps);
    CountOf(Run(Fresh, steps));
  }

  // ---------------------------------------------------------------- the discipline is necessary

  /** The next step that brings unfinished tasks and reports nearer to an end. */
  lemma NextDrainStep(q: Queue) returns (step: Step)
    requires Accounted(q) && q.free + q.executor + q.active + q.owedIdle > 0
    ensures Enabled(q, step) && (step.AddTask? || step.Start? || step.Finish? || step.ReportIdle?)
  {
    if q.free > 0 {
      step := AddTask;
    } else if q.active > 0 {
      step := Finish;
    } else if q.executor > 0 {
      var top := TopExists(q.core.queue);
      step := Start(top);
    } else {
      step := ReportIdle;
    }
  }

  function Unfinished(q: Queue): nat {
    4 * q.free + 3 * q.executor + 2 * q.active + q.owedIdle
  }

  lemma {:induction false} Drain(q: Queue) returns (steps: seq<Step>)
    requires Accounted(q) && Balanced(q)
    ensures var r := Run(q, steps);
            && r.free == r.executor == r.active == r.owedIdle == 0
            && r.owers == q.owers && r.core.toAdd == q.core.toAdd
            && Accounted(r) && Balanced(r)
    ensures DisciplinedRun(q, steps)
    decreases Unfinished(q)
  {
    if Unfinished(q) == 0 {
      steps := [];
    } else {
      var step := NextDrainStep(q);
      StepIsAccounted(q, step);
      var rest := Drain(Apply(q, step));
      steps := [step] + rest;
      assert steps[1..] == rest;
    }
  }

  /** If every task can end while a push is unreported, idleness is reported once too often. */
  lemma OwedDrainGoesNegative(q: Queue) returns (more: seq<Step>)
    requires Accounted(q) && Balanced(q) && q.owers == [0] && q.core.toAdd == 0
    ensures DisciplinedRun(q, more) && Run(q, more).becameIdle > Run(q, more).becameActive
  {
    SumAppend<nat>([], 0, Itself);
    assert [] + [0] == [0];
    more := Drain(q);
  }

  /**
   Restarting the queue while a push made during the stop is unreported always admits a run
   that reports idleness more often than activity.
   */
  lemma EarlyRestartCanGoNegative(steps: seq<Step>) returns (more: seq<Step>)
    requires DisciplinedRun(Fresh, steps)
    requires StoppedPushUnreported(Run(Fresh, steps)) && Run(Fresh, steps).core.running == 0
    ensures DisciplinedRun(Apply(Run(Fresh, steps), Switch(true)), more)
    ensures var q := Run(Apply(Run(Fresh, steps), Switch(true)), more);
            q.becameIdle > q.becameActive
  {
    DisciplinedRunHolds(Fresh, steps);
    var q := Run(Fresh, steps);
    var restarted := Apply(q, Switch(true));
    StepIsAccounted(q, Switch(true));
    StepIsAccounted(restarted, Submit);
    var submitted := Apply(restarted, Submit);
    var rest := OwedDrainGoesNegative(submitted);
    more := [Submit] + rest;
    assert more[1..] == rest;
    assert Run(restarted, more) == Run(submitted, rest);
  }

  /** So does cleaning up while any push is unreported: clean-up reports idleness first. */
  lemma EarlyCleanupCanGoNegative(steps: seq<Step>) returns (more: seq<Step>)
    requires DisciplinedRun(Fresh, steps)
    requires Run(Fresh, steps).owers != [] && Run(Fresh, steps).core.pending == 0
    ensures DisciplinedRun(Apply(Run(Fresh, steps), Cleanup), more)
    ensures var q := Run(Apply(Run(Fresh, steps), Cleanup), more);
            q.becameIdle > q.becameActive
  {
    DisciplinedRunHolds(Fresh, steps);
    var q := Run(Fresh, steps);
    var cleaned := Apply(q, Cleanup);
    StepIsAccounted(q, Cleanup);
    assert q.owers == [] + [q.owers[0]];
    SumAppend([], q.owers[0], Itself);
    more := OwedDrainGoesNegative(cleaned);
  }

  ghost predicate NeverNegative(q: Queue) {
    forall more :: DisciplinedRun(q, more) ==> Run(q, more).becameIdle <= Run(q, more).becameActive
  }

  /** The two conditions are exact: a step keeps the count sound for ever if and only if it meets them. */
  lemma DisciplineIsExact(steps: seq<Step>, step: Step)
    requires DisciplinedRun(Fresh, steps) && Enabled(Run(Fresh, steps), step)
    ensures Disciplined(Run(Fresh, steps), step) <==> NeverNegative(Apply(Run(Fresh, steps), step))
  {
    var q := Run(Fresh, steps);
    DisciplinedRunHolds(Fresh, steps);
    if Disciplined(q, step) {
      StepIsAccounted(q, step);
      StepKeepsOwers(q, step);
      forall more | DisciplinedRun(Apply(q, step), more)
        ensures Run(Apply(q, step), more).becameIdle <= Run(Apply(q, step), more).becameActive
      {
        DisciplinedRunHolds(Apply(q, step), more);
        CountOf(Run(Apply(q, step), more));
      }
    } else if step.Cleanup? {
      var more := EarlyCleanupCanGoNegative(steps);
    } else {
      var more := EarlyRestartCanGoNegative(steps);
    }
  }

  /** What the invariant says about the delivered reports. */
  lemma CountOf(q: Queue)
    requires Accounted(q) && Balanced(q) && OwersHold(q)
    ensures q.becameIdle <= q.becameActive
    ensures q.becameIdle == q.becameActive ==> IsIdle(q.core) || q.owers != []
  {
    if q.owers != [] { OwedMeansBusy(q); }
  }

  /** Both are possible: push onto a stopped, idle queue, and restart or clean up before the report. */
  lemma EarlyStepExists(item: Item)
    ensures var q := Run(Fresh, [Push(item)]);
            && DisciplinedRun(Fresh, [Push(item)]) && StoppedPushUnreported(q) && q.core.running == 0
            && q.owers != [] && q.core.pending == 0
  {
    var steps := [Push(item)];
    assert steps[1..] == [];
    var q := Apply(Fresh, Push(item));
    assert Run(Fresh, steps) == Run(q, []) == q;
    assert q.owers == [0];
    assert q.owers[0] == 0;
    assert DisciplinedRun(q, []);
  }

  // ---------------------------------------------------------------- several queues

  /** The scheduler's count of queues that are not idle. */
  function NonIdleCount(qs: seq<Queue>): int {
    if qs == [] then 0 else (qs[0].becameActive - qs[0].becameIdle) + NonIdleCount(qs[1..])
  }

  ghost predicate QueueHolds(q: Queue) {
    Accounted(q) && Balanced(q) && OwersHold(q)
  }

  lemma {:induction false} CountIsSound(qs: seq<Queue>)
    requires forall i :: 0 <= i < |qs| ==> QueueHolds(qs[i])
    ensures NonIdleCount(qs) >= 0
    ensures NonIdleCount(qs) == 0 ==> forall i :: 0 <= i < |qs| ==> IsIdle(qs[i].core) || qs[i].owers != []
    decreases |qs|
  {
    if qs != [] {
      assert QueueHolds(qs[0]);
      CountOf(qs[0]);
      CountIsSound(qs[1..]);
      assert forall i :: 1 <= i < |qs| ==> qs[i] == qs[1..][i - 1];
    }
  }

  /** However each queue got here, the count is never negative; when it is zero, every queue is idle or about to report. */
  lemma SchedulerIdleIsSound(qs: seq<Queue>, runs: seq<seq<Step>>)
    requires |runs| == |qs|
    requires forall i :: 0 <= i < |qs| ==> DisciplinedRun(Fresh, runs[i]) && qs[i] == Run(Fresh, runs[i])
    ensures NonIdleCount(qs) >= 0
    ensures NonIdleCount(qs) == 0 ==> forall i :: 0 <= i < |qs| ==> IsIdle(qs[i].core) || qs[i].owers != []
  {
    forall i | 0 <= i < |qs|
      ensures QueueHolds(qs[i])
    {
      DisciplinedRunHolds(Fresh, runs[i]);
    }
    CountIsSound(qs);
  }
}
