/**
 The scheduler object of one pass, with the tasks run one after another on the caller's thread,
 and the graph object that makes an initial pass and one more pass per run.
 */
module GeneratorSchedulers {
  import opened Packets
  import opened PacketTypes
  import opened GeneratorGraph
  import opened GeneratorTasks
  import opened GeneratorTypes

  lemma {:induction false} RunExtends(cfg: Config, s: State, ws: seq<nat>, w: nat)
    requires IsRun(cfg, s, ws) && Enabled(cfg, Run(cfg, s, ws), w)
    ensures IsRun(cfg, s, ws + [w]) && Run(cfg, s, ws + [w]) == Apply(cfg, Run(cfg, s, ws), w)
    decreases |ws|
  {
    if ws == [] {
      assert ws + [w] == [w] && [w][1..] == [];
    } else {
      RunExtends(cfg, Apply(cfg, s, ws[0]), ws[1..], w);
      assert (ws + [w])[0] == ws[0] && (ws + [w])[1..] == ws[1..] + [w];
    }
  }

  /** A run together with the state it leads to. */
  ghost predicate Follows(cfg: Config, skip: seq<bool>, base: SidePackets, ws: seq<nat>, s: State) {
    |skip| == |cfg| && IsRun(cfg, Start(skip, base), ws) && s == Run(cfg, Start(skip, base), ws)
  }

  lemma FollowsStep(cfg: Config, skip: seq<bool>, base: SidePackets, ws: seq<nat>, s: State, w: nat)
    requires Follows(cfg, skip, base, ws, s) && Enabled(cfg, s, w)
    ensures Follows(cfg, skip, base, ws + [w], Apply(cfg, s, w))
  {
    RunExtends(cfg, Start(skip, base), ws, w);
  }

  datatype Task = Task(gen: nat, ins: SidePackets)

  /** Task `k` is the queued worker `ids[k]`; apart from them only `active` has not finished. */
  ghost predicate TasksQueued(s: State, tasks: seq<Task>, ids: seq<nat>, active: nat) {
    && |tasks| == |ids|
    && (forall k :: 0 <= k < |ids| ==>
          && 0 < ids[k] < |s.workers| && ids[k] != active
          && s.workers[ids[k]] == Worker(tasks[k].gen, tasks[k].ins, Queued))
    && (forall k, l :: 0 <= k < l < |ids| ==> ids[k] != ids[l])
    && (forall w :: 0 <= w < |s.workers| && w != active && w !in ids ==> s.workers[w].phase == Finished)
  }

  class GeneratorScheduler {
    const cfg: Config
    var sidePackets: SidePackets
    var scheduledGenerators: seq<bool>
    var failed: bool
    var numTasks: int
    var appThreadTasks: seq<Task>
    ghost const skip: seq<bool>
    ghost const base: SidePackets
    ghost var model: State
    ghost var trace: seq<nat>
    ghost var ids: seq<nat>

    /** The object is a state of the concurrent scheduler that some run reaches. */
    ghost predicate Valid(active: nat)
      reads this
    {
      && Follows(cfg, skip, base, trace, model)
      && |model.scheduled| == |cfg| && active < |model.workers|
      && sidePackets == model.packets && scheduledGenerators == model.scheduled && failed == model.failed
      && TasksQueued(model, appThreadTasks, ids, active)
    }

    constructor (cfg: Config, sidePackets: SidePackets, skip: seq<bool>)
      requires |skip| == |cfg|
      ensures Valid(0) && this.cfg == cfg && this.skip == skip && this.base == sidePackets
      ensures model == Start(skip, sidePackets) && numTasks == model.numTasks && appThreadTasks == []
    {
      this.cfg, this.sidePackets, this.skip, this.base := cfg, sidePackets, skip, sidePackets;
      scheduledGenerators, failed, numTasks, appThreadTasks := skip, false, 0, [];
      model, trace, ids := Start(skip, sidePackets), [], [];
    }

    /** The scan over all generators; in the model it is the work of `worker`. */
    method ScheduleAllRunnableGenerators(ghost worker: nat)
      requires Valid(worker) && model.workers[worker].phase == Scanning(0) && numTasks == model.numTasks
      modifies this
      ensures Valid(worker) && model.workers[worker].phase == Scanning(|cfg|) && numTasks == model.numTasks
      ensures Work(|cfg|, model) <= old(Work(|cfg|, model))
    {
      for index := 0 to |cfg|
        invariant Valid(worker) && model.workers[worker].phase == Scanning(index) && numTasks == model.numTasks
        invariant Work(|cfg|, model) <= old(Work(|cfg|, model))
      {
        ScheduleIfRunnable(index, worker);
      }
    }

    method ScheduleIfRunnable(index: nat, ghost worker: nat)
      requires index < |cfg|
      requires Valid(worker) && model.workers[worker].phase == Scanning(index) && numTasks == model.numTasks
      modifies this
      ensures Valid(worker) && model.workers[worker].phase == Scanning(index + 1) && numTasks == model.numTasks
      ensures Work(|cfg|, model) < old(Work(|cfg|, model))
    {
      if scheduledGenerators[index] {
        PassOver(index, false, worker);
        return;
      }
      if Mistyped(cfg[index], sidePackets) {
        PassOver(index, true, worker);
        return;
      }
      if !Runnable(cfg[index], sidePackets) {
        PassOver(index, false, worker);
        return;
      }
      Schedule(index, worker);
    }

    method PassOver(index: nat, bad: bool, ghost worker: nat)
      requires index < |cfg|
      requires Valid(worker) && model.workers[worker].phase == Scanning(index) && numTasks == model.numTasks
      requires scheduledGenerators[index] || Mistyped(cfg[index], sidePackets) || !Runnable(cfg[index], sidePackets)
      requires bad <==> !scheduledGenerators[index] && Mistyped(cfg[index], sidePackets)
      modifies this`failed, this`model, this`trace
      ensures Valid(worker) && model.workers[worker].phase == Scanning(index + 1) && numTasks == model.numTasks
      ensures Work(|cfg|, model) < old(Work(|cfg|, model))
    {
      failed := failed || bad;
      ghost var after := ScanStep(cfg, skip, base, trace, model, worker, index);
      OthersKept(model, after, appThreadTasks, ids, worker);
      model, trace := after, trace + [worker];
    }

    method Schedule(index: nat, ghost worker: nat)
      requires index < |cfg|
      requires Valid(worker) && model.workers[worker].phase == Scanning(index) && numTasks == model.numTasks
      requires !scheduledGenerators[index] && !Mistyped(cfg[index], sidePackets) && Runnable(cfg[index], sidePackets)
      modifies this
      ensures Valid(worker) && model.workers[worker].phase == Scanning(index + 1) && numTasks == model.numTasks
      ensures Work(|cfg|, model) < old(Work(|cfg|, model))
    {
      ghost var after := ScanStep(cfg, skip, base, trace, model, worker, index);
      TaskAdded(model, after, appThreadTasks, ids, worker);
      scheduledGenerators := scheduledGenerators[index := true];
      numTasks := numTasks + 1;
      appThreadTasks := appThreadTasks + [Task(index, InputsOf(cfg[index], sidePackets))];
      ids := ids + [|model.workers|];
      model, trace := after, trace + [worker];
    }

    method ExecuteAll()
      requires Valid(0) && model.workers[0].phase == Scanning(0) && numTasks == model.numTasks
      modifies this
      ensures Valid(0) && AllFinished(model) && numTasks == model.numTasks
    {
      ScheduleAllRunnableGenerators(0);
      ghost var after := EndStep(cfg, skip, base, trace, model, 0);
      OthersKept(model, after, appThreadTasks, ids, 0);
      model, trace := after, trace + [0];
      RunApplicationThreadTasks();
    }

    /** One task: run the generator unless something has failed, add its outputs, and scan again. */
    method GenerateAndScheduleNext(gen: nat, ins: SidePackets, ghost worker: nat)
      requires gen < |cfg| && 0 < worker
      requires Valid(worker) && model.workers[worker] == Worker(gen, ins, Queued) && numTasks == model.numTasks
      modifies this
      ensures Valid(worker) && Work(|cfg|, model) < old(Work(|cfg|, model))
      ensures || (model.workers[worker].phase == Scanning(|cfg|) && numTasks == model.numTasks)
              || (model.workers[worker].phase == Finished && numTasks == model.numTasks + 1)
    {
      ghost var running := StartStep(cfg, skip, base, trace, model, worker);
      OthersKept(model, running, appThreadTasks, ids, worker);
      model, trace := running, trace + [worker];
      if failed {
        return;
      }
      AddOutputs(gen, Generate(cfg[gen], ins), worker);
      if failed {
        return;
      }
      ScheduleAllRunnableGenerators(worker);
    }

    method AddOutputs(gen: nat, made: Option<SidePackets>, ghost worker: nat)
      requires gen < |cfg| && 0 < worker
      requires Valid(worker) && model.workers[worker].gen == gen && model.workers[worker].phase == Running
      requires made == Generate(cfg[gen], model.workers[worker].ins)
      requires numTasks == model.numTasks
      modifies this`failed, this`sidePackets, this`model, this`trace
      ensures Valid(worker) && Work(|cfg|, model) < old(Work(|cfg|, model))
      ensures if failed then model.workers[worker].phase == Finished && numTasks == model.numTasks + 1
              else model.workers[worker].phase == Scanning(0) && numTasks == model.numTasks
    {
      ghost var after := RunStep(cfg, skip, base, trace, model, worker);
      OthersKept(model, after, appThreadTasks, ids, worker);
      if made.None? {
        failed := true;
      } else {
        failed := failed || Collides(made.value, sidePackets);
        sidePackets := made.value + sidePackets;
      }
      model, trace := after, trace + [worker];
    }

    /** Runs the queued tasks, and those they queue, until there are none. */
    method RunApplicationThreadTasks()
      requires Valid(0) && model.workers[0].phase == Finished && numTasks == model.numTasks
      modifies this
      ensures Valid(0) && AllFinished(model) && numTasks == model.numTasks
    {
      while appThreadTasks != []
        invariant Valid(0) && model.workers[0].phase == Finished && numTasks == model.numTasks
        decreases Work(|cfg|, model)
      {
        RunFirstTask();
      }
    }

    method RunFirstTask()
      requires Valid(0) && model.workers[0].phase == Finished && numTasks == model.numTasks && appThreadTasks != []
      modifies this
      ensures Valid(0) && model.workers[0].phase == Finished && numTasks == model.numTasks
      ensures Work(|cfg|, model) < old(Work(|cfg|, model))
    {
      var task := appThreadTasks[0];
      ghost var worker := ids[0];
      TaskTaken(model, appThreadTasks, ids);
      GeneratorInRange(cfg, skip, base, trace, model, worker);
      appThreadTasks, ids := appThreadTasks[1..], ids[1..];
      RunTask(task, worker);
    }

    method RunTask(task: Task, ghost worker: nat)
      requires 0 < worker && task.gen < |cfg|
      requires Valid(worker) && model.workers[worker] == Worker(task.gen, task.ins, Queued) && numTasks == model.numTasks
      modifies this
      ensures Valid(0) && model.workers[0].phase == Finished && numTasks == model.numTasks
      ensures Work(|cfg|, model) < old(Work(|cfg|, model))
    {
      GenerateAndScheduleNext(task.gen, task.ins, worker);
      numTasks := numTasks - 1;
      EndTask(worker);
      CallerFinished(model, appThreadTasks, ids, worker);
    }

    /** In the model, the end of a task and the end of its count are one step. */
    ghost method EndTask(worker: nat)
      requires Valid(worker) && 0 < worker
      requires || (model.workers[worker].phase == Scanning(|cfg|) && numTasks == model.numTasks - 1)
               || (model.workers[worker].phase == Finished && numTasks == model.numTasks)
      modifies this`model, this`trace
      ensures Valid(worker) && model.workers[worker].phase == Finished && numTasks == model.numTasks
      ensures Work(|cfg|, model) <= old(Work(|cfg|, model))
    {
      if model.workers[worker].phase != Finished {
        var after := EndStep(cfg, skip, base, trace, model, worker);
        OthersKept(model, after, appThreadTasks, ids, worker);
        model, trace := after, trace + [worker];
      }
    }
  }

  /** The generators that a pass does not look at. */
  function Skipped(cfg: Config, nonBase: seq<nat>, initial: bool): (skip: seq<bool>)
    ensures |skip| == |cfg|
    ensures forall i :: 0 <= i < |cfg| ==> (skip[i] <==> !initial && i !in nonBase)
  {
    seq(|cfg|, i => !initial && i !in nonBase)
  }

  /** `p` is what a pass over the generators outside `skip` must give from `base`. */
  ghost predicate IsLeastClosure(cfg: Config, skip: seq<bool>, base: SidePackets, p: SidePackets) {
    && Clean(cfg, skip, base, p)
    && (forall c :: Closed(cfg, skip, base, c) ==> Within(p, c))
    && (forall n :: n in p && n !in base ==> MadeFrom(cfg, skip, p, n))
  }

  predicate MadeFrom(cfg: Config, skip: seq<bool>, p: SidePackets, n: string)
    requires |skip| == |cfg|
  {
    exists i :: 0 <= i < |cfg| && !skip[i] && Runnable(cfg[i], p) && n in cfg[i].outputs
  }

  /** The generators left over, in order. */
  ghost predicate IsLeftOver(cfg: Config, skip: seq<bool>, p: SidePackets, left: seq<nat>)
    requires |skip| == |cfg|
  {
    && (forall k, l :: 0 <= k < l < |left| ==> left[k] < left[l])
    && (forall i :: i in left <==> 0 <= i < |cfg| && !skip[i] && !Runnable(cfg[i], p))
  }

  lemma PassResult(cfg: Config, skip: seq<bool>, base: SidePackets, ws: seq<nat>, r: State)
    requires Succeeds(cfg, skip, base, ws, r)
    ensures IsLeastClosure(cfg, skip, base, r.packets)
    ensures |r.scheduled| == |cfg|
    ensures forall i :: 0 <= i < |cfg| ==> (r.scheduled[i] <==> skip[i] || Runnable(cfg[i], r.packets))
  {
    SuccessIsLeastClosure(cfg, skip, base, ws, r);
    StartHolds(cfg, skip, base);
    RunKeepsInv(cfg, skip, base, Start(skip, base), ws);
    forall n | n in r.packets && n !in base
      ensures MadeFrom(cfg, skip, r.packets, n)
    {
      var w :| IsTask(r, w) && PastRunning(r.workers[w]) && 0 <= r.workers[w].gen < |cfg| && n in cfg[r.workers[w].gen].outputs;
      TaskFacts(cfg, skip, base, r, w);
    }
  }

  /** What a least closure amounts to, in terms of what the generators themselves give. */
  lemma LeastClosureIsWellMade(cfg: Config, skip: seq<bool>, base: SidePackets, p: SidePackets)
    requires IsLeastClosure(cfg, skip, base, p)
    ensures WellMade(cfg, skip, base, p)
  {
    CleanMeansConsistent(cfg, skip, base, p);
    forall n | n in p && n !in base
      ensures exists i: nat :: Runs(cfg, skip, p, i) && n in cfg[i].outputs
    {
      assert MadeFrom(cfg, skip, p, n);
      MadeFromRuns(cfg, skip, p, n);
    }
  }

  lemma MadeFromRuns(cfg: Config, skip: seq<bool>, p: SidePackets, n: string)
    requires |skip| == |cfg| && MadeFrom(cfg, skip, p, n)
    ensures exists i: nat :: Runs(cfg, skip, p, i) && n in cfg[i].outputs
  {
    var i: nat :| i < |cfg| && !skip[i] && Runnable(cfg[i], p) && n in cfg[i].outputs;
    assert Runs(cfg, skip, p, i);
  }

  lemma CleanSetExists(cfg: Config, skip: seq<bool>, base: SidePackets)
    ensures (exists c :: Clean(cfg, skip, base, c)) <==> exists c :: Consistent(cfg, skip, base, c)
    ensures WellTyped(cfg, skip, base) ==> exists c :: Clean(cfg, skip, base, c)
  {
    forall c {
      CleanMeansConsistent(cfg, skip, base, c);
    }
    if WellTyped(cfg, skip, base) {
      var c := WellTypedHasCleanSet(cfg, skip, base);
    }
  }

  /** One pass: it succeeds exactly when a clean map exists, and then returns the least closed one. */
  method ExecuteGenerators(cfg: Config, base: SidePackets, nonBase: seq<nat>, initial: bool)
    returns (ok: bool, packets: SidePackets, left: seq<nat>)
    ensures ok <==> exists c :: Clean(cfg, Skipped(cfg, nonBase, initial), base, c)
    ensures ok ==> IsLeastClosure(cfg, Skipped(cfg, nonBase, initial), base, packets)
    ensures ok ==> IsLeftOver(cfg, Skipped(cfg, nonBase, initial), packets, left)
    ensures ok <==> exists c :: Consistent(cfg, Skipped(cfg, nonBase, initial), base, c)
    ensures ok ==> WellMade(cfg, Skipped(cfg, nonBase, initial), base, packets)
    ensures WellTyped(cfg, Skipped(cfg, nonBase, initial), base) ==> ok
  {
    var skip := Skipped(cfg, nonBase, initial);
    CleanSetExists(cfg, skip, base);
    var scheduler := new GeneratorScheduler(cfg, base, skip);
    scheduler.ExecuteAll();
    packets, left := scheduler.sidePackets, [];
    ghost var ws, r := scheduler.trace, scheduler.model;
    if scheduler.failed {
      forall c | Clean(cfg, skip, base, c)
        ensures false
      {
        CleanMeansSuccess(cfg, skip, base, ws, c);
      }
      return false, packets, left;
    }
    PassResult(cfg, skip, base, ws, r);
    LeastClosureIsWellMade(cfg, skip, base, packets);
    left := LeftOver(cfg, skip, scheduler.scheduledGenerators, packets);
    ok := true;
  }

  method LeftOver(cfg: Config, skip: seq<bool>, scheduled: seq<bool>, ghost p: SidePackets) returns (left: seq<nat>)
    requires |skip| == |cfg| == |scheduled|
    requires forall i :: 0 <= i < |cfg| ==> (scheduled[i] <==> skip[i] || Runnable(cfg[i], p))
    ensures IsLeftOver(cfg, skip, p, left)
  {
    left := [];
    for i := 0 to |scheduled|
      invariant forall k :: 0 <= k < |left| ==> left[k] < i
      invariant forall k, l :: 0 <= k < l < |left| ==> left[k] < left[l]
      invariant forall j :: j in left <==> 0 <= j < i && !scheduled[j]
    {
      if !scheduled[i] {
        left := left + [i];
      }
    }
  }

  lemma TaskTaken(s: State, tasks: seq<Task>, ids: seq<nat>)
    requires TasksQueued(s, tasks, ids, 0) && tasks != [] && s.workers != [] && s.workers[0].phase == Finished
    ensures TasksQueued(s, tasks[1..], ids[1..], ids[0])
  {
    forall w | 0 <= w < |s.workers| && w != ids[0] && w !in ids[1..]
      ensures s.workers[w].phase == Finished
    {
      assert w !in ids;
    }
  }

  predicate OthersSame(s: State, t: State, active: nat) {
    |s.workers| <= |t.workers| && forall w :: 0 <= w < |s.workers| && w != active ==> t.workers[w] == s.workers[w]
  }

  lemma OthersKept(s: State, t: State, tasks: seq<Task>, ids: seq<nat>, active: nat)
    requires TasksQueued(s, tasks, ids, active) && OthersSame(s, t, active)
    ensures |t.workers| == |s.workers| ==> TasksQueued(t, tasks, ids, active)
  {
  }

  lemma TaskAdded(s: State, t: State, tasks: seq<Task>, ids: seq<nat>, active: nat)
    requires TasksQueued(s, tasks, ids, active) && active < |s.workers| && |t.workers| == |s.workers| + 1
    requires OthersSame(s, t, active)
    requires t.workers[|s.workers|].phase == Queued && t.workers[|s.workers|].gen >= 0
    ensures var added := t.workers[|s.workers|];
            TasksQueued(t, tasks + [Task(added.gen, added.ins)], ids + [|s.workers|], active)
  {
  }

  /** The model's step for generator `i`, described by its effect. */
  lemma ScanStep(cfg: Config, skip: seq<bool>, base: SidePackets, ws: seq<nat>, s: State, w: nat, i: nat) returns (t: State)
    requires Follows(cfg, skip, base, ws, s) && |s.scheduled| == |cfg| && w < |s.workers|
    requires i < |cfg| && s.workers[w].phase == Scanning(i)
    ensures Follows(cfg, skip, base, ws + [w], t) && Work(|cfg|, t) < Work(|cfg|, s)
    ensures t.packets == s.packets && |t.scheduled| == |cfg| && OthersSame(s, t, w) && t.workers[w].phase == Scanning(i + 1)
    ensures if !s.scheduled[i] && !Mistyped(cfg[i], s.packets) && Runnable(cfg[i], s.packets) then
              && t.scheduled == s.scheduled[i := true] && t.numTasks == s.numTasks + 1 && |t.workers| == |s.workers| + 1
              && t.workers[|s.workers|] == Worker(i, InputsOf(cfg[i], s.packets), Queued) && t.failed == s.failed
            else
              && t.scheduled == s.scheduled && t.numTasks == s.numTasks && |t.workers| == |s.workers|
              && t.failed == (s.failed || (!s.scheduled[i] && Mistyped(cfg[i], s.packets)))
  {
    StepDoesWork(cfg, s, w);
    FollowsStep(cfg, skip, base, ws, s, w);
    t := Apply(cfg, s, w);
  }

  /** A task begins. */
  lemma StartStep(cfg: Config, skip: seq<bool>, base: SidePackets, ws: seq<nat>, s: State, w: nat) returns (t: State)
    requires Follows(cfg, skip, base, ws, s) && |s.scheduled| == |cfg| && 0 < w < |s.workers|
    requires s.workers[w].phase == Queued && 0 <= s.workers[w].gen < |cfg|
    ensures Follows(cfg, skip, base, ws + [w], t) && Work(|cfg|, t) < Work(|cfg|, s)
    ensures t.packets == s.packets && t.scheduled == s.scheduled && t.failed == s.failed
    ensures OthersSame(s, t, w) && |t.workers| == |s.workers|
    ensures if s.failed then t.workers[w].phase == Finished && t.numTasks == s.numTasks - 1
            else t.workers[w] == s.workers[w].(phase := Running) && t.numTasks == s.numTasks
  {
    StepDoesWork(cfg, s, w);
    FollowsStep(cfg, skip, base, ws, s, w);
    t := Apply(cfg, s, w);
  }

  /** A task adds its outputs. */
  lemma RunStep(cfg: Config, skip: seq<bool>, base: SidePackets, ws: seq<nat>, s: State, w: nat) returns (t: State)
    requires Follows(cfg, skip, base, ws, s) && |s.scheduled| == |cfg| && 0 < w < |s.workers|
    requires s.workers[w].phase == Running && 0 <= s.workers[w].gen < |cfg|
    ensures Follows(cfg, skip, base, ws + [w], t) && Work(|cfg|, t) < Work(|cfg|, s)
    ensures t.scheduled == s.scheduled && OthersSame(s, t, w) && |t.workers| == |s.workers|
    ensures var made := Generate(cfg[s.workers[w].gen], s.workers[w].ins);
            && t.packets == (if made.Some? then made.value + s.packets else s.packets)
            && t.failed == (s.failed || made.None? || Collides(made.value, s.packets))
    ensures if t.failed then t.workers[w].phase == Finished && t.numTasks == s.numTasks - 1
            else t.workers[w].phase == Scanning(0) && t.numTasks == s.numTasks
  {
    StepDoesWork(cfg, s, w);
    FollowsStep(cfg, skip, base, ws, s, w);
    t := Apply(cfg, s, w);
  }

  /** A scan has seen every generator. */
  lemma EndStep(cfg: Config, skip: seq<bool>, base: SidePackets, ws: seq<nat>, s: State, w: nat) returns (t: State)
    requires Follows(cfg, skip, base, ws, s) && |s.scheduled| == |cfg| && w < |s.workers|
    requires s.workers[w].phase == Scanning(|cfg|)
    ensures Follows(cfg, skip, base, ws + [w], t) && Work(|cfg|, t) < Work(|cfg|, s)
    ensures t.packets == s.packets && t.scheduled == s.scheduled && t.failed == s.failed
    ensures OthersSame(s, t, w) && |t.workers| == |s.workers| && t.workers[w].phase == Finished
    ensures t.numTasks == if w == 0 then s.numTasks else s.numTasks - 1
  {
    StepDoesWork(cfg, s, w);
    FollowsStep(cfg, skip, base, ws, s, w);
    t := Apply(cfg, s, w);
  }

  lemma GeneratorInRange(cfg: Config, skip: seq<bool>, base: SidePackets, ws: seq<nat>, s: State, w: nat)
    requires Follows(cfg, skip, base, ws, s) && 0 < w < |s.workers|
    ensures 0 <= s.workers[w].gen < |cfg|
  {
    StartHolds(cfg, skip, base);
    RunKeepsInv(cfg, skip, base, Start(skip, base), ws);
    assert TaskAllowed(cfg, skip, s.scheduled, s.workers[w]);
  }

  /** With a task at an end, the caller is again the only other worker, and it has finished. */
  lemma CallerFinished(s: State, tasks: seq<Task>, ids: seq<nat>, w: nat)
    requires TasksQueued(s, tasks, ids, w) && 0 < w < |s.workers| && s.workers[w].phase == Finished
    ensures TasksQueued(s, tasks, ids, 0) && s.workers[0].phase == Finished
  {
    assert 0 !in ids;
  }

  // ---------------------------------------------------------------- the graph object

  /** What an initial pass leaves: its packets, and the generators it could not run. */
  ghost predicate IsFirstPass(cfg: Config, inputs: SidePackets, p: SidePackets, left: seq<nat>) {
    IsLeastClosure(cfg, All(cfg), inputs, p) && IsLeftOver(cfg, All(cfg), p, left)
  }

  lemma SkippedAreRunnable(cfg: Config, inputs: SidePackets, p: SidePackets, left: seq<nat>)
    requires IsFirstPass(cfg, inputs, p, left)
    ensures forall i :: 0 <= i < |cfg| ==> (Skipped(cfg, left, false)[i] <==> Runnable(cfg[i], p))
    ensures forall n :: n in p && n !in inputs ==> MadeBy(cfg, Skipped(cfg, left, false), n)
  {
    forall n | n in p && n !in inputs
      ensures MadeBy(cfg, Skipped(cfg, left, false), n)
    {
      assert MadeFrom(cfg, All(cfg), p, n);
      var i :| 0 <= i < |cfg| && !All(cfg)[i] && Runnable(cfg[i], p) && n in cfg[i].outputs;
      assert Skipped(cfg, left, false)[i];
    }
  }

  /** If everything together has a clean map, then so has the second pass. */
  lemma SecondPassHasMap(cfg: Config, inputs: SidePackets, extra: SidePackets, p: SidePackets, left: seq<nat>, c: SidePackets)
    requires IsFirstPass(cfg, inputs, p, left) && p.Keys !! extra.Keys && Clean(cfg, All(cfg), inputs + extra, c)
    ensures Clean(cfg, Skipped(cfg, left, false), p + extra, c)
  {
    SkippedAreRunnable(cfg, inputs, p, left);
    BaseWithin(inputs, extra, p, c);
    BaseIsClosed(cfg, inputs, extra, c);
    SecondPassIsClean(cfg, inputs, extra, p, Skipped(cfg, left, false), c);
  }

  /** The second pass completes the first to the least closure of everything. */
  lemma SecondPassCompletes(cfg: Config, inputs: SidePackets, extra: SidePackets, p: SidePackets, left: seq<nat>, q: SidePackets)
    requires IsFirstPass(cfg, inputs, p, left) && p.Keys !! extra.Keys
    requires IsLeastClosure(cfg, Skipped(cfg, left, false), p + extra, q)
    ensures IsLeastClosure(cfg, All(cfg), inputs + extra, q)
  {
    var skip := Skipped(cfg, left, false);
    SkippedAreRunnable(cfg, inputs, p, left);
    TwoPassesAreClean(cfg, inputs, extra, p, skip, q);
    forall c | Closed(cfg, All(cfg), inputs + extra, c)
      ensures Within(q, c)
    {
      BaseWithin(inputs, extra, p, c);
      assert Closed(cfg, All(cfg), inputs, c);
      SecondPassIsClosed(cfg, inputs, extra, p, skip, c);
    }
    forall n | n in q && n !in inputs + extra
      ensures MadeFrom(cfg, All(cfg), q, n)
    {
      SecondPassMakes(cfg, inputs, extra, p, left, q, n);
    }
  }

  lemma SecondPassMakes(cfg: Config, inputs: SidePackets, extra: SidePackets, p: SidePackets, left: seq<nat>, q: SidePackets, n: string)
    requires IsFirstPass(cfg, inputs, p, left) && n in q && n !in inputs + extra
    requires IsLeastClosure(cfg, Skipped(cfg, left, false), p + extra, q)
    ensures MadeFrom(cfg, All(cfg), q, n)
  {
    assert n !in inputs && n !in extra by {
      assert (inputs + extra).Keys == inputs.Keys + extra.Keys;
    }
    if n in p {
      assert MadeFrom(cfg, All(cfg), p, n);
      var i :| 0 <= i < |cfg| && !All(cfg)[i] && Runnable(cfg[i], p) && n in cfg[i].outputs;
      assert Runnable(cfg[i], p + extra);
      RunnableGrows(cfg[i], p + extra, q);
    } else {
      assert n !in p + extra;
      assert MadeFrom(cfg, Skipped(cfg, left, false), q, n);
      var i :| 0 <= i < |cfg| && !Skipped(cfg, left, false)[i] && Runnable(cfg[i], q) && n in cfg[i].outputs;
      assert !All(cfg)[i];
    }
  }

  lemma LeftOverTwice(cfg: Config, inputs: SidePackets, p: SidePackets, left: seq<nat>, q: SidePackets, rest: seq<nat>)
    requires IsFirstPass(cfg, inputs, p, left) && Within(p, q) && IsLeftOver(cfg, Skipped(cfg, left, false), q, rest)
    ensures IsLeftOver(cfg, All(cfg), q, rest)
  {
    SkippedAreRunnable(cfg, inputs, p, left);
    forall i | 0 <= i < |cfg| && Runnable(cfg[i], p)
      ensures Runnable(cfg[i], q)
    {
      RunnableGrows(cfg[i], p, q);
    }
  }

  /** One consumer's claim on a side packet that nobody in the graph produces. */
  datatype Claim = Claim(packetType: ResolvedType, optional: bool)

  /** No packet is both provided and produced inside the graph. */
  predicate CanAcceptSidePackets(produced: set<string>, provided: SidePackets) {
    forall n :: n in produced ==> n !in provided
  }

  /** Required packets are present and of the right type; only optional ones may be missing. */
  predicate RequiredSidePacketsHold(required: map<string, seq<Claim>>, provided: SidePackets) {
    forall n :: n in required ==>
      if n in provided then forall i :: 0 <= i < |required[n]| ==> AcceptsPacket(required[n][i].packetType, provided[n])
      else forall i :: 0 <= i < |required[n]| ==> required[n][i].optional
  }

  /** Each claim is met by the base packets, by the extra ones, or by being optional. */
  predicate ClaimsMet(required: map<string, seq<Claim>>, base: SidePackets, extra: SidePackets) {
    forall n, k :: n in required && 0 <= k < |required[n]| ==>
      if n in extra then AcceptsPacket(required[n][k].packetType, extra[n])
      else if n in base then AcceptsPacket(required[n][k].packetType, base[n])
      else required[n][k].optional
  }

  lemma RequiredMeansClaimsMet(required: map<string, seq<Claim>>, base: SidePackets, extra: SidePackets)
    ensures RequiredSidePacketsHold(required, base + extra) <==> ClaimsMet(required, base, extra)
  {
  }

  class PacketGeneratorGraph {
    const cfg: Config
    const produced: set<string>
    const required: map<string, seq<Claim>>
    var basePackets: SidePackets
    var nonBaseGenerators: seq<nat>
    ghost var inputs: SidePackets

    ghost predicate Valid()
      reads this
    {
      IsFirstPass(cfg, inputs, basePackets, nonBaseGenerators)
    }

    constructor (cfg: Config, produced: set<string>, required: map<string, seq<Claim>>)
      ensures this.cfg == cfg && this.produced == produced && this.required == required
    {
      this.cfg, this.produced, this.required := cfg, produced, required;
      basePackets, nonBaseGenerators, inputs := map[], [], map[];
    }

    method Initialize(inputSidePackets: SidePackets) returns (ok: bool)
      modifies this
      ensures ok <==> produced !! inputSidePackets.Keys && exists c :: Consistent(cfg, All(cfg), inputSidePackets, c)
      ensures ok ==> Valid() && inputs == inputSidePackets && WellMade(cfg, All(cfg), inputs, basePackets)
      ensures produced !! inputSidePackets.Keys && WellTyped(cfg, All(cfg), inputSidePackets) ==> ok
    {
      inputs, basePackets := inputSidePackets, inputSidePackets;
      if !CanAcceptSidePackets(produced, inputSidePackets) {
        return false;
      }
      assert Skipped(cfg, nonBaseGenerators, true) == All(cfg);
      ok, basePackets, nonBaseGenerators := ExecuteGenerators(cfg, inputSidePackets, nonBaseGenerators, true);
    }

    /** One run's packets: as if all the packets had been there from the beginning. */
    method RunGraphSetup(extra: SidePackets) returns (ok: bool, packets: SidePackets, left: seq<nat>)
      requires Valid()
      ensures ok ==> IsFirstPass(cfg, inputs + extra, packets, left)
      ensures ok <==>
                && basePackets.Keys !! extra.Keys && produced !! extra.Keys
                && ClaimsMet(required, basePackets, extra)
                && exists c :: Consistent(cfg, All(cfg), inputs + extra, c)
      ensures ok ==> WellMade(cfg, All(cfg), inputs + extra, packets)
    {
      CleanSetExists(cfg, All(cfg), inputs + extra);
      RequiredMeansClaimsMet(required, basePackets, extra);
      packets, left := basePackets, [];
      if Collides(extra, basePackets) {
        return false, packets, left;
      }
      if !CanAcceptSidePackets(produced, extra) || !RequiredSidePacketsHold(required, basePackets + extra) {
        return false, packets, left;
      }
      ok, packets, left := ExecuteGenerators(cfg, basePackets + extra, nonBaseGenerators, false);
      SecondPassDecides(cfg, inputs, extra, basePackets, nonBaseGenerators, ok, packets, left);
      if ok {
        LeastClosureIsWellMade(cfg, All(cfg), inputs + extra, packets);
      }
    }
  }

  /** What the second pass answers is the answer for everything together. */
  lemma SecondPassDecides(cfg: Config, inputs: SidePackets, extra: SidePackets, p: SidePackets, left: seq<nat>,
                          ok: bool, q: SidePackets, rest: seq<nat>)
    requires IsFirstPass(cfg, inputs, p, left) && p.Keys !! extra.Keys
    requires ok <==> exists c :: Clean(cfg, Skipped(cfg, left, false), p + extra, c)
    requires ok ==> IsLeastClosure(cfg, Skipped(cfg, left, false), p + extra, q) && IsLeftOver(cfg, Skipped(cfg, left, false), q, rest)
    ensures ok <==> exists c :: Clean(cfg, All(cfg), inputs + extra, c)
    ensures ok ==> IsFirstPass(cfg, inputs + extra, q, rest)
  {
    if ok {
      SecondPassCompletes(cfg, inputs, extra, p, left, q);
      MergedWithin(p, extra, q);
      LeftOverTwice(cfg, inputs, p, left, q, rest);
    } else {
      forall c | Clean(cfg, All(cfg), inputs + extra, c)
        ensures false
      {
        SecondPassHasMap(cfg, inputs, extra, p, left, c);
      }
    }
  }

  lemma MergedWithin(p: SidePackets, extra: SidePackets, q: SidePackets)
    requires p.Keys !! extra.Keys && Within(p + extra, q)
    ensures Within(p, q)
  {
    assert forall n :: n in p ==> n in p + extra && (p + extra)[n] == p[n];
  }
}
