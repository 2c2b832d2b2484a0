/**
 Packet generators: each one turns some side packets into others, and they are run by several
 threads as soon as their inputs exist.

 `State` holds what the scheduler's mutex protects, and one worker per thread of control: worker 0
 is the caller's scan over all generators, every other worker is one task. A step is one
 lock-protected region of one worker.
 */
module GeneratorGraph {
  import opened Packets
  import opened PacketTypes

  type SidePackets = map<string, Packet>

  datatype Option<T> = None | Some(value: T)

  datatype Generator = Generator(
    inputs: map<string, ResolvedType>,
    outputs: map<string, ResolvedType>,
    generate: SidePackets -> Option<SidePackets>)

  type Config = seq<Generator>

  function InputsOf(g: Generator, p: SidePackets): SidePackets {
    map n | n in g.inputs && n in p :: p[n]
  }

  predicate Runnable(g: Generator, p: SidePackets) {
    forall n :: n in g.inputs ==> n in p
  }

  /** An input that exists already has the wrong type. */
  predicate Mistyped(g: Generator, p: SidePackets) {
    exists n :: n in g.inputs && n in p && !AcceptsPacket(g.inputs[n], p[n])
  }

  /** Runs a generator and checks the types of what it made. */
  function Generate(g: Generator, ins: SidePackets): (r: Option<SidePackets>)
    ensures r.Some? ==> r.value.Keys == g.outputs.Keys
  {
    match g.generate(ins)
    case None => None
    case Some(outs) =>
      if outs.Keys == g.outputs.Keys && forall n :: n in outs ==> AcceptsPacket(g.outputs[n], outs[n])
      then Some(outs) else None
  }

  predicate Within(a: SidePackets, b: SidePackets) {
    forall n :: n in a ==> n in b && b[n] == a[n]
  }

  predicate Collides(a: SidePackets, b: SidePackets) {
    exists n :: n in a && n in b
  }

  // ---------------------------------------------------------------- the scheduler

  datatype Phase = Queued | Running | Scanning(next: nat) | Finished

  /** Worker 0 runs no generator; its index is -1. */
  datatype Worker = Worker(gen: int, ins: SidePackets, phase: Phase)

  /** The last field is a history: the generators in the order in which they were run. */
  datatype State = State(
    packets: SidePackets,
    scheduled: seq<bool>,
    failed: bool,
    workers: seq<Worker>,
    numTasks: int,
    ran: seq<int>)

  /** `skip` marks the generators that have been run by an earlier pass. */
  function Start(skip: seq<bool>, base: SidePackets): State {
    State(base, skip, false, [Worker(-1, map[], Scanning(0))], 0, [])
  }

  predicate Enabled(cfg: Config, s: State, w: nat) {
    && |s.scheduled| == |cfg| && w < |s.workers|
    && match s.workers[w].phase
       case Finished => false
       case Scanning(_) => true
       case _ => 0 <= s.workers[w].gen < |cfg|
  }

  function WithPhase(s: State, w: nat, phase: Phase): State
    requires w < |s.workers|
  {
    s.(workers := s.workers[w := s.workers[w].(phase := phase)])
  }

  /** The worker has nothing more to do; a task that ends is no longer counted. */
  function Ended(s: State, w: nat): State
    requires w < |s.workers|
  {
    WithPhase(s, w, Finished).(numTasks := if w == 0 then s.numTasks else s.numTasks - 1)
  }

  function Scheduled(cfg: Config, s: State, w: nat, i: nat): State
    requires w < |s.workers| && i < |cfg| == |s.scheduled|
  {
    WithPhase(s, w, Scanning(i + 1)).(
      scheduled := s.scheduled[i := true],
      numTasks := s.numTasks + 1,
      workers := s.workers[w := s.workers[w].(phase := Scanning(i + 1))] + [Worker(i, InputsOf(cfg[i], s.packets), Queued)])
  }

  /** The scan looks at generator `i`. */
  function ScanOne(cfg: Config, s: State, w: nat, i: nat): State
    requires w < |s.workers| && |cfg| == |s.scheduled|
  {
    if i >= |cfg| then Ended(s, w)
    else if s.scheduled[i] then WithPhase(s, w, Scanning(i + 1))
    else if Mistyped(cfg[i], s.packets) then WithPhase(s, w, Scanning(i + 1)).(failed := true)
    else if !Runnable(cfg[i], s.packets) then WithPhase(s, w, Scanning(i + 1))
    else Scheduled(cfg, s, w, i)
  }

  /** A task runs its generator and adds the outputs; packets that exist already stay. */
  function RunOne(cfg: Config, s: State, w: nat): State
    requires w < |s.workers| && 0 <= s.workers[w].gen < |cfg|
  {
    var t := s.(ran := s.ran + [s.workers[w].gen]);
    match Generate(cfg[s.workers[w].gen], s.workers[w].ins)
    case None => Ended(t.(failed := true), w)
    case Some(outs) =>
      if s.failed || Collides(outs, s.packets) then Ended(t.(packets := outs + s.packets, failed := true), w)
      else WithPhase(t.(packets := outs + s.packets), w, Scanning(0))
  }

  function Apply(cfg: Config, s: State, w: nat): State
    requires Enabled(cfg, s, w)
  {
    match s.workers[w].phase
    case Queued => if s.failed then Ended(s, w) else WithPhase(s, w, Running)
    case Running => RunOne(cfg, s, w)
    case Scanning(i) => ScanOne(cfg, s, w, i)
  }

  // ---------------------------------------------------------------- the least closure

  /** Generator `g` asks for nothing that `c` lacks. */
  predicate Satisfied(g: Generator, c: SidePackets) {
    && !Mistyped(g, c)
    && (Runnable(g, c) ==>
          && Generate(g, InputsOf(g, c)).Some?
          && Within(Generate(g, InputsOf(g, c)).value, c))
  }

  predicate Closed(cfg: Config, skip: seq<bool>, base: SidePackets, c: SidePackets) {
    && |skip| == |cfg|
    && Within(base, c)
    && forall i :: 0 <= i < |cfg| && !skip[i] ==> Satisfied(cfg[i], c)
  }

  /** What comes from the generators that can run is made once. */
  predicate MadeOnce(cfg: Config, skip: seq<bool>, base: SidePackets, c: SidePackets) {
    && |skip| == |cfg|
    && (forall i :: 0 <= i < |cfg| && !skip[i] && Runnable(cfg[i], c) ==> cfg[i].outputs.Keys !! base.Keys)
    && (forall i, j :: 0 <= i < j < |cfg| && !skip[i] && !skip[j] && Runnable(cfg[i], c) && Runnable(cfg[j], c)
                       ==> cfg[i].outputs.Keys !! cfg[j].outputs.Keys)
  }

  predicate Clean(cfg: Config, skip: seq<bool>, base: SidePackets, c: SidePackets) {
    Closed(cfg, skip, base, c) && MadeOnce(cfg, skip, base, c)
  }

  // ---------------------------------------------------------------- invariants

  predicate PastRunning(w: Worker) {
    w.phase.Scanning? || w.phase.Finished?
  }

  predicate IsTask(s: State, w: int) {
    0 < w < |s.workers|
  }

  predicate TaskAllowed(cfg: Config, skip: seq<bool>, scheduled: seq<bool>, w: Worker) {
    |scheduled| == |cfg| == |skip| && 0 <= w.gen < |cfg| && !skip[w.gen] && scheduled[w.gen]
  }

  predicate HasTask(s: State, i: int) {
    exists w :: 0 < w < |s.workers| && s.workers[w].gen == i
  }

  /** There is exactly one task for every generator this pass has scheduled. */
  ghost predicate TasksMatch(cfg: Config, skip: seq<bool>, s: State) {
    && |s.scheduled| == |cfg| == |skip|
    && s.workers != [] && s.workers[0].gen == -1 && PastRunning(s.workers[0])
    && (forall w :: 0 < w < |s.workers| ==> TaskAllowed(cfg, skip, s.scheduled, s.workers[w]))
    && (forall v, w :: 0 <= v < w < |s.workers| ==> s.workers[v].gen != s.workers[w].gen)
    && (forall i :: 0 <= i < |cfg| && skip[i] ==> s.scheduled[i])
    && (forall i :: 0 <= i < |cfg| && s.scheduled[i] && !skip[i] ==> HasTask(s, i))
  }

  predicate TaskSound(cfg: Config, p: SidePackets, w: Worker) {
    && 0 <= w.gen < |cfg|
    && w.ins == InputsOf(cfg[w.gen], p) && Runnable(cfg[w.gen], p) && !Mistyped(cfg[w.gen], p)
  }

  /** Inputs taken by a task are the ones that are still there. */
  ghost predicate TasksSound(cfg: Config, s: State) {
    forall w :: IsTask(s, w) ==> TaskSound(cfg, s.packets, s.workers[w])
  }

  predicate TaskDone(cfg: Config, p: SidePackets, w: Worker) {
    && 0 <= w.gen < |cfg|
    && Generate(cfg[w.gen], w.ins).Some? && Within(Generate(cfg[w.gen], w.ins).value, p)
  }

  ghost predicate TasksDone(cfg: Config, s: State) {
    !s.failed ==> forall w :: IsTask(s, w) && PastRunning(s.workers[w]) ==> TaskDone(cfg, s.packets, s.workers[w])
  }

  predicate Waiting(cfg: Config, s: State, i: int) {
    0 <= i < |cfg| == |s.scheduled| && !s.scheduled[i] && (Runnable(cfg[i], s.packets) || Mistyped(cfg[i], s.packets))
  }

  predicate ScanCovers(w: Worker, i: int) {
    w.phase.Scanning? && w.phase.next <= i
  }

  /** Whatever waits to be scheduled lies ahead of some scan. */
  ghost predicate Watched(cfg: Config, s: State) {
    !s.failed ==> forall i :: Waiting(cfg, s, i) ==> exists w :: 0 <= w < |s.workers| && ScanCovers(s.workers[w], i)
  }

  /** Every packet has one origin. */
  ghost predicate Origins(cfg: Config, base: SidePackets, s: State) {
    && Within(base, s.packets)
    && (forall n :: n in s.packets && n !in base ==>
          exists w :: IsTask(s, w) && PastRunning(s.workers[w]) && 0 <= s.workers[w].gen < |cfg| && n in cfg[s.workers[w].gen].outputs)
  }

  ghost predicate OriginsDiffer(cfg: Config, base: SidePackets, s: State) {
    !s.failed ==>
      && (forall w :: IsTask(s, w) && PastRunning(s.workers[w]) && 0 <= s.workers[w].gen < |cfg|
                      ==> cfg[s.workers[w].gen].outputs.Keys !! base.Keys)
      && (forall v, w :: IsTask(s, v) && IsTask(s, w) && v != w && PastRunning(s.workers[v]) && PastRunning(s.workers[w])
                         && 0 <= s.workers[v].gen < |cfg| && 0 <= s.workers[w].gen < |cfg|
                         ==> cfg[s.workers[v].gen].outputs.Keys !! cfg[s.workers[w].gen].outputs.Keys)
  }

  ghost predicate Inv(cfg: Config, skip: seq<bool>, base: SidePackets, s: State) {
    && TasksMatch(cfg, skip, s) && TasksSound(cfg, s) && TasksDone(cfg, s) && Watched(cfg, s)
    && Origins(cfg, base, s) && OriginsDiffer(cfg, base, s)
  }

  lemma StartHolds(cfg: Config, skip: seq<bool>, base: SidePackets)
    requires |skip| == |cfg|
    ensures Inv(cfg, skip, base, Start(skip, base))
  {
    var s := Start(skip, base);
    assert forall i: nat :: ScanCovers(s.workers[0], i);
  }

  // ---------------------------------------------------------------- what a step may do

  /** Worker `w` alone moves on, and at most one task is added. */
  predicate Evolves(cfg: Config, s: State, t: State, w: nat) {
    && w < |s.workers| <= |t.workers| <= |s.workers| + 1
    && (forall v :: 0 <= v < |s.workers| ==> t.workers[v].gen == s.workers[v].gen && t.workers[v].ins == s.workers[v].ins)
    && (forall v :: 0 <= v < |s.workers| && v != w ==> t.workers[v] == s.workers[v])
    && (PastRunning(s.workers[w]) ==> PastRunning(t.workers[w]))
    && (s.failed ==> t.failed)
  }

  predicate Spawns(cfg: Config, s: State, t: State) {
    && |s.workers| <= |t.workers| && |s.scheduled| == |cfg|
    && if |t.workers| == |s.workers| then t.scheduled == s.scheduled
       else
         var added := t.workers[|s.workers|];
         && t.packets == s.packets && added.phase == Queued
         && TaskSound(cfg, s.packets, added) && !s.scheduled[added.gen] && t.scheduled == s.scheduled[added.gen := true]
  }

  /** Packets are added only by a task that has run, and if nothing fails they are all new. */
  predicate Produces(cfg: Config, s: State, t: State, w: nat) {
    && w < |s.workers| && w < |t.workers|
    && Within(s.packets, t.packets)
    && (t.packets != s.packets ==>
          && s.workers[w].phase == Running && PastRunning(t.workers[w]) && 0 <= s.workers[w].gen < |cfg|
          && t.packets.Keys == s.packets.Keys + cfg[s.workers[w].gen].outputs.Keys)
    && (!t.failed && !PastRunning(s.workers[w]) && PastRunning(t.workers[w]) ==>
          && 0 <= s.workers[w].gen < |cfg| && t.workers[w].phase == Scanning(0)
          && s.packets.Keys !! cfg[s.workers[w].gen].outputs.Keys
          && TaskDone(cfg, t.packets, s.workers[w]))
  }

  lemma StepEvolves(cfg: Config, s: State, w: nat)
    requires Enabled(cfg, s, w)
    ensures Evolves(cfg, s, Apply(cfg, s, w), w)
  {
    match s.workers[w].phase
    case Queued =>
    case Running => RunEvolves(cfg, s, w);
    case Scanning(i) => ScanEvolves(cfg, s, w, i);
  }

  lemma RunEvolves(cfg: Config, s: State, w: nat)
    requires w < |s.workers| && 0 <= s.workers[w].gen < |cfg|
    ensures Evolves(cfg, s, RunOne(cfg, s, w), w)
  {
  }

  lemma ScanEvolves(cfg: Config, s: State, w: nat, i: nat)
    requires w < |s.workers| && |cfg| == |s.scheduled| && s.workers[w].phase == Scanning(i)
    ensures Evolves(cfg, s, ScanOne(cfg, s, w, i), w)
  {
  }

  lemma StepSpawns(cfg: Config, s: State, w: nat)
    requires Enabled(cfg, s, w)
    ensures Spawns(cfg, s, Apply(cfg, s, w))
  {
  }

  lemma StepProduces(cfg: Config, s: State, w: nat)
    requires Enabled(cfg, s, w)
    ensures Produces(cfg, s, Apply(cfg, s, w), w)
  {
    var t := Apply(cfg, s, w);
    if s.workers[w].phase == Running && !t.failed {
      var outs := Generate(cfg[s.workers[w].gen], s.workers[w].ins).value;
      assert !Collides(outs, s.packets);
    }
  }

  // ---------------------------------------------------------------- each step keeps the invariant

  lemma StepKeepsMatch(cfg: Config, skip: seq<bool>, s: State, t: State, w: nat)
    requires TasksMatch(cfg, skip, s) && Evolves(cfg, s, t, w) && Spawns(cfg, s, t)
    ensures TasksMatch(cfg, skip, t)
  {
    forall i | 0 <= i < |cfg| && t.scheduled[i] && !skip[i]
      ensures HasTask(t, i)
    {
      TaskStays(s, t, i);
    }
    TasksStayAllowed(cfg, skip, s, t);
  }

  lemma TaskStays(s: State, t: State, i: int)
    requires |s.workers| <= |t.workers| && forall v :: 0 <= v < |s.workers| ==> t.workers[v].gen == s.workers[v].gen
    ensures HasTask(s, i) ==> HasTask(t, i)
  {
    if HasTask(s, i) {
      var v :| 0 < v < |s.workers| && s.workers[v].gen == i;
      assert t.workers[v].gen == i;
    }
  }

  lemma TasksStayAllowed(cfg: Config, skip: seq<bool>, s: State, t: State)
    requires TasksMatch(cfg, skip, s) && Spawns(cfg, s, t) && |t.workers| <= |s.workers| + 1
    requires forall v :: 0 <= v < |s.workers| ==> t.workers[v].gen == s.workers[v].gen
    ensures forall v :: 0 < v < |t.workers| ==> TaskAllowed(cfg, skip, t.scheduled, t.workers[v])
    ensures forall v, w :: 0 <= v < w < |t.workers| ==> t.workers[v].gen != t.workers[w].gen
  {
    forall v | 0 < v < |s.workers|
      ensures TaskAllowed(cfg, skip, t.scheduled, t.workers[v]) && TaskAllowed(cfg, skip, s.scheduled, s.workers[v])
    {
    }
  }

  /** What a task has taken does not change when packets are added. */
  lemma TaskSoundGrows(cfg: Config, p: SidePackets, q: SidePackets, w: Worker)
    requires TaskSound(cfg, p, w) && Within(p, q)
    ensures TaskSound(cfg, q, w)
  {
  }

  lemma StepKeepsSound(cfg: Config, s: State, t: State, w: nat)
    requires TasksSound(cfg, s) && Evolves(cfg, s, t, w) && Spawns(cfg, s, t) && Produces(cfg, s, t, w)
    ensures TasksSound(cfg, t)
  {
    forall v | IsTask(t, v)
      ensures TaskSound(cfg, t.packets, t.workers[v])
    {
      if v < |s.workers| {
        assert IsTask(s, v);
        TaskSoundGrows(cfg, s.packets, t.packets, s.workers[v]);
      }
    }
  }

  lemma StepKeepsDone(cfg: Config, s: State, t: State, w: nat)
    requires TasksDone(cfg, s) && Evolves(cfg, s, t, w) && Spawns(cfg, s, t) && Produces(cfg, s, t, w)
    ensures TasksDone(cfg, t)
  {
    if !t.failed {
      forall v | IsTask(t, v) && PastRunning(t.workers[v])
        ensures TaskDone(cfg, t.packets, t.workers[v])
      {
        assert v < |s.workers| ==> IsTask(s, v);
      }
    }
  }

  lemma StepKeepsWatched(cfg: Config, s: State, w: nat)
    requires Watched(cfg, s) && Enabled(cfg, s, w)
    ensures Watched(cfg, Apply(cfg, s, w))
  {
    var t := Apply(cfg, s, w);
    StepEvolves(cfg, s, w);
    StepSpawns(cfg, s, w);
    StepProduces(cfg, s, w);
    if !t.failed {
      forall i | Waiting(cfg, t, i)
        ensures exists v :: 0 <= v < |t.workers| && ScanCovers(t.workers[v], i)
      {
        if s.workers[w].phase == Running {
          assert ScanCovers(t.workers[w], i);
        } else {
          WaitingStays(cfg, s, w, i);
        }
      }
    }
  }

  /** A scan passes over a generator only if it is not waiting. */
  lemma WaitingStays(cfg: Config, s: State, w: nat, i: int)
    requires Watched(cfg, s) && Enabled(cfg, s, w) && s.workers[w].phase != Running && !Apply(cfg, s, w).failed
    requires Waiting(cfg, Apply(cfg, s, w), i)
    ensures var t := Apply(cfg, s, w); exists v :: 0 <= v < |t.workers| && ScanCovers(t.workers[v], i)
  {
    var t := Apply(cfg, s, w);
    assert Waiting(cfg, s, i);
    var v :| 0 <= v < |s.workers| && ScanCovers(s.workers[v], i);
    assert ScanCovers(t.workers[v], i);
  }

  lemma StepKeepsOrigins(cfg: Config, base: SidePackets, s: State, t: State, w: nat)
    requires s.workers != [] && PastRunning(s.workers[0])
    requires Origins(cfg, base, s) && Evolves(cfg, s, t, w) && Produces(cfg, s, t, w)
    ensures Origins(cfg, base, t)
  {
    forall n | n in t.packets && n !in base
      ensures exists v :: IsTask(t, v) && PastRunning(t.workers[v]) && 0 <= t.workers[v].gen < |cfg| && n in cfg[t.workers[v].gen].outputs
    {
      if n in s.packets {
        var v :| IsTask(s, v) && PastRunning(s.workers[v]) && 0 <= s.workers[v].gen < |cfg| && n in cfg[s.workers[v].gen].outputs;
        assert IsTask(t, v) && PastRunning(t.workers[v]);
      } else {
        assert IsTask(t, w) && PastRunning(t.workers[w]);
      }
    }
  }

  lemma PastTaskMadeItsOutputs(cfg: Config, s: State, v: int)
    requires TasksDone(cfg, s) && !s.failed && IsTask(s, v) && PastRunning(s.workers[v])
    ensures 0 <= s.workers[v].gen < |cfg| && cfg[s.workers[v].gen].outputs.Keys <= s.packets.Keys
  {
    assert TaskDone(cfg, s.packets, s.workers[v]);
  }

  /** A task that has just run, and made only new packets, stays clear of the packets from outside. */
  lemma BaseStaysApart(cfg: Config, base: SidePackets, s: State, t: State, w: nat, v: int)
    requires Within(base, s.packets) && OriginsDiffer(cfg, base, s) && !t.failed
    requires Evolves(cfg, s, t, w) && Spawns(cfg, s, t) && Produces(cfg, s, t, w)
    requires IsTask(t, v) && PastRunning(t.workers[v]) && 0 <= t.workers[v].gen < |cfg|
    ensures IsTask(s, v) && (PastRunning(s.workers[v]) || v == w)
    ensures cfg[t.workers[v].gen].outputs.Keys !! base.Keys
  {
    assert base.Keys <= s.packets.Keys;
  }

  /** And clear of what the other tasks have made. */
  lemma TasksStayApart(cfg: Config, base: SidePackets, s: State, t: State, w: nat, v: int)
    requires TasksDone(cfg, s) && OriginsDiffer(cfg, base, s) && !t.failed
    requires Evolves(cfg, s, t, w) && Produces(cfg, s, t, w)
    requires IsTask(s, v) && v != w && PastRunning(s.workers[v])
    requires IsTask(s, w) && PastRunning(t.workers[w]) && 0 <= t.workers[w].gen < |cfg|
    ensures 0 <= s.workers[v].gen < |cfg|
    ensures cfg[s.workers[v].gen].outputs.Keys !! cfg[t.workers[w].gen].outputs.Keys
  {
    PastTaskMadeItsOutputs(cfg, s, v);
  }

  lemma StepKeepsDiffer(cfg: Config, base: SidePackets, s: State, t: State, w: nat)
    requires TasksDone(cfg, s) && Within(base, s.packets) && OriginsDiffer(cfg, base, s)
    requires Evolves(cfg, s, t, w) && Spawns(cfg, s, t) && Produces(cfg, s, t, w)
    ensures OriginsDiffer(cfg, base, t)
  {
    if !t.failed {
      forall v | IsTask(t, v) && PastRunning(t.workers[v]) && 0 <= t.workers[v].gen < |cfg|
        ensures cfg[t.workers[v].gen].outputs.Keys !! base.Keys
      {
        BaseStaysApart(cfg, base, s, t, w, v);
      }
      forall u, v | IsTask(t, u) && IsTask(t, v) && u != v && PastRunning(t.workers[u]) && PastRunning(t.workers[v])
                    && 0 <= t.workers[u].gen < |cfg| && 0 <= t.workers[v].gen < |cfg|
        ensures cfg[t.workers[u].gen].outputs.Keys !! cfg[t.workers[v].gen].outputs.Keys
      {
        BaseStaysApart(cfg, base, s, t, w, u);
        BaseStaysApart(cfg, base, s, t, w, v);
        if u == w {
          TasksStayApart(cfg, base, s, t, w, v);
        } else if v == w {
          TasksStayApart(cfg, base, s, t, w, u);
        }
      }
    }
  }

  lemma StepKeepsInv(cfg: Config, skip: seq<bool>, base: SidePackets, s: State, w: nat)
    requires Inv(cfg, skip, base, s) && Enabled(cfg, s, w)
    ensures Inv(cfg, skip, base, Apply(cfg, s, w))
  {
    var t := Apply(cfg, s, w);
    StepEvolves(cfg, s, w);
    StepSpawns(cfg, s, w);
    StepProduces(cfg, s, w);
    StepKeepsMatch(cfg, skip, s, t, w);
    StepKeepsSound(cfg, s, t, w);
    StepKeepsDone(cfg, s, t, w);
    StepKeepsWatched(cfg, s, w);
    StepKeepsOrigins(cfg, base, s, t, w);
    StepKeepsDiffer(cfg, base, s, t, w);
  }

  // ---------------------------------------------------------------- runs

  predicate IsRun(cfg: Config, s: State, ws: seq<nat>)
    decreases |ws|
  {
    ws == [] || (Enabled(cfg, s, ws[0]) && IsRun(cfg, Apply(cfg, s, ws[0]), ws[1..]))
  }

  function Run(cfg: Config, s: State, ws: seq<nat>): State
    requires IsRun(cfg, s, ws)
    decreases |ws|
  {
    if ws == [] then s else Run(cfg, Apply(cfg, s, ws[0]), ws[1..])
  }

  predicate AllFinished(s: State) {
    forall w :: 0 <= w < |s.workers| ==> s.workers[w].phase.Finished?
  }

  lemma {:induction false} RunKeepsInv(cfg: Config, skip: seq<bool>, base: SidePackets, s: State, ws: seq<nat>)
    requires Inv(cfg, skip, base, s) && IsRun(cfg, s, ws)
    ensures Inv(cfg, skip, base, Run(cfg, s, ws))
    decreases |ws|
  {
    if ws != [] {
      StepKeepsInv(cfg, skip, base, s, ws[0]);
      RunKeepsInv(cfg, skip, base, Apply(cfg, s, ws[0]), ws[1..]);
    }
  }

  /** A generator gives the same packets on any larger map that extends its inputs. */
  lemma SoundOutputs(cfg: Config, p: SidePackets, w: Worker, c: SidePackets)
    requires TaskSound(cfg, p, w) && Within(p, c) && Satisfied(cfg[w.gen], c)
    ensures Generate(cfg[w.gen], w.ins).Some? && Within(Generate(cfg[w.gen], w.ins).value, c)
  {
    TaskSoundGrows(cfg, p, c, w);
  }

  lemma TaskFacts(cfg: Config, skip: seq<bool>, base: SidePackets, s: State, w: nat)
    requires Inv(cfg, skip, base, s) && w < |s.workers| && (w > 0 || !PastRunning(s.workers[w]))
    ensures IsTask(s, w) && TaskSound(cfg, s.packets, s.workers[w]) && TaskAllowed(cfg, skip, s.scheduled, s.workers[w])
  {
  }

  lemma RunEffect(cfg: Config, s: State, w: nat)
    requires Enabled(cfg, s, w) && s.workers[w].phase == Running
    ensures var made := Generate(cfg[s.workers[w].gen], s.workers[w].ins);
            && Apply(cfg, s, w).packets == (if made.Some? then made.value + s.packets else s.packets)
            && (Apply(cfg, s, w).failed <==> s.failed || made.None? || Collides(made.value, s.packets))
  {
  }

  lemma MergeWithin(a: SidePackets, b: SidePackets, c: SidePackets)
    requires Within(a, c) && Within(b, c)
    ensures Within(a + b, c)
  {
  }

  /** Every packet ever made belongs to every closed map. */
  lemma StepStaysWithin(cfg: Config, skip: seq<bool>, base: SidePackets, s: State, w: nat, c: SidePackets)
    requires Inv(cfg, skip, base, s) && Enabled(cfg, s, w) && Closed(cfg, skip, base, c) && Within(s.packets, c)
    ensures Within(Apply(cfg, s, w).packets, c)
  {
    if s.workers[w].phase == Running {
      TaskFacts(cfg, skip, base, s, w);
      SoundOutputs(cfg, s.packets, s.workers[w], c);
      RunEffect(cfg, s, w);
      MergeWithin(Generate(cfg[s.workers[w].gen], s.workers[w].ins).value, s.packets, c);
    } else {
      StepProduces(cfg, s, w);
    }
  }

  lemma TasksDiffer(cfg: Config, skip: seq<bool>, base: SidePackets, s: State, v: nat, w: nat, c: SidePackets)
    requires Inv(cfg, skip, base, s) && MadeOnce(cfg, skip, base, c) && Within(s.packets, c)
    requires IsTask(s, v) && IsTask(s, w) && v != w
    requires 0 <= s.workers[v].gen < |cfg| && 0 <= s.workers[w].gen < |cfg|
    ensures cfg[s.workers[v].gen].outputs.Keys !! cfg[s.workers[w].gen].outputs.Keys
  {
    TaskFacts(cfg, skip, base, s, v);
    TaskFacts(cfg, skip, base, s, w);
    TaskSoundGrows(cfg, s.packets, c, s.workers[v]);
    TaskSoundGrows(cfg, s.packets, c, s.workers[w]);
    assert s.workers[v].gen != s.workers[w].gen;
  }

  lemma NoCollision(cfg: Config, skip: seq<bool>, base: SidePackets, s: State, w: nat, c: SidePackets)
    requires Inv(cfg, skip, base, s) && MadeOnce(cfg, skip, base, c) && Within(s.packets, c)
    requires w < |s.workers| && s.workers[w].phase == Running && 0 <= s.workers[w].gen < |cfg|
    ensures cfg[s.workers[w].gen].outputs.Keys !! s.packets.Keys
  {
    TaskFacts(cfg, skip, base, s, w);
    TaskSoundGrows(cfg, s.packets, c, s.workers[w]);
    forall v | IsTask(s, v) && PastRunning(s.workers[v]) && 0 <= s.workers[v].gen < |cfg|
      ensures cfg[s.workers[v].gen].outputs.Keys !! cfg[s.workers[w].gen].outputs.Keys
    {
      TasksDiffer(cfg, skip, base, s, v, w, c);
    }
  }

  /** Inside a clean map nothing fails. */
  lemma StepDoesNotFail(cfg: Config, skip: seq<bool>, base: SidePackets, s: State, w: nat, c: SidePackets)
    requires Inv(cfg, skip, base, s) && Enabled(cfg, s, w) && Clean(cfg, skip, base, c) && Within(s.packets, c) && !s.failed
    ensures !Apply(cfg, s, w).failed
  {
    if s.workers[w].phase == Running {
      TaskFacts(cfg, skip, base, s, w);
      SoundOutputs(cfg, s.packets, s.workers[w], c);
      NoCollision(cfg, skip, base, s, w, c);
      RunEffect(cfg, s, w);
    } else if s.workers[w].phase.Scanning? {
      ScanDoesNotFail(cfg, skip, base, s, w, s.workers[w].phase.next, c);
    }
  }

  lemma ScanDoesNotFail(cfg: Config, skip: seq<bool>, base: SidePackets, s: State, w: nat, i: nat, c: SidePackets)
    requires TasksMatch(cfg, skip, s) && w < |s.workers| && Closed(cfg, skip, base, c) && Within(s.packets, c) && !s.failed
    ensures !ScanOne(cfg, s, w, i).failed
  {
    if i < |cfg| && !s.scheduled[i] {
      assert Satisfied(cfg[i], c);
    }
  }

  lemma {:induction false} RunStaysWithin(cfg: Config, skip: seq<bool>, base: SidePackets, s: State, ws: seq<nat>, c: SidePackets)
    requires Inv(cfg, skip, base, s) && IsRun(cfg, s, ws) && Closed(cfg, skip, base, c) && Within(s.packets, c)
    ensures Within(Run(cfg, s, ws).packets, c)
    ensures MadeOnce(cfg, skip, base, c) && !s.failed ==> !Run(cfg, s, ws).failed
    decreases |ws|
  {
    if ws != [] {
      StepKeepsInv(cfg, skip, base, s, ws[0]);
      StepStaysWithin(cfg, skip, base, s, ws[0], c);
      if MadeOnce(cfg, skip, base, c) && !s.failed {
        StepDoesNotFail(cfg, skip, base, s, ws[0], c);
      }
      RunStaysWithin(cfg, skip, base, Apply(cfg, s, ws[0]), ws[1..], c);
    }
  }

  // ---------------------------------------------------------------- finished passes

  /** A pass over the generators that are not skipped has ended without error. */
  ghost predicate Succeeds(cfg: Config, skip: seq<bool>, base: SidePackets, ws: seq<nat>, r: State) {
    && |skip| == |cfg| && IsRun(cfg, Start(skip, base), ws) && r == Run(cfg, Start(skip, base), ws)
    && AllFinished(r) && !r.failed
  }

  lemma ScheduledIffRunnable(cfg: Config, skip: seq<bool>, base: SidePackets, s: State, i: nat)
    requires Inv(cfg, skip, base, s) && AllFinished(s) && !s.failed && i < |cfg| && !skip[i]
    ensures s.scheduled[i] <==> Runnable(cfg[i], s.packets)
    ensures Satisfied(cfg[i], s.packets)
    ensures s.scheduled[i] ==> exists w :: IsTask(s, w) && s.workers[w].gen == i && PastRunning(s.workers[w])
  {
    if s.scheduled[i] {
      assert HasTask(s, i);
      var w :| 0 < w < |s.workers| && s.workers[w].gen == i;
      assert IsTask(s, w) && TaskSound(cfg, s.packets, s.workers[w]) && TaskDone(cfg, s.packets, s.workers[w]);
    } else {
      assert forall w :: 0 <= w < |s.workers| ==> !ScanCovers(s.workers[w], i);
      assert !Waiting(cfg, s, i);
    }
  }

  lemma FinishedMadeOnce(cfg: Config, skip: seq<bool>, base: SidePackets, s: State)
    requires Inv(cfg, skip, base, s) && AllFinished(s) && !s.failed
    ensures MadeOnce(cfg, skip, base, s.packets)
  {
    forall i | 0 <= i < |cfg| && !skip[i] && Runnable(cfg[i], s.packets)
      ensures cfg[i].outputs.Keys !! base.Keys
    {
      ScheduledIffRunnable(cfg, skip, base, s, i);
    }
    forall i, j | 0 <= i < j < |cfg| && !skip[i] && !skip[j] && Runnable(cfg[i], s.packets) && Runnable(cfg[j], s.packets)
      ensures cfg[i].outputs.Keys !! cfg[j].outputs.Keys
    {
      ScheduledIffRunnable(cfg, skip, base, s, i);
      ScheduledIffRunnable(cfg, skip, base, s, j);
      OutputsDiffer(cfg, base, s, i, j);
    }
  }

  lemma OutputsDiffer(cfg: Config, base: SidePackets, s: State, i: nat, j: nat)
    requires OriginsDiffer(cfg, base, s) && !s.failed && i < |cfg| && j < |cfg| && i != j
    requires exists w :: IsTask(s, w) && s.workers[w].gen == i && PastRunning(s.workers[w])
    requires exists w :: IsTask(s, w) && s.workers[w].gen == j && PastRunning(s.workers[w])
    ensures cfg[i].outputs.Keys !! cfg[j].outputs.Keys
  {
    var v :| IsTask(s, v) && s.workers[v].gen == i && PastRunning(s.workers[v]);
    var w :| IsTask(s, w) && s.workers[w].gen == j && PastRunning(s.workers[w]);
  }

  /** A pass that succeeds ends in the least closed map, whose packets were each made once. */
  lemma SuccessIsLeastClosure(cfg: Config, skip: seq<bool>, base: SidePackets, ws: seq<nat>, r: State)
    requires Succeeds(cfg, skip, base, ws, r)
    ensures Clean(cfg, skip, base, r.packets)
    ensures forall c :: Closed(cfg, skip, base, c) ==> Within(r.packets, c)
    ensures |r.scheduled| == |cfg|
    ensures forall i :: 0 <= i < |cfg| && !skip[i] ==> (r.scheduled[i] <==> Runnable(cfg[i], r.packets))
  {
    var s := Start(skip, base);
    StartHolds(cfg, skip, base);
    RunKeepsInv(cfg, skip, base, s, ws);
    FinishedMadeOnce(cfg, skip, base, r);
    forall i | 0 <= i < |cfg| && !skip[i]
      ensures Satisfied(cfg[i], r.packets) && (r.scheduled[i] <==> Runnable(cfg[i], r.packets))
    {
      ScheduledIffRunnable(cfg, skip, base, r, i);
    }
    forall c | Closed(cfg, skip, base, c)
      ensures Within(r.packets, c)
    {
      RunStaysWithin(cfg, skip, base, s, ws, c);
    }
  }

  /** If any clean map exists then every order of steps succeeds. */
  lemma CleanMeansSuccess(cfg: Config, skip: seq<bool>, base: SidePackets, ws: seq<nat>, c: SidePackets)
    requires Clean(cfg, skip, base, c) && IsRun(cfg, Start(skip, base), ws)
    ensures !Run(cfg, Start(skip, base), ws).failed
    ensures Within(Run(cfg, Start(skip, base), ws).packets, c)
  {
    StartHolds(cfg, skip, base);
    RunStaysWithin(cfg, skip, base, Start(skip, base), ws, c);
  }

  lemma WithinBothWays(a: SidePackets, b: SidePackets)
    requires Within(a, b) && Within(b, a)
    ensures a == b
  {
  }

  lemma SkippedStayScheduled(cfg: Config, skip: seq<bool>, base: SidePackets, ws: seq<nat>, i: nat)
    requires |skip| == |cfg| && IsRun(cfg, Start(skip, base), ws) && i < |cfg|
    ensures |Run(cfg, Start(skip, base), ws).scheduled| == |cfg|
    ensures skip[i] ==> Run(cfg, Start(skip, base), ws).scheduled[i]
  {
    StartHolds(cfg, skip, base);
    RunKeepsInv(cfg, skip, base, Start(skip, base), ws);
  }

  /** The order in which threads take their steps decides neither success nor the result. */
  lemma Confluence(cfg: Config, skip: seq<bool>, base: SidePackets, ws: seq<nat>, r: State, vs: seq<nat>)
    requires Succeeds(cfg, skip, base, ws, r)
    requires IsRun(cfg, Start(skip, base), vs) && AllFinished(Run(cfg, Start(skip, base), vs))
    ensures var q := Run(cfg, Start(skip, base), vs);
            !q.failed && q.packets == r.packets && q.scheduled == r.scheduled
  {
    var q := Run(cfg, Start(skip, base), vs);
    SuccessIsLeastClosure(cfg, skip, base, ws, r);
    CleanMeansSuccess(cfg, skip, base, vs, r.packets);
    SuccessIsLeastClosure(cfg, skip, base, vs, q);
    WithinBothWays(r.packets, q.packets);
    forall i | 0 <= i < |cfg|
      ensures |q.scheduled| == |r.scheduled| == |cfg| && q.scheduled[i] == r.scheduled[i]
    {
      SkippedStayScheduled(cfg, skip, base, ws, i);
      SkippedStayScheduled(cfg, skip, base, vs, i);
    }
    if |cfg| == 0 {
      StartHolds(cfg, skip, base);
      RunKeepsInv(cfg, skip, base, Start(skip, base), ws);
      RunKeepsInv(cfg, skip, base, Start(skip, base), vs);
    }
  }

  // ---------------------------------------------------------------- two passes

  /** The generators a first pass over everything leaves to the second one. */
  function All(cfg: Config): (skip: seq<bool>)
    ensures |skip| == |cfg| && forall i :: 0 <= i < |cfg| ==> !skip[i]
  {
    seq(|cfg|, _ => false)
  }

  lemma FirstPassOutputs(cfg: Config, p: SidePackets, q: SidePackets, i: nat)
    requires i < |cfg| && Satisfied(cfg[i], p) && Runnable(cfg[i], p) && Within(p, q)
    ensures Satisfied(cfg[i], q) && cfg[i].outputs.Keys <= p.Keys
  {
    var made := Generate(cfg[i], InputsOf(cfg[i], p));
    assert InputsOf(cfg[i], p) == InputsOf(cfg[i], q);
    assert made.value.Keys <= p.Keys;
  }

  /**
   Running everything on the first packets and then the rest with extra packets ends in a clean map
   for all the packets together, and in the least closed one.
   */
  lemma TwoPassesAreClean(cfg: Config, base: SidePackets, extra: SidePackets, p: SidePackets, skip: seq<bool>, q: SidePackets)
    requires |skip| == |cfg| && forall i :: 0 <= i < |cfg| ==> (skip[i] <==> Runnable(cfg[i], p))
    requires Clean(cfg, All(cfg), base, p) && Clean(cfg, skip, p + extra, q) && p.Keys !! extra.Keys
    ensures Clean(cfg, All(cfg), base + extra, q)
  {
    assert Within(p, p + extra);
    forall i | 0 <= i < |cfg|
      ensures Satisfied(cfg[i], q)
      ensures skip[i] ==> cfg[i].outputs.Keys <= p.Keys
    {
      if skip[i] {
        FirstPassOutputs(cfg, p, q, i);
      }
    }
    forall i | 0 <= i < |cfg| && Runnable(cfg[i], q)
      ensures cfg[i].outputs.Keys !! (base + extra).Keys
    {
      assert base.Keys <= p.Keys <= (p + extra).Keys;
    }
  }

  lemma SecondPassIsClosed(cfg: Config, base: SidePackets, extra: SidePackets, p: SidePackets, skip: seq<bool>, c: SidePackets)
    requires |skip| == |cfg| && p.Keys !! extra.Keys && base.Keys !! extra.Keys
    requires Closed(cfg, All(cfg), base + extra, c) && Within(p, c)
    ensures Closed(cfg, skip, p + extra, c)
  {
    assert forall n :: n in extra ==> n in base + extra && (base + extra)[n] == extra[n];
  }

  lemma BaseIsClosed(cfg: Config, base: SidePackets, extra: SidePackets, c: SidePackets)
    requires base.Keys !! extra.Keys && Clean(cfg, All(cfg), base + extra, c)
    ensures Clean(cfg, All(cfg), base, c)
  {
    assert forall n :: n in base ==> n in base + extra && (base + extra)[n] == base[n];
    assert base.Keys <= (base + extra).Keys;
  }

  predicate MadeBy(cfg: Config, skip: seq<bool>, n: string)
    requires |skip| == |cfg|
  {
    exists i :: 0 <= i < |cfg| && skip[i] && n in cfg[i].outputs
  }

  /** What the first pass has made comes neither from outside nor from the second pass. */
  lemma FirstPassIsApart(cfg: Config, base: SidePackets, extra: SidePackets, p: SidePackets, skip: seq<bool>, c: SidePackets, n: string)
    requires |skip| == |cfg| && forall i :: 0 <= i < |cfg| ==> (skip[i] <==> Runnable(cfg[i], p))
    requires base.Keys !! extra.Keys && MadeOnce(cfg, All(cfg), base + extra, c) && Within(p, c)
    requires n in p && (n !in base ==> MadeBy(cfg, skip, n))
    ensures n !in extra
    ensures forall j :: 0 <= j < |cfg| && !skip[j] && Runnable(cfg[j], c) ==> n !in cfg[j].outputs
  {
    assert n in base || n in extra ==> n in (base + extra).Keys;
    if n !in base {
      var i :| 0 <= i < |cfg| && skip[i] && n in cfg[i].outputs;
      RunnableGrows(cfg[i], p, c);
    }
  }

  /** A clean map for all the packets is clean for the second pass. */
  lemma SecondPassIsClean(cfg: Config, base: SidePackets, extra: SidePackets, p: SidePackets, skip: seq<bool>, c: SidePackets)
    requires |skip| == |cfg| && forall i :: 0 <= i < |cfg| ==> (skip[i] <==> Runnable(cfg[i], p))
    requires base.Keys !! extra.Keys && Clean(cfg, All(cfg), base + extra, c) && Within(p, c)
    requires forall n :: n in p && n !in base ==> MadeBy(cfg, skip, n)
    ensures p.Keys !! extra.Keys && Clean(cfg, skip, p + extra, c)
  {
    forall n | n in p
      ensures n !in extra
      ensures forall j :: 0 <= j < |cfg| && !skip[j] && Runnable(cfg[j], c) ==> n !in cfg[j].outputs
    {
      FirstPassIsApart(cfg, base, extra, p, skip, c, n);
    }
    assert forall n :: n in extra ==> n in (base + extra).Keys;
    SecondPassIsClosed(cfg, base, extra, p, skip, c);
  }

  lemma FirstPassMakes(cfg: Config, base: SidePackets, s: State)
    requires Inv(cfg, All(cfg), base, s)
    ensures forall n :: n in s.packets && n !in base ==> MadeBy(cfg, s.scheduled, n)
  {
    forall n | n in s.packets && n !in base
      ensures MadeBy(cfg, s.scheduled, n)
    {
      var w :| IsTask(s, w) && PastRunning(s.workers[w]) && 0 <= s.workers[w].gen < |cfg| && n in cfg[s.workers[w].gen].outputs;
      TaskFacts(cfg, All(cfg), base, s, w);
    }
  }

  /** A second pass over what the first one left gives what one pass over everything gives. */
  lemma TwoPassesAreOne(cfg: Config, base: SidePackets, extra: SidePackets,
                        us: seq<nat>, first: State, vs: seq<nat>, second: State, ws: seq<nat>, once: State)
    requires Succeeds(cfg, All(cfg), base, us, first)
    requires first.packets.Keys !! extra.Keys
    requires Succeeds(cfg, first.scheduled, first.packets + extra, vs, second)
    requires IsRun(cfg, Start(All(cfg), base + extra), ws) && once == Run(cfg, Start(All(cfg), base + extra), ws) && AllFinished(once)
    ensures !once.failed && once.packets == second.packets && once.scheduled == second.scheduled
  {
    var p, q := first.packets, second.packets;
    SuccessIsLeastClosure(cfg, All(cfg), base, us, first);
    SuccessIsLeastClosure(cfg, first.scheduled, p + extra, vs, second);
    TwoPassesAreClean(cfg, base, extra, p, first.scheduled, q);
    CleanMeansSuccess(cfg, All(cfg), base + extra, ws, q);
    SuccessIsLeastClosure(cfg, All(cfg), base + extra, ws, once);
    BaseWithin(base, extra, p, once.packets);
    SecondPassIsClosed(cfg, base, extra, p, first.scheduled, once.packets);
    WithinBothWays(q, once.packets);
    forall i | 0 <= i < |cfg|
      ensures second.scheduled[i] == once.scheduled[i]
    {
      SkippedStayScheduled(cfg, first.scheduled, p + extra, vs, i);
      if first.scheduled[i] {
        RunnableGrows(cfg[i], p, q);
      }
    }
  }

  lemma BaseWithin(base: SidePackets, extra: SidePackets, p: SidePackets, c: SidePackets)
    requires Within(base, p) && p.Keys !! extra.Keys && Within(base + extra, c)
    ensures Within(base, c) && base.Keys !! extra.Keys
  {
    assert forall n :: n in base ==> n in p;
    assert forall n :: n in base ==> n in base + extra && (base + extra)[n] == base[n];
  }

  /** And whenever one pass over everything succeeds, so do the two. */
  lemma OnePassMeansTwo(cfg: Config, base: SidePackets, extra: SidePackets,
                        ws: seq<nat>, once: State, us: seq<nat>, first: State, vs: seq<nat>)
    requires base.Keys !! extra.Keys && Succeeds(cfg, All(cfg), base + extra, ws, once)
    requires IsRun(cfg, Start(All(cfg), base), us) && first == Run(cfg, Start(All(cfg), base), us) && AllFinished(first)
    requires |first.scheduled| == |cfg| && IsRun(cfg, Start(first.scheduled, first.packets + extra), vs)
    ensures Succeeds(cfg, All(cfg), base, us, first)
    ensures first.packets.Keys !! extra.Keys
    ensures !Run(cfg, Start(first.scheduled, first.packets + extra), vs).failed
  {
    var c := once.packets;
    SuccessIsLeastClosure(cfg, All(cfg), base + extra, ws, once);
    BaseIsClosed(cfg, base, extra, c);
    CleanMeansSuccess(cfg, All(cfg), base, us, c);
    SuccessIsLeastClosure(cfg, All(cfg), base, us, first);
    StartHolds(cfg, All(cfg), base);
    RunKeepsInv(cfg, All(cfg), base, Start(All(cfg), base), us);
    FirstPassMakes(cfg, base, first);
    SecondPassIsClean(cfg, base, extra, first.packets, first.scheduled, c);
    CleanMeansSuccess(cfg, first.scheduled, first.packets + extra, vs, c);
  }

  lemma RunnableGrows(g: Generator, p: SidePackets, c: SidePackets)
    requires Within(p, c) && Runnable(g, p)
    ensures Runnable(g, c)
  {
  }
}
