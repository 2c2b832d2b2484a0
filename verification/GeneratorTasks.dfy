/** Bookkeeping of a pass over the generators: how many tasks are pending, which have run, how long it can last. */
module GeneratorTasks {
  import opened Sums
  import opened GeneratorGraph

  // ---------------------------------------------------------------- pending tasks

  function Busy(w: Worker): nat {
    if w.phase.Finished? then 0 else 1
  }

  /** The counter is the number of tasks that have been handed out and not ended. */
  predicate Counted(s: State) {
    s.workers != [] && s.numTasks + Busy(s.workers[0]) == Sum(s.workers, Busy)
  }

  /** A step changes one summand and adds at most one. */
  lemma SumAfter(cfg: Config, s: State, t: State, w: nat, f: Worker -> nat)
    requires Evolves(cfg, s, t, w)
    ensures Sum(t.workers, f) + f(s.workers[w]) ==
            Sum(s.workers, f) + f(t.workers[w]) + if |t.workers| > |s.workers| then f(t.workers[|s.workers|]) else 0
  {
    var moved := t.workers[w];
    SumUpdate(s.workers, w, moved, f);
    OneMoved(s.workers, t.workers, w);
    if |t.workers| > |s.workers| {
      SumAppend(s.workers[w := moved], t.workers[|s.workers|], f);
    }
  }

  lemma OneMoved(a: seq<Worker>, b: seq<Worker>, w: nat)
    requires w < |a| <= |b| <= |a| + 1 && forall v :: 0 <= v < |a| && v != w ==> b[v] == a[v]
    ensures b == a[w := b[w]] + if |b| > |a| then [b[|a|]] else []
    ensures |b| == |a| ==> b == a[w := b[w]]
  {
  }

  lemma CountEffect(cfg: Config, s: State, w: nat)
    requires Enabled(cfg, s, w)
    ensures var t := Apply(cfg, s, w);
            && |t.workers| >= |s.workers| && !s.workers[w].phase.Finished?
            && t.numTasks == s.numTasks + (|t.workers| - |s.workers|)
                             - (if w != 0 && t.workers[w].phase.Finished? then 1 else 0)
  {
    if s.workers[w].phase.Scanning? {
      ScanCountEffect(cfg, s, w, s.workers[w].phase.next);
    }
  }

  lemma ScanCountEffect(cfg: Config, s: State, w: nat, i: nat)
    requires w < |s.workers| && |cfg| == |s.scheduled|
    ensures var t := ScanOne(cfg, s, w, i);
            && |t.workers| >= |s.workers|
            && t.numTasks == s.numTasks + (|t.workers| - |s.workers|)
                             - (if w != 0 && t.workers[w].phase.Finished? then 1 else 0)
  {
  }

  lemma StepKeepsCount(cfg: Config, s: State, w: nat)
    requires Counted(s) && Enabled(cfg, s, w)
    ensures Counted(Apply(cfg, s, w))
  {
    var t := Apply(cfg, s, w);
    StepEvolves(cfg, s, w);
    StepSpawns(cfg, s, w);
    CountEffect(cfg, s, w);
    CountStays(cfg, s, t, w);
  }

  lemma CountStays(cfg: Config, s: State, t: State, w: nat)
    requires Counted(s) && Evolves(cfg, s, t, w) && Spawns(cfg, s, t) && !s.workers[w].phase.Finished?
    requires t.numTasks == s.numTasks + (|t.workers| - |s.workers|)
                           - (if w != 0 && t.workers[w].phase.Finished? then 1 else 0)
    ensures Counted(t)
  {
    SumAfter(cfg, s, t, w, Busy);
  }

  /** When the caller has ended its scan and the counter is zero, nobody is at work any more. */
  lemma IdleMeansFinished(s: State)
    requires Counted(s)
    ensures s.numTasks >= 0
    ensures s.numTasks == 0 && s.workers[0].phase.Finished? <==> AllFinished(s)
  {
    SumUpdate(s.workers, 0, s.workers[0].(phase := Finished), Busy);
    SumIsZero(s.workers, Busy);
    assert forall i :: 0 <= i < |s.workers| ==> (Busy(s.workers[i]) == 0 <==> s.workers[i].phase.Finished?);
  }

  // ---------------------------------------------------------------- each generator at most once

  predicate HasRun(s: State, g: int) {
    exists w :: 0 < w < |s.workers| && s.workers[w].gen == g && PastRunning(s.workers[w])
  }

  ghost predicate RanOnce(s: State) {
    && (forall i, j :: 0 <= i < j < |s.ran| ==> s.ran[i] != s.ran[j])
    && (forall i :: 0 <= i < |s.ran| ==> HasRun(s, s.ran[i]))
    && (!s.failed ==> forall w :: 0 < w < |s.workers| && PastRunning(s.workers[w]) ==> s.workers[w].gen in s.ran)
  }

  lemma HasRunStays(cfg: Config, s: State, t: State, w: nat, g: int)
    requires Evolves(cfg, s, t, w) && HasRun(s, g)
    ensures HasRun(t, g)
  {
    var v :| 0 < v < |s.workers| && s.workers[v].gen == g && PastRunning(s.workers[v]);
    assert t.workers[v].gen == g && PastRunning(t.workers[v]);
  }

  lemma RanEffect(cfg: Config, s: State, w: nat)
    requires Enabled(cfg, s, w)
    ensures Apply(cfg, s, w).ran == if s.workers[w].phase == Running then s.ran + [s.workers[w].gen] else s.ran
    ensures s.workers[w].phase == Running ==> PastRunning(Apply(cfg, s, w).workers[w])
    ensures s.workers[w].phase == Queued && !Apply(cfg, s, w).failed ==> !PastRunning(Apply(cfg, s, w).workers[w])
  {
  }

  lemma NotYetRun(cfg: Config, skip: seq<bool>, s: State, w: nat)
    requires TasksMatch(cfg, skip, s) && w < |s.workers| && !PastRunning(s.workers[w])
    ensures !HasRun(s, s.workers[w].gen)
  {
  }

  lemma StepKeepsRanOnce(cfg: Config, skip: seq<bool>, s: State, w: nat)
    requires TasksMatch(cfg, skip, s) && RanOnce(s) && Enabled(cfg, s, w)
    ensures RanOnce(Apply(cfg, s, w))
  {
    var t := Apply(cfg, s, w);
    StepEvolves(cfg, s, w);
    StepSpawns(cfg, s, w);
    RanEffect(cfg, s, w);
    RanStaysDistinct(cfg, skip, s, t, w);
    PastMeansRan(cfg, s, t, w);
  }

  lemma RanStaysDistinct(cfg: Config, skip: seq<bool>, s: State, t: State, w: nat)
    requires TasksMatch(cfg, skip, s) && RanOnce(s) && Evolves(cfg, s, t, w)
    requires t.ran == if s.workers[w].phase == Running then s.ran + [s.workers[w].gen] else s.ran
    requires s.workers[w].phase == Running ==> PastRunning(t.workers[w])
    ensures forall i, j :: 0 <= i < j < |t.ran| ==> t.ran[i] != t.ran[j]
    ensures forall i :: 0 <= i < |t.ran| ==> HasRun(t, t.ran[i])
  {
    forall i | 0 <= i < |s.ran|
      ensures HasRun(t, s.ran[i])
    {
      HasRunStays(cfg, s, t, w, s.ran[i]);
    }
    if s.workers[w].phase == Running {
      NotYetRun(cfg, skip, s, w);
      NotIn(s, s.workers[w].gen);
      RunIsRecorded(cfg, s, t, w);
      OneMoreDistinct(s.ran, s.workers[w].gen);
      OneMoreHasRun(t, s.ran, s.workers[w].gen);
    }
  }

  lemma NotIn(s: State, g: int)
    requires RanOnce(s) && !HasRun(s, g)
    ensures forall i :: 0 <= i < |s.ran| ==> s.ran[i] != g
  {
  }

  lemma OneMoreHasRun(t: State, xs: seq<int>, x: int)
    requires HasRun(t, x) && forall i :: 0 <= i < |xs| ==> HasRun(t, xs[i])
    ensures forall i :: 0 <= i < |xs + [x]| ==> HasRun(t, (xs + [x])[i])
  {
  }

  lemma RunIsRecorded(cfg: Config, s: State, t: State, w: nat)
    requires Evolves(cfg, s, t, w) && w > 0 && PastRunning(t.workers[w])
    ensures HasRun(t, s.workers[w].gen)
  {
    assert t.workers[w].gen == s.workers[w].gen;
  }

  lemma OneMoreDistinct(xs: seq<int>, x: int)
    requires forall i, j :: 0 <= i < j < |xs| ==> xs[i] != xs[j]
    requires forall i :: 0 <= i < |xs| ==> xs[i] != x
    ensures forall i, j :: 0 <= i < j < |xs + [x]| ==> (xs + [x])[i] != (xs + [x])[j]
  {
  }

  lemma PastMeansRan(cfg: Config, s: State, t: State, w: nat)
    requires RanOnce(s) && Evolves(cfg, s, t, w) && Spawns(cfg, s, t)
    requires t.ran == if s.workers[w].phase == Running then s.ran + [s.workers[w].gen] else s.ran
    requires s.workers[w].phase == Queued && !t.failed ==> !PastRunning(t.workers[w])
    ensures !t.failed ==> forall v :: 0 < v < |t.workers| && PastRunning(t.workers[v]) ==> t.workers[v].gen in t.ran
  {
    if !t.failed {
      forall v | 0 < v < |t.workers| && PastRunning(t.workers[v])
        ensures t.workers[v].gen in t.ran
      {
        PastTaskRan(cfg, s, t, w, v);
      }
    }
  }

  lemma PastTaskRan(cfg: Config, s: State, t: State, w: nat, v: nat)
    requires RanOnce(s) && !t.failed && Evolves(cfg, s, t, w) && Spawns(cfg, s, t)
    requires t.ran == if s.workers[w].phase == Running then s.ran + [s.workers[w].gen] else s.ran
    requires s.workers[w].phase == Queued ==> !PastRunning(t.workers[w])
    requires 0 < v < |t.workers| && PastRunning(t.workers[v])
    ensures t.workers[v].gen in t.ran
  {
    if v == w && s.workers[w].phase == Running {
      LastIsIn(s.ran, s.workers[w].gen);
    } else {
      assert v < |s.workers| && s.workers[v].gen in s.ran;
    }
  }

  lemma LastIsIn(xs: seq<int>, x: int)
    ensures x in xs + [x]
  {
    assert (xs + [x])[|xs|] == x;
  }

  // ---------------------------------------------------------------- every pass ends

  function Weight(n: nat, w: Worker): nat {
    match w.phase
    case Queued => n + 4
    case Running => n + 3
    case Scanning(i) => if i <= n then n - i + 1 else 1
    case Finished => 0
  }

  function Left(n: nat, scheduled: bool): nat {
    if scheduled then 0 else n + 5
  }

  function Work(n: nat, s: State): nat {
    Sum(s.workers, w => Weight(n, w)) + Sum(s.scheduled, b => Left(n, b))
  }

  lemma WeightFalls(cfg: Config, s: State, w: nat)
    requires Enabled(cfg, s, w)
    requires s.workers[w].phase.Scanning? ==> s.workers[w].phase.next <= |cfg|
    ensures Weight(|cfg|, Apply(cfg, s, w).workers[w]) < Weight(|cfg|, s.workers[w])
  {
  }

  lemma StepDoesWork(cfg: Config, s: State, w: nat)
    requires Enabled(cfg, s, w)
    requires s.workers[w].phase.Scanning? ==> s.workers[w].phase.next <= |cfg|
    ensures Work(|cfg|, Apply(cfg, s, w)) < Work(|cfg|, s)
  {
    StepEvolves(cfg, s, w);
    StepSpawns(cfg, s, w);
    WeightFalls(cfg, s, w);
    WorkFalls(cfg, s, Apply(cfg, s, w), w);
  }

  lemma WorkFalls(cfg: Config, s: State, t: State, w: nat)
    requires Evolves(cfg, s, t, w) && Spawns(cfg, s, t) && Weight(|cfg|, t.workers[w]) < Weight(|cfg|, s.workers[w])
    ensures Work(|cfg|, t) < Work(|cfg|, s)
  {
    SumAfter(cfg, s, t, w, x => Weight(|cfg|, x));
    if |t.workers| > |s.workers| {
      SumUpdate(s.scheduled, t.workers[|s.workers|].gen, true, b => Left(|cfg|, b));
    }
  }

  // ---------------------------------------------------------------- runs

  predicate ScansInRange(cfg: Config, s: State) {
    forall w :: 0 <= w < |s.workers| && s.workers[w].phase.Scanning? ==> s.workers[w].phase.next <= |cfg|
  }

  lemma StepKeepsScans(cfg: Config, s: State, w: nat)
    requires ScansInRange(cfg, s) && Enabled(cfg, s, w)
    ensures ScansInRange(cfg, Apply(cfg, s, w))
  {
    StepEvolves(cfg, s, w);
    StepSpawns(cfg, s, w);
  }

  lemma {:induction false} RunIsBooked(cfg: Config, skip: seq<bool>, s: State, ws: seq<nat>)
    requires TasksMatch(cfg, skip, s) && Counted(s) && RanOnce(s) && ScansInRange(cfg, s) && IsRun(cfg, s, ws)
    ensures Counted(Run(cfg, s, ws)) && RanOnce(Run(cfg, s, ws)) && ScansInRange(cfg, Run(cfg, s, ws))
    ensures |ws| + Work(|cfg|, Run(cfg, s, ws)) <= Work(|cfg|, s)
    decreases |ws|
  {
    if ws != [] {
      var t := Apply(cfg, s, ws[0]);
      StepEvolves(cfg, s, ws[0]);
      StepSpawns(cfg, s, ws[0]);
      StepKeepsMatch(cfg, skip, s, t, ws[0]);
      StepKeepsCount(cfg, s, ws[0]);
      StepKeepsRanOnce(cfg, skip, s, ws[0]);
      StepKeepsScans(cfg, s, ws[0]);
      StepDoesWork(cfg, s, ws[0]);
      RunIsBooked(cfg, skip, t, ws[1..]);
    }
  }

  lemma StartIsCounted(skip: seq<bool>, base: SidePackets)
    ensures Counted(Start(skip, base))
  {
    var s := Start(skip, base);
    SumAppend([], s.workers[0], Busy);
    assert [] + [s.workers[0]] == s.workers;
  }

  /** In every run the counter is exact, no generator has run twice, and the number of steps is bounded. */
  lemma PassIsBooked(cfg: Config, skip: seq<bool>, base: SidePackets, ws: seq<nat>)
    requires |skip| == |cfg| && IsRun(cfg, Start(skip, base), ws)
    ensures var r := Run(cfg, Start(skip, base), ws);
            && (forall i, j :: 0 <= i < j < |r.ran| ==> r.ran[i] != r.ran[j])
            && r.workers != [] && r.numTasks >= 0
            && (r.numTasks == 0 && r.workers[0].phase.Finished? <==> AllFinished(r))
            && |ws| <= Work(|cfg|, Start(skip, base))
  {
    StartHolds(cfg, skip, base);
    var s := Start(skip, base);
    StartIsCounted(skip, base);
    RunIsBooked(cfg, skip, s, ws);
    IdleMeansFinished(Run(cfg, s, ws));
  }
}
