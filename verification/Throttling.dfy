/**
 Back-pressure: which sources and graph inputs must wait because a stream downstream is full.

 Streams and nodes are numbered; the numbers from `numNodes` on are the virtual nodes that
 stand for graph inputs. A stream whose fullness changes owes a callback, and callbacks may be
 served late and in any order.
 */
module Throttling {
  import InputStreams

  datatype Topology = Topology(numNodes: nat, numAll: nat, upstream: seq<set<nat>>)

  ghost predicate WellFormed(topo: Topology) {
    && topo.numNodes <= topo.numAll
    && forall s, n :: 0 <= s < |topo.upstream| && n in topo.upstream[s] ==> n < topo.numAll
  }

  /** A stream's queue length and limit. */
  datatype Level = Level(size: nat, limit: int)

  predicate IsFull(l: Level) {
    InputStreams.LimitReached(l.size, l.limit)
  }

  // ---------------------------------------------------------------- one callback

  /** The sets of full streams per node, and the number of throttled graph inputs. */
  datatype Sets = Sets(full: seq<set<nat>>, throttledInputs: int)

  /** Number of virtual nodes with a full stream downstream. */
  function NumThrottled(full: seq<set<nat>>, from: nat): nat
    decreases |full| - from
  {
    if from >= |full| then 0 else (if full[from] != {} then 1 else 0) + NumThrottled(full, from + 1)
  }

  function Toggled(set': set<nat>, stream: nat, isFull: bool): set<nat> {
    if isFull then set' + {stream} else set' - {stream}
  }

  function UpdateNode(numNodes: nat, t: Sets, stream: nat, isFull: bool, node: nat): Sets
    requires node < |t.full|
  {
    var wasThrottled := t.full[node] != {};
    var now := Toggled(t.full[node], stream, isFull);
    var isThrottled := now != {};
    Sets(t.full[node := now],
         if node < numNodes then t.throttledInputs
         else if !isThrottled then t.throttledInputs - 1
         else if !wasThrottled then t.throttledInputs + 1
         else t.throttledInputs)
  }

  /** The nodes of the hash set, visited in some order. */
  function UpdateNodes(numNodes: nat, t: Sets, stream: nat, isFull: bool, order: seq<nat>): (r: Sets)
    requires forall i :: 0 <= i < |order| ==> order[i] < |t.full|
    ensures |r.full| == |t.full|
    decreases |order|
  {
    if order == [] then t
    else UpdateNode(numNodes, UpdateNodes(numNodes, t, stream, isFull, order[..|order| - 1]), stream, isFull, order[|order| - 1])
  }

  ghost predicate Enumerates(order: seq<nat>, nodes: set<nat>) {
    && (forall i, j :: 0 <= i < j < |order| ==> order[i] != order[j])
    && (forall n :: n in order <==> n in nodes)
  }

  lemma {:induction false} NumThrottledAfter(full: seq<set<nat>>, from: nat, n: nat, now: set<nat>)
    requires n < |full|
    ensures NumThrottled(full[n := now], from) ==
            NumThrottled(full, from) + if n < from then 0 else (if now != {} then 1 else 0) - (if full[n] != {} then 1 else 0)
    decreases |full| - from
  {
    if from < |full| {
      NumThrottledAfter(full, from + 1, n, now);
    }
  }

  /** Serving a callback toggles the stream at exactly the visited nodes, and keeps the count exact. */
  lemma {:induction false} UpdateNodesIsExact(numNodes: nat, t: Sets, stream: nat, isFull: bool, order: seq<nat>)
    requires forall i :: 0 <= i < |order| ==> order[i] < |t.full|
    requires forall i, j :: 0 <= i < j < |order| ==> order[i] != order[j]
    requires forall i :: 0 <= i < |order| ==> (stream in t.full[order[i]] <==> !isFull)
    requires t.throttledInputs == NumThrottled(t.full, numNodes)
    ensures var r := UpdateNodes(numNodes, t, stream, isFull, order);
            && r.throttledInputs == NumThrottled(r.full, numNodes)
            && forall n :: 0 <= n < |t.full| ==> r.full[n] == if n in order then Toggled(t.full[n], stream, isFull) else t.full[n]
    decreases |order|
  {
    if order != [] {
      var init, node := order[..|order| - 1], order[|order| - 1];
      UpdateNodesIsExact(numNodes, t, stream, isFull, init);
      var mid := UpdateNodes(numNodes, t, stream, isFull, init);
      assert node !in init;
      assert mid.full[node] == t.full[node];
      NumThrottledAfter(mid.full, numNodes, node, Toggled(mid.full[node], stream, isFull));
      assert forall n :: n in order <==> n in init || n == node;
    }
  }

  // ---------------------------------------------------------------- the machine

  datatype Update = Serving(stream: nat, isFull: bool) | NotServing

  datatype State = State(
    levels: seq<Level>,
    reported: seq<bool>,
    sets: Sets,
    callbacks: seq<nat>,
    update: Update)

  datatype Step =
    | Change(s: nat, level: Level)
    | BeginUpdate(s: nat)
    | EndUpdate(order: seq<nat>)

  ghost predicate Shaped(topo: Topology, t: State) {
    && WellFormed(topo)
    && |t.levels| == |t.reported| == |t.callbacks| == |topo.upstream|
    && |t.sets.full| == topo.numAll
    && (t.update.Serving? ==> t.update.stream < |topo.upstream|)
  }

  /** Under the lock, with the fullness read at its beginning. */
  function Served(topo: Topology, t: State, order: seq<nat>): State
    requires t.update.Serving? && t.update.stream < |t.reported|
    requires forall i :: 0 <= i < |order| ==> order[i] < |t.sets.full|
  {
    var s, isFull := t.update.stream, t.update.isFull;
    t.(sets := if t.reported[s] != isFull then UpdateNodes(topo.numNodes, t.sets, s, isFull, order) else t.sets,
       reported := t.reported[s := isFull],
       update := NotServing)
  }

  lemma UpstreamInRange(topo: Topology, stream: nat, order: seq<nat>)
    requires WellFormed(topo) && stream < |topo.upstream| && Enumerates(order, topo.upstream[stream])
    ensures forall i :: 0 <= i < |order| ==> order[i] < topo.numAll
  {
    forall i | 0 <= i < |order|
      ensures order[i] < topo.numAll
    {
      assert order[i] in order;
      assert order[i] in topo.upstream[stream];
    }
  }

  ghost function Apply(topo: Topology, t: State, step: Step): (r: State)
    requires Shaped(topo, t)
    ensures Shaped(topo, r)
  {
    match step
    case Change(s, level) =>
      if s < |t.levels| then
        t.(levels := t.levels[s := level],
           callbacks := if IsFull(level) != IsFull(t.levels[s]) then t.callbacks[s := t.callbacks[s] + 1] else t.callbacks)
      else t
    case BeginUpdate(s) =>
      if s < |t.levels| && t.callbacks[s] > 0 && t.update.NotServing? then
        t.(callbacks := t.callbacks[s := t.callbacks[s] - 1], update := Serving(s, IsFull(t.levels[s])))
      else t
    case EndUpdate(order) =>
      if t.update.Serving? && Enumerates(order, topo.upstream[t.update.stream]) then
        UpstreamInRange(topo, t.update.stream, order);
        Served(topo, t, order)
      else t
  }

  ghost function Run(topo: Topology, t: State, steps: seq<Step>): (r: State)
    requires Shaped(topo, t)
    ensures Shaped(topo, r)
    decreases |steps|
  {
    if steps == [] then t else Apply(topo, Run(topo, t, steps[..|steps| - 1]), steps[|steps| - 1])
  }

  /** At the start of a run every queue is empty and nothing has been reported. */
  ghost predicate Starts(topo: Topology, t: State) {
    && Shaped(topo, t) && t.update.NotServing?
    && (forall s :: 0 <= s < |t.levels| ==> !IsFull(t.levels[s]) && !t.reported[s] && t.callbacks[s] == 0)
    && (forall n :: 0 <= n < |t.sets.full| ==> t.sets.full[n] == {})
    && t.sets.throttledInputs == 0
  }

  // ---------------------------------------------------------------- invariant

  predicate Throttles(topo: Topology, reported: seq<bool>, n: nat, s: nat)
    requires |reported| == |topo.upstream|
  {
    s < |reported| && reported[s] && n in topo.upstream[s]
  }

  /** A stream throttles a node exactly if it was last reported full and the node feeds it. */
  ghost predicate Exact(topo: Topology, full: seq<set<nat>>, reported: seq<bool>)
    requires |reported| == |topo.upstream|
  {
    forall n: nat, s: nat {:trigger s in full[n]} :: n < |full| ==>
      (s in full[n] <==> Throttles(topo, reported, n, s))
  }

  function LastRead(t: State, s: nat): bool
    requires s < |t.reported|
  {
    if t.update.Serving? && t.update.stream == s then t.update.isFull else t.reported[s]
  }

  ghost predicate Inv(topo: Topology, t: State)
    requires Shaped(topo, t)
  {
    && Exact(topo, t.sets.full, t.reported)
    && t.sets.throttledInputs == NumThrottled(t.sets.full, topo.numNodes)
    && forall s :: 0 <= s < |t.levels| && t.callbacks[s] == 0 ==> LastRead(t, s) == IsFull(t.levels[s])
  }

  lemma {:induction false} NoneThrottled(full: seq<set<nat>>, from: nat)
    requires forall n :: 0 <= n < |full| ==> full[n] == {}
    ensures NumThrottled(full, from) == 0
    decreases |full| - from
  {
    if from < |full| {
      NoneThrottled(full, from + 1);
    }
  }

  lemma ServeKeepsExact(topo: Topology, t: State, order: seq<nat>)
    requires Shaped(topo, t) && t.update.Serving? && Enumerates(order, topo.upstream[t.update.stream])
    requires Exact(topo, t.sets.full, t.reported) && t.sets.throttledInputs == NumThrottled(t.sets.full, topo.numNodes)
    requires t.reported[t.update.stream] != t.update.isFull
    ensures var r := Apply(topo, t, EndUpdate(order));
            && Exact(topo, r.sets.full, r.reported) && r.sets.throttledInputs == NumThrottled(r.sets.full, topo.numNodes)
  {
    var s, isFull := t.update.stream, t.update.isFull;
    forall i | 0 <= i < |order|
      ensures order[i] < |t.sets.full| && (s in t.sets.full[order[i]] <==> !isFull)
    {
      assert order[i] in order;
    }
    UpdateNodesIsExact(topo.numNodes, t.sets, s, isFull, order);
  }

  lemma StepHolds(topo: Topology, t: State, step: Step)
    requires Shaped(topo, t) && Inv(topo, t)
    ensures Inv(topo, Apply(topo, t, step))
  {
    if step.EndUpdate? && t.update.Serving? && Enumerates(step.order, topo.upstream[t.update.stream])
       && t.reported[t.update.stream] != t.update.isFull {
      ServeKeepsExact(topo, t, step.order);
    }
  }

  lemma {:induction false} EveryRunHolds(topo: Topology, t: State, steps: seq<Step>)
    requires Starts(topo, t)
    ensures Inv(topo, Run(topo, t, steps))
    decreases |steps|
  {
    if steps == [] {
      NoneThrottled(t.sets.full, topo.numNodes);
    } else {
      EveryRunHolds(topo, t, steps[..|steps| - 1]);
      StepHolds(topo, Run(topo, t, steps[..|steps| - 1]), steps[|steps| - 1]);
    }
  }

  // ---------------------------------------------------------------- theorems

  /** Whatever the order of callbacks: sets and count are exact, and settled streams are reported truly. */
  lemma ThrottleIsExact(topo: Topology, t: State, steps: seq<Step>, n: nat, s: nat)
    requires Starts(topo, t) && n < topo.numAll && s < |topo.upstream|
    ensures var r := Run(topo, t, steps);
            && (s in r.sets.full[n] <==> r.reported[s] && n in topo.upstream[s])
            && r.sets.throttledInputs == NumThrottled(r.sets.full, topo.numNodes) >= 0
            && (r.callbacks[s] == 0 && r.update.NotServing? ==> r.reported[s] == IsFull(r.levels[s]))
  {
    EveryRunHolds(topo, t, steps);
  }

  /** How often stream `s` becomes full or stops being full in the course of a run. */
  ghost function Flips(topo: Topology, t: State, steps: seq<Step>, s: nat): nat
    requires Shaped(topo, t) && s < |topo.upstream|
    decreases |steps|
  {
    if steps == [] then 0
    else
      var front := steps[..|steps| - 1];
      Flips(topo, t, front, s)
      + if IsFull(Run(topo, t, front).levels[s]) != IsFull(Run(topo, t, steps).levels[s]) then 1 else 0
  }

  /** How often the throttling sets begin to be brought up to date with stream `s`. */
  ghost function Serves(topo: Topology, t: State, steps: seq<Step>, s: nat): nat
    requires Shaped(topo, t)
    decreases |steps|
  {
    if steps == [] then 0
    else
      var front := steps[..|steps| - 1];
      Serves(topo, t, front, s)
      + if Run(topo, t, front).update.NotServing? && Run(topo, t, steps).update.Serving? && Run(topo, t, steps).update.stream == s then 1 else 0
  }

  /** Every change of fullness owes one callback, and every callback is served once. */
  lemma {:induction false} CallbacksAreCounted(topo: Topology, t: State, steps: seq<Step>, s: nat)
    requires Starts(topo, t) && s < |topo.upstream|
    ensures Run(topo, t, steps).callbacks[s] + Serves(topo, t, steps, s) == Flips(topo, t, steps, s)
    decreases |steps|
  {
    if steps != [] {
      CallbacksAreCounted(topo, t, steps[..|steps| - 1], s);
      StepIsCounted(topo, Run(topo, t, steps[..|steps| - 1]), steps[|steps| - 1], s);
    }
  }

  lemma StepIsCounted(topo: Topology, t: State, step: Step, s: nat)
    requires Shaped(topo, t) && s < |topo.upstream|
    ensures var r := Apply(topo, t, step);
            r.callbacks[s] + (if t.update.NotServing? && r.update.Serving? && r.update.stream == s then 1 else 0)
            == t.callbacks[s] + (if IsFull(t.levels[s]) != IsFull(r.levels[s]) then 1 else 0)
  {
  }

  /** A node that feeds no stream as a source is never throttled. */
  lemma OnlySourcesAreThrottled(topo: Topology, t: State, steps: seq<Step>, n: nat)
    requires Starts(topo, t) && n < topo.numAll
    requires forall s :: 0 <= s < |topo.upstream| ==> n !in topo.upstream[s]
    ensures Run(topo, t, steps).sets.full[n] == {}
  {
    EveryRunHolds(topo, t, steps);
    var r := Run(topo, t, steps);
    forall s: nat ensures s !in r.sets.full[n] {
    }
  }

  /** A source whose streams all settled as not full is free to run. */
  lemma SettledMeansFree(topo: Topology, t: State, steps: seq<Step>, n: nat)
    requires Starts(topo, t) && n < topo.numAll
    requires var r := Run(topo, t, steps);
             && r.update.NotServing?
             && forall s :: 0 <= s < |topo.upstream| && n in topo.upstream[s] ==> r.callbacks[s] == 0 && !IsFull(r.levels[s])
    ensures Run(topo, t, steps).sets.full[n] == {}
  {
    EveryRunHolds(topo, t, steps);
    var r := Run(topo, t, steps);
    forall s: nat ensures s !in r.sets.full[n] {
    }
  }

  // ---------------------------------------------------------------- one cycle of one stream

  lemma {:induction false} EnumerationExists(nodes: set<nat>) returns (order: seq<nat>)
    ensures Enumerates(order, nodes)
    decreases nodes
  {
    if nodes == {} {
      order := [];
    } else {
      var n :| n in nodes;
      var rest := EnumerationExists(nodes - {n});
      assert n !in rest;
      order := rest + [n];
    }
  }

  /** A report that is served brings the sets in line with it. */
  lemma ServedReport(topo: Topology, t: State, s: nat, level: Level, order: seq<nat>, n: nat)
    requires Shaped(topo, t) && Inv(topo, t) && t.update.NotServing? && s < |topo.upstream| && n < topo.numAll
    requires IsFull(level) != IsFull(t.levels[s]) && Enumerates(order, topo.upstream[s])
    ensures var changed := Apply(topo, t, Change(s, level));
            var begun := Apply(topo, changed, BeginUpdate(s));
            var ended := Apply(topo, begun, EndUpdate(order));
            && begun.sets == changed.sets == t.sets && begun.update.Serving?
            && Inv(topo, ended) && ended.update.NotServing? && ended.levels == t.levels[s := level]
            && ended.reported == t.reported[s := IsFull(level)]
  {
    var changed := Apply(topo, t, Change(s, level));
    var begun := Apply(topo, changed, BeginUpdate(s));
    StepHolds(topo, t, Change(s, level));
    StepHolds(topo, changed, BeginUpdate(s));
    StepHolds(topo, begun, EndUpdate(order));
  }
}
