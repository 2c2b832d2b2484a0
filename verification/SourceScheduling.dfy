/**
 Scheduling of one source node, which has no inputs to wait for but may be held back by a full
 stream downstream.

 Each step is one region that a lock protects: the node's own lock, the lock of the throttling
 sets, or the queue's. A thread that is about to look at the throttling sets, or about to begin
 an invocation, may be overtaken by any other.
 */
module SourceScheduling {
  import Nodes = NodeScheduling
  import Throttling

  /** Where a thread is inside the node's scheduling loop. */
  datatype Stage = Entering | Checking | Beginning | Leaving

  /** The node's place in the graph; without a queue limit nothing is ever throttled. */
  datatype Place = Place(topo: Throttling.Topology, node: nat, limited: bool)

  /**
   `toCheck` and `toBegin` count threads outside the loop: those that will schedule the node unless
   it is throttled, and those that will schedule it in any case. `queued` and `running` count
   invocations. The last field is a history: a task has met a closed node.
   */
  datatype Source = Source(
    gate: Nodes.Gate,
    loops: seq<Stage>,
    toCheck: nat,
    toBegin: nat,
    queued: nat,
    running: nat,
    throttle: Throttling.State,
    startedClosed: bool)

  datatype Step =
    | Activate
    | CallerChecks
    | CallerBegins
    | StartInvocation
    | EndInvocation
    | Close
    | Enter(j: nat)
    | LoopChecks(j: nat)
    | LoopBegins(j: nat)
    | EndRound(j: nat)
    | Throttle(step: Throttling.Step)

  ghost predicate Shaped(place: Place, s: Source) {
    Throttling.Shaped(place.topo, s.throttle) && place.node < place.topo.numNodes
  }

  ghost predicate IsThrottled(place: Place, s: Source)
    requires Shaped(place, s)
  {
    place.limited && s.throttle.sets.full[place.node] != {}
  }

  // ---------------------------------------------------------------- steps

  function Enters(s: Source, p: Nodes.Passage): Source {
    if p.enter then s.(gate := p.gate, loops := s.loops + [Entering]) else s.(gate := p.gate)
  }

  function Leaves(s: Source, j: nat): Source
    requires j < |s.loops|
  {
    s.(loops := s.loops[..j] + s.loops[j + 1..])
  }

  /** An invocation goes into the queue if there is room in flight, and otherwise nowhere. */
  function Begin(s: Source): Source {
    var p := Nodes.TryToBeginScheduling(s.gate);
    if p.enter then s.(gate := p.gate, queued := s.queued + 1) else s
  }

  /** Serving a callback wakes the node if it has just become free and is active. */
  ghost function Throttles(place: Place, s: Source, step: Throttling.Step): Source
    requires Shaped(place, s)
  {
    var t := Throttling.Apply(place.topo, s.throttle, step);
    var wakes := s.gate.status == Nodes.Active && s.throttle.sets.full[place.node] != {} && t.sets.full[place.node] == {};
    s.(throttle := t, toBegin := if wakes then s.toBegin + 1 else s.toBegin)
  }

  ghost function Apply(place: Place, s: Source, step: Step): (r: Source)
    requires Shaped(place, s)
    ensures Shaped(place, r)
  {
    match step
    case Activate =>
      if s.gate.status == Nodes.Opened then s.(gate := s.gate.(status := Nodes.Active), toCheck := s.toCheck + 1) else s
    case CallerChecks =>
      if s.toCheck > 0 then
        s.(toCheck := s.toCheck - 1, toBegin := if IsThrottled(place, s) then s.toBegin else s.toBegin + 1)
      else s
    case CallerBegins =>
      if s.toBegin > 0 then Begin(s.(toBegin := s.toBegin - 1)) else s
    case StartInvocation =>
      if s.queued > 0 then
        s.(queued := s.queued - 1, running := s.running + 1, startedClosed := s.startedClosed || s.gate.status == Nodes.Closed)
      else s
    case EndInvocation =>
      if s.running > 0 then Enters(s.(running := s.running - 1), Nodes.EndScheduling(s.gate)) else s
    case Close =>
      if s.running > 0 && s.gate.status == Nodes.Active then s.(gate := s.gate.(status := Nodes.Closed)) else s
    case Enter(j) =>
      if j < |s.loops| && s.loops[j] == Entering then
        var p := Nodes.EnterLoop(s.gate);
        if p.enter then s.(loops := s.loops[j := Checking]) else Leaves(s.(gate := p.gate), j)
      else s
    case LoopChecks(j) =>
      if j < |s.loops| && s.loops[j] == Checking then
        s.(loops := s.loops[j := if IsThrottled(place, s) then Leaving else Beginning])
      else s
    case LoopBegins(j) =>
      if j < |s.loops| && s.loops[j] == Beginning then Begin(s.(loops := s.loops[j := Leaving])) else s
    case EndRound(j) =>
      if j < |s.loops| && s.loops[j] == Leaving then
        var p := Nodes.EndIteration(s.gate);
        if p.enter then s.(gate := p.gate, loops := s.loops[j := Checking]) else Leaves(s.(gate := p.gate), j)
      else s
    case Throttle(step) => Throttles(place, s, step)
  }

  ghost function Run(place: Place, s: Source, steps: seq<Step>): (r: Source)
    requires Shaped(place, s)
    ensures Shaped(place, r)
    decreases |steps|
  {
    if steps == [] then s else Run(place, Apply(place, s, steps[0]), steps[1..])
  }

  /** An opened source before its layer is activated. */
  ghost predicate Starts(place: Place, s: Source) {
    && Shaped(place, s) && Throttling.Starts(place.topo, s.throttle)
    && s.gate.status == Nodes.Opened && s.gate.state == Nodes.Idle && s.gate.inFlight == 0 && 0 < s.gate.maxInFlight
    && s.loops == [] && s.toCheck == s.toBegin == s.queued == s.running == 0 && !s.startedClosed
  }

  // ---------------------------------------------------------------- invariant

  predicate InFlightHolds(s: Source) {
    && 0 <= s.queued + s.running <= s.gate.inFlight <= s.gate.maxInFlight && 0 < s.gate.maxInFlight
    && (s.gate.status != Nodes.Closed ==> s.gate.inFlight == s.queued + s.running)
    && s.gate.status != Nodes.Unopened
  }

  predicate Exclusive(s: Source) {
    |s.loops| == if s.gate.state == Nodes.Idle then 0 else 1
  }

  /** Some thread will still look at the node and schedule it if it is free. */
  predicate Owed(s: Source) {
    || s.toCheck > 0
    || s.toBegin > 0
    || exists j :: 0 <= j < |s.loops| && (s.loops[j] != Leaving || s.gate.state == Nodes.SchedulingPending)
  }

  ghost predicate WakeupHolds(place: Place, s: Source)
    requires Shaped(place, s)
  {
    s.gate.status == Nodes.Active && !IsThrottled(place, s) && s.gate.inFlight == 0 ==> Owed(s)
  }

  ghost predicate Inv(place: Place, s: Source)
    requires Shaped(place, s)
  {
    InFlightHolds(s) && Exclusive(s) && WakeupHolds(place, s) && Throttling.Inv(place.topo, s.throttle)
  }

  lemma StartHolds(place: Place, s: Source)
    requires Starts(place, s)
    ensures Inv(place, s)
  {
    Throttling.EveryRunHolds(place.topo, s.throttle, []);
  }

  lemma OwedStays(s: Source, t: Source)
    ensures (&& Owed(s) && s.toCheck <= t.toCheck && s.toBegin <= t.toBegin && s.loops == t.loops
             && (s.gate.state == Nodes.SchedulingPending ==> t.gate.state == Nodes.SchedulingPending)) ==> Owed(t)
  {
  }

  lemma CallerKeepsInv(place: Place, s: Source, step: Step)
    requires Shaped(place, s) && Inv(place, s) && (step.Activate? || step.CallerChecks? || step.CallerBegins?)
    ensures Inv(place, Apply(place, s, step))
  {
  }

  lemma InvocationKeepsInv(place: Place, s: Source, step: Step)
    requires Shaped(place, s) && Inv(place, s) && (step.StartInvocation? || step.EndInvocation? || step.Close?)
    ensures Inv(place, Apply(place, s, step))
  {
    var t := Apply(place, s, step);
    OwedStays(s, t);
    if step.EndInvocation? && s.running > 0 && s.gate.status == Nodes.Active {
      assert |t.loops| == 1;
      assert t.loops[0] != Leaving || t.gate.state == Nodes.SchedulingPending;
    }
  }

  lemma CheckKeepsInv(place: Place, s: Source, step: Step)
    requires Shaped(place, s) && Inv(place, s) && (step.LoopChecks? || step.LoopBegins?)
    ensures Inv(place, Apply(place, s, step))
  {
    var t := Apply(place, s, step);
    if |t.loops| == 1 {
      assert t.loops[0] == t.loops[0];
    }
  }

  lemma EnterKeepsInv(place: Place, s: Source, j: nat)
    requires Shaped(place, s) && Inv(place, s)
    ensures Inv(place, Apply(place, s, Enter(j)))
  {
    var t := Apply(place, s, Enter(j));
    if |t.loops| == 1 {
      assert t.loops[0] == t.loops[0];
    }
  }

  lemma EndRoundKeepsInv(place: Place, s: Source, j: nat)
    requires Shaped(place, s) && Inv(place, s)
    ensures Inv(place, Apply(place, s, EndRound(j)))
  {
    var t := Apply(place, s, EndRound(j));
    if |t.loops| == 1 {
      assert t.loops[0] == t.loops[0];
    }
  }

  lemma ThrottleKeepsInv(place: Place, s: Source, step: Throttling.Step)
    requires Shaped(place, s) && Inv(place, s)
    ensures Inv(place, Apply(place, s, Throttle(step)))
  {
    Throttling.StepHolds(place.topo, s.throttle, step);
    OwedStays(s, Apply(place, s, Throttle(step)));
  }

  lemma StepKeepsInv(place: Place, s: Source, step: Step)
    requires Shaped(place, s) && Inv(place, s)
    ensures Inv(place, Apply(place, s, step))
  {
    match step
    case Throttle(t) => ThrottleKeepsInv(place, s, t);
    case Activate => CallerKeepsInv(place, s, step);
    case CallerChecks => CallerKeepsInv(place, s, step);
    case CallerBegins => CallerKeepsInv(place, s, step);
    case StartInvocation => InvocationKeepsInv(place, s, step);
    case EndInvocation => InvocationKeepsInv(place, s, step);
    case Close => InvocationKeepsInv(place, s, step);
    case LoopChecks(_) => CheckKeepsInv(place, s, step);
    case LoopBegins(_) => CheckKeepsInv(place, s, step);
    case Enter(j) => EnterKeepsInv(place, s, j);
    case EndRound(j) => EndRoundKeepsInv(place, s, j);
  }

  lemma {:induction false} RunKeepsInv(place: Place, s: Source, steps: seq<Step>)
    requires Shaped(place, s) && Inv(place, s)
    ensures Inv(place, Run(place, s, steps))
    decreases |steps|
  {
    if steps != [] {
      StepKeepsInv(place, s, steps[0]);
      RunKeepsInv(place, Apply(place, s, steps[0]), steps[1..]);
    }
  }

  // ---------------------------------------------------------------- theorems

  /** An active source that is free and not in flight has a scheduling call still to come. */
  lemma NoLostSourceWakeup(place: Place, s: Source, steps: seq<Step>)
    requires Starts(place, s)
    ensures var r := Run(place, s, steps);
            r.gate.status == Nodes.Active && !IsThrottled(place, r) && r.gate.inFlight == 0 ==> Owed(r)
  {
    StartHolds(place, s);
    RunKeepsInv(place, s, steps);
  }

  /**
   So when every call has been made and every callback served, an active source whose streams
   downstream have room is queued or running.
   */
  lemma FreeSourcesRun(place: Place, s: Source, steps: seq<Step>)
    requires Starts(place, s)
    requires var r := Run(place, s, steps);
             && r.gate.status == Nodes.Active && !Owed(r) && r.throttle.update.NotServing?
             && forall i :: 0 <= i < |place.topo.upstream| && place.node in place.topo.upstream[i] ==>
                  r.throttle.callbacks[i] == 0 && !Throttling.IsFull(r.throttle.levels[i])
    ensures Run(place, s, steps).queued + Run(place, s, steps).running > 0
  {
    StartHolds(place, s);
    RunKeepsInv(place, s, steps);
    var r := Run(place, s, steps);
    forall i: nat
      ensures i !in r.throttle.sets.full[place.node]
    {
    }
  }

  /** One thread at most is in the loop, and invocations never exceed the limit. */
  lemma SourceSchedulingIsExclusive(place: Place, s: Source, steps: seq<Step>)
    requires Starts(place, s)
    ensures var r := Run(place, s, steps);
            |r.loops| <= 1 && 0 <= r.queued + r.running <= r.gate.inFlight <= r.gate.maxInFlight
  {
    StartHolds(place, s);
    RunKeepsInv(place, s, steps);
  }

  // ---------------------------------------------------------------- closed sources are left alone

  /** A limit of one keeps its only place taken once the node has closed itself. */
  predicate ClosedKeepsPlace(s: Source) {
    && (s.gate.status == Nodes.Closed ==> s.gate.inFlight == s.gate.maxInFlight && s.queued == 0)
    && !s.startedClosed
  }

  lemma StepKeepsPlace(place: Place, s: Source, step: Step)
    requires Shaped(place, s) && Inv(place, s) && ClosedKeepsPlace(s) && s.gate.maxInFlight == 1
    ensures ClosedKeepsPlace(Apply(place, s, step)) && Apply(place, s, step).gate.maxInFlight == 1
  {
  }

  lemma {:induction false} RunKeepsPlace(place: Place, s: Source, steps: seq<Step>)
    requires Shaped(place, s) && Inv(place, s) && ClosedKeepsPlace(s) && s.gate.maxInFlight == 1
    ensures ClosedKeepsPlace(Run(place, s, steps))
    decreases |steps|
  {
    if steps != [] {
      StepKeepsInv(place, s, steps[0]);
      StepKeepsPlace(place, s, steps[0]);
      RunKeepsPlace(place, Apply(place, s, steps[0]), steps[1..]);
    }
  }

  /** With one invocation in flight at most, no task ever meets a closed source: the runtime's check holds. */
  lemma ClosedSourceIsNotStarted(place: Place, s: Source, steps: seq<Step>)
    requires Starts(place, s) && s.gate.maxInFlight == 1
    ensures !Run(place, s, steps).startedClosed
  {
    StartHolds(place, s);
    RunKeepsPlace(place, s, steps);
  }

  lemma {:induction false} RunInParts(place: Place, s: Source, a: seq<Step>, b: seq<Step>)
    requires Shaped(place, s)
    ensures Run(place, s, a + b) == Run(place, Run(place, s, a), b)
    decreases |a|
  {
    if a == [] {
      assert a + b == b;
    } else {
      TailOfConcat(a, b);
      RunInParts(place, Apply(place, s, a[0]), a[1..], b);
    }
  }

  lemma TailOfConcat(a: seq<Step>, b: seq<Step>)
    requires a != []
    ensures a + b != [] && (a + b)[0] == a[0] && (a + b)[1..] == a[1..] + b
  {
  }

  /** A source that runs while a second thread is about to begin it, with room for two. */
  ghost predicate Overbooked(place: Place, s: Source)
    requires Shaped(place, s)
  {
    s.gate.status == Nodes.Active && s.running > 0 && s.toBegin > 0 && s.gate.inFlight < s.gate.maxInFlight
  }

  lemma OverbookedStartsClosed(place: Place, s: Source)
    requires Shaped(place, s) && Overbooked(place, s)
    ensures Run(place, s, [CallerBegins, Close, StartInvocation]).startedClosed
  {
    ThreeSteps(place, s, CallerBegins, Close, StartInvocation);
    BeginsCloses(place, s);
    StartsClosed(place, Apply(place, Apply(place, s, CallerBegins), Close));
  }

  lemma BeginsCloses(place: Place, s: Source)
    requires Shaped(place, s) && Overbooked(place, s)
    ensures var r := Apply(place, Apply(place, s, CallerBegins), Close); r.queued > 0 && r.gate.status == Nodes.Closed
  {
  }

  lemma StartsClosed(place: Place, s: Source)
    requires Shaped(place, s) && s.queued > 0 && s.gate.status == Nodes.Closed
    ensures Apply(place, s, StartInvocation).startedClosed
  {
  }

  /** Serving one report of a stream, as it changes the source. */
  lemma ServedReport(place: Place, s: Source, i: nat, level: Throttling.Level, order: seq<nat>)
    requires Shaped(place, s) && Throttling.Inv(place.topo, s.throttle) && s.throttle.update.NotServing?
    requires i < |place.topo.upstream| && Throttling.Enumerates(order, place.topo.upstream[i])
    requires Throttling.IsFull(level) != Throttling.IsFull(s.throttle.levels[i])
    ensures var steps := [Throttle(Throttling.Change(i, level)), Throttle(Throttling.BeginUpdate(i)), Throttle(Throttling.EndUpdate(order))];
            var r := Run(place, s, steps);
            && Throttling.Inv(place.topo, r.throttle) && r.throttle.update.NotServing?
            && r.throttle.levels == s.throttle.levels[i := level]
            && r.throttle.reported == s.throttle.reported[i := Throttling.IsFull(level)]
            && r == s.(throttle := r.throttle, toBegin := r.toBegin)
            && r.toBegin == (if s.gate.status == Nodes.Active && s.throttle.sets.full[place.node] != {} && r.throttle.sets.full[place.node] == {}
                             then s.toBegin + 1 else s.toBegin)
  {
    var steps := [Throttle(Throttling.Change(i, level)), Throttle(Throttling.BeginUpdate(i)), Throttle(Throttling.EndUpdate(order))];
    Throttling.ServedReport(place.topo, s.throttle, i, level, order, place.node);
    var changed := Apply(place, s, steps[0]);
    assert changed == s.(throttle := changed.throttle);
    var begun := Apply(place, changed, steps[1]);
    assert begun == s.(throttle := begun.throttle);
    ThreeSteps(place, s, steps[0], steps[1], steps[2]);
  }

  lemma ThreeSteps(place: Place, s: Source, a: Step, b: Step, c: Step)
    requires Shaped(place, s)
    ensures Run(place, s, [a, b, c]) == Apply(place, Apply(place, Apply(place, s, a), b), c)
  {
    assert [a, b, c][1..] == [b, c] && [b, c][1..] == [c] && [c][1..] == [];
    assert Run(place, Apply(place, Apply(place, s, a), b), [c]) == Apply(place, Apply(place, Apply(place, s, a), b), c);
  }

  /** Activated, scheduled and started: the source is running. */
  lemma FirstInvocation(place: Place, s: Source)
    requires Starts(place, s)
    ensures var steps := [Activate, CallerChecks, CallerBegins, StartInvocation];
            Run(place, s, steps) == s.(gate := s.gate.(status := Nodes.Active, inFlight := 1), running := 1)
  {
    var steps := [Activate, CallerChecks, CallerBegins, StartInvocation];
    var active := Apply(place, s, Activate);
    var checked := Apply(place, active, CallerChecks);
    var begun := Apply(place, checked, CallerBegins);
    assert steps[1..] == [CallerChecks, CallerBegins, StartInvocation];
    assert steps[1..][1..] == [CallerBegins, StartInvocation];
    assert steps[1..][1..][1..] == [StartInvocation] && steps[1..][1..][1..][1..] == [];
    assert Run(place, s, steps) == Run(place, active, steps[1..]) == Run(place, checked, steps[1..][1..]) == Run(place, begun, [StartInvocation]);
  }

  /** With a higher limit a source that feeds any stream can be started after it has closed itself. */
  lemma HigherLimitStartsClosed(place: Place, s: Source, i: nat) returns (steps: seq<Step>)
    requires Starts(place, s) && s.gate.maxInFlight > 1
    requires i < |place.topo.upstream| && place.node in place.topo.upstream[i]
    ensures Run(place, s, steps).startedClosed
  {
    var order := Throttling.EnumerationExists(place.topo.upstream[i]);
    var full, free := Throttling.Level(1, 1), Throttling.Level(0, 1);
    var first := [Activate, CallerChecks, CallerBegins, StartInvocation];
    var fills := [Throttle(Throttling.Change(i, full)), Throttle(Throttling.BeginUpdate(i)), Throttle(Throttling.EndUpdate(order))];
    var frees := [Throttle(Throttling.Change(i, free)), Throttle(Throttling.BeginUpdate(i)), Throttle(Throttling.EndUpdate(order))];
    var last := [CallerBegins, Close, StartInvocation];
    StartHolds(place, s);
    FirstInvocation(place, s);
    var a := Run(place, s, first);
    ServedReport(place, a, i, full, order);
    var b := Run(place, a, fills);
    assert i in b.throttle.sets.full[place.node];
    ServedReport(place, b, i, free, order);
    var c := Run(place, b, frees);
    NothingReported(place, c);
    OverbookedStartsClosed(place, c);
    steps := first + (fills + (frees + last));
    RunInParts(place, s, first, fills + (frees + last));
    RunInParts(place, a, fills, frees + last);
    RunInParts(place, b, frees, last);
  }

  lemma NothingReported(place: Place, s: Source)
    requires Shaped(place, s) && Throttling.Inv(place.topo, s.throttle)
    requires forall i :: 0 <= i < |s.throttle.reported| ==> !s.throttle.reported[i]
    ensures s.throttle.sets.full[place.node] == {}
  {
    forall i: nat
      ensures i !in s.throttle.sets.full[place.node]
    {
    }
  }

  /** So the check that no closed node is started can be relied on exactly if the limit is one. */
  lemma ClosedCheckIsExact(place: Place, s: Source, i: nat)
    requires Starts(place, s) && i < |place.topo.upstream| && place.node in place.topo.upstream[i]
    ensures (forall steps :: !Run(place, s, steps).startedClosed) <==> s.gate.maxInFlight == 1
  {
    if s.gate.maxInFlight == 1 {
      forall steps
        ensures !Run(place, s, steps).startedClosed
      {
        ClosedSourceIsNotStarted(place, s, steps);
      }
    } else {
      var steps := HigherLimitStartsClosed(place, s, i);
    }
  }
}
