/**
 The outputs of a sequential node, seen from its scheduling: a call passes on its outputs when its
 invocation ends, a bound is reported when the scheduling loop finds nothing ready. That the two
 never overlap is proved here, not assumed, and with it that outputs may rely on what they hear.
 */
module NodeEvents {
  import opened Timestamps
  import opened Packets
  import opened PacketTypes
  import opened SyncSets
  import opened InputProtocol
  import opened InputEvents
  import Nodes = NodeScheduling
  import OutputStreams

  // ---------------------------------------------------------------- calls and reports do not overlap

  /** The loop of a sequential node is reading, filling or closing only while no invocation is outstanding. */
  lemma LoopWaitsForCalls(mode: bool, n: Nodes.Node, j: nat)
    requires Nodes.GateInv(mode, n) && n.gate.maxInFlight == 1 && j < |n.threads|
    requires n.threads[j].stage == Nodes.Closing || (n.threads[j].stage.Looping? && !n.threads[j].stage.phase.Resting?)
    ensures n.outstanding == 0
  {
  }

  /** The same over runs. */
  lemma CallsDoNotOverlapReports(mode: bool, types: seq<ResolvedType>, steps: seq<Nodes.Step>, j: nat)
    requires var n := Nodes.Run(mode, Nodes.Initial(types, 1), steps);
             Nodes.InLoop(n, j) && !n.threads[j].stage.phase.Resting?
    ensures Nodes.Run(mode, Nodes.Initial(types, 1), steps).outstanding == 0
  {
    Nodes.EveryNodeRunHolds(mode, types, 1, steps);
    LimitStays(mode, types, steps);
    LoopWaitsForCalls(mode, Nodes.Run(mode, Nodes.Initial(types, 1), steps), j);
  }

  lemma LoopStepKeepsLimit(mode: bool, n: Nodes.Node, step: Nodes.Step)
    requires Nodes.TypedNode(n) && (step.Begin? || step.Read? || step.Choose? || step.Fill? || step.Finish?)
    ensures Nodes.Apply(mode, n, step).gate.maxInFlight == n.gate.maxInFlight
  {
  }

  lemma StepKeepsLimit(mode: bool, n: Nodes.Node, step: Nodes.Step)
    requires Nodes.TypedNode(n)
    ensures Nodes.Apply(mode, n, step).gate.maxInFlight == n.gate.maxInFlight
  {
    if step.Begin? || step.Read? || step.Choose? || step.Fill? || step.Finish? {
      LoopStepKeepsLimit(mode, n, step);
    }
  }

  lemma {:induction false} LimitStays(mode: bool, types: seq<ResolvedType>, steps: seq<Nodes.Step>)
    ensures Nodes.Run(mode, Nodes.Initial(types, 1), steps).gate.maxInFlight == 1
    decreases |steps|
  {
    if steps != [] {
      var front := steps[..|steps| - 1];
      LimitStays(mode, types, front);
      StepKeepsLimit(mode, Nodes.Run(mode, Nodes.Initial(types, 1), front), steps[|steps| - 1]);
    }
  }

  // ---------------------------------------------------------------- what the outputs hear, and when

  /** A call that is still running; once a close is prepared, the last invocation is the close. */
  function CallUnderWay(n: Nodes.Node): seq<Signal> {
    if n.outstanding > 0 && !n.preparedForClose then [Completed(LastTs(n.shared))] else []
  }

  function NodeSignalsOf(mode: bool, n: Nodes.Node, step: Nodes.Step): seq<Signal> {
    match step
    case EndInvocation => CallUnderWay(n)
    case Choose(j) =>
      if Nodes.InLoop(n, j) then SignalsOf(mode, Nodes.View(n, n.threads[j].stage.phase), DecideNow) else []
    case _ => []
  }

  function NodeSignals(mode: bool, n: Nodes.Node, steps: seq<Nodes.Step>): seq<Signal>
    requires Nodes.TypedNode(n)
    decreases |steps|
  {
    if steps == [] then []
    else
      var front, last := steps[..|steps| - 1], steps[|steps| - 1];
      NodeSignals(mode, n, front) + NodeSignalsOf(mode, Nodes.Run(mode, n, front), last)
  }

  /** Every prepared invocation is scheduled at once: the batch size is one. */
  predicate Unbatched(steps: seq<Nodes.Step>) {
    forall i :: 0 <= i < |steps| && steps[i].Finish? ==> steps[i].schedule
  }

  // ---------------------------------------------------------------- the order is that of the input protocol

  /** A close is prepared only after the inputs have said that nothing is left. */
  predicate CloseIsMeant(n: Nodes.Node) {
    && (n.preparedForClose ==> n.shared.closeSeen)
    && forall j :: 0 <= j < |n.threads| && n.threads[j].stage == Nodes.Closing ==> n.shared.closeSeen
  }

  lemma ChooseMeansClose(mode: bool, n: Nodes.Node, j: nat)
    requires Nodes.TypedNode(n) && CloseIsMeant(n)
    ensures CloseIsMeant(Nodes.Apply(mode, n, Nodes.Choose(j)))
  {
  }

  lemma ConsumeMeansClose(mode: bool, n: Nodes.Node, j: nat, step: Step)
    requires Nodes.TypedNode(n) && CloseIsMeant(n) && Nodes.InLoop(n, j)
    ensures CloseIsMeant(Nodes.Consume(mode, n, j, step))
  {
    StepContinues(mode, Nodes.View(n, n.threads[j].stage.phase), step);
  }

  lemma BeginMeansClose(mode: bool, n: Nodes.Node, j: nat)
    requires Nodes.TypedNode(n) && CloseIsMeant(n)
    ensures CloseIsMeant(Nodes.Apply(mode, n, Nodes.Begin(j)))
  {
    if Nodes.InLoop(n, j) {
      ConsumeMeansClose(mode, n, j, StartRead);
    }
  }

  lemma ReadMeansClose(mode: bool, n: Nodes.Node, j: nat)
    requires Nodes.TypedNode(n) && CloseIsMeant(n)
    ensures CloseIsMeant(Nodes.Apply(mode, n, Nodes.Read(j))) && CloseIsMeant(Nodes.Apply(mode, n, Nodes.Fill(j)))
  {
    if Nodes.InLoop(n, j) {
      ConsumeMeansClose(mode, n, j, ReadNext);
      ConsumeMeansClose(mode, n, j, FillNext);
    }
  }

  lemma FinishMeansClose(mode: bool, n: Nodes.Node, j: nat, schedule: bool)
    requires Nodes.TypedNode(n) && CloseIsMeant(n)
    ensures CloseIsMeant(Nodes.Apply(mode, n, Nodes.Finish(j, schedule)))
  {
    if Nodes.InLoop(n, j) {
      ConsumeMeansClose(mode, n, j, FinishFill);
    }
  }

  lemma RoundMeansClose(mode: bool, n: Nodes.Node, step: Nodes.Step)
    requires Nodes.TypedNode(n) && CloseIsMeant(n) && (step.Enter? || step.EndRound? || step.ScheduleClose?)
    ensures CloseIsMeant(Nodes.Apply(mode, n, step))
  {
  }

  lemma GateStepMeansClose(mode: bool, n: Nodes.Node, step: Nodes.Step)
    requires Nodes.TypedNode(n) && CloseIsMeant(n)
    requires step.Produce? || step.Open? || step.Deliver? || step.EndInvocation? || step.CloseNode?
    ensures CloseIsMeant(Nodes.Apply(mode, n, step))
  {
  }

  lemma StepMeansClose(mode: bool, n: Nodes.Node, step: Nodes.Step)
    requires Nodes.TypedNode(n) && CloseIsMeant(n)
    ensures CloseIsMeant(Nodes.Apply(mode, n, step))
  {
    match step
    case Choose(j) => ChooseMeansClose(mode, n, j);
    case Begin(j) => BeginMeansClose(mode, n, j);
    case Read(j) => ReadMeansClose(mode, n, j);
    case Fill(j) => ReadMeansClose(mode, n, j);
    case Finish(j, schedule) => FinishMeansClose(mode, n, j, schedule);
    case Enter(_) => RoundMeansClose(mode, n, step);
    case EndRound(_) => RoundMeansClose(mode, n, step);
    case ScheduleClose(_, _) => RoundMeansClose(mode, n, step);
    case _ => GateStepMeansClose(mode, n, step);
  }

  /** The signal of the protocol, and the call it starts, come in the order in which the outputs hear them. */
  predicate Matches(mode: bool, n: Nodes.Node, step: Nodes.Step)
    requires Nodes.TypedNode(n)
  {
    CallUnderWay(n) + SignalsOf(mode, Nodes.View(n, Nodes.CurrentPhase(n)), Nodes.ProtocolStep(n, step))
    == NodeSignalsOf(mode, n, step) + CallUnderWay(Nodes.Apply(mode, n, step))
  }

  ghost predicate Sequential(mode: bool, n: Nodes.Node) {
    Nodes.TypedNode(n) && Nodes.NodeInv(mode, n) && n.gate.maxInFlight == 1 && CloseIsMeant(n)
  }

  lemma ChooseMatches(mode: bool, n: Nodes.Node, j: nat)
    requires Sequential(mode, n)
    ensures Matches(mode, n, Nodes.Choose(j))
  {
    ChooseKeepsCall(mode, n, j);
    if Nodes.InLoop(n, j) && !n.threads[j].stage.phase.Resting? {
      LoopWaitsForCalls(mode, n, j);
    }
    ChooseSignals(mode, n, j, Nodes.Apply(mode, n, Nodes.Choose(j)));
  }

  lemma ChooseKeepsCall(mode: bool, n: Nodes.Node, j: nat)
    requires Nodes.TypedNode(n)
    ensures KeepsCall(n, Nodes.Apply(mode, n, Nodes.Choose(j)))
  {
  }

  lemma ChooseSignals(mode: bool, n: Nodes.Node, j: nat, m: Nodes.Node)
    requires KeepsCall(n, m) && |n.threads| <= 1
    requires Nodes.InLoop(n, j) && !n.threads[j].stage.phase.Resting? ==> n.outstanding == 0
    ensures CallUnderWay(n) + SignalsOf(mode, Nodes.View(n, Nodes.CurrentPhase(n)), Nodes.ProtocolStep(n, Nodes.Choose(j)))
            == NodeSignalsOf(mode, n, Nodes.Choose(j)) + CallUnderWay(m)
  {
  }

  predicate CanFinish(n: Nodes.Node, j: nat) {
    Nodes.InLoop(n, j) && n.threads[j].stage.phase.Filling? && n.threads[j].stage.phase.next == |n.shared.streams|
  }

  /** Finishing an input set begins a call for it, if there is room. */
  lemma FinishEffect(mode: bool, n: Nodes.Node, j: nat)
    requires Nodes.TypedNode(n)
    ensures var m := Nodes.Apply(mode, n, Nodes.Finish(j, true));
            if CanFinish(n, j) then
              && m.preparedForClose == n.preparedForClose && LastTs(m.shared) == n.threads[j].stage.phase.ts
              && (n.gate.inFlight < n.gate.maxInFlight ==> m.outstanding == n.outstanding + 1)
            else m == n
  {
  }

  lemma FinishSignals(mode: bool, n: Nodes.Node, j: nat, m: Nodes.Node)
    requires |n.threads| <= 1
    requires if CanFinish(n, j) then
               && n.outstanding == 0 && m.outstanding == 1 && !n.preparedForClose && !m.preparedForClose
               && LastTs(m.shared) == n.threads[j].stage.phase.ts
             else m == n
    ensures CallUnderWay(n) + SignalsOf(mode, Nodes.View(n, Nodes.CurrentPhase(n)), Nodes.ProtocolStep(n, Nodes.Finish(j, true)))
            == NodeSignalsOf(mode, n, Nodes.Finish(j, true)) + CallUnderWay(m)
  {
  }

  /** While an input set is being filled no close has been seen, and no invocation is outstanding. */
  lemma FillingFacts(mode: bool, n: Nodes.Node, j: nat)
    requires Sequential(mode, n) && CanFinish(n, j)
    ensures n.outstanding == 0 && n.gate.inFlight == 0 && !n.preparedForClose
  {
    LoopWaitsForCalls(mode, n, j);
    assert Nodes.CurrentPhase(n) == n.threads[j].stage.phase;
    FillingMeansOpen(mode, Nodes.View(n, Nodes.CurrentPhase(n)));
  }

  lemma FillingMeansOpen(mode: bool, c: Consumer)
    requires Inv(mode, c) && c.phase.Filling?
    ensures !c.closeSeen
  {
  }

  lemma FinishMatches(mode: bool, n: Nodes.Node, j: nat)
    requires Sequential(mode, n)
    ensures Matches(mode, n, Nodes.Finish(j, true))
  {
    FinishEffect(mode, n, j);
    if CanFinish(n, j) {
      FillingFacts(mode, n, j);
    }
    FinishSignals(mode, n, j, Nodes.Apply(mode, n, Nodes.Finish(j, true)));
  }

  lemma ScheduleCloseMatches(mode: bool, n: Nodes.Node, j: nat, contextsActive: bool)
    requires Sequential(mode, n)
    ensures Matches(mode, n, Nodes.ScheduleClose(j, contextsActive))
  {
    if j < |n.threads| && n.threads[j].stage == Nodes.Closing {
      LoopWaitsForCalls(mode, n, j);
    }
  }

  lemma EndInvocationMatches(mode: bool, n: Nodes.Node)
    requires Sequential(mode, n)
    ensures Matches(mode, n, Nodes.EndInvocation)
  {
  }

  /** A step that leaves invocations, close and input sets alone. */
  predicate KeepsCall(n: Nodes.Node, m: Nodes.Node) {
    m.outstanding == n.outstanding && m.preparedForClose == n.preparedForClose && m.shared.sets == n.shared.sets
  }

  lemma LoopStepKeepsCall(mode: bool, n: Nodes.Node, step: Nodes.Step)
    requires Nodes.TypedNode(n) && (step.Begin? || step.Read? || step.Fill?)
    ensures KeepsCall(n, Nodes.Apply(mode, n, step))
  {
  }

  lemma OtherStepKeepsCall(mode: bool, n: Nodes.Node, step: Nodes.Step)
    requires Nodes.TypedNode(n)
    requires step.Produce? || step.Open? || step.Deliver? || step.CloseNode? || step.Enter? || step.EndRound?
    ensures KeepsCall(n, Nodes.Apply(mode, n, step))
  {
  }

  lemma QuietStepMatches(mode: bool, n: Nodes.Node, step: Nodes.Step)
    requires Sequential(mode, n)
    requires !step.Choose? && !step.Finish? && !step.ScheduleClose? && !step.EndInvocation?
    ensures Matches(mode, n, step)
  {
    if step.Begin? || step.Read? || step.Fill? {
      LoopStepKeepsCall(mode, n, step);
    } else {
      OtherStepKeepsCall(mode, n, step);
    }
    QuietSignals(mode, n, step, Nodes.Apply(mode, n, step));
  }

  lemma QuietSignals(mode: bool, n: Nodes.Node, step: Nodes.Step, m: Nodes.Node)
    requires KeepsCall(n, m)
    requires !step.Choose? && !step.Finish? && !step.ScheduleClose? && !step.EndInvocation?
    ensures CallUnderWay(n) + SignalsOf(mode, Nodes.View(n, Nodes.CurrentPhase(n)), Nodes.ProtocolStep(n, step))
            == NodeSignalsOf(mode, n, step) + CallUnderWay(m)
  {
  }

  lemma StepMatches(mode: bool, n: Nodes.Node, step: Nodes.Step)
    requires Sequential(mode, n) && (step.Finish? ==> step.schedule)
    ensures Matches(mode, n, step)
  {
    match step
    case Choose(j) => ChooseMatches(mode, n, j);
    case Finish(j, _) => FinishMatches(mode, n, j);
    case ScheduleClose(j, active) => ScheduleCloseMatches(mode, n, j, active);
    case EndInvocation => EndInvocationMatches(mode, n);
    case _ => QuietStepMatches(mode, n, step);
  }

  // ---------------------------------------------------------------- runs

  lemma StepStaysSequential(mode: bool, n: Nodes.Node, step: Nodes.Step)
    requires Sequential(mode, n)
    ensures Sequential(mode, Nodes.Apply(mode, n, step))
  {
    Nodes.StepKeepsGate(mode, n, step);
    Nodes.StepKeepsProtocol(mode, n, step);
    StepKeepsLimit(mode, n, step);
    StepMeansClose(mode, n, step);
  }

  lemma InTimePrefix(k: Clock, a: seq<Signal>, b: seq<Signal>)
    requires AllInTime(k, a + b)
    ensures AllInTime(k, a)
    decreases |a|
  {
    if a != [] {
      assert (a + b)[0] == a[0] && (a + b)[1..] == a[1..] + b;
      InTimePrefix(Tick(k, a[0]), a[1..], b);
    }
  }

  /** What the outputs have heard, and what the call under way will tell them. */
  ghost predicate NodeInTime(mode: bool, n: Nodes.Node, heard: seq<Signal>) {
    var all := heard + CallUnderWay(n);
    AllInTime(Opened, all) && ClockHolds(mode, Nodes.View(n, Nodes.CurrentPhase(n)), TickAll(Opened, all))
  }

  lemma StepIsInTime(mode: bool, n: Nodes.Node, step: Nodes.Step, heard: seq<Signal>)
    requires Sequential(mode, n) && (step.Finish? ==> step.schedule) && NodeInTime(mode, n, heard)
    ensures NodeInTime(mode, Nodes.Apply(mode, n, step), heard + NodeSignalsOf(mode, n, step))
  {
    var c := Nodes.View(n, Nodes.CurrentPhase(n));
    var told := SignalsOf(mode, c, Nodes.ProtocolStep(n, step));
    Nodes.SchedulingRefinesProtocol(mode, n, step);
    NextSignalIsInTime(mode, c, Nodes.ProtocolStep(n, step), heard + CallUnderWay(n));
    StepMatches(mode, n, step);
    Regroup(heard, CallUnderWay(n), told, NodeSignalsOf(mode, n, step), CallUnderWay(Nodes.Apply(mode, n, step)));
  }

  lemma Regroup(a: seq<Signal>, b: seq<Signal>, c: seq<Signal>, d: seq<Signal>, e: seq<Signal>)
    requires b + c == d + e
    ensures (a + b) + c == (a + d) + e
  {
    assert (a + b) + c == a + (b + c);
    assert (a + d) + e == a + (d + e);
  }

  lemma {:induction false} NodeRunIsInTime(mode: bool, types: seq<ResolvedType>, steps: seq<Nodes.Step>)
    requires Unbatched(steps)
    ensures var n := Nodes.Run(mode, Nodes.Initial(types, 1), steps);
            Sequential(mode, n) && NodeInTime(mode, n, NodeSignals(mode, Nodes.Initial(types, 1), steps))
    decreases |steps|
  {
    var start := Nodes.Initial(types, 1);
    if steps == [] {
      Nodes.InitialNodeHolds(mode, types, 1);
      ClockStartsRight(mode, types);
      assert [] + CallUnderWay(start) == [];
    } else {
      var front, last := steps[..|steps| - 1], steps[|steps| - 1];
      NodeRunIsInTime(mode, types, front);
      StepStaysSequential(mode, Nodes.Run(mode, start, front), last);
      StepIsInTime(mode, Nodes.Run(mode, start, front), last, NodeSignals(mode, start, front));
    }
  }

  /**
   A whole sequential node: however threads, producers and invocations interleave, a calculator that
   keeps its own promises never has to answer an input that its outputs were told could not come,
   and every bound they promise holds.
   */
  lemma NodeKeepsItsPromise(mode: bool, types: seq<ResolvedType>, steps: seq<Nodes.Step>,
                            offset: OutputStreams.Offset, packetType: ResolvedType,
                            open: seq<OutputStreams.Op>, es: seq<OutputStreams.Event>)
    requires Unbatched(steps) && AllAnswer(es, NodeSignals(mode, Nodes.Initial(types, 1), steps))
    requires WellBehavedRun(OutputStreams.Begin(offset, packetType), [OutputStreams.Call(UNSTARTED, open)] + es)
    ensures var s := OutputStreams.Begin(offset, packetType);
            var all := [OutputStreams.Call(UNSTARTED, open)] + es;
            OutputStreams.AdmissibleRun(s, all) && OutputStreams.PromiseHolds(OutputStreams.AfterRun(s, all))
  {
    var heard := NodeSignals(mode, Nodes.Initial(types, 1), steps);
    NodeRunIsInTime(mode, types, steps);
    InTimePrefix(Opened, heard, CallUnderWay(Nodes.Run(mode, Nodes.Initial(types, 1), steps)));
    TimelySignalsKeepPromises(heard, offset, packetType, open, es);
  }
}
