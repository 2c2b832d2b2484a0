/**
 Scheduling of one node that has input streams.

 Any number of threads may try to enter the node's scheduling loop. Every region that the
 runtime protects by the node's lock is one step; between steps other threads, producers and
 finishing invocations may act. An invocation prepared by the loop may be handed to the
 scheduler at once or held back to fill a batch, so every batch size is covered.
 */
module NodeScheduling {
  import opened Timestamps
  import opened Packets
  import opened PacketTypes
  import opened InputStreams
  import opened SyncSets
  import opened InputProtocol

  /** Only source nodes are ever Active. */
  datatype NodeStatus = Unopened | Opened | Active | Closed

  datatype SchedulingState = Idle | Scheduling | SchedulingPending

  type InFlightLimit = n: nat | 0 < n witness 1

  /** The part of a node that its lock protects. */
  datatype Gate = Gate(status: NodeStatus, state: SchedulingState, inFlight: int, maxInFlight: nat)

  // ---------------------------------------------------------------- lock-protected regions

  /** The outcome of a region: the new gate, and whether the thread goes on into the loop. */
  datatype Passage = Passage(gate: Gate, enter: bool)

  function CheckIfBecameReady(g: Gate): Passage {
    if g.status != Opened then Passage(g, false)
    else if g.state == Idle && g.inFlight < g.maxInFlight then Passage(g.(state := Scheduling), true)
    else if g.state == Scheduling then Passage(g.(state := SchedulingPending), false)
    else Passage(g, false)
  }

  function EndScheduling(g: Gate): Passage {
    if g.status != Opened && g.status != Active then Passage(g, false)
    else
      var h := g.(inFlight := g.inFlight - 1);
      match h.state
      case Scheduling => Passage(h.(state := SchedulingPending), false)
      case SchedulingPending => Passage(h, false)
      case Idle => Passage(h.(state := Scheduling), true)
  }

  /** The first region of the loop; a closed node leaves at once. */
  function EnterLoop(g: Gate): Passage {
    if g.status == Closed then Passage(g.(state := Idle), false) else Passage(g, true)
  }

  /** The last region of an iteration: go round again, or leave. */
  function EndIteration(g: Gate): Passage {
    if g.state == SchedulingPending && g.inFlight < g.maxInFlight then Passage(g.(state := Scheduling), true)
    else Passage(g.(state := Idle), false)
  }

  function TryToBeginScheduling(g: Gate): Passage {
    if g.inFlight < g.maxInFlight then Passage(g.(inFlight := g.inFlight + 1), true) else Passage(g, false)
  }

  // ---------------------------------------------------------------- the machine

  /** Where a thread is inside the loop. */
  datatype Stage =
    | Entering
    | Looping(phase: Phase)
    | Closing
    | Leaving

  datatype Loop = Loop(allowance: int, scheduled: int, stage: Stage)

  /**
   `shared` holds the streams and the handler's fields; each thread keeps its own phase.
   `outstanding` counts invocations begun and not yet ended, `undelivered` the notifications a
   stream change still owes, and `refused` records an invocation that could not begin.
   Parallel contexts stay active only while an invocation is outstanding.
   */
  datatype Node = Node(
    gate: Gate,
    shared: Consumer,
    threads: seq<Loop>,
    outstanding: nat,
    undelivered: nat,
    preparedForClose: bool,
    refused: bool)

  datatype Step =
    | Produce(i: nat, op: ProducerOp)
    | Open
    | Deliver
    | EndInvocation
    | CloseNode
    | Enter(j: nat)
    | Begin(j: nat)
    | Read(j: nat)
    | Choose(j: nat)
    | Fill(j: nat)
    | Finish(j: nat, schedule: bool)
    | ScheduleClose(j: nat, contextsActive: bool)
    | EndRound(j: nat)

  predicate Succeeds(s: Stream, op: ProducerOp)
    requires !s.packetType.SameAs?
  {
    match op
    case Add(ps) => AddPackets(s, ps).status == OK
    case Bound(b) => SetBound(s, b).status == OK
    case Limit(_) => true
  }

  predicate Notifies(s: Stream, op: ProducerOp)
    requires !s.packetType.SameAs?
  {
    match op
    case Add(ps) => AddPackets(s, ps).notify
    case Bound(b) => SetBound(s, b).notify
    case Limit(_) => false
  }

  predicate TypedNode(n: Node) {
    Typed(n.shared) && n.shared.phase == Resting
  }

  /** The handler as thread-local progress `phase` sees it. */
  function View(n: Node, phase: Phase): Consumer {
    n.shared.(phase := phase)
  }

  function Enters(n: Node, p: Passage): Node {
    if p.enter then n.(gate := p.gate, threads := n.threads + [Loop(0, 0, Entering)])
    else n.(gate := p.gate)
  }

  function Leaves(n: Node, j: nat): Node
    requires j < |n.threads|
  {
    n.(threads := n.threads[..j] + n.threads[j + 1..])
  }

  function WithStage(n: Node, j: nat, stage: Stage): Node
    requires j < |n.threads|
  {
    n.(threads := n.threads[j := n.threads[j].(stage := stage)])
  }

  function FreshRound(n: Node, j: nat): Node
    requires j < |n.threads|
  {
    n.(threads := n.threads[j := Loop(n.gate.maxInFlight - n.gate.inFlight, 0, Looping(Resting))])
  }

  /** One step of the input protocol, taken by thread `j`. */
  function Consume(mode: bool, n: Node, j: nat, step: InputProtocol.Step): (r: Node)
    requires TypedNode(n) && j < |n.threads| && n.threads[j].stage.Looping?
    ensures TypedNode(r) && |r.threads| == |n.threads|
  {
    var c := InputProtocol.Apply(mode, View(n, n.threads[j].stage.phase), step);
    WithStage(n.(shared := c.(phase := Resting)), j, Looping(c.phase))
  }

  /** Hands a prepared invocation to the scheduler queue. */
  function BeginInvocation(n: Node, j: nat): Node
    requires j < |n.threads|
  {
    var p := TryToBeginScheduling(n.gate);
    if p.enter then
      n.(gate := p.gate, outstanding := n.outstanding + 1,
         threads := n.threads[j := n.threads[j].(scheduled := n.threads[j].scheduled + 1)])
    else n.(refused := true)
  }

  predicate InLoop(n: Node, j: nat) {
    j < |n.threads| && n.threads[j].stage.Looping?
  }

  function Chosen(mode: bool, n: Node, j: nat): (r: Node)
    requires TypedNode(n) && InLoop(n, j) && n.threads[j].stage.phase.Reading?
    ensures TypedNode(r)
  {
    var phase := n.threads[j].stage.phase;
    var readiness := Decide(mode, phase.scan, n.shared.lastProcessed).readiness;
    var r := Consume(mode, n, j, DecideNow);
    match readiness
    case NotReady => WithStage(r, j, Leaving)
    case ReadyForProcess => r
    case ReadyForClose => WithStage(r, j, Closing)
  }

  /** A producer's successful call, whose notification is still on its way. */
  function Produced(mode: bool, n: Node, i: nat, op: ProducerOp): (r: Node)
    requires TypedNode(n)
    ensures TypedNode(r)
  {
    if i < |n.shared.streams| && Succeeds(n.shared.streams[i], op) then
      n.(shared := InputProtocol.Apply(mode, n.shared, InputProtocol.Produce(i, op)),
         undelivered := n.undelivered + if Notifies(n.shared.streams[i], op) then 1 else 0)
    else n
  }

  function Apply(mode: bool, n: Node, step: Step): (r: Node)
    requires TypedNode(n)
    ensures TypedNode(r)
  {
    match step
    case Produce(i, op) => Produced(mode, n, i, op)
    case Open =>
      if n.gate.status == Unopened then n.(gate := n.gate.(status := Opened), undelivered := n.undelivered + 1) else n
    case Deliver =>
      if n.undelivered > 0 then Enters(n.(undelivered := n.undelivered - 1), CheckIfBecameReady(n.gate)) else n
    case EndInvocation =>
      if n.outstanding > 0 then Enters(n.(outstanding := n.outstanding - 1), EndScheduling(n.gate)) else n
    case CloseNode =>
      if n.outstanding > 0 && n.preparedForClose && n.gate.status == Opened then
        n.(gate := n.gate.(status := Closed))
      else n
    case Enter(j) =>
      if j < |n.threads| && n.threads[j].stage == Entering then
        var p := EnterLoop(n.gate);
        var m := n.(gate := p.gate);
        if p.enter then FreshRound(m, j) else Leaves(m, j)
      else n
    case Begin(j) =>
      if InLoop(n, j) && n.threads[j].stage.phase.Resting? then
        if n.threads[j].scheduled < n.threads[j].allowance then Consume(mode, n, j, StartRead)
        else WithStage(n, j, Leaving)
      else n
    case Read(j) =>
      if InLoop(n, j) && n.threads[j].stage.phase.Reading? && n.threads[j].stage.phase.next < |n.shared.streams|
      then Consume(mode, n, j, ReadNext) else n
    case Choose(j) =>
      if InLoop(n, j) && n.threads[j].stage.phase.Reading? && n.threads[j].stage.phase.next == |n.shared.streams|
      then Chosen(mode, n, j) else n
    case Fill(j) =>
      if InLoop(n, j) && n.threads[j].stage.phase.Filling? && n.threads[j].stage.phase.next < |n.shared.streams|
      then Consume(mode, n, j, FillNext) else n
    case Finish(j, schedule) =>
      if InLoop(n, j) && n.threads[j].stage.phase.Filling? && n.threads[j].stage.phase.next == |n.shared.streams| then
        var m := Consume(mode, n, j, FinishFill);
        if schedule then BeginInvocation(m, j) else m
      else n
    case ScheduleClose(j, contextsActive) =>
      if j < |n.threads| && n.threads[j].stage == Closing then
        var m := WithStage(n, j, Leaving);
        if (contextsActive && n.outstanding > 0) || n.preparedForClose then m
        else BeginInvocation(m, j).(preparedForClose := true)
      else n
    case EndRound(j) =>
      if j < |n.threads| && n.threads[j].stage == Leaving then
        var p := EndIteration(n.gate);
        var m := n.(gate := p.gate);
        if p.enter then FreshRound(m, j) else Leaves(m, j)
      else n
  }

  function Run(mode: bool, n: Node, steps: seq<Step>): (r: Node)
    requires TypedNode(n)
    ensures TypedNode(r)
    decreases |steps|
  {
    if steps == [] then n
    else Apply(mode, Run(mode, n, steps[..|steps| - 1]), steps[|steps| - 1])
  }

  function Initial(types: seq<ResolvedType>, maxInFlight: InFlightLimit): (n: Node)
    ensures TypedNode(n)
  {
    Node(Gate(Unopened, Idle, 0, maxInFlight), InputProtocol.Initial(types), [], 0, 0, false, false)
  }

  // ---------------------------------------------------------------- invariant

  /** At most one thread is in the loop, and the state says whether one is. */
  predicate Exclusive(n: Node) {
    |n.threads| == if n.gate.state == Idle then 0 else 1
  }

  function CurrentPhase(n: Node): Phase {
    if |n.threads| > 0 && n.threads[0].stage.Looping? then n.threads[0].stage.phase else Resting
  }

  predicate InFlightHolds(n: Node) {
    && 0 <= n.outstanding <= n.gate.inFlight <= n.gate.maxInFlight && 0 < n.gate.maxInFlight
    && (n.gate.status != Closed ==> n.gate.inFlight == n.outstanding)
    && (n.gate.status == Unopened ==> n.gate.inFlight == 0 && n.gate.state == Idle)
    && !n.refused
  }

  /** The loop never schedules more than there is room for; exactly as much if nothing ended since. */
  predicate AllowanceHolds(n: Node) {
    forall j :: 0 <= j < |n.threads| && n.threads[j].stage != Entering ==>
      var t := n.threads[j];
      && 0 <= t.scheduled <= t.allowance
      && (t.stage == Closing || (t.stage.Looping? && !t.stage.phase.Resting?) ==> t.scheduled < t.allowance)
      && n.gate.inFlight + (t.allowance - t.scheduled) <= n.gate.maxInFlight
      && (n.gate.state == Scheduling && n.gate.status == Opened ==>
            n.gate.inFlight + (t.allowance - t.scheduled) == n.gate.maxInFlight)
  }

  /** What a reader that was not interrupted would decide right now. */
  function ReadinessNow(mode: bool, c: Consumer): Readiness {
    Decide(mode, ScanAll(Observations(c.streams)), c.lastProcessed).readiness
  }

  /** Every stream change has been reported to an opened node. */
  predicate Quiet(n: Node) {
    n.gate.status == Opened && n.undelivered == 0
  }

  /** What the loop's thread knows about the streams when no report is missing or pending. */
  predicate ReadsAreCurrent(mode: bool, n: Node, stage: Stage) {
    match stage
    case Entering => true
    case Looping(phase) =>
      phase.Reading? ==> phase.next <= |n.shared.streams| && phase.scan == ScanAll(Observations(n.shared.streams)[..phase.next])
    case Closing => ReadinessNow(mode, n.shared) == ReadyForClose
    case Leaving => NothingToDo(mode, n)
  }

  /** No input set is left to schedule, and a finished node has its close scheduled. */
  predicate NothingToDo(mode: bool, n: Node) {
    && (n.gate.inFlight < n.gate.maxInFlight ==> ReadinessNow(mode, n.shared) != ReadyForProcess)
    && (n.outstanding == 0 && ReadinessNow(mode, n.shared) == ReadyForClose ==> n.preparedForClose)
  }

  predicate WakeupHolds(mode: bool, n: Node) {
    Quiet(n) ==>
      && (n.threads == [] ==> NothingToDo(mode, n))
      && (n.gate.state == Scheduling && |n.threads| == 1 ==> ReadsAreCurrent(mode, n, n.threads[0].stage))
  }

  predicate GateInv(mode: bool, n: Node) {
    Exclusive(n) && InFlightHolds(n) && AllowanceHolds(n) && WakeupHolds(mode, n)
  }

  ghost predicate NodeInv(mode: bool, n: Node) {
    && GateInv(mode, n)
    && InputProtocol.Inv(mode, View(n, CurrentPhase(n)))
  }

  lemma InitialNodeHolds(mode: bool, types: seq<ResolvedType>, maxInFlight: InFlightLimit)
    ensures NodeInv(mode, Initial(types, maxInFlight))
  {
    InitialHolds(mode, types);
  }

  // ---------------------------------------------------------------- refinement of the input protocol

  /** The protocol step that a scheduling step performs; anything that is none maps to a disabled one. */
  function ProtocolStep(n: Node, step: Step): InputProtocol.Step {
    match step
    case Produce(i, op) =>
      if i < |n.shared.streams| && !n.shared.streams[i].packetType.SameAs? && Succeeds(n.shared.streams[i], op)
      then InputProtocol.Produce(i, op) else Nothing(n)
    case Begin(j) =>
      if InLoop(n, j) && n.threads[j].stage.phase.Resting? && n.threads[j].scheduled < n.threads[j].allowance
      then StartRead else Nothing(n)
    case Read(j) => if j == 0 then ReadNext else Nothing(n)
    case Choose(j) => if j == 0 then DecideNow else Nothing(n)
    case Fill(j) => if j == 0 then FillNext else Nothing(n)
    case Finish(j, _) => if j == 0 then FinishFill else Nothing(n)
    case _ => Nothing(n)
  }

  function Nothing(n: Node): InputProtocol.Step {
    InputProtocol.Produce(|n.shared.streams|, Limit(0))
  }

  ghost predicate RefinesStep(mode: bool, n: Node, m: Node, step: InputProtocol.Step)
    requires TypedNode(n)
  {
    View(m, CurrentPhase(m)) == InputProtocol.Apply(mode, View(n, CurrentPhase(n)), step)
  }

  lemma ConsumeRefines(mode: bool, n: Node, step: InputProtocol.Step)
    requires TypedNode(n) && |n.threads| == 1 && InLoop(n, 0)
    ensures RefinesStep(mode, n, Consume(mode, n, 0, step), step)
  {
  }

  lemma NothingRefines(mode: bool, n: Node, m: Node)
    requires TypedNode(n) && m.shared == n.shared && CurrentPhase(m) == CurrentPhase(n)
    ensures RefinesStep(mode, n, m, Nothing(n))
  {
  }

  lemma GateStepRefines(mode: bool, n: Node, step: Step)
    requires TypedNode(n) && Exclusive(n)
    requires step.Open? || step.Deliver? || step.EndInvocation? || step.CloseNode? || step.Enter? || step.ScheduleClose? || step.EndRound?
    ensures RefinesStep(mode, n, Apply(mode, n, step), Nothing(n))
  {
    NothingRefines(mode, n, Apply(mode, n, step));
  }

  lemma BeginRefines(mode: bool, n: Node, j: nat)
    requires TypedNode(n) && Exclusive(n)
    ensures RefinesStep(mode, n, Apply(mode, n, Begin(j)), ProtocolStep(n, Begin(j)))
  {
    if InLoop(n, j) {
      ConsumeRefines(mode, n, StartRead);
    }
  }

  lemma ReadRefines(mode: bool, n: Node, j: nat)
    requires TypedNode(n) && Exclusive(n)
    ensures RefinesStep(mode, n, Apply(mode, n, Read(j)), ProtocolStep(n, Read(j)))
    ensures RefinesStep(mode, n, Apply(mode, n, Fill(j)), ProtocolStep(n, Fill(j)))
  {
    if InLoop(n, j) {
      ConsumeRefines(mode, n, ReadNext);
      ConsumeRefines(mode, n, FillNext);
    }
  }

  lemma ChooseRefines(mode: bool, n: Node, j: nat)
    requires TypedNode(n) && Exclusive(n)
    ensures RefinesStep(mode, n, Apply(mode, n, Choose(j)), ProtocolStep(n, Choose(j)))
  {
    if InLoop(n, j) {
      ConsumeRefines(mode, n, DecideNow);
    }
  }

  lemma FinishRefines(mode: bool, n: Node, j: nat, schedule: bool)
    requires TypedNode(n) && Exclusive(n)
    ensures RefinesStep(mode, n, Apply(mode, n, Finish(j, schedule)), ProtocolStep(n, Finish(j, schedule)))
  {
    if InLoop(n, j) {
      ConsumeRefines(mode, n, FinishFill);
    }
  }

  /** With one thread in the loop, every scheduling step is a step of the input protocol or none. */
  lemma SchedulingRefinesProtocol(mode: bool, n: Node, step: Step)
    requires TypedNode(n) && Exclusive(n)
    ensures RefinesStep(mode, n, Apply(mode, n, step), ProtocolStep(n, step))
  {
    match step
    case Produce(i, op) =>
    case Begin(j) => BeginRefines(mode, n, j);
    case Read(j) => ReadRefines(mode, n, j);
    case Choose(j) => ChooseRefines(mode, n, j);
    case Fill(j) => ReadRefines(mode, n, j);
    case Finish(j, schedule) => FinishRefines(mode, n, j, schedule);
    case _ => GateStepRefines(mode, n, step);
  }

  // ---------------------------------------------------------------- every step keeps the invariant

  /**
   Which producer calls succeed, by their arguments: an orderly batch, a bound that is not lower, and
   any limit. A closed stream takes every call and changes nothing but its limit.
   */
  lemma SucceedsExactly(s: Stream, op: ProducerOp)
    requires Valid(s)
    ensures Succeeds(s, op) <==>
              match op
              case Add(ps) => s.closed || Orderly(s, ps)
              case Bound(b) => s.closed || s.bound <= b
              case Limit(_) => true
  {
    match op
    case Add(ps) => if !s.closed { BatchIsAcceptedIffOrderly(s, ps); }
    case Bound(b) => if !s.closed { BoundIsRefusedIffLower(s, b); }
    case Limit(_) =>
  }

  /** A successful call notifies exactly if it changes what a consumer sees. */
  lemma NotifiedIffSeen(s: Stream, op: ProducerOp)
    requires Valid(s) && Succeeds(s, op)
    ensures Notifies(s, op) <==> Observe(ProduceOn(s, op)) != Observe(s)
  {
    match op
    case Add(ps) => NotifiesIffObservable(s, ps, s.bound);
    case Bound(b) => NotifiesIffObservable(s, [], b);
    case Limit(_) =>
  }

  /** A call that does not notify leaves what a consumer sees unchanged. */
  lemma SilentIsUnobservable(s: Stream, op: ProducerOp)
    requires Valid(s) && Succeeds(s, op) && !Notifies(s, op)
    ensures Observe(ProduceOn(s, op)) == Observe(s)
  {
    NotifiedIffSeen(s, op);
  }

  lemma SilentKeepsObservations(streams: seq<Stream>, i: nat, op: ProducerOp)
    requires i < |streams| && Valid(streams[i]) && Succeeds(streams[i], op) && !Notifies(streams[i], op)
    ensures Observations(streams[i := ProduceOn(streams[i], op)]) == Observations(streams)
  {
    SilentIsUnobservable(streams[i], op);
  }

  /** What the gate knows of the streams is what can be observed of them. */
  lemma SameObservationsKeepGate(mode: bool, n: Node, c: Consumer, undelivered: nat)
    requires GateInv(mode, n) && n.undelivered <= undelivered
    requires undelivered == n.undelivered ==> Observations(c.streams) == Observations(n.shared.streams)
    requires |c.streams| == |n.shared.streams| && c.lastProcessed == n.shared.lastProcessed
    ensures GateInv(mode, n.(shared := c, undelivered := undelivered))
  {
  }

  lemma ProduceKeepsGate(mode: bool, n: Node, i: nat, op: ProducerOp)
    requires TypedNode(n) && GateInv(mode, n)
    requires i < |n.shared.streams| ==> Valid(n.shared.streams[i])
    ensures GateInv(mode, Apply(mode, n, Step.Produce(i, op)))
  {
    if i < |n.shared.streams| && Succeeds(n.shared.streams[i], op) {
      if !Notifies(n.shared.streams[i], op) {
        SilentKeepsObservations(n.shared.streams, i, op);
      }
      var m := Produced(mode, n, i, op);
      SameObservationsKeepGate(mode, n, m.shared, m.undelivered);
    }
  }

  lemma DeliverKeepsGate(mode: bool, n: Node)
    requires TypedNode(n) && GateInv(mode, n)
    ensures GateInv(mode, Apply(mode, n, Deliver))
  {
  }

  lemma OpenKeepsGate(mode: bool, n: Node)
    requires TypedNode(n) && GateInv(mode, n)
    ensures GateInv(mode, Apply(mode, n, Open))
  {
  }

  lemma CloseKeepsGate(mode: bool, n: Node)
    requires TypedNode(n) && GateInv(mode, n)
    ensures GateInv(mode, Apply(mode, n, CloseNode))
  {
  }

  lemma EndInvocationKeepsGate(mode: bool, n: Node)
    requires TypedNode(n) && GateInv(mode, n)
    ensures GateInv(mode, Apply(mode, n, EndInvocation))
  {
  }

  lemma EnterKeepsGate(mode: bool, n: Node, j: nat)
    requires TypedNode(n) && GateInv(mode, n)
    ensures GateInv(mode, Apply(mode, n, Enter(j)))
  {
  }

  lemma EndRoundKeepsGate(mode: bool, n: Node, j: nat)
    requires TypedNode(n) && GateInv(mode, n)
    ensures GateInv(mode, Apply(mode, n, EndRound(j)))
  {
    if j < |n.threads| && n.threads[j].stage == Leaving {
      var p := EndIteration(n.gate);
      if p.enter {
        NextRoundKeepsGate(mode, n, j, p.gate);
      } else {
        LastRoundKeepsGate(mode, n, j, p.gate);
      }
    }
  }

  lemma NextRoundKeepsGate(mode: bool, n: Node, j: nat, g: Gate)
    requires TypedNode(n) && GateInv(mode, n) && j < |n.threads|
    requires n.gate.state == SchedulingPending && n.gate.inFlight < n.gate.maxInFlight && g == n.gate.(state := Scheduling)
    ensures GateInv(mode, FreshRound(n.(gate := g), j))
  {
  }

  lemma LastRoundKeepsGate(mode: bool, n: Node, j: nat, g: Gate)
    requires TypedNode(n) && GateInv(mode, n) && j < |n.threads| && n.threads[j].stage == Leaving
    requires !(n.gate.state == SchedulingPending && n.gate.inFlight < n.gate.maxInFlight) && g == n.gate.(state := Idle)
    ensures GateInv(mode, Leaves(n.(gate := g), j))
  {
    assert n.threads[..j] + n.threads[j + 1..] == [];
  }

  lemma {:induction false} BeginKeepsGate(mode: bool, n: Node, j: nat)
    requires TypedNode(n) && GateInv(mode, n)
    ensures GateInv(mode, Apply(mode, n, Begin(j)))
  {
    if InLoop(n, j) && n.threads[j].stage.phase.Resting? {
      assert Observations(n.shared.streams)[..0] == [];
    }
  }

  lemma {:induction false} ReadKeepsGate(mode: bool, n: Node, j: nat)
    requires TypedNode(n) && GateInv(mode, n)
    ensures GateInv(mode, Apply(mode, n, Read(j)))
  {
    if InLoop(n, j) && n.threads[j].stage.phase.Reading? && n.threads[j].stage.phase.next < |n.shared.streams| {
      var k := n.threads[j].stage.phase.next;
      var os := Observations(n.shared.streams);
      assert os[..k + 1][..k] == os[..k];
    }
  }

  /** A decision taken on a complete and current scan is the decision of the streams as they are. */
  lemma DecisionIsCurrent(mode: bool, c: Consumer, scan: Scan)
    requires scan == ScanAll(Observations(c.streams)[..|c.streams|])
    ensures var d := Decide(mode, scan, c.lastProcessed);
            d.readiness != ReadyForProcess ==> ReadinessNow(mode, c.(lastProcessed := d.lastProcessed)) == d.readiness
  {
    var os := Observations(c.streams);
    assert os[..|c.streams|] == os;
    var d := Decide(mode, scan, c.lastProcessed);
    CloseMeansNothingLeft(mode, scan, c.lastProcessed);
    CloseMeansNothingLeft(mode, scan, d.lastProcessed);
  }

  function StageAfter(d: Decision): Stage {
    match d.readiness
    case NotReady => Leaving
    case ReadyForProcess => Looping(Filling(d.ts, 0, []))
    case ReadyForClose => Closing
  }

  /** `m` is `n` after its only thread took decision `d`. */
  predicate DecisionTaken(n: Node, m: Node, d: Decision) {
    && |n.threads| == 1
    && m.gate == n.gate && m.outstanding == n.outstanding && m.undelivered == n.undelivered
    && m.preparedForClose == n.preparedForClose && m.refused == n.refused
    && m.shared.streams == n.shared.streams && m.shared.lastProcessed == d.lastProcessed
    && m.threads == [n.threads[0].(stage := StageAfter(d))]
  }

  lemma ChosenTakesDecision(mode: bool, n: Node)
    requires TypedNode(n) && |n.threads| == 1 && InLoop(n, 0)
    requires n.threads[0].stage.phase.Reading? && n.threads[0].stage.phase.next == |n.shared.streams|
    ensures DecisionTaken(n, Chosen(mode, n, 0), Decide(mode, n.threads[0].stage.phase.scan, n.shared.lastProcessed))
  {
  }

  lemma DecisionKeepsGate(mode: bool, n: Node, m: Node, scan: Scan)
    requires GateInv(mode, n) && DecisionTaken(n, m, Decide(mode, scan, n.shared.lastProcessed))
    requires n.threads[0].stage == Looping(Reading(|n.shared.streams|, scan))
    ensures GateInv(mode, m)
  {
    if scan == ScanAll(Observations(n.shared.streams)[..|n.shared.streams|]) {
      DecisionIsCurrent(mode, n.shared, scan);
    }
  }

  lemma ChooseKeepsGate(mode: bool, n: Node, j: nat)
    requires TypedNode(n) && GateInv(mode, n)
    ensures GateInv(mode, Apply(mode, n, Choose(j)))
  {
    if InLoop(n, j) && n.threads[j].stage.phase.Reading? && n.threads[j].stage.phase.next == |n.shared.streams| {
      ChosenTakesDecision(mode, n);
      DecisionKeepsGate(mode, n, Chosen(mode, n, 0), n.threads[0].stage.phase.scan);
    }
  }

  lemma FillKeepsGate(mode: bool, n: Node, j: nat)
    requires TypedNode(n) && GateInv(mode, n)
    ensures GateInv(mode, Apply(mode, n, Fill(j)))
  {
  }

  lemma FinishKeepsGate(mode: bool, n: Node, j: nat, schedule: bool)
    requires TypedNode(n) && GateInv(mode, n)
    ensures GateInv(mode, Apply(mode, n, Finish(j, schedule)))
  {
    if InLoop(n, j) && n.threads[j].stage.phase.Filling? && n.threads[j].stage.phase.next == |n.shared.streams| {
      var m := Consume(mode, n, j, FinishFill);
      FilledSetKeepsGate(mode, n, j);
      BeginInvocationKeepsGate(mode, m, j);
    }
  }

  lemma FilledSetKeepsGate(mode: bool, n: Node, j: nat)
    requires TypedNode(n) && GateInv(mode, n)
    requires InLoop(n, j) && n.threads[j].stage.phase.Filling? && n.threads[j].stage.phase.next == |n.shared.streams|
    ensures var m := Consume(mode, n, j, FinishFill);
            && GateInv(mode, m) && m.threads[j].stage == Looping(Resting) && m.threads[j].scheduled < m.threads[j].allowance
  {
  }

  lemma BeginInvocationKeepsGate(mode: bool, n: Node, j: nat)
    requires GateInv(mode, n) && j < |n.threads| && n.threads[j].stage == Looping(Resting) && n.threads[j].scheduled < n.threads[j].allowance
    ensures GateInv(mode, BeginInvocation(n, j))
  {
  }

  lemma ScheduleCloseKeepsGate(mode: bool, n: Node, j: nat, contextsActive: bool)
    requires TypedNode(n) && GateInv(mode, n)
    ensures GateInv(mode, Apply(mode, n, ScheduleClose(j, contextsActive)))
  {
  }

  // ---------------------------------------------------------------- theorems

  lemma StepKeepsGate(mode: bool, n: Node, step: Step)
    requires TypedNode(n) && NodeInv(mode, n)
    ensures GateInv(mode, Apply(mode, n, step))
  {
    match step
    case Produce(i, op) =>
      var c := View(n, CurrentPhase(n));
      assert i < |c.streams| ==> StreamHolds(c.streams[i], i, c.phase, LastTs(c), Contributed(c, i));
      ProduceKeepsGate(mode, n, i, op);
    case Open => OpenKeepsGate(mode, n);
    case Deliver => DeliverKeepsGate(mode, n);
    case CloseNode => CloseKeepsGate(mode, n);
    case EndInvocation => EndInvocationKeepsGate(mode, n);
    case Enter(j) => EnterKeepsGate(mode, n, j);
    case Begin(j) => BeginKeepsGate(mode, n, j);
    case Read(j) => ReadKeepsGate(mode, n, j);
    case Choose(j) => ChooseKeepsGate(mode, n, j);
    case Fill(j) => FillKeepsGate(mode, n, j);
    case Finish(j, schedule) => FinishKeepsGate(mode, n, j, schedule);
    case ScheduleClose(j, active) => ScheduleCloseKeepsGate(mode, n, j, active);
    case EndRound(j) => EndRoundKeepsGate(mode, n, j);
  }

  lemma StepKeepsProtocol(mode: bool, n: Node, step: Step)
    requires TypedNode(n) && NodeInv(mode, n)
    ensures var m := Apply(mode, n, step); InputProtocol.Inv(mode, View(m, CurrentPhase(m)))
  {
    SchedulingRefinesProtocol(mode, n, step);
    StepHolds(mode, View(n, CurrentPhase(n)), ProtocolStep(n, step));
  }

  /** Every interleaving keeps the invariant. */
  lemma {:induction false} EveryNodeRunHolds(mode: bool, types: seq<ResolvedType>, maxInFlight: InFlightLimit, steps: seq<Step>)
    ensures NodeInv(mode, Run(mode, Initial(types, maxInFlight), steps))
    decreases |steps|
  {
    if steps == [] {
      InitialNodeHolds(mode, types, maxInFlight);
    } else {
      var init := steps[..|steps| - 1];
      EveryNodeRunHolds(mode, types, maxInFlight, init);
      StepKeepsGate(mode, Run(mode, Initial(types, maxInFlight), init), steps[|steps| - 1]);
      StepKeepsProtocol(mode, Run(mode, Initial(types, maxInFlight), init), steps[|steps| - 1]);
    }
  }

  /** An opened node that rests although it has room has no input set ready, nor a close left unscheduled. */
  lemma NoLostWakeup(mode: bool, types: seq<ResolvedType>, maxInFlight: InFlightLimit, steps: seq<Step>)
    ensures var n := Run(mode, Initial(types, maxInFlight), steps);
            n.gate.status == Opened && n.gate.state == Idle && n.undelivered == 0 ==>
              && (n.gate.inFlight < n.gate.maxInFlight ==> ReadinessNow(mode, n.shared) != ReadyForProcess)
              && (n.outstanding == 0 && ReadinessNow(mode, n.shared) == ReadyForClose ==> n.preparedForClose)
  {
    EveryNodeRunHolds(mode, types, maxInFlight, steps);
  }

  /** A complete input set is given to the scheduler at once, or held back for a batch and begins nothing. */
  lemma CompleteSetBeginsOrWaits(mode: bool, n: Node, j: nat, schedule: bool)
    requires TypedNode(n) && InLoop(n, j) && n.threads[j].stage.phase.Filling? && n.threads[j].stage.phase.next == |n.shared.streams|
    ensures var m := Apply(mode, n, Finish(j, schedule));
            var begun := if schedule && n.gate.inFlight < n.gate.maxInFlight then 1 else 0;
            && |m.shared.sets| == |n.shared.sets| + 1
            && m.outstanding == n.outstanding + begun && m.gate.inFlight == n.gate.inFlight + begun
            && m.threads[j].scheduled == n.threads[j].scheduled + begun
  {
  }

  /** The thread fills an input set, or is to schedule the close: the next thing is an invocation. */
  predicate AboutToBegin(t: Loop) {
    t.stage == Closing || (t.stage.Looping? && t.stage.phase.Filling?)
  }

  lemma RoomToBegin(mode: bool, n: Node)
    requires GateInv(mode, n)
    ensures forall j :: 0 <= j < |n.threads| && AboutToBegin(n.threads[j]) ==> n.gate.inFlight < n.gate.maxInFlight
  {
  }

  /** One thread at most is in the loop, room is never exceeded or overdrawn, and an invocation that was prepared always has room. */
  lemma SchedulingIsExclusive(mode: bool, types: seq<ResolvedType>, maxInFlight: InFlightLimit, steps: seq<Step>)
    ensures var n := Run(mode, Initial(types, maxInFlight), steps);
            && |n.threads| <= 1
            && (n.gate.state == Idle <==> n.threads == [])
            && 0 <= n.gate.inFlight <= n.gate.maxInFlight
            && (forall j :: 0 <= j < |n.threads| && AboutToBegin(n.threads[j]) ==> n.gate.inFlight < n.gate.maxInFlight)
            && !n.refused
  {
    EveryNodeRunHolds(mode, types, maxInFlight, steps);
    RoomToBegin(mode, Run(mode, Initial(types, maxInFlight), steps));
  }

  /** Whatever the scheduling, each input set holds exactly the packets accepted at its timestamp. */
  lemma ScheduledInputSetsAreExact(mode: bool, types: seq<ResolvedType>, maxInFlight: InFlightLimit, steps: seq<Step>, j: nat, i: nat, p: Packet)
    requires var c := Run(mode, Initial(types, maxInFlight), steps).shared; j < |c.sets| && i < |c.streams|
    ensures var c := Run(mode, Initial(types, maxInFlight), steps).shared;
            && c.dropped == 0 && i < |c.sets[j].packets|
            && (p in c.streams[i].accepted && p.ts == c.sets[j].ts <==> p.Data? && c.sets[j].packets[i] == p)
  {
    EveryNodeRunHolds(mode, types, maxInFlight, steps);
    var n := Run(mode, Initial(types, maxInFlight), steps);
    InputSetsAreExact(mode, View(n, CurrentPhase(n)), j, i, p);
  }
}
