/**
 A node comes to its end. Once all of its input streams have ended, whatever its threads do ends
 after a bounded number of steps, and when nothing is left to do every packet has been handed over
 and the close has been scheduled.
 */
module NodeProgress {
  import opened Timestamps
  import opened Packets
  import opened PacketTypes
  import opened InputStreams
  import opened SyncSets
  import opened InputProtocol
  import opened InputDraining
  import opened NodeScheduling

  type Act = NodeScheduling.Step

  // ---------------------------------------------------------------- more invariants

  /** A close is prepared only after it was seen to be due, and only an invocation closes the node. */
  predicate CloseOrder(n: Node) {
    && n.gate.status != Active
    && (n.gate.status == NodeStatus.Closed ==> n.preparedForClose && n.gate.inFlight > 0)
    && (n.preparedForClose ==> n.shared.closeSeen && n.gate.status != Unopened)
    && (|n.threads| > 0 && n.threads[0].stage == Closing ==> n.shared.closeSeen)
  }

  function Handler(n: Node): Consumer {
    View(n, CurrentPhase(n))
  }

  ghost predicate Healthy(mode: bool, n: Node) {
    TypedNode(n) && NodeInv(mode, n) && ClockHolds(Handler(n)) && CloseOrder(n)
  }

  lemma StepContinuesHandler(mode: bool, n: Node, act: Act)
    requires TypedNode(n) && Exclusive(n)
    ensures n.shared.closeSeen ==> NodeScheduling.Apply(mode, n, act).shared.closeSeen
    ensures |NodeScheduling.Apply(mode, n, act).shared.streams| == |n.shared.streams|
  {
    SchedulingRefinesProtocol(mode, n, act);
    StepContinues(mode, Handler(n), ProtocolStep(n, act));
  }

  lemma ChosenKeepsCloseOrder(mode: bool, n: Node)
    requires TypedNode(n) && |n.threads| == 1 && InLoop(n, 0) && n.threads[0].stage.phase.Reading? && CloseOrder(n)
    requires n.threads[0].stage.phase.next == |n.shared.streams|
    ensures CloseOrder(Chosen(mode, n, 0))
  {
  }

  lemma GateStepKeepsCloseOrder(mode: bool, n: Node, act: Act)
    requires TypedNode(n) && GateInv(mode, n) && CloseOrder(n)
    requires act.Open? || act.Deliver? || act.EndInvocation? || act.CloseNode? || act.Enter? || act.ScheduleClose? || act.EndRound?
    ensures CloseOrder(NodeScheduling.Apply(mode, n, act))
  {
  }

  lemma {:induction false} StepKeepsCloseOrder(mode: bool, n: Node, act: Act)
    requires TypedNode(n) && GateInv(mode, n) && CloseOrder(n)
    ensures CloseOrder(NodeScheduling.Apply(mode, n, act))
  {
    match act
    case Produce(_, _) => StepContinuesHandler(mode, n, act);
    case Begin(_) => StepContinuesHandler(mode, n, act);
    case Read(_) => StepContinuesHandler(mode, n, act);
    case Fill(_) => StepContinuesHandler(mode, n, act);
    case Finish(_, _) => StepContinuesHandler(mode, n, act);
    case Choose(j) =>
      if InLoop(n, j) && n.threads[j].stage.phase.Reading? && n.threads[j].stage.phase.next == |n.shared.streams| {
        ChosenKeepsCloseOrder(mode, n);
      }
    case _ => GateStepKeepsCloseOrder(mode, n, act);
  }

  lemma {:induction false} StepKeepsHealth(mode: bool, n: Node, act: Act)
    requires Healthy(mode, n)
    ensures Healthy(mode, NodeScheduling.Apply(mode, n, act))
  {
    StepKeepsGate(mode, n, act);
    StepKeepsProtocol(mode, n, act);
    StepKeepsCloseOrder(mode, n, act);
    SchedulingRefinesProtocol(mode, n, act);
    StepKeepsClock(mode, Handler(n), ProtocolStep(n, act));
  }

  lemma {:induction false} RunIsHealthy(mode: bool, types: seq<ResolvedType>, maxInFlight: InFlightLimit, acts: seq<Act>)
    ensures Healthy(mode, NodeScheduling.Run(mode, NodeScheduling.Initial(types, maxInFlight), acts))
    decreases |acts|
  {
    if acts == [] {
      InitialNodeHolds(mode, types, maxInFlight);
    } else {
      var front := acts[..|acts| - 1];
      RunIsHealthy(mode, types, maxInFlight, front);
      StepKeepsHealth(mode, NodeScheduling.Run(mode, NodeScheduling.Initial(types, maxInFlight), front), acts[|acts| - 1]);
    }
  }

  // ---------------------------------------------------------------- the node alone

  /** Steps without producers keep the streams ended and accept nothing. */
  lemma {:induction false} StepAloneInNode(mode: bool, n: Node, act: Act)
    requires Healthy(mode, n) && !act.Produce?
    ensures var m := NodeScheduling.Apply(mode, n, act);
            && SameAccepted(n.shared.streams, m.shared.streams)
            && (AllEnded(n.shared.streams) ==> AllEnded(m.shared.streams))
  {
    SchedulingRefinesProtocol(mode, n, act);
    var c, step := Handler(n), ProtocolStep(n, act);
    if step.Produce? {
      assert InputProtocol.Apply(mode, c, step) == c;
    } else {
      StepAlone(mode, c, step);
    }
  }

  // ---------------------------------------------------------------- when nothing is left to do

  /** The step that a single thread, or else the runtime, can take. */
  function NextStep(n: Node): Act {
    if n.threads != [] then
      match n.threads[0].stage
      case Entering => Enter(0)
      case Looping(phase) =>
        (match phase
         case Resting => Begin(0)
         case Reading(k, _) => if k < |n.shared.streams| then Read(0) else Choose(0)
         case Filling(_, k, _) => if k < |n.shared.streams| then Fill(0) else Finish(0, true))
      case Closing => ScheduleClose(0, false)
      case Leaving => EndRound(0)
    else if n.undelivered > 0 then Deliver
    else if n.gate.status == Unopened then Open
    else EndInvocation
  }

  lemma OutsideThreadActs(mode: bool, n: Node)
    requires TypedNode(n) && |n.threads| == 1 && !n.threads[0].stage.Looping?
    ensures NodeScheduling.Apply(mode, n, NextStep(n)).threads != n.threads
  {
    var m := NodeScheduling.Apply(mode, n, NextStep(n));
    assert m.threads == [] || m.threads[0].stage != n.threads[0].stage;
  }

  lemma ReadingThreadActs(mode: bool, n: Node)
    requires TypedNode(n) && |n.threads| == 1 && InLoop(n, 0)
    requires n.threads[0].stage.phase.Reading? && n.threads[0].stage.phase.next <= |n.shared.streams|
    ensures NodeScheduling.Apply(mode, n, NextStep(n)).threads != n.threads
  {
    var m := NodeScheduling.Apply(mode, n, NextStep(n));
    if n.threads[0].stage.phase.next == |n.shared.streams| {
      ChosenTakesDecision(mode, n);
    }
    assert m.threads[0].stage != n.threads[0].stage;
  }

  lemma RestingThreadActs(mode: bool, n: Node)
    requires TypedNode(n) && |n.threads| == 1 && InLoop(n, 0) && n.threads[0].stage.phase.Resting?
    ensures NodeScheduling.Apply(mode, n, NextStep(n)).threads != n.threads
  {
    var m := NodeScheduling.Apply(mode, n, NextStep(n));
    assert m.threads[0].stage != n.threads[0].stage;
  }

  lemma {:induction false} FillingThreadActs(mode: bool, n: Node)
    requires TypedNode(n) && |n.threads| == 1 && InLoop(n, 0)
    requires n.threads[0].stage.phase.Filling? && n.threads[0].stage.phase.next <= |n.shared.streams|
    ensures NodeScheduling.Apply(mode, n, NextStep(n)).threads != n.threads
  {
    var m := NodeScheduling.Apply(mode, n, NextStep(n));
    assert m.threads[0].stage != n.threads[0].stage;
  }

  lemma ThreadActs(mode: bool, n: Node)
    requires TypedNode(n) && |n.threads| == 1 && PhaseShaped(mode, Handler(n))
    ensures NodeScheduling.Apply(mode, n, NextStep(n)).threads != n.threads
  {
    if !n.threads[0].stage.Looping? {
      OutsideThreadActs(mode, n);
    } else if n.threads[0].stage.phase.Reading? {
      ReadingThreadActs(mode, n);
    } else if n.threads[0].stage.phase.Resting? {
      RestingThreadActs(mode, n);
    } else {
      FillingThreadActs(mode, n);
    }
  }

  /** No step that a thread of the node or the runtime can take changes anything. */
  ghost predicate Stable(mode: bool, n: Node)
    requires TypedNode(n)
  {
    forall act: Act :: !act.Produce? ==> NodeScheduling.Apply(mode, n, act) == n
  }

  lemma StableIsQuiet(mode: bool, n: Node)
    requires Healthy(mode, n) && NodeScheduling.Apply(mode, n, NextStep(n)) == n
    ensures n.threads == [] && n.undelivered == 0 && n.outstanding == 0 && n.gate.status != Unopened
  {
    if n.threads != [] {
      ThreadActs(mode, n);
    }
  }

  /** All that was accepted has been handed over, and the close has been scheduled. */
  ghost predicate Finished(n: Node) {
    && n.preparedForClose && n.shared.closeSeen && SetsShaped(n.shared.sets, |n.shared.streams|)
    && forall i :: 0 <= i < |n.shared.streams| ==>
         n.shared.streams[i].queue == [] && Delivered(n.shared.sets, i) == n.shared.streams[i].accepted
  }

  lemma PreparedIsFinished(mode: bool, n: Node)
    requires Healthy(mode, n) && n.preparedForClose
    ensures Finished(n)
  {
    forall i | 0 <= i < |n.shared.streams|
      ensures n.shared.streams[i].queue == [] && Delivered(n.shared.sets, i) == n.shared.streams[i].accepted
    {
      ClosedIsDrained(mode, Handler(n), i);
    }
  }

  lemma EndedReadiness(mode: bool, n: Node)
    requires Healthy(mode, n) && AllEnded(n.shared.streams) && n.threads == [] && !n.shared.closeSeen
    ensures ReadinessNow(mode, n.shared) != NotReady
  {
    EndedVerdict(mode, Handler(n));
    assert ReadinessNow(mode, n.shared) == Verdict(mode, Handler(n)).readiness;
  }

  lemma CloseSeenIsReady(mode: bool, n: Node)
    requires Healthy(mode, n) && n.shared.closeSeen && n.threads == []
    ensures ReadinessNow(mode, n.shared) == ReadyForClose
  {
    var ss := n.shared.streams;
    assert forall i :: 0 <= i < |ss| ==> Exhausted(ss[i]);
    EndedScan(ss);
    ExhaustedScan(ss);
    CloseMeansNothingLeft(mode, ScanAll(Observations(ss)), n.shared.lastProcessed);
  }

  lemma {:induction false} ExhaustedScan(ss: seq<Stream>)
    requires forall i :: 0 <= i < |ss| ==> Exhausted(ss[i])
    ensures ScanAll(Observations(ss)).minPacket == DONE
    decreases |ss|
  {
    if ss != [] {
      var front := ss[..|ss| - 1];
      ExhaustedScan(front);
      assert Observations(ss)[..|ss| - 1] == Observations(front);
    }
  }

  lemma StableIsFinished(mode: bool, n: Node)
    requires Healthy(mode, n) && AllEnded(n.shared.streams) && NodeScheduling.Apply(mode, n, NextStep(n)) == n
    ensures Finished(n)
  {
    StableIsQuiet(mode, n);
    if n.gate.status != NodeStatus.Closed {
      if n.shared.closeSeen { CloseSeenIsReady(mode, n); } else { EndedReadiness(mode, n); }
    }
    PreparedIsFinished(mode, n);
  }

  // ---------------------------------------------------------------- every step uses something up

  /** The streams as they will be when the input set under construction is complete. */
  function AfterFill(ss: seq<Stream>, k: nat, ts: Timestamp): (r: seq<Stream>)
    ensures |r| == |ss|
  {
    seq(|ss|, i requires 0 <= i < |ss| => if i < k then ss[i] else PopAt(ss[i], ts).stream)
  }

  function Remaining(c: Consumer): nat {
    if c.phase.Filling? then Waiting(AfterFill(c.streams, c.phase.next, c.phase.ts)) else Waiting(c.streams)
  }

  /** How far a thread still is from leaving the loop, or from going round it again. */
  function StageRank(streams: nat, stage: Stage): int {
    match stage
    case Entering => streams + 5
    case Looping(phase) =>
      (match phase
       case Resting => streams + 4
       case Reading(k, _) => 3 + streams - k
       case Filling(_, k, _) => 3 * streams + 11 - k)
    case Closing => 2
    case Leaving => 1
  }

  /** Part of what was read so far was read before the streams ended. */
  predicate StaleRead(phase: Phase) {
    phase.Reading? && phase.scan.minBound < ONE_OVER_POST_STREAM
  }

  function Slack(n: Node): int {
    var streams := |n.shared.streams|;
    (match n.gate.status
     case Unopened => 2 * streams + 14
     case Closed => 0
     case _ => streams + 7)
    + (if n.gate.state == SchedulingPending then streams + 4 else 0)
    + (if n.preparedForClose then 0 else streams + 7)
    + (if n.threads == [] then 0 else StageRank(streams, n.threads[0].stage))
    + (if StaleRead(CurrentPhase(n)) then 3 * streams + 9 else 0)
  }

  function Owed(n: Node): nat {
    n.undelivered + n.outstanding
  }

  function Potential(n: Node): int {
    (3 * |n.shared.streams| + 9) * Remaining(Handler(n)) + (|n.shared.streams| + 6) * Owed(n) + Slack(n)
  }

  predicate Sinks(n: Node, m: Node) {
    var streams := |n.shared.streams|;
    && |m.shared.streams| == streams
    && (|| (Remaining(Handler(m)) < Remaining(Handler(n)) && Owed(m) == Owed(n) && Slack(m) < Slack(n) + 3 * streams + 9)
        || (&& Remaining(Handler(m)) == Remaining(Handler(n))
            && (|| (Owed(m) == Owed(n) && Slack(m) < Slack(n))
                || (Owed(m) == Owed(n) - 1 && Slack(m) < Slack(n) + streams + 6)
                || (Owed(m) == Owed(n) + 1 && Slack(m) + streams + 6 < Slack(n)))))
  }

  lemma {:induction false} TimesLess(a: nat, x: nat, y: nat)
    requires x < y
    ensures a * x + a <= a * y
    decreases y
  {
    assert a * (y - 1) + a == a * y;
    if x < y - 1 {
      TimesLess(a, x, y - 1);
    }
  }

  lemma WeighedSum(a: nat, b: nat, r: nat, r': nat, o: nat, o': nat, s: int, s': int)
    requires || (r' < r && o' == o && s' < s + a)
             || (r' == r && ((o' == o && s' < s) || (o' == o - 1 && s' < s + b) || (o' == o + 1 && s' + b < s)))
    ensures a * r' + b * o' + s' < a * r + b * o + s
  {
    if r' < r {
      TimesLess(a, r', r);
    } else if o' == o - 1 {
      TimesLess(b, o', o);
    } else if o' == o + 1 {
      assert b * (o + 1) == b * o + b;
    }
  }

  lemma SinkingLowers(n: Node, m: Node)
    requires Sinks(n, m)
    ensures Potential(m) < Potential(n)
  {
    var streams := |n.shared.streams|;
    WeighedSum(3 * streams + 9, streams + 6, Remaining(Handler(n)), Remaining(Handler(m)), Owed(n), Owed(m), Slack(n), Slack(m));
  }

  lemma SlackIsNatural(mode: bool, n: Node)
    requires PhaseShaped(mode, Handler(n))
    ensures 0 <= Slack(n)
  {
  }

  lemma NotNegative(a: nat, r: nat, b: nat, o: nat)
    ensures 0 <= a * r + b * o
  {
  }

  lemma PotentialIsNatural(mode: bool, n: Node)
    requires Healthy(mode, n)
    ensures 0 <= Potential(n)
  {
    SlackIsNatural(mode, n);
    NotNegative(3 * |n.shared.streams| + 9, Remaining(Handler(n)), |n.shared.streams| + 6, Owed(n));
  }

  /** A step that moves no packet leaves what remains as it is. */
  lemma GateStepKeepsHandler(mode: bool, n: Node, act: Act)
    requires TypedNode(n) && Exclusive(n)
    requires act.Open? || act.Deliver? || act.EndInvocation? || act.CloseNode? || act.Enter? || act.ScheduleClose? || act.EndRound?
    ensures Handler(NodeScheduling.Apply(mode, n, act)) == Handler(n)
  {
    GateStepRefines(mode, n, act);
  }

  lemma ReportSinks(mode: bool, n: Node, act: Act)
    requires TypedNode(n) && GateInv(mode, n) && (act.Open? || act.Deliver?)
    ensures var m := NodeScheduling.Apply(mode, n, act); m == n || Sinks(n, m)
  {
    GateStepKeepsHandler(mode, n, act);
  }

  lemma InvocationSinks(mode: bool, n: Node, act: Act)
    requires TypedNode(n) && GateInv(mode, n) && (act.EndInvocation? || act.CloseNode?)
    ensures var m := NodeScheduling.Apply(mode, n, act); m == n || Sinks(n, m)
  {
    GateStepKeepsHandler(mode, n, act);
  }

  lemma EnterSinks(mode: bool, n: Node, j: nat)
    requires TypedNode(n) && GateInv(mode, n)
    ensures var m := NodeScheduling.Apply(mode, n, Enter(j)); m == n || Sinks(n, m)
  {
    GateStepKeepsHandler(mode, n, Enter(j));
  }

  lemma ScheduleCloseSinks(mode: bool, n: Node, j: nat, contextsActive: bool)
    requires TypedNode(n) && GateInv(mode, n)
    ensures var m := NodeScheduling.Apply(mode, n, ScheduleClose(j, contextsActive)); m == n || Sinks(n, m)
  {
    GateStepKeepsHandler(mode, n, ScheduleClose(j, contextsActive));
  }

  lemma EndRoundSinks(mode: bool, n: Node, j: nat)
    requires TypedNode(n) && GateInv(mode, n)
    ensures var m := NodeScheduling.Apply(mode, n, EndRound(j)); m == n || Sinks(n, m)
  {
    GateStepKeepsHandler(mode, n, EndRound(j));
  }

  /** `m` is `n` after its only thread has begun to read, or has nothing more to do. */
  predicate BeginTaken(n: Node, m: Node) {
    && |n.threads| == |m.threads| == 1 && m.shared.streams == n.shared.streams
    && m.gate == n.gate && m.preparedForClose == n.preparedForClose && Owed(n) == Owed(m)
    && n.threads[0].stage == Looping(Resting)
    && (m.threads[0].stage == Leaving || m.threads[0].stage == Looping(Reading(0, NothingScanned)))
  }

  lemma BeginTakenSinks(n: Node, m: Node)
    requires BeginTaken(n, m)
    ensures Sinks(n, m)
  {
  }

  lemma BeginSinks(mode: bool, n: Node, j: nat)
    requires TypedNode(n) && GateInv(mode, n)
    ensures var m := NodeScheduling.Apply(mode, n, Begin(j)); m == n || Sinks(n, m)
  {
    if InLoop(n, j) && n.threads[j].stage.phase.Resting? {
      BeginTakenSinks(n, NodeScheduling.Apply(mode, n, Begin(j)));
    }
  }

  lemma {:induction false} ReadSinks(mode: bool, n: Node, j: nat)
    requires TypedNode(n) && GateInv(mode, n) && AllEnded(n.shared.streams)
    ensures var m := NodeScheduling.Apply(mode, n, Read(j)); m == n || Sinks(n, m)
  {
  }

  lemma FilledOneRemains(c: Consumer)
    requires c.phase.Filling? && c.phase.next < |c.streams|
    ensures Remaining(FilledOne(c)) == Remaining(c)
  {
    var d := FilledOne(c);
    assert AfterFill(d.streams, d.phase.next, c.phase.ts) == AfterFill(c.streams, c.phase.next, c.phase.ts);
  }

  /** `m` is `n` after its only thread popped one stream. */
  predicate FillTaken(n: Node, m: Node, k: nat) {
    && |n.threads| == |m.threads| == 1 && |m.shared.streams| == |n.shared.streams|
    && m.gate == n.gate && Owed(m) == Owed(n) && m.preparedForClose == n.preparedForClose
    && n.threads[0].stage.Looping? && n.threads[0].stage.phase.Filling? && n.threads[0].stage.phase.next == k
    && m.threads[0].stage.Looping? && m.threads[0].stage.phase.Filling? && m.threads[0].stage.phase.next == k + 1
  }

  lemma FillTakenSinks(n: Node, m: Node, k: nat)
    requires FillTaken(n, m, k) && Remaining(Handler(m)) == Remaining(Handler(n))
    ensures Sinks(n, m)
  {
  }

  lemma FillSinks(mode: bool, n: Node, j: nat)
    requires TypedNode(n) && GateInv(mode, n)
    ensures var m := NodeScheduling.Apply(mode, n, Fill(j)); m == n || Sinks(n, m)
  {
    if InLoop(n, j) && n.threads[j].stage.phase.Filling? && n.threads[j].stage.phase.next < |n.shared.streams| {
      var m := NodeScheduling.Apply(mode, n, Fill(j));
      ConsumeRefines(mode, n, FillNext);
      assert Handler(m) == FilledOne(Handler(n));
      FilledOneRemains(Handler(n));
      FillTakenSinks(n, m, n.threads[j].stage.phase.next);
    }
  }

  /** `m` is `n` after its only thread completed an input set, with or without an invocation for it. */
  predicate FinishTaken(n: Node, m: Node) {
    && |n.threads| == |m.threads| == 1 && m.shared.streams == n.shared.streams
    && m.gate.status == n.gate.status && m.gate.state == n.gate.state && m.preparedForClose == n.preparedForClose
    && Owed(n) <= Owed(m) <= Owed(n) + 1
    && n.threads[0].stage.Looping? && n.threads[0].stage.phase.Filling? && n.threads[0].stage.phase.next == |n.shared.streams|
    && m.threads[0].stage == Looping(Resting)
  }

  lemma FinishTakenSinks(n: Node, m: Node)
    requires FinishTaken(n, m)
    ensures Sinks(n, m)
  {
    var ss := n.shared.streams;
    assert AfterFill(ss, |ss|, n.threads[0].stage.phase.ts) == ss;
  }

  lemma FinishSinks(mode: bool, n: Node, j: nat, schedule: bool)
    requires TypedNode(n) && GateInv(mode, n)
    ensures var m := NodeScheduling.Apply(mode, n, Finish(j, schedule)); m == n || Sinks(n, m)
  {
    if InLoop(n, j) && n.threads[j].stage.phase.Filling? && n.threads[j].stage.phase.next == |n.shared.streams| {
      FinishTakenSinks(n, NodeScheduling.Apply(mode, n, Finish(j, schedule)));
    }
  }

  /** A decision on what was read after the streams ended is for the earliest packet that waits. */
  lemma FreshDecision(mode: bool, scan: Scan, last: Timestamp)
    requires ONE_OVER_POST_STREAM <= scan.minBound
    requires scan.minPacket == DONE || IsAllowedInStream(scan.minPacket)
    ensures var d := Decide(mode, scan, last); d.readiness == ReadyForProcess ==> d.ts == scan.minPacket != DONE
  {
  }

  lemma FillShortens(ss: seq<Stream>, ts: Timestamp, h: int)
    requires 0 <= h < |ss| ==> HeadAt(ss[h], ts)
    ensures Waiting(AfterFill(ss, 0, ts)) <= Waiting(ss)
    ensures 0 <= h < |ss| ==> Waiting(AfterFill(ss, 0, ts)) < Waiting(ss)
  {
    forall i | 0 <= i < |ss|
      ensures |AfterFill(ss, 0, ts)[i].queue| <= |ss[i].queue|
      ensures i == h ==> |AfterFill(ss, 0, ts)[i].queue| < |ss[i].queue|
    {
      PopShortens(ss[i], ts);
    }
    WaitingFalls(ss, AfterFill(ss, 0, ts), h);
  }

  lemma DecisionShortens(mode: bool, c: Consumer)
    requires Inv(mode, c) && c.phase.Reading? && c.phase.next == |c.streams|
    ensures var d := Decide(mode, c.phase.scan, c.lastProcessed);
            d.readiness == ReadyForProcess ==>
              && Waiting(AfterFill(c.streams, 0, d.ts)) <= Waiting(c.streams)
              && (!StaleRead(c.phase) ==> Waiting(AfterFill(c.streams, 0, d.ts)) < Waiting(c.streams))
  {
    var scan := c.phase.scan;
    var d := Decide(mode, scan, c.lastProcessed);
    FillShortens(c.streams, d.ts, -1);
    if d.readiness == ReadyForProcess && !StaleRead(c.phase) && scan.minPacket != DONE {
      var h :| 0 <= h < |c.streams| && HeadAt(c.streams[h], scan.minPacket);
      assert StreamHolds(c.streams[h], h, c.phase, LastTs(c), Contributed(c, h));
      QueueFacts(c.streams[h]);
      FreshDecision(mode, scan, c.lastProcessed);
      FillShortens(c.streams, d.ts, h);
    }
  }

  lemma DecisionSinks(n: Node, m: Node, d: Decision, scan: Scan)
    requires n.threads != [] && DecisionTaken(n, m, d) && n.threads[0].stage == Looping(Reading(|n.shared.streams|, scan))
    requires d.readiness == ReadyForProcess ==>
               && Waiting(AfterFill(n.shared.streams, 0, d.ts)) <= Waiting(n.shared.streams)
               && (!StaleRead(CurrentPhase(n)) ==> Waiting(AfterFill(n.shared.streams, 0, d.ts)) < Waiting(n.shared.streams))
    ensures Sinks(n, m)
  {
  }

  lemma ChooseSinks(mode: bool, n: Node, j: nat)
    requires Healthy(mode, n)
    ensures var m := NodeScheduling.Apply(mode, n, Choose(j)); m == n || Sinks(n, m)
  {
    if InLoop(n, j) && n.threads[j].stage.phase.Reading? && n.threads[j].stage.phase.next == |n.shared.streams| {
      DecisionShortens(mode, Handler(n));
      ChosenTakesDecision(mode, n);
      var scan := n.threads[0].stage.phase.scan;
      DecisionSinks(n, Chosen(mode, n, 0), Decide(mode, scan, n.shared.lastProcessed), scan);
    }
  }

  lemma SimpleStepSinks(mode: bool, n: Node, act: Act)
    requires TypedNode(n) && GateInv(mode, n) && AllEnded(n.shared.streams) && !act.Produce? && !act.Choose?
    ensures var m := NodeScheduling.Apply(mode, n, act); m == n || Sinks(n, m)
  {
    match act
    case Open => ReportSinks(mode, n, act);
    case Deliver => ReportSinks(mode, n, act);
    case EndInvocation => InvocationSinks(mode, n, act);
    case CloseNode => InvocationSinks(mode, n, act);
    case Enter(j) => EnterSinks(mode, n, j);
    case ScheduleClose(j, contextsActive) => ScheduleCloseSinks(mode, n, j, contextsActive);
    case EndRound(j) => EndRoundSinks(mode, n, j);
    case Begin(j) => BeginSinks(mode, n, j);
    case Read(j) => ReadSinks(mode, n, j);
    case Fill(j) => FillSinks(mode, n, j);
    case Finish(j, schedule) => FinishSinks(mode, n, j, schedule);
  }

  /** With the streams ended, a step of the node that changes anything lowers what is left to do. */
  lemma StepSinks(mode: bool, n: Node, act: Act)
    requires Healthy(mode, n) && AllEnded(n.shared.streams) && !act.Produce?
    ensures var m := NodeScheduling.Apply(mode, n, act); m == n || Potential(m) < Potential(n)
  {
    if act.Choose? {
      ChooseSinks(mode, n, act.j);
    } else {
      SimpleStepSinks(mode, n, act);
    }
    var m := NodeScheduling.Apply(mode, n, act);
    if m != n {
      SinkingLowers(n, m);
    }
  }

  // ---------------------------------------------------------------- theorems

  predicate NodeAlone(acts: seq<Act>) {
    forall k :: 0 <= k < |acts| ==> !acts[k].Produce?
  }

  /** Every step of the run changes something. */
  predicate AllEffective(mode: bool, n: Node, acts: seq<Act>)
    requires TypedNode(n)
    decreases |acts|
  {
    acts != [] ==>
      var front := acts[..|acts| - 1];
      && AllEffective(mode, n, front)
      && NodeScheduling.Run(mode, n, acts) != NodeScheduling.Run(mode, n, front)
  }

  ghost predicate EndedWith(mode: bool, n: Node, m: Node) {
    Healthy(mode, m) && AllEnded(m.shared.streams) && SameAccepted(n.shared.streams, m.shared.streams)
  }

  lemma StepEndsWith(mode: bool, n: Node, m: Node, act: Act)
    requires EndedWith(mode, n, m) && !act.Produce?
    ensures EndedWith(mode, n, NodeScheduling.Apply(mode, m, act))
  {
    StepKeepsHealth(mode, m, act);
    StepAloneInNode(mode, m, act);
  }

  lemma {:induction false} WorkIsBounded(mode: bool, n: Node, acts: seq<Act>)
    requires Healthy(mode, n) && AllEnded(n.shared.streams) && NodeAlone(acts)
    ensures EndedWith(mode, n, NodeScheduling.Run(mode, n, acts))
    ensures AllEffective(mode, n, acts) ==> |acts| + Potential(NodeScheduling.Run(mode, n, acts)) <= Potential(n)
    decreases |acts|
  {
    if acts != [] {
      var front, last := acts[..|acts| - 1], acts[|acts| - 1];
      WorkIsBounded(mode, n, front);
      StepEndsWith(mode, n, NodeScheduling.Run(mode, n, front), last);
      StepSinks(mode, NodeScheduling.Run(mode, n, front), last);
    }
  }

  /**
   A node whose streams have ended comes to its end whatever its threads do: from any state of any
   run, a run of the node alone has at most `Potential` steps that change anything, and where
   nothing can change any more, every accepted packet has been handed over in an input set and the
   close is scheduled.
   */
  lemma {:induction false} EndedNodeFinishes(mode: bool, types: seq<ResolvedType>, maxInFlight: InFlightLimit, before: seq<Act>, acts: seq<Act>)
    requires AllEnded(NodeScheduling.Run(mode, NodeScheduling.Initial(types, maxInFlight), before).shared.streams)
    requires NodeAlone(acts)
    ensures var n := NodeScheduling.Run(mode, NodeScheduling.Initial(types, maxInFlight), before);
            var m := NodeScheduling.Run(mode, n, acts);
            && (AllEffective(mode, n, acts) ==> |acts| <= Potential(n))
            && (Stable(mode, m) ==> Finished(m) && SameAccepted(n.shared.streams, m.shared.streams))
  {
    RunIsHealthy(mode, types, maxInFlight, before);
    var n := NodeScheduling.Run(mode, NodeScheduling.Initial(types, maxInFlight), before);
    WorkIsBounded(mode, n, acts);
    var m := NodeScheduling.Run(mode, n, acts);
    PotentialIsNatural(mode, m);
    if Stable(mode, m) {
      NextStepIsNoProducer(m);
      StableIsFinished(mode, m);
    }
  }

  lemma NextStepIsNoProducer(n: Node)
    ensures !NextStep(n).Produce? && !NextStep(n).CloseNode?
  {
  }

  /** `acts` lead from `n` to a closed node that has handed over everything. */
  ghost predicate Closes(mode: bool, n: Node, acts: seq<Act>)
    requires TypedNode(n)
  {
    var m := NodeScheduling.Run(mode, n, acts);
    && NodeAlone(acts) && m.gate.status == NodeStatus.Closed
    && Finished(m) && SameAccepted(n.shared.streams, m.shared.streams)
  }

  lemma RunThenStep(mode: bool, n: Node, acts: seq<Act>, last: Act)
    requires TypedNode(n)
    ensures NodeScheduling.Run(mode, n, acts + [last]) == NodeScheduling.Apply(mode, NodeScheduling.Run(mode, n, acts), last)
  {
    assert (acts + [last])[..|acts|] == acts;
  }

  /** A scheduled close has an invocation to run it. */
  predicate CloseIsComing(n: Node) {
    n.preparedForClose && n.gate.status == Opened ==> n.outstanding > 0
  }

  /** What to do next to get the node closed. */
  function Toward(n: Node): Act {
    if n.preparedForClose then CloseNode else NextStep(n)
  }

  lemma ClosingActs(mode: bool, n: Node)
    requires TypedNode(n) && CloseOrder(n) && CloseIsComing(n) && n.gate.status != NodeStatus.Closed && n.preparedForClose
    ensures NodeScheduling.Apply(mode, n, CloseNode).gate.status == NodeStatus.Closed
  {
  }

  lemma CloseStaysComing(mode: bool, n: Node)
    requires TypedNode(n) && GateInv(mode, n) && !n.preparedForClose
    ensures CloseIsComing(NodeScheduling.Apply(mode, n, NextStep(n)))
  {
    if n.threads != [] && n.threads[0].stage == Closing {
      RoomToBegin(mode, n);
    } else {
      assert !NodeScheduling.Apply(mode, n, NextStep(n)).preparedForClose;
    }
  }

  lemma TowardActs(mode: bool, n: Node)
    requires Healthy(mode, n) && AllEnded(n.shared.streams) && CloseIsComing(n) && n.gate.status != NodeStatus.Closed
    ensures NodeScheduling.Apply(mode, n, Toward(n)) != n
    ensures CloseIsComing(NodeScheduling.Apply(mode, n, Toward(n)))
  {
    if n.preparedForClose {
      ClosingActs(mode, n);
    } else {
      CloseStaysComing(mode, n);
      if NodeScheduling.Apply(mode, n, NextStep(n)) == n {
        StableIsFinished(mode, n);
      }
    }
  }

  /** `acts` lead from `n` to a state from which the close is still to come or has come. */
  ghost predicate OnItsWay(mode: bool, n: Node, acts: seq<Act>)
    requires TypedNode(n)
  {
    var m := NodeScheduling.Run(mode, n, acts);
    NodeAlone(acts) && EndedWith(mode, n, m) && CloseIsComing(m)
  }

  lemma TowardSinks(mode: bool, n: Node, m: Node)
    requires EndedWith(mode, n, m) && CloseIsComing(m) && m.gate.status != NodeStatus.Closed
    ensures !Toward(m).Produce?
    ensures var next := NodeScheduling.Apply(mode, m, Toward(m));
            EndedWith(mode, n, next) && CloseIsComing(next) && 0 <= Potential(next) < Potential(m)
  {
    NextStepIsNoProducer(m);
    TowardActs(mode, m);
    StepSinks(mode, m, Toward(m));
    StepEndsWith(mode, n, m, Toward(m));
    PotentialIsNatural(mode, NodeScheduling.Apply(mode, m, Toward(m)));
  }

  lemma {:induction false} OneStepCloser(mode: bool, n: Node, acts: seq<Act>) returns (more: seq<Act>)
    requires TypedNode(n) && OnItsWay(mode, n, acts) && NodeScheduling.Run(mode, n, acts).gate.status != NodeStatus.Closed
    ensures OnItsWay(mode, n, more)
    ensures 0 <= Potential(NodeScheduling.Run(mode, n, more)) < Potential(NodeScheduling.Run(mode, n, acts))
  {
    var m := NodeScheduling.Run(mode, n, acts);
    more := acts + [Toward(m)];
    TowardSinks(mode, n, m);
    RunThenStep(mode, n, acts, Toward(m));
  }

  lemma ClosedAtLast(mode: bool, n: Node, acts: seq<Act>)
    requires TypedNode(n) && OnItsWay(mode, n, acts) && NodeScheduling.Run(mode, n, acts).gate.status == NodeStatus.Closed
    ensures Closes(mode, n, acts)
  {
    PreparedIsFinished(mode, NodeScheduling.Run(mode, n, acts));
  }

  lemma {:induction false} ClosesWithin(mode: bool, n: Node, acts: seq<Act>, bound: nat) returns (all: seq<Act>)
    requires TypedNode(n) && OnItsWay(mode, n, acts) && Potential(NodeScheduling.Run(mode, n, acts)) <= bound
    ensures Closes(mode, n, all)
    decreases bound
  {
    if NodeScheduling.Run(mode, n, acts).gate.status == NodeStatus.Closed {
      ClosedAtLast(mode, n, acts);
      all := acts;
    } else {
      var more := OneStepCloser(mode, n, acts);
      all := ClosesWithin(mode, n, more, bound - 1);
    }
  }

  /** The end is within reach: as long as no close is scheduled, the node can still hand over everything and be closed. */
  lemma {:induction false} EndedNodeCanClose(mode: bool, types: seq<ResolvedType>, maxInFlight: InFlightLimit, before: seq<Act>)
    requires var n := NodeScheduling.Run(mode, NodeScheduling.Initial(types, maxInFlight), before);
             AllEnded(n.shared.streams) && !n.preparedForClose
    ensures exists acts :: Closes(mode, NodeScheduling.Run(mode, NodeScheduling.Initial(types, maxInFlight), before), acts)
  {
    RunIsHealthy(mode, types, maxInFlight, before);
    var n := NodeScheduling.Run(mode, NodeScheduling.Initial(types, maxInFlight), before);
    PotentialIsNatural(mode, n);
    var acts := ClosesWithin(mode, n, [], Potential(n));
  }

  /** A closed node was closed by an invocation, which it goes on counting, after all of its packets were handed over. */
  lemma ClosedByAnInvocation(mode: bool, types: seq<ResolvedType>, maxInFlight: InFlightLimit, acts: seq<Act>)
    ensures var n := NodeScheduling.Run(mode, NodeScheduling.Initial(types, maxInFlight), acts);
            n.gate.status == NodeStatus.Closed ==> n.gate.inFlight > 0 && Finished(n)
  {
    RunIsHealthy(mode, types, maxInFlight, acts);
    var n := NodeScheduling.Run(mode, NodeScheduling.Initial(types, maxInFlight), acts);
    if n.gate.status == NodeStatus.Closed {
      PreparedIsFinished(mode, n);
    }
  }
}
