/**
 The bound a node reports when it is not ready: the smallest head or bound of its inputs, passed
 on to its outputs as "no input earlier than this will be processed". Here it is proved true of
 every later input set, so it may serve as the input limit of OutputStreams.
 */
module InputBounds {
  import opened Timestamps
  import opened Packets
  import opened PacketTypes
  import opened InputStreams
  import opened SyncSets
  import opened InputProtocol

  /** Either nothing below `low` can be chosen any more, or the bound itself lies above `low`. */
  predicate Passed(low: Timestamp, last: Timestamp) {
    PreviousAllowedInStream(low) <= MaxOf(last, UNSTARTED)
  }

  predicate StreamAbove(s: Stream, low: Timestamp, passed: bool) {
    low <= MinTimestampOrBound(s) && (passed || low < s.bound)
  }

  predicate PhaseAbove(phase: Phase, low: Timestamp, passed: bool) {
    match phase
    case Resting => true
    case Reading(_, scan) => low <= scan.minPacket && low <= scan.minBound && (passed || low < scan.minBound)
    case Filling(ts, _, _) => low <= ts
  }

  predicate SetsAbove(sets: seq<InputSet>, from: nat, low: Timestamp) {
    forall j :: from <= j < |sets| ==> low <= sets[j].ts
  }

  /** `passed` records which of the two reasons applies; it does not apply outside timestamp mode. */
  ghost predicate Above(mode: bool, c: Consumer, from: nat, low: Timestamp, passed: bool) {
    && low < ONE_OVER_POST_STREAM
    && (mode && passed ==> Passed(low, c.lastProcessed))
    && (forall i :: 0 <= i < |c.streams| ==> StreamAbove(c.streams[i], low, passed))
    && PhaseAbove(c.phase, low, passed)
    && from <= |c.sets| && SetsAbove(c.sets, from, low)
  }

  lemma ProduceStaysAbove(s: Stream, op: ProducerOp, low: Timestamp, passed: bool)
    requires Valid(s) && StreamAbove(s, low, passed)
    ensures StreamAbove(ProduceOn(s, op), low, passed)
  {
    ProduceKeepsValid(s, op);
    var t := ProduceOn(s, op);
    if s.queue != [] {
      assert t.queue[0] == s.queue[0];
    }
  }

  lemma PopStaysAbove(s: Stream, ts: Timestamp, low: Timestamp, passed: bool)
    requires SettledAt(s, ts) && StreamAbove(s, low, passed) && low <= ts
    ensures StreamAbove(PopAt(s, ts).stream, low, passed)
  {
    SettledPop(s, ts);
    QueueFacts(s);
  }

  /** A timestamp chosen later is not below the reported bound. */
  lemma ChoiceIsAbove(mode: bool, scan: Scan, last: Timestamp, low: Timestamp, passed: bool)
    requires low < ONE_OVER_POST_STREAM && (mode && passed ==> Passed(low, last))
    requires low <= scan.minPacket && low <= scan.minBound && (passed || low < scan.minBound)
    requires PRE_STREAM <= scan.minBound && PRE_STREAM <= scan.minPacket
    ensures var d := Decide(mode, scan, last); d.readiness == ReadyForProcess ==> low <= d.ts
    ensures mode && passed ==> Passed(low, Decide(mode, scan, last).lastProcessed)
  {
  }

  lemma DecideStaysAbove(mode: bool, c: Consumer, from: nat, low: Timestamp, passed: bool)
    requires Inv(mode, c) && Above(mode, c, from, low, passed) && c.phase.Reading?
    ensures Above(mode, Decided(mode, c), from, low, passed)
  {
    ChoiceIsAbove(mode, c.phase.scan, c.lastProcessed, low, passed);
  }

  lemma ReadStaysAbove(scan: Scan, s: Stream, low: Timestamp, passed: bool)
    requires StreamAbove(s, low, passed) && low <= scan.minPacket && low <= scan.minBound && (passed || low < scan.minBound)
    ensures var r := Absorb(scan, Observe(s)); low <= r.minPacket && low <= r.minBound && (passed || low < r.minBound)
  {
  }

  lemma UpdateStaysAbove(mode: bool, c: Consumer, i: nat, t: Stream, from: nat, low: Timestamp, passed: bool)
    requires Above(mode, c, from, low, passed) && i < |c.streams| && StreamAbove(t, low, passed)
    ensures Above(mode, c.(streams := c.streams[i := t]), from, low, passed)
  {
  }

  lemma ProduceStepStaysAbove(mode: bool, c: Consumer, i: nat, op: ProducerOp, from: nat, low: Timestamp, passed: bool)
    requires Typed(c) && Inv(mode, c) && Above(mode, c, from, low, passed)
    ensures Above(mode, Apply(mode, c, Produce(i, op)), from, low, passed)
  {
    if i < |c.streams| {
      StreamIsValid(mode, c, i);
      ProduceStaysAbove(c.streams[i], op, low, passed);
      UpdateStaysAbove(mode, c, i, ProduceOn(c.streams[i], op), from, low, passed);
    }
  }

  lemma FillStaysAbove(mode: bool, c: Consumer, from: nat, low: Timestamp, passed: bool)
    requires Inv(mode, c) && Above(mode, c, from, low, passed) && c.phase.Filling? && c.phase.next < |c.streams|
    ensures Above(mode, FilledOne(c), from, low, passed)
  {
    var k := c.phase.next;
    assert StreamHolds(c.streams[k], k, c.phase, LastTs(c), Contributed(c, k));
    PopStaysAbove(c.streams[k], c.phase.ts, low, passed);
  }

  lemma StepStaysAbove(mode: bool, c: Consumer, step: Step, from: nat, low: Timestamp, passed: bool)
    requires Typed(c) && Inv(mode, c) && Above(mode, c, from, low, passed)
    ensures Above(mode, Apply(mode, c, step), from, low, passed)
  {
    match step
    case Produce(i, op) => ProduceStepStaysAbove(mode, c, i, op, from, low, passed);
    case StartRead =>
    case ReadNext =>
      if c.phase.Reading? && c.phase.next < |c.streams| {
        ReadStaysAbove(c.phase.scan, c.streams[c.phase.next], low, passed);
      }
    case DecideNow =>
      if c.phase.Reading? && c.phase.next == |c.streams| {
        DecideStaysAbove(mode, c, from, low, passed);
      }
    case FillNext =>
      if c.phase.Filling? && c.phase.next < |c.streams| {
        FillStaysAbove(mode, c, from, low, passed);
      }
    case FinishFill =>
  }

  lemma {:induction false} RunStaysAbove(mode: bool, c: Consumer, steps: seq<Step>, from: nat, low: Timestamp, passed: bool)
    requires Typed(c) && Inv(mode, c) && Above(mode, c, from, low, passed)
    ensures Inv(mode, Run(mode, c, steps)) && Above(mode, Run(mode, c, steps), from, low, passed)
    decreases |steps|
  {
    if steps != [] {
      var front := steps[..|steps| - 1];
      RunStaysAbove(mode, c, front, from, low, passed);
      StepHolds(mode, Run(mode, c, front), steps[|steps| - 1]);
      StepStaysAbove(mode, Run(mode, c, front), steps[|steps| - 1], from, low, passed);
    }
  }

  /** What was read supports the reported bound, although producers have moved on. */
  lemma ReportIsSupported(s: Stream, scan: Scan, low: Timestamp)
    requires Valid(s) && ReadHolds(s, scan) && low == MinOf(scan.minPacket, scan.minBound)
    ensures StreamAbove(s, low, low == scan.minBound)
  {
    QueueFacts(s);
  }

  lemma ReportHolds(mode: bool, c: Consumer)
    requires Typed(c) && Inv(mode, c) && c.phase.Reading? && c.phase.next == |c.streams|
    requires Decide(mode, c.phase.scan, c.lastProcessed).readiness == NotReady
    ensures var low := Decide(mode, c.phase.scan, c.lastProcessed).ts;
            Above(mode, Decided(mode, c), |c.sets|, low, low == c.phase.scan.minBound)
  {
    var scan := c.phase.scan;
    var low := Decide(mode, scan, c.lastProcessed).ts;
    forall i | 0 <= i < |c.streams|
      ensures StreamAbove(c.streams[i], low, low == scan.minBound)
    {
      assert StreamHolds(c.streams[i], i, c.phase, LastTs(c), Contributed(c, i));
      ReportIsSupported(c.streams[i], scan, low);
    }
  }

  /** Whatever happens after a report of `low`, every later input set has a timestamp of at least `low`. */
  lemma ReportedBoundIsTrue(mode: bool, types: seq<ResolvedType>, steps: seq<Step>, more: seq<Step>, j: nat)
    requires var c := Run(mode, Initial(types), steps);
             && c.phase.Reading? && c.phase.next == |c.streams|
             && Decide(mode, c.phase.scan, c.lastProcessed).readiness == NotReady
             && |c.sets| <= j < |Run(mode, Apply(mode, c, DecideNow), more).sets|
    ensures var c := Run(mode, Initial(types), steps);
            Decide(mode, c.phase.scan, c.lastProcessed).ts <= Run(mode, Apply(mode, c, DecideNow), more).sets[j].ts
  {
    EveryRunHolds(mode, types, steps);
    ReportIsTrueFrom(mode, Run(mode, Initial(types), steps), more, j);
  }

  lemma ReportIsTrueFrom(mode: bool, c: Consumer, steps: seq<Step>, j: nat)
    requires Typed(c) && Inv(mode, c) && c.phase.Reading? && c.phase.next == |c.streams|
    requires Decide(mode, c.phase.scan, c.lastProcessed).readiness == NotReady
    requires |c.sets| <= j < |Run(mode, Apply(mode, c, DecideNow), steps).sets|
    ensures Decide(mode, c.phase.scan, c.lastProcessed).ts <= Run(mode, Apply(mode, c, DecideNow), steps).sets[j].ts
  {
    ReportHolds(mode, c);
    DecideHolds(mode, c);
    var low := Decide(mode, c.phase.scan, c.lastProcessed).ts;
    DecideNowDecides(mode, c);
    LaterSetsAreAbove(mode, Apply(mode, c, DecideNow), steps, |c.sets|, low, low == c.phase.scan.minBound, j);
  }

  lemma DecideNowDecides(mode: bool, c: Consumer)
    requires Typed(c) && c.phase.Reading? && c.phase.next == |c.streams|
    ensures Apply(mode, c, DecideNow) == Decided(mode, c)
  {
  }

  lemma LaterSetsAreAbove(mode: bool, c: Consumer, steps: seq<Step>, from: nat, low: Timestamp, passed: bool, j: nat)
    requires Typed(c) && Inv(mode, c) && Above(mode, c, from, low, passed) && from <= j < |Run(mode, c, steps).sets|
    ensures low <= Run(mode, c, steps).sets[j].ts
  {
    RunStaysAbove(mode, c, steps, from, low, passed);
  }
}
