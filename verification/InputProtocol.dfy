/**
 Producers against one consumer, step by step.

 The consumer reads its streams one at a time, decides, and then pops them one at a time;
 producers may act on any stream between any two of these steps. The theorems hold for every
 interleaving: `Run` takes an arbitrary sequence of steps, and a step that is not possible in
 the current phase does nothing.
 */
module InputProtocol {
  import opened Timestamps
  import opened Packets
  import opened PacketTypes
  import opened InputStreams
  import opened SyncSets

  /** Anything another thread may do to one stream. A failed call is possible too. */
  datatype ProducerOp =
    | Add(packets: seq<Packet>)
    | Bound(bound: Timestamp)
    | Limit(size: int)

  function ProduceOn(s: Stream, op: ProducerOp): Stream
    requires !s.packetType.SameAs?
  {
    match op
    case Add(ps) => AddPackets(s, ps).stream
    case Bound(b) => SetBound(s, b).stream
    case Limit(size) => SetMaxQueueSize(s, size)
  }

  lemma ProduceKeepsValid(s: Stream, op: ProducerOp)
    requires Valid(s)
    ensures Valid(ProduceOn(s, op)) && Grows(s, ProduceOn(s, op))
  {
    match op
    case Add(ps) => AddPacketsKeepsValid(s, ps);
    case Bound(b) => SetBoundKeepsValid(s, b);
    case Limit(size) =>
  }

  // ---------------------------------------------------------------- the machine

  datatype Phase =
    | Resting
    | Reading(next: nat, scan: Scan)
    | Filling(ts: Timestamp, next: nat, filled: seq<Packet>)

  datatype InputSet = InputSet(ts: Timestamp, packets: seq<Packet>)

  /** `sets`, `closeSeen` and `dropped` are histories. */
  datatype Consumer = Consumer(
    streams: seq<Stream>,
    lastProcessed: Timestamp,
    phase: Phase,
    sets: seq<InputSet>,
    closeSeen: bool,
    dropped: int)

  datatype Step =
    | Produce(i: nat, op: ProducerOp)
    | StartRead
    | ReadNext
    | DecideNow
    | FillNext
    | FinishFill

  predicate Typed(c: Consumer) {
    forall i :: 0 <= i < |c.streams| ==> !c.streams[i].packetType.SameAs?
  }

  function Decided(mode: bool, c: Consumer): Consumer
    requires c.phase.Reading?
  {
    var d := Decide(mode, c.phase.scan, c.lastProcessed);
    c.(lastProcessed := d.lastProcessed,
       phase := if d.readiness == ReadyForProcess then Filling(d.ts, 0, []) else Resting,
       closeSeen := c.closeSeen || d.readiness == ReadyForClose)
  }

  function FilledOne(c: Consumer): Consumer
    requires c.phase.Filling? && c.phase.next < |c.streams|
  {
    var k := c.phase.next;
    var r := PopAt(c.streams[k], c.phase.ts);
    c.(streams := c.streams[k := r.stream],
       phase := Filling(c.phase.ts, k + 1, c.phase.filled + [r.packet]),
       dropped := c.dropped + r.dropped)
  }

  function Apply(mode: bool, c: Consumer, step: Step): (r: Consumer)
    requires Typed(c)
    ensures Typed(r)
  {
    match step
    case Produce(i, op) =>
      if i < |c.streams| then
        c.(streams := c.streams[i := ProduceOn(c.streams[i], op)])
      else c
    case StartRead =>
      if c.phase.Resting? then c.(phase := Reading(0, NothingScanned)) else c
    case ReadNext =>
      if c.phase.Reading? && c.phase.next < |c.streams| then
        c.(phase := Reading(c.phase.next + 1, Absorb(c.phase.scan, Observe(c.streams[c.phase.next]))))
      else c
    case DecideNow =>
      if c.phase.Reading? && c.phase.next == |c.streams| then Decided(mode, c) else c
    case FillNext =>
      if c.phase.Filling? && c.phase.next < |c.streams| then FilledOne(c) else c
    case FinishFill =>
      if c.phase.Filling? && c.phase.next == |c.streams| then
        c.(phase := Resting, sets := c.sets + [InputSet(c.phase.ts, c.phase.filled)])
      else c
  }

  function Run(mode: bool, c: Consumer, steps: seq<Step>): (r: Consumer)
    requires Typed(c)
    ensures Typed(r)
    decreases |steps|
  {
    if steps == [] then c
    else Apply(mode, Run(mode, c, steps[..|steps| - 1]), steps[|steps| - 1])
  }

  /** What a reader that nobody interrupts finds. */
  function Observations(streams: seq<Stream>): (os: seq<Observation>)
    ensures |os| == |streams|
    ensures forall i :: 0 <= i < |streams| ==> os[i] == Observe(streams[i])
  {
    seq(|streams|, i requires 0 <= i < |streams| => Observe(streams[i]))
  }

  function Initial(types: seq<ResolvedType>): (c: Consumer)
    ensures Typed(c)
  {
    Consumer(seq(|types|, i requires 0 <= i < |types| => Prepared(types[i], -1)), UNSET, Resting, [], false, 0)
  }

  // ---------------------------------------------------------------- invariant

  function LastTs(c: Consumer): Timestamp {
    if c.sets == [] then UNSTARTED else c.sets[|c.sets| - 1].ts
  }

  predicate SetsShaped(sets: seq<InputSet>, n: nat) {
    forall j :: 0 <= j < |sets| ==> |sets[j].packets| == n
  }

  function Handed(p: Packet): seq<Packet> {
    if p.Data? then [p] else []
  }

  /** What stream `i` contributed to the completed input sets, in order. */
  function Delivered(sets: seq<InputSet>, i: nat): seq<Packet>
    requires forall j :: 0 <= j < |sets| ==> i < |sets[j].packets|
  {
    if sets == [] then []
    else Delivered(sets[..|sets| - 1], i) + Handed(sets[|sets| - 1].packets[i])
  }

  /** What stream `i` has contributed so far, the input set under construction included. */
  function Contributed(c: Consumer, i: nat): seq<Packet>
    requires SetsShaped(c.sets, |c.streams|) && i < |c.streams|
  {
    Delivered(c.sets, i) + if c.phase.Filling? && i < |c.phase.filled| then Handed(c.phase.filled[i]) else []
  }

  /** What was read of a stream still constrains it, although producers have moved on. */
  predicate ReadHolds(s: Stream, scan: Scan) {
    || (s.queue != [] && scan.minPacket <= s.queue[0].ts)
    || (scan.minBound <= s.bound && (s.queue != [] ==> scan.minBound <= s.queue[0].ts))
  }

  predicate Exhausted(s: Stream) {
    s.queue == [] && ONE_OVER_POST_STREAM <= s.bound
  }

  ghost predicate PhaseHolds(s: Stream, i: nat, phase: Phase, lastTs: Timestamp) {
    match phase
    case Resting => s.lastSelect == lastTs
    case Reading(k, scan) => s.lastSelect == lastTs && (i < k ==> ReadHolds(s, scan))
    case Filling(ts, k, _) =>
      if i < k then s.lastSelect == ts else s.lastSelect == lastTs && SettledAt(s, ts)
  }

  ghost predicate StreamHolds(s: Stream, i: nat, phase: Phase, lastTs: Timestamp, given: seq<Packet>) {
    && Valid(s) && !s.closed
    && s.accepted == given + s.queue
    && PhaseHolds(s, i, phase, lastTs)
  }

  /** Some head carries the smallest packet timestamp read so far. */
  ghost predicate HasWitness(streams: seq<Stream>, from: nat, to: nat, ts: Timestamp) {
    exists i :: from <= i < to <= |streams| && HeadAt(streams[i], ts)
  }

  predicate HasData(ps: seq<Packet>) {
    exists i :: 0 <= i < |ps| && ps[i].Data?
  }

  ghost predicate PhaseShaped(mode: bool, c: Consumer) {
    match c.phase
    case Resting => true
    case Reading(k, scan) =>
      && k <= |c.streams| && PRE_STREAM <= scan.minBound && PRE_STREAM <= scan.minPacket
      && (scan.minPacket != DONE ==> HasWitness(c.streams, 0, k, scan.minPacket))
    case Filling(ts, k, filled) =>
      && k <= |c.streams| && |filled| == k
      && LastTs(c) < ts && IsAllowedInStream(ts) && c.lastProcessed == ts
      && (forall i :: 0 <= i < k && filled[i].Data? ==> filled[i].ts == ts)
      && (!mode ==> HasData(filled) || HasWitness(c.streams, k, |c.streams|, ts))
  }

  predicate SetsHold(mode: bool, sets: seq<InputSet>) {
    && (forall j, k :: 0 <= j < k < |sets| ==> sets[j].ts < sets[k].ts)
    && (forall j :: 0 <= j < |sets| ==> IsAllowedInStream(sets[j].ts))
    && (forall j :: 0 <= j < |sets| ==> forall i :: 0 <= i < |sets[j].packets| && sets[j].packets[i].Data? ==> sets[j].packets[i].ts == sets[j].ts)
    && (!mode ==> forall j :: 0 <= j < |sets| ==> HasData(sets[j].packets))
  }

  predicate CloseHolds(c: Consumer) {
    c.closeSeen ==>
      && !c.phase.Filling?
      && (c.phase.Reading? ==> ONE_OVER_POST_STREAM <= c.phase.scan.minBound && ONE_OVER_POST_STREAM <= c.phase.scan.minPacket)
      && forall i :: 0 <= i < |c.streams| ==> Exhausted(c.streams[i])
  }

  ghost predicate StreamsHold(c: Consumer)
    requires SetsShaped(c.sets, |c.streams|)
  {
    forall i :: 0 <= i < |c.streams| ==> StreamHolds(c.streams[i], i, c.phase, LastTs(c), Contributed(c, i))
  }

  ghost predicate Inv(mode: bool, c: Consumer) {
    && SetsShaped(c.sets, |c.streams|)
    && SetsHold(mode, c.sets)
    && (!c.closeSeen ==> LastTs(c) <= MaxOf(c.lastProcessed, UNSTARTED))
    && c.dropped == 0
    && PhaseShaped(mode, c)
    && CloseHolds(c)
    && StreamsHold(c)
  }

  lemma InitialHolds(mode: bool, types: seq<ResolvedType>)
    ensures Inv(mode, Initial(types))
  {
    var c := Initial(types);
    forall i | 0 <= i < |c.streams|
      ensures StreamHolds(c.streams[i], i, Resting, UNSTARTED, [])
    {
      PreparedIsValid(types[i], -1);
    }
  }

  // ---------------------------------------------------------------- producers do no harm

  lemma ReadHoldsIsStable(s: Stream, t: Stream, scan: Scan)
    requires Grows(s, t) && ReadHolds(s, scan)
    ensures ReadHolds(t, scan)
  {
    if s.queue != [] {
      assert t.queue[0] == s.queue[0];
    }
  }

  lemma SettledIsStable(s: Stream, t: Stream, ts: Timestamp)
    requires Grows(s, t) && Valid(t) && SettledAt(s, ts)
    ensures SettledAt(t, ts)
  {
    if s.queue != [] {
      assert t.queue[0] == s.queue[0];
    }
  }

  lemma ExhaustedIsStable(s: Stream, op: ProducerOp)
    requires Valid(s) && Exhausted(s)
    ensures Exhausted(ProduceOn(s, op))
  {
    ProduceKeepsValid(s, op);
    var t := ProduceOn(s, op);
    QueueFacts(t);
    assert s.bound <= MinTimestampOrBound(t);
  }

  lemma StreamHoldsIsStable(s: Stream, op: ProducerOp, i: nat, phase: Phase, lastTs: Timestamp, given: seq<Packet>)
    requires StreamHolds(s, i, phase, lastTs, given)
    ensures StreamHolds(ProduceOn(s, op), i, phase, lastTs, given)
  {
    var t := ProduceOn(s, op);
    ProduceKeepsValid(s, op);
    ConcatExtension(given, s.queue, t.queue);
    match phase
    case Resting =>
    case Reading(k, scan) => if i < k { ReadHoldsIsStable(s, t, scan); }
    case Filling(ts, k, _) => if i >= k { SettledIsStable(s, t, ts); }
  }

  lemma WitnessIsStable(streams: seq<Stream>, n: nat, op: ProducerOp, from: nat, to: nat, ts: Timestamp)
    requires n < |streams| && Valid(streams[n]) && HasWitness(streams, from, to, ts)
    ensures HasWitness(streams[n := ProduceOn(streams[n], op)], from, to, ts)
  {
    var i :| from <= i < to <= |streams| && HeadAt(streams[i], ts);
    ProduceKeepsValid(streams[n], op);
    assert HeadAt(streams[n := ProduceOn(streams[n], op)][i], ts);
  }

  lemma ProduceKeepsContribution(c: Consumer, streams: seq<Stream>, i: nat)
    requires SetsShaped(c.sets, |c.streams|) && |streams| == |c.streams| && i < |streams|
    ensures Contributed(c.(streams := streams), i) == Contributed(c, i)
  {
  }

  lemma ProduceKeepsStreams(c: Consumer, n: nat, op: ProducerOp)
    requires SetsShaped(c.sets, |c.streams|) && StreamsHold(c) && n < |c.streams|
    ensures StreamsHold(c.(streams := c.streams[n := ProduceOn(c.streams[n], op)]))
  {
    var d := c.(streams := c.streams[n := ProduceOn(c.streams[n], op)]);
    forall i | 0 <= i < |d.streams|
      ensures StreamHolds(d.streams[i], i, d.phase, LastTs(d), Contributed(d, i))
    {
      assert StreamHolds(c.streams[i], i, c.phase, LastTs(c), Contributed(c, i));
      ProduceKeepsContribution(c, d.streams, i);
      if i == n {
        StreamHoldsIsStable(c.streams[n], op, n, c.phase, LastTs(c), Contributed(c, n));
      }
    }
  }

  lemma ProduceKeepsPhase(mode: bool, c: Consumer, n: nat, op: ProducerOp)
    requires PhaseShaped(mode, c) && n < |c.streams| && Valid(c.streams[n])
    ensures PhaseShaped(mode, c.(streams := c.streams[n := ProduceOn(c.streams[n], op)]))
  {
    match c.phase
    case Resting =>
    case Reading(k, scan) =>
      if scan.minPacket != DONE { WitnessIsStable(c.streams, n, op, 0, k, scan.minPacket); }
    case Filling(ts, k, filled) =>
      if !mode && !HasData(filled) { WitnessIsStable(c.streams, n, op, k, |c.streams|, ts); }
  }

  lemma ProduceKeepsClose(c: Consumer, n: nat, op: ProducerOp)
    requires CloseHolds(c) && n < |c.streams| && Valid(c.streams[n])
    ensures CloseHolds(c.(streams := c.streams[n := ProduceOn(c.streams[n], op)]))
  {
    if c.closeSeen { ExhaustedIsStable(c.streams[n], op); }
  }

  lemma StreamIsValid(mode: bool, c: Consumer, i: nat)
    requires Inv(mode, c) && i < |c.streams|
    ensures Valid(c.streams[i])
  {
    assert StreamHolds(c.streams[i], i, c.phase, LastTs(c), Contributed(c, i));
  }

  /** New streams, the rest as it was: the parts of the invariant that speak of streams decide. */
  lemma InvFromParts(mode: bool, c: Consumer, d: Consumer)
    requires Inv(mode, c) && |d.streams| == |c.streams| && d == c.(streams := d.streams)
    requires PhaseShaped(mode, d) && CloseHolds(d) && StreamsHold(d)
    ensures Inv(mode, d)
  {
  }

  lemma ProduceHolds(mode: bool, c: Consumer, n: nat, op: ProducerOp)
    requires Typed(c) && Inv(mode, c) && n < |c.streams|
    ensures Inv(mode, Apply(mode, c, Produce(n, op)))
  {
    StreamIsValid(mode, c, n);
    ProduceKeepsClose(c, n, op);
    ProduceKeepsPhase(mode, c, n, op);
    ProduceKeepsStreams(c, n, op);
    InvFromParts(mode, c, c.(streams := c.streams[n := ProduceOn(c.streams[n], op)]));
  }

  // ---------------------------------------------------------------- reading

  lemma StartReadHolds(mode: bool, c: Consumer)
    requires Typed(c) && Inv(mode, c)
    ensures Inv(mode, Apply(mode, c, StartRead))
  {
    if c.phase.Resting? {
      var d := Apply(mode, c, StartRead);
      forall i | 0 <= i < |d.streams|
        ensures StreamHolds(d.streams[i], i, d.phase, LastTs(d), Contributed(d, i))
      {
        assert StreamHolds(c.streams[i], i, c.phase, LastTs(c), Contributed(c, i));
      }
    }
  }

  lemma ObservationFacts(s: Stream, scan: Scan)
    requires Valid(s)
    ensures PRE_STREAM <= Observe(s).ts
    ensures ReadHolds(s, Absorb(scan, Observe(s)))
  {
    QueueFacts(s);
  }

  lemma AbsorbKeepsRead(s: Stream, scan: Scan, o: Observation)
    requires ReadHolds(s, scan)
    ensures ReadHolds(s, Absorb(scan, o))
  {
  }

  lemma AbsorbKeepsWitness(streams: seq<Stream>, k: nat, scan: Scan)
    requires k < |streams|
    requires scan.minPacket != DONE ==> HasWitness(streams, 0, k, scan.minPacket)
    ensures var after := Absorb(scan, Observe(streams[k]));
            after.minPacket != DONE ==> HasWitness(streams, 0, k + 1, after.minPacket)
  {
    var after := Absorb(scan, Observe(streams[k]));
    if after.minPacket != DONE {
      if after.minPacket == scan.minPacket {
        var i :| 0 <= i < k <= |streams| && HeadAt(streams[i], scan.minPacket);
        assert HeadAt(streams[i], after.minPacket);
      } else {
        assert HeadAt(streams[k], after.minPacket);
      }
    }
  }

  lemma ReadKeepsStream(s: Stream, i: nat, k: nat, scan: Scan, o: Observation, lastTs: Timestamp, given: seq<Packet>)
    requires StreamHolds(s, i, Reading(k, scan), lastTs, given) && (i == k ==> o == Observe(s))
    ensures StreamHolds(s, i, Reading(k + 1, Absorb(scan, o)), lastTs, given)
  {
    if i < k {
      AbsorbKeepsRead(s, scan, o);
    } else if i == k {
      ObservationFacts(s, scan);
    }
  }

  lemma ReadKeepsContribution(c: Consumer, phase: Phase, i: nat)
    requires SetsShaped(c.sets, |c.streams|) && i < |c.streams| && !c.phase.Filling? && !phase.Filling?
    ensures Contributed(c.(phase := phase), i) == Contributed(c, i)
  {
  }

  lemma ReadNextKeepsStreams(c: Consumer)
    requires SetsShaped(c.sets, |c.streams|) && StreamsHold(c)
    requires c.phase.Reading? && c.phase.next < |c.streams|
    ensures var k := c.phase.next;
            StreamsHold(c.(phase := Reading(k + 1, Absorb(c.phase.scan, Observe(c.streams[k])))))
  {
    var k, scan := c.phase.next, c.phase.scan;
    var d := c.(phase := Reading(k + 1, Absorb(scan, Observe(c.streams[k]))));
    forall i | 0 <= i < |d.streams|
      ensures StreamHolds(d.streams[i], i, d.phase, LastTs(d), Contributed(d, i))
    {
      assert StreamHolds(c.streams[i], i, c.phase, LastTs(c), Contributed(c, i));
      ReadKeepsStream(c.streams[i], i, k, scan, Observe(c.streams[k]), LastTs(c), Contributed(c, i));
      ReadKeepsContribution(c, d.phase, i);
    }
  }

  lemma ReadNextHolds(mode: bool, c: Consumer)
    requires Typed(c) && Inv(mode, c)
    ensures Inv(mode, Apply(mode, c, ReadNext))
  {
    if c.phase.Reading? && c.phase.next < |c.streams| {
      var k := c.phase.next;
      assert StreamHolds(c.streams[k], k, c.phase, LastTs(c), Contributed(c, k));
      ObservationFacts(c.streams[k], c.phase.scan);
      AbsorbKeepsWitness(c.streams, k, c.phase.scan);
      ReadNextKeepsStreams(c);
    }
  }

  // ---------------------------------------------------------------- deciding

  /** What was read, however long ago, settles the chosen timestamp on the stream as it is now. */
  lemma DecisionSettles(s: Stream, scan: Scan, ts: Timestamp)
    requires Valid(s) && !s.closed && ReadHolds(s, scan) && IsAllowedInStream(ts)
    requires ts <= scan.minPacket && ts < scan.minBound && s.lastSelect < ts
    ensures SettledAt(s, ts)
  {
    QueueFacts(s);
  }

  lemma ReadyIsLater(mode: bool, c: Consumer)
    requires Inv(mode, c) && c.phase.Reading? && c.phase.next == |c.streams|
    requires Decide(mode, c.phase.scan, c.lastProcessed).readiness == ReadyForProcess
    ensures LastTs(c) < Decide(mode, c.phase.scan, c.lastProcessed).ts
    ensures !mode ==> HasWitness(c.streams, 0, |c.streams|, Decide(mode, c.phase.scan, c.lastProcessed).ts)
  {
    var scan := c.phase.scan;
    ReadyTimestampIsSettled(mode, scan, c.lastProcessed);
    CloseMeansNothingLeft(mode, scan, c.lastProcessed);
    if !mode {
      var i :| 0 <= i < |c.streams| && HeadAt(c.streams[i], scan.minPacket);
      assert StreamHolds(c.streams[i], i, c.phase, LastTs(c), Contributed(c, i));
    }
  }

  lemma DecideKeepsStreams(mode: bool, c: Consumer)
    requires Inv(mode, c) && c.phase.Reading? && c.phase.next == |c.streams|
    ensures StreamsHold(Decided(mode, c))
  {
    var r := Decide(mode, c.phase.scan, c.lastProcessed);
    var d := Decided(mode, c);
    ReadyTimestampIsSettled(mode, c.phase.scan, c.lastProcessed);
    if r.readiness == ReadyForProcess { ReadyIsLater(mode, c); }
    forall i | 0 <= i < |d.streams|
      ensures StreamHolds(d.streams[i], i, d.phase, LastTs(d), Contributed(d, i))
    {
      assert StreamHolds(c.streams[i], i, c.phase, LastTs(c), Contributed(c, i));
      DecideKeepsContribution(c, d, i);
      if r.readiness == ReadyForProcess {
        DecisionStartsFilling(c.streams[i], i, c.phase.next, c.phase.scan, r.ts, LastTs(c), Contributed(c, i));
      }
    }
  }

  lemma DecideKeepsContribution(c: Consumer, d: Consumer, i: nat)
    requires SetsShaped(c.sets, |c.streams|) && i < |c.streams| && d.sets == c.sets && d.streams == c.streams
    requires c.phase.Reading? && (d.phase.Filling? ==> d.phase.filled == [])
    ensures Contributed(d, i) == Contributed(c, i)
  {
  }

  lemma DecisionStartsFilling(s: Stream, i: nat, k: nat, scan: Scan, ts: Timestamp, lastTs: Timestamp, given: seq<Packet>)
    requires StreamHolds(s, i, Reading(k, scan), lastTs, given) && i < k && lastTs < ts && IsAllowedInStream(ts)
    requires ts <= scan.minPacket && ts < scan.minBound
    ensures StreamHolds(s, i, Filling(ts, 0, []), lastTs, given)
  {
    DecisionSettles(s, scan, ts);
  }

  lemma NothingLeft(s: Stream, scan: Scan)
    requires Valid(s) && ReadHolds(s, scan)
    requires ONE_OVER_POST_STREAM <= scan.minBound && ONE_OVER_POST_STREAM <= scan.minPacket
    ensures Exhausted(s)
  {
    QueueFacts(s);
  }

  lemma DecideKeepsClose(mode: bool, c: Consumer)
    requires Inv(mode, c) && c.phase.Reading? && c.phase.next == |c.streams|
    ensures CloseHolds(Decided(mode, c))
  {
    var scan := c.phase.scan;
    CloseMeansNothingLeft(mode, scan, c.lastProcessed);
    if Decide(mode, scan, c.lastProcessed).readiness == ReadyForClose {
      forall i | 0 <= i < |c.streams|
        ensures Exhausted(c.streams[i])
      {
        assert StreamHolds(c.streams[i], i, c.phase, LastTs(c), Contributed(c, i));
        NothingLeft(c.streams[i], scan);
      }
    }
  }

  lemma ShapeAfterDecision(mode: bool, c: Consumer)
    requires c.phase.Reading?
    requires !c.closeSeen ==> LastTs(c) <= MaxOf(c.lastProcessed, UNSTARTED)
    requires var v := Decide(mode, c.phase.scan, c.lastProcessed);
             v.readiness == ReadyForProcess ==>
               && IsAllowedInStream(v.ts) && v.lastProcessed == v.ts && LastTs(c) < v.ts
               && (!mode ==> HasWitness(c.streams, 0, |c.streams|, v.ts))
    ensures var d := Decided(mode, c);
            PhaseShaped(mode, d) && (!d.closeSeen ==> LastTs(d) <= MaxOf(d.lastProcessed, UNSTARTED))
  {
  }

  lemma DecideKeepsShape(mode: bool, c: Consumer)
    requires Inv(mode, c) && c.phase.Reading? && c.phase.next == |c.streams|
    ensures var d := Decided(mode, c);
            PhaseShaped(mode, d) && (!d.closeSeen ==> LastTs(d) <= MaxOf(d.lastProcessed, UNSTARTED))
  {
    ReadyTimestampIsSettled(mode, c.phase.scan, c.lastProcessed);
    if Decide(mode, c.phase.scan, c.lastProcessed).readiness == ReadyForProcess {
      ReadyIsLater(mode, c);
    }
    ShapeAfterDecision(mode, c);
  }

  lemma DecideHolds(mode: bool, c: Consumer)
    requires Typed(c) && Inv(mode, c)
    ensures Inv(mode, Apply(mode, c, DecideNow))
  {
    if c.phase.Reading? && c.phase.next == |c.streams| {
      DecideKeepsStreams(mode, c);
      DecideKeepsClose(mode, c);
      DecideKeepsShape(mode, c);
    }
  }

  // ---------------------------------------------------------------- filling

  lemma HandedAndRest(q: seq<Packet>, p: Packet, head: bool)
    requires if head then q != [] && q[0].Data? && p == q[0] else p.EmptyAt?
    ensures Handed(p) + q[if head then 1 else 0..] == q
  {
  }

  lemma ConcatAssociates<T>(a: seq<T>, b: seq<T>, c: seq<T>)
    ensures (a + b) + c == a + (b + c)
  {
  }

  /** The packet handed over and the queue left behind are what the queue was. */
  lemma PopConserves(s: Stream, t: Timestamp)
    requires SettledAt(s, t)
    ensures Handed(PopAt(s, t).packet) + PopAt(s, t).stream.queue == s.queue
    ensures PopAt(s, t).stream.accepted == s.accepted
  {
    SettledPop(s, t);
    HandedAndRest(s.queue, PopAt(s, t).packet, HeadAt(s, t));
  }

  lemma FillKeepsFilledStream(s: Stream, k: nat, ts: Timestamp, filled: seq<Packet>, lastTs: Timestamp, given: seq<Packet>)
    requires StreamHolds(s, k, Filling(ts, k, filled), lastTs, given)
    ensures var r := PopAt(s, ts);
            StreamHolds(r.stream, k, Filling(ts, k + 1, filled + [r.packet]), lastTs, given + Handed(r.packet))
    ensures PopAt(s, ts).dropped == 0
    ensures PopAt(s, ts).packet.Data? ==> PopAt(s, ts).packet.ts == ts
  {
    SettledPop(s, ts);
    PopConserves(s, ts);
    ConcatAssociates(given, Handed(PopAt(s, ts).packet), PopAt(s, ts).stream.queue);
  }

  lemma ContributedAfterFill(c: Consumer, i: nat)
    requires SetsShaped(c.sets, |c.streams|) && i < |c.streams|
    requires c.phase.Filling? && c.phase.next == |c.phase.filled| < |c.streams|
    ensures Contributed(FilledOne(c), i) ==
            if i == c.phase.next then Contributed(c, i) + Handed(PopAt(c.streams[i], c.phase.ts).packet)
            else Contributed(c, i)
  {
    var k := c.phase.next;
    var p := PopAt(c.streams[k], c.phase.ts).packet;
    assert FilledOne(c).phase.filled == c.phase.filled + [p];
    if i == k {
      assert Contributed(c, i) == Delivered(c.sets, i) + [];
      assert Delivered(c.sets, i) + [] == Delivered(c.sets, i);
    }
  }

  lemma FillKeepsStreams(c: Consumer)
    requires SetsShaped(c.sets, |c.streams|) && StreamsHold(c)
    requires c.phase.Filling? && c.phase.next == |c.phase.filled| < |c.streams|
    ensures StreamsHold(FilledOne(c))
  {
    var d := FilledOne(c);
    forall i | 0 <= i < |d.streams|
      ensures StreamHolds(d.streams[i], i, d.phase, LastTs(d), Contributed(d, i))
    {
      assert StreamHolds(c.streams[i], i, c.phase, LastTs(c), Contributed(c, i));
      ContributedAfterFill(c, i);
      if i == c.phase.next {
        FillKeepsFilledStream(c.streams[i], i, c.phase.ts, c.phase.filled, LastTs(c), Contributed(c, i));
      }
    }
  }

  lemma FillKeepsData(streams: seq<Stream>, k: nat, ts: Timestamp, filled: seq<Packet>)
    requires k < |streams| && SettledAt(streams[k], ts) && |filled| == k
    requires HasData(filled) || HasWitness(streams, k, |streams|, ts)
    ensures var r := PopAt(streams[k], ts);
            HasData(filled + [r.packet]) || HasWitness(streams[k := r.stream], k + 1, |streams|, ts)
  {
    var r := PopAt(streams[k], ts);
    if HasData(filled) {
      var i :| 0 <= i < |filled| && filled[i].Data?;
      assert (filled + [r.packet])[i].Data?;
    } else {
      var i :| k <= i < |streams| && HeadAt(streams[i], ts);
      if i == k {
        SettledPop(streams[k], ts);
        assert (filled + [r.packet])[k].Data?;
      } else {
        assert HeadAt(streams[k := r.stream][i], ts);
      }
    }
  }

  lemma FillKeepsPhase(mode: bool, c: Consumer)
    requires PhaseShaped(mode, c) && c.phase.Filling? && c.phase.next < |c.streams|
    requires SettledAt(c.streams[c.phase.next], c.phase.ts)
    ensures PhaseShaped(mode, FilledOne(c))
    ensures FilledOne(c).dropped == c.dropped
  {
    var k, ts := c.phase.next, c.phase.ts;
    SettledPop(c.streams[k], ts);
    if !mode { FillKeepsData(c.streams, k, ts, c.phase.filled); }
    FilledShape(mode, c, PopAt(c.streams[k], ts));
  }

  lemma FilledShape(mode: bool, c: Consumer, r: PopOutcome)
    requires PhaseShaped(mode, c) && c.phase.Filling? && c.phase.next < |c.streams|
    requires r.packet.Data? ==> r.packet.ts == c.phase.ts
    requires !mode ==> HasData(c.phase.filled + [r.packet])
                       || HasWitness(c.streams[c.phase.next := r.stream], c.phase.next + 1, |c.streams|, c.phase.ts)
    ensures PhaseShaped(mode, c.(streams := c.streams[c.phase.next := r.stream],
                                 phase := Filling(c.phase.ts, c.phase.next + 1, c.phase.filled + [r.packet]),
                                 dropped := c.dropped + r.dropped))
  {
  }

  lemma FillNextHolds(mode: bool, c: Consumer)
    requires Typed(c) && Inv(mode, c)
    ensures Inv(mode, Apply(mode, c, FillNext))
  {
    if c.phase.Filling? && c.phase.next < |c.streams| {
      var k := c.phase.next;
      assert StreamHolds(c.streams[k], k, c.phase, LastTs(c), Contributed(c, k));
      FillKeepsPhase(mode, c);
      FillKeepsStreams(c);
    }
  }

  lemma FinishKeepsStreams(mode: bool, c: Consumer)
    requires Inv(mode, c) && c.phase.Filling? && c.phase.next == |c.streams|
    ensures var d := c.(phase := Resting, sets := c.sets + [InputSet(c.phase.ts, c.phase.filled)]);
            SetsShaped(d.sets, |d.streams|) && StreamsHold(d)
  {
    var set' := InputSet(c.phase.ts, c.phase.filled);
    var d := c.(phase := Resting, sets := c.sets + [set']);
    forall i | 0 <= i < |d.streams|
      ensures StreamHolds(d.streams[i], i, d.phase, LastTs(d), Contributed(d, i))
    {
      assert StreamHolds(c.streams[i], i, c.phase, LastTs(c), Contributed(c, i));
      ContributedAfterFinish(c, set', i);
      FinishKeepsStream(c.streams[i], i, c.phase.ts, |c.streams|, c.phase.filled, LastTs(c), Contributed(c, i));
    }
  }

  lemma ContributedAfterFinish(c: Consumer, set': InputSet, i: nat)
    requires SetsShaped(c.sets, |c.streams|) && i < |c.streams|
    requires c.phase.Filling? && |c.phase.filled| == |c.streams| && set' == InputSet(c.phase.ts, c.phase.filled)
    ensures SetsShaped(c.sets + [set'], |c.streams|)
    ensures Contributed(c.(phase := Resting, sets := c.sets + [set']), i) == Contributed(c, i)
  {
    DeliveredAfter(c.sets, set', i);
    assert Delivered(c.sets + [set'], i) + [] == Delivered(c.sets + [set'], i);
  }

  lemma FinishKeepsStream(s: Stream, i: nat, ts: Timestamp, n: nat, filled: seq<Packet>, lastTs: Timestamp, given: seq<Packet>)
    requires StreamHolds(s, i, Filling(ts, n, filled), lastTs, given) && i < n
    ensures StreamHolds(s, i, Resting, ts, given)
  {
  }

  lemma DeliveredAfter(sets: seq<InputSet>, last: InputSet, i: nat)
    requires forall j :: 0 <= j < |sets| ==> i < |sets[j].packets|
    requires i < |last.packets|
    ensures Delivered(sets + [last], i) == Delivered(sets, i) + Handed(last.packets[i])
  {
    assert (sets + [last])[..|sets|] == sets;
  }

  lemma FinishFillHolds(mode: bool, c: Consumer)
    requires Typed(c) && Inv(mode, c)
    ensures Inv(mode, Apply(mode, c, FinishFill))
  {
    if c.phase.Filling? && c.phase.next == |c.streams| {
      FinishKeepsStreams(mode, c);
      var d := Apply(mode, c, FinishFill);
      assert SetsHold(mode, d.sets) by {
        forall j | 0 <= j < |c.sets| ensures c.sets[j].ts < c.phase.ts {
          assert j < |c.sets| - 1 ==> c.sets[j].ts < c.sets[|c.sets| - 1].ts;
        }
      }
    }
  }

  // ---------------------------------------------------------------- theorems

  /** Completed input sets stay as they are, and a close once seen stays seen. */
  predicate Continues(c: Consumer, d: Consumer) {
    c.sets <= d.sets && |c.streams| == |d.streams| && (c.closeSeen ==> d.closeSeen)
  }

  lemma StepContinues(mode: bool, c: Consumer, step: Step)
    requires Typed(c)
    ensures Continues(c, Apply(mode, c, step))
  {
  }

  /** Every interleaving of producer and consumer steps keeps the invariant. */
  lemma {:induction false} RunHolds(mode: bool, c: Consumer, steps: seq<Step>)
    requires Typed(c) && Inv(mode, c)
    ensures Inv(mode, Run(mode, c, steps)) && Continues(c, Run(mode, c, steps))
    decreases |steps|
  {
    if steps != [] {
      var front, last := steps[..|steps| - 1], steps[|steps| - 1];
      RunHolds(mode, c, front);
      StepHolds(mode, Run(mode, c, front), last);
      StepContinues(mode, Run(mode, c, front), last);
    }
  }

  lemma EveryRunHolds(mode: bool, types: seq<ResolvedType>, steps: seq<Step>)
    ensures Inv(mode, Run(mode, Initial(types), steps))
  {
    InitialHolds(mode, types);
    RunHolds(mode, Initial(types), steps);
  }

  lemma StepHolds(mode: bool, c: Consumer, step: Step)
    requires Typed(c) && Inv(mode, c)
    ensures Inv(mode, Apply(mode, c, step))
  {
    match step
    case Produce(i, op) => if i < |c.streams| { ProduceHolds(mode, c, i, op); }
    case StartRead => StartReadHolds(mode, c);
    case ReadNext => ReadNextHolds(mode, c);
    case DecideNow => DecideHolds(mode, c);
    case FillNext => FillNextHolds(mode, c);
    case FinishFill => FinishFillHolds(mode, c);
  }

  /** The runtime checks made while filling an input set cannot fail, and nothing is dropped. */
  lemma FillingNeverFails(mode: bool, types: seq<ResolvedType>, steps: seq<Step>)
    ensures var c := Run(mode, Initial(types), steps);
            && c.dropped == 0
            && (c.phase.Filling? && c.phase.next < |c.streams| ==>
                  var s, t := c.streams[c.phase.next], c.phase.ts;
                  s.lastSelect <= t && IsAllowedInStream(t) && PopAt(s, t).dropped == 0)
  {
    EveryRunHolds(mode, types, steps);
    var c := Run(mode, Initial(types), steps);
    if c.phase.Filling? && c.phase.next < |c.streams| {
      FillingIsSettled(mode, c);
    }
  }

  lemma FillingIsSettled(mode: bool, c: Consumer)
    requires Inv(mode, c) && c.phase.Filling? && c.phase.next < |c.streams|
    ensures SettledAt(c.streams[c.phase.next], c.phase.ts) && PopAt(c.streams[c.phase.next], c.phase.ts).dropped == 0
  {
    var k := c.phase.next;
    assert StreamHolds(c.streams[k], k, c.phase, LastTs(c), Contributed(c, k));
    SettledPop(c.streams[k], c.phase.ts);
  }

  /** Nothing is lost, repeated or reordered: what was handed over and what waits is what was accepted. */
  lemma StreamsAreConserved(mode: bool, types: seq<ResolvedType>, steps: seq<Step>, i: nat)
    requires i < |Run(mode, Initial(types), steps).streams|
    ensures var c := Run(mode, Initial(types), steps);
            && SetsShaped(c.sets, |c.streams|)
            && (c.phase.Resting? ==> c.streams[i].accepted == Delivered(c.sets, i) + c.streams[i].queue)
  {
    EveryRunHolds(mode, types, steps);
    var c := Run(mode, Initial(types), steps);
    assert StreamHolds(c.streams[i], i, c.phase, LastTs(c), Contributed(c, i));
    assert Delivered(c.sets, i) + [] == Delivered(c.sets, i);
  }

  predicate GivenBy(sets: seq<InputSet>, i: nat, p: Packet)
    requires forall j :: 0 <= j < |sets| ==> i < |sets[j].packets|
  {
    exists j :: 0 <= j < |sets| && sets[j].packets[i] == p && p.Data?
  }

  lemma GivenByOneMore(init: seq<InputSet>, last: InputSet, i: nat, p: Packet)
    requires forall j :: 0 <= j < |init| ==> i < |init[j].packets|
    requires i < |last.packets|
    ensures GivenBy(init + [last], i, p) <==> GivenBy(init, i, p) || (last.packets[i] == p && p.Data?)
  {
    var sets := init + [last];
    assert sets[|init|] == last;
    if GivenBy(init, i, p) {
      var j :| 0 <= j < |init| && init[j].packets[i] == p && p.Data?;
      assert sets[j] == init[j];
    }
  }

  lemma {:induction false} DeliveredMembers(sets: seq<InputSet>, i: nat, p: Packet)
    requires forall j :: 0 <= j < |sets| ==> i < |sets[j].packets|
    ensures p in Delivered(sets, i) <==> GivenBy(sets, i, p)
    decreases |sets|
  {
    if sets != [] {
      var init, last := sets[..|sets| - 1], sets[|sets| - 1];
      DeliveredMembers(init, i, p);
      assert sets == init + [last];
      GivenByOneMore(init, last, i, p);
      assert p in Handed(last.packets[i]) <==> last.packets[i] == p && p.Data?;
    }
  }

  /**
   A completed input set holds, for each stream, exactly the packet with its timestamp that the
   stream ever accepted. As the state is arbitrary, this covers packets accepted later too.
   */
  lemma InputSetsAreExact(mode: bool, c: Consumer, j: nat, i: nat, p: Packet)
    requires Inv(mode, c) && j < |c.sets| && i < |c.streams|
    ensures p in c.streams[i].accepted && p.ts == c.sets[j].ts <==> p.Data? && c.sets[j].packets[i] == p
  {
    AcceptedMeansGiven(mode, c, i, p);
    ExactFromDelivered(mode, c.sets, |c.streams|, j, i, p, c.streams[i].accepted);
  }

  lemma AcceptedMeansGiven(mode: bool, c: Consumer, i: nat, p: Packet)
    requires Inv(mode, c) && i < |c.streams| && c.sets != []
    ensures SetsShaped(c.sets, |c.streams|) && SetsHold(mode, c.sets)
    ensures p in c.streams[i].accepted && p.ts <= c.sets[|c.sets| - 1].ts ==> GivenBy(c.sets, i, p)
    ensures GivenBy(c.sets, i, p) ==> p in c.streams[i].accepted
  {
    DeliveredMembers(c.sets, i, p);
    AcceptedAndLateIsDelivered(mode, c, i, p);
  }

  lemma ExactFromDelivered(mode: bool, sets: seq<InputSet>, n: nat, j: nat, i: nat, p: Packet, accepted: seq<Packet>)
    requires SetsShaped(sets, n) && SetsHold(mode, sets) && j < |sets| && i < n
    requires p in accepted && p.ts <= sets[|sets| - 1].ts ==> GivenBy(sets, i, p)
    requires GivenBy(sets, i, p) ==> p in accepted
    ensures p in accepted && p.ts == sets[j].ts <==> p.Data? && sets[j].packets[i] == p
  {
    if p in accepted && p.ts == sets[j].ts {
      assert sets[j].ts <= sets[|sets| - 1].ts;
      var k :| 0 <= k < |sets| && sets[k].packets[i] == p && p.Data?;
      assert sets[k].ts == sets[j].ts;
    }
  }

  /** Up to the last processed timestamp, accepted and delivered are the same. */
  lemma AcceptedAndLateIsDelivered(mode: bool, c: Consumer, i: nat, p: Packet)
    requires Inv(mode, c) && i < |c.streams|
    ensures p in c.streams[i].accepted && p.ts <= LastTs(c) ==> p in Delivered(c.sets, i)
    ensures p in Delivered(c.sets, i) ==> p in c.streams[i].accepted
  {
    var s := c.streams[i];
    assert StreamHolds(s, i, c.phase, LastTs(c), Contributed(c, i));
    assert Delivered(c.sets, i) <= Contributed(c, i);
    if p.ts <= LastTs(c) {
      LateQueue(s, LastTs(c), p);
    }
  }

  lemma LateQueue(s: Stream, lastTs: Timestamp, p: Packet)
    requires Valid(s) && !s.closed && lastTs <= s.lastSelect && p.ts <= lastTs
    ensures p !in s.queue
  {
    QueueFacts(s);
  }

  /**
   The same over runs: once an input set is complete, then whatever happens afterwards, it holds
   exactly the packets with its timestamp that its streams have accepted by then.
   */
  lemma SettledSetsAreExact(mode: bool, types: seq<ResolvedType>, steps: seq<Step>, more: seq<Step>, j: nat, i: nat, p: Packet)
    requires var c := Run(mode, Initial(types), steps); j < |c.sets| && i < |c.streams|
    ensures var c := Run(mode, Initial(types), steps);
            var d := Run(mode, c, more);
            && j < |d.sets| && i < |d.streams| && d.sets[j] == c.sets[j] && i < |c.sets[j].packets|
            && (p in d.streams[i].accepted && p.ts == c.sets[j].ts <==> p.Data? && c.sets[j].packets[i] == p)
  {
    EveryRunHolds(mode, types, steps);
    var c := Run(mode, Initial(types), steps);
    RunHolds(mode, c, more);
    InputSetsAreExact(mode, Run(mode, c, more), j, i, p);
  }

  /** Processed timestamps strictly increase and are all allowed in a stream; packet mode makes no empty set. */
  lemma ProcessedInOrder(mode: bool, types: seq<ResolvedType>, steps: seq<Step>, j: nat, k: nat)
    requires j <= k < |Run(mode, Initial(types), steps).sets|
    ensures var sets := Run(mode, Initial(types), steps).sets;
            && PRE_STREAM <= sets[j].ts <= sets[k].ts <= POST_STREAM
            && (j < k ==> sets[j].ts < sets[k].ts)
            && (!mode ==> HasData(sets[k].packets))
  {
    EveryRunHolds(mode, types, steps);
    SetsAreHeld(mode, Run(mode, Initial(types), steps));
    SetsInOrder(mode, Run(mode, Initial(types), steps).sets, j, k);
  }

  lemma SetsAreHeld(mode: bool, c: Consumer)
    requires Inv(mode, c)
    ensures SetsHold(mode, c.sets)
  {
  }

  lemma SetsInOrder(mode: bool, sets: seq<InputSet>, j: nat, k: nat)
    requires SetsHold(mode, sets) && j <= k < |sets|
    ensures PRE_STREAM <= sets[j].ts <= sets[k].ts <= POST_STREAM && (j < k ==> sets[j].ts < sets[k].ts)
    ensures !mode ==> HasData(sets[k].packets)
  {
  }

  /**
   Once ready for close was returned, then for ever: nothing is queued, no packet can be accepted,
   and every decision is ready for close again.
   */
  lemma CloseIsFinal(mode: bool, types: seq<ResolvedType>, steps: seq<Step>, more: seq<Step>, i: nat, p: Packet)
    requires Run(mode, Initial(types), steps).closeSeen
    requires var d := Run(mode, Run(mode, Initial(types), steps), more); i < |d.streams|
    ensures var d := Run(mode, Run(mode, Initial(types), steps), more);
            && d.streams[i].queue == [] && CheckPacket(d.streams[i], p) != OK
            && (d.phase.Reading? ==> Decide(mode, d.phase.scan, d.lastProcessed).readiness == ReadyForClose)
  {
    EveryRunHolds(mode, types, steps);
    RunHolds(mode, Run(mode, Initial(types), steps), more);
    NothingAfterClose(mode, Run(mode, Run(mode, Initial(types), steps), more), i, p);
  }

  lemma NothingAfterClose(mode: bool, c: Consumer, i: nat, p: Packet)
    requires Typed(c) && CloseHolds(c) && c.closeSeen && i < |c.streams|
    ensures c.streams[i].queue == [] && CheckPacket(c.streams[i], p) != OK
    ensures c.phase.Reading? ==> Decide(mode, c.phase.scan, c.lastProcessed).readiness == ReadyForClose
  {
    assert Exhausted(c.streams[i]);
    if c.phase.Reading? {
      CloseMeansNothingLeft(mode, c.phase.scan, c.lastProcessed);
    }
  }

  /** The state in which timestamp mode is stuck is reached by two successful producer calls. */
  lemma StuckStateIsReached()
    ensures var steps := [Produce(0, Add([Data(5, 0, 0)])), Produce(1, Bound(POST_STREAM))];
            var c := Run(true, Initial([AnyType, AnyType]), steps);
            && |c.streams| == 2
            && Observe(c.streams[0]) == Observation(false, 5) && Observe(c.streams[1]) == Observation(true, POST_STREAM)
            && SettledAt(c.streams[0], 5) && SettledAt(c.streams[1], 5)
            && Decide(true, ScanAll([Observe(c.streams[0]), Observe(c.streams[1])]), c.lastProcessed).readiness == NotReady
  {
    PacketWaits(Prepared(AnyType, -1));
    BoundIsPostStream(Prepared(AnyType, -1));
    StuckBeforePostStream();
    ProduceOnBoth(Add([Data(5, 0, 0)]), Bound(POST_STREAM));
  }

  lemma ProduceOnBoth(first: ProducerOp, second: ProducerOp)
    ensures var c := Run(true, Initial([AnyType, AnyType]), [Produce(0, first), Produce(1, second)]);
            var s := Prepared(AnyType, -1);
            c.streams == [ProduceOn(s, first), ProduceOn(s, second)] && c.lastProcessed == UNSET
  {
    var start, s := Initial([AnyType, AnyType]), Prepared(AnyType, -1);
    var steps := [Produce(0, first), Produce(1, second)];
    assert steps[..1] == [Produce(0, first)] && steps[..1][..0] == [];
    assert start.streams == [s, s];
    assert Run(true, start, steps[..1][..0]) == start;
    var mid := Run(true, start, steps[..1]);
    assert mid == Apply(true, start, Produce(0, first));
    assert mid.streams == [s, s][0 := ProduceOn(s, first)] == [ProduceOn(s, first), s];
    assert Run(true, start, steps) == Apply(true, mid, Produce(1, second));
  }

  lemma PacketWaits(s: Stream)
    requires s == Prepared(AnyType, -1)
    ensures var t := ProduceOn(s, Add([Data(5, 0, 0)])); Observe(t) == Observation(false, 5) && SettledAt(t, 5)
  {
    var p := Data(5, 0, 0);
    assert CheckPacket(s, p) == OK;
    assert [p][1..] == [];
    assert AppendAll(s, [p]) == AppendAll(Append(s, p), []);
    AppendKeepsValid(s, p);
  }

  lemma BoundIsPostStream(s: Stream)
    requires s == Prepared(AnyType, -1)
    ensures var t := ProduceOn(s, Bound(POST_STREAM)); Observe(t) == Observation(true, POST_STREAM) && SettledAt(t, 5)
  {
    PreparedIsValid(AnyType, -1);
    SetBoundKeepsValid(s, POST_STREAM);
  }
}
