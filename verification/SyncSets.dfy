/**
 When a node may run: from the heads and bounds of its input streams to a decision, and
 from a decided timestamp to an input set.
 */
module SyncSets {
  import opened Timestamps
  import opened Packets
  import opened InputStreams
  import opened InputStreamManagers

  datatype Readiness = NotReady | ReadyForProcess | ReadyForClose

  /** The smallest bound of the empty streams and the smallest head of the others. */
  datatype Scan = Scan(minBound: Timestamp, minPacket: Timestamp)

  datatype Decision = Decision(readiness: Readiness, ts: Timestamp, lastProcessed: Timestamp)

  const NothingScanned: Scan := Scan(DONE, DONE)

  function Absorb(scan: Scan, o: Observation): Scan {
    if o.empty then scan.(minBound := MinOf(scan.minBound, o.ts))
    else scan.(minPacket := MinOf(scan.minPacket, o.ts))
  }

  function ScanAll(os: seq<Observation>): Scan
  {
    if os == [] then NothingScanned else Absorb(ScanAll(os[..|os| - 1]), os[|os| - 1])
  }

  /** The latest timestamp at which no more packets can arrive. */
  function SettledTimestamp(scan: Scan): Timestamp {
    if scan.minPacket == POST_STREAM && scan.minBound > scan.minPacket then scan.minPacket
    else PreviousAllowedInStream(scan.minBound)
  }

  function Decide(processTimestamps: bool, scan: Scan, last: Timestamp): Decision {
    var low := MinOf(scan.minPacket, scan.minBound);
    if low >= ONE_OVER_POST_STREAM then
      Decision(ReadyForClose, DONE, PreviousAllowedInStream(DONE))
    else if !processTimestamps then
      if scan.minBound > scan.minPacket then Decision(ReadyForProcess, low, low)
      else Decision(NotReady, low, last)
    else
      var input := MinOf(scan.minPacket, SettledTimestamp(scan));
      if input > MaxOf(last, UNSTARTED) then Decision(ReadyForProcess, input, input)
      else Decision(NotReady, low, last)
  }

  /** A timestamp declared ready lies below every empty stream's bound and no later than any head. */
  lemma ReadyTimestampIsSettled(processTimestamps: bool, scan: Scan, last: Timestamp)
    requires PRE_STREAM <= scan.minBound && PRE_STREAM <= scan.minPacket
    ensures var d := Decide(processTimestamps, scan, last);
            d.readiness == ReadyForProcess ==>
              && IsAllowedInStream(d.ts) && d.ts <= scan.minPacket && d.ts < scan.minBound
              && d.lastProcessed == d.ts
              && (processTimestamps ==> MaxOf(last, UNSTARTED) < d.ts)
              && (!processTimestamps ==> d.ts == scan.minPacket)
  {
  }

  lemma CloseMeansNothingLeft(processTimestamps: bool, scan: Scan, last: Timestamp)
    ensures Decide(processTimestamps, scan, last).readiness == ReadyForClose <==>
            ONE_OVER_POST_STREAM <= scan.minBound && ONE_OVER_POST_STREAM <= scan.minPacket
    ensures var d := Decide(processTimestamps, scan, last);
            d.readiness == ReadyForClose ==> d.ts == DONE && forall t :: IsAllowedInStream(t) ==> t < d.ts
  {
  }

  // ---------------------------------------------------------------- readiness is complete

  /** Nothing at or before `t` can arrive any more, and nothing before `t` waits. */
  predicate Settles(os: seq<Observation>, t: Timestamp) {
    forall i :: 0 <= i < |os| ==> if os[i].empty then t < os[i].ts else t <= os[i].ts
  }

  predicate HeadAmong(os: seq<Observation>, t: Timestamp) {
    exists i :: 0 <= i < |os| && !os[i].empty && os[i].ts == t
  }

  /** What streams can show: bounds from PreStream on, and heads that are allowed in a stream. */
  predicate Plausible(os: seq<Observation>) {
    forall i :: 0 <= i < |os| ==> PRE_STREAM <= os[i].ts && (os[i].empty || os[i].ts <= POST_STREAM)
  }

  /** The two minima say all there is to say about the streams. */
  lemma {:induction false} ScanSummarises(os: seq<Observation>, t: Timestamp)
    requires t < DONE
    ensures Settles(os, t) <==> t < ScanAll(os).minBound && t <= ScanAll(os).minPacket
    ensures HeadAmong(os, t) ==> ScanAll(os).minPacket <= t
    decreases |os|
  {
    if os != [] {
      var front, last := os[..|os| - 1], os[|os| - 1];
      ScanSummarises(front, t);
      assert os == front + [last];
      assert HeadAmong(os, t) ==> HeadAmong(front, t) || (!last.empty && last.ts == t);
    }
  }

  lemma {:induction false} ScanIsAttained(os: seq<Observation>)
    requires Plausible(os)
    ensures var scan := ScanAll(os);
            && PRE_STREAM <= scan.minBound && PRE_STREAM <= scan.minPacket
            && (scan.minPacket == DONE || (scan.minPacket <= POST_STREAM && HeadAmong(os, scan.minPacket)))
    decreases |os|
  {
    if os != [] {
      var front, last := os[..|os| - 1], os[|os| - 1];
      ScanIsAttained(front);
      var m := ScanAll(front).minPacket;
      if m != DONE {
        var i :| 0 <= i < |front| && !front[i].empty && front[i].ts == m;
        assert os[i] == front[i];
      }
      assert os[|os| - 1] == last;
    }
  }

  /** Outside timestamp mode a node is ready exactly when some waiting packet's timestamp is settled. */
  lemma PacketModeIsComplete(os: seq<Observation>, last: Timestamp)
    requires Plausible(os)
    ensures Decide(false, ScanAll(os), last).readiness == ReadyForProcess <==>
            exists t :: IsAllowedInStream(t) && Settles(os, t) && HeadAmong(os, t)
  {
    var scan := ScanAll(os);
    ScanIsAttained(os);
    if Decide(false, scan, last).readiness == ReadyForProcess {
      ScanSummarises(os, scan.minPacket);
      assert IsAllowedInStream(scan.minPacket) && Settles(os, scan.minPacket) && HeadAmong(os, scan.minPacket);
    }
    if t :| IsAllowedInStream(t) && Settles(os, t) && HeadAmong(os, t) {
      ScanSummarises(os, t);
    }
  }

  /**
   In timestamp mode a node that is not about to close is ready exactly when some timestamp after
   the last one is settled, unless the smallest bound is Min or PostStream: these two have no
   predecessor, and the code then takes nothing for settled.
   */
  lemma TimestampModeIsComplete(os: seq<Observation>, last: Timestamp)
    requires Plausible(os)
    requires Decide(true, ScanAll(os), last).readiness != ReadyForClose
    ensures Decide(true, ScanAll(os), last).readiness == ReadyForProcess <==>
            && ScanAll(os).minBound != MIN && ScanAll(os).minBound != POST_STREAM
            && exists t :: IsAllowedInStream(t) && last < t && Settles(os, t)
  {
    var scan := ScanAll(os);
    ScanIsAttained(os);
    ReadyTimestampIsSettled(true, scan, last);
    var d := Decide(true, scan, last);
    if d.readiness == ReadyForProcess {
      ScanSummarises(os, d.ts);
      assert IsAllowedInStream(d.ts) && last < d.ts && Settles(os, d.ts);
    }
    if t :| IsAllowedInStream(t) && last < t && Settles(os, t) {
      ScanSummarises(os, t);
    }
  }

  lemma {:induction false} ScanIsReached(os: seq<Observation>)
    requires os != []
    ensures var scan := ScanAll(os); var low := MinOf(scan.minBound, scan.minPacket);
            && (forall i :: 0 <= i < |os| ==> low <= os[i].ts)
            && exists i :: 0 <= i < |os| && low == os[i].ts
    decreases |os|
  {
    var front, last := os[..|os| - 1], os[|os| - 1];
    assert os == front + [last];
    if front != [] {
      ScanIsReached(front);
      var i :| 0 <= i < |front| && MinOf(ScanAll(front).minBound, ScanAll(front).minPacket) == front[i].ts;
      assert os[i] == front[i];
    }
    assert os[|os| - 1] == last;
  }

  /** A node that has to wait reports the smallest timestamp to be seen on its streams, and forgets nothing. */
  lemma WaitingReportsSmallest(processTimestamps: bool, os: seq<Observation>, last: Timestamp)
    requires Decide(processTimestamps, ScanAll(os), last).readiness == NotReady
    ensures var d := Decide(processTimestamps, ScanAll(os), last);
            && d.lastProcessed == last
            && (forall i :: 0 <= i < |os| ==> d.ts <= os[i].ts)
            && exists i :: 0 <= i < |os| && d.ts == os[i].ts
  {
    ScanIsReached(os);
  }

  /**
   Of the settled timestamps the latest is taken; outside timestamp mode the only one that a packet
   waits at.
   */
  lemma ReadyTakesLatest(processTimestamps: bool, os: seq<Observation>, last: Timestamp, t: Timestamp)
    requires Plausible(os) && Decide(processTimestamps, ScanAll(os), last).readiness == ReadyForProcess
    requires IsAllowedInStream(t) && Settles(os, t)
    ensures processTimestamps ==> t <= Decide(processTimestamps, ScanAll(os), last).ts
    ensures !processTimestamps && HeadAmong(os, t) ==> t == Decide(processTimestamps, ScanAll(os), last).ts
  {
    ScanIsAttained(os);
    ScanSummarises(os, t);
  }

  /** The same at the other end: a PreStream packet waits while another stream promises nothing before Min. */
  lemma StuckBeforeMin()
    ensures var os := [Observation(false, PRE_STREAM), Observation(true, MIN)];
            && Plausible(os) && Settles(os, PRE_STREAM) && HeadAmong(os, PRE_STREAM)
            && Decide(true, ScanAll(os), UNSET).readiness == NotReady
            && Decide(false, ScanAll(os), UNSET).readiness == ReadyForProcess
  {
    var os := [Observation(false, PRE_STREAM), Observation(true, MIN)];
    assert os[0].ts == PRE_STREAM;
    assert os[..1] == [os[0]] && os[..1][..0] == [];
    assert ScanAll(os[..1]) == Scan(DONE, PRE_STREAM);
    assert ScanAll(os) == Scan(MIN, PRE_STREAM);
  }

  /** A packet at 5 waits while another stream, empty, promises nothing before PostStream: settled, but not ready. */
  lemma StuckBeforePostStream()
    ensures var os := [Observation(false, 5), Observation(true, POST_STREAM)];
            && Plausible(os) && Settles(os, 5) && HeadAmong(os, 5)
            && Decide(true, ScanAll(os), UNSET).readiness == NotReady
            && Decide(false, ScanAll(os), UNSET).readiness == ReadyForProcess
  {
    var os := [Observation(false, 5), Observation(true, POST_STREAM)];
    assert os[0].ts == 5;
    assert os[..1] == [os[0]] && os[..1][..0] == [];
    assert ScanAll(os[..1]) == Scan(DONE, 5);
    assert ScanAll(os) == Scan(POST_STREAM, 5);
  }

  /** No packet at or before `t` can still arrive, and none before `t` is waiting. */
  ghost predicate SettledAt(s: Stream, t: Timestamp) {
    && Valid(s) && !s.closed && IsAllowedInStream(t)
    && s.lastSelect <= t < s.bound
    && (s.queue != [] ==> t <= s.queue[0].ts)
  }

  /** `packet` is what popping `s` at `t` hands over, leaving `after`. */
  predicate Filled(s: Stream, t: Timestamp, after: Stream, packet: Packet) {
    after == PopAt(s, t).stream && packet == PopAt(s, t).packet
  }

  predicate HeadAt(s: Stream, t: Timestamp) {
    s.queue != [] && s.queue[0].ts == t
  }

  lemma SettledCount(s: Stream, t: Timestamp)
    requires SettledAt(s, t)
    ensures CountUpTo(s.queue, t) == if HeadAt(s, t) then 1 else 0
  {
    QueueFacts(s);
    assert |s.queue| > 1 ==> s.queue[0].ts < s.queue[1].ts;
  }

  /** A settled pop takes the head if it carries `t` and nothing otherwise, and drops nothing. */
  lemma SettledPop(s: Stream, t: Timestamp)
    requires SettledAt(s, t)
    ensures Valid(PopAt(s, t).stream)
    ensures PopAt(s, t).stream == s.(queue := s.queue[if HeadAt(s, t) then 1 else 0..], lastSelect := t)
    ensures PopAt(s, t).dropped == 0
    ensures if HeadAt(s, t) then PopAt(s, t).packet == s.queue[0] && s.queue[0].Data?
            else PopAt(s, t).packet.EmptyAt?
  {
    PopKeepsValid(s, t);
    SettledCount(s, t);
    if HeadAt(s, t) {
      QueueFacts(s);
    }
  }

  ghost predicate AllSettled(ss: seq<Stream>, t: Timestamp) {
    forall i :: 0 <= i < |ss| ==> SettledAt(ss[i], t)
  }

  ghost predicate AllFilled(before: seq<Stream>, t: Timestamp, after: seq<Stream>, packets: seq<Packet>) {
    && |before| == |after| == |packets|
    && forall i :: 0 <= i < |before| ==> Filled(before[i], t, after[i], packets[i])
  }

  /** What popping each stream gives. */
  ghost function Pops(before: seq<Stream>, t: Timestamp): (r: seq<PopOutcome>)
    ensures |r| == |before|
  {
    seq(|before|, i requires 0 <= i < |before| => PopAt(before[i], t))
  }

  lemma PopsAt(before: seq<Stream>, t: Timestamp, n: nat)
    requires n < |before|
    ensures Pops(before, t)[n] == PopAt(before[n], t)
  {
  }

  predicate Poppable(s: Stream, t: Timestamp, outcome: PopOutcome) {
    outcome == PopAt(s, t) && outcome.dropped == 0 && s.lastSelect <= t && IsAllowedInStream(t)
  }

  lemma SettledPops(before: seq<Stream>, t: Timestamp)
    requires AllSettled(before, t)
    ensures forall i :: 0 <= i < |before| ==> Poppable(before[i], t, Pops(before, t)[i])
  {
    forall i | 0 <= i < |before|
      ensures Poppable(before[i], t, Pops(before, t)[i])
    {
      SettledPop(before[i], t);
      PopsAt(before, t, i);
    }
  }

  lemma PopsFill(before: seq<Stream>, t: Timestamp, after: seq<Stream>, packets: seq<Packet>)
    requires |before| == |after| == |packets|
    requires forall i :: 0 <= i < |before| ==> after[i] == Pops(before, t)[i].stream && packets[i] == Pops(before, t)[i].packet
    ensures AllFilled(before, t, after, packets)
  {
    forall i | 0 <= i < |before|
      ensures Filled(before[i], t, after[i], packets[i])
    {
      PopsAt(before, t, i);
    }
  }

  // ---------------------------------------------------------------- the object

  class SyncSet {
    const streams: seq<InputStreamManager>
    const processTimestamps: bool
    var lastProcessedTs: Timestamp

    ghost predicate Distinct() {
      forall i, j :: 0 <= i < j < |streams| ==> streams[i] != streams[j]
    }

    ghost function Observations(): (os: seq<Observation>)
      reads streams
    {
      seq(|streams|, i requires 0 <= i < |streams| reads streams => Observe(streams[i].State()))
    }

    constructor (streams: seq<InputStreamManager>, processTimestamps: bool)
      ensures this.streams == streams && this.processTimestamps == processTimestamps
      ensures lastProcessedTs == UNSET
    {
      this.streams, this.processTimestamps, lastProcessedTs := streams, processTimestamps, UNSET;
    }

    method GetReadiness() returns (readiness: Readiness, minStreamTimestamp: Timestamp)
      modifies this
      ensures Decision(readiness, minStreamTimestamp, lastProcessedTs)
              == Decide(processTimestamps, ScanAll(Observations()), old(lastProcessedTs))
    {
      var minBound, minPacket := DONE, DONE;
      ghost var os := Observations();
      for n := 0 to |streams|
        invariant Scan(minBound, minPacket) == ScanAll(os[..n])
        invariant lastProcessedTs == old(lastProcessedTs)
      {
        var ts, empty := streams[n].MinTimestampOrBound();
        if empty {
          minBound := MinOf(minBound, ts);
        } else {
          minPacket := MinOf(minPacket, ts);
        }
        assert os[..n + 1][..n] == os[..n];
      }
      assert os[..|streams|] == os;
      minStreamTimestamp := MinOf(minPacket, minBound);
      if minStreamTimestamp >= ONE_OVER_POST_STREAM {
        minStreamTimestamp := DONE;
        lastProcessedTs := PreviousAllowedInStream(DONE);
        return ReadyForClose, minStreamTimestamp;
      }
      if !processTimestamps {
        if minBound > minPacket {
          lastProcessedTs := minStreamTimestamp;
          return ReadyForProcess, minStreamTimestamp;
        }
      } else {
        var settled := if minPacket == POST_STREAM && minBound > minPacket then minPacket
                       else PreviousAllowedInStream(minBound);
        var inputTimestamp := MinOf(minPacket, settled);
        if inputTimestamp > MaxOf(lastProcessedTs, UNSTARTED) {
          minStreamTimestamp := inputTimestamp;
          lastProcessedTs := inputTimestamp;
          return ReadyForProcess, minStreamTimestamp;
        }
      }
      return NotReady, minStreamTimestamp;
    }

    ghost function States(): (ss: seq<Stream>)
      reads streams
      ensures |ss| == |streams|
      ensures forall i :: 0 <= i < |streams| ==> ss[i] == streams[i].State()
    {
      seq(|streams|, i requires 0 <= i < |streams| reads streams => streams[i].State())
    }

    /** Pops every stream at a settled timestamp; no stream drops a packet. */
    method FillInputSet(inputTimestamp: Timestamp) returns (inputs: seq<Packet>)
      requires Distinct()
      requires AllSettled(States(), inputTimestamp)
      modifies streams
      ensures AllFilled(old(States()), inputTimestamp, States(), inputs)
    {
      ghost var before := States();
      SettledPops(before, inputTimestamp);
      inputs := FillAll(inputTimestamp, before, Pops(before, inputTimestamp));
      PopsFill(before, inputTimestamp, States(), inputs);
    }

    /** The first `n` streams have been popped, with these packets. */
    ghost predicate FilledTo(n: nat, inputs: seq<Packet>, before: seq<Stream>, outcomes: seq<PopOutcome>)
      reads streams
    {
      && |before| == |outcomes| == |streams| && |inputs| == n <= |streams|
      && (forall i :: 0 <= i < n ==> streams[i].State() == outcomes[i].stream && inputs[i] == outcomes[i].packet)
      && (forall i :: n <= i < |streams| ==> streams[i].State() == before[i])
    }

    /** The loop over the streams; it knows of each stream only that popping it drops nothing. */
    method FillAll(inputTimestamp: Timestamp, ghost before: seq<Stream>, ghost outcomes: seq<PopOutcome>) returns (inputs: seq<Packet>)
      requires Distinct() && FilledTo(0, [], before, outcomes)
      requires forall i :: 0 <= i < |streams| ==> Poppable(before[i], inputTimestamp, outcomes[i])
      modifies streams
      ensures FilledTo(|streams|, inputs, before, outcomes)
    {
      inputs := [];
      for n := 0 to |streams|
        invariant FilledTo(n, inputs, before, outcomes)
      {
        var packet := FillNext(n, inputTimestamp, inputs, before, outcomes);
        inputs := inputs + [packet];
      }
    }

    method FillNext(n: nat, inputTimestamp: Timestamp, ghost inputs: seq<Packet>, ghost before: seq<Stream>, ghost outcomes: seq<PopOutcome>)
      returns (packet: Packet)
      requires Distinct() && n < |streams| && FilledTo(n, inputs, before, outcomes)
      requires Poppable(before[n], inputTimestamp, outcomes[n])
      modifies streams[n]
      ensures FilledTo(n + 1, inputs + [packet], before, outcomes)
    {
      var stream := streams[n];
      assert forall i :: 0 <= i < |streams| && i != n ==> streams[i] != stream;
      packet := FillOne(stream, inputTimestamp, outcomes[n]);
    }

    static method FillOne(stream: InputStreamManager, inputTimestamp: Timestamp, ghost outcome: PopOutcome) returns (packet: Packet)
      requires Poppable(stream.State(), inputTimestamp, outcome)
      modifies stream
      ensures stream.State() == outcome.stream && packet == outcome.packet
    {
      var dropped, isDone, becameNotFull;
      packet, dropped, isDone, becameNotFull := stream.PopPacketAtTimestamp(inputTimestamp);
      assert dropped == 0;
    }
  }
}
