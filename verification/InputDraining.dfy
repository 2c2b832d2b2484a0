/**
 What the consumer achieves when it is left alone: one undisturbed call does what the two methods
 of a sync set do, and once every stream has ended, finitely many calls hand over all that waits.
 */
module InputDraining {
  import opened Timestamps
  import opened Packets
  import opened PacketTypes
  import opened InputStreams
  import opened SyncSets
  import opened InputProtocol
  import opened Sums

  // ---------------------------------------------------------------- one undisturbed call

  function Times(step: Step, n: nat): (r: seq<Step>)
    ensures |r| == n
  {
    seq(n, _ => step)
  }

  function ReadCall(n: nat): seq<Step> {
    [StartRead] + Times(ReadNext, n) + [DecideNow]
  }

  function FillCall(n: nat): seq<Step> {
    Times(FillNext, n) + [FinishFill]
  }

  function WholeCall(n: nat): seq<Step> {
    ReadCall(n) + FillCall(n)
  }

  lemma RunOneMore(mode: bool, c: Consumer, steps: seq<Step>, last: Step)
    requires Typed(c)
    ensures Run(mode, c, steps + [last]) == Apply(mode, Run(mode, c, steps), last)
  {
    assert (steps + [last])[..|steps|] == steps;
  }

  lemma OneMoreInParts(first: seq<Step>, second: seq<Step>)
    requires second != []
    ensures first + second == (first + second[..|second| - 1]) + [second[|second| - 1]]
  {
  }

  lemma {:induction false} RunInParts(mode: bool, c: Consumer, first: seq<Step>, second: seq<Step>)
    requires Typed(c)
    ensures Run(mode, c, first + second) == Run(mode, Run(mode, c, first), second)
    decreases |second|
  {
    if second == [] {
      assert first + second == first;
    } else {
      var init, last := second[..|second| - 1], second[|second| - 1];
      RunInParts(mode, c, first, init);
      OneMoreInParts(first, second);
      RunOneMore(mode, c, first + init, last);
    }
  }

  lemma TimesOneMore(first: seq<Step>, step: Step, n: nat)
    ensures first + Times(step, n + 1) == (first + Times(step, n)) + [step]
  {
  }

  lemma RunTimes(mode: bool, c: Consumer, step: Step, n: nat)
    requires Typed(c)
    ensures Run(mode, c, Times(step, n + 1)) == Apply(mode, Run(mode, c, Times(step, n)), step)
  {
    RunOneMore(mode, c, Times(step, n), step);
    assert Times(step, n + 1) == Times(step, n) + [step];
  }

  lemma {:induction false} Reads(mode: bool, c: Consumer, k: nat)
    requires Typed(c) && c.phase.Resting? && k <= |c.streams|
    ensures Run(mode, c, [StartRead] + Times(ReadNext, k)) == c.(phase := Reading(k, ScanAll(Observations(c.streams)[..k])))
  {
    if k == 0 {
      assert [StartRead] + Times(ReadNext, 0) == [] + [StartRead];
      RunOneMore(mode, c, [], StartRead);
    } else {
      Reads(mode, c, k - 1);
      TimesOneMore([StartRead], ReadNext, k - 1);
      RunOneMore(mode, c, [StartRead] + Times(ReadNext, k - 1), ReadNext);
      var os := Observations(c.streams);
      assert os[..k][..k - 1] == os[..k - 1];
    }
  }

  /** What the consumer makes of its streams as they stand. */
  function Verdict(mode: bool, c: Consumer): Decision {
    Decide(mode, ScanAll(Observations(c.streams)), c.lastProcessed)
  }

  lemma ReadsAndDecides(mode: bool, c: Consumer)
    requires Typed(c) && c.phase.Resting?
    ensures var d := Verdict(mode, c);
            Run(mode, c, ReadCall(|c.streams|)) ==
              c.(lastProcessed := d.lastProcessed,
                 phase := if d.readiness == ReadyForProcess then Filling(d.ts, 0, []) else Resting,
                 closeSeen := c.closeSeen || d.readiness == ReadyForClose)
  {
    var n := |c.streams|;
    Reads(mode, c, n);
    RunOneMore(mode, c, [StartRead] + Times(ReadNext, n), DecideNow);
    assert Observations(c.streams)[..n] == Observations(c.streams);
  }

  ghost predicate FilledUpTo(c: Consumer, ts: Timestamp, k: nat, d: Consumer) {
    && |d.streams| == |c.streams| && k <= |c.streams|
    && d.phase.Filling? && d.phase.ts == ts && d.phase.next == k && |d.phase.filled| == k
    && (forall i :: 0 <= i < k ==> Filled(c.streams[i], ts, d.streams[i], d.phase.filled[i]))
    && (forall i :: k <= i < |c.streams| ==> d.streams[i] == c.streams[i])
    && d.sets == c.sets && d.lastProcessed == c.lastProcessed && d.closeSeen == c.closeSeen
  }

  lemma {:induction false} Fills(mode: bool, c: Consumer, ts: Timestamp, k: nat)
    requires Typed(c) && c.phase == Filling(ts, 0, []) && k <= |c.streams|
    ensures FilledUpTo(c, ts, k, Run(mode, c, Times(FillNext, k)))
  {
    if k > 0 {
      Fills(mode, c, ts, k - 1);
      RunTimes(mode, c, FillNext, k - 1);
    }
  }

  lemma {:induction false} RestIgnoresFilling(mode: bool, c: Consumer, k: nat)
    requires Typed(c) && c.phase.Resting?
    ensures Run(mode, c, Times(FillNext, k)) == c
  {
    if k > 0 {
      RestIgnoresFilling(mode, c, k - 1);
      RunTimes(mode, c, FillNext, k - 1);
    }
  }

  /** `d` is what an undisturbed call makes of `c`: the decision, and the input set if there is one. */
  ghost predicate Called(mode: bool, c: Consumer, d: Consumer) {
    var v := Verdict(mode, c);
    && d.phase.Resting? && d.lastProcessed == v.lastProcessed
    && d.closeSeen == (c.closeSeen || v.readiness == ReadyForClose)
    && if v.readiness == ReadyForProcess then
         exists packets :: AllFilled(c.streams, v.ts, d.streams, packets) && d.sets == c.sets + [InputSet(v.ts, packets)]
       else d.streams == c.streams && d.sets == c.sets
  }

  /**
   An undisturbed call is `SyncSet.GetReadiness` followed, when it says so, by
   `SyncSet.FillInputSet`: the same decision, the same pops and one input set of what they gave.
   */
  lemma UndisturbedCall(mode: bool, c: Consumer)
    requires Typed(c) && c.phase.Resting?
    ensures Called(mode, c, Run(mode, c, WholeCall(|c.streams|)))
  {
    var n, v := |c.streams|, Verdict(mode, c);
    ReadsAndDecides(mode, c);
    var mid := Run(mode, c, ReadCall(n));
    RunInParts(mode, c, ReadCall(n), FillCall(n));
    RunOneMore(mode, mid, Times(FillNext, n), FinishFill);
    if v.readiness == ReadyForProcess {
      Fills(mode, mid, v.ts, n);
      var filled := Run(mode, mid, Times(FillNext, n));
      assert AllFilled(c.streams, v.ts, filled.streams, filled.phase.filled);
    } else {
      RestIgnoresFilling(mode, mid, n);
    }
  }

  // ---------------------------------------------------------------- the clock

  /** Until the close is seen, the last timestamp processed is that of the newest input set. */
  predicate ClockHolds(c: Consumer) {
    !c.closeSeen ==>
      if c.phase.Filling? then c.lastProcessed == c.phase.ts else MaxOf(c.lastProcessed, UNSTARTED) == LastTs(c)
  }

  lemma DecideKeepsClock(mode: bool, c: Consumer)
    requires Inv(mode, c) && ClockHolds(c) && c.phase.Reading?
    ensures ClockHolds(Decided(mode, c))
  {
    ReadyTimestampIsSettled(mode, c.phase.scan, c.lastProcessed);
  }

  lemma FinishKeepsClock(mode: bool, c: Consumer)
    requires Typed(c) && PhaseShaped(mode, c) && ClockHolds(c) && c.phase.Filling?
    ensures ClockHolds(Apply(mode, c, FinishFill))
  {
  }

  lemma FillKeepsClock(c: Consumer)
    requires ClockHolds(c) && c.phase.Filling? && c.phase.next < |c.streams|
    ensures ClockHolds(FilledOne(c))
  {
  }

  lemma StepKeepsClock(mode: bool, c: Consumer, step: Step)
    requires Typed(c) && Inv(mode, c) && ClockHolds(c)
    ensures ClockHolds(Apply(mode, c, step))
  {
    match step
    case Produce(i, op) =>
    case StartRead =>
    case ReadNext =>
    case DecideNow => if c.phase.Reading? { DecideKeepsClock(mode, c); }
    case FillNext => if c.phase.Filling? && c.phase.next < |c.streams| { FillKeepsClock(c); }
    case FinishFill => if c.phase.Filling? { FinishKeepsClock(mode, c); }
  }

  lemma {:induction false} RunKeepsClock(mode: bool, c: Consumer, steps: seq<Step>)
    requires Typed(c) && Inv(mode, c) && ClockHolds(c)
    ensures ClockHolds(Run(mode, c, steps)) && Inv(mode, Run(mode, c, steps))
    decreases |steps|
  {
    if steps != [] {
      var front, last := steps[..|steps| - 1], steps[|steps| - 1];
      RunKeepsClock(mode, c, front);
      StepKeepsClock(mode, Run(mode, c, front), last);
      StepHolds(mode, Run(mode, c, front), last);
    }
  }

  // ---------------------------------------------------------------- the consumer alone

  predicate NoProducer(steps: seq<Step>) {
    forall i :: 0 <= i < |steps| ==> !steps[i].Produce?
  }

  /** Nothing more can be accepted: the bound is past every timestamp that a packet may carry. */
  predicate Ended(s: Stream) {
    ONE_OVER_POST_STREAM <= s.bound
  }

  predicate AllEnded(ss: seq<Stream>) {
    forall i :: 0 <= i < |ss| ==> Ended(ss[i])
  }

  predicate SameAccepted(ss: seq<Stream>, ts: seq<Stream>) {
    |ss| == |ts| && forall i :: 0 <= i < |ss| ==> ts[i].accepted == ss[i].accepted
  }

  lemma FillAlone(c: Consumer)
    requires c.phase.Filling? && c.phase.next < |c.streams| && IsAllowedInStream(c.phase.ts)
    ensures var d := FilledOne(c);
            SameAccepted(c.streams, d.streams) && (AllEnded(c.streams) ==> AllEnded(d.streams))
  {
  }

  lemma StepAlone(mode: bool, c: Consumer, step: Step)
    requires Typed(c) && PhaseShaped(mode, c) && !step.Produce?
    ensures var d := Apply(mode, c, step);
            SameAccepted(c.streams, d.streams) && (AllEnded(c.streams) ==> AllEnded(d.streams))
  {
    if step.FillNext? && c.phase.Filling? && c.phase.next < |c.streams| {
      FillAlone(c);
    } else {
      assert Apply(mode, c, step).streams == c.streams;
    }
  }

  lemma {:induction false} RunAlone(mode: bool, c: Consumer, steps: seq<Step>)
    requires Typed(c) && Inv(mode, c) && NoProducer(steps)
    ensures var d := Run(mode, c, steps);
            SameAccepted(c.streams, d.streams) && (AllEnded(c.streams) ==> AllEnded(d.streams))
    decreases |steps|
  {
    if steps != [] {
      var front, last := steps[..|steps| - 1], steps[|steps| - 1];
      RunAlone(mode, c, front);
      RunHolds(mode, c, front);
      StepAlone(mode, Run(mode, c, front), last);
    }
  }

  // ---------------------------------------------------------------- progress

  lemma RestingStream(mode: bool, c: Consumer, i: nat)
    requires Inv(mode, c) && c.phase.Resting? && i < |c.streams|
    ensures var s := c.streams[i]; Valid(s) && !s.closed && s.lastSelect == LastTs(c)
    ensures var s := c.streams[i]; s.queue != [] ==> LastTs(c) < s.queue[0].ts && IsAllowedInStream(s.queue[0].ts)
  {
    assert StreamHolds(c.streams[i], i, c.phase, LastTs(c), Contributed(c, i));
    QueueFacts(c.streams[i]);
  }

  predicate NothingWaits(ss: seq<Stream>) {
    forall i :: 0 <= i < |ss| ==> ss[i].queue == []
  }

  lemma {:induction false} EndedScan(ss: seq<Stream>)
    requires AllEnded(ss)
    ensures ONE_OVER_POST_STREAM <= ScanAll(Observations(ss)).minBound
    decreases |ss|
  {
    if ss != [] {
      var n := |ss| - 1;
      EndedScan(ss[..n]);
      assert Observations(ss)[..n] == Observations(ss[..n]);
    }
  }

  lemma RestingObservations(mode: bool, c: Consumer)
    requires Inv(mode, c) && c.phase.Resting?
    ensures var os := Observations(c.streams);
            Plausible(os) && forall i :: 0 <= i < |os| && !os[i].empty ==> LastTs(c) < os[i].ts
  {
    forall i | 0 <= i < |c.streams|
      ensures var o := Observe(c.streams[i]); PRE_STREAM <= o.ts && (o.empty || LastTs(c) < o.ts <= POST_STREAM)
    {
      RestingStream(mode, c, i);
    }
  }

  lemma EarliestWaits(ss: seq<Stream>)
    requires Plausible(Observations(ss))
    ensures var m := ScanAll(Observations(ss)).minPacket;
            if NothingWaits(ss) then m == DONE
            else m <= POST_STREAM && exists i :: 0 <= i < |ss| && HeadAt(ss[i], m)
  {
    var os := Observations(ss);
    var m := ScanAll(os).minPacket;
    ScanIsAttained(os);
    if m != DONE {
      var h :| 0 <= h < |os| && !os[h].empty && os[h].ts == m;
      assert HeadAt(ss[h], m);
    } else if !NothingWaits(ss) {
      var i :| 0 <= i < |ss| && ss[i].queue != [];
      assert !os[i].empty;
      assert HeadAmong(os, os[i].ts);
      ScanSummarises(os, os[i].ts);
    }
  }

  lemma EndedDecision(mode: bool, ss: seq<Stream>, last: Timestamp)
    requires AllEnded(ss) && Plausible(Observations(ss))
    requires forall i :: 0 <= i < |ss| && ss[i].queue != [] ==> MaxOf(last, UNSTARTED) < ss[i].queue[0].ts
    ensures var v := Decide(mode, ScanAll(Observations(ss)), last);
            if NothingWaits(ss) then v.readiness == ReadyForClose
            else v.readiness == ReadyForProcess && exists i :: 0 <= i < |ss| && HeadAt(ss[i], v.ts)
  {
    EndedScan(ss);
    EarliestWaits(ss);
  }

  /** With every stream ended, the node takes the earliest packet that waits, or closes if none does. */
  lemma EndedVerdict(mode: bool, c: Consumer)
    requires Inv(mode, c) && c.phase.Resting? && ClockHolds(c) && !c.closeSeen && AllEnded(c.streams)
    ensures var v := Verdict(mode, c);
            if NothingWaits(c.streams) then v.readiness == ReadyForClose
            else v.readiness == ReadyForProcess && exists i :: 0 <= i < |c.streams| && HeadAt(c.streams[i], v.ts)
  {
    RestingObservations(mode, c);
    forall i | 0 <= i < |c.streams| && c.streams[i].queue != []
      ensures MaxOf(c.lastProcessed, UNSTARTED) < c.streams[i].queue[0].ts
    {
      RestingStream(mode, c, i);
    }
    EndedDecision(mode, c.streams, c.lastProcessed);
  }

  function QueueLength(s: Stream): nat {
    |s.queue|
  }

  function Waiting(ss: seq<Stream>): nat {
    Sum(ss, QueueLength)
  }

  lemma {:induction false} WaitingFalls(before: seq<Stream>, after: seq<Stream>, h: int)
    requires |before| == |after|
    requires forall i :: 0 <= i < |before| ==> |after[i].queue| <= |before[i].queue|
    requires 0 <= h < |before| ==> |after[h].queue| < |before[h].queue|
    ensures Waiting(after) <= Waiting(before)
    ensures 0 <= h < |before| ==> Waiting(after) < Waiting(before)
    decreases |before|
  {
    if before != [] {
      var n := |before| - 1;
      WaitingFalls(before[..n], after[..n], h);
    }
  }

  lemma PopShortens(s: Stream, t: Timestamp)
    ensures |PopAt(s, t).stream.queue| <= |s.queue|
    ensures HeadAt(s, t) ==> |PopAt(s, t).stream.queue| < |s.queue|
  {
  }

  lemma FillingShortens(before: seq<Stream>, t: Timestamp, after: seq<Stream>, packets: seq<Packet>, h: nat)
    requires AllFilled(before, t, after, packets) && h < |before| && HeadAt(before[h], t)
    ensures Waiting(after) < Waiting(before)
  {
    forall i | 0 <= i < |before|
      ensures |after[i].queue| <= |before[i].queue|
      ensures i == h ==> |after[i].queue| < |before[i].queue|
    {
      assert Filled(before[i], t, after[i], packets[i]);
      PopShortens(before[i], t);
    }
    WaitingFalls(before, after, h);
  }

  lemma CallShortens(mode: bool, c: Consumer, d: Consumer)
    requires Called(mode, c, d) && Verdict(mode, c).readiness == ReadyForProcess
    requires exists i :: 0 <= i < |c.streams| && HeadAt(c.streams[i], Verdict(mode, c).ts)
    ensures Waiting(d.streams) < Waiting(c.streams)
  {
    var ts := Verdict(mode, c).ts;
    var packets :| AllFilled(c.streams, ts, d.streams, packets) && d.sets == c.sets + [InputSet(ts, packets)];
    var h :| 0 <= h < |c.streams| && HeadAt(c.streams[h], ts);
    FillingShortens(c.streams, ts, d.streams, packets, h);
  }

  /** Each call to a node whose streams have all ended takes at least one packet, or is the one that closes it. */
  lemma CallProgresses(mode: bool, c: Consumer)
    requires Typed(c) && Inv(mode, c) && c.phase.Resting? && ClockHolds(c) && !c.closeSeen && AllEnded(c.streams)
    ensures var d := Run(mode, c, WholeCall(|c.streams|)); d.closeSeen || Waiting(d.streams) < Waiting(c.streams)
  {
    UndisturbedCall(mode, c);
    EndedVerdict(mode, c);
    if !NothingWaits(c.streams) {
      CallShortens(mode, c, Run(mode, c, WholeCall(|c.streams|)));
    }
  }

  // ---------------------------------------------------------------- coming to rest

  predicate ReadFar(c: Consumer, k: nat) {
    c.phase.Reading? ==> c.phase.next >= k || c.phase.next >= |c.streams|
  }

  lemma ReadStep(mode: bool, c: Consumer, k: nat)
    requires Typed(c) && ReadFar(c, k)
    ensures ReadFar(Apply(mode, c, ReadNext), k + 1)
  {
  }

  lemma {:induction false} ReadingFinishes(mode: bool, c: Consumer, k: nat)
    requires Typed(c)
    ensures ReadFar(Run(mode, c, Times(ReadNext, k)), k)
  {
    if k > 0 {
      ReadingFinishes(mode, c, k - 1);
      RunTimes(mode, c, ReadNext, k - 1);
      ReadStep(mode, Run(mode, c, Times(ReadNext, k - 1)), k - 1);
    }
  }

  predicate FilledFar(c: Consumer, k: nat) {
    && !c.phase.Reading?
    && (c.phase.Filling? ==> c.phase.next >= k || c.phase.next >= |c.streams|)
  }

  lemma FillStep(mode: bool, c: Consumer, k: nat)
    requires Typed(c) && FilledFar(c, k)
    ensures FilledFar(Apply(mode, c, FillNext), k + 1)
  {
  }

  lemma {:induction false} FillingFinishes(mode: bool, c: Consumer, k: nat)
    requires Typed(c) && !c.phase.Reading?
    ensures FilledFar(Run(mode, c, Times(FillNext, k)), k)
  {
    if k > 0 {
      FillingFinishes(mode, c, k - 1);
      RunTimes(mode, c, FillNext, k - 1);
      FillStep(mode, Run(mode, c, Times(FillNext, k - 1)), k - 1);
    }
  }

  lemma DecideEndsReading(mode: bool, c: Consumer)
    requires Typed(c) && PhaseShaped(mode, c) && ReadFar(c, |c.streams|)
    ensures !Apply(mode, c, DecideNow).phase.Reading?
  {
  }

  lemma ReadCallDecides(mode: bool, c: Consumer)
    requires Typed(c) && Inv(mode, c)
    ensures !Run(mode, c, ReadCall(|c.streams|)).phase.Reading?
  {
    var n := |c.streams|;
    var begun := [StartRead] + Times(ReadNext, n);
    RunOneMore(mode, c, begun, DecideNow);
    RunInParts(mode, c, [StartRead], Times(ReadNext, n));
    ReadingFinishes(mode, Run(mode, c, [StartRead]), n);
    RunHolds(mode, c, begun);
    DecideEndsReading(mode, Run(mode, c, begun));
  }

  lemma FinishEndsFilling(mode: bool, c: Consumer)
    requires Typed(c) && PhaseShaped(mode, c) && FilledFar(c, |c.streams|)
    ensures Apply(mode, c, FinishFill).phase.Resting?
  {
  }

  lemma FillCallFinishes(mode: bool, c: Consumer)
    requires Typed(c) && Inv(mode, c) && !c.phase.Reading?
    ensures Run(mode, c, FillCall(|c.streams|)).phase.Resting?
  {
    var n := |c.streams|;
    RunOneMore(mode, c, Times(FillNext, n), FinishFill);
    FillingFinishes(mode, c, n);
    RunHolds(mode, c, Times(FillNext, n));
    FinishEndsFilling(mode, Run(mode, c, Times(FillNext, n)));
  }

  /** Wherever the consumer stands, the steps of one whole call bring it to rest. */
  lemma CallComesToRest(mode: bool, c: Consumer)
    requires Typed(c) && Inv(mode, c)
    ensures Run(mode, c, WholeCall(|c.streams|)).phase.Resting?
  {
    var n := |c.streams|;
    RunInParts(mode, c, ReadCall(n), FillCall(n));
    ReadCallDecides(mode, c);
    RunHolds(mode, c, ReadCall(n));
    FillCallFinishes(mode, Run(mode, c, ReadCall(n)));
  }

  // ---------------------------------------------------------------- draining

  function Calls(n: nat, k: nat): seq<Step> {
    if k == 0 then [] else WholeCall(n) + Calls(n, k - 1)
  }

  lemma {:induction false} CallsAreAlone(n: nat, k: nat)
    ensures NoProducer(Calls(n, k)) && NoProducer(WholeCall(n))
  {
    if k > 0 {
      CallsAreAlone(n, k - 1);
    }
  }

  ghost predicate Reached(mode: bool, c: Consumer) {
    exists types: seq<ResolvedType>, steps :: c == Run(mode, Initial(types), steps)
  }

  lemma ReachedHolds(mode: bool, c: Consumer)
    requires Reached(mode, c)
    ensures Typed(c) && Inv(mode, c) && ClockHolds(c)
  {
    var types: seq<ResolvedType>, steps :| c == Run(mode, Initial(types), steps);
    InitialHolds(mode, types);
    RunKeepsClock(mode, Initial(types), steps);
  }

  lemma MoreIsReached(mode: bool, c: Consumer, more: seq<Step>)
    requires Typed(c) && Reached(mode, c)
    ensures Reached(mode, Run(mode, c, more))
  {
    var types: seq<ResolvedType>, steps :| c == Run(mode, Initial(types), steps);
    RunInParts(mode, Initial(types), steps, more);
  }

  /** A state of some run in which no stream can accept a packet any more. */
  ghost predicate Draining(mode: bool, c: Consumer) {
    Typed(c) && Reached(mode, c) && AllEnded(c.streams)
  }

  lemma AloneKeepsDraining(mode: bool, c: Consumer, steps: seq<Step>)
    requires Draining(mode, c) && NoProducer(steps)
    ensures var d := Run(mode, c, steps);
            Draining(mode, d) && SameAccepted(c.streams, d.streams) && (c.closeSeen ==> d.closeSeen)
  {
    ReachedHolds(mode, c);
    RunAlone(mode, c, steps);
    MoreIsReached(mode, c, steps);
    RunHolds(mode, c, steps);
  }

  /** The most calls it can take to close the node: one for each packet that waits and one to see that none does. */
  function CallsLeft(c: Consumer): nat {
    if c.closeSeen then 0 else Waiting(c.streams) + 1
  }

  lemma OneCall(mode: bool, c: Consumer)
    requires Draining(mode, c) && c.phase.Resting? && !c.closeSeen
    ensures var d := Run(mode, c, WholeCall(|c.streams|));
            && Draining(mode, d) && d.phase.Resting? && |d.streams| == |c.streams|
            && CallsLeft(d) < CallsLeft(c)
  {
    CallsAreAlone(|c.streams|, 0);
    AloneKeepsDraining(mode, c, WholeCall(|c.streams|));
    ReachedHolds(mode, c);
    CallComesToRest(mode, c);
    CallProgresses(mode, c);
  }

  predicate ClosedBy(mode: bool, c: Consumer, n: nat, calls: nat)
    requires Typed(c)
  {
    Run(mode, c, Calls(n, calls)).closeSeen
  }

  lemma CallThenCalls(mode: bool, c: Consumer, n: nat, k: nat)
    requires Typed(c) && ClosedBy(mode, Run(mode, c, WholeCall(n)), n, k)
    ensures ClosedBy(mode, c, n, k + 1)
  {
    RunInParts(mode, c, WholeCall(n), Calls(n, k));
    assert Calls(n, k + 1) == WholeCall(n) + Calls(n, k);
  }

  lemma ClosedStaysClosed(mode: bool, c: Consumer, n: nat, k: nat)
    requires Draining(mode, c) && c.closeSeen
    ensures ClosedBy(mode, c, n, k)
  {
    CallsAreAlone(n, k);
    AloneKeepsDraining(mode, c, Calls(n, k));
  }

  /** What one more call is for: to have seen the close `k` calls later. */
  ghost predicate OnTheWay(mode: bool, c: Consumer, n: nat, k: nat) {
    Draining(mode, c) && c.phase.Resting? && |c.streams| == n && CallsLeft(c) <= k
  }

  /** One call on: as many calls as close the node from there, and this one, close it from here. */
  lemma CallOn(mode: bool, c: Consumer, n: nat, k: nat) returns (d: Consumer)
    requires OnTheWay(mode, c, n, k) && !c.closeSeen
    ensures k > 0 && OnTheWay(mode, d, n, k - 1)
    ensures ClosedBy(mode, d, n, k - 1) ==> ClosedBy(mode, c, n, k)
  {
    d := Run(mode, c, WholeCall(n));
    OneCall(mode, c);
    if ClosedBy(mode, d, n, k - 1) {
      CallThenCalls(mode, c, n, k - 1);
    }
  }

  lemma {:induction false} CallsDrain(mode: bool, c: Consumer, n: nat, k: nat)
    requires OnTheWay(mode, c, n, k)
    ensures ClosedBy(mode, c, n, k)
    decreases k
  {
    if c.closeSeen {
      ClosedStaysClosed(mode, c, n, k);
    } else {
      var d := CallOn(mode, c, n, k);
      CallsDrain(mode, d, n, k - 1);
    }
  }

  lemma CallsClose(mode: bool, c: Consumer)
    requires Draining(mode, c)
    ensures exists k :: ClosedBy(mode, c, |c.streams|, k)
  {
    var n := |c.streams|;
    CallsAreAlone(n, 0);
    AloneKeepsDraining(mode, c, WholeCall(n));
    ReachedHolds(mode, c);
    var rest := Run(mode, c, WholeCall(n));
    CallComesToRest(mode, c);
    var k := CallsLeft(rest);
    CallsDrain(mode, rest, n, k);
    CallThenCalls(mode, c, n, k);
  }

  /** `d` is closed with nothing waiting, and its input sets hold just what `c` had accepted. */
  ghost predicate Drained(c: Consumer, d: Consumer) {
    && d.closeSeen && |d.streams| == |c.streams| && SetsShaped(d.sets, |d.streams|)
    && forall i :: 0 <= i < |c.streams| ==> d.streams[i].queue == [] && Delivered(d.sets, i) == c.streams[i].accepted
  }

  ghost predicate DrainedBy(mode: bool, c: Consumer, calls: nat)
    requires Typed(c)
  {
    Drained(c, Run(mode, c, Calls(|c.streams|, calls)))
  }

  lemma DrainingDrains(mode: bool, c: Consumer)
    requires Draining(mode, c)
    ensures exists k :: DrainedBy(mode, c, k)
  {
    CallsClose(mode, c);
    var k :| ClosedBy(mode, c, |c.streams|, k);
    var d := Run(mode, c, Calls(|c.streams|, k));
    CallsAreAlone(|c.streams|, k);
    AloneKeepsDraining(mode, c, Calls(|c.streams|, k));
    ReachedHolds(mode, d);
    forall i | 0 <= i < |c.streams|
      ensures d.streams[i].queue == [] && Delivered(d.sets, i) == c.streams[i].accepted
    {
      ClosedIsDrained(mode, d, i);
    }
    assert DrainedBy(mode, c, k);
  }

  /**
   Every accepted packet is processed in the end: from any state of any run, once every stream has
   ended, finitely many calls of the consumer empty the queues and close the node, and what the
   input sets then hold of a stream is exactly what the stream had accepted.
   */
  lemma EndedStreamsDrain(mode: bool, types: seq<ResolvedType>, steps: seq<Step>)
    requires AllEnded(Run(mode, Initial(types), steps).streams)
    ensures exists k :: DrainedBy(mode, Run(mode, Initial(types), steps), k)
  {
    DrainingDrains(mode, Run(mode, Initial(types), steps));
  }

  lemma ClosedIsDrained(mode: bool, d: Consumer, i: nat)
    requires Inv(mode, d) && d.closeSeen && i < |d.streams|
    ensures d.streams[i].queue == [] && d.streams[i].accepted == Delivered(d.sets, i)
  {
    assert StreamHolds(d.streams[i], i, d.phase, LastTs(d), Contributed(d, i));
    assert Exhausted(d.streams[i]);
    assert Delivered(d.sets, i) + [] + [] == Delivered(d.sets, i);
  }
}
