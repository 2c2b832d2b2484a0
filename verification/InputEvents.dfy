/**
 From inputs to outputs: the input sets a consumer completes, and the bounds it reports while it
 waits, come in an order that the sender of an output can rely on. NodeEvents shows that a
 sequential node's outputs hear of them in this order.
 */
module InputEvents {
  import opened Timestamps
  import opened Packets
  import opened PacketTypes
  import opened InputStreams
  import opened SyncSets
  import opened InputProtocol
  import opened InputBounds
  import OutputStreams

  /** What one step of the input protocol tells the outputs. */
  datatype Signal =
    | Completed(ts: Timestamp)
    | Limited(low: Timestamp)

  function SignalsOf(mode: bool, c: Consumer, step: Step): seq<Signal> {
    match step
    case FinishFill =>
      if c.phase.Filling? && c.phase.next == |c.streams| then [Completed(c.phase.ts)] else []
    case DecideNow =>
      if c.phase.Reading? && c.phase.next == |c.streams| && Decide(mode, c.phase.scan, c.lastProcessed).readiness == NotReady
      then [Limited(Decide(mode, c.phase.scan, c.lastProcessed).ts)] else []
    case _ => []
  }

  function Signals(mode: bool, c: Consumer, steps: seq<Step>): seq<Signal>
    requires Typed(c)
    decreases |steps|
  {
    if steps == [] then []
    else
      var front, last := steps[..|steps| - 1], steps[|steps| - 1];
      Signals(mode, c, front) + SignalsOf(mode, Run(mode, c, front), last)
  }

  // ---------------------------------------------------------------- the clock of a sender

  /** The part of a sender that decides which input may come next. */
  datatype Clock = Clock(lastInput: Timestamp, inputBound: Timestamp)

  const Opened: Clock := Clock(UNSTARTED, UNSET)

  predicate InTime(k: Clock, signal: Signal) {
    signal.Completed? ==> IsAllowedInStream(signal.ts) && k.lastInput < signal.ts && k.inputBound <= signal.ts
  }

  function Tick(k: Clock, signal: Signal): Clock {
    match signal
    case Completed(ts) => k.(lastInput := ts)
    case Limited(low) => k.(inputBound := MaxOf(k.inputBound, low))
  }

  function TickAll(k: Clock, signals: seq<Signal>): Clock
    decreases |signals|
  {
    if signals == [] then k else TickAll(Tick(k, signals[0]), signals[1..])
  }

  predicate AllInTime(k: Clock, signals: seq<Signal>)
    decreases |signals|
  {
    signals == [] || (InTime(k, signals[0]) && AllInTime(Tick(k, signals[0]), signals[1..]))
  }

  lemma {:induction false} OneMoreSignal(k: Clock, signals: seq<Signal>, signal: Signal)
    ensures TickAll(k, signals + [signal]) == Tick(TickAll(k, signals), signal)
    ensures AllInTime(k, signals + [signal]) <==> AllInTime(k, signals) && InTime(TickAll(k, signals), signal)
    decreases |signals|
  {
    if signals == [] {
      assert signals + [signal] == [signal] && [signal][1..] == [];
    } else {
      OneMoreSignal(Tick(k, signals[0]), signals[1..], signal);
      assert (signals + [signal])[1..] == signals[1..] + [signal];
    }
  }

  // ---------------------------------------------------------------- every signal is in time

  /** The clock lags behind what the consumer can still choose. */
  ghost predicate ClockHolds(mode: bool, c: Consumer, k: Clock) {
    && k.lastInput == LastTs(c)
    && exists passed :: Above(mode, c, |c.sets|, k.inputBound, passed)
  }

  lemma ClockStartsRight(mode: bool, types: seq<ResolvedType>)
    ensures ClockHolds(mode, Initial(types), Opened)
  {
    assert Above(mode, Initial(types), 0, UNSET, true);
  }

  /** A new report is never below an earlier one. */
  lemma ReportsGrow(mode: bool, c: Consumer, from: nat, low: Timestamp, passed: bool)
    requires Above(mode, c, from, low, passed) && c.phase.Reading?
    requires Decide(mode, c.phase.scan, c.lastProcessed).readiness == NotReady
    ensures low <= Decide(mode, c.phase.scan, c.lastProcessed).ts
  {
  }

  lemma FinishIsInTime(mode: bool, c: Consumer, k: Clock)
    requires Typed(c) && Inv(mode, c) && ClockHolds(mode, c, k) && c.phase.Filling? && c.phase.next == |c.streams|
    ensures InTime(k, Completed(c.phase.ts))
    ensures ClockHolds(mode, Apply(mode, c, FinishFill), Tick(k, Completed(c.phase.ts)))
  {
    var passed :| Above(mode, c, |c.sets|, k.inputBound, passed);
    var d := Apply(mode, c, FinishFill);
    assert Above(mode, d, |d.sets|, k.inputBound, passed);
  }

  lemma ReportIsInTime(mode: bool, c: Consumer, k: Clock)
    requires Typed(c) && Inv(mode, c) && ClockHolds(mode, c, k) && c.phase.Reading? && c.phase.next == |c.streams|
    requires Decide(mode, c.phase.scan, c.lastProcessed).readiness == NotReady
    ensures ClockHolds(mode, Apply(mode, c, DecideNow), Tick(k, Limited(Decide(mode, c.phase.scan, c.lastProcessed).ts)))
  {
    var passed :| Above(mode, c, |c.sets|, k.inputBound, passed);
    ReportsGrow(mode, c, |c.sets|, k.inputBound, passed);
    ReportHolds(mode, c);
    ReportTicks(mode, c, Apply(mode, c, DecideNow), k, Decide(mode, c.phase.scan, c.lastProcessed).ts, c.phase.scan.minBound);
  }

  lemma ReportTicks(mode: bool, c: Consumer, d: Consumer, k: Clock, low: Timestamp, minBound: Timestamp)
    requires k.lastInput == LastTs(c) && k.inputBound <= low && d.sets == c.sets
    requires Above(mode, d, |c.sets|, low, low == minBound)
    ensures ClockHolds(mode, d, Tick(k, Limited(low)))
  {
    assert Tick(k, Limited(low)).inputBound == low;
  }

  lemma QuietStepKeepsClock(mode: bool, c: Consumer, step: Step, k: Clock)
    requires Typed(c) && Inv(mode, c) && ClockHolds(mode, c, k) && SignalsOf(mode, c, step) == []
    ensures ClockHolds(mode, Apply(mode, c, step), k)
  {
    var passed :| Above(mode, c, |c.sets|, k.inputBound, passed);
    StepStaysAbove(mode, c, step, |c.sets|, k.inputBound, passed);
    SetsUnchanged(mode, c, step);
    ClockOnSameSets(mode, c, Apply(mode, c, step), k, passed);
  }

  lemma ClockOnSameSets(mode: bool, c: Consumer, d: Consumer, k: Clock, passed: bool)
    requires k.lastInput == LastTs(c) && d.sets == c.sets && Above(mode, d, |c.sets|, k.inputBound, passed)
    ensures ClockHolds(mode, d, k)
  {
  }

  lemma SetsUnchanged(mode: bool, c: Consumer, step: Step)
    requires Typed(c) && SignalsOf(mode, c, step) == []
    ensures Apply(mode, c, step).sets == c.sets
  {
  }

  /** Along every run, what the outputs are told comes in an order they can rely on. */
  lemma {:induction false} SignalsAreInTime(mode: bool, types: seq<ResolvedType>, steps: seq<Step>)
    ensures var signals := Signals(mode, Initial(types), steps);
            AllInTime(Opened, signals) && ClockHolds(mode, Run(mode, Initial(types), steps), TickAll(Opened, signals))
    decreases |steps|
  {
    if steps == [] {
      ClockStartsRight(mode, types);
    } else {
      var front, last := steps[..|steps| - 1], steps[|steps| - 1];
      SignalsAreInTime(mode, types, front);
      EveryRunHolds(mode, types, front);
      NextSignalIsInTime(mode, Run(mode, Initial(types), front), last, Signals(mode, Initial(types), front));
    }
  }

  lemma NextSignalIsInTime(mode: bool, c: Consumer, step: Step, signals: seq<Signal>)
    requires Typed(c) && Inv(mode, c) && AllInTime(Opened, signals) && ClockHolds(mode, c, TickAll(Opened, signals))
    ensures var more := signals + SignalsOf(mode, c, step);
            AllInTime(Opened, more) && ClockHolds(mode, Apply(mode, c, step), TickAll(Opened, more))
  {
    var k := TickAll(Opened, signals);
    var latest := SignalsOf(mode, c, step);
    if latest == [] {
      assert signals + latest == signals;
      QuietStepKeepsClock(mode, c, step, k);
    } else {
      OneMoreSignal(Opened, signals, latest[0]);
      assert latest == [latest[0]];
      if step.FinishFill? {
        FinishIsInTime(mode, c, k);
      } else {
        ReportIsInTime(mode, c, k);
      }
    }
  }

  // ---------------------------------------------------------------- the outputs may rely on it

  /** The calls and limits of one output stream, after Open, follow the signals of the inputs. */
  predicate Answers(e: OutputStreams.Event, signal: Signal) {
    match signal
    case Completed(ts) => e.Call? && e.t == ts
    case Limited(low) => e == OutputStreams.InputsFrom(low)
  }

  predicate AllAnswer(es: seq<OutputStreams.Event>, signals: seq<Signal>) {
    |es| == |signals| && forall i :: 0 <= i < |es| ==> Answers(es[i], signals[i])
  }

  /** The calculator keeps its promises in every call. */
  predicate WellBehavedRun(s: OutputStreams.Sender, es: seq<OutputStreams.Event>)
    decreases |es|
  {
    es == [] ||
    (&& (es[0].Call? ==> OutputStreams.WellBehavedCall(OutputStreams.StartCall(s), es[0].t, es[0].ops))
     && WellBehavedRun(OutputStreams.After(s, es[0]), es[1..]))
  }

  function ClockOf(s: OutputStreams.Sender): Clock {
    Clock(s.lastInput, s.inputBound)
  }

  lemma {:induction false} OpsKeepClock(d: OutputStreams.Draft, ops: seq<OutputStreams.Op>)
    ensures OutputStreams.AfterOps(d, ops).sender.inputBound == d.sender.inputBound
    decreases |ops|
  {
    if ops != [] {
      OpsKeepClock(OutputStreams.Drafted(d, ops[0]), ops[1..]);
    }
  }

  lemma EventTicks(s: OutputStreams.Sender, e: OutputStreams.Event, signal: Signal)
    requires Answers(e, signal) && InTime(ClockOf(s), signal)
    ensures ClockOf(OutputStreams.After(s, e)) == Tick(ClockOf(s), signal)
  {
    if e.Call? {
      OpsKeepClock(OutputStreams.StartCall(s), e.ops);
    }
  }

  /** A sender that follows signals in time meets only inputs it may expect. */
  lemma {:induction false} AnswersAreAdmissible(s: OutputStreams.Sender, es: seq<OutputStreams.Event>, signals: seq<Signal>)
    requires s.lastInput != UNSET && AllAnswer(es, signals) && WellBehavedRun(s, es) && AllInTime(ClockOf(s), signals)
    ensures OutputStreams.AdmissibleRun(s, es)
    decreases |es|
  {
    if es != [] {
      assert Answers(es[0], signals[0]);
      EventTicks(s, es[0], signals[0]);
      assert AllAnswer(es[1..], signals[1..]) by {
        forall i | 0 <= i < |es| - 1
          ensures Answers(es[1..][i], signals[1..][i])
        {
          assert Answers(es[i + 1], signals[i + 1]);
        }
      }
      AnswersAreAdmissible(OutputStreams.After(s, es[0]), es[1..], signals[1..]);
    }
  }

  /**
   A calculator that keeps its own promises, and hears of its inputs in time, never has to answer an
   input that its outputs were told could not come, and every bound they promise holds.
   */
  lemma TimelySignalsKeepPromises(signals: seq<Signal>, offset: OutputStreams.Offset, packetType: ResolvedType,
                                  open: seq<OutputStreams.Op>, es: seq<OutputStreams.Event>)
    requires AllInTime(Opened, signals) && AllAnswer(es, signals)
    requires WellBehavedRun(OutputStreams.Begin(offset, packetType), [OutputStreams.Call(UNSTARTED, open)] + es)
    ensures var s := OutputStreams.Begin(offset, packetType);
            var all := [OutputStreams.Call(UNSTARTED, open)] + es;
            OutputStreams.AdmissibleRun(s, all) && OutputStreams.PromiseHolds(OutputStreams.AfterRun(s, all))
  {
    var s := OutputStreams.Begin(offset, packetType);
    var all := [OutputStreams.Call(UNSTARTED, open)] + es;
    assert all[0] == OutputStreams.Call(UNSTARTED, open) && all[1..] == es;
    OpsKeepClock(OutputStreams.StartCall(s), open);
    assert ClockOf(OutputStreams.After(s, all[0])) == Opened;
    AnswersAreAdmissible(OutputStreams.After(s, all[0]), es, signals);
    OutputStreams.BeginHolds(offset, packetType);
    OutputStreams.PromiseHoldsInEveryRun(s, all);
  }
}
