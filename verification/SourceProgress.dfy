/**
 What becomes of a source: one that is free can always come to run, and one that is throttled
 begins nothing but what was decided before.
 */
module SourceProgress {
  import Nodes = NodeScheduling
  import opened SourceScheduling

  // ---------------------------------------------------------------- a free source comes to run

  /** How many steps an active source with nothing in flight is away from having an invocation queued. */
  function Distance(s: Source): nat {
    if s.queued + s.running > 0 then 0
    else if s.gate.status == Nodes.Opened then 3
    else if s.toBegin > 0 then 1
    else if s.toCheck > 0 then 2
    else if s.loops == [] then 0
    else
      match s.loops[0]
      case Beginning => 1
      case Checking => 2
      case Entering => 3
      case Leaving => 4
  }

  /** A step that takes it nearer. */
  function Nearer(s: Source): Step {
    if s.gate.status == Nodes.Opened then Activate
    else if s.toBegin > 0 then CallerBegins
    else if s.toCheck > 0 then CallerChecks
    else if s.loops == [] then Activate
    else
      match s.loops[0]
      case Beginning => LoopBegins(0)
      case Checking => LoopChecks(0)
      case Entering => Enter(0)
      case Leaving => EndRound(0)
  }

  /** A source that its node may schedule. */
  ghost predicate Free(place: Place, s: Source)
    requires Shaped(place, s)
  {
    (s.gate.status == Nodes.Opened || s.gate.status == Nodes.Active) && !IsThrottled(place, s)
  }

  lemma StepComesNearer(place: Place, s: Source)
    requires Shaped(place, s) && Inv(place, s) && Free(place, s) && s.queued + s.running == 0
    ensures var t := Apply(place, s, Nearer(s)); Free(place, t) && Distance(t) < Distance(s)
    ensures !Nearer(s).Throttle?
  {
    if s.gate.status == Nodes.Active {
      assert Owed(s);
    }
  }

  /** `steps`, none of them at the throttling sets, lead to an invocation. */
  ghost predicate LeadsToInvocation(place: Place, s: Source, steps: seq<Step>)
    requires Shaped(place, s)
  {
    && (forall i :: 0 <= i < |steps| ==> !steps[i].Throttle?)
    && Run(place, s, steps).queued + Run(place, s, steps).running > 0
  }

  lemma {:induction false} ComesToRun(place: Place, s: Source) returns (steps: seq<Step>)
    requires Shaped(place, s) && Inv(place, s) && Free(place, s)
    ensures LeadsToInvocation(place, s, steps) && |steps| <= Distance(s)
    decreases Distance(s)
  {
    if s.queued + s.running > 0 {
      steps := [];
    } else {
      StepComesNearer(place, s);
      StepKeepsInv(place, s, Nearer(s));
      var rest := ComesToRun(place, Apply(place, s, Nearer(s)));
      steps := [Nearer(s)] + rest;
      assert steps[0] == Nearer(s) && steps[1..] == rest;
    }
  }

  /**
   A source that is opened or active and not throttled is never stuck: from any state of any run,
   at most four steps of its own threads bring it to an invocation, whatever the streams do.
   */
  lemma FreeSourceCanRun(place: Place, s: Source, before: seq<Step>)
    requires Starts(place, s) && Free(place, Run(place, s, before))
    ensures exists steps :: |steps| <= 4 && LeadsToInvocation(place, Run(place, s, before), steps)
  {
    StartHolds(place, s);
    RunKeepsInv(place, s, before);
    var steps := ComesToRun(place, Run(place, s, before));
  }

  // ---------------------------------------------------------------- a throttled source stops

  /** Threads in the loop that have found the source free. */
  function Beginnings(loops: seq<Stage>): nat {
    if loops == [] then 0 else Beginnings(loops[..|loops| - 1]) + if loops[|loops| - 1] == Beginning then 1 else 0
  }

  /** Invocations begun and not ended, and those already decided upon. */
  function Decided(s: Source): int {
    s.queued + s.running + s.toBegin + Beginnings(s.loops)
  }

  ghost predicate StaysThrottled(place: Place, s: Source, steps: seq<Step>)
    requires Shaped(place, s)
    decreases |steps|
  {
    && IsThrottled(place, s)
    && (steps == [] || StaysThrottled(place, Apply(place, s, steps[0]), steps[1..]))
  }

  lemma BeginningsOfOne(loops: seq<Stage>)
    requires |loops| <= 1
    ensures Beginnings(loops) == if loops == [Beginning] then 1 else 0
  {
    if loops != [] {
      assert loops[..0] == [] && loops == [loops[0]];
    }
  }

  lemma ThrottledDecidesNothing(place: Place, s: Source, step: Step)
    requires Shaped(place, s) && Inv(place, s) && IsThrottled(place, s) && IsThrottled(place, Apply(place, s, step))
    ensures Decided(Apply(place, s, step)) <= Decided(s)
    ensures Apply(place, s, step).running < s.running ==> Decided(Apply(place, s, step)) < Decided(s)
  {
    StepKeepsInv(place, s, step);
    BeginningsOfOne(s.loops);
    BeginningsOfOne(Apply(place, s, step).loops);
  }

  /** The invocations that end in a run. */
  ghost function Endings(place: Place, s: Source, steps: seq<Step>): nat
    requires Shaped(place, s)
    decreases |steps|
  {
    if steps == [] then 0
    else
      var t := Apply(place, s, steps[0]);
      (if t.running < s.running then 1 else 0) + Endings(place, t, steps[1..])
  }

  lemma {:induction false} RunsDry(place: Place, s: Source, steps: seq<Step>)
    requires Shaped(place, s) && Inv(place, s) && StaysThrottled(place, s, steps)
    ensures Decided(Run(place, s, steps)) + Endings(place, s, steps) <= Decided(s)
    decreases |steps|
  {
    if steps != [] {
      ThrottledDecidesNothing(place, s, steps[0]);
      StepKeepsInv(place, s, steps[0]);
      RunsDry(place, Apply(place, s, steps[0]), steps[1..]);
    }
  }

  /**
   As long as a source is throttled it decides on no invocation: from any state of any run, all that
   run while it stays throttled are those already begun or decided upon.
   */
  lemma ThrottledSourceRunsDry(place: Place, s: Source, before: seq<Step>, steps: seq<Step>)
    requires Starts(place, s) && StaysThrottled(place, Run(place, s, before), steps)
    ensures var r := Run(place, s, before); var t := Run(place, r, steps);
            t.queued + t.running + Endings(place, r, steps) <= r.queued + r.running + r.toBegin + Beginnings(r.loops)
  {
    StartHolds(place, s);
    RunKeepsInv(place, s, before);
    RunsDry(place, Run(place, s, before), steps);
  }
}
