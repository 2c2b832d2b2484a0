/** The graph object's throttling fields, updated in place by fullness callbacks. */
module ThrottleTables {
  import opened Throttling

  /** The calculators, among some visited nodes, that are active and no longer throttled. */
  function Freed(topo: Topology, active: set<nat>, visited: set<nat>, full: seq<set<nat>>): set<nat> {
    set n | n in visited && n in active && n < topo.numNodes && n < |full| && full[n] == {}
  }

  lemma FreedOneMore(topo: Topology, active: set<nat>, visited: set<nat>, full: seq<set<nat>>, node: nat, now: set<nat>)
    requires node !in visited && node < |full|
    ensures Freed(topo, active, visited + {node}, full[node := now])
            == Freed(topo, active, visited, full) + if node in active && node < topo.numNodes && now == {} then {node} else {}
  {
  }

  /** The active calculators that were throttled before and are free now. */
  function NewlyFree(topo: Topology, active: set<nat>, before: seq<set<nat>>, after: seq<set<nat>>): set<nat> {
    set n | n in active && n < topo.numNodes && n < |before| && n < |after| && before[n] != {} && after[n] == {}
  }

  /** Sets only shrink. */
  predicate Shrinks(before: seq<set<nat>>, after: seq<set<nat>>) {
    |after| == |before| && forall n :: 0 <= n < |before| ==> after[n] <= before[n]
  }

  lemma NewlyFreeAddsUp(topo: Topology, active: set<nat>, a: seq<set<nat>>, b: seq<set<nat>>, c: seq<set<nat>>)
    requires Shrinks(a, b) && Shrinks(b, c)
    ensures Shrinks(a, c)
    ensures NewlyFree(topo, active, a, c) == NewlyFree(topo, active, a, b) + NewlyFree(topo, active, b, c)
  {
  }

  /** Serving a callback frees exactly the nodes that only this stream held back. */
  lemma FreedIsNewlyFree(topo: Topology, active: set<nat>, before: seq<set<nat>>, after: seq<set<nat>>, stream: nat, isFull: bool, upstream: set<nat>)
    requires Visited(before, after, stream, isFull, upstream)
    requires forall n :: n in upstream ==> n < |before| && (stream in before[n] <==> !isFull)
    ensures Freed(topo, active, upstream, after) == NewlyFree(topo, active, before, after)
    ensures !isFull ==> Shrinks(before, after)
  {
  }

  /** The sets after some of the nodes have been visited. */
  ghost predicate Visited(before: seq<set<nat>>, after: seq<set<nat>>, stream: nat, isFull: bool, visited: set<nat>) {
    && |after| == |before|
    && forall n: nat :: n < |before| ==> after[n] == if n in visited then Toggled(before[n], stream, isFull) else before[n]
  }

  /** Room for exactly one more packet. */
  function Grown(l: Level): (r: Level)
    ensures !IsFull(r) && IsFull(r.(size := r.size + 1))
  {
    l.(limit := l.size + 1)
  }

  class ThrottleTable {
    const topo: Topology
    var levels: seq<Level>
    var lastReportedFull: seq<bool>
    var fullInputStreams: seq<set<nat>>
    var throttledInputs: int
    /** The calculators that have been activated and not closed. */
    var active: set<nat>

    ghost predicate Valid()
      reads this
    {
      && WellFormed(topo)
      && |levels| == |lastReportedFull| == |topo.upstream|
      && |fullInputStreams| == topo.numAll
      && Exact(topo, fullInputStreams, lastReportedFull)
      && throttledInputs == NumThrottled(fullInputStreams, topo.numNodes)
    }

    /** Everything reported is true now: no callback is outstanding. */
    ghost predicate Settled()
      requires |levels| == |lastReportedFull|
      reads this
    {
      forall s :: 0 <= s < |levels| ==> lastReportedFull[s] == IsFull(levels[s])
    }

    constructor (topo: Topology, limit: int)
      requires WellFormed(topo) && limit != 0
      ensures this.topo == topo && Valid() && Settled() && active == {}
      ensures forall s :: 0 <= s < |levels| ==> levels[s] == Level(0, limit)
    {
      this.topo := topo;
      levels := seq(|topo.upstream|, _ => Level(0, limit));
      lastReportedFull := seq(|topo.upstream|, _ => false);
      var none: seq<set<nat>> := seq(topo.numAll, _ => {});
      NoneThrottled(none, topo.numNodes);
      fullInputStreams, throttledInputs, active := none, 0, {};
    }

    method IsNodeThrottled(node: nat, maxQueueSize: int) returns (throttled: bool)
      requires Valid() && node < topo.numAll
      ensures throttled <==> maxQueueSize != -1 && exists s: nat :: Throttles(topo, lastReportedFull, node, s)
    {
      throttled := maxQueueSize != -1 && fullInputStreams[node] != {};
      if s :| s in fullInputStreams[node] {
        assert Throttles(topo, lastReportedFull, node, s);
      }
      if s: nat :| Throttles(topo, lastReportedFull, node, s) {
        assert s in fullInputStreams[node];
      }
    }

    method VisitNode(stream: nat, isFull: bool, node: nat) returns (free: bool)
      requires node < |fullInputStreams| && (stream in fullInputStreams[node] <==> !isFull)
      requires throttledInputs == NumThrottled(fullInputStreams, topo.numNodes)
      modifies this`fullInputStreams, this`throttledInputs
      ensures fullInputStreams == old(fullInputStreams)[node := Toggled(old(fullInputStreams)[node], stream, isFull)]
      ensures throttledInputs == NumThrottled(fullInputStreams, topo.numNodes)
      ensures free <==> node in active && node < topo.numNodes && fullInputStreams[node] == {}
    {
      var wasThrottled := fullInputStreams[node] != {};
      var now := Toggled(fullInputStreams[node], stream, isFull);
      NumThrottledAfter(fullInputStreams, topo.numNodes, node, now);
      fullInputStreams := fullInputStreams[node := now];
      free := false;
      if node >= topo.numNodes {
        if now == {} {
          throttledInputs := throttledInputs - 1;
        } else if !wasThrottled {
          throttledInputs := throttledInputs + 1;
        }
      } else if now == {} {
        free := node in active;
      }
    }

    /** Visits the nodes upstream of a stream in no particular order. */
    method VisitUpstream(stream: nat, isFull: bool) returns (toSchedule: set<nat>)
      requires WellFormed(topo) && stream < |topo.upstream| && |fullInputStreams| == topo.numAll
      requires forall n :: n in topo.upstream[stream] ==> (stream in fullInputStreams[n] <==> !isFull)
      requires throttledInputs == NumThrottled(fullInputStreams, topo.numNodes)
      modifies this`fullInputStreams, this`throttledInputs
      ensures Visited(old(fullInputStreams), fullInputStreams, stream, isFull, topo.upstream[stream])
      ensures throttledInputs == NumThrottled(fullInputStreams, topo.numNodes)
      ensures toSchedule == Freed(topo, active, topo.upstream[stream], fullInputStreams)
    {
      toSchedule := {};
      var rest := topo.upstream[stream];
      ghost var visited: set<nat> := {};
      while rest != {}
        invariant visited + rest == topo.upstream[stream] && visited !! rest
        invariant Visited(old(fullInputStreams), fullInputStreams, stream, isFull, visited)
        invariant throttledInputs == NumThrottled(fullInputStreams, topo.numNodes)
        invariant toSchedule == Freed(topo, active, visited, fullInputStreams)
        decreases rest
      {
        var node :| node in rest;
        assert node in topo.upstream[stream];
        FreedOneMore(topo, active, visited, fullInputStreams, node, Toggled(fullInputStreams[node], stream, isFull));
        var free := VisitNode(stream, isFull, node);
        if free {
          toSchedule := toSchedule + {node};
        }
        rest, visited := rest - {node}, visited + {node};
      }
    }

    /**
     Brings the sets in line with the stream's present fullness. The sources that have nothing
     full downstream any more are returned, to be scheduled.
     */
    method UpdateThrottledNodes(stream: nat) returns (toSchedule: set<nat>)
      requires Valid() && stream < |levels|
      modifies this`lastReportedFull, this`fullInputStreams, this`throttledInputs
      ensures Valid()
      ensures lastReportedFull == old(lastReportedFull)[stream := IsFull(levels[stream])]
      ensures toSchedule == NewlyFree(topo, active, old(fullInputStreams), fullInputStreams)
      ensures !IsFull(levels[stream]) ==> Shrinks(old(fullInputStreams), fullInputStreams)
    {
      toSchedule := {};
      var isFull := IsFull(levels[stream]);
      if lastReportedFull[stream] != isFull {
        toSchedule := VisitUpstream(stream, isFull);
        FreedIsNewlyFree(topo, active, old(fullInputStreams), fullInputStreams, stream, isFull, topo.upstream[stream]);
      }
      lastReportedFull := lastReportedFull[stream := isFull];
    }

    /** A new limit is followed, in the same thread, by the callback it may cause. */
    method SetMaxQueueSize(stream: nat, size: int) returns (toSchedule: set<nat>)
      requires Valid() && stream < |levels|
      modifies this`levels, this`lastReportedFull, this`fullInputStreams, this`throttledInputs
      ensures Valid() && levels == old(levels)[stream := old(levels)[stream].(limit := size)]
      ensures lastReportedFull == if IsFull(levels[stream]) != old(IsFull(levels[stream]))
                                  then old(lastReportedFull)[stream := IsFull(levels[stream])] else old(lastReportedFull)
      ensures toSchedule == NewlyFree(topo, active, old(fullInputStreams), fullInputStreams)
      ensures !IsFull(levels[stream]) ==> Shrinks(old(fullInputStreams), fullInputStreams)
    {
      toSchedule := {};
      var wasFull := IsFull(levels[stream]);
      levels := levels[stream := levels[stream].(limit := size)];
      if wasFull != IsFull(levels[stream]) {
        toSchedule := UpdateThrottledNodes(stream);
      }
    }

    /**
     Breaks a deadlock by giving every throttling stream room for one more packet, graph output
     streams excepted. What still throttles afterwards is a graph output, or had ceased to be full
     before and is only waiting for the callback that says so. The active calculators that have
     become free, and no others, are scheduled.
     */
    method UnthrottleSources(graphOutputs: set<nat>, reportDeadlock: bool) returns (any: bool, toSchedule: set<nat>)
      requires Valid()
      modifies this`levels, this`lastReportedFull, this`fullInputStreams, this`throttledInputs
      ensures Valid() && |levels| == |old(levels)|
      ensures any <==> old(AllFull()) - graphOutputs != {}
      ensures reportDeadlock ==> levels == old(levels) && fullInputStreams == old(fullInputStreams) && lastReportedFull == old(lastReportedFull)
      ensures !reportDeadlock ==> forall s :: 0 <= s < |levels| ==>
                && levels[s] == (if s in old(AllFull()) - graphOutputs then Grown(old(levels)[s]) else old(levels)[s])
                && lastReportedFull[s] == (old(lastReportedFull)[s] && !(s in old(AllFull()) - graphOutputs && IsFull(old(levels)[s])))
      ensures !reportDeadlock ==> forall s :: s in AllFull() - graphOutputs ==> s < |levels| && s in old(AllFull()) && !IsFull(old(levels)[s])
      ensures toSchedule == NewlyFree(topo, active, old(fullInputStreams), fullInputStreams)
      ensures old(Settled()) ==> Settled()
      ensures old(Settled()) && !reportDeadlock && old(AllFull()) !! graphOutputs ==> forall n :: 0 <= n < |fullInputStreams| ==> fullInputStreams[n] == {}
    {
      var fullStreams := AllFull() - graphOutputs;
      any, toSchedule := fullStreams != {}, {};
      FullStreamsExist();
      if reportDeadlock {
        return;
      }
      toSchedule := GrowAll(fullStreams);
      FullStreamsExist();
      forall s | s in AllFull() - graphOutputs
        ensures s in old(AllFull()) && !IsFull(old(levels)[s])
      {
        var n: nat :| n < |fullInputStreams| && s in fullInputStreams[n];
        assert Throttles(topo, lastReportedFull, n, s);
        assert Throttles(topo, old(lastReportedFull), n, s);
        assert s in old(fullInputStreams)[n];
      }
    }

    /** A stream that throttles was reported full. */
    lemma FullStreamsExist()
      requires Valid()
      ensures forall s :: s in AllFull() ==> s < |levels| && lastReportedFull[s]
    {
      forall s | s in AllFull()
        ensures s < |levels| && lastReportedFull[s]
      {
        var n: nat :| n < |fullInputStreams| && s in fullInputStreams[n];
        assert Throttles(topo, lastReportedFull, n, s);
      }
    }

    /** Gives each of the streams a limit one above its length; those that were full report the change. */
    method GrowAll(fullStreams: set<nat>) returns (toSchedule: set<nat>)
      requires Valid()
      requires forall s :: s in fullStreams ==> s < |levels| && lastReportedFull[s]
      modifies this`levels, this`lastReportedFull, this`fullInputStreams, this`throttledInputs
      ensures Valid() && |levels| == |old(levels)|
      ensures forall s :: 0 <= s < |levels| ==> levels[s] == if s in fullStreams then Grown(old(levels)[s]) else old(levels)[s]
      ensures forall s :: 0 <= s < |levels| ==>
                lastReportedFull[s] == (old(lastReportedFull)[s] && !(s in fullStreams && IsFull(old(levels)[s])))
      ensures toSchedule == NewlyFree(topo, active, old(fullInputStreams), fullInputStreams)
      ensures Shrinks(old(fullInputStreams), fullInputStreams)
    {
      toSchedule := {};
      var rest := fullStreams;
      while rest != {}
        invariant Valid() && rest <= fullStreams && |levels| == |old(levels)|
        invariant forall s :: 0 <= s < |levels| ==> levels[s] == if s in fullStreams - rest then Grown(old(levels)[s]) else old(levels)[s]
        invariant forall s :: 0 <= s < |levels| ==>
                    lastReportedFull[s] == (old(lastReportedFull)[s] && !(s in fullStreams - rest && IsFull(old(levels)[s])))
        invariant toSchedule == NewlyFree(topo, active, old(fullInputStreams), fullInputStreams)
        invariant Shrinks(old(fullInputStreams), fullInputStreams)
        decreases rest
      {
        var stream :| stream in rest;
        rest := rest - {stream};
        ghost var before := fullInputStreams;
        var freed := SetMaxQueueSize(stream, levels[stream].size + 1);
        NewlyFreeAddsUp(topo, active, old(fullInputStreams), before, fullInputStreams);
        toSchedule := toSchedule + freed;
      }
    }

    /** Every stream that throttles some node. */
    function AllFull(): (r: set<nat>)
      reads this
      ensures forall n, s :: 0 <= n < |fullInputStreams| && s in fullInputStreams[n] ==> s in r
      ensures forall s :: s in r ==> exists n :: 0 <= n < |fullInputStreams| && s in fullInputStreams[n]
    {
      set n, s | 0 <= n < |fullInputStreams| && s in fullInputStreams[n] :: s
    }
  }
}
