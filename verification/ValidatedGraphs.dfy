/** The configuration object: it fills the tables of GraphConfig and computes the sources in one pass. */
module ValidatedGraphs {
  import opened PacketTypes
  import opened GraphConfig
  import Throttling

  /** The map gives the one position of every name in the table. */
  ghost predicate Indexes(producer: map<string, nat>, outs: seq<OutEdge>) {
    && DistinctNames(outs)
    && (forall i :: 0 <= i < |outs| ==> outs[i].name in producer && producer[outs[i].name] == i)
    && (forall name :: name in producer ==> producer[name] < |outs| && outs[producer[name]].name == name)
  }

  lemma LookupIsIndexOf(producer: map<string, nat>, outs: seq<OutEdge>, name: string)
    requires Indexes(producer, outs)
    ensures IndexOf(outs, name) == if name in producer then producer[name] else -1
  {
  }

  class ValidatedGraphConfig {
    var cfg: Config
    var outputStreams: seq<OutEdge>
    var inputStreams: seq<InEdge>
    var streamToProducer: map<string, nat>
    var inputStreamBaseIndex: seq<nat>
    var ancestorSources: seq<set<nat>>
    var portTypes: Store

    constructor (cfg: Config)
      ensures this.cfg == cfg && Empty()
    {
      this.cfg, portTypes := cfg, [];
      outputStreams, inputStreams, streamToProducer, inputStreamBaseIndex, ancestorSources := [], [], map[], [], [];
    }

    ghost predicate Empty()
      reads this
    {
      outputStreams == [] && inputStreams == [] && streamToProducer == map[] && inputStreamBaseIndex == [] && ancestorSources == []
    }

    method Clear()
      modifies this`outputStreams, this`inputStreams, this`streamToProducer, this`inputStreamBaseIndex, this`ancestorSources
      ensures Empty()
    {
      outputStreams, inputStreams, streamToProducer, inputStreamBaseIndex, ancestorSources := [], [], map[], [], [];
    }

    method AddOutputStream(node: nat, name: string, port: nat) returns (ok: bool)
      requires Indexes(streamToProducer, outputStreams)
      modifies this`outputStreams, this`streamToProducer
      ensures outputStreams == old(outputStreams) + [OutEdge(node, name, port)]
      ensures ok <==> DistinctNames(outputStreams)
      ensures ok ==> Indexes(streamToProducer, outputStreams)
    {
      outputStreams := outputStreams + [OutEdge(node, name, port)];
      if name in streamToProducer {
        assert outputStreams[streamToProducer[name]].name == outputStreams[|outputStreams| - 1].name;
        return false;
      }
      streamToProducer := streamToProducer[name := |outputStreams| - 1];
      ok := true;
    }

    /** The tables hold the graph inputs and the first `k` calculators. */
    ghost predicate Built(k: nat)
      reads this
    {
      && k <= NumNodes(cfg)
      && outputStreams == Outputs(cfg, k) && Indexes(streamToProducer, outputStreams)
      && inputStreams == Inputs(cfg, k)
      && |inputStreamBaseIndex| == k && (forall v :: 0 <= v < k ==> inputStreamBaseIndex[v] == InputBase(cfg, v))
    }

    method AddGraphInputs() returns (ok: bool)
      requires Empty()
      modifies this`outputStreams, this`streamToProducer
      ensures ok <==> DistinctNames(Outputs(cfg, 0))
      ensures ok ==> Built(0)
    {
      for index := 0 to |cfg.graphInputs|
        invariant outputStreams == GraphOutputs(cfg, index) && Indexes(streamToProducer, outputStreams)
      {
        var added := AddOutputStream(index + NumNodes(cfg), cfg.graphInputs[index], cfg.numPorts + index);
        NextGraphOutput(cfg, index);
        if !added {
          DuplicateStays(outputStreams, Outputs(cfg, 0));
          return false;
        }
      }
      ok := true;
    }

    method AddOutputStreamsForNode(v: nat) returns (ok: bool)
      requires v < NumNodes(cfg) && outputStreams == Outputs(cfg, v) && Indexes(streamToProducer, outputStreams)
      modifies this`outputStreams, this`streamToProducer
      ensures ok <==> DistinctNames(Outputs(cfg, v + 1))
      ensures ok ==> outputStreams == Outputs(cfg, v + 1) && Indexes(streamToProducer, outputStreams)
    {
      var outputs := cfg.calculators[v].outputs;
      assert outputStreams == Outputs(cfg, v) + NodeOutputs(cfg, v, 0);
      for j := 0 to |outputs|
        invariant outputStreams == Outputs(cfg, v) + NodeOutputs(cfg, v, j) && Indexes(streamToProducer, outputStreams)
      {
        var added := AddOutputStream(v, outputs[j], cfg.calculators[v].outputPort + j);
        NextNodeOutput(cfg, v, j);
        if !added {
          NodeOutputsGrow(cfg, v, j + 1);
          DuplicateStays(outputStreams, Outputs(cfg, v + 1));
          return false;
        }
      }
      ok := true;
    }

    /** The table entry of one input; `missing` if its producer has not been seen and should have been. */
    method FindUpstream(v: nat, j: nat) returns (edge: InEdge, missing: bool)
      requires v < NumNodes(cfg) && j < |cfg.calculators[v].inputs|
      requires outputStreams == Outputs(cfg, v) && Indexes(streamToProducer, outputStreams)
      ensures edge == NodeInput(cfg, v, j)
      ensures missing <==> !InputProduced(cfg, v, j)
    {
      var input := cfg.calculators[v].inputs[j];
      var upstream: int := -1;
      LookupIsIndexOf(streamToProducer, outputStreams, input.name);
      FoundIffProducedBefore(cfg, v, input.name);
      missing := false;
      if !input.backEdge {
        if input.name in streamToProducer {
          upstream := streamToProducer[input.name];
        } else {
          missing := true;
        }
      }
      edge := InEdge(v, input.name, cfg.calculators[v].inputPort + j, input.backEdge, upstream);
    }

    /** Without `mayDefer` a stream that has not been produced yet is an error. */
    method AddInputStreamsForNode(v: nat, mayDefer: bool) returns (ok: bool, deferred: bool)
      requires v < NumNodes(cfg) && outputStreams == Outputs(cfg, v) && Indexes(streamToProducer, outputStreams)
      modifies this`inputStreams, this`inputStreamBaseIndex
      ensures ok ==> inputStreams == old(inputStreams) + NodeInputs(cfg, v, |cfg.calculators[v].inputs|)
      ensures ok ==> inputStreamBaseIndex == old(inputStreamBaseIndex) + [|old(inputStreams)|]
      ensures ok <==> mayDefer || InputsProduced(cfg, v, |cfg.calculators[v].inputs|)
      ensures ok ==> (deferred <==> !InputsProduced(cfg, v, |cfg.calculators[v].inputs|))
    {
      inputStreamBaseIndex := inputStreamBaseIndex + [|inputStreams|];
      deferred := false;
      var edges: seq<InEdge> := [];
      for j := 0 to |cfg.calculators[v].inputs|
        invariant edges == NodeInputs(cfg, v, j) && inputStreams == old(inputStreams)
        invariant inputStreamBaseIndex == old(inputStreamBaseIndex) + [|old(inputStreams)|]
        invariant deferred <==> !InputsProduced(cfg, v, j)
        invariant deferred ==> mayDefer
      {
        var edge, missing := FindUpstream(v, j);
        if missing && !mayDefer {
          assert !InputsProduced(cfg, v, |cfg.calculators[v].inputs|);
          return false, false;
        }
        deferred := deferred || missing;
        edges := edges + [edge];
      }
      inputStreams := inputStreams + edges;
      ok := true;
    }

    /** Success without deferred streams means that the configuration is in order. */
    method InitializeStreamInfo(mayDefer: bool) returns (ok: bool, needSorting: bool)
      requires Empty()
      modifies this`outputStreams, this`inputStreams, this`streamToProducer, this`inputStreamBaseIndex
      ensures ok <==> UniqueProducers(cfg) && (mayDefer || Ordered(cfg))
      ensures ok ==> Built(NumNodes(cfg)) && (needSorting <==> !Ordered(cfg))
    {
      needSorting := false;
      var n := NumNodes(cfg);
      ok := AddGraphInputs();
      if !ok {
        DuplicateAmongFirst(cfg, 0);
        return false, false;
      }
      for v := 0 to n
        invariant Built(v)
        invariant needSorting <==> !OrderedUpTo(cfg, v)
        invariant needSorting ==> mayDefer
      {
        var inputsAdded, deferred := AddInputStreamsForNode(v, mayDefer);
        if !inputsAdded {
          OrderedNodeByNode(cfg);
          return false, false;
        }
        needSorting := needSorting || deferred;
        var outputsAdded := AddOutputStreamsForNode(v);
        if !outputsAdded {
          DuplicateAmongFirst(cfg, v + 1);
          return false, false;
        }
      }
      OrderedNodeByNode(cfg);
      ok := true;
    }

    /** Back edges may lead anywhere, but they must come from somewhere. */
    method FillUpstreamFieldForBackEdges() returns (ok: bool)
      requires Built(NumNodes(cfg))
      modifies this`inputStreams
      ensures ok <==> BackEdgesConnected(cfg)
      ensures ok ==> |inputStreams| == |Inputs(cfg, NumNodes(cfg))|
      ensures ok ==> forall i :: 0 <= i < |inputStreams| ==> inputStreams[i] == Completed(cfg, Inputs(cfg, NumNodes(cfg))[i])
    {
      ghost var table := inputStreams;
      for index := 0 to |inputStreams|
        invariant |inputStreams| == |table|
        invariant forall i :: 0 <= i < index ==> inputStreams[i] == Completed(cfg, table[i])
        invariant forall i :: index <= i < |table| ==> inputStreams[i] == table[i]
        invariant forall i :: 0 <= i < index && table[i].backEdge ==> IndexOf(outputStreams, table[i].name) >= 0
      {
        var input := inputStreams[index];
        if input.backEdge {
          LookupIsIndexOf(streamToProducer, outputStreams, input.name);
          if input.name !in streamToProducer {
            BackEdgesInTable(cfg, index);
            return false;
          }
          inputStreams := inputStreams[index := input.(upstream := streamToProducer[input.name])];
        }
      }
      BackEdgesAllFound(cfg);
      ok := true;
    }

    /** Everything that the source analysis relies on. */
    ghost predicate Validated()
      reads this
    {
      var n := NumNodes(cfg);
      && UniqueProducers(cfg) && Ordered(cfg) && BackEdgesConnected(cfg)
      && outputStreams == Outputs(cfg, n)
      && |inputStreams| == |Inputs(cfg, n)|
      && (forall i :: 0 <= i < |inputStreams| ==> inputStreams[i] == Completed(cfg, Inputs(cfg, n)[i]))
      && |inputStreamBaseIndex| == n && (forall v :: 0 <= v < n ==> inputStreamBaseIndex[v] == InputBase(cfg, v))
    }

    /** The one node that produces input `j` of node `v`, read off the tables. */
    method ProducerOf(v: nat, j: nat) returns (u: nat)
      requires Validated() && v < NumNodes(cfg) && j < |cfg.calculators[v].inputs|
      ensures u < NumAll(cfg) && Produces(cfg, u, cfg.calculators[v].inputs[j].name)
      ensures !cfg.calculators[v].inputs[j].backEdge ==> u < v || NumNodes(cfg) <= u
    {
      FlatInput(cfg, NumNodes(cfg), v, j);
      InputIsConnected(cfg, v, j);
      u := outputStreams[inputStreams[inputStreamBaseIndex[v] + j].upstream].node;
    }

    /** The sources of one node, from those of the nodes before it. */
    method AddSourcesOfNode(v: nat)
      requires Validated() && v < NumNodes(cfg) && cfg.calculators[v].inputs != []
      requires ExactBelow(cfg, ancestorSources, v) && ancestorSources[v] == {}
      modifies this`ancestorSources
      ensures ExactBelow(cfg, ancestorSources, v)
      ensures forall s :: s in ancestorSources[v] <==> Reaches(cfg, s, v)
    {
      for j := 0 to |cfg.calculators[v].inputs|
        invariant ExactBelow(cfg, ancestorSources, v)
        invariant forall s :: s in ancestorSources[v] <==> ReachesByFirst(cfg, s, v, j)
      {
        var u := ProducerOf(v, j);
        var sources := ancestorSources[v] + if NumNodes(cfg) <= u then {u} else ancestorSources[u];
        InputAdds(cfg, ancestorSources, v, j, u, sources);
        ancestorSources := ancestorSources[v := sources];
      }
      forall s: nat
        ensures s in ancestorSources[v] <==> Reaches(cfg, s, v)
      {
        ReachesIffBySomeInput(cfg, s, v);
      }
    }

    /** One pass in order gives every node exactly the sources that reach it. */
    method ComputeSourceDependence()
      requires Validated() && |ancestorSources| == NumNodes(cfg) && forall v :: 0 <= v < NumNodes(cfg) ==> ancestorSources[v] == {}
      modifies this`ancestorSources
      ensures |ancestorSources| == NumNodes(cfg)
      ensures forall v, s :: 0 <= v < NumNodes(cfg) ==> (s in ancestorSources[v] <==> Reaches(cfg, s, v))
    {
      for v := 0 to NumNodes(cfg)
        invariant ExactBelow(cfg, ancestorSources, v)
        invariant v < NumNodes(cfg) ==> ancestorSources[v] == {}
      {
        if cfg.calculators[v].inputs == [] {
          ancestorSources := ancestorSources[v := ancestorSources[v] + {v}];
          forall s: nat
            ensures s in ancestorSources[v] <==> Reaches(cfg, s, v)
          {
            SourceReachesItself(cfg, s, v);
          }
        } else {
          AddSourcesOfNode(v);
        }
      }
    }

    /** The edges between typed ports, from the completed tables. */
    method CollectEdges() returns (edges: seq<PacketTypes.Edge>)
      requires outputStreams == Outputs(cfg, NumNodes(cfg)) && |inputStreams| == |Inputs(cfg, NumNodes(cfg))|
      requires forall i :: 0 <= i < |inputStreams| ==> inputStreams[i] == Completed(cfg, Inputs(cfg, NumNodes(cfg))[i])
      ensures edges == StreamEdges(cfg)
    {
      edges := [];
      for i := 0 to |inputStreams|
        invariant |edges| == i && forall k :: 0 <= k < i ==> edges[k] == StreamEdges(cfg)[k]
      {
        edges := edges + [EdgeOf(outputStreams, inputStreams[i])];
      }
    }

    /** Resolves Any and OneOf types along the streams and checks that both ends of each agree. */
    method CheckStreamTypes(types: Store) returns (ok: bool)
      requires Forest(types) && |types| == cfg.numPorts && PortsInRange(cfg) && Validated()
      modifies this`portTypes
      ensures ok <==> TypesAgree(cfg, types)
      ensures EdgesInStore(StreamTypes(cfg, types), StreamEdges(cfg))
      ensures portTypes == ResolveAll(StreamTypes(cfg, types), StreamEdges(cfg))
    {
      var edges := CollectEdges();
      StreamEdgesInStore(cfg, types);
      var table := new PacketTypeTable.Of(StreamTypes(cfg, types));
      table.ResolveAny(edges);
      table.ResolveOneOf(edges);
      ok := table.ValidateTypes(edges, true);
      portTypes := table.specs;
      forall e | e in edges
        ensures e.Edge?
      {
        var i :| 0 <= i < |edges| && edges[i] == e;
        StreamEdgesConnected(cfg, i);
      }
    }

    /** The configuration that is analysed in the end. */
    ghost function Final(before: Config, sorted: Config, sidePacketsNeedSorting: bool): Config {
      if Ordered(before) && !sidePacketsNeedSorting then before else sorted
    }

    /**
     Streams are set up, sorted and set up again if they are out of order, and analysed. Whatever
     order the sorter comes up with, only a configuration that is in order passes.
     */
    method InitializeStreams(sorted: Config, sidePacketsNeedSorting: bool) returns (ok: bool)
      requires Empty()
      modifies this
      ensures ok <==>
                var final := Final(old(cfg), sorted, sidePacketsNeedSorting);
                UniqueProducers(old(cfg)) && UniqueProducers(final) && Ordered(final) && BackEdgesConnected(final)
      ensures ok ==> cfg == Final(old(cfg), sorted, sidePacketsNeedSorting) && Validated()
    {
      var needSorting;
      ok, needSorting := InitializeStreamInfo(true);
      if !ok {
        return;
      }
      if needSorting || sidePacketsNeedSorting {
        Clear();
        cfg := sorted;
        ok, needSorting := InitializeStreamInfo(false);
        if !ok {
          return;
        }
      }
      ok := FillUpstreamFieldForBackEdges();
    }

    /** The configurations before and after sorting have the same ports. */
    ghost predicate TypedBy(types: Store, c: Config) {
      Forest(types) && |types| == c.numPorts && PortsInRange(c)
    }

    /** The whole analysis of the streams: tables, types and sources. */
    method Initialize(types: Store, sorted: Config, sidePacketsNeedSorting: bool) returns (ok: bool)
      requires Empty() && TypedBy(types, cfg) && TypedBy(types, sorted)
      modifies this
      ensures ok <==>
                var final := Final(old(cfg), sorted, sidePacketsNeedSorting);
                && UniqueProducers(old(cfg)) && UniqueProducers(final) && Ordered(final) && BackEdgesConnected(final)
                && TypesAgree(final, types)
      ensures ok ==> cfg == Final(old(cfg), sorted, sidePacketsNeedSorting) && Validated() && |ancestorSources| == NumNodes(cfg)
      ensures ok ==> EdgesInStore(StreamTypes(cfg, types), StreamEdges(cfg))
                     && portTypes == ResolveAll(StreamTypes(cfg, types), StreamEdges(cfg))
      ensures ok ==> forall v, s :: 0 <= v < NumNodes(cfg) ==> (s in ancestorSources[v] <==> Reaches(cfg, s, v))
    {
      ok := InitializeStreams(sorted, sidePacketsNeedSorting);
      if !ok {
        return;
      }
      ok := CheckStreamTypes(types);
      if !ok {
        return;
      }
      ancestorSources := seq(NumNodes(cfg), _ => {});
      ComputeSourceDependence();
    }
  }

  predicate InputProduced(cfg: Config, v: nat, j: nat)
    requires v < NumNodes(cfg) && j < |cfg.calculators[v].inputs|
  {
    cfg.calculators[v].inputs[j].backEdge || ProducedBefore(cfg, v, cfg.calculators[v].inputs[j].name)
  }

  predicate InputsProduced(cfg: Config, v: nat, k: nat)
    requires v < NumNodes(cfg) && k <= |cfg.calculators[v].inputs|
  {
    forall j :: 0 <= j < k ==> InputProduced(cfg, v, j)
  }

  predicate OrderedUpTo(cfg: Config, k: nat)
    requires k <= NumNodes(cfg)
  {
    forall v :: 0 <= v < k ==> InputsProduced(cfg, v, |cfg.calculators[v].inputs|)
  }

  lemma OrderedNodeByNode(cfg: Config)
    ensures Ordered(cfg) <==> OrderedUpTo(cfg, NumNodes(cfg))
  {
    if OrderedUpTo(cfg, NumNodes(cfg)) {
      forall v, j | 0 <= v < NumNodes(cfg) && 0 <= j < |cfg.calculators[v].inputs|
        ensures cfg.calculators[v].inputs[j].backEdge || ProducedBefore(cfg, v, cfg.calculators[v].inputs[j].name)
      {
        assert InputsProduced(cfg, v, |cfg.calculators[v].inputs|);
        assert InputProduced(cfg, v, j);
      }
    }
  }

  lemma NextGraphOutput(cfg: Config, k: nat)
    requires k < |cfg.graphInputs|
    ensures GraphOutputs(cfg, k + 1) == GraphOutputs(cfg, k) + [OutEdge(k + NumNodes(cfg), cfg.graphInputs[k], cfg.numPorts + k)]
    ensures GraphOutputs(cfg, k + 1) <= Outputs(cfg, 0)
  {
  }

  lemma NextNodeOutput(cfg: Config, v: nat, k: nat)
    requires v < NumNodes(cfg) && k < |cfg.calculators[v].outputs|
    ensures Outputs(cfg, v) + NodeOutputs(cfg, v, k + 1)
            == (Outputs(cfg, v) + NodeOutputs(cfg, v, k)) + [OutEdge(v, cfg.calculators[v].outputs[k], cfg.calculators[v].outputPort + k)]
  {
    var e := OutEdge(v, cfg.calculators[v].outputs[k], cfg.calculators[v].outputPort + k);
    assert NodeOutputs(cfg, v, k + 1) == NodeOutputs(cfg, v, k) + [e];
    AppendToConcat(Outputs(cfg, v), NodeOutputs(cfg, v, k), e);
  }

  lemma AppendToConcat<T>(a: seq<T>, b: seq<T>, x: T)
    ensures a + (b + [x]) == (a + b) + [x]
  {
  }

  lemma NodeOutputsGrow(cfg: Config, v: nat, k: nat)
    requires v < NumNodes(cfg) && k <= |cfg.calculators[v].outputs|
    ensures Outputs(cfg, v) + NodeOutputs(cfg, v, k) <= Outputs(cfg, v + 1)
  {
    assert NodeOutputs(cfg, v, k) <= NodeOutputs(cfg, v, |cfg.calculators[v].outputs|);
  }

  lemma DuplicateStays(some: seq<OutEdge>, all: seq<OutEdge>)
    requires some <= all && !DistinctNames(some)
    ensures !DistinctNames(all)
  {
    var i, j :| 0 <= i < j < |some| && some[i].name == some[j].name;
    assert all[i] == some[i] && all[j] == some[j];
  }

  lemma DuplicateAmongFirst(cfg: Config, k: nat)
    requires k <= NumNodes(cfg) && !DistinctNames(Outputs(cfg, k))
    ensures !UniqueProducers(cfg)
  {
    OutputsGrow(cfg, k, NumNodes(cfg));
    DuplicateStays(Outputs(cfg, k), Outputs(cfg, NumNodes(cfg)));
  }

  /** The nodes a full stream holds back: its producer if that is a graph input, else the producer's sources. */
  ghost predicate HeldBackBy(cfg: Config, producer: nat, s: nat) {
    if NumNodes(cfg) <= producer then s == producer else Reaches(cfg, s, producer)
  }

  /** They are sources and graph inputs only, so a calculator with inputs is never throttled. */
  lemma NodesWithInputsAreNeverThrottled(
    cfg: Config, producer: seq<nat>, topo: Throttling.Topology, t: Throttling.State, steps: seq<Throttling.Step>, v: nat)
    requires topo.numNodes == NumNodes(cfg) && topo.numAll == NumAll(cfg) && |producer| == |topo.upstream|
    requires forall i, s :: 0 <= i < |producer| && s in topo.upstream[i] ==> HeldBackBy(cfg, producer[i], s)
    requires Throttling.Starts(topo, t)
    requires v < NumNodes(cfg) && cfg.calculators[v].inputs != []
    ensures Throttling.Run(topo, t, steps).sets.full[v] == {}
  {
    forall i | 0 <= i < |topo.upstream|
      ensures v !in topo.upstream[i]
    {
      if v in topo.upstream[i] {
        OnlySourcesReach(cfg, v, producer[i]);
      }
    }
    Throttling.OnlySourcesAreThrottled(topo, t, steps, v);
  }
}
