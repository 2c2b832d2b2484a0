/**
 The shape of a calculator graph: who produces which stream, whether every stream is produced
 before it is used, and which sources each calculator depends on.

 Calculators are numbered in their order in the configuration; the numbers after them are
 virtual nodes, one per graph input stream.
 */
module GraphConfig {
  import opened PacketTypes

  datatype Input = Input(name: string, backEdge: bool)

  /** The typed ports of a calculator are numbered in a row, from `inputPort` and `outputPort` on. */
  datatype Calculator = Calculator(inputs: seq<Input>, outputs: seq<string>, inputPort: nat, outputPort: nat)

  /** The ports of the graph inputs follow the `numPorts` ports of the calculators. */
  datatype Config = Config(graphInputs: seq<string>, calculators: seq<Calculator>, numPorts: nat)

  function NumNodes(cfg: Config): nat {
    |cfg.calculators|
  }

  function NumAll(cfg: Config): nat {
    |cfg.calculators| + |cfg.graphInputs|
  }

  // ---------------------------------------------------------------- what the configuration means

  /** Node `u`, real or virtual, produces the stream. */
  predicate Produces(cfg: Config, u: nat, name: string) {
    if u < NumNodes(cfg) then name in cfg.calculators[u].outputs
    else u < NumAll(cfg) && cfg.graphInputs[u - NumNodes(cfg)] == name
  }

  /** The producer of a stream is a graph input or a calculator numbered below `v`. */
  predicate ProducedBefore(cfg: Config, v: nat, name: string) {
    exists u: nat :: u < NumAll(cfg) && Produces(cfg, u, name) && (u < v || NumNodes(cfg) <= u)
  }

  predicate ProducedSomewhere(cfg: Config, name: string) {
    exists u: nat :: u < NumAll(cfg) && Produces(cfg, u, name)
  }

  /** Every stream that is not marked as a back edge is produced before it is used. */
  predicate Ordered(cfg: Config) {
    forall v, j :: 0 <= v < NumNodes(cfg) && 0 <= j < |cfg.calculators[v].inputs| ==>
      cfg.calculators[v].inputs[j].backEdge || ProducedBefore(cfg, v, cfg.calculators[v].inputs[j].name)
  }

  predicate BackEdgesConnected(cfg: Config) {
    forall v, j :: 0 <= v < NumNodes(cfg) && 0 <= j < |cfg.calculators[v].inputs| ==>
      cfg.calculators[v].inputs[j].backEdge ==> ProducedSomewhere(cfg, cfg.calculators[v].inputs[j].name)
  }

  /** A stream goes from `u` to `v`. */
  predicate Edge(cfg: Config, u: nat, v: nat) {
    v < NumNodes(cfg) && exists j :: 0 <= j < |cfg.calculators[v].inputs| && Produces(cfg, u, cfg.calculators[v].inputs[j].name)
  }

  /** A chain of streams that leads to `v` through ever higher numbers. */
  predicate IsPath(cfg: Config, path: seq<nat>, v: nat) {
    && path != [] && path[|path| - 1] == v && v < NumNodes(cfg)
    && (forall k :: 0 <= k < |path| ==> path[k] < NumNodes(cfg))
    && (forall k :: 0 <= k < |path| - 1 ==> path[k] < path[k + 1] && Edge(cfg, path[k], path[k + 1]))
  }

  /** `s` is a source, or a graph input, at the head of the path. */
  predicate Heads(cfg: Config, s: nat, first: nat) {
    if s < NumNodes(cfg) then s == first && cfg.calculators[s].inputs == []
    else s < NumAll(cfg) && Edge(cfg, s, first)
  }

  ghost predicate Reaches(cfg: Config, s: nat, v: nat) {
    exists path :: IsPath(cfg, path, v) && Heads(cfg, s, path[0])
  }

  // ---------------------------------------------------------------- the tables

  datatype OutEdge = OutEdge(node: nat, name: string, port: nat)
  /** `upstream` is a position in the table of outputs, or -1. */
  datatype InEdge = InEdge(node: nat, name: string, port: nat, backEdge: bool, upstream: int)

  function GraphOutputs(cfg: Config, k: nat): (r: seq<OutEdge>)
    requires k <= |cfg.graphInputs|
    ensures |r| == k
  {
    seq(k, i requires 0 <= i < k => OutEdge(NumNodes(cfg) + i, cfg.graphInputs[i], cfg.numPorts + i))
  }

  function NodeOutputs(cfg: Config, v: nat, k: nat): (r: seq<OutEdge>)
    requires v < NumNodes(cfg) && k <= |cfg.calculators[v].outputs|
    ensures |r| == k
  {
    seq(k, i requires 0 <= i < k => OutEdge(v, cfg.calculators[v].outputs[i], cfg.calculators[v].outputPort + i))
  }

  /** The outputs of the graph inputs and of the first `k` calculators. */
  function Outputs(cfg: Config, k: nat): seq<OutEdge>
    requires k <= NumNodes(cfg)
  {
    if k == 0 then GraphOutputs(cfg, |cfg.graphInputs|)
    else Outputs(cfg, k - 1) + NodeOutputs(cfg, k - 1, |cfg.calculators[k - 1].outputs|)
  }

  function IndexOf(outs: seq<OutEdge>, name: string): (r: int)
    ensures -1 <= r < |outs|
    ensures r >= 0 ==> outs[r].name == name
    ensures r == -1 ==> forall i :: 0 <= i < |outs| ==> outs[i].name != name
  {
    if outs == [] then -1
    else if outs[|outs| - 1].name == name then |outs| - 1
    else IndexOf(outs[..|outs| - 1], name)
  }

  predicate DistinctNames(outs: seq<OutEdge>) {
    forall i, j :: 0 <= i < j < |outs| ==> outs[i].name != outs[j].name
  }

  /** No stream has two producers, or one that lists it twice. */
  predicate UniqueProducers(cfg: Config) {
    DistinctNames(Outputs(cfg, NumNodes(cfg)))
  }

  function NodeInput(cfg: Config, v: nat, j: nat): InEdge
    requires v < NumNodes(cfg) && j < |cfg.calculators[v].inputs|
  {
    var input := cfg.calculators[v].inputs[j];
    InEdge(v, input.name, cfg.calculators[v].inputPort + j, input.backEdge, if input.backEdge then -1 else IndexOf(Outputs(cfg, v), input.name))
  }

  function NodeInputs(cfg: Config, v: nat, k: nat): (r: seq<InEdge>)
    requires v < NumNodes(cfg) && k <= |cfg.calculators[v].inputs|
    ensures |r| == k
  {
    seq(k, j requires 0 <= j < k => NodeInput(cfg, v, j))
  }

  function Inputs(cfg: Config, k: nat): seq<InEdge>
    requires k <= NumNodes(cfg)
  {
    if k == 0 then [] else Inputs(cfg, k - 1) + NodeInputs(cfg, k - 1, |cfg.calculators[k - 1].inputs|)
  }

  function InputBase(cfg: Config, v: nat): nat
    requires v <= NumNodes(cfg)
  {
    |Inputs(cfg, v)|
  }

  // ---------------------------------------------------------------- the tables tell the truth

  lemma {:induction false} OutputsAreProduced(cfg: Config, k: nat, i: nat)
    requires k <= NumNodes(cfg) && i < |Outputs(cfg, k)|
    ensures var e := Outputs(cfg, k)[i];
            e.node < NumAll(cfg) && Produces(cfg, e.node, e.name) && (e.node < k || NumNodes(cfg) <= e.node)
    decreases k
  {
    if k > 0 && i < |Outputs(cfg, k - 1)| {
      OutputsAreProduced(cfg, k - 1, i);
    }
  }

  predicate IsFrom(e: OutEdge, u: nat, name: string) {
    e.node == u && e.name == name
  }

  /** Whatever a graph input or one of the first `k` calculators produces is in the table. */
  lemma {:induction false} ProducedIsListed(cfg: Config, k: nat, u: nat, name: string)
    requires k <= NumNodes(cfg) && Produces(cfg, u, name) && (u < k || NumNodes(cfg) <= u < NumAll(cfg))
    ensures exists i :: 0 <= i < |Outputs(cfg, k)| && IsFrom(Outputs(cfg, k)[i], u, name)
    decreases k
  {
    if k == 0 {
      var i := u - NumNodes(cfg);
      assert IsFrom(Outputs(cfg, 0)[i], u, name);
    } else if u == k - 1 {
      var j :| 0 <= j < |cfg.calculators[u].outputs| && cfg.calculators[u].outputs[j] == name;
      assert IsFrom(Outputs(cfg, k)[|Outputs(cfg, k - 1)| + j], u, name);
    } else {
      ProducedIsListed(cfg, k - 1, u, name);
      var i :| 0 <= i < |Outputs(cfg, k - 1)| && IsFrom(Outputs(cfg, k - 1)[i], u, name);
      assert Outputs(cfg, k)[i] == Outputs(cfg, k - 1)[i];
    }
  }

  lemma {:induction false} OutputsGrow(cfg: Config, k: nat, n: nat)
    requires k <= n <= NumNodes(cfg)
    ensures Outputs(cfg, k) <= Outputs(cfg, n)
    decreases n
  {
    if k < n {
      OutputsGrow(cfg, k, n - 1);
    }
  }

  /** A name found in the table of the first `k` calculators is produced before `k`, and the other way round. */
  lemma FoundIffProducedBefore(cfg: Config, k: nat, name: string)
    requires k <= NumNodes(cfg)
    ensures IndexOf(Outputs(cfg, k), name) >= 0 <==> ProducedBefore(cfg, k, name)
  {
    var outs := Outputs(cfg, k);
    var i := IndexOf(outs, name);
    if i >= 0 {
      OutputsAreProduced(cfg, k, i);
    }
    if ProducedBefore(cfg, k, name) {
      var u: nat :| u < NumAll(cfg) && Produces(cfg, u, name) && (u < k || NumNodes(cfg) <= u);
      ProducedIsListed(cfg, k, u, name);
    }
  }

  /** If no stream is listed twice then each stream has one producer. */
  lemma ProducerIsUnique(cfg: Config, u: nat, v: nat, name: string)
    requires UniqueProducers(cfg) && Produces(cfg, u, name) && Produces(cfg, v, name) && u < NumAll(cfg) && v < NumAll(cfg)
    ensures u == v
  {
    var n := NumNodes(cfg);
    ProducedIsListed(cfg, n, u, name);
    ProducedIsListed(cfg, n, v, name);
    var i :| 0 <= i < |Outputs(cfg, n)| && IsFrom(Outputs(cfg, n)[i], u, name);
    var j :| 0 <= j < |Outputs(cfg, n)| && IsFrom(Outputs(cfg, n)[j], v, name);
    assert i == j;
  }

  // ---------------------------------------------------------------- reachability, one edge at a time

  lemma PathExtends(cfg: Config, s: nat, u: nat, v: nat)
    requires Reaches(cfg, s, u) && u < v && Edge(cfg, u, v)
    ensures Reaches(cfg, s, v)
  {
    var path :| IsPath(cfg, path, u) && Heads(cfg, s, path[0]);
    var longer := path + [v];
    forall k | 0 <= k < |longer| - 1
      ensures longer[k] < longer[k + 1] && Edge(cfg, longer[k], longer[k + 1])
    {
      assert k < |path| - 1 ==> path[k] < path[k + 1] && Edge(cfg, path[k], path[k + 1]);
    }
    assert IsPath(cfg, longer, v) && longer[0] == path[0];
  }

  lemma HeadReaches(cfg: Config, s: nat, v: nat)
    requires v < NumNodes(cfg) && Heads(cfg, s, v)
    ensures Reaches(cfg, s, v)
  {
    assert IsPath(cfg, [v], v) && [v][0] == v;
  }

  /** Every path ends with an edge from a lower number, or is a single node. */
  lemma PathShrinks(cfg: Config, s: nat, v: nat) returns (u: nat)
    requires Reaches(cfg, s, v)
    ensures (u == v && Heads(cfg, s, v)) || (u < v && Edge(cfg, u, v) && Reaches(cfg, s, u))
  {
    var path :| IsPath(cfg, path, v) && Heads(cfg, s, path[0]);
    if |path| == 1 {
      u := v;
    } else {
      u := path[|path| - 2];
      var shorter := path[..|path| - 1];
      assert path[|path| - 2 + 1] == v;
      assert IsPath(cfg, shorter, u) && shorter[0] == path[0];
    }
  }

  /** `s` reaches `v` through its input `j`. */
  ghost predicate ReachesBy(cfg: Config, s: nat, v: nat, j: nat)
    requires v < NumNodes(cfg) && j < |cfg.calculators[v].inputs|
  {
    exists u: nat :: u < NumAll(cfg) && Produces(cfg, u, cfg.calculators[v].inputs[j].name) && ReachesFrom(cfg, s, u, v)
  }

  ghost predicate ReachesFrom(cfg: Config, s: nat, u: nat, v: nat) {
    if NumNodes(cfg) <= u then s == u else u < v && Reaches(cfg, s, u)
  }

  /** With one producer per stream, only that producer matters. */
  lemma ReachesByProducer(cfg: Config, s: nat, v: nat, j: nat, u: nat)
    requires UniqueProducers(cfg) && v < NumNodes(cfg) && j < |cfg.calculators[v].inputs|
    requires u < NumAll(cfg) && Produces(cfg, u, cfg.calculators[v].inputs[j].name)
    ensures ReachesBy(cfg, s, v, j) <==> ReachesFrom(cfg, s, u, v)
  {
    if ReachesBy(cfg, s, v, j) {
      var w: nat :| w < NumAll(cfg) && Produces(cfg, w, cfg.calculators[v].inputs[j].name) && ReachesFrom(cfg, s, w, v);
      ProducerIsUnique(cfg, u, w, cfg.calculators[v].inputs[j].name);
    }
  }

  lemma ReachesByEdge(cfg: Config, s: nat, u: nat, v: nat)
    requires u < NumAll(cfg) && Edge(cfg, u, v) && ReachesFrom(cfg, s, u, v)
    ensures exists j :: 0 <= j < |cfg.calculators[v].inputs| && ReachesBy(cfg, s, v, j)
  {
    var j :| 0 <= j < |cfg.calculators[v].inputs| && Produces(cfg, u, cfg.calculators[v].inputs[j].name);
    assert ReachesBy(cfg, s, v, j);
  }

  /** What reaches a node is what reaches it through one of its inputs. */
  lemma ReachesIffBySomeInput(cfg: Config, s: nat, v: nat)
    requires v < NumNodes(cfg) && cfg.calculators[v].inputs != []
    ensures Reaches(cfg, s, v) <==> exists j :: 0 <= j < |cfg.calculators[v].inputs| && ReachesBy(cfg, s, v, j)
  {
    if Reaches(cfg, s, v) {
      var u := PathShrinks(cfg, s, v);
      ReachesByEdge(cfg, s, if u == v then s else u, v);
    }
    if j :| 0 <= j < |cfg.calculators[v].inputs| && ReachesBy(cfg, s, v, j) {
      var u: nat :| u < NumAll(cfg) && Produces(cfg, u, cfg.calculators[v].inputs[j].name) && ReachesFrom(cfg, s, u, v);
      assert Edge(cfg, u, v);
      if NumNodes(cfg) <= u {
        HeadReaches(cfg, s, v);
      } else {
        PathExtends(cfg, s, u, v);
      }
    }
  }

  lemma SourceReachesItself(cfg: Config, s: nat, v: nat)
    requires v < NumNodes(cfg) && cfg.calculators[v].inputs == []
    ensures Reaches(cfg, s, v) <==> s == v
  {
    if Reaches(cfg, s, v) {
      var u := PathShrinks(cfg, s, v);
    }
    if s == v {
      HeadReaches(cfg, s, v);
    }
  }

  /** Only calculators without inputs and graph inputs reach anything, and numbers never fall. */
  lemma OnlySourcesReach(cfg: Config, s: nat, v: nat)
    requires Reaches(cfg, s, v)
    ensures s < NumAll(cfg)
    ensures s < NumNodes(cfg) ==> cfg.calculators[s].inputs == []
  {
  }

  // ---------------------------------------------------------------- the flat table of inputs

  lemma {:induction false} FlatInput(cfg: Config, n: nat, v: nat, j: nat)
    requires v < n <= NumNodes(cfg) && j < |cfg.calculators[v].inputs|
    ensures InputBase(cfg, v) + j < |Inputs(cfg, n)| && Inputs(cfg, n)[InputBase(cfg, v) + j] == NodeInput(cfg, v, j)
    decreases n
  {
    var front, last := Inputs(cfg, n - 1), NodeInputs(cfg, n - 1, |cfg.calculators[n - 1].inputs|);
    assert Inputs(cfg, n) == front + last;
    if v < n - 1 {
      FlatInput(cfg, n - 1, v, j);
      ConcatAt(front, last, InputBase(cfg, v) + j);
    } else {
      ConcatAt(front, last, |front| + j);
    }
  }

  lemma ConcatAt<T>(a: seq<T>, b: seq<T>, i: nat)
    requires i < |a| + |b|
    ensures (a + b)[i] == if i < |a| then a[i] else b[i - |a|]
  {
  }

  lemma {:induction false} FlatOrigin(cfg: Config, n: nat, i: nat) returns (v: nat, j: nat)
    requires n <= NumNodes(cfg) && i < |Inputs(cfg, n)|
    ensures v < n && j < |cfg.calculators[v].inputs| && Inputs(cfg, n)[i] == NodeInput(cfg, v, j)
    decreases n
  {
    if i < |Inputs(cfg, n - 1)| {
      v, j := FlatOrigin(cfg, n - 1, i);
    } else {
      v, j := n - 1, i - |Inputs(cfg, n - 1)|;
    }
  }

  /** The table after the back edges have been filled in. */
  function Completed(cfg: Config, e: InEdge): InEdge {
    if e.backEdge then e.(upstream := IndexOf(Outputs(cfg, NumNodes(cfg)), e.name)) else e
  }

  /** In an ordered, connected configuration every input knows its producer. */
  lemma InputIsConnected(cfg: Config, v: nat, j: nat)
    requires Ordered(cfg) && BackEdgesConnected(cfg)
    requires v < NumNodes(cfg) && j < |cfg.calculators[v].inputs|
    ensures var outs, e := Outputs(cfg, NumNodes(cfg)), Completed(cfg, NodeInput(cfg, v, j));
            && 0 <= e.upstream < |outs| && outs[e.upstream].node < NumAll(cfg)
            && Produces(cfg, outs[e.upstream].node, cfg.calculators[v].inputs[j].name)
            && (e.backEdge || outs[e.upstream].node < v || NumNodes(cfg) <= outs[e.upstream].node)
  {
    var n, input := NumNodes(cfg), cfg.calculators[v].inputs[j];
    var e := Completed(cfg, NodeInput(cfg, v, j));
    if input.backEdge {
      assert ProducedBefore(cfg, n, input.name) by {
        assert ProducedSomewhere(cfg, input.name);
      }
      FoundIffProducedBefore(cfg, n, input.name);
    } else {
      assert ProducedBefore(cfg, v, input.name);
      FoundIffProducedBefore(cfg, v, input.name);
      OutputsGrow(cfg, v, n);
      OutputsAreProduced(cfg, v, e.upstream);
    }
    OutputsAreProduced(cfg, n, e.upstream);
  }

  // ---------------------------------------------------------------- the steps of the analysis

  /** A back edge of the table that has no producer, or all of them having one, decides the question. */
  lemma BackEdgesInTable(cfg: Config, i: nat)
    requires i < |Inputs(cfg, NumNodes(cfg))|
    ensures BackEdgesConnected(cfg) && Inputs(cfg, NumNodes(cfg))[i].backEdge ==>
              IndexOf(Outputs(cfg, NumNodes(cfg)), Inputs(cfg, NumNodes(cfg))[i].name) >= 0
  {
    var v, j := FlatOrigin(cfg, NumNodes(cfg), i);
    FoundIffProducedBefore(cfg, NumNodes(cfg), cfg.calculators[v].inputs[j].name);
    assert ProducedSomewhere(cfg, cfg.calculators[v].inputs[j].name) ==> ProducedBefore(cfg, NumNodes(cfg), cfg.calculators[v].inputs[j].name);
  }

  lemma BackEdgesAllFound(cfg: Config)
    requires var table, outs := Inputs(cfg, NumNodes(cfg)), Outputs(cfg, NumNodes(cfg));
             forall i :: 0 <= i < |table| && table[i].backEdge ==> IndexOf(outs, table[i].name) >= 0
    ensures BackEdgesConnected(cfg)
  {
    var n := NumNodes(cfg);
    forall v, j | 0 <= v < n && 0 <= j < |cfg.calculators[v].inputs| && cfg.calculators[v].inputs[j].backEdge
      ensures ProducedSomewhere(cfg, cfg.calculators[v].inputs[j].name)
    {
      FlatInput(cfg, n, v, j);
      FoundIffProducedBefore(cfg, n, cfg.calculators[v].inputs[j].name);
    }
  }

  ghost predicate ReachesByFirst(cfg: Config, s: nat, v: nat, k: nat)
    requires v < NumNodes(cfg) && k <= |cfg.calculators[v].inputs|
  {
    exists j :: 0 <= j < k && ReachesBy(cfg, s, v, j)
  }

  lemma ReachesByNext(cfg: Config, s: nat, v: nat, k: nat)
    requires v < NumNodes(cfg) && k < |cfg.calculators[v].inputs|
    ensures ReachesByFirst(cfg, s, v, k + 1) <==> ReachesByFirst(cfg, s, v, k) || ReachesBy(cfg, s, v, k)
  {
  }

  /** The sources known so far: those below `v` are exact, and nothing is known above. */
  ghost predicate ExactBelow(cfg: Config, sources: seq<set<nat>>, v: nat) {
    && |sources| == NumNodes(cfg)
    && (forall u, s :: 0 <= u < v && u < |sources| ==> (s in sources[u] <==> Reaches(cfg, s, u)))
    && (forall u :: v < u < |sources| ==> sources[u] == {})
  }

  /** What input `j`, produced by `u`, adds to the sources of `v`. */
  lemma InputAdds(cfg: Config, sources: seq<set<nat>>, v: nat, j: nat, u: nat, next: set<nat>)
    requires UniqueProducers(cfg) && v < NumNodes(cfg) && j < |cfg.calculators[v].inputs|
    requires u < NumAll(cfg) && Produces(cfg, u, cfg.calculators[v].inputs[j].name)
    requires ExactBelow(cfg, sources, v)
    requires forall s :: s in sources[v] <==> ReachesByFirst(cfg, s, v, j)
    requires next == sources[v] + if NumNodes(cfg) <= u then {u} else sources[u]
    ensures forall s :: s in next <==> ReachesByFirst(cfg, s, v, j + 1)
  {
    forall s: nat
      ensures s in next <==> ReachesByFirst(cfg, s, v, j + 1)
    {
      ReachesByNext(cfg, s, v, j);
      ReachesByProducer(cfg, s, v, j, u);
    }
  }

  // ---------------------------------------------------------------- types along the edges

  predicate PortsInRange(cfg: Config) {
    forall v :: 0 <= v < NumNodes(cfg) ==>
      && cfg.calculators[v].inputPort + |cfg.calculators[v].inputs| <= cfg.numPorts
      && cfg.calculators[v].outputPort + |cfg.calculators[v].outputs| <= cfg.numPorts
  }

  /** The declared types of the calculators' ports, and Any for every graph input. */
  function StreamTypes(cfg: Config, types: Store): (s: Store)
    requires Forest(types) && |types| == cfg.numPorts
    ensures Forest(s) && |s| == cfg.numPorts + |cfg.graphInputs|
  {
    GraphInputsAreAny(types, |cfg.graphInputs|);
    types + seq(|cfg.graphInputs|, _ => AnyType)
  }

  lemma GraphInputsAreAny(types: Store, k: nat)
    requires Forest(types)
    ensures Forest(types + seq(k, _ => AnyType))
  {
    var rank := RankOf(types);
    assert IsRank(types + seq(k, _ => AnyType), rank + seq(k, _ => 0));
  }

  function EdgeOf(outs: seq<OutEdge>, e: InEdge): PacketTypes.Edge {
    if 0 <= e.upstream < |outs| then PacketTypes.Edge.Edge(e.port, outs[e.upstream].port) else Unconnected(e.port)
  }

  /** The edges of the completed table. */
  function StreamEdges(cfg: Config): (edges: seq<PacketTypes.Edge>)
    ensures |edges| == |Inputs(cfg, NumNodes(cfg))|
  {
    var ins, outs := Inputs(cfg, NumNodes(cfg)), Outputs(cfg, NumNodes(cfg));
    seq(|ins|, i requires 0 <= i < |ins| => EdgeOf(outs, Completed(cfg, ins[i])))
  }

  lemma {:induction false} OutputPortsInRange(cfg: Config, k: nat, i: nat)
    requires PortsInRange(cfg) && k <= NumNodes(cfg) && i < |Outputs(cfg, k)|
    ensures Outputs(cfg, k)[i].port < cfg.numPorts + |cfg.graphInputs|
    decreases k
  {
    if k > 0 {
      if i < |Outputs(cfg, k - 1)| {
        OutputPortsInRange(cfg, k - 1, i);
      } else {
        assert cfg.calculators[k - 1].outputPort + |cfg.calculators[k - 1].outputs| <= cfg.numPorts;
      }
    }
  }

  lemma StreamEdgesInStore(cfg: Config, types: Store)
    requires Forest(types) && |types| == cfg.numPorts && PortsInRange(cfg)
    ensures EdgesInStore(StreamTypes(cfg, types), StreamEdges(cfg))
  {
    var n, edges := NumNodes(cfg), StreamEdges(cfg);
    forall e | e in edges
      ensures e.input < cfg.numPorts + |cfg.graphInputs| && (e.Edge? ==> e.output < cfg.numPorts + |cfg.graphInputs|)
    {
      var i :| 0 <= i < |edges| && edges[i] == e;
      var v, j := FlatOrigin(cfg, n, i);
      var up := Completed(cfg, Inputs(cfg, n)[i]).upstream;
      if 0 <= up < |Outputs(cfg, n)| {
        OutputPortsInRange(cfg, n, up);
      }
    }
  }

  /** Every stream's two ends agree once Any and OneOf types are resolved. */
  ghost predicate TypesAgree(cfg: Config, types: Store)
    requires Forest(types) && |types| == cfg.numPorts && PortsInRange(cfg)
  {
    StreamEdgesInStore(cfg, types);
    TypesValidated(ResolveAll(StreamTypes(cfg, types), StreamEdges(cfg)), StreamEdges(cfg))
  }

  /** An ordered, connected configuration leaves no edge open. */
  lemma StreamEdgesConnected(cfg: Config, i: nat)
    requires Ordered(cfg) && BackEdgesConnected(cfg) && i < |StreamEdges(cfg)|
    ensures StreamEdges(cfg)[i].Edge?
  {
    var v, j := FlatOrigin(cfg, NumNodes(cfg), i);
    InputIsConnected(cfg, v, j);
  }

  /** In a validated graph, what leaves an output that is not OneOf is accepted by every input it feeds. */
  lemma ValidatedStreamsAreSound(cfg: Config, types: Store, i: nat)
    requires Forest(types) && |types| == cfg.numPorts && PortsInRange(cfg)
    requires Ordered(cfg) && BackEdgesConnected(cfg) && TypesAgree(cfg, types) && i < |StreamEdges(cfg)|
    ensures EdgesInStore(StreamTypes(cfg, types), StreamEdges(cfg))
    ensures var t, e := ResolveAll(StreamTypes(cfg, types), StreamEdges(cfg)), StreamEdges(cfg)[i];
            && e.Edge? && e.input < |t| && e.output < |t|
            && (!RootSpec(t, e.output).OneOf? ==> EdgeIsSound(t, e))
  {
    StreamEdgesInStore(cfg, types);
    StreamEdgesConnected(cfg, i);
    var edges := StreamEdges(cfg);
    assert edges[i] in edges;
    if !RootSpec(ResolveAll(StreamTypes(cfg, types), edges), edges[i].output).OneOf? {
      ExactOutputsAreSound(StreamTypes(cfg, types), edges, edges[i]);
    }
  }

  // ---------------------------------------------------------------- the edges are the streams

  /** Output `k` of node `u` is this stream and has this port; a graph input has one output. */
  predicate IsOutput(cfg: Config, u: nat, k: nat, name: string, port: nat) {
    if u < NumNodes(cfg) then
      k < |cfg.calculators[u].outputs| && cfg.calculators[u].outputs[k] == name && port == cfg.calculators[u].outputPort + k
    else
      u < NumAll(cfg) && k == 0 && cfg.graphInputs[u - NumNodes(cfg)] == name && port == cfg.numPorts + (u - NumNodes(cfg))
  }

  lemma {:induction false} ListedIsOutput(cfg: Config, n: nat, i: nat) returns (k: nat)
    requires n <= NumNodes(cfg) && i < |Outputs(cfg, n)|
    ensures var e := Outputs(cfg, n)[i]; IsOutput(cfg, e.node, k, e.name, e.port)
    decreases n
  {
    if n == 0 {
      k := 0;
    } else if i < |Outputs(cfg, n - 1)| {
      k := ListedIsOutput(cfg, n - 1, i);
    } else {
      k := i - |Outputs(cfg, n - 1)|;
    }
  }

  lemma {:induction false} OutputIsListed(cfg: Config, n: nat, u: nat, k: nat, name: string, port: nat) returns (i: nat)
    requires n <= NumNodes(cfg) && IsOutput(cfg, u, k, name, port) && (u < n || NumNodes(cfg) <= u)
    ensures i < |Outputs(cfg, n)| && Outputs(cfg, n)[i] == OutEdge(u, name, port)
    decreases n
  {
    if n == 0 {
      i := u - NumNodes(cfg);
    } else if u == n - 1 {
      i := |Outputs(cfg, n - 1)| + k;
    } else {
      i := OutputIsListed(cfg, n - 1, u, k, name, port);
    }
  }

  /** No stream leaves two outputs. */
  ghost predicate OneOutputPerStream(cfg: Config) {
    forall u: nat, k: nat, w: nat, l: nat, port: nat, port': nat, name ::
      IsOutput(cfg, u, k, name, port) && IsOutput(cfg, w, l, name, port') ==> u == w && k == l
  }

  /** Two rows of the table come from two outputs. */
  lemma {:induction false} RowsDiffer(cfg: Config, n: nat, i: nat, j: nat)
    requires n <= NumNodes(cfg) && i < j < |Outputs(cfg, n)|
    ensures Outputs(cfg, n)[i].node == Outputs(cfg, n)[j].node ==> Outputs(cfg, n)[i].port != Outputs(cfg, n)[j].port
    decreases n
  {
    if n > 0 {
      var front := |Outputs(cfg, n - 1)|;
      if j < front {
        RowsDiffer(cfg, n - 1, i, j);
      } else if i < front {
        OutputsAreProduced(cfg, n - 1, i);
      }
    }
  }

  /** The table has distinct names exactly if no stream leaves two outputs. */
  lemma UniqueMeansOneOutput(cfg: Config)
    ensures UniqueProducers(cfg) <==> OneOutputPerStream(cfg)
  {
    var n := NumNodes(cfg);
    if UniqueProducers(cfg) {
      forall u: nat, k: nat, w: nat, l: nat, port: nat, port': nat, name | IsOutput(cfg, u, k, name, port) && IsOutput(cfg, w, l, name, port')
        ensures u == w && k == l
      {
        var i := OutputIsListed(cfg, n, u, k, name, port);
        var j := OutputIsListed(cfg, n, w, l, name, port');
        assert i == j;
      }
    }
    if OneOutputPerStream(cfg) {
      var outs := Outputs(cfg, n);
      forall i, j | 0 <= i < j < |outs|
        ensures outs[i].name != outs[j].name
      {
        var k := ListedIsOutput(cfg, n, i);
        var l := ListedIsOutput(cfg, n, j);
        RowsDiffer(cfg, n, i, j);
      }
    }
  }

  function InputPort(cfg: Config, v: nat, j: nat): nat
    requires v < NumNodes(cfg)
  {
    cfg.calculators[v].inputPort + j
  }

  /** Input `j` of `v` takes the stream that leaves output `k` of `u`. */
  predicate Feeds(cfg: Config, u: nat, k: nat, port: nat, v: nat, j: nat) {
    && v < NumNodes(cfg) && j < |cfg.calculators[v].inputs|
    && IsOutput(cfg, u, k, cfg.calculators[v].inputs[j].name, port)
  }

  /** In a validated graph every edge joins the port of an input to the port of the output that feeds it. */
  lemma EdgesAreStreams(cfg: Config, i: nat) returns (u: nat, k: nat, port: nat, v: nat, j: nat)
    requires Ordered(cfg) && BackEdgesConnected(cfg) && i < |StreamEdges(cfg)|
    ensures Feeds(cfg, u, k, port, v, j) && StreamEdges(cfg)[i] == PacketTypes.Edge.Edge(InputPort(cfg, v, j), port)
  {
    var n := NumNodes(cfg);
    v, j := FlatOrigin(cfg, n, i);
    InputIsConnected(cfg, v, j);
    var up := Completed(cfg, NodeInput(cfg, v, j)).upstream;
    k := ListedIsOutput(cfg, n, up);
    u, port := Outputs(cfg, n)[up].node, Outputs(cfg, n)[up].port;
    UpstreamHasName(cfg, v, j);
  }

  lemma UpstreamHasName(cfg: Config, v: nat, j: nat)
    requires Ordered(cfg) && BackEdgesConnected(cfg) && v < NumNodes(cfg) && j < |cfg.calculators[v].inputs|
    ensures var outs, e := Outputs(cfg, NumNodes(cfg)), Completed(cfg, NodeInput(cfg, v, j));
            0 <= e.upstream < |outs| && outs[e.upstream].name == cfg.calculators[v].inputs[j].name
  {
    InputIsConnected(cfg, v, j);
    OutputsGrow(cfg, v, NumNodes(cfg));
  }

  /** And every input has its edge. */
  lemma StreamsAreEdges(cfg: Config, u: nat, k: nat, port: nat, v: nat, j: nat) returns (i: nat)
    requires UniqueProducers(cfg) && Ordered(cfg) && BackEdgesConnected(cfg) && Feeds(cfg, u, k, port, v, j)
    ensures i < |StreamEdges(cfg)| && StreamEdges(cfg)[i] == PacketTypes.Edge.Edge(InputPort(cfg, v, j), port)
  {
    var n := NumNodes(cfg);
    FlatInput(cfg, n, v, j);
    i := InputBase(cfg, v) + j;
    UpstreamHasName(cfg, v, j);
    var at := OutputIsListed(cfg, n, u, k, cfg.calculators[v].inputs[j].name, port);
    assert at == Completed(cfg, NodeInput(cfg, v, j)).upstream;
  }

  /** So whatever an output that is not OneOf lets out is accepted by every input that takes its stream. */
  lemma StreamsCarryWhatIsSent(cfg: Config, types: Store, u: nat, k: nat, port: nat, v: nat, j: nat)
    requires Forest(types) && |types| == cfg.numPorts && PortsInRange(cfg)
    requires UniqueProducers(cfg) && Ordered(cfg) && BackEdgesConnected(cfg) && TypesAgree(cfg, types)
    requires Feeds(cfg, u, k, port, v, j)
    ensures EdgesInStore(StreamTypes(cfg, types), StreamEdges(cfg))
    ensures var t := ResolveAll(StreamTypes(cfg, types), StreamEdges(cfg));
            && port < |t| && InputPort(cfg, v, j) < |t|
            && (!RootSpec(t, port).OneOf? ==> forall p :: Validate(t, port, p) ==> Validate(t, InputPort(cfg, v, j), p))
  {
    var i := StreamsAreEdges(cfg, u, k, port, v, j);
    ValidatedStreamsAreSound(cfg, types, i);
  }

  /** `ids` gives every class of ports a type that both ends of every stream allow. */
  ghost predicate StreamsTypable(cfg: Config, types: Store, ids: seq<nat>)
    requires Forest(types) && |types| == cfg.numPorts && PortsInRange(cfg)
  {
    var s := StreamTypes(cfg, types);
    && |ids| == |s|
    && forall u: nat, k: nat, port: nat, v: nat, j: nat {:trigger Feeds(cfg, u, k, port, v, j)} :: Feeds(cfg, u, k, port, v, j) ==>
         && port < |s| && InputPort(cfg, v, j) < |s|
         && ids[GetSameAs(s, port)] == ids[GetSameAs(s, InputPort(cfg, v, j))]
         && EndTyped(s, ids, port) && EndTyped(s, ids, InputPort(cfg, v, j))
  }

  /** The analysis never refuses the types of a graph whose streams can be typed. */
  lemma TypableStreamsAgree(cfg: Config, types: Store, ids: seq<nat>)
    requires Forest(types) && |types| == cfg.numPorts && PortsInRange(cfg)
    requires Ordered(cfg) && BackEdgesConnected(cfg) && StreamsTypable(cfg, types, ids)
    ensures TypesAgree(cfg, types)
  {
    var s, edges := StreamTypes(cfg, types), StreamEdges(cfg);
    StreamEdgesInStore(cfg, types);
    forall e | e in edges && e.Edge?
      ensures ids[GetSameAs(s, e.input)] == ids[GetSameAs(s, e.output)]
      ensures EndTyped(s, ids, e.input) && EndTyped(s, ids, e.output)
    {
      var i :| 0 <= i < |edges| && edges[i] == e;
      var u, k, port, v, j := EdgesAreStreams(cfg, i);
      assert Feeds(cfg, u, k, port, v, j);
    }
    TypableGraphsAreValidated(s, edges, ids);
  }
}
